/** A key stands for one payment: a retry under it changes nothing, and a dead payment's key can be used again. */
module Idempotency {
  import opened Ledger
  import opened LedgerSums
  import opened Payments
  import opened Wrappers

  /** No two rows carry the same key. */
  predicate OwnKeys(p: Plan) {
    forall i, j :: 0 <= i < j < |p.rows| && p.rows[i].idempotencyKey.Some? ==>
      p.rows[i].idempotencyKey != p.rows[j].idempotencyKey
  }

  /** Some row that is pending or successful carries the key. */
  predicate LiveUnder(p: Plan, key: Option<nat>) {
    && key.Some?
    && exists i :: 0 <= i < |p.rows| && p.rows[i].idempotencyKey == key && p.rows[i].status in {RowPending, RowSuccess}
  }

  /** Some row carries the key. */
  predicate Carried(p: Plan, key: Option<nat>) {
    key.Some? && exists i :: 0 <= i < |p.rows| && p.rows[i].idempotencyKey == key
  }

  lemma ReplaysIff(p: Plan, key: Option<nat>)
    requires OwnKeys(p)
    ensures Replays(p, key) <==> LiveUnder(p, key)
  {
    var id := KeyRow(p.rows, key);
    if LiveUnder(p, key) {
      var i :| 0 <= i < |p.rows| && p.rows[i].idempotencyKey == key && IsReplayable(p.rows[i].status);
      assert id <= i;
      assert id == i;
    }
  }

  /** Every row stands, but that a dead one may have lost the key. */
  predicate LosesOnly(before: seq<Row>, after: seq<Row>, key: Option<nat>) {
    && |after| == |before|
    && forall i :: 0 <= i < |before| ==>
      if key.Some? && before[i].idempotencyKey == key && before[i].status !in {RowPending, RowSuccess}
      then after[i] == before[i].(idempotencyKey := None)
      else after[i] == before[i]
  }

  lemma ReleaseLosesOnly(p: Plan, key: Option<nat>)
    requires OwnKeys(p)
    ensures LosesOnly(p.rows, ReleaseKey(p, key).rows, key) && ReleaseKey(p, key) == p.(rows := ReleaseKey(p, key).rows)
    ensures OwnKeys(ReleaseKey(p, key))
    ensures !LiveUnder(p, key) ==> !Carried(ReleaseKey(p, key), key)
  {
    ReplaysIff(p, key);
  }

  // ------------------------------------------------------------------ what a submission does

  /** Under a live key a submission or an initiation answers again and writes nothing. */
  lemma RetryIsInert(p: Plan, key: Option<nat>, amount: int, request: Initiation)
    requires OwnKeys(p) && LiveUnder(p, key)
    ensures Execute(p, Submit(amount, key)) == Outcome(p, true)
    ensures request.key == key ==> Execute(p, Initiate(request)) == Outcome(p, true)
  {
    ReplaysIff(p, key);
  }

  /**
   * Any other submission takes the key from a dead row that held it, and is accepted exactly when its amount is
   * positive and fits what is neither paid nor reserved. It then adds one pending instalment of that amount, under the
   * key.
   */
  lemma SubmissionOutcome(p: Plan, amount: int, key: Option<nat>)
    requires OwnKeys(p) && !LiveUnder(p, key)
    ensures var (q, accepted) := (Step(p, Submit(amount, key)), Execute(p, Submit(amount, key)).accepted);
            (accepted <==> 0 < amount && amount + Reserved(p) <= p.balance) &&
            q == p.(rows := q.rows) && |q.rows| == |p.rows| + (if accepted then 1 else 0) &&
            LosesOnly(p.rows, q.rows[..|p.rows|], key) &&
            (accepted ==>
              var r := q.rows[|p.rows|];
              r.kind == Installment && r.status == RowPending && !r.isConfirmed &&
              r.amountPaid == r.schoolAmount == amount && !r.card && !r.toPlatform && r.idempotencyKey == key)
  {
    ReplaysIff(p, key);
    ReleaseLosesOnly(p, key);
    ReleaseKeepsSum(p, key, ReservedWeight);
    hide KeyRow, ReleaseKey, Sum, OwnKeys, LiveUnder;
  }

  /** However often a payment is submitted under its key, it is submitted once, whatever amount the retries carry. */
  lemma SubmittedOnce(p: Plan, amount: int, again: int, key: Option<nat>)
    requires OwnKeys(p) && key.Some? && Execute(p, Submit(amount, key)).accepted
    ensures Step(Step(p, Submit(amount, key)), Submit(again, key)) == Step(p, Submit(amount, key))
  {
    if LiveUnder(p, key) {
      RetryIsInert(p, key, amount, Initiation(0, 0, None, Dead, false));
      RetryIsInert(p, key, again, Initiation(0, 0, None, Dead, false));
    } else {
      SubmissionOutcome(p, amount, key);
      StepOwnsKeys(p, Submit(amount, key));
      var q := Step(p, Submit(amount, key));
      assert q.rows[|p.rows|].idempotencyKey == key;
      hide Step, OwnKeys;
      RetryIsInert(q, key, again, Initiation(0, 0, None, Dead, false));
    }
  }

  // ------------------------------------------------------------------ over runs

  /** The keys of a plan's rows stand, but for those given up. */
  predicate KeysStand(p: Plan, q: Plan) {
    |q.rows| == |p.rows| && forall i :: 0 <= i < |p.rows| ==>
      q.rows[i].idempotencyKey == p.rows[i].idempotencyKey || q.rows[i].idempotencyKey == None
  }

  lemma StandingKeysAreOwn(p: Plan, q: Plan)
    requires OwnKeys(p) && KeysStand(p, q)
    ensures OwnKeys(q)
  {
  }

  lemma AppendOwnsKeys(p: Plan, q: Plan, key: Option<nat>)
    requires OwnKeys(p) && !Carried(p, key)
    requires |q.rows| == |p.rows| + 1 && q.rows[|p.rows|].idempotencyKey == key
    requires forall i :: 0 <= i < |p.rows| ==> q.rows[i].idempotencyKey == p.rows[i].idempotencyKey
    ensures OwnKeys(q)
  {
  }

  lemma RowCommandKeepsKeys(p: Plan, c: Command)
    requires !c.Submit? && !c.Initiate?
    ensures KeysStand(p, Step(p, c))
  {
    hide FindMigrated, Sum;
  }

  lemma ResolvingKeepsKeys(p: Plan, verdict: Verdict)
    ensures KeysStand(p, ResolvePending(p, verdict).plan)
    ensures forall key: Option<nat> :: Carried(ResolvePending(p, verdict).plan, key) ==> Carried(p, key)
  {
    hide LatestInFlight;
  }

  lemma SubmitOwnsKeys(p: Plan, amount: int, key: Option<nat>)
    requires OwnKeys(p)
    ensures OwnKeys(Step(p, Submit(amount, key)))
  {
    ReplaysIff(p, key);
    ReleaseLosesOnly(p, key);
    var released := ReleaseKey(p, key);
    hide KeyRow, Sum, OwnKeys, LiveUnder, ReleaseKey, Carried;
    var q := Step(p, Submit(amount, key));
    if !Replays(p, key) && Execute(p, Submit(amount, key)).accepted {
      AppendOwnsKeys(released, q, key);
    }
  }

  lemma InitiateOwnsKeys(p: Plan, request: Initiation)
    requires OwnKeys(p)
    ensures OwnKeys(Step(p, Initiate(request)))
  {
    ReplaysIff(p, request.key);
    ReleaseLosesOnly(p, request.key);
    var released := ReleaseKey(p, request.key);
    ResolvingKeepsKeys(released, request.verdict);
    hide KeyRow, OwnKeys, LiveUnder, ReleaseKey, Carried, ResolvePending, CalculateInitialPayment, FailCard;
    var resolved := ResolveExisting(p, request).plan;
    StandingKeysAreOwn(released, resolved);
    if OpensCharge(p, request) {
      var q := Step(p, Initiate(request));
      ChargeAppends(resolved, request, CalculateInitialPayment(request.fee, request.deposit).value);
      AppendOwnsKeys(resolved, q, request.key);
    }
  }

  lemma ChargeAppends(p: Plan, request: Initiation, split: Deposit)
    ensures var q := OpenCharge(p, request, split);
            |q.rows| == |p.rows| + 1 && q.rows[..|p.rows|] == p.rows && q.rows[|p.rows|].idempotencyKey == request.key
  {
  }

  lemma StepOwnsKeys(p: Plan, c: Command)
    requires OwnKeys(p)
    ensures OwnKeys(Step(p, c))
  {
    hide OwnKeys, Step;
    match c
    case Submit(amount, key) => SubmitOwnsKeys(p, amount, key);
    case Initiate(request) => InitiateOwnsKeys(p, request);
    case _ => RowCommandKeepsKeys(p, c); StandingKeysAreOwn(p, Step(p, c));
  }

  /** Over every run, no two payments ever carry the same key. */
  lemma {:induction false} RunOwnsKeys(p: Plan, commands: seq<Command>)
    requires OwnKeys(p)
    ensures OwnKeys(Run(p, commands))
    decreases |commands|
  {
    hide OwnKeys, Step;
    if commands != [] {
      StepOwnsKeys(p, commands[0]);
      RunOwnsKeys(Step(p, commands[0]), commands[1..]);
    }
  }

  /** Both openings start with keys of their own. */
  lemma OpeningsOwnKeys(fee: int, alreadyPaid: int, request: Initiation, split: Deposit)
    ensures OwnKeys(OpenMigrated(fee, alreadyPaid)) && OwnKeys(OpenCard(request, split))
  {
  }
}
