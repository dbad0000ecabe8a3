/**
 * Starting a first payment, and starting it again: what each of Paystack's verdicts on the charge in flight leads to.
 */
module CardRetry {
  import opened Idempotency
  import opened Ledger
  import opened LedgerInvariant
  import opened LedgerOutcomes
  import opened Money
  import opened Payments
  import opened Wrappers

  /**
   * The plan awaits row id, its latest first payment still pending, and the request's key stands for no live payment.
   */
  predicate Awaits(p: Plan, id: nat, request: Initiation) {
    && p.status == Pending && OwnKeys(p) && !LiveUnder(p, request.key)
    && id < |p.rows| && p.rows[id].kind == FirstPayment && p.rows[id].status == RowPending
    && forall i :: id < i < |p.rows| ==> !(p.rows[i].kind == FirstPayment && p.rows[i].status == RowPending)
  }

  lemma ReleasedAwaits(p: Plan, id: nat, request: Initiation)
    requires Awaits(p, id, request)
    ensures var released := ReleaseKey(p, request.key);
            !Replays(p, request.key) && LosesOnly(p.rows, released.rows, request.key) &&
            released == p.(rows := released.rows) && released.rows[id] == p.rows[id] &&
            LatestInFlight(released.rows) == id
  {
    ReplaysIff(p, request.key);
    ReleaseLosesOnly(p, request.key);
    hide KeyRow, ReleaseKey, LatestInFlight, OwnKeys;
    var released := ReleaseKey(p, request.key);
    assert forall i :: 0 <= i < |p.rows| ==>
      released.rows[i].kind == p.rows[i].kind && released.rows[i].status == p.rows[i].status;
  }

  /** Paystack says the charge was paid: it is credited, resumed, and nothing new is charged. */
  lemma PaidVerdict(p: Plan, id: nat, request: Initiation)
    requires Awaits(p, id, request) && p.rows[id].card && p.rows[id].accessCode && request.verdict == Paid
    ensures var o := Execute(p, Initiate(request));
            o.accepted && |o.plan.rows| == |p.rows| &&
            o.plan.rows[id] == p.rows[id].(status := RowSuccess, isConfirmed := true) &&
            LosesOnly(p.rows[id := o.plan.rows[id]], o.plan.rows, request.key) &&
            o.plan.fee == p.fee && o.plan.firstPaymentPaid == p.firstPaymentPaid &&
            o.plan.balance == Max(0, p.balance - p.rows[id].schoolAmount) &&
            (o.plan.status == if p.rows[id].schoolAmount >= p.balance then Completed else Active) &&
            o.plan.audit == Written(p, FirstPaymentPaid, Some(id), Some(p.balance), Some(o.plan.balance))
  {
    ReleasedAwaits(p, id, request);
    hide KeyRow, ReleaseKey, LatestInFlight, OwnKeys, Replays, CalculateInitialPayment;
    VerdictOutcome(ReleaseKey(p, request.key), Look(ReleaseKey(p, request.key), id));
    hide ReconcileCard, FailCard;
  }

  /** It gives no verdict: nothing moves, and the same charge is resumed. */
  lemma NoVerdictYet(p: Plan, id: nat, request: Initiation)
    requires Awaits(p, id, request) && p.rows[id].card && p.rows[id].accessCode && request.verdict == NoVerdict
    ensures var o := Execute(p, Initiate(request));
            o.accepted && o.plan == p.(rows := o.plan.rows) && LosesOnly(p.rows, o.plan.rows, request.key) &&
            (!Carried(p, request.key) ==> o.plan == p)
  {
    ReleasedAwaits(p, id, request);
    hide KeyRow, ReleaseKey, LatestInFlight, OwnKeys, Replays, CalculateInitialPayment;
    var released := ReleaseKey(p, request.key);
    if !Carried(p, request.key) {
      assert released.rows == p.rows;
    }
  }

  /** Whether the request can be charged at all. */
  predicate Chargeable(request: Initiation) {
    CalculateInitialPayment(request.fee, request.deposit).Ok? && request.deposit > 0
  }

  /**
   * A charge has been written over the plan: at the whole fee, under the request's key, and pending on a pending plan,
   * or failed on a failed one if Paystack refused it.
   */
  predicate Charged(p: Plan, q: Plan, request: Initiation) {
    && |q.rows| == |p.rows| + 1
    && q.fee == q.balance == request.fee && q.firstPaymentPaid == request.deposit && q.audit == p.audit
    && (q.status == if request.initialised then Pending else Failed)
    && var r := q.rows[|p.rows|];
       && r.kind == FirstPayment && r.card && r.toPlatform && !r.isConfirmed && r.idempotencyKey == request.key
       && r.amountPaid == request.deposit && r.schoolAmount == request.deposit - PlatformFee(request.fee)
       && (r.status == if request.initialised then RowPending else RowFailed)
       && r.accessCode == request.initialised
  }

  lemma ChargeWrites(p: Plan, request: Initiation, split: Deposit)
    requires CalculateInitialPayment(request.fee, request.deposit) == Ok(split)
    ensures Charged(p, OpenCharge(p, request, split), request)
    ensures OpenCharge(p, request, split).rows[..|p.rows|] == p.rows
  {
    hide PlatformFee;
  }

  /**
   * It says the charge is dead, or Paystack never took it: that row fails, no money moves, and a new charge is written
   * if the request can be charged. If not, the plan is left failed.
   */
  lemma DeadVerdict(p: Plan, id: nat, request: Initiation)
    requires Awaits(p, id, request) && p.rows[id].card && (!p.rows[id].accessCode || request.verdict == Dead)
    ensures var o := Execute(p, Initiate(request));
            |o.plan.rows| >= |p.rows| && o.plan.audit == p.audit &&
            o.plan.rows[id] == p.rows[id].(status := RowFailed) &&
            LosesOnly(p.rows[id := o.plan.rows[id]], o.plan.rows[..|p.rows|], request.key) &&
            (Chargeable(request) ==> Charged(p, o.plan, request) && o.accepted == request.initialised) &&
            (!Chargeable(request) ==> !o.accepted && o.plan == p.(rows := o.plan.rows, status := Failed) &&
                                      |o.plan.rows| == |p.rows|)
  {
    hide Awaits, Replays, CalculateInitialPayment, OpenCharge, ResolveExisting, PlatformFee;
    DeadResolves(p, id, request);
    var failed := ResolveExisting(p, request).plan;
    if Chargeable(request) {
      var split := CalculateInitialPayment(request.fee, request.deposit).value;
      ChargeWrites(failed, request, split);
      assert Execute(p, Initiate(request)) == Outcome(OpenCharge(failed, request, split), request.initialised);
      SameSize(p, failed, OpenCharge(failed, request, split), request);
    }
  }

  /** The dead charge is failed with its plan before anything else. */
  lemma DeadResolves(p: Plan, id: nat, request: Initiation)
    requires Awaits(p, id, request) && p.rows[id].card && (!p.rows[id].accessCode || request.verdict == Dead)
    ensures var o := ResolveExisting(p, request);
            id < |p.rows| && p.status == Pending && !Replays(p, request.key) && !o.accepted &&
            o.plan == p.(rows := o.plan.rows, status := Failed) && |o.plan.rows| == |p.rows| &&
            o.plan.rows[id] == p.rows[id].(status := RowFailed) &&
            LosesOnly(p.rows[id := o.plan.rows[id]], o.plan.rows, request.key)
  {
    ReleasedAwaits(p, id, request);
    hide KeyRow, ReleaseKey, LatestInFlight, OwnKeys, Replays;
    var released := ReleaseKey(p, request.key);
    VerdictOutcome(released, Look(released, id));
    hide ReconcileCard, FailCard;
    assert ResolveExisting(p, request).plan ==
           released.(rows := released.rows[id := p.rows[id].(status := RowFailed)], status := Failed);
  }

  lemma SameSize(p: Plan, q: Plan, r: Plan, request: Initiation)
    requires |p.rows| == |q.rows| && p.audit == q.audit
    ensures Charged(p, r, request) <==> Charged(q, r, request)
  {
  }

  /**
   * A failed plan, or a pending one whose latest first payment in flight, if any, is by hand, is charged afresh and
   * Paystack not asked.
   */
  lemma FreshStart(p: Plan, id: nat, request: Initiation)
    requires OwnKeys(p) && !LiveUnder(p, request.key)
    requires p.status == Failed ||
             (p.status == Pending && forall i :: 0 <= i < |p.rows| ==> !IsInFlightFirst(p.rows[i])) ||
             (Awaits(p, id, request) && !p.rows[id].card)
    ensures var o := Execute(p, Initiate(request));
            |o.plan.rows| >= |p.rows| && LosesOnly(p.rows, o.plan.rows[..|p.rows|], request.key) &&
            (Chargeable(request) ==> Charged(p, o.plan, request) && o.accepted == request.initialised) &&
            (!Chargeable(request) ==> !o.accepted && o.plan == p.(rows := o.plan.rows) && |o.plan.rows| == |p.rows|)
  {
    ReplaysIff(p, request.key);
    ReleaseLosesOnly(p, request.key);
    if Awaits(p, id, request) { ReleasedAwaits(p, id, request); }
    hide KeyRow, ReleaseKey, LatestInFlight, OwnKeys, Replays, CalculateInitialPayment, OpenCharge, Charged;
    var released := ReleaseKey(p, request.key);
    assert forall i :: 0 <= i < |p.rows| ==>
      released.rows[i].kind == p.rows[i].kind && released.rows[i].status == p.rows[i].status;
    assert ResolveExisting(p, request).plan == released;
    if Chargeable(request) {
      var split := CalculateInitialPayment(request.fee, request.deposit).value;
      ChargeWrites(released, request, split);
      SameSize(p, released, OpenCharge(released, request, split), request);
    }
  }

  /** A plan already paid into is refused, and stands. */
  lemma RefusedOnOpenPlan(p: Plan, request: Initiation)
    requires OwnKeys(p) && !LiveUnder(p, request.key) && p.status in {Active, Completed, Defaulted}
    ensures var o := Execute(p, Initiate(request));
            !o.accepted && o.plan == p.(rows := o.plan.rows) && LosesOnly(p.rows, o.plan.rows, request.key)
  {
    ReplaysIff(p, request.key);
    ReleaseLosesOnly(p, request.key);
  }
}
