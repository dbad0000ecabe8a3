/** A retry never opens a second charge beside a live one. */
module CardPath {
  import opened Ledger
  import opened LedgerInvariant
  import opened LedgerRuns
  import opened LedgerSums
  import opened Payments
  import opened Wrappers

  predicate IsLive(r: Row) { r.kind == FirstPayment && (r.status == RowPending || r.status == RowSuccess) }

  function LiveWeight(r: Row): int { if IsLive(r) then 1 else 0 }

  function LiveCount(p: Plan): int { Sum(p.rows, LiveWeight) }

  /**
   * Every first payment is by card; at most one is live; a failed plan has none, a pending one has none that
   * succeeded.
   */
  predicate OneLive(p: Plan) {
    && ValidRows(p.rows)
    && (forall i :: 0 <= i < |p.rows| && p.rows[i].kind == FirstPayment ==> p.rows[i].card)
    && LiveCount(p) <= 1
    && (p.status == Failed ==> LiveCount(p) == 0)
    && (p.status == Pending ==> forall i :: 0 <= i < |p.rows| && p.rows[i].kind == FirstPayment ==>
      p.rows[i].status != RowSuccess)
  }

  lemma WriteLive(p: Plan, id: nat, r: Row)
    requires id < |p.rows|
    ensures LiveCount(SetRow(p, id, r)) == LiveCount(p) - LiveWeight(p.rows[id]) + LiveWeight(r)
  {
    SumUpdate(p.rows, id, r, LiveWeight);
  }

  lemma LiveAtLeast(p: Plan, id: nat)
    requires id < |p.rows|
    ensures LiveCount(p) >= LiveWeight(p.rows[id])
  {
    assert NonNegative(p.rows, LiveWeight);
    SumAtLeast(p.rows, id, LiveWeight);
  }

  lemma ReleaseOneLive(p: Plan, key: Option<nat>)
    requires OneLive(p)
    ensures OneLive(ReleaseKey(p, key)) && LiveCount(ReleaseKey(p, key)) == LiveCount(p)
    ensures ReleaseKey(p, key).status == p.status
  {
    ReleaseKeepsSum(p, key, LiveWeight);
  }

  lemma CardStepsOneLive(p: Plan, seen: Snapshot)
    requires OneLive(p)
    ensures OneLive(ReconcileCard(p, seen).plan)
    ensures OneLive(FailCard(p, seen).plan)
    ensures OneLive(DisputeCard(p, seen).plan)
    ensures FailCard(p, seen).accepted ==> LiveCount(FailCard(p, seen).plan) == 0
  {
    if seen.id < |p.rows| {
      var r := p.rows[seen.id];
      LiveAtLeast(p, seen.id);
      WriteLive(p, seen.id, Succeed(r));
      WriteLive(p, seen.id, r.(status := RowFailed));
      WriteLive(p, seen.id, r.(status := RowFailed, isConfirmed := false));
      LiveAtLeast(SetRow(p, seen.id, r.(status := RowFailed)), seen.id);
      LiveAtLeast(SetRow(p, seen.id, r.(status := RowFailed, isConfirmed := false)), seen.id);
    }
  }

  lemma SubmitOneLive(p: Plan, amount: int, key: Option<nat>)
    requires OneLive(p)
    ensures OneLive(SubmitInstallment(p, amount, key).plan)
  {
    hide KeyRow, ReleaseKey, Sum;
    ReleaseOneLive(p, key);
    SumAppend(ReleaseKey(p, key).rows, NewInstallment(amount, key), LiveWeight);
  }

  lemma ConfirmOneLive(p: Plan, id: nat)
    requires OneLive(p)
    ensures OneLive(ConfirmPayment(p, id).plan)
  {
    hide Sum;
    if id < |p.rows| { WriteLive(p, id, Succeed(p.rows[id])); }
  }

  lemma ReverseOneLive(p: Plan, id: nat)
    requires OneLive(p)
    ensures OneLive(ReversePayment(p, id).plan)
  {
    hide Sum;
    if id < |p.rows| { WriteLive(p, id, p.rows[id].(status := RowReversed, isConfirmed := false)); }
  }

  /**
   * Rejecting a first payment fails the plan whatever the row's state, so the law survives exactly when the row was
   * itself the live one or none was.
   */
  lemma RejectOneLiveIff(p: Plan, id: nat)
    requires OneLive(p) && Execute(p, Reject(id)).accepted
    ensures OneLive(Step(p, Reject(id)))
       <==> (p.rows[id].kind == FirstPayment ==> p.rows[id].status == RowPending || LiveCount(p) == 0)
  {
    LiveAtLeast(p, id);
    WriteLive(p, id, p.rows[id].(status := RowFailed));
    LiveAtLeast(Step(p, Reject(id)), id);
  }

  lemma AmendOneLive(p: Plan, amount: int)
    requires OneLive(p)
    ensures OneLive(AmendMigratedPayment(p, amount).plan)
  {
    hide Sum, FindMigrated;
    var id := FindMigrated(p.rows);
    if id < |p.rows| {
      WriteLive(p, id, p.rows[id].(amountPaid := amount, schoolAmount := amount));
    }
  }

  /** By the time a fresh charge is written, no other first payment is live. */
  lemma NothingLiveBeforeCharge(p: Plan, request: Initiation)
    requires OneLive(p)
    ensures OneLive(ResolveExisting(p, request).plan)
    ensures OpensCharge(p, request) ==> LiveCount(ResolveExisting(p, request).plan) == 0
  {
    ReleaseOneLive(p, request.key);
    var released := ReleaseKey(p, request.key);
    hide CalculateInitialPayment, KeyRow, ReleaseKey, LatestInFlight, FailCard, ReconcileCard, Sum;
    var id := LatestInFlight(released.rows);
    if id < |released.rows| {
      CardStepsOneLive(released, Look(released, id));
      InFlightCanFail(released, id);
    } else if released.status == Pending {
      NoWeight(released.rows, LiveWeight);
    }
  }

  lemma InFlightCanFail(p: Plan, id: nat)
    requires id < |p.rows| && IsInFlightFirst(p.rows[id])
    ensures p.rows[id].card ==> FailCard(p, Look(p, id)).accepted
  {
  }

  /** A pending row appended where nothing was live, on a plan now pending. */
  lemma AppendOneLive(p: Plan, started: Plan, row: Row)
    requires OneLive(p) && LiveCount(p) == 0
    requires started.rows == p.rows + [row] && started.status == Pending
    requires ValidRow(row) && row.card && row.status == RowPending
    ensures OneLive(started)
  {
    SumAppend(p.rows, row, LiveWeight);
    hide Sum;
    forall i | 0 <= i < |p.rows|
      ensures !IsLive(p.rows[i])
    {
      LiveAtLeast(p, i);
    }
  }

  lemma OpenChargeOneLive(p: Plan, request: Initiation, split: Deposit)
    requires OneLive(p) && LiveCount(p) == 0
    requires CalculateInitialPayment(request.fee, request.deposit) == Ok(split)
    ensures OneLive(OpenCharge(p, request, split))
  {
    AcceptedDeposit(request.fee, request.deposit);
    hide CalculateInitialPayment, OneLive, LiveCount, FailCard;
    var row := NewCardRow(request.deposit, split.amountToSchool, request.key);
    var started := p.(fee := split.schoolFees, balance := split.schoolFees, status := Pending,
                      firstPaymentPaid := request.deposit, rows := p.rows + [row]);
    if request.initialised {
      assert started.rows[|p.rows| := row.(accessCode := true)] == p.rows + [row.(accessCode := true)];
      AppendOneLive(p, OpenCharge(p, request, split), row.(accessCode := true));
    } else {
      AppendOneLive(p, started, row);
      CardStepsOneLive(started, Look(started, |p.rows|));
    }
  }

  lemma InitiateOneLive(p: Plan, request: Initiation)
    requires OneLive(p)
    ensures OneLive(InitiateFirstPayment(p, request).plan)
  {
    hide OneLive, CalculateInitialPayment, OpenCharge, ResolveExisting, ReleaseKey, KeyRow, Sum;
    ReleaseOneLive(p, request.key);
    NothingLiveBeforeCharge(p, request);
    if OpensCharge(p, request) {
      OpenChargeOneLive(ResolveExisting(p, request).plan, request,
        CalculateInitialPayment(request.fee, request.deposit).value);
    }
  }

  predicate SafeReject(p: Plan, c: Command) {
    c.Reject? && Execute(p, c).accepted && p.rows[c.id].kind == FirstPayment ==>
      p.rows[c.id].status == RowPending || LiveCount(p) == 0
  }

  lemma StepOneLive(p: Plan, c: Command)
    requires OneLive(p) && SafeReject(p, c)
    ensures OneLive(Step(p, c))
  {
    if c.Reject? {
      if Execute(p, c).accepted { RejectOneLiveIff(p, c.id); }
      else { assert Step(p, c) == p; }
    } else {
      hide SubmitInstallment, ConfirmPayment, RejectPayment, ReversePayment,
           ReconcileCard, FailCard, DisputeCard, AmendMigratedPayment, InitiateFirstPayment;
      match c
      case Submit(amount, key) => SubmitOneLive(p, amount, key);
      case Confirm(id) => ConfirmOneLive(p, id);
      case Reverse(id) => ReverseOneLive(p, id);
      case SettleFirst(id) =>
      case RejectFirst(id) =>
      case ConfirmFirst(id) =>
      case Reconcile(id) => if id < |p.rows| { CardStepsOneLive(p, Look(p, id)); }
      case Fail(id) => if id < |p.rows| { CardStepsOneLive(p, Look(p, id)); }
      case Dispute(id) => if id < |p.rows| { CardStepsOneLive(p, Look(p, id)); }
      case Amend(amount) => AmendOneLive(p, amount);
      case Default =>
      case Sweep =>
      case Initiate(request) => InitiateOneLive(p, request);
    }
  }

  /** A plan opened by a card payment starts within the law. */
  lemma CardOpeningOneLive(request: Initiation, split: Deposit)
    requires CalculateInitialPayment(request.fee, request.deposit) == Ok(split)
    ensures OneLive(OpenCard(request, split))
  {
    OpenChargeOneLive(NewEnrollment(split.schoolFees), request, split);
  }

  /** In every run of the card path at most one first payment is ever live, and none beside a fresh charge. */
  lemma {:induction false} AtMostOneLiveFirstPayment(p: Plan, commands: seq<Command>, request: Initiation)
    requires OneLive(p) && Throughout(p, commands, SafeReject)
    ensures var q := Run(p, commands);
            OneLive(q) && (OpensCharge(q, request) ==> LiveCount(ResolveExisting(q, request).plan) == 0)
    decreases |commands|
  {
    if commands == [] {
      NothingLiveBeforeCharge(p, request);
    } else {
      StepOneLive(p, commands[0]);
      AtMostOneLiveFirstPayment(Step(p, commands[0]), commands[1..], request);
    }
  }
}
