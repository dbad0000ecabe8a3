/** The money laws under interleaving: which stale commits keep them, and which races. */
module RaceMoney {
  import opened CardPath
  import opened CardRace
  import opened Ledger
  import opened LedgerInvariant
  import opened LedgerRuns
  import opened Wrappers

  // ------------------------------------------------------------------ the invariant

  /**
   * A stale commit keeps the invariant exactly when it does not reset the balance to a fee the plan no longer has room
   * for.
   */
  lemma CommitValidIff(p: Plan, call: Call)
    requires Valid(p) && CommitCall(p, call).accepted
    ensures Valid(CommitCall(p, call).plan)
       <==> (call.intent == ToDispute && WasCredited(call.seen) ==> 0 <= call.seen.fee <= p.fee)
  {
    CardStepsValid(p, call.seen);
  }

  predicate SafeForInvariant(s: System, step: RaceStep) {
    step.Commit? && step.call < |s.calls| && CommitCall(s.plan, s.calls[step.call]).accepted ==>
      var call := s.calls[step.call];
      call.intent == ToDispute && WasCredited(call.seen) ==> 0 <= call.seen.fee <= s.plan.fee
  }

  lemma RefusedCommit(p: Plan, call: Call)
    ensures !CommitCall(p, call).accepted ==> CommitCall(p, call).plan == p
  {
  }

  /** Every step of a race keeps the invariant, exactly if it is safe in that sense. */
  lemma AdvanceValidIff(s: System, step: RaceStep)
    requires Valid(s.plan)
    ensures Valid(Advance(s, step).plan) <==> SafeForInvariant(s, step)
  {
    hide Valid, Step, CommitCall, WasCredited;
    match step
    case Commit(call) =>
      if call < |s.calls| {
        RefusedCommit(s.plan, s.calls[call]);
        if CommitCall(s.plan, s.calls[call]).accepted { CommitValidIff(s.plan, s.calls[call]); }
      }
    case Other(command) => StepValid(s.plan, command);
    case _ =>
  }

  // ------------------------------------------------------------------ no phantom credit

  predicate SafeForCredit(s: System, step: RaceStep) {
    && SafeForInvariant(s, step)
    && (step.Other? ==> SafeForBacking(s.plan, step.command))
    && (step.Commit? && step.call < |s.calls| && s.calls[step.call].intent == ToDispute &&
        CommitCall(s.plan, s.calls[step.call]).accepted ==>
          var seen := s.calls[step.call].seen;
          if WasCredited(seen) then s.plan.fee - seen.fee <= Backing(s.plan) - s.plan.rows[seen.id].schoolAmount
          else s.plan.fee - s.plan.balance <= Backing(s.plan) - s.plan.rows[seen.id].schoolAmount)
  }

  /**
   * A stale dispute leaves credit backed exactly when the rows left cover what its reset, or want of one, leaves
   * credited.
   */
  lemma StaleDisputeBackedIff(p: Plan, seen: Snapshot)
    requires DisputeCard(p, seen).accepted && ValidRows(p.rows)
    ensures Backed(DisputeCard(p, seen).plan) <==>
            if WasCredited(seen) then p.fee - seen.fee <= Backing(p) - p.rows[seen.id].schoolAmount
            else p.fee - p.balance <= Backing(p) - p.rows[seen.id].schoolAmount
  {
    WriteRow(p, seen.id, p.rows[seen.id].(status := RowFailed, isConfirmed := false));
    hide Sum;
  }

  lemma AdvanceBacked(s: System, step: RaceStep)
    requires Valid(s.plan) && Backed(s.plan) && SafeForCredit(s, step)
    ensures Valid(Advance(s, step).plan) && Backed(Advance(s, step).plan)
  {
    hide SafeForBacking, Step, CommitCall, Backing;
    AdvanceValidIff(s, step);
    match step
    case Commit(call) =>
      if call < |s.calls| {
        CommitBacked(s.plan, s.calls[call]);
      }
    case Other(command) => StepBacked(s.plan, command);
    case _ =>
  }

  lemma CommitBacked(p: Plan, call: Call)
    requires Valid(p) && Backed(p)
    requires call.intent == ToDispute && CommitCall(p, call).accepted ==>
             if WasCredited(call.seen) then p.fee - call.seen.fee <= Backing(p) - p.rows[call.seen.id].schoolAmount
             else p.fee - p.balance <= Backing(p) - p.rows[call.seen.id].schoolAmount
    ensures Backed(CommitCall(p, call).plan)
  {
    hide Valid, Backed, Backing, ReconcileCard, FailCard;
    RefusedCommit(p, call);
    ValidHasValidRows(p);
    CardStepsBacked(p, call.seen);
    if call.intent == ToDispute && CommitCall(p, call).accepted {
      StaleDisputeBackedIff(p, call.seen);
    }
    hide DisputeCard, WasCredited;
  }

  ghost predicate SafeRace(s: System, steps: seq<RaceStep>, safe: (System, RaceStep) -> bool)
    decreases |steps|
  {
    steps == [] || (safe(s, steps[0]) && SafeRace(Advance(s, steps[0]), steps[1..], safe))
  }

  /** Over every race of such steps the invariant holds and nothing is credited without a confirmed row behind it. */
  lemma {:induction false} RaceKeepsMoney(s: System, steps: seq<RaceStep>)
    requires Valid(s.plan) && Backed(s.plan) && SafeRace(s, steps, SafeForCredit)
    ensures Valid(RunRace(s, steps).plan) && Backed(RunRace(s, steps).plan)
    decreases |steps|
  {
    hide Valid, Backed, SafeForCredit, Advance;
    if steps != [] {
      AdvanceBacked(s, steps[0]);
      RaceKeepsMoney(Advance(s, steps[0]), steps[1..]);
    }
  }

  // ------------------------------------------------------------------ the audit trail

  /**
   * A stale commit's audit row records the balance its caller had read, so it replays exactly when the plan still had
   * that balance. A failure writes no row and moves no money, and a dispute that resets nothing records no move.
   */
  lemma CommitReplaysIff(p: Plan, call: Call)
    requires CommitCall(p, call).accepted
    ensures TrailReplays(p, CommitCall(p, call).plan) <==>
            call.seen.balance == p.balance || call.intent == ToFail ||
              (call.intent == ToDispute && !WasCredited(call.seen))
  {
    hide Deltas;
    var q := CommitCall(p, call).plan;
    if call.intent == ToReconcile {
      DeltasAppend(p.audit, AuditRow(FirstPaymentPaid, Some(call.seen.id), Some(call.seen.balance), Some(q.balance)));
    } else if call.intent == ToDispute {
      var after := if WasCredited(call.seen) then call.seen.fee else call.seen.balance;
      DeltasAppend(p.audit, AuditRow(PaymentDisputed, Some(call.seen.id), Some(call.seen.balance), Some(after)));
    }
  }

  predicate SafeForReplay(s: System, step: RaceStep) {
    && (step.Other? ==> SafeForTrail(s.plan, step.command))
    && (step.Commit? && step.call < |s.calls| && CommitCall(s.plan, s.calls[step.call]).accepted ==>
         var call := s.calls[step.call];
         call.seen.balance == s.plan.balance || call.intent == ToFail ||
           (call.intent == ToDispute && !WasCredited(call.seen)))
  }

  lemma AdvanceReplays(s: System, step: RaceStep)
    requires SafeForReplay(s, step)
    ensures TrailReplays(s.plan, Advance(s, step).plan)
  {
    hide Step, CommitCall, WasCredited, SafeForTrail;
    match step
    case Commit(call) =>
      if call < |s.calls| {
        RefusedCommit(s.plan, s.calls[call]);
        if CommitCall(s.plan, s.calls[call]).accepted { CommitReplaysIff(s.plan, s.calls[call]); }
      }
    case Other(command) => StepReplaysIff(s.plan, command);
    case _ =>
  }

  /** Over every race of such steps the trail replays the balance. */
  lemma {:induction false} RaceReplaysBalance(s: System, steps: seq<RaceStep>)
    requires SafeRace(s, steps, SafeForReplay)
    ensures TrailReplays(s.plan, RunRace(s, steps).plan)
    decreases |steps|
  {
    hide SafeForReplay, Advance, Deltas;
    if steps != [] {
      AdvanceReplays(s, steps[0]);
      RaceReplaysBalance(Advance(s, steps[0]), steps[1..]);
      var q, end := Advance(s, steps[0]).plan, RunRace(s, steps).plan;
      assert end.audit[..|s.plan.audit|] == end.audit[..|q.audit|][..|s.plan.audit|];
    }
  }

  // ------------------------------------------------------------------ at most one live first payment

  predicate SafeForCard(s: System, step: RaceStep) { step.Other? ==> SafeReject(s.plan, step.command) }

  lemma AdvanceOneLive(s: System, step: RaceStep)
    requires OneLive(s.plan) && SafeForCard(s, step)
    ensures OneLive(Advance(s, step).plan)
  {
    hide OneLive, Step, ReconcileCard, FailCard, DisputeCard, SafeReject;
    match step
    case Commit(call) => if call < |s.calls| { CardStepsOneLive(s.plan, s.calls[call].seen); }
    case Other(command) => StepOneLive(s.plan, command);
    case _ =>
  }

  /** Over every race, however stale its callers, at most one first payment is live, and none beside a fresh charge. */
  lemma {:induction false} RaceOneLive(s: System, steps: seq<RaceStep>, request: Initiation)
    requires OneLive(s.plan) && SafeRace(s, steps, SafeForCard)
    ensures var q := RunRace(s, steps).plan;
            OneLive(q) && (OpensCharge(q, request) ==> LiveCount(ResolveExisting(q, request).plan) == 0)
    decreases |steps|
  {
    hide OneLive, SafeForCard, Advance, ResolveExisting, OpensCharge;
    if steps == [] {
      NothingLiveBeforeCharge(s.plan, request);
    } else {
      AdvanceOneLive(s, steps[0]);
      RaceOneLive(Advance(s, steps[0]), steps[1..], request);
    }
  }
}
