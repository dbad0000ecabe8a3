/**
 * Webhook, verify-on-return and sweep all race on the same card payment, each holding whatever it read beforehand.
 *
 * A caller reads the row and its plan, and commits later; any other ledger command and any other caller may fall in
 * between.
 */
module CardRace {
  import opened Ledger
  import opened LedgerInvariant
  import opened Money
  import opened Payments
  import opened Wrappers

  datatype Intent = ToReconcile | ToFail | ToDispute

  /** A caller that has read its snapshot and not yet opened its transaction. */
  datatype Call = Call(intent: Intent, seen: Snapshot)

  datatype System = System(plan: Plan, calls: seq<Call>, events: set<nat>)

  datatype RaceStep =
    | Prefetch(intent: Intent, id: nat)
    | Commit(call: nat)
    | Deliver(event: nat, intent: Intent, id: nat, crashes: bool)
    | Other(command: Command)

  function CommitCall(p: Plan, call: Call): Outcome {
    match call.intent
    case ToReconcile => ReconcileCard(p, call.seen)
    case ToFail => FailCard(p, call.seen)
    case ToDispute => DisputeCard(p, call.seen)
  }

  function Read(s: System, intent: Intent, id: nat): System {
    if IsCardRow(s.plan, id) then s.(calls := s.calls + [Call(intent, Look(s.plan, id))]) else s
  }

  /** One step of anyone. A webhook delivery is logged under its event key first, and a known key goes no further. */
  function Advance(s: System, step: RaceStep): System {
    match step
    case Prefetch(intent, id) => Read(s, intent, id)
    case Commit(call) => if call < |s.calls| then s.(plan := CommitCall(s.plan, s.calls[call]).plan) else s
    case Deliver(event, intent, id, crashes) =>
      if event in s.events then s
      else
        var logged := s.(events := s.events + {event});
        if crashes then logged else Read(logged, intent, id)
    case Other(command) => s.(plan := Step(s.plan, command))
  }

  function RunRace(s: System, steps: seq<RaceStep>): System
    decreases |steps|
  {
    if steps == [] then s else RunRace(Advance(s, steps[0]), steps[1..])
  }

  // ------------------------------------------------------------------ what the trail says of one row

  function Count(audit: seq<AuditRow>, action: AuditAction, id: nat): nat {
    if audit == [] then 0
    else
      var last := audit[|audit| - 1];
      Count(audit[..|audit| - 1], action, id) + if last.action == action && last.row == Some(id) then 1 else 0
  }

  lemma CountAppend(audit: seq<AuditRow>, a: AuditRow, action: AuditAction, id: nat)
    ensures Count(audit + [a], action, id) == Count(audit, action, id)
      + if a.action == action && a.row == Some(id) then 1 else 0
  {
    assert (audit + [a])[..|audit|] == audit;
  }

  /** Times the row's school share has been credited, and times that has been taken back. */
  function Paid(p: Plan, id: nat): nat { Count(p.audit, FirstPaymentPaid, id) }

  function Disputed(p: Plan, id: nat): nat { Count(p.audit, PaymentDisputed, id) }

  /**
   * The trail and the row agree: unpaid while pending, paid once on success, and failed either unpaid or paid and
   * disputed.
   */
  predicate Consistent(p: Plan, id: nat) {
    if id >= |p.rows| then Paid(p, id) == 0 && Disputed(p, id) == 0
    else if !p.rows[id].card then true
    else match p.rows[id].status
      case RowPending => Paid(p, id) == 0 && Disputed(p, id) == 0
      case RowSuccess => Paid(p, id) == 1 && Disputed(p, id) == 0
      case RowFailed => Paid(p, id) == Disputed(p, id) <= 1
      case RowReversed => false
  }

  predicate Orderly(p: Plan, id: nat) { ValidRows(p.rows) && Consistent(p, id) }

  /** The only ways a card payment's status ever moves. */
  predicate Moves(before: RowStatus, after: RowStatus) {
    before == after || before == RowPending || (before == RowSuccess && after == RowFailed)
  }

  /** What one plan-level change may do to a card row and its trail. */
  predicate RowAdvances(p: Plan, q: Plan, id: nat) {
    && |p.rows| <= |q.rows|
    && (IsCardRow(p, id) ==>
         && q.rows[id].card && q.rows[id].schoolAmount == p.rows[id].schoolAmount
         && Moves(p.rows[id].status, q.rows[id].status)
         && Paid(p, id) <= Paid(q, id)
         && (Paid(q, id) > Paid(p, id) ==>
              && Paid(q, id) == Paid(p, id) + 1
              && p.rows[id].status == RowPending && q.rows[id].status == RowSuccess
              && q.balance == Max(0, p.balance - p.rows[id].schoolAmount)))
  }

  /** Written as one row of trail, or none. */
  predicate AppendsAtMost(p: Plan, q: Plan) {
    q.audit == p.audit || (|q.audit| == |p.audit| + 1 && q.audit[..|p.audit|] == p.audit)
  }

  predicate Appends(p: Plan, q: Plan, action: AuditAction, id: nat)
    requires AppendsAtMost(p, q)
  {
    q.audit != p.audit && q.audit[|p.audit|].action == action && q.audit[|p.audit|].row == Some(id)
  }

  lemma TrailOf(p: Plan, q: Plan, id: nat)
    requires AppendsAtMost(p, q)
    ensures Paid(q, id) == Paid(p, id) + if Appends(p, q, FirstPaymentPaid, id) then 1 else 0
    ensures Disputed(q, id) == Disputed(p, id) + if Appends(p, q, PaymentDisputed, id) then 1 else 0
  {
    if q.audit != p.audit {
      assert q.audit == p.audit + [q.audit[|p.audit|]];
      CountAppend(p.audit, q.audit[|p.audit|], FirstPaymentPaid, id);
      CountAppend(p.audit, q.audit[|p.audit|], PaymentDisputed, id);
    }
  }

  lemma ReconcileOrderly(p: Plan, seen: Snapshot, id: nat)
    requires Orderly(p, id)
    ensures Orderly(ReconcileCard(p, seen).plan, id) && RowAdvances(p, ReconcileCard(p, seen).plan, id)
  {
    hide Count;
    TrailOf(p, ReconcileCard(p, seen).plan, id);
  }

  lemma FailOrderly(p: Plan, seen: Snapshot, id: nat)
    requires Orderly(p, id)
    ensures Orderly(FailCard(p, seen).plan, id) && RowAdvances(p, FailCard(p, seen).plan, id)
  {
    hide Count;
  }

  lemma DisputeOrderly(p: Plan, seen: Snapshot, id: nat)
    requires Orderly(p, id)
    ensures Orderly(DisputeCard(p, seen).plan, id) && RowAdvances(p, DisputeCard(p, seen).plan, id)
  {
    hide Count;
    TrailOf(p, DisputeCard(p, seen).plan, id);
  }

  /** A commit, however stale its snapshot, is orderly. */
  lemma CommitOrderly(p: Plan, call: Call, id: nat)
    requires Orderly(p, id)
    ensures Orderly(CommitCall(p, call).plan, id) && RowAdvances(p, CommitCall(p, call).plan, id)
  {
    hide Orderly, RowAdvances, ReconcileCard, FailCard, DisputeCard;
    match call.intent
    case ToReconcile => ReconcileOrderly(p, call.seen, id);
    case ToFail => FailOrderly(p, call.seen, id);
    case ToDispute => DisputeOrderly(p, call.seen, id);
  }

  lemma SubmitOrderly(p: Plan, amount: int, key: Option<nat>, id: nat)
    requires Orderly(p, id)
    ensures Orderly(Step(p, Submit(amount, key)), id) && RowAdvances(p, Step(p, Submit(amount, key)), id)
  {
    ReleaseOrderly(p, key, id);
    hide Count, KeyRow, Sum, ReleaseKey;
  }

  lemma ConfirmOrderly(p: Plan, row: nat, id: nat)
    requires Orderly(p, id)
    ensures Orderly(Step(p, Confirm(row)), id) && RowAdvances(p, Step(p, Confirm(row)), id)
  {
    hide Count;
    TrailOf(p, Step(p, Confirm(row)), id);
  }

  lemma RejectOrderly(p: Plan, row: nat, id: nat)
    requires Orderly(p, id)
    ensures Orderly(Step(p, Reject(row)), id) && RowAdvances(p, Step(p, Reject(row)), id)
  {
    hide Count;
    TrailOf(p, Step(p, Reject(row)), id);
  }

  lemma ReverseOrderly(p: Plan, row: nat, id: nat)
    requires Orderly(p, id)
    ensures Orderly(Step(p, Reverse(row)), id) && RowAdvances(p, Step(p, Reverse(row)), id)
  {
    hide Count;
    TrailOf(p, Step(p, Reverse(row)), id);
  }

  lemma ManualCommandsOrderly(p: Plan, c: Command, id: nat)
    requires Orderly(p, id) && (c.SettleFirst? || c.RejectFirst? || c.ConfirmFirst?)
    ensures Orderly(Step(p, c), id) && RowAdvances(p, Step(p, c), id)
  {
    hide Count;
    TrailOf(p, Step(p, c), id);
  }

  lemma AmendOrderly(p: Plan, amount: int, id: nat)
    requires Orderly(p, id)
    ensures Orderly(Step(p, Amend(amount)), id) && RowAdvances(p, Step(p, Amend(amount)), id)
  {
    hide Count, FindMigrated, Sum;
    TrailOf(p, Step(p, Amend(amount)), id);
  }

  lemma DefaultsOrderly(p: Plan, c: Command, id: nat)
    requires Orderly(p, id) && (c.Default? || c.Sweep?)
    ensures Orderly(Step(p, c), id) && RowAdvances(p, Step(p, c), id)
  {
    hide Count;
    TrailOf(p, Step(p, c), id);
  }

  lemma ReleaseOrderly(p: Plan, key: Option<nat>, id: nat)
    requires Orderly(p, id)
    ensures Orderly(ReleaseKey(p, key), id) && RowAdvances(p, ReleaseKey(p, key), id)
    ensures ReleaseKey(p, key).balance == p.balance && ReleaseKey(p, key).audit == p.audit
  {
    hide Count, KeyRow;
  }

  lemma ResolveOrderly(p: Plan, request: Initiation, id: nat)
    requires Orderly(p, id)
    ensures Orderly(ResolveExisting(p, request).plan, id) && RowAdvances(p, ResolveExisting(p, request).plan, id)
    ensures !ResolveExisting(p, request).accepted ==> ResolveExisting(p, request).plan.audit == p.audit
  {
    ReleaseOrderly(p, request.key, id);
    var released := ReleaseKey(p, request.key);
    hide Count, KeyRow, LatestInFlight, ReleaseKey, FailCard, ReconcileCard;
    var latest := LatestInFlight(released.rows);
    if latest < |released.rows| {
      CommitOrderly(released, Call(ToFail, Look(released, latest)), id);
      CommitOrderly(released, Call(ToReconcile, Look(released, latest)), id);
      FailingLeavesNoTrail(released, Look(released, latest));
    }
  }

  lemma FailingLeavesNoTrail(p: Plan, seen: Snapshot)
    ensures FailCard(p, seen).plan.audit == p.audit
  {
  }

  lemma OpenChargeOrderly(p: Plan, request: Initiation, split: Deposit, id: nat)
    requires Orderly(p, id) && CalculateInitialPayment(request.fee, request.deposit) == Ok(split)
    ensures var q := OpenCharge(p, request, split);
            Orderly(q, id) && |p.rows| <= |q.rows| && q.audit == p.audit && (id < |p.rows| ==> q.rows[id] == p.rows[id])
  {
    AcceptedDeposit(request.fee, request.deposit);
    hide Count, CalculateInitialPayment;
  }

  lemma InitiateOrderly(p: Plan, request: Initiation, id: nat)
    requires Orderly(p, id)
    ensures Orderly(Step(p, Initiate(request)), id) && RowAdvances(p, Step(p, Initiate(request)), id)
  {
    hide Count, KeyRow, ResolveExisting, CalculateInitialPayment, OpenCharge, ReleaseKey;
    ReleaseOrderly(p, request.key, id);
    ResolveOrderly(p, request, id);
    if OpensCharge(p, request) {
      OpenChargeOrderly(ResolveExisting(p, request).plan, request,
        CalculateInitialPayment(request.fee, request.deposit).value, id);
    }
  }

  lemma CommandOrderly(p: Plan, c: Command, id: nat)
    requires Orderly(p, id)
    ensures Orderly(Step(p, c), id) && RowAdvances(p, Step(p, c), id)
  {
    hide Count;
    match c
    case Initiate(request) => InitiateOrderly(p, request, id);
    case Reconcile(row) => if row < |p.rows| { CommitOrderly(p, Call(ToReconcile, Look(p, row)), id); }
    case Fail(row) => if row < |p.rows| { CommitOrderly(p, Call(ToFail, Look(p, row)), id); }
    case Dispute(row) => if row < |p.rows| { CommitOrderly(p, Call(ToDispute, Look(p, row)), id); }
    case Submit(amount, key) => SubmitOrderly(p, amount, key, id);
    case Confirm(row) => ConfirmOrderly(p, row, id);
    case Reject(row) => RejectOrderly(p, row, id);
    case Reverse(row) => ReverseOrderly(p, row, id);
    case Amend(amount) => AmendOrderly(p, amount, id);
    case Default => DefaultsOrderly(p, c, id);
    case Sweep => DefaultsOrderly(p, c, id);
    case _ => ManualCommandsOrderly(p, c, id);
  }

  lemma AdvanceOrderly(s: System, step: RaceStep, id: nat)
    requires Orderly(s.plan, id)
    ensures Orderly(Advance(s, step).plan, id) && RowAdvances(s.plan, Advance(s, step).plan, id)
  {
    hide Orderly, Step, CommitCall;
    NoChange(s.plan, id);
    match step
    case Commit(call) => if call < |s.calls| { CommitOrderly(s.plan, s.calls[call], id); }
    case Other(command) => CommandOrderly(s.plan, command, id);
    case _ =>
  }

  lemma NoChange(p: Plan, id: nat)
    ensures RowAdvances(p, p, id)
  {
  }

  /**
   * However the callers interleave, and however stale what they hold: a card payment's status only leaves pending, or
   * falls from success to failed; and its share is credited at most once, as the trail counts it.
   */
  lemma {:induction false} ExactlyOnce(s: System, steps: seq<RaceStep>, id: nat)
    requires Orderly(s.plan, id)
    ensures var end := RunRace(s, steps).plan;
            Orderly(end, id) && |s.plan.rows| <= |end.rows| &&
            (IsCardRow(s.plan, id) ==>
              IsCardRow(end, id) && Moves(s.plan.rows[id].status, end.rows[id].status) &&
              Paid(s.plan, id) <= Paid(end, id) <= 1 &&
              (end.rows[id].status == RowSuccess ==> Paid(end, id) == 1) &&
              (end.rows[id].status == RowPending ==> Paid(end, id) == 0))
    decreases |steps|
  {
    if steps != [] {
      AdvanceOrderly(s, steps[0], id);
      ExactlyOnce(Advance(s, steps[0]), steps[1..], id);
    }
  }

  /** Every single step credits the row only by taking it from pending to success, and then by exactly its share. */
  lemma CreditOnlyOnSuccess(s: System, step: RaceStep, id: nat)
    requires Orderly(s.plan, id) && IsCardRow(s.plan, id)
    ensures var q := Advance(s, step).plan;
            id < |q.rows| &&
            (Paid(q, id) == Paid(s.plan, id) + 1 <==>
              s.plan.rows[id].status == RowPending && q.rows[id].status == RowSuccess) &&
            (Paid(q, id) != Paid(s.plan, id) ==> q.balance == Max(0, s.plan.balance - s.plan.rows[id].schoolAmount))
  {
    AdvanceOrderly(s, step, id);
    hide Advance, Count;
  }

  /**
   * Once a card payment has left pending, no success or failure that reaches it changes anything: not in that state,
   * and not after any further interleaving, whatever its caller had read and whenever.
   */
  lemma LateVerdictIsInert(s: System, steps: seq<RaceStep>, call: nat)
    requires call < |RunRace(s, steps).calls| && RunRace(s, steps).calls[call].intent != ToDispute
    requires var id := RunRace(s, steps).calls[call].seen.id;
             Orderly(s.plan, id) && IsCardRow(s.plan, id) && s.plan.rows[id].status != RowPending
    ensures Advance(RunRace(s, steps), Commit(call)) == RunRace(s, steps)
  {
    ExactlyOnce(s, steps, RunRace(s, steps).calls[call].seen.id);
    hide RunRace, Orderly;
  }

  /** Once an event is logged, no later delivery of it does anything, even if the first one crashed unprocessed. */
  lemma {:induction false} RedeliveryIsInert(s: System, event: nat, intent: Intent, id: nat, crashes: bool,
                                            between: seq<RaceStep>)
    ensures var later := RunRace(Advance(s, Deliver(event, intent, id, crashes)), between);
            forall intent', id', crashes' :: Advance(later, Deliver(event, intent', id', crashes')) == later
  {
    EventsOnlyGrow(Advance(s, Deliver(event, intent, id, crashes)), event, between);
  }

  /**
   * The first delivery of an event is not lost unless it crashes: committed straight away it credits, or fails, a
   * payment still pending, and takes back a successful one.
   */
  lemma FirstDeliveryActs(s: System, event: nat, intent: Intent, id: nat)
    requires event !in s.events && IsCardRow(s.plan, id)
    ensures var delivered := Advance(s, Deliver(event, intent, id, false));
            var acted := Advance(delivered, Commit(|s.calls|));
            delivered.plan == s.plan && event in delivered.events && |delivered.calls| == |s.calls| + 1 &&
            acted.plan.rows[id].status ==
              match intent
              case ToReconcile => if s.plan.rows[id].status == RowPending then RowSuccess else s.plan.rows[id].status
              case ToFail => if s.plan.rows[id].status == RowPending then RowFailed else s.plan.rows[id].status
              case ToDispute => if s.plan.rows[id].status == RowSuccess then RowFailed else s.plan.rows[id].status
    ensures var crashed := Advance(s, Deliver(event, intent, id, true));
            crashed.plan == s.plan && crashed.calls == s.calls && event in crashed.events
  {
  }

  lemma {:induction false} EventsOnlyGrow(s: System, event: nat, steps: seq<RaceStep>)
    requires event in s.events
    ensures event in RunRace(s, steps).events
    decreases |steps|
  {
    if steps != [] {
      EventsOnlyGrow(Advance(s, steps[0]), event, steps[1..]);
    }
  }

  /** A freshly opened card plan with no callers is orderly for every row. */
  lemma OpeningOrderly(request: Initiation, split: Deposit, id: nat)
    requires CalculateInitialPayment(request.fee, request.deposit) == Ok(split)
    ensures Orderly(OpenCard(request, split), id)
  {
    OpenChargeOrderly(NewEnrollment(split.schoolFees), request, split, id);
  }
}
