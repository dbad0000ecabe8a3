/**
 * One enrollment, its payment rows and its audit trail, and every transition the ledger makes on them.
 *
 * A row is identified by its position. A transaction is one function: it answers with the new plan and whether it was
 * accepted. The card transitions take the snapshot their caller read beforehand, so that a stale one can be replayed.
 */
module Ledger {
  import opened Money
  import opened Payments
  import opened Wrappers

  datatype PaymentType = FirstPayment | Installment | MigratedPayment

  datatype RowStatus = RowPending | RowSuccess | RowFailed | RowReversed

  datatype PlanStatus = Pending | Active | Completed | Defaulted | Failed

  datatype Row = Row(
    kind: PaymentType,
    status: RowStatus,
    isConfirmed: bool,
    amountPaid: int,
    schoolAmount: int,
    /** Received by the platform, not directly by the school. */
    toPlatform: bool,
    /** Carries a Paystack reference. */
    card: bool,
    /** Paystack accepted the transaction and returned its access code. */
    accessCode: bool,
    idempotencyKey: Option<nat>)

  datatype AuditAction =
    | PaymentConfirmed | PaymentRejected | PaymentReversed
    | FirstPaymentConfirmed | FirstPaymentSettled | FirstPaymentRejected | FirstPaymentPaid
    | EnrollmentDefaulted | PaymentDisputed | MigratedPaymentAmended

  /** An audit row, with the remaining balance it records before and after, where it records one. */
  datatype AuditRow = AuditRow(action: AuditAction, row: Option<nat>, before: Option<int>, after: Option<int>)

  datatype Plan = Plan(
    fee: int,
    balance: int,
    status: PlanStatus,
    firstPaymentPaid: int,
    rows: seq<Row>,
    audit: seq<AuditRow>)

  datatype Outcome = Outcome(plan: Plan, accepted: bool)

  function Refused(p: Plan): Outcome { Outcome(p, false) }

  // ------------------------------------------------------------------ sums over rows

  function Sum(rows: seq<Row>, weight: Row -> int): int {
    if rows == [] then 0 else Sum(rows[..|rows| - 1], weight) + weight(rows[|rows| - 1])
  }

  predicate AwaitsSchool(r: Row) { r.kind == Installment && r.status == RowPending && !r.isConfirmed }

  function ReservedWeight(r: Row): int { if AwaitsSchool(r) then r.amountPaid else 0 }

  predicate IsSettledInstallment(r: Row) { r.kind == Installment && r.isConfirmed && r.status == RowSuccess }

  function InstallmentWeight(r: Row): int { if IsSettledInstallment(r) then r.amountPaid else 0 }

  /** Instalments submitted and awaiting the school. */
  function Reserved(p: Plan): int { Sum(p.rows, ReservedWeight) }

  /** Instalments the school has confirmed. */
  function InstallmentsPaid(p: Plan): int { Sum(p.rows, InstallmentWeight) }

  // ------------------------------------------------------------------ small writes

  function SetRow(p: Plan, id: nat, r: Row): Plan
    requires id < |p.rows|
  {
    p.(rows := p.rows[id := r])
  }

  function Record(p: Plan, action: AuditAction, row: Option<nat>, before: Option<int>, after: Option<int>): Plan {
    p.(audit := p.audit + [AuditRow(action, row, before, after)])
  }

  /** Take money off the balance, never below zero; `open` is the status of a plan that still owes. */
  function Credit(p: Plan, amount: int, open: PlanStatus): Plan {
    p.(balance := Max(0, p.balance - amount), status := if p.balance <= amount then Completed else open)
  }

  function Succeed(r: Row): Row { r.(status := RowSuccess, isConfirmed := true) }

  // ------------------------------------------------------------------ idempotency keys

  /** The position of the first row holding the key, or the number of rows. */
  function KeyRow(rows: seq<Row>, key: Option<nat>): (id: nat)
    ensures id <= |rows|
    ensures id < |rows| ==> key.Some? && rows[id].idempotencyKey == key
    ensures key.Some? ==> forall i :: 0 <= i < id ==> rows[i].idempotencyKey != key
  {
    if rows == [] || key.None? then |rows|
    else
      var earlier := KeyRow(rows[..|rows| - 1], key);
      if earlier < |rows| - 1 then earlier
      else if rows[|rows| - 1].idempotencyKey == key then |rows| - 1
      else |rows|
  }

  predicate IsReplayable(status: RowStatus) { status == RowPending || status == RowSuccess }

  /** The key already stands for a live payment, which is answered again instead of a new one. */
  predicate Replays(p: Plan, key: Option<nat>) {
    var id := KeyRow(p.rows, key);
    id < |p.rows| && IsReplayable(p.rows[id].status)
  }

  /** A payment that has died gives up its key. */
  function ReleaseKey(p: Plan, key: Option<nat>): Plan {
    var id := KeyRow(p.rows, key);
    if id < |p.rows| && !IsReplayable(p.rows[id].status) then SetRow(p, id, p.rows[id].(idempotencyKey := None)) else p
  }

  // ------------------------------------------------------------------ instalments

  function NewInstallment(amount: int, key: Option<nat>): Row {
    Row(Installment, RowPending, false, amount, amount, false, false, false, key)
  }

  /** What a new instalment may take: the balance less what is already spoken for. */
  function Available(p: Plan): int { p.balance - Reserved(p) }

  function SubmitInstallment(p: Plan, amount: int, key: Option<nat>): Outcome {
    if Replays(p, key) then Outcome(p, true)
    else
      var q := ReleaseKey(p, key);
      if 0 < amount <= Available(q) then Outcome(q.(rows := q.rows + [NewInstallment(amount, key)]), true)
      else Refused(q)
  }

  function ConfirmPayment(p: Plan, id: nat): Outcome {
    if id < |p.rows| && !p.rows[id].isConfirmed && p.rows[id].kind == Installment then
      var q := Credit(SetRow(p, id, Succeed(p.rows[id])), p.rows[id].amountPaid, p.status);
      Outcome(Record(q, PaymentConfirmed, Some(id), Some(p.balance), Some(q.balance)), true)
    else Refused(p)
  }

  function RejectPayment(p: Plan, id: nat): Outcome {
    if id < |p.rows| && !p.rows[id].isConfirmed then
      var q := SetRow(p, id, p.rows[id].(status := RowFailed));
      var failed := if p.rows[id].kind == FirstPayment then q.(status := Failed) else q;
      Outcome(Record(failed, PaymentRejected, Some(id), None, None), true)
    else Refused(p)
  }

  function ReversePayment(p: Plan, id: nat): Outcome {
    if id < |p.rows| && p.rows[id].isConfirmed && p.rows[id].status == RowSuccess && p.rows[id].kind == Installment then
      var q := SetRow(p, id, p.rows[id].(status := RowReversed, isConfirmed := false))
        .(balance := Min(p.fee, p.balance + p.rows[id].amountPaid),
          status := if p.status == Completed then Active else p.status);
      Outcome(Record(q, PaymentReversed, Some(id), Some(p.balance), Some(q.balance)), true)
    else Refused(p)
  }

  // ------------------------------------------------------------------ first payments by hand

  predicate IsManualFirst(r: Row) { r.kind == FirstPayment && !r.isConfirmed && !r.card }

  function SettleFirstPayment(p: Plan, id: nat): Outcome {
    if id < |p.rows| && IsManualFirst(p.rows[id]) && p.rows[id].toPlatform then
      var q := Credit(SetRow(p, id, Succeed(p.rows[id])), p.rows[id].schoolAmount, Active);
      Outcome(Record(q, FirstPaymentSettled, Some(id), Some(p.balance), Some(q.balance)), true)
    else Refused(p)
  }

  function RejectFirstPayment(p: Plan, id: nat): Outcome {
    if id < |p.rows| && IsManualFirst(p.rows[id]) && p.rows[id].toPlatform then
      var q := SetRow(p, id, p.rows[id].(status := RowFailed)).(status := Failed);
      Outcome(Record(q, FirstPaymentRejected, Some(id), None, None), true)
    else Refused(p)
  }

  /** `id` is whichever matching row the database finds first. */
  function ConfirmFirstPayment(p: Plan, id: nat): Outcome {
    if p.status == Pending && id < |p.rows| && IsManualFirst(p.rows[id]) then
      var q := Credit(SetRow(p, id, Succeed(p.rows[id])), p.rows[id].schoolAmount, Active);
      Outcome(Record(q, FirstPaymentConfirmed, Some(id), Some(p.balance), Some(q.balance)), true)
    else Refused(p)
  }

  // ------------------------------------------------------------------ first payments by card

  /** What a caller reads of a card payment and its plan before opening its transaction. */
  datatype Snapshot = Snapshot(id: nat, rowStatus: RowStatus, planStatus: PlanStatus, fee: int, balance: int)

  predicate IsCardRow(p: Plan, id: nat) { id < |p.rows| && p.rows[id].card }

  function Look(p: Plan, id: nat): Snapshot
    requires id < |p.rows|
  {
    Snapshot(id, p.rows[id].status, p.status, p.fee, p.balance)
  }

  function ReconcileCard(p: Plan, seen: Snapshot): Outcome {
    if seen.rowStatus == RowPending && IsCardRow(p, seen.id) && p.rows[seen.id].status == RowPending then
      var q := Credit(SetRow(p, seen.id, Succeed(p.rows[seen.id])), p.rows[seen.id].schoolAmount, Active);
      Outcome(Record(q, FirstPaymentPaid, Some(seen.id), Some(seen.balance), Some(q.balance)), true)
    else Refused(p)
  }

  function FailCard(p: Plan, seen: Snapshot): Outcome {
    if seen.rowStatus == RowPending && IsCardRow(p, seen.id) && p.rows[seen.id].status == RowPending then
      Outcome(SetRow(p, seen.id, p.rows[seen.id].(status := RowFailed)).(status := Failed), true)
    else Refused(p)
  }

  predicate WasCredited(seen: Snapshot) { seen.planStatus == Active || seen.planStatus == Completed }

  function DisputeCard(p: Plan, seen: Snapshot): Outcome {
    if seen.rowStatus != RowFailed && seen.rowStatus != RowReversed
       && IsCardRow(p, seen.id) && p.rows[seen.id].status == RowSuccess then
      var q := SetRow(p, seen.id, p.rows[seen.id].(status := RowFailed, isConfirmed := false));
      var reset := q.(status := Failed, balance := if WasCredited(seen) then seen.fee else p.balance);
      var after := if WasCredited(seen) then seen.fee else seen.balance;
      Outcome(Record(reset, PaymentDisputed, Some(seen.id), Some(seen.balance), Some(after)), true)
    else Refused(p)
  }

  // ------------------------------------------------------------------ plan status

  function MarkDefaulted(p: Plan): Outcome {
    Outcome(Record(p.(status := Defaulted), EnrollmentDefaulted, None, None, None), true)
  }

  function DefaultBySweep(p: Plan): Outcome {
    if p.status == Active && p.balance > 0 then
      Outcome(Record(p.(status := Defaulted), EnrollmentDefaulted, None, None, None), true)
    else Refused(p)
  }

  // ------------------------------------------------------------------ migrated money

  /** Opening position of a plan for fees paid before the platform was there: remaining balance and status. */
  function DeriveMigratedPlan(fee: int, alreadyPaid: int): (int, PlanStatus) {
    var remaining := Max(0, fee - alreadyPaid);
    (remaining, if remaining == 0 then Completed else Active)
  }

  function MigratedRow(amount: int): Row {
    Row(MigratedPayment, RowSuccess, true, amount, amount, false, false, false, None)
  }

  function OpenMigrated(fee: int, alreadyPaid: int): Plan {
    var (remaining, status) := DeriveMigratedPlan(fee, alreadyPaid);
    Plan(fee, remaining, status, alreadyPaid, [MigratedRow(alreadyPaid)], [])
  }

  predicate IsLiveMigrated(r: Row) { r.kind == MigratedPayment && r.status == RowSuccess }

  /** The position of the plan's first migrated payment, or the number of rows. */
  function FindMigrated(rows: seq<Row>): (id: nat)
    ensures id <= |rows|
    ensures id < |rows| ==> IsLiveMigrated(rows[id])
    ensures forall i :: 0 <= i < id ==> !IsLiveMigrated(rows[i])
  {
    if rows == [] then 0
    else
      var earlier := FindMigrated(rows[..|rows| - 1]);
      if earlier < |rows| - 1 || IsLiveMigrated(rows[|rows| - 1]) then earlier else |rows|
  }

  function StatusAfterMigratedAmendment(current: PlanStatus, nextBalance: int): PlanStatus {
    if nextBalance <= 0 then Completed
    else if current == Completed then Active
    else current
  }

  function AmendMigratedPayment(p: Plan, amount: int): Outcome {
    var id := FindMigrated(p.rows);
    var nextBalance := p.fee - amount - InstallmentsPaid(p);
    if amount < 0 || id == |p.rows| || amount > p.fee || p.rows[id].amountPaid == amount || nextBalance < 0 then
      Refused(p)
    else
      var q := SetRow(p, id, p.rows[id].(amountPaid := amount, schoolAmount := amount))
        .(firstPaymentPaid := amount, balance := nextBalance,
          status := StatusAfterMigratedAmendment(p.status, nextBalance));
      Outcome(Record(q, MigratedPaymentAmended, Some(id), Some(p.balance), Some(nextBalance)), true)
  }

  // ------------------------------------------------------------------ starting a card payment

  /** What Paystack says of a charge when asked: paid, dead (failed, abandoned or unknown to it), or no verdict. */
  datatype Verdict = Paid | Dead | NoVerdict

  predicate IsInFlightFirst(r: Row) { r.kind == FirstPayment && r.status == RowPending }

  /** The latest first payment still pending, or the number of rows. */
  function LatestInFlight(rows: seq<Row>): (id: nat)
    ensures id <= |rows|
    ensures id < |rows| ==> IsInFlightFirst(rows[id])
    ensures id < |rows| ==> forall i :: id < i < |rows| ==> !IsInFlightFirst(rows[i])
    ensures id == |rows| ==> forall i :: 0 <= i < |rows| ==> !IsInFlightFirst(rows[i])
  {
    if rows == [] then 0
    else if IsInFlightFirst(rows[|rows| - 1]) then |rows| - 1
    else
      var earlier := LatestInFlight(rows[..|rows| - 1]);
      if earlier < |rows| - 1 then earlier else |rows|
  }

  /** Settle what became of an unfinished first payment; `accepted` when that payment is to be resumed. */
  function ResolvePending(p: Plan, verdict: Verdict): Outcome {
    var id := LatestInFlight(p.rows);
    if id == |p.rows| || !p.rows[id].card then Refused(p)
    else if !p.rows[id].accessCode || verdict == Dead then Refused(FailCard(p, Look(p, id)).plan)
    else if verdict == Paid then Outcome(ReconcileCard(p, Look(p, id)).plan, true)
    else Outcome(p, true)
  }

  datatype Initiation = Initiation(fee: int, deposit: int, key: Option<nat>, verdict: Verdict, initialised: bool)

  function NewCardRow(deposit: int, schoolAmount: int, key: Option<nat>): Row {
    Row(FirstPayment, RowPending, false, deposit, schoolAmount, true, true, false, key)
  }

  /** Write a fresh charge over the plan; if Paystack then refuses it, fail it at once. */
  function OpenCharge(p: Plan, request: Initiation, split: Deposit): Plan {
    var id := |p.rows|;
    var row := NewCardRow(request.deposit, split.amountToSchool, request.key);
    var started := p.(fee := split.schoolFees, balance := split.schoolFees, status := Pending,
                     firstPaymentPaid := request.deposit, rows := p.rows + [row]);
    if request.initialised then SetRow(started, id, row.(accessCode := true))
    else FailCard(started, Look(started, id)).plan
  }

  /**
   * The plan once a dead key is released and an unfinished payment settled; `accepted` when that payment is resumed.
   */
  function ResolveExisting(p: Plan, request: Initiation): Outcome {
    var released := ReleaseKey(p, request.key);
    if released.status == Pending then ResolvePending(released, request.verdict) else Refused(released)
  }

  /**
   * The request gets as far as writing a fresh charge: nothing live to answer with, and a deposit that can be charged.
   */
  predicate OpensCharge(p: Plan, request: Initiation) {
    && !Replays(p, request.key)
    && (p.status == Failed || p.status == Pending)
    && !ResolveExisting(p, request).accepted
    && CalculateInitialPayment(request.fee, request.deposit).Ok?
    && request.deposit > 0
  }

  /** Start, resume or refuse a first payment on an existing enrollment. */
  function InitiateFirstPayment(p: Plan, request: Initiation): Outcome {
    if Replays(p, request.key) then Outcome(p, true)
    else if p.status != Failed && p.status != Pending then Refused(ReleaseKey(p, request.key))
    else
      var resolved := ResolveExisting(p, request);
      if OpensCharge(p, request) then
        var split := CalculateInitialPayment(request.fee, request.deposit).value;
        Outcome(OpenCharge(resolved.plan, request, split), request.initialised)
      else resolved
  }

  function NewEnrollment(fee: int): Plan { Plan(fee, fee, Pending, 0, [], []) }

  /** The enrollment a first payment creates where there was none. */
  function OpenCard(request: Initiation, split: Deposit): Plan {
    OpenCharge(NewEnrollment(split.schoolFees), request, split)
  }

  // ------------------------------------------------------------------ commands and runs

  datatype Command =
    | Submit(amount: int, key: Option<nat>)
    | Confirm(id: nat)
    | Reject(id: nat)
    | Reverse(id: nat)
    | SettleFirst(id: nat)
    | RejectFirst(id: nat)
    | ConfirmFirst(id: nat)
    | Reconcile(id: nat)
    | Fail(id: nat)
    | Dispute(id: nat)
    | Amend(amount: int)
    | Default
    | Sweep
    | Initiate(request: Initiation)

  function Execute(p: Plan, c: Command): Outcome {
    match c
    case Submit(amount, key) => SubmitInstallment(p, amount, key)
    case Confirm(id) => ConfirmPayment(p, id)
    case Reject(id) => RejectPayment(p, id)
    case Reverse(id) => ReversePayment(p, id)
    case SettleFirst(id) => SettleFirstPayment(p, id)
    case RejectFirst(id) => RejectFirstPayment(p, id)
    case ConfirmFirst(id) => ConfirmFirstPayment(p, id)
    case Reconcile(id) => if id < |p.rows| then ReconcileCard(p, Look(p, id)) else Refused(p)
    case Fail(id) => if id < |p.rows| then FailCard(p, Look(p, id)) else Refused(p)
    case Dispute(id) => if id < |p.rows| then DisputeCard(p, Look(p, id)) else Refused(p)
    case Amend(amount) => AmendMigratedPayment(p, amount)
    case Default => MarkDefaulted(p)
    case Sweep => DefaultBySweep(p)
    case Initiate(request) => InitiateFirstPayment(p, request)
  }

  function Step(p: Plan, c: Command): Plan { Execute(p, c).plan }

  function Run(p: Plan, commands: seq<Command>): Plan
    decreases |commands|
  {
    if commands == [] then p else Run(Step(p, commands[0]), commands[1..])
  }
}
