/** What every committed transition of every run keeps. */
module LedgerInvariant {
  import opened Ledger
  import opened LedgerSums
  import opened Money
  import opened Payments
  import opened Wrappers

  predicate ValidRow(r: Row) {
    && (r.isConfirmed <==> r.status == RowSuccess)
    && r.amountPaid >= 0 && r.schoolAmount >= 0
    && (r.kind == Installment ==> r.amountPaid > 0)
    && (r.kind == MigratedPayment ==> r.schoolAmount == r.amountPaid)
    && (r.card ==> r.kind == FirstPayment && r.status != RowReversed)
  }

  predicate ValidRows(rows: seq<Row>) {
    forall i :: 0 <= i < |rows| ==> ValidRow(rows[i])
  }

  /** The balance stays within the fee, a completed plan owes nothing, an active one owes something. */
  predicate Valid(p: Plan) {
    && p.fee > 0
    && 0 <= p.balance <= p.fee
    && (p.status == Completed ==> p.balance == 0)
    && (p.status == Active ==> p.balance > 0)
    && ValidRows(p.rows)
  }

  lemma ReleaseValid(p: Plan, key: Option<nat>)
    requires Valid(p)
    ensures Valid(ReleaseKey(p, key))
  {
  }

  lemma CardStepsValid(p: Plan, seen: Snapshot)
    requires Valid(p)
    ensures Valid(ReconcileCard(p, seen).plan)
    ensures Valid(FailCard(p, seen).plan)
    ensures seen.fee == p.fee ==> Valid(DisputeCard(p, seen).plan)
  {
  }

  lemma OpenChargeValid(p: Plan, request: Initiation, split: Deposit)
    requires ValidRows(p.rows) && CalculateInitialPayment(request.fee, request.deposit) == Ok(split)
    ensures Valid(OpenCharge(p, request, split))
  {
    AcceptedDeposit(request.fee, request.deposit);
    hide PlatformFee, Percent;
    assert split.schoolFees == request.fee;
  }

  lemma ResolveValid(p: Plan, request: Initiation)
    requires Valid(p)
    ensures Valid(ResolveExisting(p, request).plan)
  {
    hide Valid, FailCard, ReconcileCard, ReleaseKey;
    ReleaseValid(p, request.key);
    var released := ReleaseKey(p, request.key);
    var id := LatestInFlight(released.rows);
    if id < |released.rows| {
      CardStepsValid(released, Look(released, id));
    }
  }

  lemma InitiateValid(p: Plan, request: Initiation)
    requires Valid(p)
    ensures Valid(InitiateFirstPayment(p, request).plan)
  {
    hide Valid, CalculateInitialPayment, OpenCharge, ResolveExisting, ReleaseKey;
    ReleaseValid(p, request.key);
    ResolveValid(p, request);
    if OpensCharge(p, request) {
      ValidHasValidRows(ResolveExisting(p, request).plan);
      OpenChargeValid(ResolveExisting(p, request).plan, request,
        CalculateInitialPayment(request.fee, request.deposit).value);
    }
  }

  lemma ValidHasValidRows(p: Plan)
    requires Valid(p)
    ensures ValidRows(p.rows)
  {
  }

  lemma AmendValid(p: Plan, amount: int)
    requires Valid(p)
    ensures Valid(AmendMigratedPayment(p, amount).plan)
  {
    assert forall i :: 0 <= i < |p.rows| ==> InstallmentWeight(p.rows[i]) >= 0;
    SumAtLeast(p.rows, 0, InstallmentWeight);
  }

  lemma InstallmentStepsValid(p: Plan, id: nat, amount: int, key: Option<nat>)
    requires Valid(p)
    ensures Valid(SubmitInstallment(p, amount, key).plan)
    ensures Valid(ConfirmPayment(p, id).plan)
    ensures Valid(RejectPayment(p, id).plan)
    ensures Valid(ReversePayment(p, id).plan)
  {
    hide Sum, KeyRow;
    SubmitValid(p, amount, key);
    hide SubmitInstallment;
  }

  lemma SubmitValid(p: Plan, amount: int, key: Option<nat>)
    requires Valid(p)
    ensures Valid(SubmitInstallment(p, amount, key).plan)
  {
    ReleaseValid(p, key);
    hide KeyRow, ReleaseKey, Available, Replays;
    var released := ReleaseKey(p, key);
    assert amount > 0 ==> ValidRows(released.rows + [NewInstallment(amount, key)]);
  }

  lemma ManualStepsValid(p: Plan, id: nat)
    requires Valid(p)
    ensures Valid(SettleFirstPayment(p, id).plan)
    ensures Valid(RejectFirstPayment(p, id).plan)
    ensures Valid(ConfirmFirstPayment(p, id).plan)
  {
  }

  /** Every command keeps the invariant, accepted or refused. */
  lemma StepValid(p: Plan, c: Command)
    requires Valid(p)
    ensures Valid(Step(p, c))
  {
    hide SubmitInstallment, ConfirmPayment, RejectPayment, ReversePayment, SettleFirstPayment, RejectFirstPayment,
         ConfirmFirstPayment, ReconcileCard, FailCard, DisputeCard, AmendMigratedPayment, InitiateFirstPayment;
    match c
    case Submit(amount, key) => InstallmentStepsValid(p, 0, amount, key);
    case Confirm(id) => InstallmentStepsValid(p, id, 0, None);
    case Reject(id) => InstallmentStepsValid(p, id, 0, None);
    case Reverse(id) => InstallmentStepsValid(p, id, 0, None);
    case SettleFirst(id) => ManualStepsValid(p, id);
    case RejectFirst(id) => ManualStepsValid(p, id);
    case ConfirmFirst(id) => ManualStepsValid(p, id);
    case Reconcile(id) => if id < |p.rows| { CardStepsValid(p, Look(p, id)); }
    case Fail(id) => if id < |p.rows| { CardStepsValid(p, Look(p, id)); }
    case Dispute(id) => if id < |p.rows| { CardStepsValid(p, Look(p, id)); }
    case Amend(amount) => AmendValid(p, amount);
    case Default =>
    case Sweep =>
    case Initiate(request) => InitiateValid(p, request);
  }

  lemma {:induction false} RunAppend(p: Plan, commands: seq<Command>, last: Command)
    ensures Run(p, commands + [last]) == Step(Run(p, commands), last)
    decreases |commands|
  {
    hide Step;
    if commands == [] {
      assert commands + [last] == [last] && [last][1..] == [];
    } else {
      assert (commands + [last])[1..] == commands[1..] + [last];
      RunAppend(Step(p, commands[0]), commands[1..], last);
    }
  }

  lemma {:induction false} RunValid(p: Plan, commands: seq<Command>)
    requires Valid(p)
    ensures Valid(Run(p, commands))
    decreases |commands|
  {
    if commands != [] {
      StepValid(p, commands[0]);
      RunValid(Step(p, commands[0]), commands[1..]);
    }
  }

  /** Both ways a plan comes into being satisfy the invariant. */
  lemma OpeningsValid(fee: int, alreadyPaid: int, request: Initiation)
    ensures fee > 0 && 0 <= alreadyPaid <= fee ==> Valid(OpenMigrated(fee, alreadyPaid))
    ensures CalculateInitialPayment(request.fee, request.deposit).Ok? ==>
      Valid(OpenCard(request, CalculateInitialPayment(request.fee, request.deposit).value))
  {
    var calculation := CalculateInitialPayment(request.fee, request.deposit);
    if calculation.Ok? {
      AcceptedDeposit(request.fee, request.deposit);
      OpenChargeValid(NewEnrollment(calculation.value.schoolFees), request, calculation.value);
    }
    hide PlatformFee, Percent;
  }
}
