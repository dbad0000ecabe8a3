/**
 * The schedule is rebuilt from two sums, so it is only right while the ledger conserves their total. Here it does.
 */
module Conservation {
  import opened Calendar
  import opened DueDates
  import opened Ledger
  import opened LedgerInvariant
  import opened LedgerRuns
  import opened LedgerSums
  import opened Money
  import opened Payments
  import opened Schedule
  import opened Wrappers
  import Arrears

  /** What the plan owed when its schedule opened, as the schedule derives it. */
  function PlanStart(p: Plan): int { p.balance + InstallmentsPaid(p) }

  /** Nothing reserved beyond the balance, and nothing paid beyond the fee. */
  predicate Schedulable(p: Plan) {
    && Valid(p)
    && 0 <= Reserved(p) <= p.balance
    && 0 <= InstallmentsPaid(p) && PlanStart(p) <= p.fee
  }

  /**
   * Commands that move only instalment money: submissions, rejections, reversals, defaults, and a confirmation of a
   * row still pending, or of one that would still fit the balance. Any other command qualifies only by being refused.
   */
  predicate MovesInstallments(p: Plan, c: Command) {
    match c
    case Submit(_, _) => true
    case Confirm(id) =>
      id < |p.rows| && !p.rows[id].isConfirmed && p.rows[id].kind == Installment ==>
        p.rows[id].status == RowPending || p.rows[id].amountPaid <= Available(p)
    case Reject(_) => true
    case Reverse(_) => true
    case RejectFirst(_) => true
    case Fail(_) => true
    case Default => true
    case Sweep => true
    case _ => Step(p, c) == p
  }

  lemma WriteRowSums(p: Plan, id: nat, r: Row)
    requires id < |p.rows|
    ensures Reserved(SetRow(p, id, r)) == Reserved(p) - ReservedWeight(p.rows[id]) + ReservedWeight(r)
    ensures InstallmentsPaid(SetRow(p, id, r)) == InstallmentsPaid(p) - InstallmentWeight(p.rows[id])
      + InstallmentWeight(r)
  {
    SumUpdate(p.rows, id, r, ReservedWeight);
    SumUpdate(p.rows, id, r, InstallmentWeight);
  }

  lemma RowWithinSums(p: Plan, id: nat)
    requires ValidRows(p.rows) && id < |p.rows|
    ensures 0 <= ReservedWeight(p.rows[id]) <= Reserved(p)
    ensures 0 <= InstallmentWeight(p.rows[id]) <= InstallmentsPaid(p)
  {
    SumAtLeast(p.rows, id, ReservedWeight);
    SumAtLeast(p.rows, id, InstallmentWeight);
  }

  /** The same schedule: same fee, same opening balance, same deposit on record. */
  predicate SameSchedule(p: Plan, q: Plan) {
    q.fee == p.fee && PlanStart(q) == PlanStart(p) && q.firstPaymentPaid == p.firstPaymentPaid
  }

  lemma SubmitConserves(p: Plan, amount: int, key: Option<nat>)
    requires Schedulable(p)
    ensures Schedulable(Step(p, Submit(amount, key))) && SameSchedule(p, Step(p, Submit(amount, key)))
  {
    hide Valid, KeyRow, Sum, Replays, ReleaseKey;
    StepValid(p, Submit(amount, key));
    ReleaseKeepsSum(p, key, ReservedWeight);
    ReleaseKeepsSum(p, key, InstallmentWeight);
    var released := ReleaseKey(p, key);
    SumAppend(released.rows, NewInstallment(amount, key), ReservedWeight);
    SumAppend(released.rows, NewInstallment(amount, key), InstallmentWeight);
    ReleaseMovesOnlyKeys(p, key);
  }

  lemma ReleaseMovesOnlyKeys(p: Plan, key: Option<nat>)
    ensures ReleaseKey(p, key) == p.(rows := ReleaseKey(p, key).rows)
  {
  }

  lemma ConfirmConserves(p: Plan, id: nat)
    requires Schedulable(p) && MovesInstallments(p, Confirm(id))
    ensures var q := Step(p, Confirm(id));
            Schedulable(q) && SameSchedule(p, q) &&
            (Execute(p, Confirm(id)).accepted ==> q.balance == p.balance - p.rows[id].amountPaid)
  {
    StepValid(p, Confirm(id));
    if Execute(p, Confirm(id)).accepted {
      RowWithinSums(p, id);
      WriteRowSums(p, id, Succeed(p.rows[id]));
    }
  }

  lemma RejectConserves(p: Plan, id: nat, c: Command)
    requires Schedulable(p) && (c == Reject(id) || c == RejectFirst(id) || c == Fail(id))
    ensures Schedulable(Step(p, c)) && SameSchedule(p, Step(p, c))
  {
    StepValid(p, c);
    if id < |p.rows| {
      RowWithinSums(p, id);
      WriteRowSums(p, id, p.rows[id].(status := RowFailed));
    }
  }

  lemma ReverseConserves(p: Plan, id: nat)
    requires Schedulable(p)
    ensures var q := Step(p, Reverse(id));
            Schedulable(q) && SameSchedule(p, q) &&
            (Execute(p, Reverse(id)).accepted ==> q.balance == p.balance + p.rows[id].amountPaid)
  {
    StepValid(p, Reverse(id));
    if Execute(p, Reverse(id)).accepted {
      RowWithinSums(p, id);
      WriteRowSums(p, id, p.rows[id].(status := RowReversed, isConfirmed := false));
    }
  }

  lemma StepConserves(p: Plan, c: Command)
    requires Schedulable(p) && MovesInstallments(p, c)
    ensures Schedulable(Step(p, c)) && SameSchedule(p, Step(p, c))
  {
    match c
    case Submit(amount, key) => SubmitConserves(p, amount, key);
    case Confirm(id) => ConfirmConserves(p, id);
    case Reject(id) => RejectConserves(p, id, c);
    case RejectFirst(id) => RejectConserves(p, id, c);
    case Fail(id) => RejectConserves(p, id, c);
    case Reverse(id) => ReverseConserves(p, id);
    case Default =>
    case Sweep =>
    case _ =>
  }

  /** Every command of the run, in the state it meets, moves only instalment money. */
  ghost predicate InstallmentRun(p: Plan, commands: seq<Command>)
    decreases |commands|
  {
    commands == [] || (MovesInstallments(p, commands[0]) && InstallmentRun(Step(p, commands[0]), commands[1..]))
  }

  /** Balance plus confirmed instalments never moves, reservations never exceed the balance, and so no clamp fires. */
  lemma {:induction false} RunConserves(p: Plan, commands: seq<Command>)
    requires Schedulable(p) && InstallmentRun(p, commands)
    ensures Schedulable(Run(p, commands)) && SameSchedule(p, Run(p, commands))
    decreases |commands|
  {
    if commands != [] {
      StepConserves(p, commands[0]);
      RunConserves(Step(p, commands[0]), commands[1..]);
    }
  }

  /** A confirmation conserves the total exactly when the row still fits the balance, whatever state the row was in. */
  lemma ConfirmConservesIff(p: Plan, id: nat)
    requires Valid(p) && Execute(p, Confirm(id)).accepted
    ensures PlanStart(Step(p, Confirm(id))) == PlanStart(p) <==> p.rows[id].amountPaid <= p.balance
  {
    WriteRowSums(p, id, Succeed(p.rows[id]));
  }

  // ------------------------------------------------------------------ openings

  predicate IsOpeningCredit(c: Command) { c.Reconcile? || c.SettleFirst? || c.ConfirmFirst? }

  lemma SumsNonNegative(p: Plan)
    requires Valid(p)
    ensures Reserved(p) >= 0 && InstallmentsPaid(p) >= 0
  {
    assert NonNegative(p.rows, ReservedWeight) && NonNegative(p.rows, InstallmentWeight);
    SumAtLeast(p.rows, |p.rows|, ReservedWeight);
    SumAtLeast(p.rows, |p.rows|, InstallmentWeight);
  }

  lemma CreditFigures(p: Plan, c: Command)
    requires Valid(p) && IsOpeningCredit(c) && Execute(p, c).accepted
    ensures c.id < |p.rows|
    ensures var q, r := Step(p, c), p.rows[c.id];
            Valid(q) && q.rows == p.rows[c.id := Succeed(r)] && q.balance == Max(0, p.balance - r.schoolAmount) &&
            q.fee == p.fee && q.firstPaymentPaid == p.firstPaymentPaid && r.kind == FirstPayment && !r.isConfirmed
  {
    StepValid(p, c);
  }

  /**
   * The credit of a first payment, on whatever plan it meets and whatever was submitted or confirmed while it was
   * awaited. It takes its share and nothing else off the opening balance exactly when the share fits the balance, and
   * leaves a plan fit for instalment runs exactly when what is still reserved fits what is then owed, and that the
   * fee.
   */
  lemma CreditSchedule(p: Plan, c: Command)
    requires Valid(p) && IsOpeningCredit(c) && Execute(p, c).accepted
    ensures c.id < |p.rows|
    ensures var q, share := Step(p, c), p.rows[c.id].schoolAmount;
            var owed := Max(0, p.balance - share);
            q.balance == owed && PlanStart(q) == owed + InstallmentsPaid(p) && Reserved(q) == Reserved(p) &&
            (PlanStart(q) == PlanStart(p) - share <==> share <= p.balance) &&
            (Schedulable(q) <==> Reserved(p) <= owed && owed + InstallmentsPaid(p) <= p.fee)
  {
    CreditFigures(p, c);
    hide Step, Valid;
    var q := Step(p, c);
    WriteRowSums(p, c.id, Succeed(p.rows[c.id]));
    assert q.rows == SetRow(p, c.id, Succeed(p.rows[c.id])).rows;
    SumsNonNegative(p);
  }

  /** The plan carries the figures of a charge, which may have been paid by now or not. */
  predicate CarriesCharge(p: Plan, id: nat, split: Deposit) {
    && id < |p.rows| && p.rows[id].kind == FirstPayment
    && CalculateInitialPayment(p.fee, p.firstPaymentPaid) == Ok(split)
    && p.rows[id].amountPaid == p.firstPaymentPaid && p.rows[id].schoolAmount == split.amountToSchool
  }

  /** A charge is written over any enrollment at the whole fee, and leaves its instalments as they were. */
  lemma ChargeOpens(p: Plan, request: Initiation, split: Deposit)
    requires Valid(p) && CalculateInitialPayment(request.fee, request.deposit) == Ok(split) && request.initialised
    ensures var r := OpenCharge(p, request, split);
            Valid(r) && CarriesCharge(r, |p.rows|, split) && Execute(r, Reconcile(|p.rows|)).accepted &&
            r.balance == r.fee == request.fee && r.firstPaymentPaid == request.deposit &&
            PlanStart(r) == r.fee + InstallmentsPaid(p) && InstallmentsPaid(r) == InstallmentsPaid(p) &&
            Reserved(r) == Reserved(p)
  {
    OpenChargeValid(p, request, split);
    AcceptedDeposit(request.fee, request.deposit);
    hide CalculateInitialPayment, Sum, Valid;
    var row := NewCardRow(request.deposit, split.amountToSchool, request.key).(accessCode := true);
    assert OpenCharge(p, request, split).rows == p.rows + [row];
    SumAppend(p.rows, row, ReservedWeight);
    SumAppend(p.rows, row, InstallmentWeight);
  }

  /** Anything but a correction or another charge. */
  predicate KeepsCharge(p: Plan, c: Command) {
    (c.Amend? ==> !Execute(p, c).accepted) && (c.Initiate? ==> !OpensCharge(p, c.request))
  }

  predicate SameFigures(p: Plan, q: Plan, id: nat) {
    && q.fee == p.fee && q.firstPaymentPaid == p.firstPaymentPaid && |p.rows| <= |q.rows|
    && (id < |p.rows| ==> q.rows[id].kind == p.rows[id].kind && q.rows[id].amountPaid == p.rows[id].amountPaid &&
                          q.rows[id].schoolAmount == p.rows[id].schoolAmount)
  }

  lemma RowCommandKeepsCharge(p: Plan, c: Command, id: nat)
    requires !c.Amend? && !c.Initiate?
    ensures SameFigures(p, Step(p, c), id)
  {
    hide Sum, KeyRow;
  }

  lemma ResolvingKeepsCharge(p: Plan, request: Initiation, id: nat)
    ensures SameFigures(p, ReleaseKey(p, request.key), id) && SameFigures(p, ResolveExisting(p, request).plan, id)
  {
    hide KeyRow, LatestInFlight;
  }

  lemma StepKeepsCharge(p: Plan, c: Command, id: nat)
    requires KeepsCharge(p, c)
    ensures SameFigures(p, Step(p, c), id)
  {
    match c
    case Amend(_) => assert Step(p, c) == p;
    case Initiate(request) =>
      ResolvingKeepsCharge(p, request, id);
      hide ResolveExisting, ReleaseKey, OpensCharge, SameFigures;
    case _ => RowCommandKeepsCharge(p, c, id);
  }

  lemma {:induction false} RunKeepsCharge(p: Plan, commands: seq<Command>, id: nat, split: Deposit)
    requires Valid(p) && CarriesCharge(p, id, split) && Throughout(p, commands, KeepsCharge)
    ensures Valid(Run(p, commands)) && CarriesCharge(Run(p, commands), id, split)
    decreases |commands|
  {
    hide Valid, Step, KeepsCharge, CalculateInitialPayment;
    if commands != [] {
      StepValid(p, commands[0]);
      StepKeepsCharge(p, commands[0], id);
      RunKeepsCharge(Step(p, commands[0]), commands[1..], id, split);
    }
  }

  /**
   * On a first enrollment, whatever instalments are submitted and settled before the deposit arrives, its credit opens
   * the schedule the deposit fixed exactly when the share fits what is neither paid nor reserved by then. It does at
   * once.
   */
  lemma FirstCreditIff(request: Initiation, split: Deposit, before: seq<Command>)
    requires CalculateInitialPayment(request.fee, request.deposit) == Ok(split) && request.initialised
    requires InstallmentRun(OpenCard(request, split), before)
    requires Execute(Run(OpenCard(request, split), before), Reconcile(0)).accepted
    ensures var r := Run(OpenCard(request, split), before);
            var q := Step(r, Reconcile(0));
            CarriesCharge(r, 0, split) &&
            (Schedulable(q) && PlanStart(q) == split.remainingBalance <==> split.amountToSchool <= Available(r)) &&
            (before == [] ==> split.amountToSchool <= Available(r))
  {
    var opening, card := NewEnrollment(split.schoolFees), OpenCard(request, split);
    AcceptedDeposit(request.fee, request.deposit);
    ChargeOpens(opening, request, split);
    hide PlatformFee, Percent, Step, OpenCharge;
    assert card == OpenCharge(opening, request, split);
    assert Schedulable(card) && PlanStart(card) == card.fee == request.fee;
    RunConserves(card, before);
    InstallmentRunKeepsCharge(card, before, 0, split);
    hide InstallmentRun, Valid, CarriesCharge;
    CreditSchedule(Run(card, before), Reconcile(0));
    CreditFigures(Run(card, before), Reconcile(0));
    CarriedSplit(Run(card, before), 0, split);
    SumsNonNegative(Run(card, before));
  }

  lemma CarriedSplit(p: Plan, id: nat, split: Deposit)
    requires CarriesCharge(p, id, split)
    ensures p.rows[id].schoolAmount == split.amountToSchool >= 0
    ensures split.amountToSchool + split.remainingBalance == p.fee
    ensures p.rows[id].amountPaid == split.amountToSchool + PlatformFee(p.fee)
    ensures CalculateInitialPayment(p.fee, p.firstPaymentPaid) == Ok(split) &&
      p.rows[id].amountPaid == p.firstPaymentPaid
  {
    AcceptedDeposit(p.fee, p.firstPaymentPaid);
    hide Percent;
  }

  /** An instalment run is never a correction or a charge that takes effect. */
  lemma {:induction false} InstallmentRunKeepsCharge(p: Plan, commands: seq<Command>, id: nat, split: Deposit)
    requires CarriesCharge(p, id, split) && InstallmentRun(p, commands)
    ensures CarriesCharge(Run(p, commands), id, split)
    decreases |commands|
  {
    hide CalculateInitialPayment;
    if commands != [] {
      var c := commands[0];
      if !c.Amend? && !c.Initiate? {
        RowCommandKeepsCharge(p, c, id);
      } else {
        assert Step(p, c) == p;
      }
      hide Step, MovesInstallments;
      InstallmentRunKeepsCharge(Step(p, c), commands[1..], id, split);
    }
  }

  lemma LoneRowSums(rows: seq<Row>, weight: Row -> int)
    requires |rows| == 1
    ensures Sum(rows, weight) == weight(rows[0])
  {
    assert Sum(rows[..0], weight) == 0;
  }

  /** A migrated plan opens schedulable, owing the fee less what the school had already banked. */
  lemma MigratedOpening(fee: int, alreadyPaid: int)
    requires fee > 0 && 0 <= alreadyPaid <= fee
    ensures var p := OpenMigrated(fee, alreadyPaid);
            Schedulable(p) && p.balance == PlanStart(p) == fee - alreadyPaid
  {
    OpeningsValid(fee, alreadyPaid, Initiation(0, 0, None, Dead, false));
    var p := OpenMigrated(fee, alreadyPaid);
    LoneRowSums(p.rows, ReservedWeight);
    LoneRowSums(p.rows, InstallmentWeight);
  }

  /** A correction restores the books from any valid state, clamped or not: fee = migrated + instalments + balance. */
  lemma AmendmentRestoresBooks(p: Plan, amount: int)
    requires Valid(p) && Execute(p, Amend(amount)).accepted
    ensures var q := Step(p, Amend(amount));
            q.balance + amount + InstallmentsPaid(q) == q.fee == p.fee &&
            InstallmentsPaid(q) == InstallmentsPaid(p) &&
            q.firstPaymentPaid == amount && q.rows[FindMigrated(p.rows)].amountPaid == amount &&
            (p.status == Defaulted && q.balance > 0 ==> q.status == Defaulted)
  {
    var id := FindMigrated(p.rows);
    WriteRowSums(p, id, p.rows[id].(amountPaid := amount, schoolAmount := amount));
  }

  // ------------------------------------------------------------------ the schedule stands

  function ArrearsPlan(p: Plan, frequency: Frequency, termStart: Date, termEnd: Date): Arrears.Plan {
    Arrears.Plan(p.balance, InstallmentsPaid(p), frequency, termStart, termEnd)
  }

  /** Across any instalment run, arrears at any instant move by exactly the money confirmed or reversed in between. */
  lemma ArrearsFollowMoney(p: Plan, commands: seq<Command>, frequency: Frequency, termStart: Date, termEnd: Date,
    now: Date)
    requires Schedulable(p) && InstallmentRun(p, commands) && IsDate(termStart) && IsDate(termEnd)
    ensures var q := Run(p, commands);
            var moved := InstallmentsPaid(q) - InstallmentsPaid(p);
            var before := Arrears.ComputeArrears(ArrearsPlan(p, frequency, termStart, termEnd), now).overdueAmount;
            var after := Arrears.ComputeArrears(ArrearsPlan(q, frequency, termStart, termEnd), now).overdueAmount;
            (moved >= 0 ==> after == Max(0, before - moved)) && (moved <= 0 ==> before == Max(0, after + moved))
  {
    hide Valid, InstallmentRun, Reserved, InstallmentsPaid, Run, Arrears.ComputeArrears;
    RunConserves(p, commands);
    var q := Run(p, commands);
    var moved := InstallmentsPaid(q) - InstallmentsPaid(p);
    var before, after := ArrearsPlan(p, frequency, termStart, termEnd), ArrearsPlan(q, frequency, termStart, termEnd);
    if moved >= 0 {
      assert Arrears.PayInto(before, moved) == after;
      Arrears.EveryKoboClears(before, now, moved);
    } else {
      assert Arrears.PayInto(after, -moved) == before;
      Arrears.EveryKoboClears(after, now, -moved);
    }
    if moved == 0 {
      assert before == after;
      Arrears.OverdueWithinBalance(before, now);
    }
  }

  /** However the money arrives: runs that have confirmed the same total stand at the same point of the schedule. */
  lemma RunsLandAlike(p: Plan, one: seq<Command>, other: seq<Command>, frequency: Frequency)
    requires Schedulable(p) && InstallmentRun(p, one) && InstallmentRun(p, other)
    requires InstallmentsPaid(Run(p, one)) == InstallmentsPaid(Run(p, other))
    ensures ProgressOf(Run(p, one).balance, InstallmentsPaid(Run(p, one)), frequency)
         == ProgressOf(Run(p, other).balance, InstallmentsPaid(Run(p, other)), frequency)
  {
    RunConserves(p, one);
    RunConserves(p, other);
  }

  /**
   * From the credit of any charge on, whatever plan it meets, the rebuilt schedule stands still. While the share
   * fitted the balance it is the one the deposit fixed exactly when the plan's opening balance was still the whole
   * fee, and the balance is the one recomputed from the deposit and the rows exactly then, or once settled.
   */
  lemma ScheduleStands(r: Plan, c: Command, split: Deposit, commands: seq<Command>, frequency: Frequency)
    requires Valid(r) && IsOpeningCredit(c) && Execute(r, c).accepted && CarriesCharge(r, c.id, split)
    requires var owed := Max(0, r.balance - split.amountToSchool);
             Reserved(r) <= owed && owed + InstallmentsPaid(r) <= r.fee
    requires InstallmentRun(Step(r, c), commands)
    ensures var q := Run(Step(r, c), commands);
            var progress := ProgressOf(q.balance, InstallmentsPaid(q), frequency);
            var recomputed := UpdateRemainingBalance(r.fee, r.firstPaymentPaid, InstallmentsPaid(q));
            var opening := Max(0, r.balance - split.amountToSchool) + InstallmentsPaid(r);
            progress.planStartBalance == opening &&
            (split.amountToSchool <= r.balance ==> (opening == split.remainingBalance <==> PlanStart(r) == r.fee)) &&
            (q.balance == recomputed <==>
              opening == split.remainingBalance || (q.balance == 0 && opening >= split.remainingBalance)) &&
            (q.balance > 0 && opening == split.remainingBalance ==>
              progress.scheduledInstallment ==
                CalculateInstallments(split.remainingBalance, frequency).value.installmentAmount)
  {
    hide Valid, CalculateInitialPayment, Run, Step, Execute, InstallmentRun, Reserved, InstallmentsPaid, ProgressOf,
         UpdateRemainingBalance, CalculateInstallments, CarriesCharge, PlatformFee;
    CarriedSplit(r, c.id, split);
    CreditSchedule(r, c);
    var credited := Step(r, c);
    RunConserves(credited, commands);
    var q := Run(credited, commands);
    SumsNonNegative(q);
    RebuiltSchedule(q.balance, InstallmentsPaid(q), PlanStart(credited), split.remainingBalance, frequency);
    RecomputedBalance(r.fee, r.firstPaymentPaid, InstallmentsPaid(q));
  }

  /** Figures rebuilt from a balance and instalments, beside those of the balance some deposit left. */
  lemma RebuiltSchedule(balance: int, paid: int, opening: int, promised: int, frequency: Frequency)
    requires balance >= 0 && paid >= 0 && balance + paid == opening
    ensures var progress := ProgressOf(balance, paid, frequency);
            progress.planStartBalance == opening &&
            (balance == Max(0, promised - paid) <==> opening == promised || (balance == 0 && opening >= promised)) &&
            (balance > 0 && opening == promised ==>
              progress.scheduledInstallment == CalculateInstallments(promised, frequency).value.installmentAmount)
  {
  }
}
