/** What the parent is shown, against what the ledger accepts and what the school's arrears book says. */
module EnrollmentView {
  import opened Calendar
  import opened CardPath
  import opened Conservation
  import opened DueDates
  import opened Ledger
  import opened LedgerInvariant
  import opened LedgerSums
  import opened Money
  import opened Payments
  import opened Schedule
  import opened Wrappers
  import Arrears

  datatype View = View(
    totalFee: int,
    paidAmount: int,
    remainingBalance: int,
    availableBalance: int,
    nextDueDate: Option<Date>,
    nextInstallmentAmount: int,
    installmentsPaid: int,
    installmentsTotal: int,
    creditTowardNextInstallment: int)

  function ConfirmedWeight(r: Row): int { if r.isConfirmed then r.amountPaid else 0 }

  /** The view filters instalments by their confirmation alone, where the ledger also asks for a success. */
  function ConfirmedInstallmentWeight(r: Row): int {
    if r.isConfirmed && r.kind == Installment then r.amountPaid else 0 }

  /** Due dates hang from the term's start, or from the enrollment's creation where that is no date. */
  function Anchor(termStart: Option<Date>, createdAt: Option<Date>): Option<Date> {
    if termStart.Some? then termStart else createdAt
  }

  function ToEnrollmentView(p: Plan, frequency: Frequency, termStart: Option<Date>, createdAt: Option<Date>): View {
    var progress := ProgressOf(p.balance, Sum(p.rows, ConfirmedInstallmentWeight), frequency);
    var anchor := Anchor(termStart, createdAt);
    View(p.fee,
         Sum(p.rows, ConfirmedWeight),
         p.balance,
         Max(0, p.balance - Sum(p.rows, ReservedWeight)),
         if progress.settled || anchor.None? then None
         else Some(DueDate(anchor.value, frequency, progress.paidInstallments + 1)),
         progress.nextInstallmentAmount,
         progress.paidInstallments,
         progress.totalInstallments,
         progress.creditTowardNextInstallment)
  }

  /**
   * What the parent is offered is what the ledger accepts, to the kobo, at any status of the plan. Only a key that
   * already stands for a live payment gets another answer; a dead payment's key makes no difference.
   */
  lemma OfferIsAccepted(p: Plan, amount: int, key: Option<nat>,
                        frequency: Frequency, termStart: Option<Date>, createdAt: Option<Date>)
    ensures SubmitInstallment(p, amount, key).accepted
       <==> Replays(p, key) || 0 < amount <= ToEnrollmentView(p, frequency, termStart, createdAt).availableBalance
  {
    ReleaseKeepsSum(p, key, ReservedWeight);
  }

  lemma {:induction false} SameWeights(rows: seq<Row>)
    requires forall i :: 0 <= i < |rows| ==> ValidRow(rows[i])
    ensures Sum(rows, ConfirmedInstallmentWeight) == Sum(rows, InstallmentWeight)
  {
    if rows != [] {
      var last := |rows| - 1;
      assert forall i :: 0 <= i < last ==> rows[..last][i] == rows[i];
      SameWeights(rows[..last]);
      assert ValidRow(rows[last]);
    }
  }

  /** The parent's plan card and the school's arrears book agree on the next date and the slots closed. */
  lemma ViewAgreesWithArrears(p: Plan, frequency: Frequency, termStart: Date, termEnd: Date, createdAt: Option<Date>,
    now: Date)
    requires Valid(p)
    ensures var view := ToEnrollmentView(p, frequency, Some(termStart), createdAt);
            var arrears := Arrears.ComputeArrears(ArrearsPlan(p, frequency, termStart, termEnd), now);
            view.nextDueDate == arrears.nextDueDate && view.installmentsPaid == arrears.paidInstallments &&
            (view.nextDueDate.None? <==> p.balance == 0)
  {
    hide DueDate, ClosedSlots, Arrears.ElapsedPeriods, CumulativeTarget;
    SameWeights(p.rows);
    SumAtLeast(p.rows, |p.rows|, InstallmentWeight);
    if p.balance > 0 {
      ClosedSlotsIsHighest(p.balance + InstallmentsPaid(p), InstallmentCount(frequency), InstallmentsPaid(p));
    }
  }

  /**
   * The view shows the ledger's own figures, offers what is neither paid nor reserved and never less than nothing, and
   * splits the instalments paid into the slots they closed and the credit toward the next, which the quote makes up.
   */
  lemma ViewShowsLedger(p: Plan, frequency: Frequency, termStart: Option<Date>, createdAt: Option<Date>)
    requires Valid(p) && p.balance > 0
    ensures var view := ToEnrollmentView(p, frequency, termStart, createdAt);
            var closed := view.installmentsPaid;
            view.totalFee == p.fee && view.remainingBalance == p.balance &&
            (view.availableBalance == if Reserved(p) > p.balance then 0 else p.balance - Reserved(p)) &&
            (view.installmentsTotal == if frequency == Weekly then 12 else 3) &&
            InstallmentsPaid(p) ==
              CumulativeTarget(PlanStart(p), view.installmentsTotal, closed) + view.creditTowardNextInstallment &&
            (PlanStart(p) >= view.installmentsTotal ==>
              InstallmentsPaid(p) + view.nextInstallmentAmount ==
                CumulativeTarget(PlanStart(p), view.installmentsTotal, closed + 1)) &&
            (PlanStart(p) < view.installmentsTotal ==> view.nextInstallmentAmount == p.balance)
    ensures var view := ToEnrollmentView(p, frequency, termStart, createdAt);
            var dueFrom := (start: Date) => Some(DueDate(start, frequency, view.installmentsPaid + 1));
            (termStart.Some? ==> view.nextDueDate == dueFrom(termStart.value)) &&
            (termStart.None? && createdAt.Some? ==> view.nextDueDate == dueFrom(createdAt.value)) &&
            (termStart.None? && createdAt.None? ==> view.nextDueDate == None)
  {
    hide DueDate, CumulativeTarget, ClosedSlots, Sum;
    SameWeights(p.rows);
    SumsNonNegative(p);
    CreditIsPartSlot(Position(p.balance, InstallmentsPaid(p)), frequency);
  }

  /** A settled plan shows nothing to pay, by no date, with every slot closed if instalments closed any. */
  lemma SettledView(p: Plan, frequency: Frequency, termStart: Option<Date>, createdAt: Option<Date>)
    requires Valid(p) && p.balance == 0
    ensures var view := ToEnrollmentView(p, frequency, termStart, createdAt);
            view.nextDueDate == None && view.availableBalance == view.nextInstallmentAmount == 0 &&
            view.creditTowardNextInstallment == 0 &&
            view.installmentsPaid == if InstallmentsPaid(p) > 0 then view.installmentsTotal else 0
  {
    hide Sum;
    SameWeights(p.rows);
    SumsNonNegative(p);
    SettledProgress(Position(p.balance, InstallmentsPaid(p)), frequency);
  }

  // ------------------------------------------------------------------ the figures add up

  /** Confirmed money other than instalments: the deposit, or what was paid before the platform. */
  function OpeningWeight(r: Row): int { if r.isConfirmed && r.kind != Installment then r.amountPaid else 0 }

  lemma {:induction false} ConfirmedSplits(rows: seq<Row>)
    ensures Sum(rows, ConfirmedWeight) == Sum(rows, ConfirmedInstallmentWeight) + Sum(rows, OpeningWeight)
  {
    if rows != [] {
      ConfirmedSplits(rows[..|rows| - 1]);
    }
  }

  lemma SubmitKeepsOpening(p: Plan, amount: int, key: Option<nat>)
    ensures Sum(Step(p, Submit(amount, key)).rows, OpeningWeight) == Sum(p.rows, OpeningWeight)
  {
    ReleaseKeepsSum(p, key, OpeningWeight);
    SumAppend(ReleaseKey(p, key).rows, NewInstallment(amount, key), OpeningWeight);
  }

  lemma RejectKeepsOpening(p: Plan, id: nat, c: Command)
    requires Valid(p) && (c == Reject(id) || c == RejectFirst(id) || c == Fail(id))
    ensures Sum(Step(p, c).rows, OpeningWeight) == Sum(p.rows, OpeningWeight)
  {
    if id < |p.rows| {
      SumUpdate(p.rows, id, p.rows[id].(status := RowFailed), OpeningWeight);
      assert ValidRow(p.rows[id]);
    }
  }

  lemma StepKeepsOpening(p: Plan, c: Command)
    requires Schedulable(p) && MovesInstallments(p, c)
    ensures Sum(Step(p, c).rows, OpeningWeight) == Sum(p.rows, OpeningWeight)
  {
    hide Valid, KeyRow, Reserved, InstallmentsPaid, Sum;
    match c
    case Submit(amount, key) => SubmitKeepsOpening(p, amount, key);
    case Confirm(id) => if id < |p.rows| { SumUpdate(p.rows, id, Succeed(p.rows[id]), OpeningWeight); }
    case Reject(id) => RejectKeepsOpening(p, id, c);
    case RejectFirst(id) => RejectKeepsOpening(p, id, c);
    case Fail(id) => RejectKeepsOpening(p, id, c);
    case Reverse(id) =>
      if id < |p.rows| { SumUpdate(p.rows, id, p.rows[id].(status := RowReversed, isConfirmed := false),
        OpeningWeight); }
    case Default =>
    case Sweep =>
    case _ =>
  }

  /**
   * Across an instalment run, what is shown as paid and what is shown as owed move against each other, kobo for kobo.
   */
  lemma {:induction false} PaidPlusOwedStands(p: Plan, commands: seq<Command>)
    requires Schedulable(p) && InstallmentRun(p, commands)
    ensures var q := Run(p, commands);
            Sum(q.rows, ConfirmedWeight) + q.balance == Sum(p.rows, ConfirmedWeight) + p.balance
    decreases |commands|
  {
    hide Schedulable, MovesInstallments, Step;
    if commands != [] {
      var next := Step(p, commands[0]);
      StepConserves(p, commands[0]);
      StepKeepsOpening(p, commands[0]);
      PaidAndOwed(p);
      PaidAndOwed(next);
      PaidPlusOwedStands(next, commands[1..]);
    }
  }

  lemma PaidAndOwed(p: Plan)
    requires Schedulable(p)
    ensures Sum(p.rows, ConfirmedWeight) + p.balance == PlanStart(p) + Sum(p.rows, OpeningWeight)
  {
    ConfirmedSplits(p.rows);
    SameWeights(p.rows);
  }

  /**
   * From the credit of any charge on, paid and owed add up to the platform's fee, what was confirmed before the
   * credit, and the balance it met or the share if that was more. On the card path that is the fee and the platform's
   * fee exactly when the opening balance the credit met was still the whole fee, for a share that fitted it.
   */
  lemma CardFiguresAddUp(r: Plan, c: Command, split: Deposit, commands: seq<Command>,
                         frequency: Frequency, termStart: Option<Date>, createdAt: Option<Date>)
    requires Valid(r) && IsOpeningCredit(c) && Execute(r, c).accepted && CarriesCharge(r, c.id, split)
    requires var owed := Max(0, r.balance - split.amountToSchool);
             Reserved(r) <= owed && owed + InstallmentsPaid(r) <= r.fee
    requires InstallmentRun(Step(r, c), commands)
    ensures var view := ToEnrollmentView(Run(Step(r, c), commands), frequency, termStart, createdAt);
            var shown := view.paidAmount + view.remainingBalance;
            view.totalFee == r.fee &&
            shown == PlatformFee(r.fee) + Sum(r.rows, ConfirmedWeight) + Max(split.amountToSchool, r.balance) &&
            (OnCardPath(r, c.id) && split.amountToSchool <= r.balance ==>
              (shown == r.fee + PlatformFee(r.fee) <==> PlanStart(r) == r.fee))
  {
    hide PlatformFee, CalculateInitialPayment, Sum, InstallmentRun, Schedulable, Valid, Run, Step, Execute, OnCardPath,
         CarriesCharge;
    CarriedSplit(r, c.id, split);
    CreditSchedule(r, c);
    CreditFigures(r, c);
    if OnCardPath(r, c.id) { ConfirmedAreInstallments(r, c.id); }
    var q := Step(r, c);
    RunConserves(q, commands);
    PaidPlusOwedStands(q, commands);
    SumUpdate(r.rows, c.id, Succeed(r.rows[c.id]), ConfirmedWeight);
  }

  /** A plan of the card path whose charge awaits its credit, and which never had migrated money. */
  predicate OnCardPath(p: Plan, id: nat) {
    && OneLive(p) && id < |p.rows| && IsInFlightFirst(p.rows[id])
    && forall i :: 0 <= i < |p.rows| ==> p.rows[i].kind != MigratedPayment
  }

  lemma ConfirmedAreInstallments(p: Plan, id: nat)
    requires OnCardPath(p, id)
    ensures Sum(p.rows, ConfirmedWeight) == InstallmentsPaid(p)
  {
    ConfirmedSplits(p.rows);
    SameWeights(p.rows);
    forall i | 0 <= i < |p.rows|
      ensures OpeningWeight(p.rows[i]) == 0
    {
      if i != id { OthersAreDead(p, id, i); }
    }
    NoWeight(p.rows, OpeningWeight);
  }

  lemma OthersAreDead(p: Plan, id: nat, other: nat)
    requires OnCardPath(p, id) && other < |p.rows| && other != id
    ensures !IsLive(p.rows[other])
  {
    var failed := SetRow(p, id, p.rows[id].(status := RowFailed));
    WriteLive(p, id, p.rows[id].(status := RowFailed));
    LiveAtLeast(failed, other);
  }

  /** A migrated plan shows them adding up to the fee exactly. */
  lemma MigratedFiguresAddUp(fee: int, alreadyPaid: int, commands: seq<Command>,
                             frequency: Frequency, termStart: Option<Date>, createdAt: Option<Date>)
    requires fee > 0 && 0 <= alreadyPaid <= fee
    requires InstallmentRun(OpenMigrated(fee, alreadyPaid), commands)
    ensures var view := ToEnrollmentView(Run(OpenMigrated(fee, alreadyPaid), commands), frequency, termStart,
      createdAt);
            view.paidAmount + view.remainingBalance == view.totalFee == fee
  {
    var p := OpenMigrated(fee, alreadyPaid);
    MigratedOpening(fee, alreadyPaid);
    RunConserves(p, commands);
    PaidPlusOwedStands(p, commands);
    LoneRowSums(p.rows, ConfirmedWeight);
  }

  // ------------------------------------------------------------------ following the quote

  /** Submit what the view quotes, then have the school confirm it. */
  function PayTheQuote(p: Plan, key: Option<nat>, frequency: Frequency): Plan {
    var quote := ToEnrollmentView(p, frequency, None, None).nextInstallmentAmount;
    Step(Step(p, Submit(quote, key)), Confirm(|p.rows|))
  }

  lemma PaidQuote(p: Plan, quote: int, key: Option<nat>)
    requires Schedulable(p) && 0 < quote <= Available(p) && !Replays(p, key)
    ensures var q := Step(Step(p, Submit(quote, key)), Confirm(|p.rows|));
            Schedulable(q) && q.balance == p.balance - quote && PlanStart(q) == PlanStart(p) &&
            Sum(q.rows, OpeningWeight) == Sum(p.rows, OpeningWeight)
  {
    hide Schedulable, Sum, Replays, SubmitInstallment, ConfirmPayment, ReleaseKey, KeyRow, Available;
    SubmitConserves(p, quote, key);
    StepKeepsOpening(p, Submit(quote, key));
    var submitted := Step(p, Submit(quote, key));
    QuoteSubmitted(p, quote, key);
    ConfirmsPending(submitted, |p.rows|);
    ConfirmConserves(submitted, |p.rows|);
    StepKeepsOpening(submitted, Confirm(|p.rows|));
  }

  lemma ConfirmsPending(p: Plan, id: nat)
    requires id < |p.rows| && AwaitsSchool(p.rows[id])
    ensures Execute(p, Confirm(id)).accepted
  {
  }

  lemma QuoteSubmitted(p: Plan, quote: int, key: Option<nat>)
    requires 0 < quote <= Available(p) && !Replays(p, key)
    ensures var submitted := Step(p, Submit(quote, key));
            |submitted.rows| == |p.rows| + 1 && submitted.rows[|p.rows|] == NewInstallment(quote, key) &&
            submitted.balance == p.balance
  {
    hide KeyRow, Sum;
    ReleaseKeepsSum(p, key, ReservedWeight);
  }

  lemma ConfirmedRows(p: Plan)
    requires Schedulable(p)
    ensures Sum(p.rows, ConfirmedInstallmentWeight) == InstallmentsPaid(p) >= 0 && p.balance >= 0
  {
    SameWeights(p.rows);
  }

  /**
   * Whenever the quote is within what is shown as available, and its key stands for no live payment, submitting and
   * confirming it moves it from owed to paid, and closes one slot exactly if slots are worth a kobo.
   */
  lemma QuoteAdvancesOneSlot(p: Plan, key: Option<nat>, frequency: Frequency)
    requires Schedulable(p) && p.balance > 0 && !Replays(p, key)
    requires var view := ToEnrollmentView(p, frequency, None, None); view.nextInstallmentAmount <= view.availableBalance
    ensures var before := ToEnrollmentView(p, frequency, None, None);
            var after := ToEnrollmentView(PayTheQuote(p, key, frequency), frequency, None, None);
            after.remainingBalance == before.remainingBalance - before.nextInstallmentAmount &&
            after.paidAmount == before.paidAmount + before.nextInstallmentAmount &&
            (after.installmentsPaid == before.installmentsPaid + 1 <==> PlanStart(p) >= before.installmentsTotal)
  {
    hide Valid, Sum, Replays, Step, ProgressOf;
    var quote, q := ToEnrollmentView(p, frequency, None, None).nextInstallmentAmount, PayTheQuote(p, key, frequency);
    var position := Position(p.balance, InstallmentsPaid(p));
    ConfirmedRows(p);
    QuoteWithinBalance(position, frequency);
    PayKeepsSchedule(position, frequency, quote);
    QuoteClosesOneSlot(position, frequency);
    PaidQuote(p, quote, key);
    ConfirmedRows(q);
    PaidAndOwed(p);
    PaidAndOwed(q);
  }

  lemma QuoteWithinBalance(p: Position, frequency: Frequency)
    requires MidPlan(p)
    ensures 0 < PositionProgress(p, frequency).nextInstallmentAmount <= p.balance
  {
    if p.balance + p.paid >= InstallmentCount(frequency) {
      QuoteReachesTarget(p, frequency);
    } else {
      var total := InstallmentCount(frequency);
      ClosedSlotsIsHighest(p.balance + p.paid, total, p.paid);
      TargetsIncrease(p.balance + p.paid, total, ClosedSlots(p.balance + p.paid, total, p.paid) + 1, total);
    }
  }
}
