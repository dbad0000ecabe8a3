/**
 * Runs of the code, from an opening on, that end where its comments say none does. The exact condition each one
 * violates is proved beside the law it belongs to.
 */
module Counterexamples {
  import opened CardPath
  import opened CardRace
  import opened Conservation
  import opened Ledger
  import opened LedgerInvariant
  import opened LedgerRuns
  import opened LedgerSums
  import opened Money
  import opened Payments
  import opened Wrappers

  // ------------------------------------------------------------------ one first enrollment

  /** A first payment on a fee of 400 naira, and its split. */
  function SampleRequest(): Initiation { Initiation(40_000, 11_000, None, Dead, true) }

  function SampleSplit(): Deposit { Deposit(40_000, 1_000, 11_000, 11_000, 10_000, 30_000) }

  lemma SampleIsAccepted()
    ensures CalculateInitialPayment(40_000, 11_000) == Ok(SampleSplit())
  {
    RoundBounds(40_000 as real * PLATFORM_FEE_RATE);
    RoundBounds(40_000 as real * FIRST_PAYMENT_DEPOSIT_RATE);
  }

  /** The enrollment that request opens, its charge awaited. */
  function Sample(): Plan { OpenCard(SampleRequest(), SampleSplit()) }

  function SampleRow(): Row { NewCardRow(11_000, 10_000, None).(accessCode := true) }

  function SampleInstallment(): Row { NewInstallment(10_000, None) }

  // ------------------------------------------------------------------ re-enrolment over confirmed instalments

  /** Pay a deposit and an instalment, and dispute the deposit. */
  function UntilDispute(): (commands: seq<Command>)
    ensures |commands| == 4
  {
    [Reconcile(0), Submit(10_000, None), Confirm(1), Dispute(0)]
  }

  lemma SubmitsAnew(p: Plan, amount: int)
    requires 0 < amount <= Available(p)
    ensures Step(p, Submit(amount, None)) == p.(rows := p.rows + [NewInstallment(amount, None)])
  {
    hide Sum;
  }

  lemma DepositGoesIn()
    ensures var p := Step(Sample(), Reconcile(0));
            p.rows == [Succeed(SampleRow())] && p.balance == 30_000 && p.status == Active && p.fee == 40_000 &&
              Reserved(p) == 0
  {
    var p0 := Sample();
    assert p0.rows == [SampleRow()];
    var p1 := Step(p0, Reconcile(0));
    assert p1.rows == [Succeed(SampleRow())];
    LoneRowSums(p1.rows, ReservedWeight);
  }

  lemma InstallmentGoesIn()
    ensures var p := Run(Sample(), UntilDispute()[..3]);
            p.rows == [Succeed(SampleRow()), Succeed(SampleInstallment())] && p.balance == 20_000 &&
              p.status == Active &&
            p.fee == 40_000
  {
    hide Run, Sum, Sample, SubmitInstallment, ReconcileCard;
    var p0 := Sample();
    DepositGoesIn();
    var p1 := Step(p0, Reconcile(0));
    SubmitsAnew(p1, 10_000);
    var p2 := Step(p1, Submit(10_000, None));
    assert p2.rows == [Succeed(SampleRow()), SampleInstallment()];
    assert Step(p2, Confirm(1)).rows == [Succeed(SampleRow()), Succeed(SampleInstallment())];
    ThreeSteps(p0, UntilDispute()[..3]);
  }

  lemma ThreeSteps(p: Plan, commands: seq<Command>)
    requires |commands| == 3
    ensures Run(p, commands) == Step(Step(Step(p, commands[0]), commands[1]), commands[2])
  {
    hide Step;
    assert commands == [] + [commands[0]] + [commands[1]] + [commands[2]];
    RunAppend(p, [], commands[0]);
    RunAppend(p, [] + [commands[0]], commands[1]);
    RunAppend(p, [] + [commands[0]] + [commands[1]], commands[2]);
  }

  lemma SampleOpens()
    ensures Valid(Sample())
  {
    SampleIsAccepted();
    OpeningsValid(0, 0, SampleRequest());
  }

  lemma DisputeReached()
    ensures var p := Run(Sample(), UntilDispute()[..3]);
            Run(Sample(), UntilDispute()) == Step(p, Dispute(0))
  {
    hide Run, Step, Sample;
    RunAppend(Sample(), UntilDispute()[..3], Dispute(0));
    assert UntilDispute()[..3] + [Dispute(0)] == UntilDispute();
  }

  lemma DisputedBooks()
    ensures var p := Run(Sample(), UntilDispute());
            Valid(p) && p.status == Failed && p.balance == p.fee == 40_000 &&
            InstallmentsPaid(p) == 10_000 && Reserved(p) == 0 && |p.rows| == 2
  {
    hide Run, Sum, Valid, Sample, UntilDispute, InstallmentsPaid, Reserved;
    SampleOpens();
    RunValid(Sample(), UntilDispute());
    InstallmentGoesIn();
    DisputeReached();
    var p3 := Run(Sample(), UntilDispute()[..3]);
    var failed := Succeed(SampleRow()).(status := RowFailed, isConfirmed := false);
    assert Step(p3, Dispute(0)).rows == [failed] + [Succeed(SampleInstallment())];
    PairSums(failed, Succeed(SampleInstallment()), Step(p3, Dispute(0)));
  }

  lemma PairSums(first: Row, second: Row, p: Plan)
    requires p.rows == [first] + [second]
    ensures InstallmentsPaid(p) == InstallmentWeight(first) + InstallmentWeight(second)
    ensures Reserved(p) == ReservedWeight(first) + ReservedWeight(second)
  {
    LoneRowSums([first], InstallmentWeight);
    LoneRowSums([first], ReservedWeight);
    SumAppend([first], second, InstallmentWeight);
    SumAppend([first], second, ReservedWeight);
  }

  /** The dispute keeps the instalment's row, so enrolling again opens a schedule higher than what is then owed. */
  lemma ReenrolmentMovesSchedule()
    ensures CalculateInitialPayment(40_000, 11_000) == Ok(SampleSplit())
    ensures var disputed := Run(Sample(), UntilDispute());
            var q := Step(Step(disputed, Initiate(SampleRequest())), Reconcile(2));
            q.status == Active && q.balance == SampleSplit().remainingBalance == 30_000 && PlanStart(q) == 40_000
  {
    SampleIsAccepted();
    DisputedBooks();
    var p := Run(Sample(), UntilDispute());
    hide Run, CalculateInitialPayment, Sum, Valid, InitiateFirstPayment, ReconcileCard;
    StartsCharge(p);
    ChargeOpens(p, SampleRequest(), SampleSplit());
    CreditSchedule(Step(p, Initiate(SampleRequest())), Reconcile(2));
    ReconcilesPending(Step(p, Initiate(SampleRequest())), 2);
  }

  // ------------------------------------------------------------------ confirming a row already rejected

  /** Submit, have it rejected, submit again, have that confirmed; and then the first one after all. */
  function UntilReconfirmation(): seq<Command> {
    [Submit(6_000, None), Reject(1), Submit(6_000, None), Confirm(2)]
  }

  lemma MigratedBooks()
    ensures var p := OpenMigrated(10_000, 1_000);
            |p.rows| == 1 && p.balance == 9_000 && Reserved(p) == 0 && InstallmentsPaid(p) == 0
  {
    LoneRowSums(OpenMigrated(10_000, 1_000).rows, ReservedWeight);
    LoneRowSums(OpenMigrated(10_000, 1_000).rows, InstallmentWeight);
  }

  /** An instalment submitted and rejected leaves its dead row and nothing else. */
  lemma SubmittedThenRejected(p: Plan, amount: int)
    requires 0 < amount <= Available(p)
    ensures var q := Step(Step(p, Submit(amount, None)), Reject(|p.rows|));
            q.rows == p.rows + [NewInstallment(amount, None).(status := RowFailed)] && q.balance == p.balance &&
            Reserved(q) == Reserved(p) && InstallmentsPaid(q) == InstallmentsPaid(p)
  {
    SubmitsAnew(p, amount);
    hide Sum, SubmitInstallment;
    var dead := NewInstallment(amount, None).(status := RowFailed);
    assert Step(Step(p, Submit(amount, None)), Reject(|p.rows|)).rows == p.rows + [dead];
    SumAppend(p.rows, dead, ReservedWeight);
    SumAppend(p.rows, dead, InstallmentWeight);
  }

  lemma RejectedBooks()
    ensures var p0 := OpenMigrated(10_000, 1_000);
            var p := Step(Step(p0, Submit(6_000, None)), Reject(1));
            p.rows == p0.rows + [NewInstallment(6_000, None).(status := RowFailed)] && p.balance == 9_000 &&
            Reserved(p) == 0 && InstallmentsPaid(p) == 0 && |p0.rows| == 1
  {
    hide Step, OpenMigrated, Reserved, InstallmentsPaid;
    MigratedBooks();
    SubmittedThenRejected(OpenMigrated(10_000, 1_000), 6_000);
  }

  lemma ReconfirmationReached()
    ensures var p0 := OpenMigrated(10_000, 1_000);
            var p2 := Step(Step(p0, Submit(6_000, None)), Reject(1));
            Run(p0, UntilReconfirmation()) == Step(Step(p2, Submit(6_000, None)), Confirm(2))
  {
    hide Run, Step, OpenMigrated;
    var p0 := OpenMigrated(10_000, 1_000);
    ThreeSteps(p0, UntilReconfirmation()[..3]);
    RunAppend(p0, UntilReconfirmation()[..3], Confirm(2));
    assert UntilReconfirmation()[..3] + [Confirm(2)] == UntilReconfirmation();
  }

  lemma ReconfirmationValid()
    ensures Valid(Run(OpenMigrated(10_000, 1_000), UntilReconfirmation()))
  {
    hide Run, Valid, OpenMigrated, UntilReconfirmation;
    OpeningsValid(10_000, 1_000, Initiation(0, 0, None, Dead, false));
    RunValid(OpenMigrated(10_000, 1_000), UntilReconfirmation());
  }

  lemma ResubmittedBooks()
    ensures var p := Run(OpenMigrated(10_000, 1_000), UntilReconfirmation());
            Valid(p) && p.balance == 3_000 && |p.rows| == 3 && InstallmentsPaid(p) == 6_000 &&
            p.rows[1] == NewInstallment(6_000, None).(status := RowFailed)
  {
    hide Sum, Run, Valid, SubmitInstallment, RejectPayment, OpenMigrated, UntilReconfirmation;
    ReconfirmationReached();
    ReconfirmationValid();
    RejectedBooks();
    var row, p2 := NewInstallment(6_000, None), Step(Step(OpenMigrated(10_000, 1_000), Submit(6_000, None)), Reject(1));
    SubmitsAnew(p2, 6_000);
    SumAppend(p2.rows, Succeed(row), InstallmentWeight);
    assert Step(Step(p2, Submit(6_000, None)), Confirm(2)).rows == p2.rows + [Succeed(row)];
  }

  /** The clamp swallows half of the re-confirmed row, and every later slot target moves with the opening balance. */
  lemma ReconfirmedRejectionMovesSchedule()
    ensures var p := Run(OpenMigrated(10_000, 1_000), UntilReconfirmation());
            PlanStart(p) == 9_000 && Step(p, Confirm(1)).balance == 0 && PlanStart(Step(p, Confirm(1))) == 12_000
  {
    ResubmittedBooks();
    var p := Run(OpenMigrated(10_000, 1_000), UntilReconfirmation());
    hide Run, Sum;
    WriteRowSums(p, 1, Succeed(p.rows[1]));
  }

  // ------------------------------------------------------------ an instalment submitted before the deposit arrives

  lemma SampleOwesTheFee()
    ensures Sample().rows == [SampleRow()] && Sample().balance == Sample().fee == 40_000 && Sample().status == Pending
    ensures Reserved(Sample()) == 0 && InstallmentsPaid(Sample()) == 0
  {
    assert Sample().rows == [SampleRow()];
    LoneRowSums(Sample().rows, ReservedWeight);
    LoneRowSums(Sample().rows, InstallmentWeight);
  }

  /** While its deposit is awaited a plan takes instalments against the whole fee. */
  lemma SubmittedEarly()
    ensures var r := Step(Sample(), Submit(40_000, None));
            Valid(r) && r.rows == [SampleRow()] + [NewInstallment(40_000, None)] && r.balance == r.fee == 40_000 &&
            Reserved(r) == 40_000 && InstallmentsPaid(r) == 0
  {
    hide Valid, Sample, Step, Reserved, InstallmentsPaid;
    SampleOpens();
    StepValid(Sample(), Submit(40_000, None));
    SampleOwesTheFee();
    SubmitsAnew(Sample(), 40_000);
    PairSums(SampleRow(), NewInstallment(40_000, None), Step(Sample(), Submit(40_000, None)));
  }

  lemma CreditedLate()
    ensures var q := Step(Step(Sample(), Submit(40_000, None)), Reconcile(0));
            q.status == Active && q.balance == PlanStart(q) == 30_000 && Reserved(q) == 40_000 && !Schedulable(q) &&
            q.rows == [Succeed(SampleRow()), NewInstallment(40_000, None)]
  {
    SubmittedEarly();
    var r := Step(Sample(), Submit(40_000, None));
    hide Valid, Sum, Sample, Schedulable, SubmitInstallment, PlanStart, Reserved, InstallmentsPaid;
    ReconcilesPending(r, 0);
    CreditSchedule(r, Reconcile(0));
    CreditFigures(r, Reconcile(0));
  }

  lemma ReconcilesPending(p: Plan, id: nat)
    requires IsCardRow(p, id) && p.rows[id].status == RowPending
    ensures Execute(p, Reconcile(id)).accepted
    ensures p.balance > p.rows[id].schoolAmount ==> Step(p, Reconcile(id)).status == Active
  {
  }

  /**
   * The deposit's credit then takes the room away. The school confirms a row still pending, as it should, and the clamp
   * swallows the difference: 40000 and 10000 are paid on a fee of 40000, and the opening balance moves.
   */
  lemma EarlyInstallmentMovesSchedule()
    ensures var r := Step(Sample(), Submit(40_000, None));
            var q := Step(r, Reconcile(0));
            var end := Step(q, Confirm(1));
            q.status == Active && q.balance == PlanStart(q) == 30_000 && Reserved(q) == 40_000 && !Schedulable(q) &&
            q.rows == [Succeed(SampleRow()), NewInstallment(40_000, None)] && end.balance == 0 &&
              PlanStart(end) == 40_000
  {
    CreditedLate();
    hide Step, Sample, Schedulable, PlanStart, Reserved, InstallmentsPaid;
    ClampedConfirmation(Step(Step(Sample(), Submit(40_000, None)), Reconcile(0)), 1);
  }

  lemma ClampedConfirmation(p: Plan, id: nat)
    requires id < |p.rows| && AwaitsSchool(p.rows[id]) && p.balance <= p.rows[id].amountPaid
    ensures Step(p, Confirm(id)).balance == 0
    ensures PlanStart(Step(p, Confirm(id))) == PlanStart(p) - p.balance + p.rows[id].amountPaid
  {
    WriteRowSums(p, id, Succeed(p.rows[id]));
    hide Sum;
  }

  // ------------------------------------------------------------------ disputes that leave credit behind

  lemma LoneBacking(p: Plan)
    requires |p.rows| == 1
    ensures Backing(p) == BackingWeight(p.rows[0])
  {
    LoneRowSums(p.rows, BackingWeight);
  }

  /** Defaulted, and then disputed: the deposit's row is taken back and its credit stays. */
  lemma DefaultedDisputeLeavesPhantomCredit()
    ensures var defaulted := Step(Step(Sample(), Reconcile(0)), Default);
            var q := Step(defaulted, Dispute(0));
            Backed(defaulted) && q.status == Failed && q.balance == 30_000 && Backing(q) == 0 && !Backed(q)
  {
    hide Sample, Sum, ReconcileCard;
    DepositGoesIn();
    var defaulted := Step(Step(Sample(), Reconcile(0)), Default);
    LoneBacking(defaulted);
    LoneBacking(Step(defaulted, Dispute(0)));
  }

  /** Read before the deposit was credited, and committed after: the same. */
  lemma StaleDisputeLeavesPhantomCredit()
    ensures var race := [Prefetch(ToDispute, 0), Other(Reconcile(0)), Commit(0)];
            var q := RunRace(System(Sample(), [], {}), race).plan;
            Backed(Step(Sample(), Reconcile(0))) && q.status == Failed && q.balance == 30_000 && !Backed(q)
  {
    var start, race := System(Sample(), [], {}), [Prefetch(ToDispute, 0), Other(Reconcile(0)), Commit(0)];
    assert Sample().rows == [SampleRow()];
    var seen := Look(Sample(), 0);
    var read := Advance(start, race[0]);
    assert read == System(Sample(), [Call(ToDispute, seen)], {});
    assert seen.planStatus == Pending && seen.rowStatus == RowPending;
    hide Sample, Sum, ReconcileCard;
    DepositGoesIn();
    var paid := Step(Sample(), Reconcile(0));
    LoneBacking(paid);
    var q := DisputeCard(paid, seen).plan;
    LoneBacking(q);
    assert race[1..][1..] == [Commit(0)] && [Commit(0)][1..] == [];
    hide Step, DisputeCard;
    assert RunRace(start, race) == RunRace(read, race[1..]);
    assert RunRace(read, race[1..]) == RunRace(read.(plan := paid), race[1..][1..]);
    assert RunRace(read.(plan := paid), [Commit(0)]) == RunRace(read.(plan := q), []);
  }

  // ------------------------------------------------------------------ a rejection that strands a live charge

  lemma FirstChargeFails()
    ensures Step(Sample(), Fail(0)).rows == [SampleRow().(status := RowFailed)] &&
      Step(Sample(), Fail(0)).status == Failed
  {
    SampleOwesTheFee();
    hide Sample, Sum;
  }

  /** On a failed plan the sample request, which carries no key, opens its charge. */
  lemma StartsCharge(p: Plan)
    requires p.status == Failed
    ensures var q := Step(p, Initiate(SampleRequest()));
            q == OpenCharge(p, SampleRequest(), SampleSplit()) && q.rows == p.rows + [SampleRow()] &&
              q.status == Pending
  {
    SampleIsAccepted();
    hide CalculateInitialPayment;
  }

  /** The first charge fails, and the parent starts another. */
  lemma RetriedCharge()
    ensures var retried := Step(Step(Sample(), Fail(0)), Initiate(SampleRequest()));
            retried.rows == [SampleRow().(status := RowFailed), SampleRow()] && retried.status == Pending
  {
    hide Sample, Step;
    FirstChargeFails();
    StartsCharge(Step(Sample(), Fail(0)));
  }

  lemma PairLive(first: Row, second: Row)
    ensures Sum([first, second], LiveWeight) == LiveWeight(first) + LiveWeight(second)
  {
    LoneRowSums([first], LiveWeight);
    SumAppend([first], second, LiveWeight);
    assert [first] + [second] == [first, second];
  }

  /**
   * Rejecting the old row fails the plan while the new charge is in flight, and the next retry opens a second beside
   * it.
   */
  lemma RejectingDeadRowStrandsLiveCharge()
    ensures var retried := Step(Step(Sample(), Fail(0)), Initiate(SampleRequest()));
            var stranded := Step(retried, Reject(0));
            var again := Step(stranded, Initiate(SampleRequest()));
            LiveCount(retried) == 1 && stranded.status == Failed && LiveCount(stranded) == 1 && LiveCount(again) == 2
  {
    hide Sample, Sum, FailCard, InitiateFirstPayment;
    RetriedCharge();
    var retried := Step(Step(Sample(), Fail(0)), Initiate(SampleRequest()));
    var dead, live := SampleRow().(status := RowFailed), SampleRow();
    PairLive(dead, live);
    var stranded := Step(retried, Reject(0));
    assert stranded.rows == [dead, live];
    StartsCharge(stranded);
    SumAppend(stranded.rows, live, LiveWeight);
  }
}
