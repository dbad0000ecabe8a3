/** Where the schedule's opening balance moves after all, and exactly which states are safe from it. */
module ScheduleLimits {
  import opened Conservation
  import opened Ledger
  import opened LedgerInvariant
  import opened LedgerSums
  import opened Money

  // ------------------------------------------------------------------ the safe states are exactly the schedulable ones

  /** The school confirms everything submitted. */
  lemma {:induction false} ConfirmAll(p: Plan, k: nat) returns (commands: seq<Command>)
    requires Valid(p) && k <= |p.rows|
    requires forall i :: k <= i < |p.rows| ==> !AwaitsSchool(p.rows[i])
    ensures InstallmentRun(p, commands) && Valid(Run(p, commands))
    ensures InstallmentsPaid(Run(p, commands)) == InstallmentsPaid(p) + Reserved(p)
    decreases k
  {
    if k == 0 {
      NoWeight(p.rows, ReservedWeight);
      commands := [];
    } else if AwaitsSchool(p.rows[k - 1]) {
      var next := Step(p, Confirm(k - 1));
      StepValid(p, Confirm(k - 1));
      WriteRowSums(p, k - 1, Succeed(p.rows[k - 1]));
      assert next.rows == p.rows[k - 1 := Succeed(p.rows[k - 1])];
      hide Valid, Step, Reserved, InstallmentsPaid;
      var rest := ConfirmAll(next, k - 1);
      commands := [Confirm(k - 1)] + rest;
      assert commands[1..] == rest;
    } else {
      commands := ConfirmAll(p, k - 1);
    }
  }

  /** The school takes back everything confirmed. */
  lemma {:induction false} ReverseAll(p: Plan, k: nat) returns (commands: seq<Command>)
    requires Valid(p) && k <= |p.rows|
    requires forall i :: k <= i < |p.rows| ==> !IsSettledInstallment(p.rows[i])
    ensures InstallmentRun(p, commands) && Valid(Run(p, commands))
    ensures InstallmentsPaid(Run(p, commands)) == 0 && Run(p, commands).fee == p.fee
    decreases k
  {
    if k == 0 {
      NoWeight(p.rows, InstallmentWeight);
      commands := [];
    } else if IsSettledInstallment(p.rows[k - 1]) {
      var next := Step(p, Reverse(k - 1));
      StepValid(p, Reverse(k - 1));
      assert next.rows == p.rows[k - 1 := p.rows[k - 1].(status := RowReversed, isConfirmed := false)];
      hide Valid, Step;
      var rest := ReverseAll(next, k - 1);
      commands := [Reverse(k - 1)] + rest;
      assert commands[1..] == rest;
    } else {
      commands := ReverseAll(p, k - 1);
    }
  }

  ghost predicate StandsStill(p: Plan) {
    forall commands :: InstallmentRun(p, commands) ==> PlanStart(Run(p, commands)) == PlanStart(p)
  }

  /**
   * The schedule's opening balance stands still over every instalment run exactly from the schedulable states. From any
   * other, confirming everything submitted or reversing everything confirmed moves it.
   */
  lemma StandsStillIff(p: Plan)
    requires Valid(p)
    ensures StandsStill(p) <==> Schedulable(p)
  {
    hide Run, InstallmentRun;
    SumsNonNegative(p);
    if Schedulable(p) {
      forall commands | InstallmentRun(p, commands)
        ensures PlanStart(Run(p, commands)) == PlanStart(p)
      {
        RunConserves(p, commands);
      }
    } else if Reserved(p) > p.balance {
      var commands := ConfirmAll(p, |p.rows|);
      assert PlanStart(Run(p, commands)) > PlanStart(p);
    } else {
      var commands := ReverseAll(p, |p.rows|);
      assert PlanStart(Run(p, commands)) < PlanStart(p);
    }
  }

  /**
   * So a first payment's credit leaves a plan whose opening balance then stands still exactly under the guard it
   * lacks.
   */
  lemma CreditStandsStillIff(p: Plan, c: Command)
    requires Valid(p) && IsOpeningCredit(c) && Execute(p, c).accepted
    ensures c.id < |p.rows|
    ensures var owed := Max(0, p.balance - p.rows[c.id].schoolAmount);
            StandsStill(Step(p, c)) <==> Reserved(p) <= owed && owed + InstallmentsPaid(p) <= p.fee
  {
    CreditSchedule(p, c);
    CreditFigures(p, c);
    hide StandsStill, Schedulable, Step, Valid;
    StandsStillIff(Step(p, c));
  }

  // ------------------------------------------------------------------ corrections

  /**
   * A correction looks at no reservation, so a schedulable plan stays so exactly when what is still pending fits the
   * corrected balance. It moves the opening balance exactly when that was not what the new figure leaves of the fee.
   */
  lemma AmendmentKeepsScheduleIff(p: Plan, amount: int)
    requires Schedulable(p) && Execute(p, Amend(amount)).accepted
    ensures var q := Step(p, Amend(amount));
            (Schedulable(q) <==> Reserved(p) <= p.fee - amount - InstallmentsPaid(p)) &&
            (PlanStart(q) == PlanStart(p) <==> PlanStart(p) + amount == p.fee)
  {
    StepValid(p, Amend(amount));
    AmendmentRestoresBooks(p, amount);
    var id := FindMigrated(p.rows);
    WriteRowSums(p, id, p.rows[id].(amountPaid := amount, schoolAmount := amount));
  }
}
