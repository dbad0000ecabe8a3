/** How much of a balance is past due at an instant. */
module Arrears {
  import opened Calendar
  import opened DueDates
  import opened Money
  import opened Schedule
  import opened Wrappers

  datatype Plan = Plan(balance: int, paid: int, frequency: Frequency, termStart: Date, termEnd: Date)

  datatype ArrearsResult = ArrearsResult(
    overdueAmount: int,
    missedInstallments: int,
    paidInstallments: int,
    daysOverdue: int,
    nextDueDate: Option<Date>,
    termExpired: bool)

  /** Whole periods since the start: by instant for weeks, by calendar day for months. */
  function ElapsedPeriods(start: Date, frequency: Frequency, now: Date): int {
    if Time(now) <= Time(start) then 0
    else if frequency == Weekly then (Time(now) - Time(start)) / WEEK_MS
    else
      var months := (MonthOf(now.day) / 12 - MonthOf(start.day) / 12) * 12
          + (MonthOf(now.day) % 12 - MonthOf(start.day) % 12);
      if months <= 0 then 0
      else if DayOfMonth(now.day) >= DayOfMonth(DueDate(start, Monthly, months).day) then months
      else months - 1
  }

  /** A due date has come round: its instant for weekly plans, its calendar day for monthly ones. */
  predicate HasComeRound(due: Date, frequency: Frequency, now: Date) {
    if frequency == Weekly then Time(due) <= Time(now) else due.day <= now.day
  }

  function DaysSince(due: Date, now: Date): int { (Time(now) - Time(due)) / DAY_MS }

  function ComputeArrears(plan: Plan, now: Date): ArrearsResult {
    var progress := ProgressOf(plan.balance, plan.paid, plan.frequency);
    var total, closed := progress.totalInstallments, progress.paidInstallments;
    if progress.settled then ArrearsResult(0, 0, closed, 0, None, false)
    else
      var termExpired := Time(now) > Time(plan.termEnd);
      var expectedPaid := Min(ElapsedPeriods(plan.termStart, plan.frequency, now), total);
      var missed := Max(0, expectedPaid - closed);
      var nextDue := Some(DueDate(plan.termStart, plan.frequency, Min(closed + 1, total)));
      var firstMissedDue := DueDate(plan.termStart, plan.frequency, closed + 1);
      if termExpired then
        var reference := if Time(firstMissedDue) < Time(plan.termEnd) then firstMissedDue else plan.termEnd;
        ArrearsResult(plan.balance, Max(missed, total - closed), closed, DaysSince(reference, now), nextDue, true)
      else if missed == 0 then
        ArrearsResult(0, 0, closed, 0, nextDue, false)
      else
        var expectedValue := CumulativeTarget(progress.planStartBalance, total, expectedPaid);
        ArrearsResult(Min(Max(0, expectedValue - progress.installmentsPaidKobo), plan.balance), missed, closed,
                      Max(0, DaysSince(firstMissedDue, now)), nextDue, false)
  }

  // ------------------------------------------------------------------ elapsed periods invert due dates

  lemma WholeWeeks(elapsed: int, n: int)
    requires elapsed > 0
    ensures n <= elapsed / WEEK_MS <==> n * WEEK_MS <= elapsed
  {
  }

  /** The number of periods elapsed is the greatest n whose due date has come round. */
  lemma ElapsedIsLatestDue(start: Date, frequency: Frequency, now: Date, n: int)
    requires IsDate(start) && IsDate(now) && n >= 1
    ensures 0 <= ElapsedPeriods(start, frequency, now)
    ensures n <= ElapsedPeriods(start, frequency, now) <==> HasComeRound(DueDate(start, frequency, n), frequency, now)
  {
    if frequency == Weekly {
      assert Time(DueDate(start, Weekly, n)) == Time(start) + n * WEEK_MS;
      if Time(now) > Time(start) { WholeWeeks(Time(now) - Time(start), n); }
    } else {
      MonthlyElapsed(start, now, n);
    }
  }

  lemma MonthlyElapsed(start: Date, now: Date, n: int)
    requires IsDate(start) && IsDate(now) && n >= 1
    ensures 0 <= ElapsedPeriods(start, Monthly, now)
    ensures n <= ElapsedPeriods(start, Monthly, now) <==> DueDate(start, Monthly, n).day <= now.day
  {
    hide MonthStart, MonthOf, DueDate;
    var base, current := MonthOf(start.day), MonthOf(now.day);
    var months := current - base;
    var due := DueDate(start, Monthly, n).day;
    MonthlyDueInMonth(start, n);
    assert due <= now.day <==>
           base + n < current || (base + n == current && DayOfMonth(due) <= DayOfMonth(now.day)) by {
      if base + n < current { MonthsApart(base + n + 1, current); }
      if base + n > current { MonthsApart(current + 1, base + n); }
    }
    if Time(now) <= Time(start) {
      MonthOfMonotone(now.day, start.day);
    }
  }

  /** Periods never un-elapse. */
  lemma ElapsedMonotone(start: Date, frequency: Frequency, earlier: Date, later: Date)
    requires IsDate(start) && IsDate(earlier) && IsDate(later) && Time(earlier) <= Time(later)
    ensures 0 <= ElapsedPeriods(start, frequency, earlier) <= ElapsedPeriods(start, frequency, later)
  {
    hide ElapsedPeriods, DueDate;
    ElapsedIsLatestDue(start, frequency, later, 1);
    ElapsedIsLatestDue(start, frequency, earlier, 1);
    var n := ElapsedPeriods(start, frequency, earlier);
    if n >= 1 {
      ElapsedIsLatestDue(start, frequency, earlier, n);
      ElapsedIsLatestDue(start, frequency, later, n);
    }
  }

  // ------------------------------------------------------------------ the overdue amount

  predicate IsPlan(plan: Plan) { plan.paid >= 0 && IsDate(plan.termStart) && IsDate(plan.termEnd) }

  /** What the schedule says should have been paid by now. */
  function ExpectedValue(plan: Plan, now: Date): int
    requires plan.balance >= 0
  {
    var total := InstallmentCount(plan.frequency);
    CumulativeTarget(plan.balance + plan.paid, total, Min(ElapsedPeriods(plan.termStart, plan.frequency, now), total))
  }

  /** Overdue is what is expected and not yet paid, or everything once the term is over; no branch says otherwise. */
  lemma OverdueClosedForm(plan: Plan, now: Date)
    requires IsPlan(plan)
    ensures ComputeArrears(plan, now).overdueAmount
         == if plan.balance <= 0 then 0
            else if Time(now) > Time(plan.termEnd) then plan.balance
            else Max(0, ExpectedValue(plan, now) - plan.paid)
  {
    hide ElapsedPeriods, DueDate, CumulativeTarget, ClosedSlots;
    if plan.balance > 0 {
      var total, planStart := InstallmentCount(plan.frequency), plan.balance + plan.paid;
      var closed := ClosedSlots(planStart, total, plan.paid);
      var expectedPaid := Min(ElapsedPeriods(plan.termStart, plan.frequency, now), total);
      ClosedSlotsIsHighest(planStart, total, plan.paid);
      TargetsIncrease(planStart, total, expectedPaid, total);
      if expectedPaid <= closed {
        TargetsIncrease(planStart, total, expectedPaid, closed);
        ClosedIsPaid(planStart, total, plan.paid);
      }
    }
  }

  function PayInto(plan: Plan, amount: int): Plan {
    plan.(balance := plan.balance - amount, paid := plan.paid + amount)
  }

  /** Every kobo paid clears a kobo of arrears, whatever the instant and whichever branches the two sides take. */
  lemma EveryKoboClears(plan: Plan, now: Date, amount: int)
    requires IsPlan(plan) && 0 <= amount <= plan.balance
    ensures ComputeArrears(PayInto(plan, amount), now).overdueAmount
         == Max(0, ComputeArrears(plan, now).overdueAmount - amount)
  {
    hide ComputeArrears, ElapsedPeriods, CumulativeTarget, Time;
    OverdueClosedForm(plan, now);
    OverdueClosedForm(PayInto(plan, amount), now);
    OverdueWithinBalance(plan, now);
  }

  lemma OverdueWithinBalance(plan: Plan, now: Date)
    requires IsPlan(plan)
    ensures 0 <= ComputeArrears(plan, now).overdueAmount <= Max(0, plan.balance)
  {
    hide ComputeArrears, ElapsedPeriods, CumulativeTarget, Time;
    OverdueClosedForm(plan, now);
    if plan.balance > 0 {
      var total := InstallmentCount(plan.frequency);
      TargetsIncrease(plan.balance + plan.paid, total, Min(ElapsedPeriods(plan.termStart, plan.frequency, now), total),
        total);
    }
  }

  /** With no payment in between, the overdue amount never falls as time passes, wherever the term ends. */
  lemma OverdueMonotone(plan: Plan, earlier: Date, later: Date)
    requires IsPlan(plan) && IsDate(earlier) && IsDate(later) && Time(earlier) <= Time(later)
    ensures ComputeArrears(plan, earlier).overdueAmount <= ComputeArrears(plan, later).overdueAmount
  {
    hide ComputeArrears, ElapsedPeriods, CumulativeTarget, Time;
    OverdueClosedForm(plan, earlier);
    OverdueClosedForm(plan, later);
    OverdueWithinBalance(plan, earlier);
    ElapsedMonotone(plan.termStart, plan.frequency, earlier, later);
    if plan.balance > 0 {
      var total := InstallmentCount(plan.frequency);
      TargetsIncrease(plan.balance + plan.paid, total,
                      Min(ElapsedPeriods(plan.termStart, plan.frequency, earlier), total),
                      Min(ElapsedPeriods(plan.termStart, plan.frequency, later), total));
    }
  }

  /** Some slot is missed exactly when some money is overdue, unless the slots up to now ask for nothing at all. */
  lemma MissedMeansOverdue(plan: Plan, now: Date)
    requires IsPlan(plan) && IsDate(now)
    ensures var result := ComputeArrears(plan, now);
            result.missedInstallments >= 0 &&
            (result.overdueAmount > 0 ==> result.missedInstallments > 0) &&
            (result.missedInstallments > 0 && result.overdueAmount == 0 <==>
              plan.balance > 0 && Time(now) <= Time(plan.termEnd) &&
              plan.balance + plan.paid < InstallmentCount(plan.frequency) &&
              0 < ElapsedPeriods(plan.termStart, plan.frequency, now) < InstallmentCount(plan.frequency))
  {
    hide ElapsedPeriods, DueDate, CumulativeTarget, ClosedSlots, Time;
    OverdueClosedForm(plan, now);
    if plan.balance > 0 {
      var total, planStart := InstallmentCount(plan.frequency), plan.balance + plan.paid;
      var expectedPaid := Min(ElapsedPeriods(plan.termStart, plan.frequency, now), total);
      ClosedSlotsIsHighest(planStart, total, plan.paid);
      ElapsedMonotone(plan.termStart, plan.frequency, now, now);
      BehindMeansOwing(planStart, total, plan.paid, expectedPaid);
      if planStart < total { NothingClosed(planStart, total, plan.paid); }
    }
  }

  // ------------------------------------------------------------------ counts and dates

  /** The whole days from one instant to another, none if it lies ahead. */
  predicate IsWholeDays(days: int, due: Date, now: Date) {
    DAY_MS * days <= Max(0, Time(now) - Time(due)) < DAY_MS * (days + 1)
  }

  function Earlier(a: Date, b: Date): Date { if Time(a) < Time(b) then a else b }

  /**
   * The slots a plan is behind by, and for how long: within the term, those come round but not closed, and the days
   * since the first of them; past it, every open slot, and the days since that one's date or the end, whichever is
   * earlier.
   */
  lemma BehindBy(plan: Plan, now: Date)
    requires IsPlan(plan) && IsDate(now) && plan.balance > 0
    ensures var result := ComputeArrears(plan, now);
            var total := InstallmentCount(plan.frequency);
            var elapsed := Min(ElapsedPeriods(plan.termStart, plan.frequency, now), total);
            var due := DueDate(plan.termStart, plan.frequency, result.paidInstallments + 1);
            (result.termExpired <==> Time(now) > Time(plan.termEnd)) &&
            result.missedInstallments ==
              (if result.termExpired then total - result.paidInstallments
               else Max(0, elapsed - result.paidInstallments)) &&
            (result.termExpired ==> IsWholeDays(result.daysOverdue, Earlier(due, plan.termEnd), now)) &&
            (!result.termExpired && result.missedInstallments > 0 ==> IsWholeDays(result.daysOverdue, due, now)) &&
            (result.missedInstallments == 0 ==> result.daysOverdue == 0)
  {
    hide ElapsedPeriods, DueDate, CumulativeTarget, ClosedSlots, Time;
    var total, planStart := InstallmentCount(plan.frequency), plan.balance + plan.paid;
    ClosedSlotsIsHighest(planStart, total, plan.paid);
    var due := DueDate(plan.termStart, plan.frequency, ComputeArrears(plan, now).paidInstallments + 1);
    WholeDays(due, now);
    WholeDays(plan.termEnd, now);
  }

  lemma WholeDays(due: Date, now: Date)
    ensures IsWholeDays(Max(0, DaysSince(due, now)), due, now)
    ensures Time(now) > Time(due) ==> DaysSince(due, now) >= 0
  {
  }

  /** A settled plan is behind by nothing, whatever the date, and has no next one. */
  lemma SettledOwesNothing(plan: Plan, now: Date)
    requires plan.balance <= 0
    ensures var result := ComputeArrears(plan, now);
            result.overdueAmount == result.missedInstallments == result.daysOverdue == 0 &&
            !result.termExpired && result.nextDueDate == None &&
            result.paidInstallments == if plan.paid > 0 then InstallmentCount(plan.frequency) else 0
  {
  }

  /** The next date is that of the first slot that asks for more than has been paid, on a plan worth a kobo a slot. */
  lemma NextDueIsFirstOpenSlot(plan: Plan, now: Date, slot: int)
    requires IsPlan(plan) && plan.balance > 0 && 1 <= slot <= InstallmentCount(plan.frequency)
    requires plan.balance + plan.paid >= InstallmentCount(plan.frequency)
    requires var total := InstallmentCount(plan.frequency);
             CumulativeTarget(plan.balance + plan.paid, total, slot - 1) <= plan.paid
               < CumulativeTarget(plan.balance + plan.paid, total, slot)
    ensures ComputeArrears(plan, now).nextDueDate == Some(DueDate(plan.termStart, plan.frequency, slot))
    ensures ComputeArrears(plan, now).paidInstallments == slot - 1
  {
    hide ElapsedPeriods, DueDate, ClosedSlots, CumulativeTarget, Time;
    var total, planStart := InstallmentCount(plan.frequency), plan.balance + plan.paid;
    OpenSlot(planStart, total, plan.paid, slot);
  }

  lemma OpenSlot(planStart: int, total: nat, paid: int, slot: int)
    requires 0 < total <= planStart && 0 <= paid && 1 <= slot <= total
    requires CumulativeTarget(planStart, total, slot - 1) <= paid < CumulativeTarget(planStart, total, slot)
    ensures ClosedSlots(planStart, total, paid) == slot - 1
  {
    hide ClosedSlots, CumulativeTarget;
    ClosedSlotsIsHighest(planStart, total, paid);
    var closed := ClosedSlots(planStart, total, paid);
    if slot <= closed { TargetsIncrease(planStart, total, slot, closed); }
    if slot > 1 {
      TargetBounds(planStart, total, slot - 1);
      assert Reached(planStart, total, paid, slot - 1);
    }
  }

  // ------------------------------------------------------------------ the end of the term

  /** The schedule's own answer, with the term not yet over. */
  function ScheduleAnswer(plan: Plan, now: Date): ArrearsResult {
    ComputeArrears(plan.(termEnd := now), now)
  }

  /** When the term ends where the plan's own instalments end, expiry changes no figure the schedule would not give. */
  lemma CliffIsHarmless(plan: Plan, now: Date)
    requires IsPlan(plan) && IsDate(now) && plan.balance > 0
    requires plan.termEnd == PlanEnd(plan.termStart, plan.frequency) && Time(now) > Time(plan.termEnd)
    ensures ComputeArrears(plan, now) == ScheduleAnswer(plan, now).(termExpired := true)
  {
    hide ElapsedPeriods, DueDate, ClosedSlots, CumulativeTarget, Time;
    var total, planStart := InstallmentCount(plan.frequency), plan.balance + plan.paid;
    var closed := ClosedSlots(planStart, total, plan.paid);
    ClosedSlotsIsHighest(planStart, total, plan.paid);
    AllDueByPlanEnd(plan.termStart, plan.frequency, now, closed + 1);
    NotLongAgo(plan.termEnd, now);
    ScheduleCap(planStart, total);
  }

  lemma ScheduleCap(planStart: int, total: nat)
    requires total > 0
    ensures CumulativeTarget(planStart, total, total) == planStart
  {
  }

  lemma NotLongAgo(due: Date, now: Date)
    requires Time(due) <= Time(now)
    ensures DaysSince(due, now) >= 0
  {
  }

  /** Once a plan's own span is over, every period has elapsed and every slot's date lies behind the end. */
  lemma AllDueByPlanEnd(start: Date, frequency: Frequency, now: Date, slot: int)
    requires IsDate(start) && IsDate(now) && slot <= InstallmentCount(frequency)
    requires Time(now) > Time(PlanEnd(start, frequency))
    ensures ElapsedPeriods(start, frequency, now) >= InstallmentCount(frequency)
    ensures Time(DueDate(start, frequency, slot)) <= Time(PlanEnd(start, frequency))
    ensures slot < InstallmentCount(frequency) ==>
      Time(DueDate(start, frequency, slot)) < Time(PlanEnd(start, frequency))
    ensures slot == InstallmentCount(frequency) ==> DueDate(start, frequency, slot) == PlanEnd(start, frequency)
  {
    var total := InstallmentCount(frequency);
    ElapsedIsLatestDue(start, frequency, now, total);
    hide ElapsedPeriods, DueDate;
    LateByInstantIsLateByDay(PlanEnd(start, frequency), now) by {
      SameTimeOfDay(start, frequency, total);
    }
    if slot < total {
      DueDatesIncrease(start, frequency, slot, total);
    }
  }

  lemma SameTimeOfDay(start: Date, frequency: Frequency, n: int)
    ensures DueDate(start, frequency, n).ms == start.ms
  {
  }

  lemma LateByInstantIsLateByDay(due: Date, now: Date)
    requires IsDate(due) && IsDate(now) && Time(now) >= Time(due)
    ensures due.day <= now.day
  {
  }

  /** On any other term end, expiry leaves the overdue amount alone exactly when every period has elapsed anyway. */
  lemma CliffChangesOverdue(plan: Plan, now: Date)
    requires IsPlan(plan) && IsDate(now) && plan.balance > 0 && Time(now) > Time(plan.termEnd)
    ensures ComputeArrears(plan, now).overdueAmount == ScheduleAnswer(plan, now).overdueAmount
       <==> ElapsedPeriods(plan.termStart, plan.frequency, now) >= InstallmentCount(plan.frequency)
  {
    var total, planStart := InstallmentCount(plan.frequency), plan.balance + plan.paid;
    var elapsed := ElapsedPeriods(plan.termStart, plan.frequency, now);
    hide ElapsedPeriods, ComputeArrears, Time;
    OverdueClosedForm(plan, now);
    OverdueClosedForm(plan.(termEnd := now), now);
    if 0 <= elapsed < total {
      LevelsShortOfPlan(planStart, total, elapsed);
    }
  }
}
