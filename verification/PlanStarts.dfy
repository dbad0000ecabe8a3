/**
 * The start a school may choose for a migrated plan, and what the family then owes on the day it is chosen or claimed.
 */
module PlanStarts {
  import opened Arrears
  import opened Calendar
  import opened Conservation
  import opened DueDates
  import opened Invites
  import opened InviteSafety
  import opened Schedule
  import opened Wrappers
  import Ledger

  /** A first period is never shorter than four weeks for monthly plans, a week for weekly ones. */
  lemma FirstPeriodIsLong(start: Date, frequency: Frequency)
    ensures DueDate(start, frequency, 1).day >= start.day + if frequency == Weekly then 7 else 28
    ensures DueDate(start, frequency, 1).ms == start.ms
  {
    hide MonthStart, MonthOf;
    MonthLengthRange(MonthOf(start.day));
    MonthLengthRange(MonthOf(start.day) + 1);
  }

  /**
   * No start a school may choose leaves anything due on the day it chooses it, under any balance and any money paid.
   */
  lemma NothingDueAtIssue(plan: Plan, now: Date)
    requires IsPlan(plan) && IsDate(now)
    requires plan.termEnd == PlanEnd(plan.termStart, plan.frequency) && ValidatePlanStart(plan.termStart, now) == None
    ensures ComputeArrears(plan, now).overdueAmount == 0 && ComputeArrears(plan, now).missedInstallments == 0
  {
    hide ComputeArrears, ElapsedPeriods, Time, PlanEnd;
    NothingElapsedAtIssue(plan.termStart, plan.frequency, now);
    OverdueClosedForm(plan, now);
    MissedMeansOverdue(plan, now);
  }

  lemma NothingElapsedAtIssue(start: Date, frequency: Frequency, now: Date)
    requires IsDate(start) && IsDate(now) && ValidatePlanStart(start, now) == None
    ensures ElapsedPeriods(start, frequency, now) == 0 && Time(now) <= Time(PlanEnd(start, frequency))
  {
    FirstPeriodIsLong(start, frequency);
    ElapsedIsLatestDue(start, frequency, now, 1);
    DueDatesIncrease(start, frequency, 1, InstallmentCount(frequency));
    hide ElapsedPeriods, DueDate;
  }

  /** The arrears of the plan an invite would open, at an instant. */
  function OpeningArrears(i: Invite, now: int): ArrearsResult {
    ComputeArrears(ArrearsPlan(Ledger.OpenMigrated(i.fee, i.alreadyPaid), i.frequency, i.planStart,
      PlanEnd(i.planStart, i.frequency)),
                   DateAt(now))
  }

  lemma OpeningBehindIff(i: Invite, now: int)
    requires 0 <= i.alreadyPaid <= i.fee && IsDate(i.planStart)
    ensures OpeningArrears(i, now).missedInstallments > 0 <==>
            i.alreadyPaid < i.fee && HasComeRound(DueDate(i.planStart, i.frequency, 1), i.frequency, DateAt(now))
  {
    hide ComputeArrears, ElapsedPeriods, DueDate, HasComeRound, Time, DateAt, CumulativeTarget;
    var p, total := Ledger.OpenMigrated(i.fee, i.alreadyPaid), InstallmentCount(i.frequency);
    var plan := ArrearsPlan(p, i.frequency, i.planStart, PlanEnd(i.planStart, i.frequency));
    LoneRowSums(p.rows, Ledger.InstallmentWeight);
    ElapsedIsLatestDue(i.planStart, i.frequency, DateAt(now), 1);
    MissedOnUnpaidPlan(plan, DateAt(now));
    if Time(DateAt(now)) > Time(plan.termEnd) {
      AllDueByPlanEnd(i.planStart, i.frequency, DateAt(now), 1);
    }
  }

  lemma MissedOnUnpaidPlan(plan: Plan, now: Date)
    requires plan.paid == 0 && plan.balance >= 0
    ensures ComputeArrears(plan, now).missedInstallments > 0 <==>
            plan.balance > 0 && (Time(now) > Time(plan.termEnd) ||
              ElapsedPeriods(plan.termStart, plan.frequency, now) >= 1)
  {
    hide ElapsedPeriods, DueDate, CumulativeTarget, ClosedSlots, Time;
    if plan.balance > 0 {
      NothingPaidClosesNothing(plan.balance, InstallmentCount(plan.frequency));
    }
  }

  lemma NothingPaidClosesNothing(planStart: int, total: nat)
    requires planStart > 0 && total > 0
    ensures ClosedSlots(planStart, total, 0) == 0
  {
    ClosedSlotsIsHighest(planStart, total, 0);
  }

  /**
   * A claim does not ask about the start again. It opens the plan of its invite, already behind exactly when money is
   * owed and the first due date went by before the claim.
   */
  lemma ClaimedBehindIff(b: Book, id: nat, token: nat, childHasPlan: bool)
    requires Sound(b) && Claim(b, id, token, childHasPlan).accepted
    ensures var i := b.invites[id];
            Claim(b, id, token, childHasPlan).book.plans[id] == Ledger.OpenMigrated(i.fee, i.alreadyPaid) &&
            (OpeningArrears(i, b.clock).missedInstallments > 0 <==>
              i.alreadyPaid < i.fee && HasComeRound(DueDate(i.planStart, i.frequency, 1), i.frequency, DateAt(b.clock)))
  {
    assert Linked(b, id);
    hide OpeningArrears, HasComeRound, DueDate, Ledger.OpenMigrated, AlreadyMigrated;
    OpeningBehindIff(b.invites[id], b.clock);
  }

  /**
   * So a weekly plan starting on the day of issue, in an invite of the default lifetime, opens on schedule if claimed
   * at once, and behind if claimed in the second week, while the invite is still good.
   */
  lemma LateClaimOpensBehind(b: Book, r: IssueRequest, now: int)
    requires Sound(b) && Issue(b, r).accepted
    requires r.frequency == Weekly && r.planStart == DateAt(b.clock) && r.days == None &&
      r.alreadyPaid < r.publishedFee.value
    requires b.clock + 7 * DAY_MS <= now < b.clock + DEFAULT_EXPIRY_DAYS * DAY_MS
    ensures var issued := Issue(b, r).book;
            var id, i := |b.invites|, issued.invites[|b.invites|];
            Claim(issued, id, i.token, false).accepted && OpeningArrears(i, b.clock).missedInstallments == 0 &&
            Claim(Tick(issued, now), id, i.token, false).accepted && OpeningArrears(i, now).missedInstallments > 0
  {
    var issued := Issue(b, r).book;
    var i := issued.invites[|b.invites|];
    assert forall k :: 0 <= k < |b.invites| ==> issued.invites[k] == b.invites[k];
    assert !AlreadyMigrated(issued, i.student) && !AlreadyMigrated(Tick(issued, now), i.student);
    hide AlreadyMigrated, SlotTakenFolded, OpeningArrears, Sound, MonthStart, MonthOf, DateAt;
    OpeningBehindIff(i, now);
    OpeningBehindIff(i, b.clock);
    NoneMissed(i, b.clock);
  }

  lemma NoneMissed(i: Invite, now: int)
    ensures 0 <= OpeningArrears(i, now).missedInstallments
  {
    hide ElapsedPeriods, DueDate, CumulativeTarget, ClosedSlots, Time, Ledger.OpenMigrated;
    var plan := ArrearsPlan(Ledger.OpenMigrated(i.fee, i.alreadyPaid), i.frequency, i.planStart,
        PlanEnd(i.planStart, i.frequency));
    NeverNegativeMissed(plan, DateAt(now));
  }

  lemma NeverNegativeMissed(plan: Plan, now: Date)
    ensures 0 <= ComputeArrears(plan, now).missedInstallments
  {
    hide ElapsedPeriods, DueDate, CumulativeTarget, ClosedSlots, Time;
  }
}
