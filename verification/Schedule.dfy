/** How far through its schedule a plan's money has carried it. No schedule is stored: it is rebuilt from two sums. */
module Schedule {
  import opened DueDates
  import opened Money

  /** Kobo that must have been paid, in all, to close slot n. */
  function CumulativeTarget(planStart: int, total: nat, n: int): int
    requires total > 0
  {
    if n <= 0 then 0 else if n >= total then planStart else planStart / total * n
  }

  datatype Progress = Progress(
    totalInstallments: nat,
    planStartBalance: int,
    installmentsPaidKobo: int,
    scheduledInstallment: int,
    paidInstallments: int,
    remainingInstallments: int,
    nextInstallmentAmount: int,
    creditTowardNextInstallment: int,
    settled: bool)

  /**
   * Slots closed by the money paid, without a loop: whole level slots, of which an unsettled plan lacks at least one.
   */
  function ClosedSlots(planStart: int, total: nat, paid: int): int
    requires total > 0
  {
    var level := planStart / total;
    if paid >= planStart then (if planStart > 0 then total else 0)
    else if level == 0 then 0
    else Min(paid / level, total - 1)
  }

  /** The plan's position as a function of what is owed and what instalments have paid. */
  function ProgressOf(balance: int, paid: int, frequency: Frequency): Progress {
    var total := InstallmentCount(frequency);
    var owed, put := Max(0, balance), Max(0, paid);
    var planStart := owed + put;
    var closed := ClosedSlots(planStart, total, put);
    var gap := CumulativeTarget(planStart, total, closed + 1) - put;
    if owed == 0 then Progress(total, planStart, put, 0, closed, 0, 0, 0, true)
    else Progress(total, planStart, put, planStart / total, closed, total - closed,
                  if gap > 0 then gap else owed,
                  put - CumulativeTarget(planStart, total, closed),
                  false)
  }

  // ------------------------------------------------------------------ arithmetic of level slots

  lemma Quotient(a: int, d: int)
    requires a >= 0 && d > 0
    ensures 0 <= a / d && a / d * d <= a < (a / d + 1) * d
  {
  }

  lemma Times(a: int, b: int, k: int)
    requires a <= b && k >= 0
    ensures a * k <= b * k
  {
  }

  /** A whole number of levels is covered exactly when it is no more than the quotient. */
  lemma CoversLevels(n: int, paid: int, level: int)
    requires paid >= 0 && level > 0
    ensures n <= paid / level <==> n * level <= paid
  {
    Quotient(paid, level);
    if n <= paid / level {
      Times(n, paid / level, level);
    } else {
      Times(paid / level + 1, n, level);
    }
  }

  /** Level slots short of the last one never add up to the whole plan. */
  lemma LevelsShortOfPlan(planStart: int, total: nat, n: int)
    requires planStart > 0 && 0 <= n < total
    ensures planStart / total * n < planStart
  {
    var level := planStart / total;
    Quotient(planStart, total);
    Times(n, total - 1, level);
    assert level * (total - 1) == level * total - level;
  }

  lemma TargetsIncrease(planStart: int, total: nat, a: int, b: int)
    requires total > 0 && planStart >= 0 && a <= b
    ensures 0 <= CumulativeTarget(planStart, total, a) <= CumulativeTarget(planStart, total, b) <= planStart
  {
    var level := planStart / total;
    Quotient(planStart, total);
    if b > 0 && a < total {
      Times(Max(a, 0), b, level);
      Times(Max(a, 0), total, level);
      Times(Min(b, total), total, level);
    }
  }

  /** Money paid reaches a slot when the slot asks for something and that much has been paid in all. */
  predicate Reached(planStart: int, total: nat, paid: int, n: int)
    requires total > 0
  {
    0 < CumulativeTarget(planStart, total, n) <= paid
  }

  /** The closed form is the highest slot reached, and short of the last one while anything is owed. */
  lemma ClosedSlotsIsHighest(planStart: int, total: nat, paid: int)
    requires total > 0 && 0 <= paid && 0 <= planStart
    ensures var closed := ClosedSlots(planStart, total, paid);
            0 <= closed <= total && (closed > 0 ==> Reached(planStart, total, paid, closed)) &&
            (paid < planStart ==> closed < total)
    ensures forall n :: 1 <= n <= total && Reached(planStart, total, paid, n) ==>
      n <= ClosedSlots(planStart, total, paid)
  {
    var level, closed := planStart / total, ClosedSlots(planStart, total, paid);
    Quotient(planStart, total);
    if level > 0 {
      Quotient(paid, level);
      CoversLevels(closed, paid, level);
      if closed > 0 { Times(1, closed, level); }
      forall n | 1 <= n <= total && Reached(planStart, total, paid, n)
        ensures n <= closed
      {
        CoversLevels(n, paid, level);
      }
    }
  }

  /** More is expected than has been paid exactly when a slot is missed, if the missed slots ask for anything. */
  lemma BehindMeansOwing(planStart: int, total: nat, paid: int, expected: int)
    requires total > 0 && 0 <= paid < planStart && 0 <= expected <= total
    ensures CumulativeTarget(planStart, total, expected) > paid
       <==> expected > ClosedSlots(planStart, total, paid) && (planStart >= total || expected == total)
  {
    hide CumulativeTarget, ClosedSlots;
    ClosedSlotsIsHighest(planStart, total, paid);
    var closed := ClosedSlots(planStart, total, paid);
    TargetBounds(planStart, total, expected);
    if expected <= closed {
      TargetsIncrease(planStart, total, expected, closed);
      TargetBounds(planStart, total, closed);
    } else if planStart >= total || expected == total {
      assert !Reached(planStart, total, paid, expected);
    }
  }

  /** A slot asks for something exactly when there is a kobo per slot, or it is the last. */
  lemma TargetBounds(planStart: int, total: nat, n: int)
    requires total > 0 && 0 < planStart && 0 <= n <= total
    ensures CumulativeTarget(planStart, total, n) > 0 <==> n > 0 && (planStart >= total || n == total)
    ensures CumulativeTarget(planStart, total, n) >= 0
  {
    Quotient(planStart, total);
    if planStart >= total {
      assert planStart / total >= 1;
      if n > 0 { Times(1, n, planStart / total); }
    } else {
      assert planStart / total == 0;
    }
  }

  lemma NothingClosed(planStart: int, total: nat, paid: int)
    requires 0 <= paid < planStart < total
    ensures ClosedSlots(planStart, total, paid) == 0
  {
    assert planStart / total == 0;
  }

  /** The slot loop of the source, which skips slots that ask for nothing. */
  method CountClosedSlots(planStart: int, total: nat, paid: int) returns (closed: int)
    requires total > 0 && 0 <= paid && 0 <= planStart
    ensures closed == ClosedSlots(planStart, total, paid)
  {
    ClosedSlotsIsHighest(planStart, total, paid);
    closed := 0;
    var n := 1;
    while n <= total
      invariant 1 <= n <= total + 1
      invariant 0 <= closed < n
      invariant closed > 0 ==> Reached(planStart, total, paid, closed)
      invariant forall m :: closed < m < n ==> !Reached(planStart, total, paid, m)
    {
      var due := CumulativeTarget(planStart, total, n);
      if due > 0 && paid >= due {
        closed := n;
      }
      n := n + 1;
    }
  }

  /** The position as the source derives it; its closing clamps never bite. */
  method DerivePlanProgress(balance: int, paid: int, frequency: Frequency) returns (progress: Progress)
    ensures progress == ProgressOf(balance, paid, frequency)
  {
    var total := InstallmentCount(frequency);
    var owed, put := Max(0, balance), Max(0, paid);
    var planStart := owed + put;
    if owed <= 0 {
      return Progress(total, planStart, put, 0, if planStart > 0 then total else 0, 0, 0, 0, true);
    }
    var closed := CountClosedSlots(planStart, total, put);
    ClosedSlotsIsHighest(planStart, total, put);
    assert closed == Min(closed, total - 1);
    closed := Min(closed, total - 1);
    TargetsIncrease(planStart, total, closed, closed + 1);
    var nextDue := Max(0, CumulativeTarget(planStart, total, closed + 1) - put);
    progress := Progress(
      total, planStart, put, planStart / total, closed, total - closed,
      if nextDue > 0 then Min(nextDue, owed) else owed,
      Max(0, put - CumulativeTarget(planStart, total, closed)),
      false);
  }

  // ------------------------------------------------------------------ paying the quote

  /** The two sums behind a plan. */
  datatype Position = Position(balance: int, paid: int)

  function PositionProgress(p: Position, frequency: Frequency): Progress { ProgressOf(p.balance, p.paid, frequency) }

  function Pay(p: Position, amount: int): Position { Position(p.balance - amount, p.paid + amount) }

  /** Pay whatever is quoted, so many times over. */
  function PayQuotes(p: Position, frequency: Frequency, times: nat): Position
    decreases times
  {
    if times == 0 then p
    else PayQuotes(Pay(p, PositionProgress(p, frequency).nextInstallmentAmount), frequency, times - 1)
  }

  predicate MidPlan(p: Position) { p.balance > 0 && p.paid >= 0 }

  /** The quote tops the plan up to exactly the next slot's target. */
  lemma QuoteReachesTarget(p: Position, frequency: Frequency)
    requires MidPlan(p) && p.balance + p.paid >= InstallmentCount(frequency)
    ensures var progress := PositionProgress(p, frequency);
            var next := Pay(p, progress.nextInstallmentAmount);
            0 < progress.nextInstallmentAmount <= p.balance &&
            next.paid == CumulativeTarget(progress.planStartBalance, progress.totalInstallments,
              progress.paidInstallments + 1)
  {
    var total, planStart := InstallmentCount(frequency), p.balance + p.paid;
    ClosedSlotsIsHighest(planStart, total, p.paid);
    var closed := ClosedSlots(planStart, total, p.paid);
    TargetsIncrease(planStart, total, closed + 1, total);
    Quotient(planStart, total);
    assert CumulativeTarget(planStart, total, closed + 1) > 0 by { Times(1, closed + 1, planStart / total); }
    assert !Reached(planStart, total, p.paid, closed + 1);
  }

  lemma ClosedAtTarget(planStart: int, total: nat, slot: int)
    requires 0 < total <= planStart && 1 <= slot <= total
    ensures ClosedSlots(planStart, total, CumulativeTarget(planStart, total, slot)) == slot
    ensures CumulativeTarget(planStart, total, slot) == planStart <==> slot == total
  {
    var level := planStart / total;
    Quotient(planStart, total);
    assert level >= 1;
    if slot < total {
      LevelsShortOfPlan(planStart, total, slot);
      var paid := level * slot;
      Times(1, slot, level);
      CoversLevels(slot, paid, level);
      CoversLevels(slot + 1, paid, level);
      assert paid / level == slot;
    }
  }

  /** Standing exactly on a slot's target, that many slots are closed. */
  lemma OnTarget(p: Position, frequency: Frequency, slot: int)
    requires p.balance >= 0 && p.paid >= 0 && p.balance + p.paid >= InstallmentCount(frequency)
    requires 1 <= slot <= InstallmentCount(frequency)
    requires p.paid == CumulativeTarget(p.balance + p.paid, InstallmentCount(frequency), slot)
    ensures PositionProgress(p, frequency).paidInstallments == slot
    ensures p.balance == 0 <==> slot == InstallmentCount(frequency)
  {
    ClosedAtTarget(p.balance + p.paid, InstallmentCount(frequency), slot);
    hide CumulativeTarget, ClosedSlots;
  }

  /** Instalment money moves between the two sums, so the opening balance and its slots stand still. */
  lemma PayKeepsSchedule(p: Position, frequency: Frequency, amount: int)
    requires p.paid >= 0 && 0 <= amount <= p.balance
    ensures var before, after := PositionProgress(p, frequency), PositionProgress(Pay(p, amount), frequency);
            after.planStartBalance == before.planStartBalance == p.balance + p.paid &&
            after.totalInstallments == before.totalInstallments == InstallmentCount(frequency) &&
            (after.settled <==> amount == p.balance)
  {
  }

  lemma SlotsRemain(p: Position, frequency: Frequency)
    requires MidPlan(p)
    ensures var progress := PositionProgress(p, frequency);
            0 <= progress.paidInstallments < progress.totalInstallments &&
            progress.remainingInstallments == progress.totalInstallments - progress.paidInstallments
  {
    ClosedSlotsIsHighest(p.balance + p.paid, InstallmentCount(frequency), p.paid);
  }

  /**
   * From any point mid-plan, k quotes close exactly k slots and leave the plan standing on a target; the remaining
   * number of them settles it; and one transfer of the same total gives the same position.
   */
  lemma {:induction false} QuotesCloseSlots(p: Position, frequency: Frequency, times: nat)
    requires MidPlan(p) && p.balance + p.paid >= InstallmentCount(frequency)
    requires 1 <= times <= PositionProgress(p, frequency).remainingInstallments
    ensures var after := PayQuotes(p, frequency, times);
            var before := PositionProgress(p, frequency);
            PositionProgress(after, frequency).paidInstallments == before.paidInstallments + times &&
            after.paid == CumulativeTarget(before.planStartBalance, before.totalInstallments,
                                           before.paidInstallments + times) &&
            (PositionProgress(after, frequency).settled <==> times == before.remainingInstallments) &&
            after == Pay(p, after.paid - p.paid)
    decreases times
  {
    hide CumulativeTarget, ProgressOf, PositionProgress;
    var before := PositionProgress(p, frequency);
    var next := Pay(p, before.nextInstallmentAmount);
    QuoteReachesTarget(p, frequency);
    SlotsRemain(p, frequency);
    PayKeepsSchedule(p, frequency, 0);
    PayKeepsSchedule(p, frequency, before.nextInstallmentAmount);
    OnTarget(next, frequency, before.paidInstallments + 1);
    if times > 1 {
      SlotsRemain(next, frequency);
      QuotesCloseSlots(next, frequency, times - 1);
    } else {
      assert PayQuotes(next, frequency, 0) == next;
    }
  }

  /** A quote closes one slot and no more exactly when the plan opened with at least a kobo per slot. */
  lemma QuoteClosesOneSlot(p: Position, frequency: Frequency)
    requires MidPlan(p)
    ensures var before := PositionProgress(p, frequency);
            var after := PositionProgress(Pay(p, before.nextInstallmentAmount), frequency);
            (after.paidInstallments == before.paidInstallments + 1 <==>
              before.planStartBalance >= before.totalInstallments)
  {
    var before := PositionProgress(p, frequency);
    if before.planStartBalance >= before.totalInstallments {
      QuotesCloseSlots(p, frequency, 1);
      assert PayQuotes(p, frequency, 1) == PayQuotes(Pay(p, before.nextInstallmentAmount), frequency, 0);
    } else {
      assert before.planStartBalance / before.totalInstallments == 0;
    }
  }

  /**
   * The money paid is the closed slots' target and the credit toward the next; with the quote it makes that slot up.
   */
  lemma CreditIsPartSlot(p: Position, frequency: Frequency)
    requires MidPlan(p)
    ensures var progress := PositionProgress(p, frequency);
            var total, closed := progress.totalInstallments, progress.paidInstallments;
            progress.installmentsPaidKobo == p.paid && total == InstallmentCount(frequency) &&
            p.paid == CumulativeTarget(p.balance + p.paid, total, closed) + progress.creditTowardNextInstallment &&
            progress.creditTowardNextInstallment >= 0 &&
            (p.balance + p.paid >= total ==>
              p.paid + progress.nextInstallmentAmount == CumulativeTarget(p.balance + p.paid, total, closed + 1)) &&
            (p.balance + p.paid < total ==> closed == 0 && progress.nextInstallmentAmount == p.balance)
  {
    hide CumulativeTarget, ClosedSlots;
    var total, planStart := InstallmentCount(frequency), p.balance + p.paid;
    ClosedSlotsIsHighest(planStart, total, p.paid);
    if planStart >= total {
      QuoteReachesTarget(p, frequency);
      ClosedIsPaid(planStart, total, p.paid);
    } else {
      NothingClosed(planStart, total, p.paid);
      TinyTargets(planStart, total);
    }
  }

  lemma ClosedIsPaid(planStart: int, total: nat, paid: int)
    requires total > 0 && 0 <= paid && 0 <= planStart
    ensures CumulativeTarget(planStart, total, ClosedSlots(planStart, total, paid)) <= paid
  {
    hide CumulativeTarget, ClosedSlots;
    ClosedSlotsIsHighest(planStart, total, paid);
    if ClosedSlots(planStart, total, paid) == 0 {
      NoSlotNoTarget(planStart, total);
    }
  }

  lemma NoSlotNoTarget(planStart: int, total: nat)
    requires total > 0
    ensures CumulativeTarget(planStart, total, 0) == 0
  {
  }

  lemma TinyTargets(planStart: int, total: nat)
    requires total >= 2 && 0 <= planStart < total
    ensures CumulativeTarget(planStart, total, 0) == CumulativeTarget(planStart, total, 1) == 0
  {
  }

  /** Once nothing is owed nothing is asked, and every slot is closed if any money was. */
  lemma SettledProgress(p: Position, frequency: Frequency)
    requires p.balance <= 0
    ensures var progress := PositionProgress(p, frequency);
            progress.settled && progress.scheduledInstallment == progress.remainingInstallments == 0 &&
            progress.nextInstallmentAmount == progress.creditTowardNextInstallment == 0 &&
            progress.paidInstallments == if p.paid > 0 then InstallmentCount(frequency) else 0
  {
  }
}
