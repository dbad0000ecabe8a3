/**
 * Civil dates: a day number in the Gregorian calendar of one fixed time zone, and a time of day.
 *
 * Months are numbered consecutively, month m being month m % 12 (0 = January) of year m / 12.
 */
module Calendar {
  const DAY_MS := 86_400_000
  const WEEK_MS := 7 * DAY_MS

  /** An instant, as a local day and the milliseconds into it. */
  datatype Date = Date(day: int, ms: int)

  predicate IsDate(d: Date) { 0 <= d.ms < DAY_MS }

  function Time(d: Date): int { d.day * DAY_MS + d.ms }

  /** The date of an instant counted in milliseconds. */
  function DateAt(instant: int): (d: Date)
    ensures IsDate(d) && Time(d) == instant
  {
    Date(instant / DAY_MS, instant % DAY_MS)
  }

  predicate IsLeap(year: int) { year % 4 == 0 && (year % 100 != 0 || year % 400 == 0) }

  /** Day number of 1 January. */
  function YearStart(year: int): int {
    365 * year + (year + 3) / 4 - (year + 99) / 100 + (year + 399) / 400
  }

  /** Days of the year before the given month (0 = January). */
  function DaysBefore(month: int, leap: bool): int
    requires 0 <= month <= 12
  {
    var february := if leap then 29 else 28;
    if month == 0 then 0 else if month == 1 then 31
    else february + [31, 62, 92, 123, 153, 184, 215, 245, 276, 306, 337][month - 2]
  }

  /** Day number of the first of the month. */
  function MonthStart(month: int): int {
    YearStart(month / 12) + DaysBefore(month % 12, IsLeap(month / 12))
  }

  function MonthLength(month: int): int { MonthStart(month + 1) - MonthStart(month) }

  /** A fourth year bumps its own term of YearStart and no other year does. */
  lemma FourthYear(year: int)
    ensures (year + 4) / 4 - (year + 3) / 4 == if year % 4 == 0 then 1 else 0
  {
    var q, r := year / 4, year % 4;
    assert year == 4 * q + r;
    assert (year + 4) / 4 == q + 1;
    assert (year + 3) / 4 == if r == 0 then q else q + 1;
  }

  /** Likewise a hundredth year. */
  lemma HundredthYear(year: int)
    ensures (year + 100) / 100 - (year + 99) / 100 == if year % 100 == 0 then 1 else 0
  {
    var q, r := year / 100, year % 100;
    assert year == 100 * q + r;
    assert (year + 100) / 100 == q + 1;
    assert (year + 99) / 100 == if r == 0 then q else q + 1;
  }

  /** Likewise a four-hundredth year. */
  lemma FourHundredthYear(year: int)
    ensures (year + 400) / 400 - (year + 399) / 400 == if year % 400 == 0 then 1 else 0
  {
    var q, r := year / 400, year % 400;
    assert year == 400 * q + r;
    assert (year + 400) / 400 == q + 1;
    assert (year + 399) / 400 == if r == 0 then q else q + 1;
  }

  lemma CenturiesAreFourths(year: int)
    ensures year % 400 == 0 ==> year % 100 == 0
    ensures year % 100 == 0 ==> year % 4 == 0
  {
  }

  lemma YearLength(year: int)
    ensures YearStart(year + 1) - YearStart(year) == if IsLeap(year) then 366 else 365
  {
    FourthYear(year);
    HundredthYear(year);
    FourHundredthYear(year);
    CenturiesAreFourths(year);
  }

  lemma MonthLengthRange(month: int)
    ensures 28 <= MonthLength(month) <= 31
  {
    YearLength(month / 12);
    hide YearStart, IsLeap;
    if month % 12 == 11 {
      assert (month + 1) / 12 == month / 12 + 1 && (month + 1) % 12 == 0;
    } else {
      assert (month + 1) / 12 == month / 12 && (month + 1) % 12 == month % 12 + 1;
    }
  }

  /** The lengths of the months, by the Gregorian rule for leap years. */
  lemma CivilMonths(month: int)
    ensures var year := month / 12;
            var leap := (year % 4 == 0 && year % 100 != 0) || year % 400 == 0;
            MonthLength(month) == [31, if leap then 29 else 28, 31, 30, 31, 30, 31, 31, 30, 31, 30, 31][month % 12]
  {
    YearLength(month / 12);
    CenturiesAreFourths(month / 12);
    hide YearStart;
    if month % 12 == 11 {
      assert (month + 1) / 12 == month / 12 + 1 && (month + 1) % 12 == 0;
    } else {
      assert (month + 1) / 12 == month / 12 && (month + 1) % 12 == month % 12 + 1;
    }
  }

  lemma {:induction false} MonthsApart(a: int, b: int)
    requires a <= b
    ensures MonthStart(b) >= MonthStart(a) + 28 * (b - a)
    decreases b - a
  {
    hide MonthStart;
    if a < b {
      MonthsApart(a, b - 1);
      MonthLengthRange(b - 1);
    }
  }

  /** Walk from a guess to the month that holds the day. */
  function MonthFrom(day: int, guess: int): (month: int)
    ensures MonthStart(month) <= day < MonthStart(month + 1)
    decreases day < MonthStart(guess), if day < MonthStart(guess) then MonthStart(guess) - day
      else day - MonthStart(guess)
  {
    MonthLengthRange(guess);
    MonthLengthRange(guess - 1);
    hide MonthStart;
    if day < MonthStart(guess) then MonthFrom(day, guess - 1)
    else if day >= MonthStart(guess + 1) then MonthFrom(day, guess + 1)
    else guess
  }

  /** The month a day falls in. */
  function MonthOf(day: int): (month: int)
    ensures MonthStart(month) <= day < MonthStart(month + 1)
  {
    hide MonthStart;
    MonthFrom(day, 0)
  }

  /** The day of the month, from 1. */
  function DayOfMonth(day: int): int { day - MonthStart(MonthOf(day)) + 1 }

  lemma MonthOfUnique(day: int, month: int)
    requires MonthStart(month) <= day < MonthStart(month + 1)
    ensures MonthOf(day) == month
  {
    hide MonthStart, MonthOf;
    if MonthOf(day) < month {
      MonthsApart(MonthOf(day) + 1, month);
    } else if MonthOf(day) > month {
      MonthsApart(month + 1, MonthOf(day));
    }
  }

  lemma MonthOfMonotone(a: int, b: int)
    requires a <= b
    ensures MonthOf(a) <= MonthOf(b)
  {
    hide MonthStart, MonthOf;
    if MonthOf(b) < MonthOf(a) {
      MonthsApart(MonthOf(b) + 1, MonthOf(a));
    }
  }
}
