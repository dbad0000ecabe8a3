/** When each instalment falls due, counted from the start of the plan. */
module DueDates {
  import opened Calendar
  import opened Money

  datatype Frequency = Weekly | Monthly

  function InstallmentCount(frequency: Frequency): (total: nat)
    ensures total >= 3
  {
    if frequency == Weekly then WEEKLY_INSTALLMENTS else MONTHLY_INSTALLMENTS
  }

  /** The n-th due date: n weeks on, or the same day of the n-th month on, or that month's last day if it is shorter. */
  function DueDate(start: Date, frequency: Frequency, n: int): Date {
    if frequency == Weekly then start.(day := start.day + 7 * n)
    else
      var month := MonthOf(start.day) + n;
      start.(day := MonthStart(month) + Min(DayOfMonth(start.day), MonthLength(month)) - 1)
  }

  /** A plan runs exactly the span of its own instalments. */
  function PlanEnd(start: Date, frequency: Frequency): Date {
    DueDate(start, frequency, InstallmentCount(frequency))
  }

  /** A monthly due date stays inside its own month and never rolls into the next. */
  lemma MonthlyDueInMonth(start: Date, n: int)
    ensures MonthOf(DueDate(start, Monthly, n).day) == MonthOf(start.day) + n
    ensures DayOfMonth(DueDate(start, Monthly, n).day)
      == Min(DayOfMonth(start.day), MonthLength(MonthOf(start.day) + n))
  {
    hide MonthStart, MonthOf;
    var month := MonthOf(start.day) + n;
    MonthLengthRange(month);
    MonthOfUnique(DueDate(start, Monthly, n).day, month);
  }

  /** A weekly due date is the start's own weekday and time, seven days after the one before. */
  lemma WeeklyDueInWeek(start: Date, n: int)
    ensures Time(DueDate(start, Weekly, 0)) == Time(start)
    ensures Time(DueDate(start, Weekly, n + 1)) - Time(DueDate(start, Weekly, n)) == 7 * 24 * 60 * 60 * 1000
    ensures DueDate(start, Weekly, n).ms == start.ms
  {
  }

  /** Twelve weekly instalments or three monthly ones. */
  lemma PlanSpan(start: Date)
    ensures PlanEnd(start, Weekly) == start.(day := start.day + 84)
    ensures MonthOf(PlanEnd(start, Monthly).day) == MonthOf(start.day) + 3
  {
    MonthlyDueInMonth(start, 3);
    hide MonthStart, MonthOf;
  }

  /** Each due date is strictly later than the one before. */
  lemma DueDatesIncrease(start: Date, frequency: Frequency, earlier: int, later: int)
    requires earlier < later
    ensures DueDate(start, frequency, earlier).day < DueDate(start, frequency, later).day
    ensures Time(DueDate(start, frequency, earlier)) < Time(DueDate(start, frequency, later))
  {
    hide MonthStart, MonthOf;
    if frequency == Monthly {
      MonthlyDueInMonth(start, earlier);
      MonthlyDueInMonth(start, later);
      MonthsApart(MonthOf(start.day) + earlier + 1, MonthOf(start.day) + later);
    }
  }

  /** A date object whose fields are assigned one at a time, each assignment carrying over as JavaScript's does. */
  class JsDate {
    var day: int
    var ms: int

    function Value(): Date
      reads this
    {
      Date(day, ms)
    }

    constructor (date: Date)
      ensures Value() == date
    {
      day, ms := date.day, date.ms;
    }

    /** `month` and `date` may run past the end of the year or month, or be zero. */
    constructor FromParts(year: int, month: int, date: int)
      ensures Value() == Date(MonthStart(12 * year + month) + date - 1, 0)
    {
      day, ms := MonthStart(12 * year + month) + date - 1, 0;
    }

    function FullYear(): int
      reads this
    {
      MonthOf(day) / 12
    }

    function Month(): int
      reads this
    {
      MonthOf(day) % 12
    }

    function DateOfMonth(): int
      reads this
    {
      DayOfMonth(day)
    }

    method SetDate(date: int)
      modifies this
      ensures Value() == Date(MonthStart(MonthOf(old(day))) + date - 1, old(ms))
    {
      hide MonthStart, MonthOf;
      day := MonthStart(MonthOf(day)) + date - 1;
    }

    method SetMonth(month: int)
      modifies this
      ensures Value() == Date(MonthStart(12 * (MonthOf(old(day)) / 12) + month) + DayOfMonth(old(day)) - 1, old(ms))
    {
      hide MonthStart, MonthOf;
      day := MonthStart(12 * (MonthOf(day) / 12) + month) + DayOfMonth(day) - 1;
    }
  }

  /** The due date as the source computes it: move to the first, move the month, then clamp the day. */
  method InstallmentDueDate(start: Date, frequency: Frequency, n: int) returns (due: JsDate)
    ensures fresh(due) && due.Value() == DueDate(start, frequency, n)
  {
    hide MonthStart, MonthOf;
    due := new JsDate(start);
    if frequency == Weekly {
      due.SetDate(due.DateOfMonth() + 7 * n);
    } else {
      var targetDay := due.DateOfMonth();
      due.SetDate(1);
      MonthLengthRange(MonthOf(start.day));
      MonthOfUnique(due.day, MonthOf(start.day));
      due.SetMonth(due.Month() + n);
      var month := MonthOf(start.day) + n;
      MonthLengthRange(month);
      MonthOfUnique(due.day, month);
      var lastDay := new JsDate.FromParts(due.FullYear(), due.Month() + 1, 0);
      assert lastDay.day == MonthStart(month + 1) - 1;
      MonthOfUnique(lastDay.day, month);
      due.SetDate(Min(targetDay, lastDay.DateOfMonth()));
    }
  }
}
