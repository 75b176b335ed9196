/** Local calendar dates (proleptic Gregorian), the JavaScript `Date`
    operations the KPI windows use, and the two window starts. */
module Calendar {

  /** A calendar date; `month` runs from 1 to 12 (JavaScript's `getMonth()`
      is this minus one). */
  datatype CalendarDate = CalendarDate(year: int, month: int, day: int)

  predicate IsLeapYear(y: int) {
    y % 4 == 0 && (y % 100 != 0 || y % 400 == 0)
  }

  function DaysInMonth(y: int, m: int): (n: int)
    requires 1 <= m <= 12
    ensures 28 <= n <= 31
  {
    if m == 2 then (if IsLeapYear(y) then 29 else 28)
    else if m == 4 || m == 6 || m == 9 || m == 11 then 30
    else 31
  }

  ghost predicate ValidDate(d: CalendarDate) {
    1 <= d.month <= 12 && 1 <= d.day <= DaysInMonth(d.year, d.month)
  }

  type Date = d: CalendarDate | ValidDate(d) witness CalendarDate(1970, 1, 1)

  /** Days in the months of year `y` before month `m`. */
  function DaysBeforeMonth(y: int, m: int): int
    requires 1 <= m <= 12
  {
    var leap := if m > 2 && IsLeapYear(y) then 1 else 0;
    leap + (
      if m == 1 then 0 else if m == 2 then 31 else if m == 3 then 59
      else if m == 4 then 90 else if m == 5 then 120 else if m == 6 then 151
      else if m == 7 then 181 else if m == 8 then 212 else if m == 9 then 243
      else if m == 10 then 273 else if m == 11 then 304 else 334)
  }

  /** Days in the years before year `y`, counted from year 1. */
  function DaysBeforeYear(y: int): int {
    365 * (y - 1) + (y - 1) / 4 - (y - 1) / 100 + (y - 1) / 400
  }

  /** Serial day number: 0001-01-01 is day 1, and consecutive dates have
      consecutive numbers (see DayNumberNext). */
  function DayNumber(d: Date): int {
    DaysBeforeYear(d.year) + DaysBeforeMonth(d.year, d.month) + d.day
  }

  /** JavaScript's `getDay()`: 0 for Sunday up to 6 for Saturday
      (0001-01-01 was a Monday). */
  function Weekday(d: Date): (w: int)
    ensures 0 <= w < 7
  {
    DayNumber(d) % 7
  }

  lemma YearLength(y: int)
    ensures DaysBeforeYear(y + 1) - DaysBeforeYear(y) == if IsLeapYear(y) then 366 else 365
  {
    assert y / 4 - (y - 1) / 4 == if y % 4 == 0 then 1 else 0;
    assert y / 100 - (y - 1) / 100 == if y % 100 == 0 then 1 else 0;
    assert y / 400 - (y - 1) / 400 == if y % 400 == 0 then 1 else 0;
  }

  lemma MonthLength(y: int, m: int)
    requires 1 <= m < 12
    ensures DaysBeforeMonth(y, m + 1) == DaysBeforeMonth(y, m) + DaysInMonth(y, m)
  {
  }

  /** The date after `d`. */
  function NextDay(d: Date): Date {
    if d.day < DaysInMonth(d.year, d.month) then CalendarDate(d.year, d.month, d.day + 1)
    else if d.month < 12 then CalendarDate(d.year, d.month + 1, 1)
    else CalendarDate(d.year + 1, 1, 1)
  }

  /** Day numbers count days: the next date has the next number. */
  lemma DayNumberNext(d: Date)
    ensures DayNumber(NextDay(d)) == DayNumber(d) + 1
  {
    if d.day == DaysInMonth(d.year, d.month) {
      if d.month < 12 {
        MonthLength(d.year, d.month);
      } else {
        YearLength(d.year);
      }
    }
  }

  /** Different dates have different day numbers. */
  lemma DayNumberInjective(d: Date, e: Date)
    requires DayNumber(d) == DayNumber(e)
    ensures d == e
  {
    if d.year < e.year {
      YearsApart(d, e);
    } else if e.year < d.year {
      YearsApart(e, d);
    } else if d.month < e.month {
      MonthsApart(d, e);
    } else if e.month < d.month {
      MonthsApart(e, d);
    }
  }

  lemma {:induction false} DaysBeforeYearGrows(y: int, z: int)
    requires y <= z
    ensures DaysBeforeYear(z) - DaysBeforeYear(y) >= 365 * (z - y)
    decreases z - y
  {
    if y < z {
      YearLength(y);
      DaysBeforeYearGrows(y + 1, z);
    }
  }

  lemma {:induction false} DaysBeforeMonthGrows(y: int, m: int, n: int)
    requires 1 <= m <= n <= 12
    ensures DaysBeforeMonth(y, n) - DaysBeforeMonth(y, m) >= if m < n then DaysInMonth(y, m) else 0
  {
  }

  lemma YearsApart(d: Date, e: Date)
    requires d.year < e.year
    ensures DayNumber(d) < DayNumber(e)
  {
    DaysBeforeYearGrows(d.year + 1, e.year);
    YearLength(d.year);
  }

  lemma MonthsApart(d: Date, e: Date)
    requires d.year == e.year && d.month < e.month
    ensures DayNumber(d) < DayNumber(e)
  {
    DaysBeforeMonthGrows(d.year, d.month, e.month);
  }

  /** JavaScript's `setDate(k)` on a date of this model: the k-th day of the
      date's month, where 0 and below reach back into the month before. */
  function WithDayOfMonth(d: Date, k: int): (r: Date)
    requires -27 <= k <= DaysInMonth(d.year, d.month)
    ensures DayNumber(r) == DayNumber(d) - d.day + k
  {
    if k >= 1 then CalendarDate(d.year, d.month, k)
    else if d.month > 1 then
      MonthLength(d.year, d.month - 1);
      CalendarDate(d.year, d.month - 1, DaysInMonth(d.year, d.month - 1) + k)
    else
      YearLength(d.year - 1);
      CalendarDate(d.year - 1, 12, 31 + k)
  }

  /** The week window start: today moved back by its weekday. */
  function WeekStart(today: Date): (r: Date)
    ensures DayNumber(r) == DayNumber(today) - Weekday(today)
    ensures Weekday(r) == 0
  {
    var r := WithDayOfMonth(today, today.day - Weekday(today));
    SundayAfterRemovingWeekday(DayNumber(today));
    r
  }

  lemma SundayAfterRemovingWeekday(n: int)
    ensures (n - n % 7) % 7 == 0
  {
    assert n - n % 7 == 7 * (n / 7);
  }

  /** Day 1 of the month that contains `d`. */
  function MonthStart(d: Date): (r: Date)
    ensures r.year == d.year && r.month == d.month && r.day == 1
    ensures DayNumber(r) == DayNumber(d) - d.day + 1
  {
    CalendarDate(d.year, d.month, 1)
  }

  /** The week start is the most recent Sunday: a Sunday at most six days
      before today, and no day after it up to today is a Sunday. */
  lemma WeekStartIsMostRecentSunday(today: Date)
    ensures var w := WeekStart(today);
      Weekday(w) == 0
      && DayNumber(today) - 6 <= DayNumber(w) <= DayNumber(today)
      && forall n :: DayNumber(w) < n <= DayNumber(today) ==> n % 7 != 0
  {
    var w := WeekStart(today);
    forall n | DayNumber(w) < n <= DayNumber(today)
      ensures n % 7 != 0
    {
      NoMultipleOfSevenAfter(DayNumber(today), n);
    }
  }

  lemma NoMultipleOfSevenAfter(t: int, n: int)
    requires t - t % 7 < n <= t
    ensures n % 7 != 0
  {
    assert n == 7 * (t / 7) + (n - (t - t % 7));
  }

  /** Recomputing the week start from a week start changes nothing. */
  lemma WeekStartIdempotent(today: Date)
    ensures WeekStart(WeekStart(today)) == WeekStart(today)
  {
  }

  /** The month window starts on day 1 of the week start's month, which is
      never after the week start. */
  lemma MonthStartBeforeWeekStart(today: Date)
    ensures var w := WeekStart(today); var m := MonthStart(w);
      m.day == 1 && m.year == w.year && m.month == w.month && DayNumber(m) <= DayNumber(w)
  {
  }

  /** When today's day of the month exceeds its weekday, the week start and
      so the month start stay in today's month. */
  lemma MonthStartIsTodaysMonth(today: Date)
    requires today.day > Weekday(today)
    ensures MonthStart(WeekStart(today)) == CalendarDate(today.year, today.month, 1)
  {
  }

  /** The window the source's comment describes, "this month's tasks": day
      1 of today's own month, never after today and less than a month
      before it. */
  lemma TodaysMonthStart(today: Date)
    ensures var m := MonthStart(today);
      m.year == today.year && m.month == today.month && m.day == 1
      && DayNumber(today) - DaysInMonth(today.year, today.month) < DayNumber(m) <= DayNumber(today)
  {
  }

  /** On Saturday 2 March 2024 the week starts on Sunday 25 February, so the
      month window starts on 1 February rather than 1 March. */
  lemma MonthStartFollowsWeekStart()
    ensures Weekday(CalendarDate(2024, 3, 2)) == 6
    ensures WeekStart(CalendarDate(2024, 3, 2)) == CalendarDate(2024, 2, 25)
    ensures MonthStart(WeekStart(CalendarDate(2024, 3, 2))) == CalendarDate(2024, 2, 1)
    ensures MonthStart(WeekStart(CalendarDate(2024, 3, 2))) != MonthStart(CalendarDate(2024, 3, 2))
  {
    var today: Date := CalendarDate(2024, 3, 2);
    assert DayNumber(today) == 738947;
  }

  /** A JavaScript `Date` object reduced to the local calendar date it
      holds; its setter changes it in place. */
  class LocalDate {
    var year: int
    var month: int
    var day: int

    ghost predicate Valid()
      reads this
    {
      ValidDate(CalendarDate(year, month, day))
    }

    function Value(): Date
      reads this
      requires Valid()
    {
      CalendarDate(year, month, day)
    }

    constructor (d: Date)
      ensures Valid() && Value() == d
    {
      year, month, day := d.year, d.month, d.day;
    }

    function GetFullYear(): int
      reads this
    {
      year
    }

    /** Zero-based month, as in JavaScript. */
    function GetMonth(): int
      reads this
    {
      month - 1
    }

    function GetDate(): int
      reads this
    {
      day
    }

    function GetDay(): (w: int)
      reads this
      requires Valid()
      ensures 0 <= w < 7
    {
      Weekday(Value())
    }

    method SetDate(k: int)
      requires Valid() && -27 <= k <= DaysInMonth(year, month)
      modifies this
      ensures Valid() && Value() == WithDayOfMonth(old(Value()), k)
    {
      var r := WithDayOfMonth(Value(), k);
      year, month, day := r.year, r.month, r.day;
    }
  }

  /** The two window starts as computed in place: `setDate` moves today back
      to the week start, and the month start is then read off that same,
      already moved, object. */
  method WindowStarts(today: Date) returns (weekStart: Date, monthStart: Date)
    ensures weekStart == WeekStart(today)
    ensures Weekday(weekStart) == 0 && DayNumber(today) - 6 <= DayNumber(weekStart) <= DayNumber(today)
    ensures monthStart == CalendarDate(weekStart.year, weekStart.month, 1)
  {
    var dateToday := new LocalDate(today);
    dateToday.SetDate(dateToday.GetDate() - dateToday.GetDay());
    weekStart := dateToday.Value();
    monthStart := CalendarDate(dateToday.GetFullYear(), dateToday.GetMonth() + 1, 1);
  }
}
