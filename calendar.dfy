/** Calendar dates as Python's datetime handles them: the proleptic Gregorian
    calendar for years 1 to 9999, day numbers (toordinal) for the `.days` of a
    difference, and adding whole days (date + timedelta). */
module Calendar {
  import opened Outcomes

  const MIN_YEAR: int := 1
  const MAX_YEAR: int := 9999

  datatype Date = Date(year: int, month: int, day: int)

  predicate IsLeapYear(year: int) {
    year % 4 == 0 && (year % 100 != 0 || year % 400 == 0)
  }

  function DaysInYear(year: int): int {
    if IsLeapYear(year) then 366 else 365
  }

  function DaysInMonth(year: int, month: int): (r: int)
    requires 1 <= month <= 12
    ensures 28 <= r <= 31
  {
    if month == 2 then (if IsLeapYear(year) then 29 else 28)
    else if month == 4 || month == 6 || month == 9 || month == 11 then 30
    else 31
  }

  predicate ValidDate(d: Date) {
    MIN_YEAR <= d.year <= MAX_YEAR && 1 <= d.month <= 12 && 1 <= d.day <= DaysInMonth(d.year, d.month)
  }

  /** The dates Python's datetime can represent. */
  type CalendarDate = d: Date | ValidDate(d) witness Date(1, 1, 1)

  const LAST_DATE: CalendarDate := Date(MAX_YEAR, 12, 31)

  /** Days in the years before `year`, counted from 1 January of year 1. */
  function DaysBeforeYear(year: int): int
    requires year >= MIN_YEAR
    decreases year
  {
    if year == MIN_YEAR then 0 else DaysBeforeYear(year - 1) + DaysInYear(year - 1)
  }

  /** The recursive count agrees with the closed form Python's datetime uses
      for the days before a year. */
  lemma {:induction false} DaysBeforeYearClosedForm(year: int)
    requires year >= MIN_YEAR
    ensures DaysBeforeYear(year) == DaysInFirstYears(year - 1)
    decreases year
  {
    if year > MIN_YEAR {
      DaysBeforeYearClosedForm(year - 1);
      ClosedFormStep(year - 1);
    }
  }

  /** The days in years 1 .. y by the leap-year counting formula. */
  function DaysInFirstYears(y: int): int {
    y * 365 + y / 4 - y / 100 + y / 400
  }

  /** The counting formula grows by the length of year y from y - 1 to y. */
  lemma ClosedFormStep(y: int)
    requires y >= 1
    ensures DaysInFirstYears(y) == DaysInFirstYears(y - 1) + DaysInYear(y)
  {
    DivisionStep(y, 4);
    DivisionStep(y, 100);
    DivisionStep(y, 400);
    assert y * 365 == (y - 1) * 365 + 365;
  }

  /** Moving from y - 1 to y raises y / m by one exactly when m divides y. */
  lemma DivisionStep(y: int, m: int)
    requires y >= 1 && m in {4, 100, 400}
    ensures y / m - (y - 1) / m == if y % m == 0 then 1 else 0
  {
    var q, r := (y - 1) / m, (y - 1) % m;
    assert y - 1 == m * q + r && 0 <= r < m;
    if r == m - 1 {
      assert y == m * (q + 1);
    } else {
      assert y == m * q + (r + 1) && 0 < r + 1 < m;
    }
  }

  /** Days in the months of `year` before `month`: the cumulative month table,
      plus one after February of a leap year. */
  function DaysBeforeMonth(year: int, month: int): int
    requires 1 <= month <= 12
  {
    var table := [0, 31, 59, 90, 120, 151, 181, 212, 243, 273, 304, 334];
    table[month - 1] + (if month > 2 && IsLeapYear(year) then 1 else 0)
  }

  /** Days from 1 January of year 1 to the first of `month` in `year`,
      counted month by month. */
  function DaysBeforeFirstOf(year: int, month: int): int
    requires year >= MIN_YEAR && 1 <= month <= 12
    decreases year, month
  {
    if month > 1 then DaysBeforeFirstOf(year, month - 1) + DaysInMonth(year, month - 1)
    else if year > MIN_YEAR then DaysBeforeFirstOf(year - 1, 12) + DaysInMonth(year - 1, 12)
    else 0
  }

  /** The day number of a date; 1 January of year 1 is day 1 (toordinal). */
  function DayNumber(d: CalendarDate): int {
    DaysBeforeFirstOf(d.year, d.month) + d.day
  }

  /** Within a year, counting month by month agrees with the month table. */
  lemma {:induction false} DaysBeforeFirstOfWithinYear(year: int, month: int)
    requires year >= MIN_YEAR && 1 <= month <= 12
    ensures DaysBeforeFirstOf(year, month) == DaysBeforeFirstOf(year, 1) + DaysBeforeMonth(year, month)
    decreases month
  {
    if month > 1 {
      DaysBeforeFirstOfWithinYear(year, month - 1);
    }
  }

  /** Counting month by month reaches the first of a year after DaysBeforeYear days. */
  lemma {:induction false} DaysBeforeFirstOfYear(year: int)
    requires year >= MIN_YEAR
    ensures DaysBeforeFirstOf(year, 1) == DaysBeforeYear(year)
    decreases year
  {
    if year > MIN_YEAR {
      DaysBeforeFirstOfYear(year - 1);
      DaysBeforeFirstOfWithinYear(year - 1, 12);
    }
  }

  /** The day number is Python's ordinal: days before the year, plus days
      before the month from the month table, plus the day. */
  lemma DayNumberIsOrdinal(d: CalendarDate)
    ensures DayNumber(d) == DaysInFirstYears(d.year - 1) + DaysBeforeMonth(d.year, d.month) + d.day
  {
    DaysBeforeFirstOfWithinYear(d.year, d.month);
    DaysBeforeFirstOfYear(d.year);
    DaysBeforeYearClosedForm(d.year);
  }

  /** The `.days` of `later - earlier`. */
  function DaysBetween(earlier: CalendarDate, later: CalendarDate): int {
    DayNumber(later) - DayNumber(earlier)
  }

  /** The day numbers of the same day in consecutive months differ by the
      length of the earlier month. */
  lemma NextMonthSameDay(year: int, month: int, day: int)
    requires MIN_YEAR <= year && 1 <= month <= 12
    requires (month < 12 ==> year <= MAX_YEAR) && (month == 12 ==> year < MAX_YEAR)
    requires 1 <= day <= DaysInMonth(year, month)
    requires month < 12 ==> day <= DaysInMonth(year, month + 1)
    requires month == 12 ==> day <= DaysInMonth(year + 1, 1)
    ensures var next := if month < 12 then Date(year, month + 1, day) else Date(year + 1, 1, day);
      ValidDate(next) &&
      DayNumber(next) == DayNumber(Date(year, month, day)) + DaysInMonth(year, month)
  {
  }

  /** The day after `d`; the last representable date has none. */
  function NextDay(d: CalendarDate): (r: CalendarDate)
    requires d != LAST_DATE
    ensures DayNumber(r) == DayNumber(d) + 1
  {
    if d.day < DaysInMonth(d.year, d.month) then Date(d.year, d.month, d.day + 1)
    else if d.month < 12 then
      NextMonthSameDay(d.year, d.month, 1);
      Date(d.year, d.month + 1, 1)
    else
      NextMonthSameDay(d.year, 12, 1);
      Date(d.year + 1, 1, 1)
  }

  /** No representable date lies after 31 December 9999. */
  lemma DayNumberAtMostLast(d: CalendarDate)
    ensures DayNumber(d) <= DayNumber(LAST_DATE)
  {
    MonthEndAtMostLast(d.year, d.month);
  }

  /** The day after the end of any month up to December 9999 is at most one
      past the last date. */
  lemma {:induction false} MonthEndAtMostLast(year: int, month: int)
    requires MIN_YEAR <= year <= MAX_YEAR && 1 <= month <= 12
    ensures DaysBeforeFirstOf(year, month) + DaysInMonth(year, month) <= DayNumber(LAST_DATE)
    decreases MAX_YEAR - year, 12 - month
  {
    if month < 12 {
      MonthEndAtMostLast(year, month + 1);
    } else if year < MAX_YEAR {
      MonthEndAtMostLast(year + 1, 1);
    }
  }

  /** `d + timedelta(days = n)` for n >= 0, which overflows exactly when the
      result would lie past 31 December 9999. */
  function AddDays(d: CalendarDate, n: nat): (r: Result<CalendarDate>)
    ensures r.Ok? <==> DayNumber(d) + n <= DayNumber(LAST_DATE)
    ensures r.Ok? ==> DayNumber(r.value) == DayNumber(d) + n
    ensures r.Err? ==> r.error == DateOverflow
    decreases n
  {
    if n == 0 then
      DayNumberAtMostLast(d);
      Ok(d)
    else if d == LAST_DATE then Err(DateOverflow)
    else AddDays(NextDay(d), n - 1)
  }

  /** `d.replace(year = year, month = month)`: the year is checked before the day. */
  function Replace(d: CalendarDate, year: int, month: int): (r: Result<CalendarDate>)
    requires year >= MIN_YEAR && 1 <= month <= 12
    ensures r.Ok? <==> ValidDate(Date(year, month, d.day))
    ensures r.Ok? ==> r.value == Date(year, month, d.day)
    ensures r.Err? ==> r.error == (if year > MAX_YEAR then YearOutOfRange else DayOutOfRange)
  {
    if year > MAX_YEAR then Err(YearOutOfRange)
    else if d.day > DaysInMonth(year, month) then Err(DayOutOfRange)
    else Ok(Date(year, month, d.day))
  }
}
