/** The date advancer of the engine: the date of the payment `offset`
    periods after the first repayment date. */
module DateAdvance {
  import opened Outcomes
  import opened Frequency
  import opened Calendar

  /** The month `offset` months after the month of `d`, counted as
      12 * year + (month - 1). */
  function MonthIndexAfter(d: CalendarDate, offset: nat): int {
    12 * d.year + (d.month - 1) + offset
  }

  /** The monthly branch: year/month carry arithmetic, then `replace`. */
  function AddMonths(date: CalendarDate, offset: nat): (r: Result<CalendarDate>)
    ensures var target := MonthIndexAfter(date, offset);
      && (r.Ok? <==> target / 12 <= MAX_YEAR && date.day <= DaysInMonth(target / 12, target % 12 + 1))
      && (r.Err? ==> r.error == if target / 12 > MAX_YEAR then YearOutOfRange else DayOutOfRange)
      && (r.Ok? ==> 12 * r.value.year + r.value.month == 12 * date.year + date.month + offset
                    && r.value.day == date.day)
  {
    var yearOffset := offset / 12;
    var monthOffset := offset % 12;
    var newYear := date.year + yearOffset;
    var newMonth := date.month + monthOffset;
    var target := MonthIndexAfter(date, offset);
    assert offset == 12 * yearOffset + monthOffset;
    if newMonth > 12 then
      assert target == 12 * (newYear + 1) + (newMonth - 13);
      assert target / 12 == newYear + 1 && target % 12 == newMonth - 13;
      Replace(date, newYear + 1, newMonth - 12)
    else
      assert target == 12 * newYear + (newMonth - 1);
      assert target / 12 == newYear && target % 12 == newMonth - 1;
      Replace(date, newYear, newMonth)
  }

  /** The payment date for `offset` (0 is the anchor itself). Monthly steps
      keep the day of the month and fail when that day does not exist in the
      target month; fortnightly and weekly steps add whole days. */
  function SetNewDate(date: CalendarDate, offset: nat, frequency: string): (r: Result<CalendarDate>)
    ensures !Supported(frequency) ==> r == Err(InvalidFrequency)
    ensures frequency == MONTHLY ==> r == AddMonths(date, offset)
    ensures frequency == FORTNIGHTLY ==> r == AddDays(date, 14 * offset)
    ensures frequency == WEEKLY ==> r == AddDays(date, 7 * offset)
  {
    if frequency == MONTHLY then AddMonths(date, offset)
    else if frequency == FORTNIGHTLY then AddDays(date, offset * 14)
    else if frequency == WEEKLY then AddDays(date, offset * 7)
    else Err(InvalidFrequency)
  }

  /** Offset 0 is the anchor date itself, whatever the frequency. */
  lemma AnchorIsFirstDate(date: CalendarDate, frequency: string)
    requires Supported(frequency)
    ensures SetNewDate(date, 0, frequency) == Ok(date)
  {
  }

  /** The gap, in days, between two consecutive payment dates: the length of
      the earlier month for monthly loans, 14 and 7 days otherwise. Payment
      dates therefore strictly increase. */
  function PeriodDays(date: CalendarDate, frequency: string): int
    requires Supported(frequency)
  {
    if frequency == MONTHLY then DaysInMonth(date.year, date.month)
    else if frequency == FORTNIGHTLY then 14
    else 7
  }

  lemma ConsecutiveDatesGap(anchor: CalendarDate, i: nat, frequency: string)
    requires SetNewDate(anchor, i, frequency).Ok? && SetNewDate(anchor, i + 1, frequency).Ok?
    ensures Supported(frequency)
    ensures var a, b := SetNewDate(anchor, i, frequency).value, SetNewDate(anchor, i + 1, frequency).value;
      && DaysBetween(a, b) == PeriodDays(a, frequency)
      && (frequency == MONTHLY ==> 28 <= DaysBetween(a, b) <= 31)
      && DaysBetween(a, b) > 0
  {
    var a, b := SetNewDate(anchor, i, frequency).value, SetNewDate(anchor, i + 1, frequency).value;
    if frequency == MONTHLY {
      MonthStepGap(a, b);
    }
  }

  /** From a date to the same day of the next month is the length of the
      earlier month. */
  lemma MonthStepGap(a: CalendarDate, b: CalendarDate)
    requires 12 * b.year + b.month == 12 * a.year + a.month + 1 && b.day == a.day
    ensures DaysBetween(a, b) == DaysInMonth(a.year, a.month)
  {
    if a.month < 12 {
      assert b.year == a.year && b.month == a.month + 1;
    } else {
      assert b.year == a.year + 1 && b.month == 1;
    }
    NextMonthSameDay(a.year, a.month, a.day);
  }
}
