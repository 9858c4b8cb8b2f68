/** The schedule builder and the repayment recalibrator of the engine. */
module Schedule {
  import opened Outcomes
  import opened Frequency
  import opened Money
  import opened Calendar
  import opened DateAdvance
  import opened Rates

  /** The loan terms the builder is called with. */
  datatype Terms = Terms(
    loanAmount: real,
    frequency: string,
    numberOfRepayments: nat,
    interestRate: real,
    establishmentDate: CalendarDate,
    firstRepaymentDate: CalendarDate)

  /** One row of a repayment schedule. */
  datatype Entry = Entry(
    id: int,
    date: CalendarDate,
    openingBalance: real,
    repayment: real,
    interest: real,
    principal: real,
    closingBalance: real)

  /** What the builder returns: the periodic repayment and the schedule. */
  datatype Scenario = Scenario(repaymentAmount: real, schedule: seq<Entry>)

  /** The loan amount with the interest accrued between establishment and
      the first repayment capitalised onto it. */
  function PresentValue(t: Terms): (r: real)
    ensures t.establishmentDate == t.firstRepaymentDate ==> r == t.loanAmount
  {
    t.loanAmount
      + DaysBetween(t.establishmentDate, t.firstRepaymentDate) as real * DailyRate(t.interestRate) * t.loanAmount
  }

  /** Interest accrued on `balance` at `dailyRate` over the days from `from` to `to`. */
  function AccruedInterest(from: CalendarDate, to: CalendarDate, dailyRate: real, balance: real): (r: real)
    ensures from == to ==> r == 0.0
    ensures DayNumber(from) <= DayNumber(to) && 0.0 <= dailyRate && 0.0 <= balance ==> 0.0 <= r
  {
    DaysBetween(from, to) as real * dailyRate * balance
  }

  /** The entry for repayment `i` (0-based), with `interest` the unrounded
      interest of its period. The final entry is a balloon that pays off the
      opening balance and its interest. */
  function MakeEntry(i: nat, final: bool, date: CalendarDate, prevBalance: real, interest: real, repayment: real): (r: Entry)
    ensures r.id == i + 1 && r.date == date && r.openingBalance == prevBalance
    ensures IsCents(r.interest) && IsCents(r.principal) && IsCents(r.closingBalance)
    ensures !final ==> r.repayment == Abs(repayment)
    ensures final ==> IsCents(r.repayment) && r.closingBalance == 0.0
  {
    Round2OfCents(0.0);
    var paid := if final then prevBalance + interest else Abs(repayment);
    var principal := paid - interest;
    Entry(i + 1, date, prevBalance, if final then Round2(paid) else paid, Round2(interest), Round2(principal),
          Round2(prevBalance - principal))
  }

  /** The balance carried to the next entry: the rounded opening balance less
      the unrounded principal of a regular repayment. */
  function NextBalance(prevBalance: real, repayment: real, interest: real): (r: real)
    ensures IsCents(r)
    ensures -0.005 <= r - (prevBalance - (Abs(repayment) - interest)) <= 0.005
  {
    Round2(prevBalance - (Abs(repayment) - interest))
  }

  /** The entries for repayments i .. n-1, given the running balance and date
      carried over from the previous entry. */
  function ScheduleFrom(t: Terms, repayment: real, i: nat, prevBalance: real, prevDate: CalendarDate): (r: Result<seq<Entry>>)
    requires i <= t.numberOfRepayments
    ensures r.Ok? ==> |r.value| == t.numberOfRepayments - i
    ensures r.Ok? ==> forall k :: 0 <= k < |r.value| ==> r.value[k].id == i + k + 1
    decreases t.numberOfRepayments - i
  {
    if i == t.numberOfRepayments then Ok([])
    else
      var date :- SetNewDate(t.firstRepaymentDate, i, t.frequency);
      var interest := AccruedInterest(prevDate, date, DailyRate(t.interestRate), prevBalance);
      var entry := MakeEntry(i, i == t.numberOfRepayments - 1, date, prevBalance, interest, repayment);
      var rest :- ScheduleFrom(t, repayment, i + 1, NextBalance(prevBalance, repayment, interest), date);
      Ok([entry] + rest)
  }

  /** One pass of the builder with a fixed repayment. */
  function SchedulePass(t: Terms, repayment: real): (r: Result<seq<Entry>>)
    ensures r.Ok? ==> |r.value| == t.numberOfRepayments
    ensures r.Ok? ==> forall k :: 0 <= k < |r.value| ==> r.value[k].id == k + 1
  {
    ScheduleFrom(t, repayment, 0, Abs(t.loanAmount), t.establishmentDate)
  }

  /** The repayment of a pass: the annuity-due payment on the present value,
      or the override verbatim. */
  function PassRepayment(t: Terms, repaymentAmount: Option<real>): (r: Result<real>)
    ensures !Supported(t.frequency) ==> r == Err(InvalidFrequency)
    ensures Supported(t.frequency) && repaymentAmount.Some? ==> r == Ok(repaymentAmount.value)
    ensures repaymentAmount.None? && r.Ok? ==> IsCents(r.value)
  {
    var periodic :- ConvertInterestRateToFrequency(t.interestRate, t.frequency);
    if repaymentAmount.None? then CalculatePmt(periodic, t.numberOfRepayments, PresentValue(t), true)
    else Ok(repaymentAmount.value)
  }

  function SumOfInterests(entries: seq<Entry>): real {
    if entries == [] then 0.0 else entries[0].interest + SumOfInterests(entries[1..])
  }

  /** The sum of day gap times interest, with gaps measured between
      consecutive entries starting from `lastDate`. */
  function SumOfProducts(entries: seq<Entry>, lastDate: CalendarDate): real {
    if entries == [] then 0.0
    else WeightedGap(lastDate, entries[0]) + SumOfProducts(entries[1..], entries[0].date)
  }

  /** The days since `lastDate` weighted by the entry's interest. */
  function WeightedGap(lastDate: CalendarDate, entry: Entry): real {
    DaysBetween(lastDate, entry.date) as real * entry.interest
  }

  /** adjust_repayment_amount: drop the first entry, take the interest-weighted
      average period length in days of the rest, and price an annuity-due at
      the daily rate times that length. */
  function AdjustedRepayment(schedule: seq<Entry>, firstRepaymentDate: CalendarDate, dailyRate: real,
                             numberOfRepayments: nat, presentValue: real): (r: Result<real>)
    ensures schedule == [] ==> r == Err(IndexOutOfRange)
    ensures schedule != [] && SumOfInterests(schedule[1..]) == 0.0 ==> r == Err(ZeroDivision)
    ensures r.Ok? ==> IsCents(r.value)
  {
    if schedule == [] then Err(IndexOutOfRange)
    else
      var entries := schedule[1..];
      RecalibratedRepayment(SumOfProducts(entries, firstRepaymentDate), SumOfInterests(entries),
                            dailyRate, numberOfRepayments, presentValue)
  }

  /** The annuity-due payment at the daily rate times the days per entry;
      a zero sum of interests divides by zero. */
  function RecalibratedRepayment(sumOfProducts: real, sumOfInterests: real, dailyRate: real,
                                 numberOfRepayments: nat, presentValue: real): (r: Result<real>)
    ensures sumOfInterests == 0.0 ==> r == Err(ZeroDivision)
    ensures r.Ok? ==> IsCents(r.value)
  {
    if sumOfInterests == 0.0 then Err(ZeroDivision)
    else
      var adjustedInterestRate := dailyRate * DaysPerEntry(sumOfProducts, sumOfInterests);
      CalculatePmt(adjustedInterestRate, numberOfRepayments, presentValue, true)
  }

  /** The interest-weighted average gap between consecutive entries, in days,
      from the sum of gap times interest and the sum of interests. */
  function DaysPerEntry(sumOfProducts: real, sumOfInterests: real): real
    requires sumOfInterests != 0.0
  {
    sumOfProducts / sumOfInterests
  }

  /** calculate_expected_repayment_schedule. A monthly call without an override
      recalibrates the repayment and rebuilds the schedule once with it as
      the override; the decreases clause bounds the recursion to depth one. */
  function ExpectedSchedule(t: Terms, repaymentAmount: Option<real>): (r: Result<Scenario>)
    ensures !Supported(t.frequency) ==> r == Err(InvalidFrequency)
    ensures r.Ok? ==> |r.value.schedule| == t.numberOfRepayments
    ensures r.Ok? ==> IsCents(r.value.repaymentAmount)
    decreases if repaymentAmount.None? then 1 else 0
  {
    var repayment :- PassRepayment(t, repaymentAmount);
    var schedule :- SchedulePass(t, repayment);
    if t.frequency == MONTHLY && repaymentAmount.None? then
      var adjusted :- AdjustedRepayment(schedule, t.firstRepaymentDate, DailyRate(t.interestRate),
                                        t.numberOfRepayments, PresentValue(t));
      var second :- ExpectedSchedule(t, Some(adjusted));
      Ok(Scenario(Round2(repayment), second.schedule))
    else
      Ok(Scenario(Round2(repayment), schedule))
  }

  /** `prefix` followed by a successful remainder, or the remainder's error. */
  function Prefixed(prefix: seq<Entry>, rest: Result<seq<Entry>>): Result<seq<Entry>> {
    match rest
    case Ok(s) => Ok(prefix + s)
    case Err(e) => Err(e)
  }

  /** One step of the builder's loop, as the recursion of ScheduleFrom takes it. */
  lemma ScheduleFromStep(t: Terms, repayment: real, i: nat, prevBalance: real, prevDate: CalendarDate)
    requires i < t.numberOfRepayments
    ensures var newDate := SetNewDate(t.firstRepaymentDate, i, t.frequency);
      newDate.Err? ==> ScheduleFrom(t, repayment, i, prevBalance, prevDate) == Err(newDate.error)
    ensures var newDate := SetNewDate(t.firstRepaymentDate, i, t.frequency);
      newDate.Ok? ==>
        var interest := AccruedInterest(prevDate, newDate.value, DailyRate(t.interestRate), prevBalance);
        ScheduleFrom(t, repayment, i, prevBalance, prevDate)
        == Prefixed([MakeEntry(i, i == t.numberOfRepayments - 1, newDate.value, prevBalance, interest, repayment)],
                    ScheduleFrom(t, repayment, i + 1, NextBalance(prevBalance, repayment, interest), newDate.value))
  {
  }

  /** The builder's loop invariant carried over one successful step. */
  lemma BuilderStep(t: Terms, repayment: real, i: nat, prevBalance: real, prevDate: CalendarDate,
                    schedule: seq<Entry>, date: CalendarDate)
    requires i < t.numberOfRepayments
    requires SetNewDate(t.firstRepaymentDate, i, t.frequency) == Ok(date)
    ensures var interest := AccruedInterest(prevDate, date, DailyRate(t.interestRate), prevBalance);
      Prefixed(schedule, ScheduleFrom(t, repayment, i, prevBalance, prevDate))
      == Prefixed(schedule + [MakeEntry(i, i == t.numberOfRepayments - 1, date, prevBalance, interest, repayment)],
                  ScheduleFrom(t, repayment, i + 1, NextBalance(prevBalance, repayment, interest), date))
  {
    var interest := AccruedInterest(prevDate, date, DailyRate(t.interestRate), prevBalance);
    ScheduleFromStep(t, repayment, i, prevBalance, prevDate);
    PrefixedTwice(schedule, [MakeEntry(i, i == t.numberOfRepayments - 1, date, prevBalance, interest, repayment)],
                  ScheduleFrom(t, repayment, i + 1, NextBalance(prevBalance, repayment, interest), date));
  }

  /** A successful ScheduleFrom is its first entry followed by the entries
      of the next repayments. */
  lemma ScheduleFromCons(t: Terms, repayment: real, i: nat, prevBalance: real, prevDate: CalendarDate)
    requires i < t.numberOfRepayments
    requires ScheduleFrom(t, repayment, i, prevBalance, prevDate).Ok?
    ensures SetNewDate(t.firstRepaymentDate, i, t.frequency).Ok?
    ensures var date := SetNewDate(t.firstRepaymentDate, i, t.frequency).value;
      var interest := AccruedInterest(prevDate, date, DailyRate(t.interestRate), prevBalance);
      var rest := ScheduleFrom(t, repayment, i + 1, NextBalance(prevBalance, repayment, interest), date);
      && rest.Ok?
      && ScheduleFrom(t, repayment, i, prevBalance, prevDate).value
         == [MakeEntry(i, i == t.numberOfRepayments - 1, date, prevBalance, interest, repayment)] + rest.value
  {
    ScheduleFromStep(t, repayment, i, prevBalance, prevDate);
  }

  lemma PrefixedNothing(rest: Result<seq<Entry>>)
    ensures Prefixed([], rest) == rest
  {
    if rest.Ok? {
      assert [] + rest.value == rest.value;
    }
  }

  lemma PrefixedTwice(first: seq<Entry>, second: seq<Entry>, rest: Result<seq<Entry>>)
    ensures Prefixed(first, Prefixed(second, rest)) == Prefixed(first + second, rest)
  {
    if rest.Ok? {
      assert first + (second + rest.value) == (first + second) + rest.value;
    }
  }

  method AdjustRepaymentAmount(originalSchedule: seq<Entry>, firstRepaymentDate: CalendarDate, dailyRate: real,
                               numberOfRepayments: nat, presentValue: real) returns (r: Result<real>)
    ensures r == AdjustedRepayment(originalSchedule, firstRepaymentDate, dailyRate, numberOfRepayments, presentValue)
  {
    var lastDate := firstRepaymentDate;
    if originalSchedule == [] {
      return Err(IndexOutOfRange);
    }
    var entries := originalSchedule[1..];
    var sumOfProducts := 0.0;
    for k := 0 to |entries|
      invariant sumOfProducts + SumOfProducts(entries[k..], lastDate) == SumOfProducts(entries, firstRepaymentDate)
    {
      assert entries[k..][1..] == entries[k + 1..];
      sumOfProducts := sumOfProducts + WeightedGap(lastDate, entries[k]);
      lastDate := entries[k].date;
    }
    assert entries[|entries|..] == [];
    var sumOfInterests := SumOfInterests(entries);
    r := RecalibratedRepayment(sumOfProducts, sumOfInterests, dailyRate, numberOfRepayments, presentValue);
  }

  /** The loop of the builder: walk the n repayment dates carrying the
      running balance and date, appending one entry per repayment. */
  method BuildSchedule(t: Terms, repayment: real) returns (r: Result<seq<Entry>>)
    ensures r == SchedulePass(t, repayment)
  {
    var dailyRate := DailyRate(t.interestRate);
    var schedule: seq<Entry> := [];
    var prevBalance := Abs(t.loanAmount);
    var prevDate := t.establishmentDate;
    PrefixedNothing(SchedulePass(t, repayment));
    for i := 0 to t.numberOfRepayments
      invariant SchedulePass(t, repayment) == Prefixed(schedule, ScheduleFrom(t, repayment, i, prevBalance, prevDate))
    {
      var newDate := SetNewDate(t.firstRepaymentDate, i, t.frequency);
      if newDate.Err? {
        ScheduleFromStep(t, repayment, i, prevBalance, prevDate);
        return Err(newDate.error);
      }
      var newInterest := AccruedInterest(prevDate, newDate.value, dailyRate, prevBalance);
      var entry := MakeEntry(i, i == t.numberOfRepayments - 1, newDate.value, prevBalance, newInterest, repayment);
      BuilderStep(t, repayment, i, prevBalance, prevDate, schedule, newDate.value);
      schedule := schedule + [entry];
      prevBalance := NextBalance(prevBalance, repayment, newInterest);
      prevDate := newDate.value;
    }
    assert schedule + [] == schedule;
    return Ok(schedule);
  }

  method CalculateExpectedRepaymentSchedule(t: Terms, repaymentAmount: Option<real>) returns (r: Result<Scenario>)
    ensures r == ExpectedSchedule(t, repaymentAmount)
    decreases if repaymentAmount.None? then 1 else 0
  {
    var converted := ConvertInterestRateToFrequency(t.interestRate, t.frequency);
    if converted.Err? {
      assert PassRepayment(t, repaymentAmount) == Err(converted.error);
      return Err(converted.error);
    }
    var dailyRate := DailyRate(t.interestRate);
    var presentValue := PresentValue(t);
    var repayment: real;
    if repaymentAmount.None? {
      var pmt := CalculatePmt(converted.value, t.numberOfRepayments, presentValue, true);
      assert PassRepayment(t, repaymentAmount) == pmt;
      if pmt.Err? {
        return Err(pmt.error);
      }
      repayment := pmt.value;
    } else {
      repayment := repaymentAmount.value;
    }
    assert PassRepayment(t, repaymentAmount) == Ok(repayment);
    var built := BuildSchedule(t, repayment);
    if built.Err? {
      return Err(built.error);
    }
    var schedule := built.value;
    if t.frequency == MONTHLY && repaymentAmount.None? {
      var adjusted := AdjustRepaymentAmount(schedule, t.firstRepaymentDate, dailyRate, t.numberOfRepayments, presentValue);
      if adjusted.Err? {
        return Err(adjusted.error);
      }
      var second := CalculateExpectedRepaymentSchedule(t, Some(adjusted.value));
      if second.Err? {
        return Err(second.error);
      }
      schedule := second.value.schedule;
    }
    return Ok(Scenario(Round2(repayment), schedule));
  }
}
