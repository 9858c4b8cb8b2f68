/** What the builder promises about the schedules it returns. */
module ScheduleFacts {
  import opened Outcomes
  import opened Frequency
  import opened Money
  import opened Calendar
  import opened DateAdvance
  import opened Rates
  import opened Schedule

  /** The date the k-th period of `s` accrues interest from: the previous
      entry's date, or `start` for the first entry. */
  function PeriodStart(s: seq<Entry>, k: nat, start: CalendarDate): CalendarDate
    requires k <= |s|
  {
    if k == 0 then start else s[k - 1].date
  }

  /** A non-final entry: the fixed repayment, rounded interest on the
      opening balance, and principal and closing balance computed from the
      unrounded interest. */
  predicate RegularEntry(e: Entry, start: CalendarDate, dailyRate: real, repayment: real) {
    var accrued := AccruedInterest(start, e.date, dailyRate, e.openingBalance);
    && e.repayment == Abs(repayment)
    && e.interest == Round2(accrued)
    && e.principal == Round2(Abs(repayment) - accrued)
    && e.closingBalance == Round2(e.openingBalance - (Abs(repayment) - accrued))
  }

  /** The final entry: a balloon paying the opening balance and its interest,
      which leaves nothing owing. */
  predicate BalloonEntry(e: Entry, start: CalendarDate, dailyRate: real) {
    var accrued := AccruedInterest(start, e.date, dailyRate, e.openingBalance);
    && e.repayment == Round2(e.openingBalance + accrued)
    && e.interest == Round2(accrued)
    && e.principal == Round2(e.openingBalance)
    && e.closingBalance == 0.0
  }

  /** The unrounded interest of entry k: its opening balance accrued at
      `dailyRate` over its period. */
  function EntryInterest(s: seq<Entry>, k: nat, start: CalendarDate, dailyRate: real): real
    requires k < |s|
  {
    AccruedInterest(PeriodStart(s, k, start), s[k].date, dailyRate, s[k].openingBalance)
  }

  /** An index-wise description of the entries for repayments i .. n-1 when
      the loop starts at repayment i with `balance` owing since `start`: one
      entry per repayment, numbered in order and dated by the date advancer;
      each entry is built from its own opening balance and period, and opens
      with the balance its predecessor carried over. */
  predicate BuiltFrom(t: Terms, repayment: real, i: nat, balance: real, start: CalendarDate, s: seq<Entry>)
    requires i <= t.numberOfRepayments
  {
    && |s| == t.numberOfRepayments - i
    && (|s| > 0 ==> s[0].openingBalance == balance)
    && (forall k :: 0 <= k < |s| ==>
          s[k].id == i + k + 1 && SetNewDate(t.firstRepaymentDate, i + k, t.frequency) == Ok(s[k].date))
    && (forall k {:trigger EntryInterest(s, k, start, DailyRate(t.interestRate))} :: 0 <= k < |s| ==>
          && s[k] == MakeEntry(i + k, i + k == t.numberOfRepayments - 1, s[k].date, s[k].openingBalance,
                               EntryInterest(s, k, start, DailyRate(t.interestRate)), repayment)
          && (k < |s| - 1 ==>
                s[k + 1].openingBalance
                == NextBalance(s[k].openingBalance, repayment, EntryInterest(s, k, start, DailyRate(t.interestRate)))))
  }

  /** An entry MakeEntry built for a non-final repayment is regular, and
      the next entry opens with its closing balance. */
  lemma MadeRegular(e: Entry, nextOpening: real, start: CalendarDate, dailyRate: real, repayment: real,
                    i: nat, final: bool, interest: real)
    requires !final && interest == AccruedInterest(start, e.date, dailyRate, e.openingBalance)
    requires e == MakeEntry(i, final, e.date, e.openingBalance, interest, repayment)
    requires nextOpening == NextBalance(e.openingBalance, repayment, interest)
    ensures RegularEntry(e, start, dailyRate, repayment) && e.closingBalance == nextOpening
  {
  }

  /** An entry MakeEntry built for the final repayment is a balloon. */
  lemma MadeBalloon(e: Entry, start: CalendarDate, dailyRate: real, repayment: real,
                    i: nat, final: bool, interest: real)
    requires final && interest == AccruedInterest(start, e.date, dailyRate, e.openingBalance)
    requires e == MakeEntry(i, final, e.date, e.openingBalance, interest, repayment)
    ensures BalloonEntry(e, start, dailyRate)
  {
    assert e.openingBalance - ((e.openingBalance + interest) - interest) == 0.0;
    Round2OfCents(0.0);
  }

  /** The numbering and dates of BuiltFrom extend by one entry at the front. */
  lemma BuiltConsDates(t: Terms, i: nat, entry: Entry, rest: seq<Entry>)
    requires i < t.numberOfRepayments
    requires forall k :: 0 <= k < |rest| ==>
      rest[k].id == (i + 1) + k + 1 && SetNewDate(t.firstRepaymentDate, (i + 1) + k, t.frequency) == Ok(rest[k].date)
    requires entry.id == i + 1 && SetNewDate(t.firstRepaymentDate, i, t.frequency) == Ok(entry.date)
    ensures var s := [entry] + rest;
      forall k :: 0 <= k < |s| ==>
        s[k].id == i + k + 1 && SetNewDate(t.firstRepaymentDate, i + k, t.frequency) == Ok(s[k].date)
  {
    var s := [entry] + rest;
    forall k | 0 <= k < |s|
      ensures s[k].id == i + k + 1 && SetNewDate(t.firstRepaymentDate, i + k, t.frequency) == Ok(s[k].date)
    {
      if k > 0 {
        assert s[k] == rest[k - 1];
        assert (i + 1) + (k - 1) == i + k;
      }
    }
  }

  /** The entry equations of BuiltFrom extend by one entry at the front. */
  lemma BuiltConsEntries(t: Terms, repayment: real, i: nat, balance: real, start: CalendarDate,
                         entry: Entry, rest: seq<Entry>)
    requires i < t.numberOfRepayments && |rest| == t.numberOfRepayments - (i + 1)
    requires var interest := AccruedInterest(start, entry.date, DailyRate(t.interestRate), balance);
      && entry == MakeEntry(i, i == t.numberOfRepayments - 1, entry.date, balance, interest, repayment)
      && (|rest| > 0 ==> rest[0].openingBalance == NextBalance(balance, repayment, interest))
    requires forall k {:trigger EntryInterest(rest, k, entry.date, DailyRate(t.interestRate))} :: 0 <= k < |rest| ==>
      && rest[k] == MakeEntry((i + 1) + k, (i + 1) + k == t.numberOfRepayments - 1, rest[k].date, rest[k].openingBalance,
                              EntryInterest(rest, k, entry.date, DailyRate(t.interestRate)), repayment)
      && (k < |rest| - 1 ==>
            rest[k + 1].openingBalance
            == NextBalance(rest[k].openingBalance, repayment, EntryInterest(rest, k, entry.date, DailyRate(t.interestRate))))
    ensures var s := [entry] + rest;
      forall k {:trigger EntryInterest(s, k, start, DailyRate(t.interestRate))} :: 0 <= k < |s| ==>
        && s[k] == MakeEntry(i + k, i + k == t.numberOfRepayments - 1, s[k].date, s[k].openingBalance,
                             EntryInterest(s, k, start, DailyRate(t.interestRate)), repayment)
        && (k < |s| - 1 ==>
              s[k + 1].openingBalance
              == NextBalance(s[k].openingBalance, repayment, EntryInterest(s, k, start, DailyRate(t.interestRate))))
  {
    var s := [entry] + rest;
    var daily := DailyRate(t.interestRate);
    forall k | 0 <= k < |s|
      ensures s[k] == MakeEntry(i + k, i + k == t.numberOfRepayments - 1, s[k].date, s[k].openingBalance,
                                EntryInterest(s, k, start, daily), repayment)
      ensures k < |s| - 1 ==>
        s[k + 1].openingBalance == NextBalance(s[k].openingBalance, repayment, EntryInterest(s, k, start, daily))
    {
      if k == 0 {
        assert PeriodStart(s, 0, start) == start;
        assert EntryInterest(s, 0, start, daily) == AccruedInterest(start, entry.date, daily, balance);
        if k < |s| - 1 {
          assert s[1] == rest[0];
        }
      } else {
        assert s[k] == rest[k - 1];
        assert PeriodStart(s, k, start) == PeriodStart(rest, k - 1, entry.date);
        assert EntryInterest(s, k, start, daily) == EntryInterest(rest, k - 1, entry.date, daily);
        assert (i + 1) + (k - 1) == i + k;
        if k < |s| - 1 {
          assert s[k + 1] == rest[k];
        }
      }
    }
  }

  /** BuiltFrom extends by one entry at the front. */
  lemma BuiltCons(t: Terms, repayment: real, i: nat, balance: real, start: CalendarDate, entry: Entry, rest: seq<Entry>)
    requires i < t.numberOfRepayments
    requires SetNewDate(t.firstRepaymentDate, i, t.frequency) == Ok(entry.date)
    requires var interest := AccruedInterest(start, entry.date, DailyRate(t.interestRate), balance);
      && entry == MakeEntry(i, i == t.numberOfRepayments - 1, entry.date, balance, interest, repayment)
      && BuiltFrom(t, repayment, i + 1, NextBalance(balance, repayment, interest), entry.date, rest)
    ensures BuiltFrom(t, repayment, i, balance, start, [entry] + rest)
  {
    BuiltConsDates(t, i, entry, rest);
    BuiltConsEntries(t, repayment, i, balance, start, entry, rest);
  }

  /** ScheduleFrom meets its index-wise description. */
  lemma {:induction false} ScheduleFromBuilt(t: Terms, repayment: real, i: nat, balance: real, start: CalendarDate)
    requires i <= t.numberOfRepayments
    requires ScheduleFrom(t, repayment, i, balance, start).Ok?
    ensures BuiltFrom(t, repayment, i, balance, start, ScheduleFrom(t, repayment, i, balance, start).value)
    decreases t.numberOfRepayments - i
  {
    if i < t.numberOfRepayments {
      ScheduleFromCons(t, repayment, i, balance, start);
      var date := SetNewDate(t.firstRepaymentDate, i, t.frequency).value;
      var interest := AccruedInterest(start, date, DailyRate(t.interestRate), balance);
      var entry := MakeEntry(i, i == t.numberOfRepayments - 1, date, balance, interest, repayment);
      var next := NextBalance(balance, repayment, interest);
      ScheduleFromBuilt(t, repayment, i + 1, next, date);
      BuiltCons(t, repayment, i, balance, start, entry, ScheduleFrom(t, repayment, i + 1, next, date).value);
    }
  }

  /** Entry k of `s`: a regular entry chained to its successor, or the
      final balloon. */
  predicate EntryFacts(s: seq<Entry>, k: nat, start: CalendarDate, dailyRate: real, repayment: real)
    requires k < |s|
  {
    && (k < |s| - 1 ==>
          RegularEntry(s[k], PeriodStart(s, k, start), dailyRate, repayment)
          && s[k].closingBalance == s[k + 1].openingBalance)
    && (k == |s| - 1 ==> BalloonEntry(s[k], PeriodStart(s, k, start), dailyRate))
  }

  /** Every entry of a built schedule is regular and chained, or the balloon. */
  lemma BuiltEntry(t: Terms, repayment: real, i: nat, balance: real, start: CalendarDate, s: seq<Entry>, k: nat)
    requires i <= t.numberOfRepayments
    requires BuiltFrom(t, repayment, i, balance, start, s)
    requires k < |s|
    ensures EntryFacts(s, k, start, DailyRate(t.interestRate), repayment)
  {
    var dailyRate := DailyRate(t.interestRate);
    var interest := EntryInterest(s, k, start, dailyRate);
    var final := i + k == t.numberOfRepayments - 1;
    assert s[k] == MakeEntry(i + k, final, s[k].date, s[k].openingBalance, interest, repayment);
    if k < |s| - 1 {
      assert s[k + 1].openingBalance == NextBalance(s[k].openingBalance, repayment, interest);
      MadeRegular(s[k], s[k + 1].openingBalance, PeriodStart(s, k, start), dailyRate, repayment, i + k, final, interest);
    } else {
      MadeBalloon(s[k], PeriodStart(s, k, start), dailyRate, repayment, i + k, final, interest);
    }
  }

  /** The repayment the returned schedule is built with: the recalibrated
      one for a monthly loan without an override, the pass repayment
      otherwise. */
  function FinalRepayment(t: Terms, repaymentAmount: Option<real>): Result<real> {
    if t.frequency == MONTHLY && repaymentAmount.None? then
      var first :- PassRepayment(t, repaymentAmount);
      var schedule :- SchedulePass(t, first);
      AdjustedRepayment(schedule, t.firstRepaymentDate, DailyRate(t.interestRate), t.numberOfRepayments, PresentValue(t))
    else PassRepayment(t, repaymentAmount)
  }

  /** A call with an override is a single pass with the override. */
  lemma OverrideIsSinglePass(t: Terms, repayment: real)
    ensures var r := ExpectedSchedule(t, Some(repayment));
      && (!Supported(t.frequency) ==> r == Err(InvalidFrequency))
      && (Supported(t.frequency) ==>
            (r.Ok? <==> SchedulePass(t, repayment).Ok?)
            && (r.Ok? ==> r.value == Scenario(Round2(repayment), SchedulePass(t, repayment).value))
            && (r.Err? ==> r.error == SchedulePass(t, repayment).error))
  {
  }

  /** The returned repayment amount is the rounded first-pass repayment, and
      the returned schedule is one pass built with FinalRepayment: the
      recursion goes at most one level deep. */
  lemma ExpectedScheduleIsOnePass(t: Terms, repaymentAmount: Option<real>)
    requires ExpectedSchedule(t, repaymentAmount).Ok?
    ensures PassRepayment(t, repaymentAmount).Ok?
    ensures ExpectedSchedule(t, repaymentAmount).value.repaymentAmount == Round2(PassRepayment(t, repaymentAmount).value)
    ensures FinalRepayment(t, repaymentAmount).Ok?
    ensures SchedulePass(t, FinalRepayment(t, repaymentAmount).value) == Ok(ExpectedSchedule(t, repaymentAmount).value.schedule)
  {
    if t.frequency == MONTHLY && repaymentAmount.None? {
      var first := PassRepayment(t, repaymentAmount).value;
      var schedule := SchedulePass(t, first).value;
      var adjusted := AdjustedRepayment(schedule, t.firstRepaymentDate, DailyRate(t.interestRate),
                                        t.numberOfRepayments, PresentValue(t)).value;
      OverrideIsSinglePass(t, adjusted);
    }
  }

  /** The schedule has one entry per repayment, numbered 1..n in order and
      dated by the date advancer from the first repayment date; it opens
      with the absolute loan amount and the balloon leaves nothing owing. */
  lemma ExpectedScheduleShape(t: Terms, repaymentAmount: Option<real>)
    requires ExpectedSchedule(t, repaymentAmount).Ok?
    ensures var s := ExpectedSchedule(t, repaymentAmount).value.schedule;
      && |s| == t.numberOfRepayments
      && (forall k :: 0 <= k < |s| ==>
            s[k].id == k + 1 && SetNewDate(t.firstRepaymentDate, k, t.frequency) == Ok(s[k].date))
      && (|s| > 0 ==> s[0].openingBalance == Abs(t.loanAmount) && s[|s| - 1].closingBalance == 0.0)
  {
    ExpectedScheduleIsOnePass(t, repaymentAmount);
    var repayment := FinalRepayment(t, repaymentAmount).value;
    var s := ExpectedSchedule(t, repaymentAmount).value.schedule;
    ScheduleFromBuilt(t, repayment, 0, Abs(t.loanAmount), t.establishmentDate);
    if |s| > 0 {
      BuiltEntry(t, repayment, 0, Abs(t.loanAmount), t.establishmentDate, s, |s| - 1);
    }
  }

  /** Entry k of the schedule: interest accrues from the previous entry's
      date (the establishment date for the first) at the annual rate / 365;
      a non-final entry pays the fixed repayment, splits it into interest and
      principal to within a cent, and closes at the next entry's opening
      balance; the last entry is the balloon. Interest, principal and closing
      balance are whole cents. */
  lemma ExpectedScheduleEntry(t: Terms, repaymentAmount: Option<real>, k: nat)
    requires ExpectedSchedule(t, repaymentAmount).Ok?
    requires k < |ExpectedSchedule(t, repaymentAmount).value.schedule|
    ensures FinalRepayment(t, repaymentAmount).Ok?
    ensures var s := ExpectedSchedule(t, repaymentAmount).value.schedule;
      EntryFacts(s, k, t.establishmentDate, DailyRate(t.interestRate), FinalRepayment(t, repaymentAmount).value)
    ensures var e := ExpectedSchedule(t, repaymentAmount).value.schedule[k];
      && IsCents(e.interest) && IsCents(e.principal) && IsCents(e.closingBalance)
      && (k < |ExpectedSchedule(t, repaymentAmount).value.schedule| - 1 ==>
            -0.01 <= e.repayment - (e.interest + e.principal) <= 0.01)
  {
    ExpectedScheduleIsOnePass(t, repaymentAmount);
    var repayment := FinalRepayment(t, repaymentAmount).value;
    var s := ExpectedSchedule(t, repaymentAmount).value.schedule;
    ScheduleFromBuilt(t, repayment, 0, Abs(t.loanAmount), t.establishmentDate);
    BuiltEntry(t, repayment, 0, Abs(t.loanAmount), t.establishmentDate, s, k);
  }

  /** Consecutive entries are PeriodDays apart (the earlier month's length,
      14 or 7 days), so the dates strictly increase. */
  lemma ExpectedScheduleDatesIncrease(t: Terms, repaymentAmount: Option<real>, k: nat)
    requires ExpectedSchedule(t, repaymentAmount).Ok?
    requires k + 1 < |ExpectedSchedule(t, repaymentAmount).value.schedule|
    ensures Supported(t.frequency)
    ensures var s := ExpectedSchedule(t, repaymentAmount).value.schedule;
      && DaysBetween(s[k].date, s[k + 1].date) == PeriodDays(s[k].date, t.frequency)
      && DayNumber(s[k].date) < DayNumber(s[k + 1].date)
  {
    ExpectedScheduleShape(t, repaymentAmount);
    ConsecutiveDatesGap(t.firstRepaymentDate, k, t.frequency);
  }

  /** The failures of the builder: an unsupported frequency, no repayments
      without an override, and a monthly loan of one repayment, whose
      recalibration has no entries left to average over. */
  lemma ExpectedScheduleFailures(t: Terms, repaymentAmount: Option<real>)
    ensures !Supported(t.frequency) ==> ExpectedSchedule(t, repaymentAmount) == Err(InvalidFrequency)
    ensures Supported(t.frequency) && t.numberOfRepayments == 0 && repaymentAmount.None? ==>
      ExpectedSchedule(t, repaymentAmount) == Err(ZeroDivision)
    ensures t.frequency == MONTHLY && t.numberOfRepayments == 1 && repaymentAmount.None? ==>
      && ExpectedSchedule(t, repaymentAmount).Err?
      && (PassRepayment(t, repaymentAmount).Ok? && SchedulePass(t, PassRepayment(t, repaymentAmount).value).Ok? ==>
            ExpectedSchedule(t, repaymentAmount).error == ZeroDivision)
  {
    if Supported(t.frequency) && t.numberOfRepayments == 0 && repaymentAmount.None? {
      var periodic := ConvertInterestRateToFrequency(t.interestRate, t.frequency).value;
      PaymentNeedsPeriodsAndRate(periodic, 0, PresentValue(t), true);
    }
    if t.frequency == MONTHLY && t.numberOfRepayments == 1 && repaymentAmount.None? {
      if PassRepayment(t, repaymentAmount).Ok? && SchedulePass(t, PassRepayment(t, repaymentAmount).value).Ok? {
        var s := SchedulePass(t, PassRepayment(t, repaymentAmount).value).value;
        assert |s| == 1;
        assert s[1..] == [];
      }
    }
  }

  lemma ScaleBounds(lo: real, x: real, hi: real, w: real)
    requires lo <= x <= hi && w >= 0.0
    ensures lo * w <= x * w <= hi * w
  {
  }

  /** Adding one weighted gap of a month's length keeps the weighted sum
      between 28 and 31 times the interest sum. */
  lemma StepBounds(gap: real, interest: real, sumOfInterests: real, sumOfProducts: real)
    requires 28.0 <= gap <= 31.0 && interest >= 0.0
    requires 28.0 * sumOfInterests <= sumOfProducts <= 31.0 * sumOfInterests
    ensures 28.0 * (interest + sumOfInterests) <= gap * interest + sumOfProducts <= 31.0 * (interest + sumOfInterests)
  {
    ScaleBounds(28.0, gap, 31.0, interest);
  }

  /** The days from the previous entry's date (or `lastDate`) to entry k. */
  function Gap(entries: seq<Entry>, k: nat, lastDate: CalendarDate): int
    requires k < |entries|
  {
    DaysBetween(PeriodStart(entries, k, lastDate), entries[k].date)
  }

  /** Every entry's interest is not negative and its gap from the previous
      date is a month's length. */
  predicate MonthGaps(entries: seq<Entry>, lastDate: CalendarDate) {
    forall k {:trigger Gap(entries, k, lastDate)} :: 0 <= k < |entries| ==>
      entries[k].interest >= 0.0 && 28 <= Gap(entries, k, lastDate) <= 31
  }

  lemma MonthGapsTail(entries: seq<Entry>, lastDate: CalendarDate)
    requires entries != [] && MonthGaps(entries, lastDate)
    ensures MonthGaps(entries[1..], entries[0].date)
    ensures entries[0].interest >= 0.0 && 28 <= Gap(entries, 0, lastDate) <= 31
  {
    var rest := entries[1..];
    forall k | 0 <= k < |rest|
      ensures rest[k].interest >= 0.0 && 28 <= Gap(rest, k, entries[0].date) <= 31
    {
      assert rest[k] == entries[k + 1];
      assert PeriodStart(rest, k, entries[0].date) == PeriodStart(entries, k + 1, lastDate);
      assert Gap(rest, k, entries[0].date) == Gap(entries, k + 1, lastDate);
    }
    assert 28 <= Gap(entries, 0, lastDate) <= 31;
  }

  /** One step of the two sums the recalibrator averages with. */
  lemma SumsStep(entries: seq<Entry>, lastDate: CalendarDate)
    requires entries != []
    ensures SumOfProducts(entries, lastDate)
         == Gap(entries, 0, lastDate) as real * entries[0].interest + SumOfProducts(entries[1..], entries[0].date)
    ensures SumOfInterests(entries) == entries[0].interest + SumOfInterests(entries[1..])
  {
  }

  /** With every gap a month's length and no negative interest, the
      interest-weighted sum of gaps lies between 28 and 31 times the
      interest sum. */
  lemma {:induction false} MonthGapBounds(entries: seq<Entry>, lastDate: CalendarDate)
    requires MonthGaps(entries, lastDate)
    ensures 28.0 * SumOfInterests(entries) <= SumOfProducts(entries, lastDate) <= 31.0 * SumOfInterests(entries)
    decreases |entries|
  {
    if entries != [] {
      MonthGapsTail(entries, lastDate);
      MonthGapBounds(entries[1..], entries[0].date);
      MonthGapStep(entries, lastDate);
    }
  }

  /** The inductive step of MonthGapBounds: the bounds for the tail and a
      month-long first gap give the bounds for the whole sequence. */
  lemma MonthGapStep(entries: seq<Entry>, lastDate: CalendarDate)
    requires entries != [] && entries[0].interest >= 0.0 && 28 <= Gap(entries, 0, lastDate) <= 31
    requires 28.0 * SumOfInterests(entries[1..]) <= SumOfProducts(entries[1..], entries[0].date)
                                                 <= 31.0 * SumOfInterests(entries[1..])
    ensures 28.0 * SumOfInterests(entries) <= SumOfProducts(entries, lastDate) <= 31.0 * SumOfInterests(entries)
  {
    SumsStep(entries, lastDate);
    StepBounds(Gap(entries, 0, lastDate) as real, entries[0].interest,
               SumOfInterests(entries[1..]), SumOfProducts(entries[1..], entries[0].date));
  }

  /** Gap k of the entries the recalibrator averages over (all but the
      first) in a monthly pass is a month's length. */
  lemma MonthlyGapAt(t: Terms, repayment: real, k: nat)
    requires t.frequency == MONTHLY
    requires SchedulePass(t, repayment).Ok? && k + 1 < |SchedulePass(t, repayment).value|
    ensures var s := SchedulePass(t, repayment).value;
      28 <= Gap(s[1..], k, t.firstRepaymentDate) <= 31
  {
    var s := SchedulePass(t, repayment).value;
    var first := t.firstRepaymentDate;
    ScheduleFromBuilt(t, repayment, 0, Abs(t.loanAmount), t.establishmentDate);
    AnchorIsFirstDate(first, MONTHLY);
    assert s[1..][k] == s[k + 1];
    assert PeriodStart(s[1..], k, first) == s[k].date;
    ConsecutiveDatesGap(first, k, MONTHLY);
  }

  /** In a monthly first pass, the recalibrator's days per entry is a month
      length: between 28 and 31 days, provided the interests it averages are
      not negative and do not sum to zero. */
  lemma MonthlyDaysPerEntry(t: Terms, repayment: real)
    requires t.frequency == MONTHLY
    requires SchedulePass(t, repayment).Ok? && |SchedulePass(t, repayment).value| >= 1
    requires var s := SchedulePass(t, repayment).value;
      (forall k :: 1 <= k < |s| ==> s[k].interest >= 0.0) && SumOfInterests(s[1..]) > 0.0
    ensures var s := SchedulePass(t, repayment).value;
      28.0 <= DaysPerEntry(SumOfProducts(s[1..], t.firstRepaymentDate), SumOfInterests(s[1..])) <= 31.0
  {
    var s := SchedulePass(t, repayment).value;
    var first := t.firstRepaymentDate;
    var entries := s[1..];
    forall k | 0 <= k < |entries|
      ensures entries[k].interest >= 0.0 && 28 <= Gap(entries, k, first) <= 31
    {
      assert entries[k] == s[k + 1];
      MonthlyGapAt(t, repayment, k);
    }
    MonthGapBounds(entries, first);
    DivisionBounds(SumOfProducts(entries, first), SumOfInterests(entries), 28.0, 31.0);
  }

  lemma DivisionBounds(x: real, y: real, lo: real, hi: real)
    requires y > 0.0 && lo * y <= x <= hi * y
    ensures lo <= x / y <= hi
  {
    assert x / y * y == x;
    if x / y < lo {
      ScaleBounds(x / y, x / y, lo, y);
    }
    if x / y > hi {
      ScaleBounds(hi, hi, x / y, y);
    }
  }
}
