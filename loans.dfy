/** The loan of the discount runner: the scenario it is opened with, and the
    re-amortisation of its schedule when the annual rate is discounted from
    a given repayment on. */
module Loans {
  import opened Outcomes
  import opened Frequency
  import opened Money
  import opened Calendar
  import opened DateAdvance
  import opened Schedule
  import opened ScheduleFacts

  /** A cut of `discount` off the annual rate, taking effect after repayment
      `month` (a 1-based entry id; Python list indexing applies to it). */
  datatype Discount = Discount(month: int, discount: real)

  /** The position Python's `s[j]` reads in a list of length n: negative
      indices count from the end. */
  function PyPosition(n: nat, j: int): int {
    if j < 0 then n + j else j
  }

  /** `s[j]` in Python: an IndexError outside -|s| .. |s| - 1. */
  function PyIndex<T>(s: seq<T>, j: int): (r: Result<T>)
    ensures r.Ok? <==> -|s| <= j < |s|
    ensures r.Err? ==> r.error == IndexOutOfRange
    ensures 0 <= j < |s| ==> r == Ok(s[j])
    ensures -|s| <= j < 0 ==> r == Ok(s[|s| + j])
  {
    if -|s| <= j < |s| then Ok(s[PyPosition(|s|, j)]) else Err(IndexOutOfRange)
  }

  /** Entry k has id k + 1: the numbering the builder and the renumbering
      loop produce. */
  predicate PositionalIds(s: seq<Entry>) {
    forall k :: 0 <= k < |s| ==> s[k].id == k + 1
  }

  /** The entries with id at most `month`, in order (the filter that keeps
      the repayments made before a discount). */
  function UpToMonth(s: seq<Entry>, month: int): seq<Entry> {
    if s == [] then []
    else (if s[0].id <= month then [s[0]] else []) + UpToMonth(s[1..], month)
  }

  /** x limited to 0 .. n. */
  function Clamp(x: int, n: nat): nat {
    if x < 0 then 0 else if x > n then n else x
  }

  /** On entries numbered from base + 1 up, the filter keeps a prefix. */
  lemma {:induction false} UpToMonthOfNumbered(s: seq<Entry>, base: int, month: int)
    requires forall k :: 0 <= k < |s| ==> s[k].id == base + k + 1
    ensures UpToMonth(s, month) == s[..Clamp(month - base, |s|)]
    decreases |s|
  {
    if s != [] {
      UpToMonthOfNumbered(s[1..], base + 1, month);
      if s[0].id <= month {
        assert [s[0]] + s[1..][..Clamp(month - base - 1, |s| - 1)] == s[..Clamp(month - base, |s|)];
      }
    }
  }

  /** With positional ids the filter keeps the first `month` entries. */
  lemma UpToMonthIsPrefix(s: seq<Entry>, month: int)
    requires PositionalIds(s)
    ensures UpToMonth(s, month) == s[..Clamp(month, |s|)]
  {
    UpToMonthOfNumbered(s, 0, month);
  }

  /** The entries with their ids replaced by their positions 1, 2, ... */
  function Renumbered(s: seq<Entry>): (r: seq<Entry>)
    ensures |r| == |s| && PositionalIds(r)
    ensures forall k :: 0 <= k < |s| ==> r[k] == s[k].(id := k + 1)
  {
    seq(|s|, k requires 0 <= k < |s| => s[k].(id := k + 1))
  }

  /** Renumbering leaves a positionally numbered prefix as it is. */
  lemma RenumberedKeepsPrefix(prefix: seq<Entry>, rest: seq<Entry>)
    requires PositionalIds(prefix)
    ensures Renumbered(prefix + rest)[..|prefix|] == prefix
  {
    var r := Renumbered(prefix + rest);
    forall k | 0 <= k < |prefix|
      ensures r[k] == prefix[k]
    {
      assert (prefix + rest)[k] == prefix[k];
    }
  }

  /** The renumbering loop of the discount calculation, on a copy. */
  method Renumber(s: seq<Entry>) returns (r: seq<Entry>)
    ensures r == Renumbered(s)
  {
    r := s;
    var newId := 0;
    while newId < |r|
      invariant 0 <= newId <= |r| == |s|
      invariant forall k :: 0 <= k < newId ==> r[k] == s[k].(id := k + 1)
      invariant r[newId..] == s[newId..]
    {
      assert r[newId] == s[newId];
      r := r[newId := r[newId].(id := newId + 1)];
      newId := newId + 1;
    }
  }

  /** The terms a discount re-amortises with: the closing balance of the
      reference entry, the repayments left after it, the discounted rate,
      from the reference date to the date of the next repayment. */
  function DiscountTerms(s: seq<Entry>, reference: Entry, next: Entry, rate: real, frequency: string): Terms
    requires reference.id <= |s|
  {
    Terms(reference.closingBalance, frequency, |s| - reference.id, rate, reference.date, next.date)
  }

  /** The lookups of a discount: the reference entry at `month - 1` and the
      next entry at `month`, either of which can raise IndexError. */
  function DiscountTermsFor(s: seq<Entry>, rate: real, frequency: string, d: Discount): (r: Result<Terms>)
    requires PositionalIds(s)
    ensures r.Err? ==> r.error == IndexOutOfRange
    ensures r.Ok? ==> r.value.frequency == frequency && r.value.interestRate == rate - d.discount
  {
    var reference :- PyIndex(s, d.month - 1);
    var next :- PyIndex(s, d.month);
    Ok(DiscountTerms(s, reference, next, rate - d.discount, frequency))
  }

  /** The entries up to `month` followed by the rebuilt ones, renumbered. */
  function Splice(s: seq<Entry>, month: int, rebuilt: seq<Entry>): seq<Entry> {
    Renumbered(UpToMonth(s, month) + rebuilt)
  }

  /** One discount applied to schedule `s` at annual rate `rate`: keep the
      entries up to the discount month, rebuild the rest at the discounted
      rate, and renumber. */
  function ApplyDiscount(s: seq<Entry>, rate: real, frequency: string, d: Discount): (r: Result<seq<Entry>>)
    requires PositionalIds(s)
    ensures r.Ok? ==> PositionalIds(r.value)
  {
    var t :- DiscountTermsFor(s, rate, frequency, d);
    var scenario :- ExpectedSchedule(t, None);
    Ok(Splice(s, d.month, scenario.schedule))
  }

  /** The discounts applied in order, each to the schedule the previous one
      left, with the rate lowered cumulatively. */
  function ApplyDiscounts(s: seq<Entry>, rate: real, frequency: string, ds: seq<Discount>): (r: Result<seq<Entry>>)
    requires PositionalIds(s)
    ensures r.Ok? ==> PositionalIds(r.value)
    decreases |ds|, 1
  {
    if ds == [] then Ok(s) else ApplyThen(s, rate, frequency, ds[0], ds[1..])
  }

  /** Discount `d`, then the discounts in `rest` at the lowered rate. */
  function ApplyThen(s: seq<Entry>, rate: real, frequency: string, d: Discount, rest: seq<Discount>): (r: Result<seq<Entry>>)
    requires PositionalIds(s)
    ensures r.Ok? ==> PositionalIds(r.value)
    decreases |rest| + 1, 0
  {
    var next :- ApplyDiscount(s, rate, frequency, d);
    ApplyDiscounts(next, rate - d.discount, frequency, rest)
  }

  /** ApplyThen with the outcome of the first discount given. */
  lemma ApplyThenStep(s: seq<Entry>, rate: real, frequency: string, d: Discount, rest: seq<Discount>,
                      next: Result<seq<Entry>>)
    requires PositionalIds(s) && next == ApplyDiscount(s, rate, frequency, d)
    ensures next.Err? ==> ApplyThen(s, rate, frequency, d, rest) == Err(next.error)
    ensures next.Ok? ==> ApplyThen(s, rate, frequency, d, rest) == ApplyDiscounts(next.value, rate - d.discount, frequency, rest)
  {
  }

  /** `out` is what applying the discounts `ds` in turn to `s` at `rate` yields. */
  ghost predicate Yields(s: seq<Entry>, rate: real, frequency: string, ds: seq<Discount>, out: Result<seq<Entry>>)
    requires PositionalIds(s)
  {
    ApplyDiscounts(s, rate, frequency, ds) == out
  }

  function SumOfDiscounts(ds: seq<Discount>): real {
    if ds == [] then 0.0 else ds[0].discount + SumOfDiscounts(ds[1..])
  }

  /** The sum of the repayments of a schedule. */
  function TotalRepayment(s: seq<Entry>): real {
    if s == [] then 0.0 else s[0].repayment + TotalRepayment(s[1..])
  }

  /** The sum of the interests of a schedule. */
  function TotalInterest(s: seq<Entry>): real {
    if s == [] then 0.0 else s[0].interest + TotalInterest(s[1..])
  }

  /** The lookups fail with IndexError exactly when the month or the month
      before it is outside the schedule; otherwise the rebuild covers the
      repayments after the reference entry, and for 1 <= month < n it starts
      from entry `month`'s balance and date and ends at the next one's. */
  lemma DiscountLookups(s: seq<Entry>, rate: real, frequency: string, d: Discount)
    requires PositionalIds(s)
    ensures var t := DiscountTermsFor(s, rate, frequency, d);
      && (t.Ok? <==> 1 - |s| <= d.month < |s|)
      && (t.Err? ==> t.error == IndexOutOfRange)
      && (t.Ok? ==> t.value.numberOfRepayments == |s| - 1 - PyPosition(|s|, d.month - 1))
      && (t.Ok? && 1 <= d.month ==>
            t.value == Terms(s[d.month - 1].closingBalance, frequency, |s| - d.month, rate - d.discount,
                             s[d.month - 1].date, s[d.month].date))
  {
  }

  /** Splicing keeps the first `month` entries and renumbers the rebuilt
      ones after them. */
  lemma SpliceKeepsPrefix(s: seq<Entry>, month: int, rebuilt: seq<Entry>)
    requires PositionalIds(s) && 0 <= month <= |s|
    ensures var r := Splice(s, month, rebuilt);
      && |r| == month + |rebuilt|
      && r[..month] == s[..month]
      && forall k :: 0 <= k < |rebuilt| ==> r[month + k] == rebuilt[k].(id := month + k + 1)
  {
    UpToMonthIsPrefix(s, month);
    assert Clamp(month, |s|) == month;
    RenumberedKeepsPrefix(s[..month], rebuilt);
    var joined := s[..month] + rebuilt;
    forall k | 0 <= k < |rebuilt|
      ensures Splice(s, month, rebuilt)[month + k] == rebuilt[k].(id := month + k + 1)
    {
      assert joined[month + k] == rebuilt[k];
    }
  }

  /** A successful discount is the splice of the schedule rebuilt on the
      discount's terms. */
  lemma ApplyDiscountIsSplice(s: seq<Entry>, rate: real, frequency: string, d: Discount)
    requires PositionalIds(s) && ApplyDiscount(s, rate, frequency, d).Ok?
    ensures DiscountTermsFor(s, rate, frequency, d).Ok?
    ensures var t := DiscountTermsFor(s, rate, frequency, d).value;
      && ExpectedSchedule(t, None).Ok?
      && ApplyDiscount(s, rate, frequency, d).value == Splice(s, d.month, ExpectedSchedule(t, None).value.schedule)
  {
  }

  /** A discount that takes effect after repayment `month`, 1 <= month < n,
      keeps the first `month` entries and the length, carries the reference
      entry's closing balance into the first rebuilt entry, keeps that
      entry's date, and still pays the loan off. */
  lemma DiscountKeepsPrefix(s: seq<Entry>, rate: real, frequency: string, d: Discount)
    requires PositionalIds(s) && 1 <= d.month < |s|
    requires ApplyDiscount(s, rate, frequency, d).Ok?
    ensures var r := ApplyDiscount(s, rate, frequency, d).value;
      && |r| == |s|
      && r[..d.month] == s[..d.month]
      && r[d.month].openingBalance == Abs(s[d.month - 1].closingBalance)
      && r[d.month].date == s[d.month].date
      && r[|r| - 1].closingBalance == 0.0
  {
    ApplyDiscountIsSplice(s, rate, frequency, d);
    DiscountLookups(s, rate, frequency, d);
    var t := DiscountTermsFor(s, rate, frequency, d).value;
    var rebuilt := ExpectedSchedule(t, None).value.schedule;
    ExpectedScheduleShape(t, None);
    AnchorIsFirstDate(s[d.month].date, frequency);
    SpliceKeepsPrefix(s, d.month, rebuilt);
    assert rebuilt != [];
  }

  /** Every discount that succeeds leaves a schedule that ends with a zero
      balance. */
  lemma DiscountPaysOff(s: seq<Entry>, rate: real, frequency: string, d: Discount)
    requires PositionalIds(s) && ApplyDiscount(s, rate, frequency, d).Ok?
    ensures var r := ApplyDiscount(s, rate, frequency, d).value;
      |r| > 0 && r[|r| - 1].closingBalance == 0.0
  {
    ApplyDiscountIsSplice(s, rate, frequency, d);
    var t := DiscountTermsFor(s, rate, frequency, d).value;
    var rebuilt := ExpectedSchedule(t, None).value.schedule;
    ExpectedScheduleFailures(t, None);
    ExpectedScheduleShape(t, None);
    SpliceEndsWithRebuilt(UpToMonth(s, d.month), rebuilt);
  }

  /** The last entry of a splice is the last rebuilt entry, renumbered. */
  lemma SpliceEndsWithRebuilt(prefix: seq<Entry>, rebuilt: seq<Entry>)
    requires rebuilt != []
    ensures var r := Renumbered(prefix + rebuilt);
      |r| > 0 && r[|r| - 1].closingBalance == rebuilt[|rebuilt| - 1].closingBalance
  {
    var joined := prefix + rebuilt;
    assert joined[|joined| - 1] == rebuilt[|rebuilt| - 1];
  }

  /** Discounting after the last-but-one repayment of a monthly loan fails,
      since one repayment cannot be recalibrated; discounting at month 0
      (the last entry, by Python indexing) fails on zero repayments left. */
  lemma DiscountFailures(s: seq<Entry>, rate: real, frequency: string, d: Discount)
    requires PositionalIds(s)
    ensures frequency == MONTHLY && 1 <= d.month == |s| - 1 ==> ApplyDiscount(s, rate, frequency, d).Err?
    ensures Supported(frequency) && d.month == 0 && |s| > 0 ==>
      ApplyDiscount(s, rate, frequency, d) == Err(ZeroDivision)
  {
    DiscountLookups(s, rate, frequency, d);
    var t := DiscountTermsFor(s, rate, frequency, d);
    if t.Ok? {
      ExpectedScheduleFailures(t.value, None);
    }
  }

  lemma {:induction false} SumOfDiscountsAppend(a: seq<Discount>, b: seq<Discount>)
    ensures SumOfDiscounts(a + b) == SumOfDiscounts(a) + SumOfDiscounts(b)
    decreases |a|
  {
    if a == [] {
      assert a + b == b;
    } else {
      assert (a + b)[1..] == a[1..] + b;
      SumOfDiscountsAppend(a[1..], b);
    }
  }

  /** Totals add up over a split schedule. */
  lemma {:induction false} TotalsSplit(a: seq<Entry>, b: seq<Entry>)
    ensures TotalRepayment(a + b) == TotalRepayment(a) + TotalRepayment(b)
    ensures TotalInterest(a + b) == TotalInterest(a) + TotalInterest(b)
    decreases |a|
  {
    if a == [] {
      assert a + b == b;
    } else {
      assert (a + b)[1..] == a[1..] + b;
      TotalsSplit(a[1..], b);
    }
  }

  /** The impact of one discount after repayment `month` is the difference
      the rebuilt repayments make: the kept entries cancel out. */
  lemma DiscountImpactFromRebuiltPart(s: seq<Entry>, r: seq<Entry>, month: nat)
    requires month <= |s| && month <= |r| && r[..month] == s[..month]
    ensures TotalRepayment(s) - TotalRepayment(r) == TotalRepayment(s[month..]) - TotalRepayment(r[month..])
  {
    TotalsSplit(s[..month], s[month..]);
    TotalsSplit(r[..month], r[month..]);
    assert s == s[..month] + s[month..];
    assert r == r[..month] + r[month..];
  }

  /** A loan: its terms, the scenario it was opened with, and its current
      (possibly discounted) rate and schedule. */
  class Loan {
    const amount: real
    const initialInterestRate: real
    const repaymentFrequency: string
    const numberOfRepayments: nat
    const establishmentDate: CalendarDate
    const firstRepaymentDate: CalendarDate
    const repaymentAmount: real
    const initialRepaymentSchedule: seq<Entry>
    const initialRepaymentTotal: real
    const initialInterestTotal: real
    var interestRate: real
    var repaymentSchedule: seq<Entry>
    var repaymentTotal: real
    var interestTotal: real

    /** The terms the loan was opened with. */
    function InitialTerms(): Terms {
      Terms(amount, repaymentFrequency, numberOfRepayments, initialInterestRate, establishmentDate, firstRepaymentDate)
    }

    /** Both schedules are numbered by position and every total is the sum
        over its schedule. */
    ghost predicate Valid()
      reads this
    {
      && PositionalIds(initialRepaymentSchedule)
      && PositionalIds(repaymentSchedule)
      && initialRepaymentTotal == TotalRepayment(initialRepaymentSchedule)
      && initialInterestTotal == TotalInterest(initialRepaymentSchedule)
      && repaymentTotal == TotalRepayment(repaymentSchedule)
      && interestTotal == TotalInterest(repaymentSchedule)
    }

    /** The loan opened with `t` and the scenario the builder returned for
        it: each total starts equal to its initial counterpart. */
    constructor(t: Terms, scenario: Scenario)
      requires ExpectedSchedule(t, None) == Ok(scenario)
      ensures Valid()
      ensures InitialTerms() == t && interestRate == t.interestRate
      ensures repaymentAmount == scenario.repaymentAmount
      ensures repaymentSchedule == initialRepaymentSchedule == scenario.schedule
      ensures repaymentTotal == initialRepaymentTotal == TotalRepayment(scenario.schedule)
      ensures interestTotal == initialInterestTotal == TotalInterest(scenario.schedule)
    {
      ExpectedScheduleShape(t, None);
      amount := t.loanAmount;
      initialInterestRate := t.interestRate;
      repaymentFrequency := t.frequency;
      numberOfRepayments := t.numberOfRepayments;
      establishmentDate := t.establishmentDate;
      firstRepaymentDate := t.firstRepaymentDate;
      repaymentAmount := scenario.repaymentAmount;
      initialRepaymentSchedule := scenario.schedule;
      initialRepaymentTotal := TotalRepayment(scenario.schedule);
      initialInterestTotal := TotalInterest(scenario.schedule);
      interestRate := t.interestRate;
      repaymentSchedule := scenario.schedule;
      repaymentTotal := TotalRepayment(scenario.schedule);
      interestTotal := TotalInterest(scenario.schedule);
    }

    /** Opening a loan: the builder runs on the terms, and its failure is
        the loan's. */
    static method Open(t: Terms) returns (r: Result<Loan>)
      ensures r.Ok? <==> ExpectedSchedule(t, None).Ok?
      ensures r.Err? ==> r.error == ExpectedSchedule(t, None).error
      ensures r.Ok? ==> var loan := r.value;
        && fresh(loan) && loan.Valid() && loan.InitialTerms() == t
        && ExpectedSchedule(t, None).value == Scenario(loan.repaymentAmount, loan.initialRepaymentSchedule)
        && loan.repaymentSchedule == loan.initialRepaymentSchedule && loan.interestRate == t.interestRate
    {
      var scenario := CalculateExpectedRepaymentSchedule(t, None);
      if scenario.Err? {
        return Err(scenario.error);
      }
      var loan := new Loan(t, scenario.value);
      return Ok(loan);
    }

    /** Applies the discounts in order to the current schedule and rate, and
        returns how much less is repaid in total than under the opening
        scenario, rounded to cents. On failure nothing changes. */
    method CalculateDiscountImpact(discounts: seq<Discount>) returns (r: Result<real>)
      requires Valid()
      modifies this
      ensures Valid()
      ensures r.Ok? ==>
        && Yields(old(repaymentSchedule), old(interestRate), repaymentFrequency, discounts, Ok(repaymentSchedule))
        && interestRate == old(interestRate) - SumOfDiscounts(discounts)
        && r.value == Round2(initialRepaymentTotal - TotalRepayment(repaymentSchedule))
      ensures r.Err? ==>
        && Yields(old(repaymentSchedule), old(interestRate), repaymentFrequency, discounts, Err(r.error))
        && unchanged(this)
      ensures discounts == [] ==>
        r.Ok? && repaymentSchedule == old(repaymentSchedule) && interestRate == old(interestRate)
    {
      var applied, finalRate := ApplyDiscountsInTurn(repaymentSchedule, interestRate, repaymentFrequency, discounts);
      if applied.Err? {
        return Err(applied.error);
      }
      interestRate := finalRate;
      repaymentSchedule := applied.value;
      repaymentTotal := TotalRepayment(applied.value);
      interestTotal := TotalInterest(applied.value);
      return Ok(Round2(initialRepaymentTotal - repaymentTotal));
    }
  }

  /** The discount loop: applies the discounts one after the other to a
      working copy of the schedule and rate, stopping at the first failure. */
  method ApplyDiscountsInTurn(schedule: seq<Entry>, rate: real, frequency: string, discounts: seq<Discount>)
    returns (r: Result<seq<Entry>>, finalRate: real)
    requires PositionalIds(schedule)
    ensures Yields(schedule, rate, frequency, discounts, r)
    ensures r.Ok? ==> finalRate == rate - SumOfDiscounts(discounts)
    ensures discounts == [] ==> r == Ok(schedule) && finalRate == rate
  {
    var current := schedule;
    var currentRate := rate;
    ghost var target := ApplyDiscounts(schedule, rate, frequency, discounts);
    for i := 0 to |discounts|
      invariant PositionalIds(current)
      invariant Yields(current, currentRate, frequency, discounts[i..], target)
      invariant currentRate == rate - SumOfDiscounts(discounts[..i])
      invariant i == 0 ==> current == schedule && currentRate == rate
    {
      var d := discounts[i];
      SumOfDiscountsAppend(discounts[..i], [d]);
      assert discounts[..i + 1] == discounts[..i] + [d];
      var next := NextDiscount(current, currentRate, frequency, discounts, i, target);
      if next.Err? {
        return Err(next.error), currentRate;
      }
      current := next.value;
      currentRate := currentRate - d.discount;
    }
    assert discounts[..|discounts|] == discounts;
    return Ok(current), currentRate;
  }

  /** One turn of the discount loop: applies the i-th discount, so that what
      remains to be applied shrinks by one and still yields `target`. */
  method NextDiscount(current: seq<Entry>, currentRate: real, frequency: string, ds: seq<Discount>, i: nat,
                      ghost target: Result<seq<Entry>>)
    returns (next: Result<seq<Entry>>)
    requires i < |ds| && PositionalIds(current)
    requires Yields(current, currentRate, frequency, ds[i..], target)
    ensures next.Err? ==> target == Err(next.error)
    ensures next.Ok? ==> PositionalIds(next.value)
    ensures next.Ok? ==> Yields(next.value, currentRate - ds[i].discount, frequency, ds[i + 1..], target)
  {
    next := DiscountStep(current, currentRate, frequency, ds[i]);
    assert ds[i..][1..] == ds[i + 1..];
    ApplyThenStep(current, currentRate, frequency, ds[i], ds[i + 1..], next);
  }

  /** The body of the discount loop: filter the entries before the month,
      look up the reference and next entries, rebuild the rest at the
      lowered rate, concatenate and renumber. */
  method DiscountStep(current: seq<Entry>, currentRate: real, frequency: string, d: Discount)
    returns (r: Result<seq<Entry>>)
    requires PositionalIds(current)
    ensures r == ApplyDiscount(current, currentRate, frequency, d)
  {
    var before := UpToMonth(current, d.month);
    var reference := PyIndex(current, d.month - 1);
    if reference.Err? {
      return Err(reference.error);
    }
    var remaining := |current| - reference.value.id;
    var rate := currentRate - d.discount;
    var next := PyIndex(current, d.month);
    if next.Err? {
      return Err(next.error);
    }
    var terms := Terms(reference.value.closingBalance, frequency, remaining, rate,
                       reference.value.date, next.value.date);
    assert DiscountTermsFor(current, currentRate, frequency, d) == Ok(terms);
    var scenario := CalculateExpectedRepaymentSchedule(terms, None);
    if scenario.Err? {
      return Err(scenario.error);
    }
    var renumbered := Renumber(before + scenario.value.schedule);
    return Ok(renumbered);
  }
}
