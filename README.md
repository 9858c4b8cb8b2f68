# loan-discount-runner: the amortization engine and the discount re-amortizer

This project models the core of the loan discount runner:

- The amortization engine of `loan_calculator.py`:
  - converting an annual rate to a per-period rate;
  - the annuity payment formula;
  - advancing repayment dates;
  - building a repayment schedule with a balloon final entry;
  - the one-off recalibration pass for monthly loans.
- The `Loan` class of `main.py`: its opening totals, and
  `calculate_discount_impact`. That method keeps a schedule up to a month,
  rebuilds the rest at a discounted rate, renumbers the entries, and reports
  how much less is repaid.

Modules, one concept each:

- `Outcomes`: the `Result`/`Option` wrappers and the errors the Python code
  raises (`ValueError` for a bad frequency, `ValueError` from
  `date.replace`, `OverflowError` from date arithmetic, `ZeroDivisionError`,
  `IndexError`).
- `Frequency`: the three supported frequency strings.
- `Money`: `abs`, `round(x, 2)` as round-half-to-even on exact reals, and
  integer powers.
- `Calendar`: proleptic Gregorian dates in years 1 to 9999, as Python's
  `datetime` has them. Includes a day number whose differences are
  `timedelta.days`, adding days, and `date.replace`.
- `DateAdvance`: `set_new_date`.
- `Rates`: `convert_interest_rate_to_frequency`, `calculate_pmt`, and the
  fact that the unrounded annuity payment pays the loan off.
- `Schedule`: the builder loop, `adjust_repayment_amount`, and
  `calculate_expected_repayment_schedule`. Each is a method proved equal to
  a recursive specification function.
- `ScheduleFacts`: what every built schedule satisfies. Length and ids, the
  dates, balance chaining, the regular entries and the balloon, the failure
  cases, and at most one recalibration pass.
- `Loans`: the discount step, the loop over the discounts, the
  renumbering, and the class `Loan` whose fields the discount calculation
  overwrites.

Behaviours of the program that the model keeps as they are:

- A discount's reference entry is read by list position
  (`schedule[month - 1]`), not by id. Python's negative indexing applies to
  it. The two readings agree while ids are positional, and that is a class
  invariant (`Loan.Valid`).
- A monthly advance to a day the target month lacks raises a `ValueError`
  from `date.replace` (error `DayOutOfRange`). It does not clamp to the end
  of the month.
- A schedule of zero repayments without an override repayment amount is a
  `ZeroDivisionError` in `calculate_pmt`. With an override and a supported
  frequency, zero repayments give the rounded override and an empty
  schedule.
- `round(x, 2)` rounds ties to the even cent, as Python does. It does not
  round half up.

## Model

| member | source | states |
|---|---|---|
| Money.Abs | loan_calculator.py:67 | the result is non-negative and is x or -x |
| Money.Round2 | loan_calculator.py:17 | the result is a whole number of cents within half a cent of x; on a tie (exactly half a cent away) it is the even cent |
| Money.Round2OfCents | loan_calculator.py:17 | rounding an amount already in cents leaves it unchanged |
| Money.Round2Idempotent | loan_calculator.py:17 | rounding twice is rounding once |
| Calendar.DayNumberIsOrdinal | loan_calculator.py:72 | the day number is Python's proleptic ordinal: days in the earlier years (365 per year plus leap days) plus the days before the month, plus the day |
| Calendar.DayNumber | loan_calculator.py:72 | no contract of its own: the proleptic ordinal of a date, which Calendar.DayNumberIsOrdinal states |
| Calendar.DaysBetween | loan_calculator.py:72 | no contract of its own: `(later - earlier).days` as the difference of the ordinals; Calendar.AddDays and DateAdvance.ConsecutiveDatesGap state what it measures |
| Calendar.DayNumberAtMostLast | loan_calculator.py:30 | no representable date has an ordinal past that of 31 December 9999 |
| Calendar.NextMonthSameDay | loan_calculator.py:28 | the same day one month later is a valid date whose day number is greater by the length of the earlier month |
| Calendar.NextDay | loan_calculator.py:30 | the next day has day number one greater |
| Calendar.AddDays | loan_calculator.py:30 | adding n days succeeds exactly when the result is not past 31 December 9999, and then advances the day number by n; otherwise it fails with an overflow |
| Calendar.Replace | loan_calculator.py:28 | `date.replace(year, month)` succeeds exactly when the day exists in the target month; otherwise it raises YearOutOfRange past year 9999 and DayOutOfRange otherwise |
| DateAdvance.AddMonths | loan_calculator.py:20-28 | the carry arithmetic lands on 12*year+month equal to the anchor's plus the offset, keeping the day; it fails exactly when that day does not exist there or the year passes 9999 |
| DateAdvance.SetNewDate | loan_calculator.py:19-34 | monthly is AddMonths; fortnightly and weekly add 14 and 7 days per offset; any other frequency raises InvalidFrequency |
| DateAdvance.AnchorIsFirstDate | loan_calculator.py:19-34 | offset 0 gives the anchor itself for every supported frequency |
| DateAdvance.ConsecutiveDatesGap | loan_calculator.py:19-34 | consecutive repayment dates are one period apart: 14 or 7 days, or the length of the earlier month (28 to 31 days); the gap is positive |
| Rates.DailyRate | loan_calculator.py:59 | 365 daily rates make up the annual rate, whatever the frequency |
| Rates.ConvertInterestRateToFrequency | loan_calculator.py:3-11 | monthly gives rate/12, fortnightly 14 daily rates, weekly 7 daily rates; it fails with InvalidFrequency exactly for any other frequency |
| Rates.CalculatePmt | loan_calculator.py:13-17 | it fails with ZeroDivision exactly when (1+r)^n is 1 (or 1+r is 0 with n > 0); otherwise the payment is in whole cents |
| Rates.RawPayment | loan_calculator.py:14-16 | no contract of its own: the unrounded payment, which Rates.AnnuityAmortizes proves pays the loan off and Rates.PaymentIsRoundedAnnuity ties to calculate_pmt |
| Rates.PaymentIsRoundedAnnuity | loan_calculator.py:13-17 | a successful payment is the rounded annuity pv*r/(1-(1+r)^-n), divided by 1+r for payments due at the start of a period |
| Rates.PaymentNeedsPeriodsAndRate | loan_calculator.py:14 | zero periods or a zero rate divide by zero; n >= 1 with a rate above -1 and not 0 always succeeds |
| Rates.BalanceClosedForm | loan_calculator.py:14 | after k end-of-period payments the balance is pv*(1+r)^k less the payments grown to period k (scaled by r) |
| Rates.DueIsDeferredOrdinary | loan_calculator.py:15-16 | paying at the start of each period is paying (1+r) times as much at its end |
| Rates.AnnuityAmortizes | loan_calculator.py:13-17 | the unrounded payment, ordinary or due, leaves a zero balance after exactly n periods |
| Schedule.PresentValue | loan_calculator.py:59-61 | when establishment and first repayment fall on the same day no interest is capitalised: the present value is the loan amount |
| Schedule.AccruedInterest | loan_calculator.py:72-73 | no interest accrues over zero days; interest is non-negative for a forward period at a non-negative rate on a non-negative balance |
| Schedule.MakeEntry | loan_calculator.py:76-97 | the entry has id i+1, the given date and opening balance, and interest, principal and closing balance in whole cents; a regular entry repays abs(repayment); the final one repays a whole number of cents and closes at exactly 0 |
| Schedule.NextBalance | loan_calculator.py:99 | the carried balance is in whole cents, within half a cent of the opening balance less the unrounded principal |
| Schedule.PassRepayment | loan_calculator.py:58-65 | an unsupported frequency raises InvalidFrequency; for a supported one an override is used verbatim; a computed payment is in whole cents |
| Schedule.SchedulePass | loan_calculator.py:66-100 | a successful pass has n entries with ids 1..n |
| Schedule.ScheduleFrom | loan_calculator.py:70-100 | the entries built from repayment i on number n-i and carry ids i+1, i+2, ... |
| Schedule.ScheduleFromStep | loan_calculator.py:70-100 | one turn of the builder: a date error stops the build; otherwise the turn's entry is followed by the build from the next balance and date |
| Schedule.BuilderStep | loan_calculator.py:70-100 | appending the turn's entry to the entries so far and continuing from the next balance and date gives the same result |
| Schedule.ScheduleFromCons | loan_calculator.py:70-100 | a successful build starts with the entry for its first date and continues with a successful build of the rest |
| Schedule.AdjustedRepayment | loan_calculator.py:36-53 | an empty schedule raises IndexError; a zero sum of interests after the first entry raises ZeroDivision; a successful repayment is in whole cents |
| Schedule.RecalibratedRepayment | loan_calculator.py:47-51 | a zero sum of interests raises ZeroDivision; otherwise the annuity-due payment at the daily rate times the days per entry, in whole cents |
| Schedule.AdjustRepaymentAmount | loan_calculator.py:36-53 | the loop sum of products equals the specification: drop the first entry (IndexError on an empty list), weight each day gap from the first repayment date by the entry's interest, divide by the interest sum (ZeroDivision when it is 0), price an annuity-due at that many daily rates |
| Schedule.BuildSchedule | loan_calculator.py:66-100 | the imperative builder loop yields exactly the recursive pass, including its date errors |
| Schedule.ExpectedSchedule | loan_calculator.py:55-109 | an unsupported frequency raises InvalidFrequency; a successful result has n entries and reports a repayment amount in whole cents |
| Schedule.CalculateExpectedRepaymentSchedule | loan_calculator.py:55-109 | the method yields the specification: the payment, one pass, and for a monthly loan without an override one recalibrated second pass |
| ScheduleFacts.MadeRegular | loan_calculator.py:88-99 | a non-final entry repays abs(repayment), rounds interest and principal from the unrounded interest, and closes at the next entry's opening balance |
| ScheduleFacts.MadeBalloon | loan_calculator.py:76-87 | the final entry repays the opening balance with its interest, its principal is the opening balance, and it closes at exactly 0 |
| ScheduleFacts.ScheduleFromBuilt | loan_calculator.py:70-100 | every successful build has the builder's dates, ids, entry formulas and balance chaining |
| ScheduleFacts.BuiltEntry | loan_calculator.py:72-99 | each entry of a build is regular and chained to the next one, or the last one and a balloon |
| ScheduleFacts.OverrideIsSinglePass | loan_calculator.py:62-108 | with an override the result is a single pass at that repayment, reporting it rounded; the pass's failure is the call's |
| ScheduleFacts.ExpectedScheduleIsOnePass | loan_calculator.py:102-108 | a result is one pass at the final repayment (the recalibrated one for monthly loans without an override); the reported amount is the first-pass payment rounded, not the recalibrated one |
| ScheduleFacts.ExpectedScheduleShape | loan_calculator.py:67-100 | n entries with ids 1..n, entry k dated set_new_date(first, k); the first opens at abs(loan amount) and the last closes at 0 |
| ScheduleFacts.ExpectedScheduleEntry | loan_calculator.py:72-99 | every entry follows the regular or the balloon formulas, interest, principal and closing balance are in cents, and a regular repayment is interest plus principal within a cent |
| ScheduleFacts.ExpectedScheduleDatesIncrease | loan_calculator.py:70-72 | consecutive entries are one period apart, so dates strictly increase for every frequency |
| ScheduleFacts.ExpectedScheduleFailures | loan_calculator.py:58-104 | an unsupported frequency raises InvalidFrequency; zero repayments without an override divide by zero; a monthly loan with one repayment always fails, by division by zero once its first pass is built |
| ScheduleFacts.MonthGapBounds | loan_calculator.py:40-48 | with non-negative interests and gaps of 28 to 31 days, the weighted gap sum lies between 28 and 31 times the interest sum |
| ScheduleFacts.MonthlyGapAt | loan_calculator.py:41-45 | in a monthly pass, each gap the recalibration measures (from the first repayment date on) is 28 to 31 days |
| ScheduleFacts.MonthlyDaysPerEntry | loan_calculator.py:47-48 | for a monthly pass with non-negative interests, the days per entry that Schedule.RecalibratedRepayment multiplies the daily rate by lie between 28 and 31 |
| Loans.PyIndex | main.py:39-44 | `s[j]` succeeds exactly for -len(s) <= j < len(s) and otherwise raises IndexError; j >= 0 reads s[j], a negative j reads s[len(s)+j] |
| Loans.UpToMonth | main.py:37 | no contract of its own: the filter `id <= month`, which Loans.UpToMonthIsPrefix characterises |
| Loans.UpToMonthOfNumbered | main.py:37 | on entries numbered consecutively from base+1, the id filter keeps exactly a prefix |
| Loans.UpToMonthIsPrefix | main.py:37 | with positional ids the filter `id <= month` keeps exactly the first month entries (none for month <= 0, all past the end) |
| Loans.Renumbered | main.py:50-53 | the same number of entries, entry k being entry k of the input with id k+1 |
| Loans.RenumberedKeepsPrefix | main.py:49-53 | renumbering rewrites the kept prefix with the ids it already has |
| Loans.Renumber | main.py:50-53 | the counter loop gives entry k the id k+1 and changes nothing else |
| Loans.DiscountTermsFor | main.py:39-46 | a failed lookup raises IndexError; the rebuild terms keep the loan's frequency and lower the rate by the discount |
| Loans.DiscountLookups | main.py:39-44 | the two lookups fail with IndexError exactly when month-1 or month is outside the list; otherwise the rebuild covers the repayments after the reference entry and, for 1 <= month < n, starts from entry month's closing balance and date, at the discounted rate, with the next entry's date as the first repayment |
| Loans.ApplyDiscount | main.py:37-53 | a discount that succeeds leaves ids 1..N in position order |
| Loans.SpliceKeepsPrefix | main.py:46-53 | the splice keeps the first month entries unchanged, then the rebuilt entries renumbered from month+1; its length is month plus the rebuilt length |
| Loans.ApplyDiscountIsSplice | main.py:37-53 | a successful discount is the splice of the schedule rebuilt on the looked-up terms |
| Loans.DiscountKeepsPrefix | main.py:37-53 | for 1 <= month < n: the length is unchanged, the first month entries are the old ones, the rebuilt part opens at the reference entry's closing balance on the next entry's date, and the schedule still ends at 0 |
| Loans.DiscountPaysOff | main.py:46-53 | every successful discount leaves a non-empty schedule closing at 0 |
| Loans.DiscountFailures | main.py:39-47 | a discount after the last-but-one repayment of a monthly loan fails; month 0 (the last entry by Python indexing) fails on zero repayments left |
| Loans.ApplyDiscounts | main.py:36-53 | applying the discounts in order leaves ids 1..N in position order; Loans.ApplyThenStep and Loans.ApplyDiscountsInTurn relate it to the loop |
| Loans.ApplyThen | main.py:36-53 | one discount then the rest at the lowered rate leaves ids 1..N in position order |
| Loans.ApplyThenStep | main.py:36-53 | applying the first discount and then the rest: its failure stops the loop, otherwise the rest run on the new schedule at the reduced rate |
| Loans.SumOfDiscountsAppend | main.py:42 | the rate reductions of consecutive runs of discounts add up |
| Loans.TotalRepayment | main.py:20-21 | no contract of its own: the sum of the repayments (also main.py:56), which Loans.TotalsSplit makes additive |
| Loans.TotalInterest | main.py:22-23 | no contract of its own: the sum of the interests (also main.py:57), which Loans.TotalsSplit makes additive |
| Loans.TotalsSplit | main.py:55-56 | the repayment and interest totals of a concatenation are the sums of the parts' totals |
| Loans.DiscountImpactFromRebuiltPart | main.py:55-58 | when a prefix is kept, the impact is the difference of the rebuilt parts' totals alone |
| Loans.ApplyDiscountsInTurn | main.py:34-53 | the loop over the discounts yields exactly the discounts applied in order, stopping at the first failure; the final rate is the starting rate less the sum of the discounts; no discounts leave schedule and rate as they are |
| Loans.NextDiscount | main.py:37-53 | one turn of the loop: when the discounts from i on yield some outcome, a failure of the i-th discount is that outcome; otherwise the discounts from i+1 on, applied to the new schedule at the reduced rate, yield the same outcome |
| Loans.DiscountStep | main.py:37-53 | the loop body (filter, two lookups, rebuild, concatenate, renumber) yields exactly one discount's specification, including its IndexError and builder failures |
| Loans.Loan.constructor | main.py:6-23 | the loan keeps its terms, and the schedule and repayment amount of the opening scenario; current and initial schedules and totals coincide, each total being the sum over the schedule |
| Loans.Loan.Open | main.py:15-18 | opening succeeds exactly when the builder does and fails with its error; the new loan holds the builder's scenario at the initial rate |
| Loans.Loan.CalculateDiscountImpact | main.py:33-59 | on success the schedule is the discounts applied in order, the rate is lowered by their sum, the totals are recomputed, and the impact is round(initial total - new total, 2); on failure nothing changes; no discounts change nothing; the initial schedule and totals never change |

## Left out

- The terminal session of `main.py` is not modelled: prompts, input checks, parsing the discount text, the y/n flow (main.py:61-129), and `__repr__` and `print_repayment_schedule` (main.py:25-31). They are I/O and presentation.
- Dates as text (`strptime`/`strftime` with `%d/%m/%Y`) are not modelled. Dates are parsed records, and the text form belongs to the caller. In particular, the reparse of a formatted date inside `adjust_repayment_amount` is taken as the identity.
- Money is exact `real` arithmetic. IEEE double rounding, and ties that doubles cannot represent exactly, are not modelled. `round(x, 2)` is half-to-even on the exact value.
- Exponents and counts are Python integers. `number_of_repayments` is a `nat`, so negative counts (an empty `range`) are outside the model. Under positional ids the remaining count after a discount is never negative.
- `calculate_pmt`'s `type` argument is a boolean `due` (`type == 1`). No other values are passed by the code.
- `adjust_repayment_amount` pops the caller's list in place. The model works on values, because the caller discards the list afterwards and the mutation cannot be observed.
- The dictionaries of a schedule are shared between the old and the new schedule, and the renumbering loop rewrites ids in place. The model builds new values instead. This is not observable, because a kept prefix entry already has the id the loop writes (Loans.RenumberedKeepsPrefix).
- Loans.ApplyDiscount and the discount members require positional ids (entry k has id k+1). Every schedule the builder and the renumbering produce has them (Loan.Valid), so the filter `id <= month` and the list lookups agree.
- Python `datetime` limits years to 1 to 9999. Dates outside them are not representable here either, and crossing them is an error (`DateOverflow`, `YearOutOfRange`).
- Calling the same function twice with the same terms gives the same result, because every specification function is a function. No lemma states this.
