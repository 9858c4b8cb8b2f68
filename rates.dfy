/** The rate converter and the payment formula of the engine. */
module Rates {
  import opened Outcomes
  import opened Frequency
  import opened Money

  /** The day-count basis: an annual rate spread over 365 days, whatever the
      repayment frequency. */
  function DailyRate(annualRate: real): (r: real)
    ensures 365.0 * r == annualRate
  {
    annualRate / 365.0
  }

  /** The per-period rate for a repayment frequency: a twelfth of the annual
      rate for monthly loans, and for fortnightly and weekly loans the daily
      rate accrued over the 14 or 7 days of the period. */
  function ConvertInterestRateToFrequency(annualRate: real, frequency: string): (r: Result<real>)
    ensures r.Ok? <==> Supported(frequency)
    ensures r.Err? ==> r.error == InvalidFrequency
    ensures frequency == MONTHLY ==> r.Ok? && 12.0 * r.value == annualRate
    ensures frequency == FORTNIGHTLY ==> r.Ok? && r.value == 14.0 * DailyRate(annualRate)
    ensures frequency == WEEKLY ==> r.Ok? && r.value == 7.0 * DailyRate(annualRate)
  {
    if frequency == MONTHLY then Ok(annualRate / 12.0)
    else if frequency == FORTNIGHTLY then Ok(annualRate / 365.0 * 14.0)
    else if frequency == WEEKLY then Ok(annualRate / 365.0 * 7.0)
    else Err(InvalidFrequency)
  }

  /** The formula divides by zero: either 0.0 ** -n with n > 0, or a
      denominator 1 - (1 + rate) ** -n equal to 0. */
  predicate PaymentUndefined(rate: real, periods: nat) {
    (periods > 0 && 1.0 + rate == 0.0) || Pow(1.0 + rate, periods) == 1.0
  }

  /** The unrounded annuity payment pv * rate / (1 - (1 + rate) ** -periods),
      divided by (1 + rate) when payments fall due at the start of a period. */
  function RawPayment(rate: real, periods: nat, presentValue: real, due: bool): real
    requires !PaymentUndefined(rate, periods)
  {
    PowNonZero(1.0 + rate, periods);
    var growth := Pow(1.0 + rate, periods);
    var payment := presentValue * rate / (1.0 - 1.0 / growth);
    if due then payment / (1.0 + rate) else payment
  }

  /** calculate_pmt: the annuity payment rounded to the cent, or the
      ZeroDivisionError the formula raises. */
  function CalculatePmt(rate: real, periods: nat, presentValue: real, due: bool): (r: Result<real>)
    ensures r.Err? <==> PaymentUndefined(rate, periods)
    ensures r.Err? ==> r.error == ZeroDivision
    ensures r.Ok? ==> IsCents(r.value)
  {
    if periods > 0 && 1.0 + rate == 0.0 then Err(ZeroDivision)
    else
      var growth := Pow(1.0 + rate, periods);
      PowNonZero(1.0 + rate, periods);
      var denominator := 1.0 - 1.0 / growth;
      if denominator == 0.0 then Err(ZeroDivision)
      else
        var payment := presentValue * rate / denominator;
        var payment' := if due then payment / (1.0 + rate) else payment;
        Ok(Round2(payment'))
  }

  /** A computed payment is the exact annuity payment rounded to the cent. */
  lemma PaymentIsRoundedAnnuity(rate: real, periods: nat, presentValue: real, due: bool)
    requires CalculatePmt(rate, periods, presentValue, due).Ok?
    ensures !PaymentUndefined(rate, periods)
    ensures CalculatePmt(rate, periods, presentValue, due).value == Round2(RawPayment(rate, periods, presentValue, due))
  {
  }

  /** The formula needs at least one period and a non-zero rate; for a rate
      above -100% those suffice. */
  lemma PaymentNeedsPeriodsAndRate(rate: real, periods: nat, presentValue: real, due: bool)
    ensures periods == 0 ==> CalculatePmt(rate, periods, presentValue, due) == Err(ZeroDivision)
    ensures rate == 0.0 ==> CalculatePmt(rate, periods, presentValue, due) == Err(ZeroDivision)
    ensures periods >= 1 && rate > -1.0 && rate != 0.0 ==> CalculatePmt(rate, periods, presentValue, due).Ok?
  {
    if rate == 0.0 {
      PowOfOne(periods);
    }
    if periods >= 1 && rate > 0.0 {
      PowAboveOne(1.0 + rate, periods);
    }
    if periods >= 1 && -1.0 < rate < 0.0 {
      PowBelowOne(1.0 + rate, periods);
    }
  }

  lemma {:induction false} PowOfOne(n: nat)
    ensures Pow(1.0, n) == 1.0
  {
    if n > 0 {
      PowOfOne(n - 1);
    }
  }

  /** The balance of a loan of `presentValue` after `k` periods at `rate` when
      `payment` is made at the start of each period. */
  function BalanceAfterDuePayments(presentValue: real, rate: real, payment: real, k: nat): real {
    if k == 0 then presentValue
    else (BalanceAfterDuePayments(presentValue, rate, payment, k - 1) - payment) * (1.0 + rate)
  }

  /** The balance of a loan of `presentValue` after `k` periods at `rate` when
      `payment` is made at the end of each period. */
  function BalanceAfterPayments(presentValue: real, rate: real, payment: real, k: nat): real {
    if k == 0 then presentValue
    else BalanceAfterPayments(presentValue, rate, payment, k - 1) * (1.0 + rate) - payment
  }

  /** Closed form of the balance after k end-of-period payments, scaled by the rate. */
  lemma {:induction false} BalanceClosedForm(presentValue: real, rate: real, payment: real, k: nat)
    ensures rate * BalanceAfterPayments(presentValue, rate, payment, k)
         == rate * presentValue * Pow(1.0 + rate, k) - payment * (Pow(1.0 + rate, k) - 1.0)
  {
    if k > 0 {
      BalanceClosedForm(presentValue, rate, payment, k - 1);
      ClosedFormStep(presentValue, rate, payment,
                     BalanceAfterPayments(presentValue, rate, payment, k - 1), Pow(1.0 + rate, k - 1),
                     BalanceAfterPayments(presentValue, rate, payment, k), Pow(1.0 + rate, k));
    } else {
      assert Pow(1.0 + rate, k) == 1.0;
    }
  }

  /** One period of the closed form, on plain numbers: from balance b and
      growth x after k - 1 periods to balance b' and growth x' after k. */
  lemma ClosedFormStep(presentValue: real, rate: real, payment: real, b: real, x: real, b': real, x': real)
    requires rate * b == rate * presentValue * x - payment * (x - 1.0)
    requires b' == b * (1.0 + rate) - payment && x' == (1.0 + rate) * x
    ensures rate * b' == rate * presentValue * x' - payment * (x' - 1.0)
  {
    var q := 1.0 + rate;
    calc {
      rate * (b * q - payment);
      (rate * b) * q - rate * payment;
      (rate * presentValue * x - payment * (x - 1.0)) * q - rate * payment;
      rate * presentValue * (q * x) - payment * (q * x) + payment * (q - rate);
      rate * presentValue * (q * x) - payment * (q * x - 1.0);
    }
  }

  /** Paying p at the start of a period is paying p * (1 + rate) at its end. */
  lemma {:induction false} DueIsDeferredOrdinary(presentValue: real, rate: real, payment: real, k: nat)
    ensures BalanceAfterDuePayments(presentValue, rate, payment, k)
         == BalanceAfterPayments(presentValue, rate, payment * (1.0 + rate), k)
  {
    if k > 0 {
      DueIsDeferredOrdinary(presentValue, rate, payment, k - 1);
    }
  }

  /** The unrounded payment amortizes the present value exactly: after
      `periods` payments the balance is zero, for ordinary and due timing. */
  lemma AnnuityAmortizes(rate: real, periods: nat, presentValue: real)
    requires !PaymentUndefined(rate, periods)
    ensures BalanceAfterPayments(presentValue, rate, RawPayment(rate, periods, presentValue, false), periods) == 0.0
    ensures BalanceAfterDuePayments(presentValue, rate, RawPayment(rate, periods, presentValue, true), periods) == 0.0
  {
    var x := Pow(1.0 + rate, periods);
    PowNonZero(1.0 + rate, periods);
    assert rate != 0.0 by { if rate == 0.0 { PowOfOne(periods); } }
    var ordinary := RawPayment(rate, periods, presentValue, false);
    var due := RawPayment(rate, periods, presentValue, true);
    AnnuityPaymentAlgebra(rate, presentValue, x, ordinary, due);
    BalanceClosedForm(presentValue, rate, ordinary, periods);
    ZeroFactor(rate, BalanceAfterPayments(presentValue, rate, ordinary, periods));
    DueIsDeferredOrdinary(presentValue, rate, due, periods);
  }

  /** The payments on plain numbers: with growth x, the ordinary payment
      clears rate * pv * x - p * (x - 1), and the due payment is the
      ordinary one discounted by a period. */
  lemma AnnuityPaymentAlgebra(rate: real, presentValue: real, x: real, ordinary: real, due: real)
    requires rate != 0.0 && x != 0.0 && x != 1.0 && 1.0 + rate != 0.0
    requires ordinary == presentValue * rate / (1.0 - 1.0 / x)
    requires due == ordinary / (1.0 + rate)
    ensures rate * presentValue * x - ordinary * (x - 1.0) == 0.0
    ensures due * (1.0 + rate) == ordinary
  {
    assert 1.0 - 1.0 / x == (x - 1.0) / x;
    assert ordinary * (x - 1.0) == presentValue * rate * x;
  }

  lemma ZeroFactor(a: real, b: real)
    requires a != 0.0 && a * b == 0.0
    ensures b == 0.0
  {
  }
}
