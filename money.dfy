/** Money as exact reals, with the two-decimal rounding the engine applies
    and the integer powers used by the annuity formula. */
module Money {

  function Abs(x: real): (r: real)
    ensures r >= 0.0 && (r == x || r == -x)
  {
    if x < 0.0 then -x else x
  }

  /** x is a whole number of cents. */
  predicate IsCents(x: real) {
    (x * 100.0).Floor as real == x * 100.0
  }

  /** x is an even number of cents. */
  predicate IsEvenCents(x: real) {
    IsCents(x) && (x * 100.0).Floor % 2 == 0
  }

  /** Python's round(x, 2): to the nearest cent, ties to the even cent. */
  function Round2(x: real): (r: real)
    ensures IsCents(r)
    ensures -0.005 <= r - x <= 0.005
    ensures (r - x == 0.005 || x - r == 0.005) ==> IsEvenCents(r)
  {
    var scaled := x * 100.0;
    var whole := scaled.Floor;
    var fraction := scaled - whole as real;
    var cents :=
      if fraction < 0.5 then whole
      else if fraction > 0.5 then whole + 1
      else if whole % 2 == 0 then whole
      else whole + 1;
    var r := cents as real / 100.0;
    assert r * 100.0 == cents as real && (r * 100.0).Floor == cents;
    assert r - x == (cents as real - scaled) / 100.0;
    assert cents as real - scaled == 0.5 || scaled - cents as real == 0.5 ==> fraction == 0.5 && cents % 2 == 0;
    r
  }

  /** Rounding a whole number of cents changes nothing; in particular
      Round2 is idempotent. */
  lemma Round2OfCents(x: real)
    requires IsCents(x)
    ensures Round2(x) == x
  {
  }

  lemma Round2Idempotent(x: real)
    ensures Round2(Round2(x)) == Round2(x)
  {
    Round2OfCents(Round2(x));
  }

  function Pow(base: real, n: nat): real {
    if n == 0 then 1.0 else base * Pow(base, n - 1)
  }

  lemma {:induction false} PowNonZero(base: real, n: nat)
    requires base != 0.0 || n == 0
    ensures Pow(base, n) != 0.0
  {
    if n > 0 {
      PowNonZero(base, n - 1);
    }
  }

  lemma {:induction false} PowAboveOne(base: real, n: nat)
    requires base > 1.0 && n >= 1
    ensures Pow(base, n) > 1.0
  {
    if n > 1 {
      PowAboveOne(base, n - 1);
      assert base * Pow(base, n - 1) > 1.0 * Pow(base, n - 1);
    }
  }

  lemma {:induction false} PowBelowOne(base: real, n: nat)
    requires 0.0 < base < 1.0 && n >= 1
    ensures 0.0 < Pow(base, n) < 1.0
  {
    if n > 1 {
      PowBelowOne(base, n - 1);
      assert base * Pow(base, n - 1) < 1.0 * Pow(base, n - 1);
    }
  }
}
