/** Python's `round(x, digits)`, taken on exact real numbers. */
module Rounding {

  /** 10 to the power `d`. */
  function Pow10(d: nat): (p: nat)
    ensures p >= 1
  {
    if d == 0 then 1 else 10 * Pow10(d - 1)
  }

  /** `x` in units of 10^-digits. */
  function Scaled(x: real, digits: nat): real
  {
    x * Pow10(digits) as real
  }

  /** The integer nearest to `s`, ties going to the even neighbour
      (Python rounds halves to even). */
  function NearestEven(s: real): (k: int)
    ensures -0.5 <= k as real - s <= 0.5
    ensures k as real - s == 0.5 || s - k as real == 0.5 ==> k % 2 == 0
    ensures k > 0 <==> s > 0.5
  {
    var f := s.Floor;
    var frac := s - f as real;
    if frac > 0.5 then f + 1
    else if frac < 0.5 then f
    else if f % 2 == 0 then f
    else f + 1
  }

  /** `round(x, digits)`: the multiple of 10^-digits nearest to `x`, halves to even. */
  function RoundHalfEven(x: real, digits: nat): (r: real)
    ensures -0.5 <= Scaled(r, digits) - Scaled(x, digits) <= 0.5
    ensures Scaled(r, digits) == Scaled(r, digits).Floor as real
    ensures Scaled(r, digits) - Scaled(x, digits) == 0.5 || Scaled(x, digits) - Scaled(r, digits) == 0.5
            ==> Scaled(r, digits).Floor % 2 == 0
  {
    var k := NearestEven(Scaled(x, digits));
    var unit := Pow10(digits) as real;
    ScaleBack(k as real, unit);
    assert Scaled(k as real / unit, digits) == k as real;
    assert (k as real).Floor == k;
    k as real / unit
  }

  /** A rounded value is positive exactly when `x` lies above half a unit in the last
      place: a positive `x` of at most 0.5 * 10^-digits rounds to zero. */
  lemma RoundedPositive(x: real, digits: nat)
    ensures RoundHalfEven(x, digits) > 0.0 <==> Scaled(x, digits) > 0.5
  {
    var k := NearestEven(Scaled(x, digits));
    assert RoundHalfEven(x, digits) == k as real / Pow10(digits) as real;
    QuotientSign(k as real, Pow10(digits) as real);
  }

  lemma ScaleBack(n: real, p: real)
    requires p >= 1.0
    ensures (n / p) * p == n
  {
  }

  lemma QuotientSign(n: real, p: real)
    requires p >= 1.0
    ensures n / p > 0.0 <==> n > 0.0
  {
    var q := n / p;
    assert q * p == n;
    if q > 0.0 {
      assert q * p >= q * 1.0;
    } else {
      assert q * p <= q * 1.0;
    }
  }
}
