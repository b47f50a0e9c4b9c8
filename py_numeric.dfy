/**
 * Python's numeric built-ins used by the scorers, over exact reals:
 * `round(x, ndigits)` (round half to even at `ndigits` decimals), `min` and `max`.
 */
module PyNumeric {

  function Min(a: real, b: real): (m: real)
    ensures m <= a && m <= b && (m == a || m == b)
  {
    if a <= b then a else b
  }

  function Max(a: real, b: real): (m: real)
    ensures m >= a && m >= b && (m == a || m == b)
  {
    if a >= b then a else b
  }

  function Pow10(n: nat): (p: nat)
    ensures p >= 1
  {
    if n == 0 then 1 else 10 * Pow10(n - 1)
  }

  /** The integer nearest to `y`; a value exactly halfway between two integers goes to the even one. */
  function RoundHalfEven(y: real): (k: int)
    ensures k as real - 0.5 <= y <= k as real + 0.5
    ensures (y == k as real - 0.5 || y == k as real + 0.5) ==> k % 2 == 0
  {
    var f := y.Floor;
    var frac := y - f as real;
    if frac < 0.5 then f
    else if frac > 0.5 then f + 1
    else if f % 2 == 0 then f
    else f + 1
  }

  /** `x` expressed in units of 10^-digits. */
  function ScaleUp(x: real, digits: nat): real
  {
    x * Pow10(digits) as real
  }

  /** The value of `k` units of 10^-digits. */
  function ScaleDown(k: int, digits: nat): real
  {
    k as real / Pow10(digits) as real
  }

  /** `round(x, digits)`: the multiple of 10^-digits nearest to `x`, ties to the even multiple. */
  function Round(x: real, digits: nat): real
  {
    ScaleDown(RoundHalfEven(ScaleUp(x, digits)), digits)
  }

  lemma RoundHalfEvenMonotone(y1: real, y2: real)
    requires y1 <= y2
    ensures RoundHalfEven(y1) <= RoundHalfEven(y2)
  {
  }

  /** Rounding never reverses the order of two values (ties may merge). */
  lemma RoundMonotone(x: real, y: real, digits: nat)
    requires x <= y
    ensures Round(x, digits) <= Round(y, digits)
  {
    var p := Pow10(digits) as real;
    MulMonotone(x, y, p);
    RoundHalfEvenMonotone(ScaleUp(x, digits), ScaleUp(y, digits));
    var a, b := RoundHalfEven(ScaleUp(x, digits)), RoundHalfEven(ScaleUp(y, digits));
    DivMonotone(a as real, b as real, p);
  }

  /** Half a unit in the last of `digits` decimals. */
  function HalfUnit(digits: nat): (h: real)
    ensures 0.0 < h <= 0.5
  {
    0.5 / Pow10(digits) as real
  }

  /** Rounding to `digits` decimals moves a value by at most half a unit in the last place. */
  lemma RoundIsNearest(x: real, digits: nat)
    ensures -HalfUnit(digits) <= Round(x, digits) - x <= HalfUnit(digits)
  {
    var p := Pow10(digits) as real;
    var y := ScaleUp(x, digits);
    var k := RoundHalfEven(y) as real;
    var d := k - y;
    assert -0.5 <= d <= 0.5;
    assert Round(x, digits) == k / p;
    ShiftAfterDivision(k, x, p);
    assert Round(x, digits) - x == d / p;
    DivMonotone(-0.5, d, p);
    DivMonotone(d, 0.5, p);
    assert -0.5 / p == -(0.5 / p);
  }

  /** A value that already has at most `digits` decimals is left unchanged. */
  lemma RoundKeepsGridValue(x: real, digits: nat)
    requires ScaleUp(x, digits).Floor as real == ScaleUp(x, digits)
    ensures Round(x, digits) == x
  {
    var y := ScaleUp(x, digits);
    assert RoundHalfEven(y) == y.Floor;
  }

  /**
   * The result of rounding has at most `digits` decimals, so rounding it again changes nothing.
   */
  lemma RoundIdempotent(x: real, digits: nat)
    ensures ScaleUp(Round(x, digits), digits).Floor as real == ScaleUp(Round(x, digits), digits)
    ensures Round(Round(x, digits), digits) == Round(x, digits)
  {
    var p := Pow10(digits) as real;
    var k := RoundHalfEven(ScaleUp(x, digits));
    assert ScaleUp(Round(x, digits), digits) == (k as real / p) * p == k as real;
    RoundKeepsGridValue(Round(x, digits), digits);
  }

  lemma MulMonotone(x: real, y: real, p: real)
    requires x <= y && p > 0.0
    ensures x * p <= y * p
  {
  }

  lemma ShiftAfterDivision(k: real, x: real, p: real)
    requires p > 0.0
    ensures k / p - x == (k - x * p) / p
  {
  }

  lemma DivMonotone(a: real, b: real, p: real)
    requires a <= b && p > 0.0
    ensures a / p <= b / p
  {
  }
}
