/** Real-number helpers shared by the scoring and refund models: clipping as
    pandas `clip` does it, and decimal rounding as numpy `round` does it
    (round half to even after scaling by a power of ten). */
module Numeric {

  function Max(a: real, b: real): real {
    if a >= b then a else b
  }

  function Min(a: real, b: real): real {
    if a <= b then a else b
  }

  /** `Series.clip(lower=lo, upper=hi)` on one value. */
  function Clip(x: real, lo: real, hi: real): (r: real)
    requires lo <= hi
    ensures lo <= r <= hi
    ensures lo <= x <= hi ==> r == x
  {
    if x < lo then lo else if x > hi then hi else x
  }

  lemma ClipMonotone(x: real, y: real, lo: real, hi: real)
    requires lo <= hi && x <= y
    ensures Clip(x, lo, hi) <= Clip(y, lo, hi)
  {
  }

  /** The product of two non-negative numbers is non-negative. */
  lemma MulNonneg(a: real, b: real)
    requires a >= 0.0 && b >= 0.0
    ensures a * b >= 0.0
  {
  }

  /** Multiplying by a non-negative factor keeps an inequality. */
  lemma MulMonotone(r: real, a: real, b: real)
    requires r >= 0.0 && a <= b
    ensures r * a <= r * b
  {
    MulNonneg(r, b - a);
    assert r * b - r * a == r * (b - a);
  }

  /** A non-negative quotient shrinks as its divisor grows. */
  lemma DivByLarger(c: real, a: real, b: real)
    requires c >= 0.0 && 0.0 < a <= b
    ensures c / b <= c / a
  {
    assert (c / b) * b == c;
    assert (c / a) * a == c;
    MulMonotone(c / b, a, b);
  }

  /** Dividing by a positive number keeps the order of numerators. */
  lemma DivMonotone(a1: real, a2: real, d: real)
    requires a1 <= a2 && d > 0.0
    ensures a1 / d <= a2 / d
  {
    assert a2 / d - a1 / d == (a2 - a1) / d;
  }

  /** The product of two positive numbers is positive. */
  lemma MulPos(a: real, b: real)
    requires a > 0.0 && b > 0.0
    ensures a * b > 0.0
  {
  }

  /** A factor that scales a positive number to at most itself is at most one. */
  lemma ScaleBack(q: real, w: real)
    requires w > 0.0 && 0.0 <= q * w <= w
    ensures 0.0 <= q <= 1.0
  {
  }

  /** A part over its whole lies in [0,1], is positive for a positive part,
      and scales back to the part. */
  lemma PartOverWhole(part: real, whole: real)
    requires 0.0 <= part <= whole && whole > 0.0
    ensures 0.0 <= part / whole <= 1.0
    ensures part > 0.0 ==> part / whole > 0.0
    ensures part / whole * whole == part
  {
    var q := part / whole;
    assert q * whole == part;
    ScaleBack(q, whole);
  }

  /** numpy `rint`: the nearest integer, ties going to the even neighbour. */
  function RoundHalfEven(x: real): (n: int)
    ensures x - 0.5 <= n as real <= x + 0.5
    ensures n as real - x == 0.5 || x - n as real == 0.5 ==> n % 2 == 0
  {
    var f := x.Floor;
    var d := x - f as real;
    if d < 0.5 then f
    else if d > 0.5 then f + 1
    else if f % 2 == 0 then f
    else f + 1
  }

  /** Rounding never reverses the order of two values. */
  lemma RoundHalfEvenMonotone(x: real, y: real)
    requires x <= y
    ensures RoundHalfEven(x) <= RoundHalfEven(y)
  {
  }

  /** An integer is its own rounding. */
  lemma RoundHalfEvenOfInteger(n: int)
    ensures RoundHalfEven(n as real) == n
  {
  }

  /** numpy `round(x, 2)`: scale by 100, round half to even, scale back. */
  function Round2(x: real): (r: real)
    ensures x - 0.005 <= r <= x + 0.005
    ensures (r * 100.0).Floor as real == r * 100.0
  {
    RoundHalfEven(x * 100.0) as real / 100.0
  }

  lemma Round2Monotone(x: real, y: real)
    requires x <= y
    ensures Round2(x) <= Round2(y)
  {
    RoundHalfEvenMonotone(x * 100.0, y * 100.0);
  }

  /** A whole number survives rounding to two decimals unchanged. */
  lemma Round2OfInteger(n: int)
    ensures Round2(n as real) == n as real
  {
    RoundHalfEvenOfInteger(n * 100);
    assert (n as real) * 100.0 == (n * 100) as real;
  }

  /** Rounding a value that lies between two whole numbers keeps it there. */
  lemma Round2Between(x: real, lo: int, hi: int)
    requires lo as real <= x <= hi as real
    ensures lo as real <= Round2(x) <= hi as real
  {
    Round2Monotone(lo as real, x);
    Round2Monotone(x, hi as real);
    Round2OfInteger(lo);
    Round2OfInteger(hi);
  }
}
