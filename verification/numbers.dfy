/**
 * Numeric primitives the three copies of the goal value mapper rely on:
 * `Math.min`/`Math.max` and PHP's `min`/`max` on finite numbers, and the two
 * rounding functions, JavaScript's `Math.round` and PHP's `round`.
 * Numbers are modelled as exact reals, not IEEE-754 doubles.
 */
module Numbers {

  /** The smaller of two numbers (`Math.min`, PHP `min`). */
  function Min(x: real, y: real): (r: real)
    ensures r <= x && r <= y
    ensures r == x || r == y
  {
    if x <= y then x else y
  }

  /** The larger of two numbers (`Math.max`, PHP `max`). */
  function Max(x: real, y: real): (r: real)
    ensures r >= x && r >= y
    ensures r == x || r == y
  {
    if x <= y then y else x
  }

  /** JavaScript's `Math.round`: the nearest integer, halves go toward +infinity. */
  function JsRound(x: real): (r: int)
    ensures r as real - 0.5 <= x < r as real + 0.5
  {
    (x + 0.5).Floor
  }

  /** PHP's `round` with no precision: the nearest integer, halves go away from zero. */
  function PhpRound(x: real): (r: int)
    ensures x >= 0.0 ==> r as real - 0.5 <= x < r as real + 0.5
    ensures x < 0.0 ==> r as real - 0.5 < x <= r as real + 0.5
  {
    if x >= 0.0 then (x + 0.5).Floor else -((-x + 0.5).Floor)
  }

  /** On non-negative numbers the two rounding functions agree. */
  lemma RoundsAgreeOnNonNegative(x: real)
    requires x >= 0.0
    ensures JsRound(x) == PhpRound(x)
  {
  }

  /** On a negative half they do not: the agreement above needs x >= 0. */
  lemma RoundsDisagreeOnNegativeHalf()
    ensures JsRound(-2.5) == -2
    ensures PhpRound(-2.5) == -3
  {
  }

  /** Rounding a number in [0, 100] yields an integer in [0, 100]. */
  lemma RoundPercentInRange(x: real)
    requires 0.0 <= x <= 100.0
    ensures 0 <= JsRound(x) <= 100
    ensures 0 <= PhpRound(x) <= 100
  {
  }

  /**
   * Rounding p and its complement 100 - p: the two rounded values sum to 100,
   * except at an exact half, where both halves round up and the sum is 101.
   */
  lemma RoundComplement(p: real)
    ensures JsRound(100.0 - p) + JsRound(p) == 100 || JsRound(100.0 - p) + JsRound(p) == 101
    ensures JsRound(100.0 - p) + JsRound(p) == 101 <==> p - p.Floor as real == 0.5
  {
    var f := p.Floor;
    var t := p - f as real;
    if t < 0.5 {
      FloorIs(p + 0.5, f);
      FloorIs(100.0 - p + 0.5, 100 - f);
    } else if t == 0.5 {
      FloorIs(p + 0.5, f + 1);
      FloorIs(100.0 - p + 0.5, 100 - f);
    } else {
      FloorIs(p + 0.5, f + 1);
      FloorIs(100.0 - p + 0.5, 99 - f);
    }
  }

  /** The floor of x is the integer k with k <= x < k + 1. */
  lemma FloorIs(x: real, k: int)
    requires k as real <= x < k as real + 1.0
    ensures x.Floor == k
  {
  }

  /**
   * The unclamped percentage (x - lo) / (hi - lo) * 100 scales back to x - lo,
   * and for lo < hi it is at most 0 at or below lo and at least 100 at or above hi.
   */
  lemma ScaledRatio(x: real, lo: real, hi: real)
    requires lo != hi
    ensures (x - lo) / (hi - lo) * 100.0 * (hi - lo) == (x - lo) * 100.0
    ensures lo < hi && x <= lo ==> (x - lo) / (hi - lo) * 100.0 <= 0.0
    ensures lo < hi && x >= hi ==> (x - lo) / (hi - lo) * 100.0 >= 100.0
    ensures lo <= x <= hi ==> 0.0 <= (x - lo) / (hi - lo) * 100.0 <= 100.0
  {
    Quotient(x - lo, hi - lo);
    if lo <= x <= hi {
      Quotient(hi - x, hi - lo);
      assert (x - lo) / (hi - lo) + (hi - x) / (hi - lo) == 1.0;
    }
  }

  /** Scaling by a non-negative factor keeps the order. */
  lemma ProductMonotone(k: real, u: real, v: real)
    requires k >= 0.0 && u <= v
    ensures k * u <= k * v
  {
    if k > 0.0 && u < v {
      ProductPositive(k, v - u);
    }
  }

  /** What is left of k after taking p percent of it shrinks as p grows. */
  lemma RemainderAntitone(k: real, p1: real, p2: real, rest1: real, rest2: real)
    requires k >= 0.0 && p1 <= p2
    requires rest1 + k * p1 / 100.0 == k && rest2 + k * p2 / 100.0 == k
    ensures rest2 <= rest1
  {
    ProductMonotone(k, p1, p2);
  }

  /** n / d for d > 0: its product with d is n, it is <= 0 for n <= 0 and >= 1 for n >= d. */
  lemma Quotient(n: real, d: real)
    requires d != 0.0
    ensures n / d * d == n
    ensures d > 0.0 && n <= 0.0 ==> n / d <= 0.0
    ensures d > 0.0 && n >= d ==> n / d >= 1.0
    ensures d > 0.0 && n >= 0.0 ==> n / d >= 0.0
  {
    var q := n / d;
    if d > 0.0 && n <= 0.0 && q > 0.0 {
      ProductPositive(q, d);
    }
    if d > 0.0 && n >= 0.0 && q < 0.0 {
      ProductPositive(-q, d);
    }
    if d > 0.0 && n >= d && q < 1.0 {
      ProductBelow(q, d);
    }
  }

  lemma ProductPositive(u: real, v: real)
    requires u > 0.0 && v > 0.0
    ensures u * v > 0.0
  {
  }

  lemma ProductBelow(u: real, v: real)
    requires u < 1.0 && v > 0.0
    ensures u * v < v
  {
  }

  /** For lo < hi the unclamped percentage grows with x. */
  lemma ScaledRatioMonotone(x1: real, x2: real, lo: real, hi: real)
    requires lo < hi && x1 <= x2
    ensures (x1 - lo) / (hi - lo) * 100.0 <= (x2 - lo) / (hi - lo) * 100.0
  {
    assert (x2 - lo) / (hi - lo) - (x1 - lo) / (hi - lo) == (x2 - x1) / (hi - lo);
  }
}
