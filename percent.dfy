/**
 * `Math.round(a / b * 100)`-style percentages on exact integers. The pages
 * compute these in floating point; here the quotient is exact and rounding is
 * to the nearest integer with halves going up, as `Math.round` does.
 */
module Percent {
  /** `Math.round(a / b)` for a positive divisor. */
  function RoundDiv(a: int, b: int): (r: int)
    requires b > 0
    ensures 2 * a - b < 2 * b * r <= 2 * a + b
  {
    (2 * a + b) / (2 * b)
  }

  /** A rounded share `a` of `b` lies between 0 and 100 percent. */
  lemma RoundedShareInRange(a: int, b: int)
    requires 0 <= a <= b && b > 0
    ensures 0 <= RoundDiv(100 * a, b) <= 100
  {
    var r := RoundDiv(100 * a, b);
    assert 2 * r * b <= 200 * a + b <= 201 * b;
    CancelPositive(b, 2 * r, 202);
    assert -1 * b <= 200 * a - b < 2 * r * b;
    CancelPositive(b, -1, 2 * r);
  }

  /** Dividing both sides of a strict inequality by a positive factor. */
  lemma CancelPositive(b: int, x: int, y: int)
    requires b > 0 && x * b < y * b
    ensures x < y
  {
  }

  /** The rounded share is 100 exactly when everything counts, and 0 when nothing does. */
  lemma RoundedShareExtremes(a: int, b: int)
    requires 0 <= a <= b && b > 0
    ensures a == b ==> RoundDiv(100 * a, b) == 100
    ensures a == 0 ==> RoundDiv(100 * a, b) == 0
  {
    var r := RoundDiv(100 * a, b);
    if a == b {
      CancelPositive(b, 199, 2 * r);
      CancelPositive(b, 2 * r, 202);
    }
    if a == 0 {
      CancelPositive(b, -1, 2 * r);
      CancelPositive(b, 2 * r, 2);
    }
  }

  /** Rounding is monotone in the numerator. */
  lemma RoundDivMonotone(a: int, a': int, b: int)
    requires b > 0 && a <= a'
    ensures RoundDiv(a, b) <= RoundDiv(a', b)
  {
    var r, r' := RoundDiv(a, b), RoundDiv(a', b);
    assert (r - r') * (2 * b) < 1 * (2 * b);
    CancelPositive(2 * b, r - r', 1);
  }
}
