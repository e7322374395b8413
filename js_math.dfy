/** The two numeric helpers of the instrument: the clamp written as
    `Math.min(Math.max(value, min), max)` and `Math.round` on rationals. */
module JsMath {

  /** `Math.min(Math.max(value, min), max)`: when `min > max` the result is `max`. */
  function Clamp(value: real, min: real, max: real): (r: real)
    ensures min <= max ==> min <= r <= max
    ensures min <= value <= max ==> r == value
    ensures value < min ==> r == (if min <= max then min else max)
    ensures value > max ==> r == max
  {
    var lower := if value > min then value else min;
    if lower < max then lower else max
  }

  /** Clamping is monotone in the clamped value. */
  lemma ClampMonotone(a: real, b: real, min: real, max: real)
    requires a <= b
    ensures Clamp(a, min, max) <= Clamp(b, min, max)
  {
  }

  /** `Math.round(a / b)` for a non-negative numerator and a positive
      denominator: halves round up. */
  function RoundDiv(a: nat, b: nat): (r: nat)
    requires b > 0
    ensures 2 * a < (2 * r + 1) * b
    ensures (2 * r - 1) * b <= 2 * a
  {
    (2 * a + b) / (2 * b)
  }

  /** Rounding a quotient is monotone in the numerator. */
  lemma RoundDivMonotone(a: nat, a': nat, b: nat)
    requires b > 0 && a <= a'
    ensures RoundDiv(a, b) <= RoundDiv(a', b)
  {
    DivMonotone(2 * a + b, 2 * a' + b, 2 * b);
  }

  lemma DivMonotone(x: nat, y: nat, d: nat)
    requires d > 0 && x <= y
    ensures x / d <= y / d
  {
    assert d * (x / d) <= x;
    assert y < d * (y / d + 1);
    if x / d > y / d {
      MulMonotone(d, y / d + 1, x / d);
    }
  }

  lemma MulMonotone(d: nat, p: nat, q: nat)
    requires p <= q
    ensures d * p <= d * q
  {
  }

  /** Division by `d` recovers the quotient of `q * d + r` for a small remainder. */
  lemma DivPlusSmall(q: nat, d: nat, r: nat)
    requires 0 <= r < d
    ensures (q * d + r) / d == q
  {
    var x := q * d + r;
    var q' := x / d;
    var r' := x % d;
    assert x == q' * d + r';
    if q' < q {
      MulMonotone(d, q' + 1, q);
    } else if q' > q {
      MulMonotone(d, q + 1, q');
    }
  }

  /** A rounded quotient of at most `c * b` by `b` is at most `c`. */
  lemma RoundDivAtMost(a: nat, b: nat, c: nat)
    requires b > 0 && a <= b * c
    ensures RoundDiv(a, b) <= c
  {
    DivMonotone(2 * a + b, c * (2 * b) + b, 2 * b);
    DivPlusSmall(c, 2 * b, b);
  }

  /** Rounding an exact quotient gives it back. */
  lemma RoundDivExact(c: nat, b: nat)
    requires b > 0
    ensures RoundDiv(c * b, b) == c
  {
    assert 2 * (c * b) + b == c * (2 * b) + b;
    DivPlusSmall(c, 2 * b, b);
  }

  /** `Math.round(s / m * t)` for `0 <= s <= m` lies in `0..t` and hits both
      ends exactly. */
  lemma RoundDivScaled(s: nat, t: nat, m: nat)
    requires m > 0
    ensures s <= m ==> RoundDiv(s * t, m) <= t
    ensures s == m ==> RoundDiv(s * t, m) == t
    ensures s == 0 ==> RoundDiv(s * t, m) == 0
  {
    if s <= m {
      MulMonotone(t, s, m);
      assert t * s == s * t && t * m == m * t;
      RoundDivAtMost(s * t, m, t);
    }
    if s == m {
      assert s * t == t * m;
      RoundDivExact(t, m);
    }
  }
}
