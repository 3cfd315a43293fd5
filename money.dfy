/**
 * Integer money arithmetic of the royalty contract. Amounts are wei,
 * unbounded naturals; every ratio is a multiply followed by a floor division.
 */
module Money {

  /** floor(amount * numerator / denominator) */
  function PercentageOf(amount: nat, numerator: nat, denominator: nat): (r: nat)
    requires denominator > 0
    ensures r * denominator <= amount * numerator < r * denominator + denominator
  {
    amount * numerator / denominator
  }

  /** A ratio of one never loses anything to rounding. */
  lemma WholeRatio(amount: nat, weight: nat)
    requires weight > 0
    ensures PercentageOf(amount, weight, weight) == amount
  {
    var r := PercentageOf(amount, weight, weight);
    assert (amount - r) * weight == amount * weight - r * weight;
    OnlyZeroFitsBelow(amount - r, weight);
  }

  /** A ratio at most one never yields more than the amount. */
  lemma PartAtMostWhole(amount: nat, numerator: nat, denominator: nat)
    requires 0 < denominator && numerator <= denominator
    ensures PercentageOf(amount, numerator, denominator) <= amount
  {
  }

  /** The only multiple of w in [0, w) is zero. */
  lemma OnlyZeroFitsBelow(k: int, w: int)
    requires w > 0 && 0 <= k * w < w
    ensures k == 0
  {
  }

  /** Adding two scaled bounds: a*t <= n*x and b*t <= n*y give (a+b)*t <= n*(x+y). */
  lemma AddScaledBounds(a: nat, b: nat, t: nat, n: nat, x: nat, y: nat)
    requires a * t <= n * x && b * t <= n * y
    ensures (a + b) * t <= n * (x + y)
  {
    assert (a + b) * t == a * t + b * t;
    assert n * (x + y) == n * x + n * y;
  }

  /** From a*t <= n*w and w <= t, with t positive, follows a <= n. */
  lemma ScaledBelowWhole(a: nat, n: nat, w: nat, t: nat)
    requires t > 0 && w <= t && a * t <= n * w
    ensures a <= n
  {
    assert n * w <= n * t;
    assert (a - n) * t <= 0;
  }
}
