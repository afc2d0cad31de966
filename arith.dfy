/** Facts about multiplication and Euclidean division on naturals that the solver does not find unaided. */
module Arith {

  lemma MulMonotone(k: nat, a: nat, b: nat)
    requires a <= b
    ensures k * a <= k * b
  {
  }

  lemma MulStrict(k: nat, x: nat, y: nat)
    requires k * x < k * y
    ensures x < y
  {
    if x >= y {
      MulMonotone(k, y, x);
    }
  }

  /** Euclidean division has one quotient and one remainder: n == d * q + r with 0 <= r < d fixes both. */
  lemma DivModUnique(n: nat, d: nat, q: nat, r: nat)
    requires d > 0 && r < d && n == d * q + r
    ensures n / d == q && n % d == r
  {
    var q' := n / d;
    assert n == d * q' + n % d;
    if q' < q {
      MulMonotone(d, q' + 1, q);
    } else if q' > q {
      MulMonotone(d, q + 1, q');
    }
  }

  lemma DivMonotone(a: nat, b: nat, d: nat)
    requires a <= b && d > 0
    ensures a / d <= b / d
  {
    assert d * (a / d) <= a && b < d * (b / d) + d;
    assert d * (b / d) + d == d * (b / d + 1);
    MulStrict(d, a / d, b / d + 1);
  }
}
