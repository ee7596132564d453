/** Facts about products of reals that the solver does not find unaided. */
module RealArith {

  /** The product of two non-negative reals is non-negative. */
  lemma ProductNonneg(a: real, b: real)
    requires 0.0 <= a && 0.0 <= b
    ensures 0.0 <= a * b
  {
  }

  /**
   * `v * k`: a value scaled by a factor. Written as a function so that equal
   * scalings are recognised as equal terms without nonlinear reasoning.
   */
  function Scale(v: real, k: real): real
  {
    v * k
  }

  /** Scaling a number in [-1, 1] by a factor in [0, 1] keeps it in [-1, 1]. */
  lemma ScaledWithinUnit(v: real, k: real)
    requires -1.0 <= v <= 1.0 && 0.0 <= k <= 1.0
    ensures -1.0 <= Scale(v, k) <= 1.0
  {
    ProductNonneg(1.0 - v, k);
    ProductNonneg(1.0 + v, k);
  }

  /** Scaling a non-negative number by a factor in [0, 1] keeps it between 0 and itself. */
  lemma ScaledBetween(v: real, k: real)
    requires 0.0 <= v && 0.0 <= k <= 1.0
    ensures 0.0 <= Scale(v, k) <= v
    ensures k == 1.0 ==> Scale(v, k) == v
  {
    ProductNonneg(v, k);
    ProductNonneg(v, 1.0 - k);
  }

  /** The product of two positive reals is positive. */
  lemma ProductPositive(a: real, b: real)
    requires 0.0 < a && 0.0 < b
    ensures 0.0 < a * b
  {
  }

  /** A product of two non-negative reals is zero only when a factor is zero. */
  lemma ProductZero(a: real, b: real)
    requires 0.0 <= a && 0.0 <= b && a * b == 0.0
    ensures a == 0.0 || b == 0.0
  {
    if a > 0.0 && b > 0.0 {
      ProductPositive(a, b);
    }
  }

  /** Multiplying by a non-zero number and dividing by it again gives the number back. */
  lemma QuotientCancels(d: real, k: real)
    requires d != 0.0
    ensures d * k / d == k
  {
  }
}
