/**
 * The response curve of the calibration page
 * (scripts/calibration/lib/Sensitivity.js): the input is clamped to [-1, 1]
 * and then mapped through `t * x^power + (1 - t) * x`, a blend of an odd
 * polynomial with the identity.
 */
module SensitivityCurve {
  import opened RealArith

  /** The curve's two parameters, the blend weight `t` and the exponent. */
  datatype Sensitivity = Sensitivity(t: real, power: nat)

  /** The constructor's settings: t = 0.7, power = 3. */
  const DEFAULT: Sensitivity := Sensitivity(0.7, 3)

  /** `x` raised to a natural exponent (`Math.pow` on an integer exponent); 1^n = 1 and 0^n = 0 for n >= 1. */
  function Pow(x: real, n: nat): (p: real)
    ensures x == 1.0 ==> p == 1.0
    ensures x == 0.0 && n >= 1 ==> p == 0.0
  {
    if n == 0 then 1.0 else Scale(x, Pow(x, n - 1))
  }

  /** `Math.max(-1, Math.min(v, 1))`. */
  function Clamp(v: real): (c: real)
    ensures -1.0 <= c <= 1.0
    ensures -1.0 <= v <= 1.0 ==> c == v
    ensures v > 1.0 ==> c == 1.0
    ensures v < -1.0 ==> c == -1.0
  {
    var upper := if v < 1.0 then v else 1.0;
    if -1.0 < upper then upper else -1.0
  }

  /**
   * `valueAtIndex`: the curve at the clamped input. It passes through (1, 1)
   * whatever the blend weight, every input above 1 is clamped onto that
   * point, and for a positive exponent the curve passes through the origin.
   */
  function ValueAtIndex(s: Sensitivity, index: real): (r: real)
    ensures index >= 1.0 ==> r == 1.0
    ensures s.power >= 1 && index == 0.0 ==> r == 0.0
  {
    var x := Clamp(index);
    var p := Pow(x, s.power);
    BlendFixed(s.t, p, x);
    Scale(s.t, p) + Scale(1.0 - s.t, x)
  }

  predicate Odd(n: nat)
  {
    n % 2 == 1
  }

  /** Powers of numbers in [-1, 1] stay in [-1, 1]. */
  lemma {:induction false} PowWithinUnit(x: real, n: nat)
    requires -1.0 <= x <= 1.0
    ensures -1.0 <= Pow(x, n) <= 1.0
  {
    if n > 0 {
      PowWithinUnit(x, n - 1);
      UnitProduct(x, Pow(x, n - 1));
    }
  }

  /** An odd power keeps the sign: (-x)^n == -(x^n). */
  lemma {:induction false} PowOdd(x: real, n: nat)
    requires Odd(n)
    ensures Pow(-x, n) == -Pow(x, n)
  {
    if n > 1 {
      PowOdd(x, n - 2);
      NegatedTwice(x, Pow(x, n - 2));
    }
  }

  /** Every input at or above 1 gives the value at 1, and likewise below -1. */
  lemma ClampedInputs(s: Sensitivity, index: real)
    ensures index >= 1.0 ==> ValueAtIndex(s, index) == ValueAtIndex(s, 1.0)
    ensures index <= -1.0 ==> ValueAtIndex(s, index) == ValueAtIndex(s, -1.0)
  {
  }

  /** For an odd exponent the curve is an odd function and f(-1) == -1. */
  lemma OddSymmetry(s: Sensitivity, index: real)
    requires Odd(s.power)
    ensures ValueAtIndex(s, -index) == -ValueAtIndex(s, index)
    ensures ValueAtIndex(s, -1.0) == -1.0
  {
    var x := Clamp(index);
    assert Clamp(-index) == -x;
    PowOdd(x, s.power);
    BlendNegated(s.t, Pow(x, s.power), x);
    PowOdd(1.0, s.power);
    BlendFixed(s.t, Pow(-1.0, s.power), -1.0);
  }

  /** With t in [0, 1] the curve maps every input into [-1, 1]. */
  lemma ValueWithinUnit(s: Sensitivity, index: real)
    requires 0.0 <= s.t <= 1.0
    ensures -1.0 <= ValueAtIndex(s, index) <= 1.0
  {
    var x := Clamp(index);
    var p := Pow(x, s.power);
    PowWithinUnit(x, s.power);
    BlendWithin(s.t, p, x);
  }

  /** The default curve (t = 0.7, power 3) is odd and maps every input into [-1, 1]. */
  lemma DefaultCurve(s: Sensitivity, index: real)
    requires s == DEFAULT
    ensures ValueAtIndex(s, -index) == -ValueAtIndex(s, index)
    ensures -1.0 <= ValueAtIndex(s, index) <= 1.0
  {
    assert Odd(s.power) && 0.0 <= s.t <= 1.0;
    OddSymmetry(s, index);
    ValueWithinUnit(s, index);
  }

  /** The default curve sends 0.5 to 0.7 * 0.5^3 + 0.3 * 0.5 == 0.2375. */
  lemma DefaultAtHalf()
    ensures ValueAtIndex(DEFAULT, 0.5) == 0.2375
  {
    assert Clamp(0.5) == 0.5;
    assert Pow(0.5, 1) == Scale(0.5, 1.0) == 0.5;
    assert Pow(0.5, 2) == Scale(0.5, 0.5) == 0.25;
    assert Pow(0.5, 3) == Scale(0.5, 0.25) == 0.125;
    assert Scale(0.7, 0.125) == 0.0875 && Scale(0.3, 0.5) == 0.15;
  }

  /** A convex blend of two numbers in [-1, 1] lies in [-1, 1]. */
  lemma BlendWithin(t: real, p: real, x: real)
    requires 0.0 <= t <= 1.0 && -1.0 <= p <= 1.0 && -1.0 <= x <= 1.0
    ensures -1.0 <= Scale(t, p) + Scale(1.0 - t, x) <= 1.0
  {
    ProductNonneg(t, 1.0 - p);
    ProductNonneg(t, 1.0 + p);
    ProductNonneg(1.0 - t, 1.0 - x);
    ProductNonneg(1.0 - t, 1.0 + x);
  }

  /** A blend of a number with itself is that number. */
  lemma BlendFixed(t: real, p: real, x: real)
    ensures p == x ==> Scale(t, p) + Scale(1.0 - t, x) == x
  {
  }

  /** The product of two numbers in [-1, 1] lies in [-1, 1]. */
  lemma UnitProduct(a: real, b: real)
    requires -1.0 <= a <= 1.0 && -1.0 <= b <= 1.0
    ensures -1.0 <= Scale(a, b) <= 1.0
  {
    ProductNonneg(1.0 - a, 1.0 - b);
    ProductNonneg(1.0 - a, 1.0 + b);
    ProductNonneg(1.0 + a, 1.0 - b);
    ProductNonneg(1.0 + a, 1.0 + b);
  }

  /** Two factors -a turn -q into -(a * (a * q)). */
  lemma NegatedTwice(a: real, q: real)
    ensures Scale(-a, Scale(-a, -q)) == -Scale(a, Scale(a, q))
  {
  }

  /** Blending the negated numbers gives the negated blend. */
  lemma BlendNegated(t: real, p: real, x: real)
    ensures Scale(t, -p) + Scale(1.0 - t, -x) == -(Scale(t, p) + Scale(1.0 - t, x))
  {
  }
}
