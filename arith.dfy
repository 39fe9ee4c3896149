/**
 * Facts about products and quotients of reals that the solver does not find
 * on its own. Products are taken through Mul so that the solver reasons about
 * them as terms rather than re-normalising polynomials.
 */
module Arith {

  function Mul(a: real, b: real): real
  {
    a * b
  }

  /** The square of a real, as `** 2` in Simulation.py. */
  function Sq(x: real): real
  {
    x * x
  }

  lemma MulNonNegative(a: real, b: real)
    requires a >= 0.0 && b >= 0.0
    ensures Mul(a, b) >= 0.0
  {
  }

  lemma MulPositive(a: real, b: real)
    requires a > 0.0 && b > 0.0
    ensures Mul(a, b) > 0.0
  {
  }

  /** The sign of a product, stated without preconditions so that functions can use it. */
  lemma MulSign(a: real, b: real)
    ensures a >= 0.0 && b >= 0.0 ==> Mul(a, b) >= 0.0
    ensures a > 0.0 && b > 0.0 ==> Mul(a, b) > 0.0
    ensures a == 0.0 || b == 0.0 ==> Mul(a, b) == 0.0
  {
    if a > 0.0 && b > 0.0 {
      MulPositive(a, b);
    } else if a >= 0.0 && b >= 0.0 {
      MulNonNegative(a, b);
    }
  }

  lemma MulCommutes(a: real, b: real)
    ensures Mul(a, b) == Mul(b, a)
  {
  }

  lemma MulDistributes(a: real, b: real, c: real)
    ensures Mul(a + b, c) == Mul(a, c) + Mul(b, c)
  {
  }

  /** Multiplying by a non-negative factor preserves order. */
  lemma MulMonotone(a: real, b: real, c: real)
    requires a <= b && c >= 0.0
    ensures Mul(a, c) <= Mul(b, c)
  {
    MulNonNegative(b - a, c);
    assert Mul(b - a, c) == Mul(b, c) - Mul(a, c);
  }

  /** A product of two factors lies between the products of their bounds. */
  lemma ProductBetween(x: real, y: real, xLo: real, xHi: real, yLo: real, yHi: real)
    ensures 0.0 <= xLo <= x <= xHi && 0.0 <= yLo <= y <= yHi
            ==> Mul(xLo, yLo) <= Mul(x, y) <= Mul(xHi, yHi)
  {
    if 0.0 <= xLo <= x <= xHi && 0.0 <= yLo <= y <= yHi {
      MulMonotone(xLo, x, yLo);
      MulMonotone(x, xHi, y);
      MulMonotone(yLo, y, x);
      MulMonotone(y, yHi, xHi);
      MulCommutes(yLo, x);
      MulCommutes(y, x);
      MulCommutes(y, xHi);
      MulCommutes(yHi, xHi);
    }
  }

  /** A fraction of a non-negative quantity lies between zero and the quantity. */
  lemma FractionBounds(x: real, f: real)
    ensures x >= 0.0 && 0.0 <= f <= 1.0 ==> 0.0 <= Mul(x, f) <= x
  {
    if x >= 0.0 && 0.0 <= f <= 1.0 {
      MulNonNegative(x, f);
      MulMonotone(f, 1.0, x);
      assert Mul(f, x) == Mul(x, f);
    }
  }

  /** A quotient whose numerator exceeds its positive denominator exceeds one. */
  lemma QuotientAboveOne(n: real, d: real)
    ensures d > 0.0 && n > d ==> n / d > 1.0
  {
    if d > 0.0 && n > d {
      QuotientLt(d, d, n, d);
    }
  }

  lemma SqSign(x: real)
    ensures Sq(x) >= 0.0
    ensures x != 0.0 ==> Sq(x) > 0.0
  {
    if x > 0.0 {
      MulPositive(x, x);
    } else if x < 0.0 {
      MulPositive(-x, -x);
      assert Mul(-x, -x) == Sq(x);
    }
  }

  /** Squaring is monotone on the non-negative reals. */
  lemma SqMonotone(x: real, y: real)
    requires 0.0 <= x <= y
    ensures Sq(x) <= Sq(y)
  {
    MulMonotone(x, y, x);
    MulMonotone(x, y, y);
    assert Mul(x, x) == Sq(x) && Mul(y, y) == Sq(y) && Mul(x, y) == Mul(y, x);
  }

  lemma QuotientSign(n: real, d: real)
    requires d != 0.0
    ensures n != 0.0 ==> n / d != 0.0
    ensures n >= 0.0 && d > 0.0 ==> n / d >= 0.0
  {
    assert n / d * d == n;
  }

  /** Comparing two quotients with positive denominators by cross-multiplying. */
  lemma QuotientLe(n1: real, d1: real, n2: real, d2: real)
    requires d1 > 0.0 && d2 > 0.0
    requires Mul(n1, d2) <= Mul(n2, d1)
    ensures n1 / d1 <= n2 / d2
  {
    var q1, q2 := n1 / d1, n2 / d2;
    assert Mul(q1, d1) == n1 && Mul(q2, d2) == n2;
    if q1 > q2 {
      MulPositive(q1 - q2, Mul(d1, d2));
    }
  }

  lemma QuotientLt(n1: real, d1: real, n2: real, d2: real)
    requires d1 > 0.0 && d2 > 0.0
    requires Mul(n1, d2) < Mul(n2, d1)
    ensures n1 / d1 < n2 / d2
  {
    var q1, q2 := n1 / d1, n2 / d2;
    assert Mul(q1, d1) == n1 && Mul(q2, d2) == n2;
    if q1 >= q2 {
      MulNonNegative(q1 - q2, Mul(d1, d2));
    }
  }

  /** x^2 (y + c) <= y^2 (x + c) for 0 <= x <= y and c >= 0. */
  lemma SqCrossMonotone(x: real, y: real, c: real)
    requires 0.0 <= x <= y && c >= 0.0
    ensures Mul(Sq(x), y + c) <= Mul(Sq(y), x + c)
  {
    MulNonNegative(x, y);
    MulMonotone(x, y, Mul(x, y));
    assert Mul(x, Mul(x, y)) == Mul(Sq(x), y);
    assert Mul(y, Mul(x, y)) == Mul(Sq(y), x);
    SqMonotone(x, y);
    MulMonotone(Sq(x), Sq(y), c);
    assert Mul(Sq(x), y + c) == Mul(Sq(x), y) + Mul(Sq(x), c);
    assert Mul(Sq(y), x + c) == Mul(Sq(y), x) + Mul(Sq(y), c);
  }

  /** x^2 <= (x + a)(x + 5a) = x^2 + 6ax + 5a^2, strictly when a > 0. */
  lemma SqBelowShiftedProduct(x: real, a: real)
    requires x > 0.0 && a >= 0.0
    ensures Mul(Sq(x), 1.0) <= Mul(x + a, x + 5.0 * a)
    ensures a > 0.0 ==> Mul(Sq(x), 1.0) < Mul(x + a, x + 5.0 * a)
  {
    assert Mul(x + a, x + 5.0 * a) == Sq(x) + Mul(a, 6.0 * x + 5.0 * a);
    if a > 0.0 {
      MulPositive(a, 6.0 * x + 5.0 * a);
    } else {
      MulNonNegative(a, 6.0 * x + 5.0 * a);
    }
  }
}
