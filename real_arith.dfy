/**
 * Facts about real products that the verifier does not find unaided: signs
 * and monotonicity of products, and squares.
 */
module RealArith {

  lemma MulMonotone(a: real, b: real, p: real)
    requires a <= b && p > 0.0
    ensures a * p <= b * p
  {
    var d := b - a;
    assert d * p >= 0.0;
    assert b * p == a * p + d * p;
  }

  lemma MulStrictMonotone(a: real, b: real, p: real)
    requires a < b && p > 0.0
    ensures a * p < b * p
  {
    var d := b - a;
    assert d * p > 0.0;
    assert b * p == a * p + d * p;
  }

  lemma QuotientNonNeg(d: real, p: real)
    requires d >= 0.0 && p > 0.0
    ensures d / p >= 0.0
  {
  }

  lemma MulReciprocal(x: real, b: real)
    requires b != 0.0
    ensures x * (1.0 / b) == x / b
  {
  }

  lemma MulPos(a: real, b: real)
    requires a > 0.0 && b > 0.0
    ensures a * b > 0.0
  {
  }

  lemma MulNeg(a: real, b: real)
    requires a < 0.0 && b < 0.0
    ensures a * b > 0.0
  {
    MulPos(-a, -b);
    assert (-a) * (-b) == a * b;
  }

  /** A product vanishes only when a factor does. */
  lemma ZeroProduct(a: real, b: real)
    requires a * b == 0.0
    ensures a == 0.0 || b == 0.0
  {
    if a != 0.0 && b != 0.0 {
      if a > 0.0 && b > 0.0 {
        MulPos(a, b);
      } else if a < 0.0 && b < 0.0 {
        MulNeg(a, b);
      } else if a > 0.0 {
        MulMixed(a, b);
      } else {
        MulMixed(b, a);
      }
    }
  }

  /** Both directions of the zero-product rule. */
  lemma ZeroProductIff(a: real, b: real)
    ensures a * b == 0.0 <==> a == 0.0 || b == 0.0
  {
    if a * b == 0.0 { ZeroProduct(a, b); }
  }

  /** A non-zero common factor cancels. */
  lemma CancelFactor(x: real, y: real, p: real)
    requires p != 0.0 && x * p == y * p
    ensures x == y
  {
    assert (x - y) * p == 0.0;
    ZeroProduct(x - y, p);
  }

  lemma MulMixed(a: real, b: real)
    requires a > 0.0 && b < 0.0
    ensures a * b < 0.0 && b * a < 0.0
  {
    MulPos(a, -b);
    assert a * (-b) == -(a * b);
  }

  /**
   * A square is non-negative and vanishes only at zero. Stated for a product
   * of two equal arguments, a form the solver handles reliably.
   */
  lemma SquareFactsOf(a: real, b: real)
    requires a == b
    ensures a * b >= 0.0
    ensures a * b == 0.0 ==> a == 0.0
  {
    if a > 0.0 {
      MulPos(a, b);
    } else if a < 0.0 {
      MulNeg(a, b);
    }
    if a * b == 0.0 {
      ZeroProduct(a, b);
    }
  }

  lemma NonNegSum(p: real, q: real, r: real)
    requires p >= 0.0 && q >= 0.0 && r >= 0.0
    ensures p + q + r >= 0.0
    ensures p + q + r == 0.0 ==> p == 0.0 && q == 0.0 && r == 0.0
  {
  }

  lemma NonZeroProduct3(a: real, b: real, c: real)
    requires a != 0.0 && b != 0.0 && c != 0.0
    ensures a * b * c != 0.0
  {
    var ab := a * b;
    assert ab != 0.0;
    assert ab * c != 0.0;
  }

  lemma NonZeroProduct4(a: real, b: real, c: real, d: real)
    requires a != 0.0 && b != 0.0 && c != 0.0 && d != 0.0
    ensures a * b * c * d != 0.0
  {
    NonZeroProduct3(a, b, c);
    var abc := a * b * c;
    assert abc != 0.0;
    assert abc * d != 0.0;
  }
}
