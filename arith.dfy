/**
 * Facts about real multiplication and division used by the geometry proofs.
 *
 * Products whose sign or order matters are written through `Mul`, so that the
 * solver treats each of them as one term and combines the facts below by
 * linear reasoning only.
 */
module Arith {

  function Mul(p: real, q: real): real {
    p * q
  }

  lemma MulPositive(p: real, q: real)
    requires (p > 0.0 && q > 0.0) || (p < 0.0 && q < 0.0)
    ensures Mul(p, q) > 0.0
  {
  }

  lemma MulNonNegative(p: real, q: real)
    requires p >= 0.0 && q >= 0.0
    ensures Mul(p, q) >= 0.0
  {
  }

  /** A product is zero only when a factor is. */
  lemma MulNonZero(p: real, q: real)
    requires p != 0.0 && q != 0.0
    ensures Mul(p, q) != 0.0
  {
    if (p > 0.0) == (q > 0.0) {
      MulPositive(p, q);
    } else {
      MulPositive(-p, q);
      assert Mul(p, q) == -Mul(-p, q);
    }
  }

  /** Cancelling a common non-zero factor from a quotient. */
  lemma QuotientCancel(a: real, b: real, c: real)
    requires b != 0.0 && c != 0.0
    ensures Mul(c, b) != 0.0
    ensures Mul(c, a) / Mul(c, b) == a / b
  {
    MulNonZero(c, b);
    var q, r := a / b, Mul(c, a) / Mul(c, b);
    assert Mul(q, b) == a;
    assert Mul(r, Mul(c, b)) == Mul(c, a);
    assert Mul(r - q, Mul(c, b)) == 0.0 by {
      assert Mul(r - q, Mul(c, b)) == Mul(r, Mul(c, b)) - Mul(c, Mul(q, b));
    }
    if r != q {
      MulNonZero(r - q, Mul(c, b));
    }
  }

  lemma SquareOfProduct(p: real, q: real)
    ensures Mul(Mul(p, q), Mul(p, q)) == Mul(Mul(p, p), Mul(q, q))
  {
  }

  lemma ProductOfScaled(k: real, p: real, q: real)
    ensures Mul(Mul(k, p), Mul(k, q)) == Mul(Mul(k, k), Mul(p, q))
  {
  }

  /** Multiplying by a non-negative factor keeps the order. */
  lemma MulMonotone(p: real, q: real, r: real)
    requires p <= q && r >= 0.0
    ensures Mul(p, r) <= Mul(q, r)
  {
    MulNonNegative(q - p, r);
  }

  /** A positive factor keeps the sign. */
  lemma MulSign(k: real, x: real)
    requires k > 0.0
    ensures Mul(k, x) > 0.0 <==> x > 0.0
    ensures Mul(k, x) < 0.0 <==> x < 0.0
    ensures Mul(k, x) == 0.0 <==> x == 0.0
  {
    if x > 0.0 {
      MulPositive(k, x);
    } else if x < 0.0 {
      MulPositive(k, -x);
    }
  }

  /** A square is never negative, and it is positive unless its root is zero. */
  lemma SquareSign(a: real)
    ensures Mul(a, a) >= 0.0
    ensures a != 0.0 ==> Mul(a, a) > 0.0
  {
    if a != 0.0 {
      MulPositive(a, a);
    }
  }

  /** Squaring is strictly increasing on the non-negative reals. */
  lemma SquareMonotone(p: real, q: real)
    requires 0.0 <= p < q
    ensures Mul(p, p) < Mul(q, q)
  {
    MulPositive(q - p, q + p);
    assert Mul(q - p, q + p) == Mul(q, q) - Mul(p, p);
  }

  /** Two non-negative reals with the same square are equal. */
  lemma SquareInjective(p: real, q: real)
    requires p >= 0.0 && q >= 0.0 && Mul(p, p) == Mul(q, q)
    ensures p == q
  {
    if p < q {
      SquareMonotone(p, q);
    } else if q < p {
      SquareMonotone(q, p);
    }
  }

  /**
   * Cauchy-Schwarz in the form the angle computation needs: when
   * n1 n2 - d^2 is the square of e and m1, m2 are the non-negative roots of
   * the positive n1, n2, then |d| <= m1 m2, strictly so when e is not zero.
   */
  lemma BoundByRoots(n1: real, n2: real, d: real, e: real, m1: real, m2: real)
    requires n1 > 0.0 && n2 > 0.0 && Mul(n1, n2) - Mul(d, d) == Mul(e, e)
    requires m1 >= 0.0 && m2 >= 0.0 && Mul(m1, m1) == n1 && Mul(m2, m2) == n2
    ensures Mul(m1, m2) > 0.0
    ensures -Mul(m1, m2) <= d <= Mul(m1, m2)
    ensures e != 0.0 ==> -Mul(m1, m2) < d < Mul(m1, m2)
  {
    var m := Mul(m1, m2);
    assert m1 != 0.0 && m2 != 0.0;
    MulPositive(m1, m2);
    SquareSign(e);
    SquareOfProduct(m1, m2);
    assert Mul(d, d) <= Mul(m, m);
    assert Mul(-d, -d) == Mul(d, d);
    if d > m {
      SquareMonotone(m, d);
    }
    if d < -m {
      SquareMonotone(m, -d);
    }
  }

  /**
   * A quotient of a number by a positive bound on its magnitude lies in
   * [-1, 1], and strictly inside when the bound is strict.
   */
  lemma QuotientWithinUnit(d: real, m: real)
    requires m > 0.0 && -m <= d <= m
    ensures -1.0 <= d / m <= 1.0
    ensures -m < d < m ==> -1.0 < d / m < 1.0
  {
    var q := d / m;
    assert Mul(q, m) == d;
    if q >= 1.0 {
      MulNonNegative(q - 1.0, m);
    }
    if q <= -1.0 {
      MulNonNegative(-1.0 - q, m);
    }
  }
}
