/** Sign facts about products and quotients of reals, stated once so that
    the algebra in the solver's proofs stays small. */
module Reals {

  lemma SquareNonNegative(r: real)
    ensures r * r >= 0.0
    ensures r != 0.0 ==> r * r > 0.0
  {
    if r < 0.0 {
      assert (-r) * (-r) > 0.0;
      assert r * r == (-r) * (-r);
    } else if r > 0.0 {
      assert r * r > 0.0;
    }
  }

  lemma MulPositive(x: real, y: real)
    requires x > 0.0 && y > 0.0
    ensures x * y > 0.0
  {
  }

  /** Squaring preserves order on the positive reals. */
  lemma MulMonotone(x: real, y: real)
    requires x >= y > 0.0
    ensures x * x >= y * y
    ensures x > y ==> x * x > y * y
  {
    assert x * x - y * y == (x - y) * (x + y);
    if x > y {
      MulPositive(x - y, x + y);
    }
  }

  /** A positive `t` with `t² k = c < 4 k` is below 2. */
  lemma BelowTwo(t: real, k: real, c: real)
    requires t > 0.0 && k > 0.0
    requires t * t * k == c && c < 4.0 * k
    ensures t < 2.0
  {
    if t >= 2.0 {
      MulMonotone(t, 2.0);
      MulMonotoneFactor(t * t, 4.0, k);
    }
  }

  /** Multiplying by a positive factor preserves order. */
  lemma MulMonotoneFactor(x: real, y: real, k: real)
    requires x >= y && k > 0.0
    ensures x * k >= y * k
  {
  }

  lemma MulNegative(x: real, y: real)
    requires x < 0.0 && y > 0.0
    ensures x * y < 0.0
  {
    MulPositive(-x, y);
    assert x * y == -((-x) * y);
  }

  lemma MulNonZero(x: real, y: real)
    requires x != 0.0 && y != 0.0
    ensures x * y != 0.0
  {
    if x > 0.0 && y > 0.0 {
      MulPositive(x, y);
    } else if x > 0.0 {
      MulNegative(y, x);
      assert x * y == y * x;
    } else if y > 0.0 {
      MulNegative(x, y);
    } else {
      MulPositive(-x, -y);
      assert x * y == (-x) * (-y);
    }
  }

  lemma DivMul(n: real, d: real)
    requires d != 0.0
    ensures (n / d) * d == n
  {
  }

  /** A quotient of a positive number by a negative one is negative; of two
      negative numbers, positive. */
  lemma DivByNegative(n: real, d: real)
    requires d < 0.0
    ensures n > 0.0 ==> n / d < 0.0
    ensures n < 0.0 ==> n / d > 0.0
  {
    DivMul(n, d);
    var q := n / d;
    if n > 0.0 && q > 0.0 {
      MulNegative(d, q);
    }
    if n < 0.0 && q < 0.0 {
      MulPositive(-q, -d);
    }
  }

  /** A non-negative number whose square exceeds `b * b` exceeds both `b`
      and `-b`. */
  lemma RootDominates(r: real, b: real)
    requires r >= 0.0
    requires r * r > b * b
    ensures r > b && r > -b
  {

  }

  lemma CancelNonZero(a: real, x: real, y: real)
    requires a != 0.0
    requires a * x == a * y
    ensures x == y
  {
    if x != y {
      MulNonZero(a, x - y);
    }
  }

  lemma ProductNonZero(a: real, x: real, y: real)
    requires a != 0.0 && x > 0.0 && y > 0.0
    ensures a * x * y != 0.0
  {
    MulNonZero(a, x);
    MulNonZero(a * x, y);
  }

  lemma ProductZero(a: real, x: real, y: real)
    requires a != 0.0 && x != 0.0
    requires a * x * y == 0.0
    ensures y == 0.0
  {
    if y != 0.0 {
      MulNonZero(a, x);
      MulNonZero(a * x, y);
    }
  }

  lemma NonNegativeFactor(x: real, d: real)
    requires d > 0.0
    requires x * d >= 0.0
    ensures x >= 0.0
  {
    if x < 0.0 {
      MulNegative(x, d);
    }
  }
}
