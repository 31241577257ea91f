/**
 * Sign and scaling facts about products of reals. Each is stated over plain parameters and
 * proved with every intermediate product named, which keeps the callers' reasoning linear.
 */
module RealArith {

  lemma NonNegativeProduct(a: real, b: real)
    requires a >= 0.0 && b >= 0.0
    ensures a * b >= 0.0
  {
  }

  lemma NonNegativeQuotient(a: real, b: real)
    requires a >= 0.0 && b > 0.0
    ensures a / b >= 0.0
  {
  }

  lemma QuotientAtMostOne(a: real, b: real)
    requires a <= b && b > 0.0
    ensures a / b <= 1.0
  {
  }

  /** Dividing by a positive number keeps the sign, in both directions. */
  lemma QuotientSignIff(a: real, b: real)
    requires b > 0.0
    ensures a / b >= 0.0 <==> a >= 0.0
  {
    if a < 0.0 {
      assert a / b * b == a;
    }
  }

  lemma QuotientSign(a: real, b: real)
    requires b > 0.0
    ensures a >= 0.0 ==> a / b >= 0.0
  {
  }

  /**
   * A product behind a function: the solver matches facts about `Product(a, b)` by their terms,
   * where a bare `x * x` would be rewritten into a power it then fails to relate to its factors.
   */
  function Product(a: real, b: real): real
  {
    a * b
  }

  lemma ProductOfPositives(a: real, b: real)
    requires a > 0.0 && b > 0.0
    ensures Product(a, b) > 0.0
  {
    assert a * b > 0.0;
  }

  lemma ProductOfNegatives(a: real, b: real)
    requires a < 0.0 && b < 0.0
    ensures Product(a, b) > 0.0
  {
    assert a * b > 0.0;
  }

  lemma ProductNonNegative(a: real, b: real)
    requires a >= 0.0 && b >= 0.0
    ensures Product(a, b) >= 0.0
  {
    assert a * b >= 0.0;
  }

  /** Scaling by a factor in [0, 1] keeps a non-negative amount between zero and itself. */
  lemma ProductAtMost(a: real, w: real)
    requires a >= 0.0 && 0.0 <= w <= 1.0
    ensures 0.0 <= Product(a, w) <= a
    ensures a > 0.0 && w < 1.0 ==> Product(a, w) < a
  {
    ProductNonNegative(a, w);
    ProductNonNegative(a, 1.0 - w);
    if a > 0.0 && w < 1.0 {
      ProductOfPositives(a, 1.0 - w);
    }
    assert Product(a, 1.0 - w) == a - Product(a, w);
  }

  /** Scaling by a factor above 1 makes a positive amount larger. */
  lemma ProductAbove(a: real, w: real)
    requires a > 0.0 && w > 1.0
    ensures Product(a, w) > a
  {
    ProductOfPositives(a, w - 1.0);
    assert Product(a, w - 1.0) == Product(a, w) - a;
  }

  function Square(x: real): real
  {
    x * x
  }

  /** A square is non-negative, and positive for a non-zero number. */
  lemma SquarePositive(x: real)
    ensures Square(x) >= 0.0
    ensures x != 0.0 ==> Square(x) > 0.0
  {
    if x > 0.0 {
      ProductOfPositives(x, x);
    } else if x < 0.0 {
      ProductOfNegatives(x, x);
    }
    assert Product(x, x) == Square(x);
  }

  /** Scaling a non-negative number by a larger factor gives a larger product. */
  lemma ScaleMonotone(b: real, m: real, n: real)
    requires b >= 0.0 && m <= n
    ensures b * m <= b * n
  {
    var k := n - m;
    NonNegativeProduct(b, k);
    assert b * k >= 0.0;
    assert b * n - b * m == b * k;
  }
}
