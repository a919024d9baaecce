/** Small facts of real arithmetic, each isolated so that a proof can ask for
    exactly the product it needs. Squares go through `Square`, which keeps the
    solver from rewriting comparisons of squares. */
module RealAlgebra {

  function Square(x: real): (s: real)
    ensures s >= 0.0
  {
    var s := x * x;
    SquareSign(x, s);
    s
  }

  lemma SquareSign(x: real, s: real)
    requires s == x * x
    ensures s >= 0.0 && (x != 0.0 ==> s > 0.0)
  {
    if x > 0.0 {
      calc { s; == x * x; > { ProductPositive(x, x); } 0.0; }
    } else if x < 0.0 {
      calc { s; == (-x) * (-x); > { ProductPositive(-x, -x); } 0.0; }
    }
  }

  lemma SquarePositive(x: real)
    ensures Square(x) > 0.0 <==> x != 0.0
  {
    SquareSign(x, Square(x));
  }

  lemma ProductNonNegative(a: real, b: real)
    requires a >= 0.0 && b >= 0.0
    ensures a * b >= 0.0
  {
  }

  lemma ProductPositive(a: real, b: real)
    requires a > 0.0 && b > 0.0
    ensures a * b > 0.0
  {
  }

  lemma ScaleLe(k: real, a: real, b: real)
    requires k >= 0.0 && a <= b
    ensures k * a <= k * b
  {
    ProductNonNegative(k, b - a);
    assert k * (b - a) == k * b - k * a;
  }

  lemma ScaleLt(k: real, a: real, b: real)
    requires k > 0.0 && a < b
    ensures k * a < k * b
  {
    ProductPositive(k, b - a);
    assert k * (b - a) == k * b - k * a;
  }

  lemma QuotientTimes(a: real, b: real)
    requires b != 0.0
    ensures b * (a / b) == a
  {
  }

  lemma QuotientUnique(a: real, b: real, q: real)
    requires b != 0.0 && b * q == a
    ensures a / b == q
  {
  }

  lemma QuotientHasSign(a: real, b: real)
    requires b > 0.0
    ensures (a / b > 0.0 <==> a > 0.0) && (a / b < 0.0 <==> a < 0.0)
  {
    var q := a / b;
    QuotientTimes(a, b);
    if q > 0.0 { ProductPositive(b, q); }
    if q < 0.0 { ScaleLt(b, q, 0.0); }
  }

  lemma SquareOfSum(a: real, d: real)
    ensures Square(a + d) == Square(a) + 2.0 * (a * d) + Square(d)
  {
  }

  lemma SquareOfDifference(x: real, c: real)
    ensures Square(x - c) == Square(x) - 2.0 * (c * x) + Square(c)
  {
  }

  lemma SquareOfProduct(k: real, x: real)
    ensures Square(k * x) == Square(k) * Square(x)
    ensures Square(k * x) == k * (k * Square(x))
  {
  }

  lemma SquareLt(a: real, b: real)
    requires 0.0 <= a < b
    ensures Square(a) < Square(b)
  {
    var d := b - a;
    SquarePositive(d);
    ProductNonNegative(a, d);
    SquareOfSum(a, d);
  }

  lemma SquareOrder(a: real, b: real)
    requires 0.0 <= a && 0.0 <= b
    ensures Square(a) < Square(b) <==> a < b
    ensures Square(a) == Square(b) <==> a == b
  {
    if a < b { SquareLt(a, b); }
    if b < a { SquareLt(b, a); }
  }
}
