/** The two library functions the indicators call, by the laws the proofs use.
    No numerical definition is given: results hold for any functions obeying
    these laws. */
module RealMath {
  import opened RealAlgebra

  datatype Maths = Maths(sqrt: real -> real, tanh: real -> real)

  ghost predicate IsRoot(sqrt: real -> real) {
    forall x :: x >= 0.0 ==> sqrt(x) >= 0.0 && Square(sqrt(x)) == x
  }

  ghost predicate IsSquash(tanh: real -> real) {
    && (forall x :: -1.0 <= tanh(x) <= 1.0)
    && (forall x :: tanh(-x) == -tanh(x))
    && (forall x, y :: x <= y ==> tanh(x) <= tanh(y))
    && (forall x :: x > 0.0 ==> tanh(x) > 0.0)
  }

  function Max(a: real, b: real): real { if a < b then b else a }

  function Min(a: real, b: real): real { if b < a then b else a }

  function MinNat(a: nat, b: nat): nat { if b < a then b else a }

  function Abs(a: real): real { if a < 0.0 then -a else a }

  function Clamp(x: real, lo: real, hi: real): real {
    if x < lo then lo else if hi < x then hi else x
  }

  lemma SquashSign(tanh: real -> real, x: real)
    requires IsSquash(tanh)
    ensures (tanh(x) > 0.0 <==> x > 0.0) && (tanh(x) < 0.0 <==> x < 0.0)
  {
    assert tanh(-x) == -tanh(x);
  }

  lemma RootPositive(sqrt: real -> real, x: real)
    requires IsRoot(sqrt) && x >= 0.0
    ensures sqrt(x) > 0.0 <==> x > 0.0
  {
    SquarePositive(sqrt(x));
  }

  /** The root of a square is the absolute value. */
  lemma RootOfSquare(sqrt: real -> real, x: real)
    requires IsRoot(sqrt)
    ensures sqrt(Square(x)) == Abs(x)
  {
    assert Square(-x) == Square(x);
    SquareOrder(sqrt(Square(x)), Abs(x));
  }

  /** A distance measured in deviations, without the root: its sign is that of the
      distance, and its square is exact even when there is no deviation. */
  lemma DeviationScore(sqrt: real -> real, k: real, m2: real, d: real)
    requires IsRoot(sqrt) && k > 0.0 && 0.0 <= Square(d) <= m2
    ensures var std := sqrt(m2 / k);
      var z := if std > 0.0 then d / std else 0.0;
      && (z > 0.0 <==> d > 0.0) && (z < 0.0 <==> d < 0.0)
      && m2 * Square(z) == k * Square(d)
  {
    hide Square;
    var v := m2 / k;
    QuotientTimes(m2, k);
    QuotientHasSign(m2, k);
    RootPositive(sqrt, v);
    SquarePositive(d);
    SquarePositive(0.0);
    if v > 0.0 {
      var std := sqrt(v);
      var z := d / std;
      QuotientTimes(d, std);
      QuotientHasSign(d, std);
      SquareOfProduct(std, z);
      assert std * z == d && Square(std) == v;
      assert Square(d) == v * Square(z);
      assert m2 * Square(z) == k * (v * Square(z));
    } else {
      assert k * v == 0.0;
    }
  }
}
