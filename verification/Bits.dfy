/** Bitwise `and` on unsigned integers, and the two facts the ring buffer
    relies on: masking with Capacity - 1 is reduction modulo Capacity, and the
    static_assert on Capacity accepts exactly the powers of two. */
module Bits {

  function Pow2(k: nat): (p: nat)
    ensures p >= 1
  {
    if k == 0 then 1 else 2 * Pow2(k - 1)
  }

  ghost predicate IsPowerOfTwo(c: nat) {
    exists k: nat :: c == Pow2(k)
  }

  /** The C++ operator `&` on unsigned integers, bit by bit. */
  function And(a: nat, b: nat): nat
    decreases a
  {
    if a == 0 || b == 0 then 0
    else 2 * And(a / 2, b / 2) + (if a % 2 == 1 && b % 2 == 1 then 1 else 0)
  }

  /** `x` is `q` times `n` and a remainder `r`. */
  predicate Splits(x: nat, n: nat, q: nat, r: nat) {
    x == n * q + r && r < n
  }

  /** Masking takes off a multiple of 2^k and leaves a remainder below 2^k. */
  lemma {:induction false} MaskLeavesRemainder(x: nat, k: nat) returns (q: nat)
    ensures Splits(x, Pow2(k), q, And(x, Pow2(k) - 1))
    decreases k
  {
    if k == 0 {
      q := x;
    } else if x == 0 {
      q := 0;
    } else {
      var half, whole := Pow2(k - 1), Pow2(k);
      assert whole == 2 * half;
      hide *;
      q := MaskLeavesRemainder(x / 2, k - 1);
      MaskDoubles(x, half);
      SplitsDouble(x, half, q, And(x / 2, half - 1));
    }
  }

  lemma MaskDoubles(x: nat, half: nat)
    requires half > 0
    ensures And(x, 2 * half - 1) == 2 * And(x / 2, half - 1) + x % 2
  {
    var mask := 2 * half - 1;
    assert mask / 2 == half - 1 && mask % 2 == 1;
  }

  lemma SplitsDouble(x: nat, half: nat, q: nat, low: nat)
    requires Splits(x / 2, half, q, low)
    ensures Splits(x, 2 * half, q, 2 * low + x % 2)
  {
    assert (2 * half) * q == 2 * (half * q);
  }

  lemma MaskIsModulo(x: nat, k: nat)
    ensures And(x, Pow2(k) - 1) == x % Pow2(k)
  {
    hide And, Pow2;
    var q := MaskLeavesRemainder(x, k);
    ModuloUnique(x, Pow2(k), q, And(x, Pow2(k) - 1));
  }

  lemma MultiplesAreFar(n: int, d: int)
    requires n > 0
    ensures d > 0 ==> n * d >= n
    ensures d < 0 ==> n * d <= -n
  {
  }

  lemma ModuloUnique(x: int, n: int, q: int, r: int)
    requires n > 0 && x == n * q + r && 0 <= r < n
    ensures x % n == r && x / n == q
  {
    assert n * (x / n - q) == r - x % n;
    MultiplesAreFar(n, x / n - q);
  }

  /** `(Capacity & (Capacity - 1)) == 0` holds of the powers of two and, among
      positive numbers, of nothing else. */
  lemma {:induction false} PowerOfTwoTest(c: nat)
    requires c > 0
    ensures And(c, c - 1) == 0 <==> IsPowerOfTwo(c)
  {
    if c == 1 {
      assert Pow2(0) == 1;
    } else if c % 2 == 1 {
      forall k: nat ensures c != Pow2(k) {
        if k > 0 { assert Pow2(k) == 2 * Pow2(k - 1); }
      }
      assert And(c, c - 1) == 2 * And(c / 2, c / 2);
      AndSelf(c / 2);
    } else {
      PowerOfTwoTest(c / 2);
      assert (c - 1) / 2 == c / 2 - 1;
      if IsPowerOfTwo(c / 2) {
        var k: nat :| c / 2 == Pow2(k);
        assert c == Pow2(k + 1);
      }
      if IsPowerOfTwo(c) {
        var k: nat :| c == Pow2(k);
        assert c / 2 == Pow2(k - 1);
      }
    }
  }

  lemma {:induction false} AndSelf(a: nat)
    ensures And(a, a) == a
  {
    if a > 0 { AndSelf(a / 2); }
  }

  lemma SuccessorModulo(x: nat, n: nat)
    requires n > 0
    ensures (x % n + 1) % n == (x + 1) % n
  {
    var q, r := x / n, x % n;
    assert n * (q + 1) == n * q + n;
    if r + 1 == n {
      ModuloUnique(x + 1, n, q + 1, 0);
      ModuloUnique(n, n, 1, 0);
    } else {
      ModuloUnique(x + 1, n, q, r + 1);
    }
  }

  /** Two counters less than `n` apart land on one residue only if equal. */
  lemma ResiduesDiffer(a: nat, b: nat, n: nat)
    requires n > 0 && a < b < a + n
    ensures a % n != b % n
  {
    assert n * (b / n - a / n) == (b - a) - (b % n - a % n);
    MultiplesAreFar(n, b / n - a / n);
  }

  lemma WrapModulo(x: nat, n: nat)
    requires n > 0
    ensures (x + n) % n == x % n
  {
    assert n * (x / n + 1) == n * (x / n) + n;
    ModuloUnique(x + n, n, x / n + 1, x % n);
  }
}
