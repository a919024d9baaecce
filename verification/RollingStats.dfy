/** Rolling mean and deviation over the last `capacity` samples, kept by a
    running sum and a running sum of squares, against the two-pass recomputation
    from the whole history. */
module RollingStats {
  import opened RealAlgebra
  import opened RealMath
  import opened Statistics

  const EPSILON := 0.000000001

  /** The calculator's state as a value. */
  datatype Stats = Stats(capacity: nat, window: seq<real>, sum: real, sumSquares: real) {

    function MeanNow(): real {
      if window == [] then 0.0 else sum / |window| as real
    }

    /** E[x^2] - E[x]^2, clamped at 0. */
    function VarianceNow(): (v: real)
      ensures v >= 0.0
    {
      if |window| < 2 then 0.0
      else
        var m := sum / |window| as real;
        Max(sumSquares / |window| as real - Square(m), 0.0)
    }

    function StddevNow(sqrt: real -> real): real {
      if |window| < 2 then 0.0 else sqrt(VarianceNow())
    }

    function Score(sqrt: real -> real, value: real): real {
      if |window| >= 2 && StddevNow(sqrt) > EPSILON
      then (value - MeanNow()) / StddevNow(sqrt)
      else 0.0
    }

    function Push(value: real): Stats {
      var grown := Stats(capacity, window + [value], sum + value, sumSquares + Square(value));
      if |grown.window| > capacity then
        var oldest := grown.window[0];
        Stats(capacity, grown.window[1..], grown.sum - oldest, grown.sumSquares - Square(oldest))
      else grown
    }

    /** The running totals are those of the window. */
    ghost predicate Consistent() {
      |window| <= capacity && sum == Sum(window) && sumSquares == SumSquares(window)
    }
  }

  function Empty(capacity: nat): Stats {
    Stats(capacity, [], 0.0, 0.0)
  }

  /** The state after a whole history of samples. */
  function After(capacity: nat, xs: seq<real>): Stats {
    if xs == [] then Empty(capacity)
    else After(capacity, xs[..|xs| - 1]).Push(xs[|xs| - 1])
  }

  /** The reference: the score of `value` against a window, by two passes. */
  function NaiveScore(sqrt: real -> real, window: seq<real>, value: real): real {
    if |window| >= 2 && sqrt(Variance(window)) > 0.000000001
    then (value - Mean(window)) / sqrt(Variance(window))
    else 0.0
  }

  lemma {:induction false} PushConsistent(s: Stats, value: real)
    requires s.Consistent()
    ensures s.Push(value).Consistent()
    ensures s.Push(value).window == LastN(s.window + [value], s.capacity)
    ensures s.Push(value).capacity == s.capacity
  {
    var grown := s.window + [value];
    assert grown[..|grown| - 1] == s.window;
    if |grown| > s.capacity {
      var oldest := grown[0];
      assert grown == [oldest] + grown[1..];
      SumAppend([oldest], grown[1..]);
      SumSquaresAppend([oldest], grown[1..]);
      SingletonSums(oldest);
    }
  }

  lemma SingletonSums(x: real)
    ensures Sum([x]) == x && SumSquares([x]) == Square(x)
  {
    assert [x][..0] == [];
  }

  /** After any history the window is its last `capacity` samples and the running
      totals are the sums over that window. */
  lemma {:induction false} AfterIsWindow(capacity: nat, xs: seq<real>)
    ensures After(capacity, xs).Consistent()
    ensures After(capacity, xs).window == LastN(xs, capacity)
    ensures After(capacity, xs).capacity == capacity
  {
    if xs != [] {
      var init, x := xs[..|xs| - 1], xs[|xs| - 1];
      AfterIsWindow(capacity, init);
      PushConsistent(After(capacity, init), x);
      assert init + [x] == xs;
      LastNSlides(init, capacity, x);
    }
  }

  /** Over the reals the one-pass variance is the two-pass one, so the clamp at
      zero never acts. */
  lemma VarianceIsTwoPass(s: Stats)
    requires s.Consistent() && |s.window| >= 2
    ensures s.sumSquares / |s.window| as real - Square(s.MeanNow()) == Variance(s.window)
    ensures s.VarianceNow() == Variance(s.window)
    ensures s.MeanNow() == Mean(s.window)
  {
    hide Square, Sum, SumSquares, SumDeviations;
    var n, m, d := MeanFacts(s.window);
    VarianceAlgebra(n, m, d, s.sumSquares);
  }

  lemma VarianceAlgebra(n: real, m: real, d: real, q: real)
    requires n > 0.0 && d >= 0.0 && d == q - n * Square(m)
    ensures q / n - Square(m) == d / n >= 0.0
  {
    DivideNonNegative(d, n);
    QuotientTimes(q, n);
    assert n * (q / n - Square(m)) == d;
    QuotientUnique(d, n, q / n - Square(m));
  }

  /** The O(1) score equals recomputing it from the last `capacity` samples seen
      before this one. */
  lemma ScoreIsNaive(capacity: nat, xs: seq<real>, sqrt: real -> real, value: real)
    ensures After(capacity, xs).Score(sqrt, value) == NaiveScore(sqrt, LastN(xs, capacity), value)
  {
    AfterIsWindow(capacity, xs);
    var s := After(capacity, xs);
    if |s.window| >= 2 {
      VarianceIsTwoPass(s);
    }
  }

  class RollingStats {
    const capacity: nat
    const sqrt: real -> real
    var window: seq<real>
    var sum: real
    var sumSquares: real

    function View(): Stats
      reads this
    {
      Stats(capacity, window, sum, sumSquares)
    }

    constructor (capacity: nat, sqrt: real -> real)
      ensures View() == Empty(capacity) && this.sqrt == sqrt
    {
      this.capacity := capacity;
      this.sqrt := sqrt;
      window, sum, sumSquares := [], 0.0, 0.0;
    }

    method GetMean() returns (m: real)
      ensures m == View().MeanNow()
      ensures View().Consistent() && window != [] ==> m == Mean(window)
    {
      if window == [] {
        return 0.0;
      }
      m := sum / |window| as real;
    }

    method GetStddev() returns (sd: real)
      ensures sd == View().StddevNow(sqrt)
      ensures View().Consistent() && |window| >= 2 ==> sd == sqrt(Variance(window))
    {
      hide Square, Sum, SumSquares, Variance, Mean;
      var n := |window|;
      if n < 2 {
        return 0.0;
      }
      var m := sum / n as real;
      var variance := sumSquares / n as real - Square(m);
      variance := Max(variance, 0.0);
      if View().Consistent() {
        VarianceIsTwoPass(View());
      }
      sd := sqrt(variance);
    }

    method PushAndScore(value: real) returns (z: real)
      modifies this
      ensures View() == old(View()).Push(value)
      ensures z == old(View()).Score(sqrt, value)
    {
      hide Square, Sum, SumSquares, Variance, Mean;
      z := 0.0;
      if |window| >= 2 {
        var m := GetMean();
        var sd := GetStddev();
        if sd > EPSILON {
          z := (value - m) / sd;
        }
      }
      window := window + [value];
      sum := sum + value;
      sumSquares := sumSquares + Square(value);
      if |window| > capacity {
        var oldest := window[0];
        window := window[1..];
        sum := sum - oldest;
        sumSquares := sumSquares - Square(oldest);
      }
    }
  }
}
