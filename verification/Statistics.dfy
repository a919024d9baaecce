/** Sums, means and deviations of finite samples of reals, and the classical
    inequalities the indicators rest on. */
module Statistics {
  import opened RealAlgebra

  function Sum(xs: seq<real>): real {
    if xs == [] then 0.0 else Sum(xs[..|xs| - 1]) + xs[|xs| - 1]
  }

  function SumSquares(xs: seq<real>): real {
    if xs == [] then 0.0 else SumSquares(xs[..|xs| - 1]) + Square(xs[|xs| - 1])
  }

  /** Sum of squared distances from `c`: the second pass of a two-pass variance. */
  function SumDeviations(xs: seq<real>, c: real): (d: real)
    ensures d >= 0.0
  {
    if xs == [] then 0.0 else SumDeviations(xs[..|xs| - 1], c) + Square(xs[|xs| - 1] - c)
  }

  function Mean(xs: seq<real>): real
    requires xs != []
  {
    Sum(xs) / |xs| as real
  }

  /** Two-pass population variance. */
  function Variance(xs: seq<real>): (v: real)
    requires xs != []
    ensures v >= 0.0
  {
    DivideNonNegative(SumDeviations(xs, Mean(xs)), |xs| as real);
    SumDeviations(xs, Mean(xs)) / |xs| as real
  }

  /** The last `n` entries, or all of them. */
  function LastN<T>(xs: seq<T>, n: nat): (w: seq<T>)
    ensures |w| == if |xs| < n then |xs| else n
  {
    if |xs| <= n then xs else xs[|xs| - n..]
  }

  lemma DivideNonNegative(a: real, b: real)
    requires a >= 0.0 && b > 0.0
    ensures a / b >= 0.0
  {
  }

  lemma {:induction false} SumAppend(xs: seq<real>, ys: seq<real>)
    ensures Sum(xs + ys) == Sum(xs) + Sum(ys)
    decreases |ys|
  {
    if ys == [] {
      assert xs + ys == xs;
    } else {
      SumAppend(xs, ys[..|ys| - 1]);
      assert (xs + ys)[..|xs + ys| - 1] == xs + ys[..|ys| - 1];
    }
  }

  lemma {:induction false} SumSquaresAppend(xs: seq<real>, ys: seq<real>)
    ensures SumSquares(xs + ys) == SumSquares(xs) + SumSquares(ys)
    decreases |ys|
  {
    if ys == [] {
      assert xs + ys == xs;
    } else {
      SumSquaresAppend(xs, ys[..|ys| - 1]);
      assert (xs + ys)[..|xs + ys| - 1] == xs + ys[..|ys| - 1];
    }
  }

  /** The one-pass and two-pass forms of the squared deviations agree. */
  lemma {:induction false} DeviationsExpand(xs: seq<real>, c: real)
    ensures SumDeviations(xs, c)
      == SumSquares(xs) - 2.0 * (c * Sum(xs)) + |xs| as real * Square(c)
  {
    hide Square;
    if xs == [] {
      ExpandStep(0.0, c, 0.0, 0.0, Square(c));
    } else {
      var init, x := xs[..|xs| - 1], xs[|xs| - 1];
      DeviationsExpand(init, c);
      SquareOfDifference(x, c);
      ExpandStep(|init| as real, c, x, Sum(init), Square(c));
    }
  }

  lemma ExpandStep(k: real, c: real, x: real, s: real, cc: real)
    ensures c * (s + x) == c * s + c * x
    ensures (k + 1.0) * cc == k * cc + cc
  {
  }

  /** Around the mean: the deviations are SumSquares - n * mean^2. */
  lemma DeviationsAroundMean(xs: seq<real>)
    requires xs != []
    ensures |xs| as real * Mean(xs) == Sum(xs)
    ensures SumDeviations(xs, Mean(xs)) == SumSquares(xs) - |xs| as real * Square(Mean(xs))
  {
    hide Square;
    QuotientTimes(Sum(xs), |xs| as real);
    DeviationsExpand(xs, Mean(xs));
    MeanAlgebra(|xs| as real, Mean(xs), Sum(xs));
  }

  lemma MeanAlgebra(n: real, m: real, s: real)
    requires n * m == s
    ensures m * s == n * Square(m) && Square(s) == n * (n * Square(m))
  {
    SquareOfProduct(n, m);
  }

  /** Cauchy-Schwarz: n * sum of squares is at least the square of the sum. */
  lemma CauchySchwarz(xs: seq<real>)
    ensures |xs| as real * SumSquares(xs) >= Square(Sum(xs))
  {
    if xs == [] {
      assert Square(0.0) == 0.0;
    } else {
      hide Square, Sum, SumSquares, SumDeviations;
      var n, m, d := MeanFacts(xs);
      CauchySchwarzAlgebra(n, m, d, SumSquares(xs), Sum(xs));
    }
  }

  /** The facts about a sample that the algebra needs, as plain numbers. */
  lemma MeanFacts(xs: seq<real>) returns (n: real, m: real, d: real)
    requires xs != []
    ensures n == |xs| as real && m == Mean(xs) && d == SumDeviations(xs, m)
    ensures n * m == Sum(xs) && d == SumSquares(xs) - n * Square(m)
  {
    hide Square, Sum, SumSquares, SumDeviations;
    n, m, d := |xs| as real, Mean(xs), SumDeviations(xs, Mean(xs));
    DeviationsAroundMean(xs);
  }

  lemma CauchySchwarzAlgebra(n: real, m: real, d: real, q: real, s: real)
    requires n >= 0.0 && d >= 0.0 && n * m == s && d == q - n * Square(m)
    ensures n * q >= Square(s)
  {
    MeanAlgebra(n, m, s);
    ProductNonNegative(n, d);
    DistributeOver(n, d, n * Square(m));
  }

  lemma DistributeOver(k: real, a: real, b: real)
    ensures k * (a + b) == k * a + k * b
  {
  }

  /** Samuelson's inequality for the newest sample: it lies within
      sqrt(n - 1) population deviations of the mean of its own sample. */
  lemma Samuelson(xs: seq<real>)
    requires xs != []
    ensures |xs| as real * Square(xs[|xs| - 1] - Mean(xs))
      <= (|xs| - 1) as real * SumDeviations(xs, Mean(xs))
  {
    hide Square, Sum, SumSquares, SumDeviations;
    var n, m, d := MeanFacts(xs);
    var x, s, q, rest := LastApart(xs, m);
    SamuelsonAlgebra(n - 1.0, m, x, s, q, rest);
  }

  /** A sample with its newest entry set apart. */
  lemma LastApart(xs: seq<real>, m: real) returns (x: real, s: real, q: real, rest: real)
    requires xs != []
    ensures x == xs[|xs| - 1] && s + x == Sum(xs)
    ensures rest + Square(x - m) == SumDeviations(xs, m)
    ensures (|xs| - 1) as real * q >= Square(s)
    ensures rest == q - 2.0 * (m * s) + (|xs| - 1) as real * Square(m)
  {
    hide Square;
    var init := xs[..|xs| - 1];
    x, s, q, rest := xs[|xs| - 1], Sum(init), SumSquares(init), SumDeviations(init, m);
    DeviationsExpand(init, m);
    CauchySchwarz(init);
  }

  lemma SamuelsonAlgebra(k: real, m: real, x: real, s: real, q: real, rest: real)
    requires (k + 1.0) * m == s + x && k * q >= Square(s)
    requires rest == q - 2.0 * (m * s) + k * Square(m)
    ensures (k + 1.0) * Square(x - m) <= k * (rest + Square(x - m))
  {
    var p, d := k * m, x - m;
    ExpandStep(k, 0.0, 0.0, 0.0, m);
    assert d == p - s;
    assert k * rest == k * q - 2.0 * (p * s) + k * (k * Square(m));
    SquareOfProduct(k, m);
    SquareOfDifference(p, s);
    assert s * p == p * s;
    DistributeOver(k, rest, Square(d));
    ExpandStep(k, 0.0, 0.0, 0.0, Square(d));
  }

  lemma AloneIsMean(vols: seq<real>)
    requires |vols| == 1
    ensures Mean(vols) == vols[0]
  {
    assert vols[..0] == [];
    assert Sum(vols) == vols[0];
  }

  /** The newest sample's own part of the deviations. */
  lemma OwnDeviation(vols: seq<real>, c: real)
    requires vols != []
    ensures Square(vols[|vols| - 1] - c) <= SumDeviations(vols, c)
  {
    assert SumDeviations(vols[..|vols| - 1], c) >= 0.0;
  }

  /** A window that slides by one keeps the last n samples. */
  lemma LastNSlides<T>(xs: seq<T>, n: nat, x: T)
    ensures LastN(xs + [x], n) ==
      if |LastN(xs, n)| < n then LastN(xs, n) + [x] else (LastN(xs, n) + [x])[1..]
  {
  }
}
