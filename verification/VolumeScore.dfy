/** The dashboard's online volume statistics: Welford's update against the
    two-pass mean and deviations of the whole history. */
module VolumeScore {
  import opened RealAlgebra
  import opened RealMath
  import opened Statistics

  datatype Welford = Welford(n: nat, mean: real, m2: real) {

    function Update(vol: real): Welford {
      var d := vol - mean;
      var mean' := mean + d / (n + 1) as real;
      Welford(n + 1, mean', m2 + d * (vol - mean'))
    }

    /** The score shown once `vol` has been absorbed. */
    function Score(sqrt: real -> real, vol: real): real {
      var std := sqrt(if n > 1 then m2 / (n - 1) as real else 0.0);
      if std > 0.0 then (vol - mean) / std else 0.0
    }
  }

  function After(vols: seq<real>): Welford {
    if vols == [] then Welford(0, 0.0, 0.0) else After(vols[..|vols| - 1]).Update(vols[|vols| - 1])
  }

  lemma StepIdentity(k: real, m: real, t: real)
    ensures Square(m + (k + 1.0) * t) - (k + 1.0) * Square(m + t)
      == (k + 1.0) * (k * Square(t)) - k * Square(m)
  {
  }

  lemma GainIdentity(k: real, t: real)
    requires k >= 0.0
    ensures ((k + 1.0) * t) * (k * t) == (k + 1.0) * (k * Square(t)) >= 0.0
  {
    ProductNonNegative(k, Square(t));
    ProductNonNegative(k + 1.0, k * Square(t));
  }

  lemma MeanMoves(k: real, m: real, t: real)
    ensures (k + 1.0) * (m + t) == k * m + (m + (k + 1.0) * t)
    ensures (m + (k + 1.0) * t) - (m + t) == k * t
  {
  }

  /** One update, in numbers: k old samples of mean m and deviations d. */
  lemma UpdateAlgebra(k: real, n: real, m: real, d: real, s: real, q: real, x: real, m': real)
    requires k >= 0.0 && n == k + 1.0
    requires k * m == s && d == q - k * Square(m) && m' == m + (x - m) / n
    ensures n * m' == s + x
    ensures d + (x - m) * (x - m') == (q + Square(x)) - n * Square(m')
    ensures (x - m) * (x - m') >= 0.0
  {
    hide Square;
    var t := (x - m) / n;
    QuotientTimes(x - m, n);
    assert x == m + (k + 1.0) * t;
    StepIdentity(k, m, t);
    GainIdentity(k, t);
    MeanMoves(k, m, t);
  }

  /** After any history the running mean and m2 are the mean and the sum of
      squared deviations of the whole history. */
  lemma {:induction false} WelfordIsTwoPass(vols: seq<real>)
    ensures After(vols).n == |vols|
    ensures vols != [] ==>
      After(vols).mean == Mean(vols) && After(vols).m2 == SumDeviations(vols, Mean(vols))
    ensures vols != [] ==> After(vols[..|vols| - 1]).m2 <= After(vols).m2
  {
    if vols != [] {
      var init, x := vols[..|vols| - 1], vols[|vols| - 1];
      WelfordIsTwoPass(init);
      UpdateIsTwoPass(After(init), init, vols, x);
    }
  }

  lemma UpdateIsTwoPass(w: Welford, init: seq<real>, vols: seq<real>, x: real)
    requires vols != [] && init == vols[..|vols| - 1] && x == vols[|vols| - 1]
    requires w.n == |init|
    requires init != [] ==> w.mean == Mean(init) && w.m2 == SumDeviations(init, Mean(init))
    requires init == [] ==> w.mean == 0.0 && w.m2 == 0.0
    ensures w.Update(x).mean == Mean(vols)
    ensures w.Update(x).m2 == SumDeviations(vols, Mean(vols)) && w.m2 <= w.Update(x).m2
  {
    hide Square, Sum, SumSquares, SumDeviations, Mean, Welford.Update;
    var u := w.Update(x);
    UpdateFacts(w, init, vols, x);
    DeviationsAroundMean(vols);
    SameTwoPass(|vols| as real, Mean(vols), u.mean, Sum(vols), SumSquares(vols),
      SumDeviations(vols, Mean(vols)), u.m2);
  }

  lemma SameTwoPass(n: real, a: real, b: real, s: real, q: real, da: real, db: real)
    requires n > 0.0 && n * a == s && n * b == s
    requires da == q - n * Square(a) && db == q - n * Square(b)
    ensures a == b && da == db
  {
    SameMean(n, a, b);
  }

  lemma UpdateFacts(w: Welford, init: seq<real>, vols: seq<real>, x: real)
    requires vols != [] && init == vols[..|vols| - 1] && x == vols[|vols| - 1]
    requires w.n == |init|
    requires init != [] ==> w.mean == Mean(init) && w.m2 == SumDeviations(init, Mean(init))
    requires init == [] ==> w.mean == 0.0 && w.m2 == 0.0
    ensures var u, n := w.Update(x), |vols| as real;
      && n * u.mean == Sum(vols)
      && u.m2 == SumSquares(vols) - n * Square(u.mean)
      && w.m2 <= u.m2
  {
    hide Square, Sum, SumSquares, SumDeviations, Mean;
    var k, m, d := OldFacts(w, init);
    LastAdds(vols);
    UpdateAlgebra(k, |vols| as real, m, d, Sum(init), SumSquares(init), x, w.Update(x).mean);
  }

  lemma LastAdds(vols: seq<real>)
    requires vols != []
    ensures var init, x := vols[..|vols| - 1], vols[|vols| - 1];
      Sum(vols) == Sum(init) + x && SumSquares(vols) == SumSquares(init) + Square(x)
  {
  }

  lemma SameMean(n: real, a: real, b: real)
    requires n > 0.0 && n * a == n * b
    ensures a == b
  {
    if a < b { ScaleLt(n, a, b); }
    if b < a { ScaleLt(n, b, a); }
  }

  lemma OldFacts(w: Welford, init: seq<real>) returns (k: real, m: real, d: real)
    requires w.n == |init|
    requires init != [] ==> w.mean == Mean(init) && w.m2 == SumDeviations(init, Mean(init))
    requires init == [] ==> w.mean == 0.0 && w.m2 == 0.0
    ensures k == |init| as real && m == w.mean && d == w.m2
    ensures k * m == Sum(init) && d == SumSquares(init) - k * Square(m)
  {
    hide Square, SumDeviations, Mean;
    if init == [] {
      k, m, d := 0.0, 0.0, 0.0;
      assert 0.0 * m == 0.0 && 0.0 * Square(m) == 0.0;
    } else {
      k, m, d := MeanFacts(init);
    }
  }

  /** The displayed score uses the sample deviation of a sample that contains the
      scored trade, so n times its square never exceeds (n - 1)^2. */
  lemma DisplayedScoreBound(sqrt: real -> real, vols: seq<real>)
    requires IsRoot(sqrt) && vols != []
    ensures var n, z := |vols| as real, After(vols).Score(sqrt, vols[|vols| - 1]);
      n * Square(z) <= Square(n - 1.0)
  {
    hide Square, Sum, SumDeviations, Mean, After;
    WelfordIsTwoPass(vols);
    Samuelson(vols);
    var n := |vols|;
    var w := After(vols);
    RootPositive(sqrt, 0.0);
    SquarePositive(0.0);
    if n > 1 {
      ScoreBoundAt(sqrt, n as real, w.m2, vols[n - 1] - w.mean);
    }
  }

  lemma ScoreBoundAt(sqrt: real -> real, n: real, m2: real, d: real)
    requires IsRoot(sqrt) && n >= 2.0 && m2 >= 0.0 && n * Square(d) <= (n - 1.0) * m2
    ensures var std := sqrt(m2 / (n - 1.0));
      n * Square(if std > 0.0 then d / std else 0.0) <= Square(n - 1.0)
  {
    var v := m2 / (n - 1.0);
    QuotientTimes(m2, n - 1.0);
    DivideNonNegative(m2, n - 1.0);
    RootPositive(sqrt, v);
    SquarePositive(0.0);
    if v > 0.0 {
      var std := sqrt(v);
      var z := d / std;
      QuotientTimes(d, std);
      SquareOfProduct(std, z);
      BoundFromVariance(n, v, Square(z), Square(d), m2);
    }
  }

  lemma BoundFromVariance(n: real, v: real, zz: real, dd: real, m2: real)
    requires n >= 2.0 && v > 0.0 && v * zz == dd && (n - 1.0) * v == m2 && n * dd <= (n - 1.0) * m2
    ensures n * zz <= Square(n - 1.0)
  {
    var a, b := n * zz, Square(n - 1.0);
    assert n * dd == v * a;
    assert (n - 1.0) * m2 == v * b;
    if a > b { ScaleLt(v, b, a); }
  }

  /** What the shown score is: positive exactly when the newest volume exceeds the
      mean of the whole history, negative exactly when it falls below, and in
      size its distance from that mean in sample deviations. */
  lemma DisplayedScoreMeans(sqrt: real -> real, vols: seq<real>)
    requires IsRoot(sqrt) && vols != []
    ensures var n, z := |vols|, After(vols).Score(sqrt, vols[|vols| - 1]);
      var d, m2 := vols[n - 1] - Mean(vols), SumDeviations(vols, Mean(vols));
      && (z > 0.0 <==> d > 0.0) && (z < 0.0 <==> d < 0.0)
      && m2 * Square(z) == (n - 1) as real * Square(d)
  {
    hide Square, Sum, SumDeviations, Mean, After;
    WelfordIsTwoPass(vols);
    var n := |vols|;
    var d, m2 := vols[n - 1] - Mean(vols), SumDeviations(vols, Mean(vols));
    if n == 1 {
      AloneIsMean(vols);
      RootPositive(sqrt, 0.0);
      SquarePositive(0.0);
      assert m2 * 0.0 == 0.0;
    } else {
      OwnDeviation(vols, Mean(vols));
      DeviationScore(sqrt, (n - 1) as real, m2, d);
    }
  }

  class VolumeState {
    const sqrt: real -> real
    var volN: nat
    var volMean: real
    var volM2: real
    var zScore: real

    function View(): Welford
      reads this
    {
      Welford(volN, volMean, volM2)
    }

    constructor (sqrt: real -> real)
      ensures View() == After([]) && zScore == 0.0 && this.sqrt == sqrt
    {
      this.sqrt := sqrt;
      volN, volMean, volM2, zScore := 0, 0.0, 0.0, 0.0;
    }

    method UpdateVolZ(vol: real) returns (z: real)
      modifies this
      ensures View() == old(View()).Update(vol)
      ensures z == zScore == View().Score(sqrt, vol)
    {
      ghost var next := View().Update(vol);
      volN := volN + 1;
      var d := vol - volMean;
      volMean := volMean + d / volN as real;
      assert volMean == next.mean;
      var d2 := vol - volMean;
      volM2 := volM2 + d * d2;
      var std := sqrt(if volN > 1 then volM2 / (volN - 1) as real else 0.0);
      zScore := if std > 0.0 then (vol - volMean) / std else 0.0;
      z := zScore;
    }
  }
}
