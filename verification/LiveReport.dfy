/** The standalone engine's report: VWAP, a two-pass Z-score whose current value
    belongs to its own sample, and a risk level. */
module LiveReport {
  import opened RealAlgebra
  import opened RealMath
  import opened Statistics
  import opened WeightedPrice
  import opened TickHistory

  datatype MarketTick = MarketTick(
    timestamp: int, price: real, volume: real, bidLiquidity: real, askLiquidity: real)

  datatype Risk = NoData | Safe | Warning | CriticalManipulation

  datatype Report = Report(
    timestamp: int, vwap: real, imbalance: real, zScore: real, whale: bool, risk: Risk)

  function Volumes(ticks: seq<MarketTick>): (v: seq<real>)
    ensures |v| == |ticks|
  {
    seq(|ticks|, i requires 0 <= i < |ticks| => ticks[i].volume)
  }

  function FillsOf(ticks: seq<MarketTick>): (f: seq<Fill>)
    ensures |f| == |ticks|
  {
    seq(|ticks|, i requires 0 <= i < |ticks| => Fill(ticks[i].price, ticks[i].volume))
  }

  function VwapOf(ticks: seq<MarketTick>): real {
    if ticks == [] then 0.0
    else if SumQuantity(FillsOf(ticks)) > 0.0
    then SumPv(FillsOf(ticks)) / SumQuantity(FillsOf(ticks))
    else ticks[|ticks| - 1].price
  }

  function ZScoreOf(sqrt: real -> real, volumes: seq<real>, current: real): real {
    if |volumes| < 2 then 0.0
    else if sqrt(Variance(volumes)) > 0.0 then (current - Mean(volumes)) / sqrt(Variance(volumes))
    else 0.0
  }

  function ImbalanceOf(bid: real, ask: real): real {
    if bid + ask == 0.0 then 0.0 else (bid - ask) / (bid + ask)
  }

  function RiskOf(whale: bool, imbalance: real, z: real, threshold: real): Risk {
    if Abs(z) > threshold && whale then CriticalManipulation
    else if whale && Abs(imbalance) > 0.6 then Warning
    else Safe
  }

  function ReportOf(sqrt: real -> real, whaleThreshold: real, zThreshold: real,
                    ticks: seq<MarketTick>): Report {
    if ticks == [] then Report(0, 0.0, 0.0, 0.0, false, NoData)
    else
      var latest := ticks[|ticks| - 1];
      var z := ZScoreOf(sqrt, Volumes(ticks), latest.volume);
      var imbalance := ImbalanceOf(latest.bidLiquidity, latest.askLiquidity);
      var whale := latest.volume >= whaleThreshold;
      Report(latest.timestamp, VwapOf(ticks), imbalance, z, whale,
             RiskOf(whale, imbalance, z, zThreshold))
  }

  // ------------------------------------------------------------- bounds

  /** The reported VWAP lies within the prices held, also when it falls back. */
  lemma VwapBetween(ticks: seq<MarketTick>, lo: real, hi: real)
    requires ticks != [] && PricesWithin(FillsOf(ticks), lo, hi)
    ensures lo <= VwapOf(ticks) <= hi
  {
    hide SumPv, SumQuantity;
    if SumQuantity(FillsOf(ticks)) > 0.0 {
      WeightedMeanBetween(FillsOf(ticks), lo, hi);
    } else {
      assert FillsOf(ticks)[|ticks| - 1].price == ticks[|ticks| - 1].price;
    }
  }

  lemma ImbalanceBetween(bid: real, ask: real)
    requires bid >= 0.0 && ask >= 0.0
    ensures -1.0 <= ImbalanceOf(bid, ask) <= 1.0
  {
    if bid + ask != 0.0 {
      QuotientBetween(bid - ask, bid + ask, -1.0, 1.0);
    }
  }

  /** The square of d / sqrt(v), without the root. */
  lemma QuotientSquared(sqrt: real -> real, d: real, v: real)
    requires IsRoot(sqrt) && v > 0.0
    ensures sqrt(v) > 0.0 && v * Square(d / sqrt(v)) == Square(d)
  {
    RootPositive(sqrt, v);
    var r := sqrt(v);
    var z := d / r;
    QuotientTimes(d, r);
    SquareOfProduct(r, z);
  }

  /** The newest volume is part of the sample it is scored against, so its squared
      score never exceeds the sample size minus one. */
  lemma OwnSampleBound(sqrt: real -> real, volumes: seq<real>)
    requires IsRoot(sqrt) && volumes != []
    ensures Square(ZScoreOf(sqrt, volumes, volumes[|volumes| - 1])) <= (|volumes| - 1) as real
  {
    hide Square, Sum, SumDeviations;
    assert Square(0.0) == 0.0 by { SquarePositive(0.0); }
    var n := |volumes|;
    if n >= 2 {
      var v, d := Variance(volumes), volumes[n - 1] - Mean(volumes);
      RootPositive(sqrt, v);
      if v > 0.0 {
        Samuelson(volumes);
        QuotientSquared(sqrt, d, v);
        QuotientTimes(SumDeviations(volumes, Mean(volumes)), n as real);
        BoundAlgebra(n as real, v, Square(d / sqrt(v)), Square(d));
      }
    }
  }

  lemma BoundAlgebra(n: real, v: real, zz: real, dd: real)
    requires n > 0.0 && v > 0.0 && v * zz == dd && n * dd <= (n - 1.0) * (n * v)
    ensures zz <= n - 1.0
  {
    var k := n * v;
    ProductPositive(n, v);
    assert n * dd == k * zz;
    assert (n - 1.0) * k == k * (n - 1.0);
    if zz > n - 1.0 { ScaleLt(k, n - 1.0, zz); }
  }

  /** n - 1 ticks without volume, then one of volume `spike`. */
  function QuietThenSpike(n: nat, spike: real): (v: seq<real>)
    requires n > 0
    ensures |v| == n
  {
    seq(n - 1, _ => 0.0) + [spike]
  }

  lemma {:induction false} SumOfZeros(k: nat)
    ensures Sum(seq(k, _ => 0.0)) == 0.0 && SumSquares(seq(k, _ => 0.0)) == 0.0
  {
    if k > 0 {
      SumOfZeros(k - 1);
      assert seq(k, _ => 0.0)[..k - 1] == seq(k - 1, _ => 0.0);
      SquarePositive(0.0);
    }
  }

  /** The bound is attained: a single spike scores exactly sqrt(n - 1). */
  lemma SpikeAttainsBound(sqrt: real -> real, n: nat, spike: real)
    requires IsRoot(sqrt) && n >= 2 && spike > 0.0
    ensures var v := QuietThenSpike(n, spike);
      && ZScoreOf(sqrt, v, spike) > 0.0
      && Square(ZScoreOf(sqrt, v, spike)) == (n - 1) as real
  {
    var v := QuietThenSpike(n, spike);
    SpikeSums(n, spike);
    hide Square, Sum, SumSquares, SumDeviations, QuietThenSpike;
    var k, m, d := MeanFacts(v);
    SpikeAlgebra(k, m, d, spike, Square(spike), Variance(v));
    QuotientSquared(sqrt, spike - m, Variance(v));
    SpikeScore(k, m, Variance(v), Square((spike - m) / sqrt(Variance(v))), Square(spike - m));
    QuotientHasSign(spike - m, sqrt(Variance(v)));
  }

  lemma SpikeSums(n: nat, spike: real)
    requires n >= 2
    ensures Sum(QuietThenSpike(n, spike)) == spike
    ensures SumSquares(QuietThenSpike(n, spike)) == Square(spike)
  {
    SumOfZeros(n - 1);
    assert QuietThenSpike(n, spike)[..n - 1] == seq(n - 1, _ => 0.0);
  }

  lemma SpikeAlgebra(n: real, m: real, d: real, spike: real, q: real, v: real)
    requires n >= 2.0 && spike > 0.0 && n * m == spike && q == Square(spike)
    requires d == q - n * Square(m) && v == d / n
    ensures v == (n - 1.0) * Square(m) && m > 0.0 && v > 0.0
    ensures spike - m == (n - 1.0) * m && spike - m > 0.0
  {
    if m <= 0.0 { ScaleLe(n, m, 0.0); }
    SquarePositive(m);
    SquareOfProduct(n, m);
    var s := Square(m);
    assert n * ((n - 1.0) * s) == n * (n * s) - n * s;
    QuotientUnique(d, n, (n - 1.0) * s);
    ProductPositive(n - 1.0, s);
    ProductPositive(n - 1.0, m);
  }

  lemma SpikeScore(n: real, m: real, v: real, zz: real, dd: real)
    requires v == (n - 1.0) * Square(m) && v > 0.0 && v * zz == dd
    requires dd == Square((n - 1.0) * m)
    ensures zz == n - 1.0
  {
    SquareOfProduct(n - 1.0, m);
    assert v * (n - 1.0) == (n - 1.0) * ((n - 1.0) * Square(m));
    QuotientUnique(dd, v, zz);
    QuotientUnique(dd, v, n - 1.0);
  }

  lemma AboveSquared(z: real, threshold: real)
    requires threshold >= 0.0
    ensures Abs(z) > threshold <==> Square(z) > Square(threshold)
  {
    assert Square(-z) == Square(z);
    SquareOrder(Abs(z), threshold);
  }

  /** A snapshot of n ticks that is reported critical exists exactly when n - 1
      exceeds the squared threshold: below that no market movement, however
      large, can raise the alarm. */
  lemma CriticalPossibleIff(sqrt: real -> real, whale: real, threshold: real, n: nat)
    requires IsRoot(sqrt) && threshold >= 0.0 && n > 0
    ensures (exists ticks: seq<MarketTick> ::
        |ticks| == n && ReportOf(sqrt, whale, threshold, ticks).risk == CriticalManipulation)
      <==> (n - 1) as real > Square(threshold)
  {
    hide ZScoreOf, VwapOf, ImbalanceOf, Square;
    forall ticks: seq<MarketTick>
      | |ticks| == n && ReportOf(sqrt, whale, threshold, ticks).risk == CriticalManipulation
      ensures (n - 1) as real > Square(threshold)
    {
      OwnSampleBound(sqrt, Volumes(ticks));
      AboveSquared(ReportOf(sqrt, whale, threshold, ticks).zScore, threshold);
    }
    if (n - 1) as real > Square(threshold) {
      var spike := Max(whale, 1.0);
      var volumes := QuietThenSpike(n, spike);
      var ticks := seq(n, i requires 0 <= i < n => MarketTick(0, 1.0, volumes[i], 1.0, 1.0));
      assert Volumes(ticks) == volumes;
      SpikeAttainsBound(sqrt, n, spike);
      AboveSquared(ZScoreOf(sqrt, volumes, spike), threshold);
      assert ReportOf(sqrt, whale, threshold, ticks).risk == CriticalManipulation;
    }
  }

  /** At the threshold 3.0 of the sample program fewer than 11 held ticks are never
      critical; at the default 3.5, fewer than 14. */
  lemma AlertNeedsHistory(sqrt: real -> real, whale: real, ticks: seq<MarketTick>)
    requires IsRoot(sqrt)
    ensures |ticks| < 11 ==> ReportOf(sqrt, whale, 3.0, ticks).risk != CriticalManipulation
    ensures |ticks| < 14 ==> ReportOf(sqrt, whale, 3.5, ticks).risk != CriticalManipulation
  {
    hide ZScoreOf, VwapOf, ImbalanceOf;
    if ticks != [] {
      CriticalPossibleIff(sqrt, whale, 3.0, |ticks|);
      CriticalPossibleIff(sqrt, whale, 3.5, |ticks|);
      assert Square(3.0) == 9.0 && Square(3.5) == 12.25;
    }
  }

  // ------------------------------------------------------- the report

  /** The report `r` put in terms of the ticks it is about, without root or
      quotient. */
  ghost predicate Describes(r: Report, whaleThreshold: real, zThreshold: real, ticks: seq<MarketTick>)
    requires ticks != []
  {
    var n := |ticks|;
    var latest := ticks[n - 1];
    var volumes := seq(n, i requires 0 <= i < n => ticks[i].volume);
    var fills := seq(n, i requires 0 <= i < n => Fill(ticks[i].price, ticks[i].volume));
    && r.timestamp == latest.timestamp
    && PriceRead(r.vwap, fills, latest.price)
    && BookRead(r.imbalance, latest.bidLiquidity, latest.askLiquidity)
    && ScoreRead(r.zScore, volumes)
    && (r.whale <==> latest.volume >= whaleThreshold)
    && r.risk != NoData
    && (r.risk == CriticalManipulation <==>
        latest.volume >= whaleThreshold && Distant(zThreshold, volumes))
    && (r.risk == Warning <==>
        r.risk != CriticalManipulation && latest.volume >= whaleThreshold
        && Lopsided(latest.bidLiquidity, latest.askLiquidity))
  }

  /** The price times the volume traded is the money moved; without volume it is
      the last price. */
  ghost predicate PriceRead(vwap: real, fills: seq<Fill>, last: real) {
    if SumQuantity(fills) > 0.0 then SumQuantity(fills) * vwap == SumPv(fills) else vwap == last
  }

  /** The score is on the side of the newest volume's distance d from the mean, and
      the deviations times its square are n * d^2. */
  ghost predicate ScoreRead(z: real, volumes: seq<real>)
    requires volumes != []
  {
    var n := |volumes|;
    var mean := Sum(volumes) / n as real;
    var d := volumes[n - 1] - mean;
    && (z > 0.0 <==> d > 0.0) && (z < 0.0 <==> d < 0.0)
    && SumDeviations(volumes, mean) * Square(z) == n as real * Square(d)
  }

  /** The newest volume's distance from the mean exceeds `threshold` deviations;
      any distance exceeds a negative threshold. */
  ghost predicate Distant(threshold: real, volumes: seq<real>)
    requires volumes != []
  {
    var n := |volumes|;
    var mean := Sum(volumes) / n as real;
    threshold < 0.0
    || n as real * Square(volumes[n - 1] - mean) > Square(threshold) * SumDeviations(volumes, mean)
  }

  /** The imbalance is the bids' excess as a share of both sides. */
  ghost predicate BookRead(imbalance: real, bid: real, ask: real) {
    if bid + ask == 0.0 then imbalance == 0.0 else (bid + ask) * imbalance == bid - ask
  }

  predicate Lopsided(bid: real, ask: real) {
    bid + ask != 0.0 && Abs(bid - ask) > 0.6 * Abs(bid + ask)
  }

  /** For books without negative sizes: one side holds more than four times the
      other. */
  lemma LopsidedMeansFourTimes(bid: real, ask: real)
    requires bid >= 0.0 && ask >= 0.0
    ensures Lopsided(bid, ask) <==> bid > 4.0 * ask || ask > 4.0 * bid
    ensures BookRead(ImbalanceOf(bid, ask), bid, ask)
    ensures ImbalanceOf(bid, ask) > 0.0 <==> bid > ask
    ensures ImbalanceOf(bid, ask) < 0.0 <==> bid < ask
  {
    if bid + ask != 0.0 {
      QuotientTimes(bid - ask, bid + ask);
      QuotientHasSign(bid - ask, bid + ask);
    }
  }

  lemma LopsidedIff(bid: real, ask: real)
    ensures Abs(ImbalanceOf(bid, ask)) > 0.6 <==> Lopsided(bid, ask)
    ensures BookRead(ImbalanceOf(bid, ask), bid, ask)
  {
    if bid + ask != 0.0 {
      QuotientTimes(bid - ask, bid + ask);
      ShareOf(bid + ask, ImbalanceOf(bid, ask), bid - ask);
    }
  }

  lemma ShareOf(t: real, q: real, e: real)
    requires t != 0.0 && t * q == e
    ensures Abs(q) > 0.6 <==> Abs(e) > 0.6 * Abs(t)
  {
    ProductAbs(t, q);
    assert Abs(t) > 0.0;
    hide Abs;
    PositiveShare(Abs(t), Abs(q), Abs(e));
  }

  lemma PositiveShare(t: real, q: real, e: real)
    requires t > 0.0 && t * q == e
    ensures q > 0.6 <==> e > 0.6 * t
  {
    if q > 0.6 { ScaleLt(t, 0.6, q); } else { ScaleLe(t, q, 0.6); }
  }

  lemma ProductAbs(a: real, b: real)
    ensures Abs(a * b) == Abs(a) * Abs(b)
  {
    if a < 0.0 {
      assert a * b == -((-a) * b);
    }
    if b < 0.0 {
      assert (if a < 0.0 then -a else a) * -b == -((if a < 0.0 then -a else a) * b);
      ProductNonNegative(Abs(a), Abs(b));
    } else {
      ProductNonNegative(Abs(a), Abs(b));
    }
  }

  lemma CriticalDistance(z: real, threshold: real, volumes: seq<real>)
    requires volumes != [] && ScoreRead(z, volumes)
    ensures Abs(z) > threshold <==> Distant(threshold, volumes)
  {
    hide Square, Sum, SumDeviations;
    var n := |volumes|;
    var mean := Sum(volumes) / n as real;
    OwnDeviation(volumes, mean);
    SquaresCompared(z, threshold, n as real, volumes[n - 1] - mean, SumDeviations(volumes, mean));
  }

  /** A squared score compared with a squared threshold, without dividing. */
  lemma SquaresCompared(z: real, threshold: real, n: real, d: real, deviations: real)
    requires deviations * Square(z) == n * Square(d) && 0.0 <= Square(d) <= deviations
    requires z > 0.0 <==> d > 0.0
    requires z < 0.0 <==> d < 0.0
    ensures Abs(z) > threshold <==> threshold < 0.0 || n * Square(d) > Square(threshold) * deviations
  {
    hide Square;
    SquarePositive(d);
    SquarePositive(z);
    if threshold >= 0.0 {
      AboveSquared(z, threshold);
      var a, b := Square(z), Square(threshold);
      assert b * deviations == deviations * b;
      if deviations > 0.0 {
        if a > b { ScaleLt(deviations, b, a); } else { ScaleLe(deviations, a, b); }
      } else {
        assert d == 0.0 && z == 0.0;
        SquarePositive(threshold);
        assert n * 0.0 == 0.0 && b * 0.0 == 0.0;
      }
    }
  }

  /** Every report describes its ticks, and reports no data exactly when there
      are none. */
  lemma ReportDescribes(sqrt: real -> real, whaleThreshold: real, zThreshold: real, ticks: seq<MarketTick>)
    requires IsRoot(sqrt)
    ensures var r := ReportOf(sqrt, whaleThreshold, zThreshold, ticks);
      && (r.risk == NoData <==> ticks == [])
      && (ticks != [] ==> Describes(r, whaleThreshold, zThreshold, ticks))
  {
    if ticks != [] {
      hide Square, Sum, SumDeviations, SumPv, SumQuantity, ImbalanceOf, Lopsided, BookRead, ZScoreOf, Mean;
      hide VwapOf, ScoreRead, PriceRead, Abs;
      var n := |ticks|;
      var latest := ticks[n - 1];
      var volumes := seq(n, i requires 0 <= i < n => ticks[i].volume);
      var fills := seq(n, i requires 0 <= i < n => Fill(ticks[i].price, ticks[i].volume));
      assert volumes == Volumes(ticks) && fills == FillsOf(ticks);
      LopsidedIff(latest.bidLiquidity, latest.askLiquidity);
      VwapMeans(ticks);
      ZScoreMeans(sqrt, volumes);
      CriticalDistance(ZScoreOf(sqrt, volumes, latest.volume), zThreshold, volumes);
    }
  }

  lemma VwapMeans(ticks: seq<MarketTick>)
    requires ticks != []
    ensures PriceRead(VwapOf(ticks), FillsOf(ticks), ticks[|ticks| - 1].price)
  {
    hide SumPv, SumQuantity;
    var fills := FillsOf(ticks);
    if SumQuantity(fills) > 0.0 { QuotientTimes(SumPv(fills), SumQuantity(fills)); }
  }

  lemma ZeroTimes(x: real)
    ensures x * 0.0 == 0.0
  {
  }

  lemma ZScoreMeans(sqrt: real -> real, volumes: seq<real>)
    requires IsRoot(sqrt) && volumes != []
    ensures ScoreRead(ZScoreOf(sqrt, volumes, volumes[|volumes| - 1]), volumes)
  {
    hide Square, Sum, SumDeviations;
    var n := |volumes|;
    var mean := Mean(volumes);
    if n == 1 {
      AloneIsMean(volumes);
      var d, z := volumes[0] - Sum(volumes) / 1 as real, ZScoreOf(sqrt, volumes, volumes[0]);
      assert d == 0.0 && z == 0.0;
      assert Square(0.0) == 0.0 by { SquarePositive(0.0); }
      ZeroTimes(SumDeviations(volumes, mean));
    } else {
      OwnDeviation(volumes, mean);
      DeviationScore(sqrt, n as real, SumDeviations(volumes, mean), volumes[n - 1] - mean);
    }
  }

  // ------------------------------------------------------- the program

  method CalculateVWAP(ticks: seq<MarketTick>) returns (vwap: real)
    ensures vwap == VwapOf(ticks)
  {
    if |ticks| == 0 {
      return 0.0;
    }
    var cumulativePv, cumulativeV := 0.0, 0.0;
    for i := 0 to |ticks|
      invariant cumulativePv == SumPv(FillsOf(ticks)[..i])
      invariant cumulativeV == SumQuantity(FillsOf(ticks)[..i])
    {
      assert FillsOf(ticks)[..i + 1][..i] == FillsOf(ticks)[..i];
      cumulativePv := cumulativePv + ticks[i].price * ticks[i].volume;
      cumulativeV := cumulativeV + ticks[i].volume;
    }
    assert FillsOf(ticks)[..|ticks|] == FillsOf(ticks);
    vwap := if cumulativeV > 0.0 then cumulativePv / cumulativeV else ticks[|ticks| - 1].price;
  }

  method CalculateZScore(sqrt: real -> real, ticks: seq<MarketTick>, current: real) returns (z: real)
    ensures z == ZScoreOf(sqrt, Volumes(ticks), current)
  {
    if |ticks| < 2 {
      return 0.0;
    }
    hide Square;
    ghost var volumes := Volumes(ticks);
    var sum := 0.0;
    for i := 0 to |ticks|
      invariant sum == Sum(volumes[..i])
    {
      assert volumes[..i + 1][..i] == volumes[..i];
      sum := sum + ticks[i].volume;
    }
    assert volumes[..|ticks|] == volumes;
    var mean := sum / |ticks| as real;
    var variance := 0.0;
    for i := 0 to |ticks|
      invariant variance == SumDeviations(volumes[..i], mean)
    {
      assert volumes[..i + 1][..i] == volumes[..i];
      variance := variance + Square(ticks[i].volume - mean);
    }
    variance := variance / |ticks| as real;
    var stdDev := sqrt(variance);
    z := if stdDev > 0.0 then (current - mean) / stdDev else 0.0;
  }

  class MarketAnalysisEngine {
    const tickHistory: HistoryRing<MarketTick>
    const whaleThreshold: real
    const zThreshold: real
    const sqrt: real -> real

    ghost predicate Valid()
      reads this, tickHistory, tickHistory.buffer
    {
      tickHistory.Valid()
    }

    /** The ticks a report is about: the newest max_size - 1. */
    ghost function Held(): seq<MarketTick>
      requires Valid()
      reads this, tickHistory, tickHistory.buffer
    {
      LastN(tickHistory.pushed, tickHistory.maxSize - 1)
    }

    constructor (historySize: nat, whaleThreshold: real, zThreshold: real, sqrt: real -> real)
      requires historySize > 0
      ensures Valid() && fresh(tickHistory) && fresh(tickHistory.buffer)
      ensures tickHistory.maxSize == historySize && tickHistory.pushed == []
      ensures this.whaleThreshold == whaleThreshold && this.zThreshold == zThreshold && this.sqrt == sqrt
    {
      tickHistory := new HistoryRing(historySize, MarketTick(0, 0.0, 0.0, 0.0, 0.0));
      this.whaleThreshold := whaleThreshold;
      this.zThreshold := zThreshold;
      this.sqrt := sqrt;
    }

    method ProcessTick(tick: MarketTick)
      requires Valid()
      modifies tickHistory, tickHistory.buffer
      ensures Valid()
      ensures tickHistory.pushed == old(tickHistory.pushed) + [tick]
    {
      tickHistory.Push(tick);
    }

    method GenerateLiveReport() returns (report: Report)
      requires Valid()
      ensures report == ReportOf(sqrt, whaleThreshold, zThreshold, Held())
      ensures IsRoot(sqrt) ==>
        (report.risk == NoData <==> Held() == [])
        && (Held() != [] ==> Describes(report, whaleThreshold, zThreshold, Held()))
      ensures IsRoot(sqrt) && zThreshold >= 0.0 && report.risk == CriticalManipulation ==>
        (|Held()| - 1) as real > Square(zThreshold)
    {
      hide Describes;
      var snapshot := tickHistory.GetSnapshot();
      if IsRoot(sqrt) {
        ReportDescribes(sqrt, whaleThreshold, zThreshold, snapshot);
      }
      if |snapshot| == 0 {
        return Report(0, 0.0, 0.0, 0.0, false, NoData);
      }
      if IsRoot(sqrt) && zThreshold >= 0.0 {
        CriticalPossibleIff(sqrt, whaleThreshold, zThreshold, |snapshot|);
      }
      var latest := snapshot[|snapshot| - 1];
      var vwap := CalculateVWAP(snapshot);
      var z := CalculateZScore(sqrt, snapshot, latest.volume);
      var imbalance := ImbalanceOf(latest.bidLiquidity, latest.askLiquidity);
      var isWhale := latest.volume >= whaleThreshold;
      var risk := Safe;
      if isWhale && Abs(imbalance) > 0.6 {
        risk := Warning;
      }
      if Abs(z) > zThreshold && isWhale {
        risk := CriticalManipulation;
      }
      report := Report(latest.timestamp, vwap, imbalance, z, isWhale, risk);
    }
  }
}
