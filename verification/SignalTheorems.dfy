/** What a published signal means, and what a concurrent reader can see. */
module SignalTheorems {
  import opened RealAlgebra
  import opened RealMath
  import opened Statistics
  import opened WeightedPrice
  import opened Engine
  import opened EngineHistory
  import V = Vacuum
  import RS = RollingStats
  import Vwap
  import OrderFlow
  import Decay

  // ------------------------------------------------ agreement at rest

  function NaiveVwap(fills: seq<Fill>): real {
    if SumQuantity(fills) > 0.000000000001 then SumPv(fills) / SumQuantity(fills) else 0.0
  }

  /** The imbalance between two consecutive books, by the indicator formula over
      the fields of their best levels. */
  function BookImbalance(prev: Tick, cur: Tick): real
    requires Usable(prev) && Usable(cur)
  {
    (if cur.bids[0].price >= prev.bids[0].price then cur.bids[0].size else 0.0)
    - (if cur.bids[0].price <= prev.bids[0].price then prev.bids[0].size else 0.0)
    - (if cur.asks[0].price <= prev.asks[0].price then cur.asks[0].size else 0.0)
    + (if cur.asks[0].price >= prev.asks[0].price then prev.asks[0].size else 0.0)
  }

  function BookImbalances(bs: seq<Tick>): (xs: seq<real>)
    requires forall i :: 0 <= i < |bs| ==> Usable(bs[i])
    ensures |xs| == if bs == [] then 0 else |bs| - 1
  {
    seq(if bs == [] then 0 else |bs| - 1, i requires 0 <= i < |bs| - 1 => BookImbalance(bs[i], bs[i + 1]))
  }

  function BookSize(b: Tick): real
    requires Usable(b)
  {
    (b.bids[0].size + b.asks[0].size) / 2.0
  }

  /** The mean of the two best sizes of each book after the first. */
  function BookSizes(bs: seq<Tick>): (xs: seq<real>)
    requires forall i :: 0 <= i < |bs| ==> Usable(bs[i])
    ensures |xs| == if bs == [] then 0 else |bs| - 1
  {
    seq(if bs == [] then 0 else |bs| - 1, i requires 0 <= i < |bs| - 1 => BookSize(bs[i + 1]))
  }

  /** The imbalances of all updates, one i updates old counting decay^i. */
  function NaiveOfi(decay: real, bs: seq<Tick>): real
    requires forall i :: 0 <= i < |bs| ==> Usable(bs[i])
  {
    (1.0 - decay) * Decay.Discounted(decay, BookImbalances(bs), 0)
  }

  /** The mean best sizes of all updates likewise, after a start at 1. */
  function NaiveScale(bs: seq<Tick>): real
    requires forall i :: 0 <= i < |bs| ==> Usable(bs[i])
  {
    Decay.Pow(0.98, |BookSizes(bs)|) + 0.02 * Decay.Discounted(0.98, BookSizes(bs), 0)
  }

  /** The money each trade moved on one side, 0 for the other side's trades. */
  function MoneyOf(ts: seq<Tick>, side: V.Side): (xs: seq<real>)
    requires forall i :: 0 <= i < |ts| ==> ts[i].Trade?
    ensures |xs| == |ts|
  {
    seq(|ts|, i requires 0 <= i < |ts| => if ts[i].side == side then ts[i].price * ts[i].quantity else 0.0)
  }

  /** The newest trade's score against the trades before it. */
  function NaiveVolumeZ(cfg: Config, quantities: seq<real>): real {
    if quantities == [] then 0.0
    else
      var n := |quantities| - 1;
      RS.NaiveScore(cfg.maths.sqrt, LastN(quantities[..n], cfg.volumeWindow), quantities[n])
  }

  /** The verdict on the newest book, from two-pass scores of its withdrawals. */
  ghost function NaiveVacuum(cfg: Config, depths: seq<V.Depths>): V.Result {
    if |depths| < 2 then V.QUIET
    else
      var n := |depths| - 1;
      V.Decide(cfg.vacuumTrigger,
        V.NaiveZ(cfg.maths.sqrt, cfg.vacuumWindow, V.Bids(depths[..n]), depths[n].bid),
        V.NaiveZ(cfg.maths.sqrt, cfg.vacuumWindow, V.Asks(depths[..n]), depths[n].ask))
  }

  lemma {:induction false} ZIsNaive(cfg: Config, h: seq<Tick>)
    ensures SortedOut(h)
    ensures ZAfter(cfg, h) == NaiveVolumeZ(cfg, Quantities(Trades(h)))
  {
    hide RS.Stats.Score, RS.NaiveScore, RS.After, LastN, CoreAfter;
    KindsSorted(h);
    if h != [] {
      var init, t := h[..|h| - 1], h[|h| - 1];
      ZIsNaive(cfg, init);
      if t.Trade? {
        TradeSide(cfg, init);
        AppendTrade(Trades(init), t);
        RS.ScoreIsNaive(cfg.volumeWindow, Quantities(Trades(init)), cfg.maths.sqrt, t.quantity);
      } else {
        assert Trades(h) == Trades(init);
      }
    }
  }

  /** A sample to compute with: 10 after 1 and 3 scores 8. */
  lemma ScoreOfTen(sqrt: real -> real)
    requires IsRoot(sqrt)
    ensures RS.NaiveScore(sqrt, [1.0, 3.0], 10.0) == 8.0
  {
    var w := [1.0, 3.0];
    assert w[..1] == [1.0] && w[..1][..0] == [];
    assert Sum(w[..1]) == 1.0;
    assert Mean(w) == 2.0;
    assert Square(-1.0) == 1.0 && Square(1.0) == 1.0;
    assert SumDeviations(w[..1], 2.0) == 1.0;
    assert Variance(w) == 1.0;
    RootOfSquare(sqrt, 1.0);
  }

  /** Sizes in a book are not negative. */
  ghost predicate SizesOk(h: seq<Tick>) {
    forall i :: 0 <= i < |h| && h[i].Book? ==> LevelsOk(h[i].bids) && LevelsOk(h[i].asks)
  }

  ghost predicate LevelsOk(levels: seq<Level>) {
    forall i :: 0 <= i < |levels| ==> levels[i].size >= 0.0
  }

  lemma {:induction false} DepthSumNonNegative(levels: seq<Level>)
    requires LevelsOk(levels)
    ensures DepthSum(levels) >= 0.0
  {
    if levels != [] { DepthSumNonNegative(levels[..|levels| - 1]); }
  }

  lemma {:induction false} DepthsNonNegative(h: seq<Tick>)
    requires SizesOk(h)
    ensures SortedOut(h) && V.NonNegative(DepthsOf(Books(h)))
  {
    KindsSorted(h);
    if h != [] {
      var init, t := h[..|h| - 1], h[|h| - 1];
      DepthsNonNegative(init);
      if Usable(t) {
        AppendBook(Books(init), t);
        DepthSumNonNegative(t.bids);
        DepthSumNonNegative(t.asks);
      } else {
        assert Books(h) == Books(init);
      }
    }
  }

  lemma {:induction false} VacuumIsNaive(cfg: Config, h: seq<Tick>)
    requires SizesOk(h)
    ensures SortedOut(h)
    ensures VacuumAfter(cfg, h) == NaiveVacuum(cfg, DepthsOf(Books(h)))
  {
    hide V.State.Verdict, V.NaiveZ, V.After, CoreAfter, DepthSum, V.Decide;
    KindsSorted(h);
    if h != [] {
      var init, t := h[..|h| - 1], h[|h| - 1];
      VacuumIsNaive(cfg, init);
      if Usable(t) {
        BookSide(cfg, init);
        DepthsNonNegative(init);
        AppendBook(Books(init), t);
        VerdictIsNaive(cfg, DepthsOf(Books(init)), DepthsAt(t));
        assert DepthsOf(Books(h)) == DepthsOf(Books(init)) + [DepthsAt(t)];
      } else {
        assert Books(h) == Books(init);
      }
    }
  }

  lemma VerdictIsNaive(cfg: Config, depths: seq<V.Depths>, next: V.Depths)
    requires V.NonNegative(depths)
    ensures V.After(cfg.vacuumWindow, cfg.vacuumTrigger, depths).Verdict(cfg.maths.sqrt, next.bid, next.ask)
      == NaiveVacuum(cfg, depths + [next])
  {
    hide V.After, RS.After, RS.Stats.Score, RS.NaiveScore, V.Decide, V.Withdrawals, LastN;
    V.AfterIsWithdrawals(cfg.vacuumWindow, cfg.vacuumTrigger, depths);
    assert (depths + [next])[..|depths|] == depths;
    if depths != [] {
      var n := |depths| - 1;
      RS.ScoreIsNaive(cfg.vacuumWindow, V.Withdrawals(V.Bids(depths)), cfg.maths.sqrt, depths[n].bid - next.bid);
      RS.ScoreIsNaive(cfg.vacuumWindow, V.Withdrawals(V.Asks(depths)), cfg.maths.sqrt, depths[n].ask - next.ask);
    }
  }

  lemma FillsAreEvents(ts: seq<Tick>)
    requires forall i :: 0 <= i < |ts| ==> ts[i].Trade?
    ensures Vwap.Fills(VwapEvents(ts)) == FillsOf(ts)
    ensures Vwap.SessionFills(VwapEvents(ts)) == FillsOf(ts)
  {
    EventsAppend(ts);
    Vwap.NoResetSession(VwapEvents(ts));
  }

  lemma {:induction false} EventsAppend(ts: seq<Tick>)
    requires forall i :: 0 <= i < |ts| ==> ts[i].Trade?
    ensures Vwap.Fills(VwapEvents(ts)) == FillsOf(ts)
  {
    if ts != [] {
      var n := |ts| - 1;
      EventsAppend(ts[..n]);
      assert VwapEvents(ts)[..n] == VwapEvents(ts[..n]);
      assert FillsOf(ts) == FillsOf(ts[..n]) + [Fill(ts[n].price, ts[n].quantity)];
    }
  }

  lemma MoneyIsNotional(ts: seq<Tick>)
    requires forall i :: 0 <= i < |ts| ==> ts[i].Trade?
    ensures Decay.NotionalsOf(HitsOf(ts), V.Buy) == MoneyOf(ts, V.Buy)
    ensures Decay.NotionalsOf(HitsOf(ts), V.Sell) == MoneyOf(ts, V.Sell)
  {
  }

  lemma {:induction false} BooksAreQuotes(bs: seq<Tick>)
    requires forall i :: 0 <= i < |bs| ==> Usable(bs[i])
    ensures OrderFlow.Imbalances(QuotesOf(bs)) == BookImbalances(bs)
    ensures OrderFlow.MeanSizes(QuotesOf(bs)) == BookSizes(bs)
  {
    hide OrderFlow.Formula, BookImbalance, BookImbalances, BookSizes;
    if |bs| >= 2 {
      var n := |bs| - 1;
      BooksAreQuotes(bs[..n]);
      LastBook(bs);
      FormulaOfTops(bs[n - 1], bs[n]);
    } else {
      assert BookImbalances(bs) == [] && BookSizes(bs) == [];
    }
  }

  lemma LastBook(bs: seq<Tick>)
    requires |bs| >= 2 && forall i :: 0 <= i < |bs| ==> Usable(bs[i])
    ensures var n := |bs| - 1;
      && QuotesOf(bs)[..n] == QuotesOf(bs[..n])
      && BookImbalances(bs) == BookImbalances(bs[..n]) + [BookImbalance(bs[n - 1], bs[n])]
      && BookSizes(bs) == BookSizes(bs[..n]) + [BookSize(bs[n])]
  {
    hide BookImbalance, BookSize, TopOf;
  }

  lemma FormulaOfTops(a: Tick, b: Tick)
    requires Usable(a) && Usable(b)
    ensures OrderFlow.Formula(TopOf(a), TopOf(b)) == BookImbalance(a, b)
  {
    OrderFlow.InstantIsFormula(TopOf(a), TopOf(b));
  }

  lemma OfiIsNaive(decay: real, bs: seq<Tick>, tanh: real -> real)
    requires forall i :: 0 <= i < |bs| ==> Usable(bs[i])
    ensures var s := OrderFlow.After(decay, QuotesOf(bs));
      && s.ema == NaiveOfi(decay, bs)
      && s.Normalized(tanh) == tanh(s.ema / (Max(NaiveScale(bs), 0.000001) * 4.0))
  {
    hide OrderFlow.After, OrderFlow.Imbalances, OrderFlow.MeanSizes, Decay.Discounted, Decay.Pow;
    hide BookImbalances, BookSizes, QuotesOf;
    BooksAreQuotes(bs);
    OrderFlow.EmaClosedForm(decay, QuotesOf(bs));
    OrderFlow.ScaleClosedForm(decay, QuotesOf(bs));
  }

  /** Two books at standing best prices, whatever lies deeper and whatever trades
      surround them: the imbalance is what the best bid gained less what the best
      ask gained. */
  lemma TwoBooksImbalance(cfg: Config, h: seq<Tick>, latencies: seq<real>, b1: Tick, b2: Tick)
    requires |latencies| == |h| && Books(h) == [b1, b2] && Usable(b1) && Usable(b2)
    requires b1.bids[0].price == b2.bids[0].price && b1.asks[0].price == b2.asks[0].price
    ensures RunOn(cfg, h, latencies).published.ofiRaw == (1.0 - cfg.ofiDecay)
      * ((b2.bids[0].size - b1.bids[0].size) - (b2.asks[0].size - b1.asks[0].size))
  {
    hide RunOn, Books, NaiveOfi;
    RestOfi(cfg, h, latencies);
    OfiOfTwo(cfg.ofiDecay, b1, b2);
    StandingImbalance(b1, b2);
  }

  lemma RestOfi(cfg: Config, h: seq<Tick>, latencies: seq<real>)
    requires |latencies| == |h| && Books(h) != []
    ensures SortedOut(h)
    ensures RunOn(cfg, h, latencies).published.ofiRaw == NaiveOfi(cfg.ofiDecay, Books(h))
  {
    hide RunOn, CoreAfter, OrderFlow.After, ZAfter, VacuumAfter, OrderFlow.State.Normalized, Score;
    hide NaiveOfi, NaiveScale, Decay.Peak, Band, DirectionOf, ConfidenceOf;
    RunIsHistory(cfg, h, latencies);
    BookSide(cfg, h);
    OfiIsNaive(cfg.ofiDecay, Books(h), cfg.maths.tanh);
  }

  lemma OfiOfTwo(decay: real, b1: Tick, b2: Tick)
    requires Usable(b1) && Usable(b2)
    ensures NaiveOfi(decay, [b1, b2]) == (1.0 - decay) * BookImbalance(b1, b2)
  {
    hide Decay.Discounted, BookImbalance, BookImbalances;
    ImbalancesOfTwo(b1, b2);
    DiscountedOne(decay, BookImbalance(b1, b2));
  }

  lemma ImbalancesOfTwo(b1: Tick, b2: Tick)
    requires Usable(b1) && Usable(b2)
    ensures BookImbalances([b1, b2]) == [BookImbalance(b1, b2)]
  {
  }

  lemma DiscountedOne(base: real, x: real)
    ensures Decay.Discounted(base, [x], 0) == x
  {
    assert [x][..0] == [];
    Decay.AgedStep(base, x, 0);
  }

  lemma StandingImbalance(b1: Tick, b2: Tick)
    requires Usable(b1) && Usable(b2)
    requires b1.bids[0].price == b2.bids[0].price && b1.asks[0].price == b2.asks[0].price
    ensures BookImbalance(b1, b2)
      == (b2.bids[0].size - b1.bids[0].size) - (b2.asks[0].size - b1.asks[0].size)
  {
  }

  /** At rest, every statistic in the snapshot is the plain recomputation over the
      ticks seen so far: VWAPs over all and over the last trades, flows as aged
      sums, the imbalance as an aged sum over consecutive books and its normalised
      form, the newest trade's two-pass score, the newest book's verdict. */
  lemma RestIsRecomputed(cfg: Config, h: seq<Tick>, latencies: seq<real>)
    requires |latencies| == |h| && h != [] && SizesOk(h)
    ensures SortedOut(h)
    ensures var s := RunOn(cfg, h, latencies).published;
      var ts := Trades(h);
      && s.vwapSession == NaiveVwap(FillsOf(ts))
      && s.vwapWindow == NaiveVwap(LastN(FillsOf(ts), cfg.vwapTrades))
      && s.inflow == Decay.Discounted(0.999, MoneyOf(ts, V.Buy), 0)
      && s.outflow == Decay.Discounted(0.999, MoneyOf(ts, V.Sell), 0)
      && s.volumeZ == NaiveVolumeZ(cfg, Quantities(ts))
      && s.vacuum == NaiveVacuum(cfg, DepthsOf(Books(h)))
      && s.ofiRaw == NaiveOfi(cfg.ofiDecay, Books(h))
      && s.ofiNormalized == cfg.maths.tanh(s.ofiRaw / (Max(NaiveScale(Books(h)), 0.000001) * 4.0))
      && s.lastPrice == (if ts == [] then 0.0 else ts[|ts| - 1].price)
      && s.ticksProcessed == |h|
      && s.latency == Decay.Peak(latencies)
  {
    hide Score, Decay.After, Decay.Discounted, Decay.Peak, OrderFlow.After, NaiveVacuum, NaiveVolumeZ;
    hide Vwap.After, RS.After, V.After, CoreAfter, ZAfter, VacuumAfter, Band, RunOn, Trades, Books;
    hide SumPv, SumQuantity, LastN, DirectionOf, ConfidenceOf, Vwap.ToPv;
    hide OrderFlow.State.Normalized, NaiveOfi, NaiveScale;
    RunIsHistory(cfg, h, latencies);
    TradeSide(cfg, h);
    BookSide(cfg, h);
    OfiIsNaive(cfg.ofiDecay, Books(h), cfg.maths.tanh);
    MoneyIsNotional(Trades(h));
    ZIsNaive(cfg, h);
    VacuumIsNaive(cfg, h);
    FillsAreEvents(Trades(h));
    Vwap.AfterIsRecomputed(cfg.vwapTrades, VwapEvents(Trades(h)));
    Decay.FlowClosedForm(HitsOf(Trades(h)));
  }

  // ---------------------------------------------------- the signal itself

  /** The weighted sum of the fields of a snapshot that decides its direction. */
  function Composite(tanh: real -> real, s: Signal): real {
    s.ofiNormalized * 0.55
    + tanh(s.volumeZ / 4.0) * (if s.ofiNormalized >= 0.0 then 0.3 else -0.3)
    + (if !s.vacuum.triggered then 0.0
       else (if s.vacuum.side.Buy? then 0.25 else -0.25) * Min(s.vacuum.magnitude / 6.0, 1.0))
  }

  /** What a snapshot at rest concludes from its own fields: bullish above the
      threshold and bearish below its negative, the confidence in percent, and the
      targets on either side of the window VWAP. It carries the newest tick's
      time. */
  lemma SignalIsComposite(cfg: Config, h: seq<Tick>, latency: real)
    requires h != [] && cfg.threshold >= 0.0
    ensures var s := SignalAfter(cfg, h, latency);
      var c := Composite(cfg.maths.tanh, s);
      var band := s.vwapWindow * (0.0015 + 0.0010 * Min(Abs(s.ofiNormalized), 1.0));
      && (s.direction == Bullish <==> c > cfg.threshold)
      && (s.direction == Bearish <==> c < -cfg.threshold)
      && s.confidence == Min(Abs(c) * 100.0, 100.0)
      && s.targetUp == s.vwapWindow + band && s.targetDown == s.vwapWindow - band
      && s.timestamp == h[|h| - 1].ts
  {
    hide CoreAfter, ZAfter, VacuumAfter, OrderFlow.State.Normalized, Score, Composite;
    var s := SignalAfter(cfg, h, latency);
    CompositeIsScore(cfg.maths.tanh, s);
  }

  lemma CompositeIsScore(tanh: real -> real, s: Signal)
    ensures Composite(tanh, s) == Score(tanh, s.ofiNormalized, s.volumeZ, s.vacuum)
  {
    var t := tanh(s.volumeZ / 4.0);
    assert t * 1.0 * 0.3 == t * 0.3 && t * -1.0 * 0.3 == t * -0.3;
    var m := Min(s.vacuum.magnitude / 6.0, 1.0);
    assert 1.0 * m * 0.25 == 0.25 * m && -1.0 * m * 0.25 == -0.25 * m;
  }

  /** A direction is called exactly when the confidence shown exceeds 100 times
      the threshold, and the targets are symmetric about the window VWAP. */
  ghost predicate SelfConsistent(cfg: Config, s: Signal) {
    && (s.direction != Neutral <==> s.confidence > 100.0 * cfg.threshold)
    && 0.0 <= s.confidence <= 100.0
    && s.targetUp + s.targetDown == 2.0 * s.vwapWindow
  }

  lemma RecomputedIsSelfConsistent(cfg: Config, core: Core, p: Signal, ts: int)
    requires 0.0 <= cfg.threshold < 1.0
    ensures SelfConsistent(cfg, Recomputed(cfg, core, p, ts))
  {
    hide Score, Band, OrderFlow.State.Normalized, Vwap.State.WindowVwap, Vwap.State.SessionVwap;
  }

  /** What each part of the score contributes: at most 0.55, 0.3 and 0.25; the
      volume term pushes away from 0 on the imbalance's side exactly when the
      volume score is positive, and a vacuum pushes towards the side it names. */
  lemma ScoreParts(tanh: real -> real, n: real, z: real, v: V.Result)
    requires IsSquash(tanh) && -1.0 <= n <= 1.0
    requires v.triggered ==> v.magnitude > 0.0
    ensures -1.1 <= Score(tanh, n, z, v) <= 1.1
    ensures VolumeTerm(tanh, z, n) * Sign(n >= 0.0) > 0.0 <==> z > 0.0
    ensures var change := Score(tanh, n, z, v) - Score(tanh, n, z, V.QUIET);
      && (change > 0.0 <==> v.triggered && v.side.Buy?)
      && (change < 0.0 <==> v.triggered && v.side.Sell?)
  {
    SquashSign(tanh, z / 4.0);
    var t := tanh(z / 4.0);
    assert -1.0 <= t <= 1.0;
    assert t * 1.0 == t && t * -1.0 == -t;
  }

  /** A stronger imbalance always means a higher score exactly when the newest
      trade was not smaller than average: with a negative volume score the volume
      term changes sign against the imbalance as it passes 0. */
  lemma ScoreMonotoneIff(tanh: real -> real, z: real, v: V.Result)
    requires IsSquash(tanh)
    ensures (forall a, b :: a < b ==> Score(tanh, a, z, v) < Score(tanh, b, z, v)) <==> z >= 0.0
  {
    hide VacuumTerm;
    SquashSign(tanh, z / 4.0);
    var t := tanh(z / 4.0);
    assert t * 1.0 == t && t * -1.0 == -t;
    if z < 0.0 {
      assert t < 0.0 && Score(tanh, t, z, v) > Score(tanh, 0.0, z, v);
    }
  }

  /** While the window VWAP is not its fallback, the published targets lie within
      a quarter of a percent of the window's price range. */
  lemma TargetsNearPrices(cfg: Config, h: seq<Tick>, latency: real, lo: real, hi: real)
    requires h != [] && lo > 0.0 && SortedOut(h)
    requires PricesWithin(LastN(FillsOf(Trades(h)), cfg.vwapTrades), lo, hi)
    requires SumQuantity(LastN(FillsOf(Trades(h)), cfg.vwapTrades)) > 0.000000000001
    ensures var s := SignalAfter(cfg, h, latency);
      0.9975 * lo <= s.targetDown < s.vwapWindow < s.targetUp <= 1.0025 * hi
  {
    hide Score, Vwap.After, CoreAfter, ZAfter, VacuumAfter, Trades, SumPv, SumQuantity, LastN;
    hide OrderFlow.State.Normalized, DirectionOf, ConfidenceOf, Vwap.ToPv, PricesWithin, Band;
    TradeSide(cfg, h);
    FillsAreEvents(Trades(h));
    Vwap.AfterIsRecomputed(cfg.vwapTrades, VwapEvents(Trades(h)));
    Vwap.WindowVwapBetween(cfg.vwapTrades, VwapEvents(Trades(h)), lo, hi);
    var s := SignalAfter(cfg, h, latency);
    BandWithin(s.vwapWindow, s.ofiNormalized);
  }

  lemma BandWithin(w: real, n: real)
    requires w > 0.0
    ensures 0.0 < Band(w, n) <= 0.0025 * w
  {
    var k := 0.0015 + 0.0010 * Min(Abs(n), 1.0);
    ProductPositive(w, k);
    ScaleLe(w, k, 0.0025);
  }
}
