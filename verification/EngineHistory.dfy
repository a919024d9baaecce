/** What the engine publishes, in terms of the whole tick history: every field of
    a snapshot at rest is a plain recomputation over that history. */
module EngineHistory {
  import opened WeightedPrice
  import opened Engine
  import V = Vacuum
  import RS = RollingStats
  import Vwap
  import OrderFlow
  import Decay

  /** The trades of a history. */
  function Trades(h: seq<Tick>): seq<Tick> {
    if h == [] then []
    else Trades(h[..|h| - 1]) + (if h[|h| - 1].Trade? then [h[|h| - 1]] else [])
  }

  /** Its books with both sides filled. */
  function Books(h: seq<Tick>): seq<Tick> {
    if h == [] then []
    else Books(h[..|h| - 1]) + (if Usable(h[|h| - 1]) then [h[|h| - 1]] else [])
  }

  ghost predicate SortedOut(h: seq<Tick>) {
    && (forall i :: 0 <= i < |Trades(h)| ==> Trades(h)[i].Trade?)
    && (forall i :: 0 <= i < |Books(h)| ==> Usable(Books(h)[i]))
  }

  lemma {:induction false} KindsSorted(h: seq<Tick>)
    ensures SortedOut(h)
  {
    if h != [] { KindsSorted(h[..|h| - 1]); }
  }

  lemma KindsAppend(h: seq<Tick>, t: Tick)
    ensures Trades(h + [t]) == Trades(h) + if t.Trade? then [t] else []
    ensures Books(h + [t]) == Books(h) + if Usable(t) then [t] else []
  {
    assert (h + [t])[..|h|] == h;
  }

  /** Trades followed by books sort out into just those. */
  lemma {:induction false} TradesThenBooks(ts: seq<Tick>, bs: seq<Tick>)
    requires forall i :: 0 <= i < |ts| ==> ts[i].Trade?
    requires forall i :: 0 <= i < |bs| ==> Usable(bs[i])
    ensures Trades(ts + bs) == ts && Books(ts + bs) == bs
    decreases |bs|, |ts|
  {
    hide Trades, Books;
    if bs != [] {
      var init, t := bs[..|bs| - 1], bs[|bs| - 1];
      TradesThenBooks(ts, init);
      KindsAppend(ts + init, t);
      assert ts + bs == ts + init + [t];
    } else if ts != [] {
      var init, t := ts[..|ts| - 1], ts[|ts| - 1];
      TradesThenBooks(init, []);
      KindsAppend(init, t);
      assert ts + [] == init + [t] && init + [] == init;
    } else {
      NoKinds();
    }
  }

  lemma NoKinds()
    ensures Trades([] + []) == [] && Books([] + []) == []
  {
  }

  function Quantities(ts: seq<Tick>): (q: seq<real>)
    requires forall i :: 0 <= i < |ts| ==> ts[i].Trade?
    ensures |q| == |ts|
  {
    seq(|ts|, i requires 0 <= i < |ts| => ts[i].quantity)
  }

  function FillsOf(ts: seq<Tick>): (f: seq<Fill>)
    requires forall i :: 0 <= i < |ts| ==> ts[i].Trade?
    ensures |f| == |ts|
  {
    seq(|ts|, i requires 0 <= i < |ts| => Fill(ts[i].price, ts[i].quantity))
  }

  function VwapEvents(ts: seq<Tick>): (e: seq<Vwap.Event>)
    requires forall i :: 0 <= i < |ts| ==> ts[i].Trade?
    ensures |e| == |ts|
  {
    seq(|ts|, i requires 0 <= i < |ts| => Vwap.Traded(Fill(ts[i].price, ts[i].quantity)))
  }

  function HitsOf(ts: seq<Tick>): (h: seq<Decay.Hit>)
    requires forall i :: 0 <= i < |ts| ==> ts[i].Trade?
    ensures |h| == |ts|
  {
    seq(|ts|, i requires 0 <= i < |ts| => HitOf(ts[i]))
  }

  function QuotesOf(bs: seq<Tick>): (q: seq<OrderFlow.Quote>)
    requires forall i :: 0 <= i < |bs| ==> Usable(bs[i])
    ensures |q| == |bs|
  {
    seq(|bs|, i requires 0 <= i < |bs| => TopOf(bs[i]))
  }

  function DepthsAt(b: Tick): V.Depths
    requires Usable(b)
  {
    V.Depths(DepthSum(b.bids), DepthSum(b.asks))
  }

  function DepthsOf(bs: seq<Tick>): (d: seq<V.Depths>)
    requires forall i :: 0 <= i < |bs| ==> Usable(bs[i])
    ensures |d| == |bs|
  {
    seq(|bs|, i requires 0 <= i < |bs| => DepthsAt(bs[i]))
  }

  // ---------------------------------------------------------- histories

  /** The analysis thread's state after a history of complete ticks. */
  function CoreAfter(cfg: Config, h: seq<Tick>): Core {
    if h == [] then Start(cfg).core
    else
      var core := ProcessCore(CoreAfter(cfg, h[..|h| - 1]), h[|h| - 1]);
      core.(ticks := core.ticks + 1)
  }

  /** The volume score of the newest trade; 0 before the first. */
  function ZAfter(cfg: Config, h: seq<Tick>): real {
    if h == [] then 0.0
    else
      var init, t := h[..|h| - 1], h[|h| - 1];
      if t.Trade? then CoreAfter(cfg, init).volume.Score(cfg.maths.sqrt, t.quantity)
      else ZAfter(cfg, init)
  }

  /** The verdict on the newest usable book. */
  function VacuumAfter(cfg: Config, h: seq<Tick>): V.Result {
    if h == [] then V.QUIET
    else
      var init, t := h[..|h| - 1], h[|h| - 1];
      if Usable(t)
      then CoreAfter(cfg, init).vacuum.Verdict(cfg.maths.sqrt, DepthSum(t.bids), DepthSum(t.asks))
      else VacuumAfter(cfg, init)
  }

  /** The signal at rest after `h`, but for its latency readout. */
  function SignalAfter(cfg: Config, h: seq<Tick>, latency: real): Signal {
    if h == [] then BLANK.(latency := latency)
    else
      Recomputed(cfg, CoreAfter(cfg, h),
        BLANK.(volumeZ := ZAfter(cfg, h), vacuum := VacuumAfter(cfg, h), latency := latency),
        h[|h| - 1].ts)
  }

  /** The engine run on a history, the i-th tick taking latencies[i]. */
  function RunOn(cfg: Config, h: seq<Tick>, latencies: seq<real>): EngineState
    requires |latencies| == |h|
  {
    if h == [] then Start(cfg)
    else
      var n := |h| - 1;
      OnTick(RunOn(cfg, h[..n], latencies[..n]), h[n], latencies[n])
  }

  /** A book counts exactly when both its sides are filled: then the imbalance is
      measured from its best levels next, and otherwise it only bumps the tick
      counter. */
  lemma BookCountsIffTwoSided(e: EngineState, t: Tick, latency: real)
    requires t.Book?
    ensures var core := OnTick(e, t, latency).core;
      if t.bids != [] && t.asks != [] then
        core.ofi.hasPrev
        && core.ofi.prev == OrderFlow.Quote(t.bids[0].price, t.bids[0].size, t.asks[0].price, t.asks[0].size)
      else core == e.core.(ticks := e.core.ticks + 1)
  {
    hide Recomputed, OrderFlow.Instant, V.State.OnDepth, DepthSum;
  }

  /** The engine at rest is a function of the history alone, latency apart. */
  lemma {:induction false} RunIsHistory(cfg: Config, h: seq<Tick>, latencies: seq<real>)
    requires |latencies| == |h|
    ensures var e := RunOn(cfg, h, latencies);
      && e.cfg == cfg
      && e.core == CoreAfter(cfg, h)
      && e.published == SignalAfter(cfg, h, Decay.Peak(latencies))
  {
    hide ProcessCore, Score, RS.Stats.Score, V.State.Verdict, Band, OrderFlow.State.Normalized;
    hide Vwap.State.WindowVwap, Vwap.State.SessionVwap, DirectionOf, ConfidenceOf;
    if h != [] {
      var n := |h| - 1;
      var init, t := h[..n], h[n];
      RunIsHistory(cfg, init, latencies[..n]);
      var e1 := Process(RunOn(cfg, init, latencies[..n]), t);
      assert e1.published.volumeZ == ZAfter(cfg, h);
      assert e1.published.vacuum == VacuumAfter(cfg, h);
      assert e1.published.latency == Decay.Peak(latencies[..n]);
      var e2 := Recompute(e1, t.ts);
      assert e2.core == CoreAfter(cfg, h);
      assert e2.published == SignalAfter(cfg, h, Decay.Peak(latencies[..n]));
    }
  }

  /** The trade calculators inside the engine see exactly the trades. */
  lemma {:induction false} TradeSide(cfg: Config, h: seq<Tick>)
    ensures SortedOut(h)
    ensures var c := CoreAfter(cfg, h);
      && c.volume == RS.After(cfg.volumeWindow, Quantities(Trades(h)))
      && c.vwap == Vwap.After(cfg.vwapTrades, VwapEvents(Trades(h)))
      && c.flow == Decay.After(HitsOf(Trades(h)))
      && c.ticks == |h|
      && c.lastPrice == (if Trades(h) == [] then 0.0 else Trades(h)[|Trades(h)| - 1].price)
  {
    hide RS.Stats.Push, Vwap.State.OnTrade, Decay.Flow.OnTrade, HitOf, TopOf, DepthSum;
    hide OrderFlow.State.OnDepth, V.State.OnDepth, Books;
    KindsSorted(h);
    if h != [] {
      var init, t := h[..|h| - 1], h[|h| - 1];
      TradeSide(cfg, init);
      if t.Trade? {
        AppendTrade(Trades(init), t);
      } else {
        assert Trades(h) == Trades(init);
      }
    }
  }

  /** The book calculators inside the engine see exactly the usable books. */
  lemma {:induction false} BookSide(cfg: Config, h: seq<Tick>)
    ensures SortedOut(h)
    ensures var c := CoreAfter(cfg, h);
      && c.ofi == OrderFlow.After(cfg.ofiDecay, QuotesOf(Books(h)))
      && c.vacuum == V.After(cfg.vacuumWindow, cfg.vacuumTrigger, DepthsOf(Books(h)))
  {
    hide RS.Stats.Push, Vwap.State.OnTrade, Decay.Flow.OnTrade, HitOf, TopOf, DepthSum;
    hide OrderFlow.State.OnDepth, V.State.OnDepth, Trades;
    KindsSorted(h);
    if h != [] {
      var init, t := h[..|h| - 1], h[|h| - 1];
      BookSide(cfg, init);
      if Usable(t) {
        AppendBook(Books(init), t);
      } else {
        assert Books(h) == Books(init);
      }
    }
  }

  lemma AppendTrade(ts: seq<Tick>, t: Tick)
    requires t.Trade? && forall i :: 0 <= i < |ts| ==> ts[i].Trade?
    ensures var all := ts + [t];
      && Quantities(all)[..|ts|] == Quantities(ts) && Quantities(all)[|ts|] == t.quantity
      && VwapEvents(all)[..|ts|] == VwapEvents(ts)
      && VwapEvents(all)[|ts|] == Vwap.Traded(Fill(t.price, t.quantity))
      && HitsOf(all)[..|ts|] == HitsOf(ts) && HitsOf(all)[|ts|] == HitOf(t)
  {
  }

  lemma AppendBook(bs: seq<Tick>, t: Tick)
    requires Usable(t) && forall i :: 0 <= i < |bs| ==> Usable(bs[i])
    ensures var all := bs + [t];
      && QuotesOf(all)[..|bs|] == QuotesOf(bs) && QuotesOf(all)[|bs|] == TopOf(t)
      && DepthsOf(all)[..|bs|] == DepthsOf(bs)
      && DepthsOf(all)[|bs|] == DepthsAt(t)
  {
  }
}
