/** The engine class. Every method publishes through one lock section and is
    proved to take exactly the corresponding step of the engine's state. */
module AnalysisEngine {
  import opened RealMath
  import opened Engine
  import V = Vacuum
  import RS = RollingStats
  import Vwap
  import OrderFlow
  import Decay

  method SumSizes(levels: seq<Level>) returns (total: real)
    ensures total == DepthSum(levels)
  {
    total := 0.0;
    for i := 0 to |levels|
      invariant total == DepthSum(levels[..i])
    {
      assert levels[..i + 1][..i] == levels[..i];
      total := total + levels[i].size;
    }
    assert levels[..|levels|] == levels;
  }

  class AnalysisEngine {
    const cfg: Config
    const volumeStats: RS.RollingStats
    const vwap: Vwap.VWAPCalculator
    const ofi: OrderFlow.OFICalculator
    const vacuum: V.LiquidityVacuumDetector
    var inflow: real
    var outflow: real
    var lastPrice: real
    var ticksProcessed: nat
    var published: Signal

    ghost function Repr(): set<object> {
      {this, volumeStats, vwap, ofi, vacuum, vacuum.bidDeltaStats, vacuum.askDeltaStats}
    }

    ghost predicate Valid()
      reads Repr()
    {
      && vacuum.Valid()
      && volumeStats != vacuum.bidDeltaStats && volumeStats != vacuum.askDeltaStats
      && volumeStats.sqrt == vacuum.sqrt == cfg.maths.sqrt
      && ofi.tanh == cfg.maths.tanh
    }

    function CoreView(): Core
      reads Repr()
    {
      Core(volumeStats.View(), vwap.View(), ofi.View(), vacuum.View(),
           Decay.Flow(inflow, outflow), lastPrice, ticksProcessed)
    }

    function View(): EngineState
      reads Repr()
    {
      EngineState(cfg, CoreView(), published)
    }

    constructor (cfg: Config)
      ensures Valid() && fresh(Repr())
      ensures View() == Start(cfg)
    {
      this.cfg := cfg;
      volumeStats := new RS.RollingStats(cfg.volumeWindow, cfg.maths.sqrt);
      vwap := new Vwap.VWAPCalculator(cfg.vwapTrades);
      ofi := new OrderFlow.OFICalculator(cfg.ofiDecay, cfg.maths.tanh);
      vacuum := new V.LiquidityVacuumDetector(cfg.vacuumWindow, cfg.vacuumTrigger, cfg.maths.sqrt);
      inflow, outflow, lastPrice, ticksProcessed := 0.0, 0.0, 0.0, 0;
      published := BLANK;
    }

    method ProcessTrade(tick: Tick)
      requires Valid() && tick.Trade?
      modifies Repr()
      ensures Valid()
      ensures View() == Process(old(View()), tick)
    {
      hide RS.Stats.Push, RS.Stats.Score, Vwap.State.OnTrade, HitOf;
      lastPrice := tick.price;
      vwap.OnTrade(tick.price, tick.quantity);
      var notional := HitOf(tick).notional;
      var z := volumeStats.PushAndScore(tick.quantity);
      inflow := inflow * Decay.FLOW_DECAY;
      outflow := outflow * Decay.FLOW_DECAY;
      if tick.side == V.Buy {
        inflow := inflow + notional;
      } else {
        outflow := outflow + notional;
      }
      published := published.(volumeZ := z);
    }

    method ProcessDepth(tick: Tick)
      requires Valid() && tick.Book?
      modifies Repr()
      ensures Valid()
      ensures View() == Process(old(View()), tick)
    {
      hide V.State.OnDepth, V.State.Verdict, OrderFlow.State.OnDepth, DepthSum;
      if |tick.bids| == 0 || |tick.asks| == 0 {
        return;
      }
      var top := TopOf(tick);
      var _ := ofi.OnDepthUpdate(top.bidPrice, top.bidSize, top.askPrice, top.askSize);
      var bidDepthSum := SumSizes(tick.bids);
      var askDepthSum := SumSizes(tick.asks);
      var result := vacuum.OnDepthUpdate(bidDepthSum, askDepthSum);
      published := published.(vacuum := result);
    }

    method RecomputeSignal(ts: int)
      requires Valid()
      modifies this`published
      ensures Valid()
      ensures CoreView() == old(CoreView())
      ensures published == Recomputed(cfg, CoreView(), old(published), ts)
    {
      hide Vwap.State.SessionVwap, Vwap.State.WindowVwap, OrderFlow.State.Normalized;
      hide VolumeTerm, VacuumTerm, Band;
      var p := published;
      var session := vwap.GetSessionVwap();
      var window := vwap.GetWindowVwap();
      var normalized := ofi.GetNormalized();
      var tanh := cfg.maths.tanh;
      var zComponent := VolumeTerm(tanh, p.volumeZ, normalized);
      var vacuumComponent := VacuumTerm(p.vacuum);
      var score := normalized * 0.55 + zComponent + vacuumComponent;
      var direction := Neutral;
      if score > cfg.threshold {
        direction := Bullish;
      } else if score < -cfg.threshold {
        direction := Bearish;
      }
      var confidence := Clamp(Abs(score) * 100.0, 0.0, 100.0);
      var band := Band(window, normalized);
      published := p.(timestamp := ts, lastPrice := lastPrice, vwapSession := session,
        vwapWindow := window, ofiRaw := ofi.ema, ofiNormalized := normalized,
        inflow := inflow, outflow := outflow, ticksProcessed := ticksProcessed,
        direction := direction, confidence := confidence,
        targetUp := window + band, targetDown := window - band);
    }

    /** `latency` is how long the first two sections took, an input here. */
    method OnTick(tick: Tick, latency: real)
      requires Valid()
      modifies Repr()
      ensures Valid()
      ensures View() == Engine.OnTick(old(View()), tick, latency)
    {
      hide Process, Recomputed;
      if tick.Trade? {
        ProcessTrade(tick);
      } else {
        ProcessDepth(tick);
      }
      ticksProcessed := ticksProcessed + 1;
      RecomputeSignal(tick.ts);
      published := published.(latency := Max(published.latency * Decay.LATENCY_DECAY, latency));
    }

    method Snapshot() returns (s: Signal)
      ensures s == View().published
    {
      s := published;
    }
  }
}
