/** The analysis engine: four calculators wired together, publishing a signal
    through three separate lock sections per tick. */
module Engine {
  import opened RealMath
  import opened Vacuum
  import RS = RollingStats
  import Vwap
  import OrderFlow
  import Decay

  datatype Level = Level(price: real, size: real)

  /** A parsed market event; only the filled levels of a book are listed. */
  datatype Tick =
    | Trade(ts: int, side: Side, price: real, quantity: real)
    | Book(ts: int, bids: seq<Level>, asks: seq<Level>)

  datatype Direction = Bullish | Bearish | Neutral

  datatype Config = Config(
    volumeWindow: nat,
    vwapTrades: nat,
    vacuumWindow: nat,
    vacuumTrigger: real,
    ofiDecay: real,
    threshold: real,
    maths: Maths)

  /** The published snapshot. */
  datatype Signal = Signal(
    timestamp: int,
    lastPrice: real,
    vwapSession: real,
    vwapWindow: real,
    volumeZ: real,
    ofiRaw: real,
    ofiNormalized: real,
    inflow: real,
    outflow: real,
    vacuum: Result,
    direction: Direction,
    confidence: real,
    targetUp: real,
    targetDown: real,
    ticksProcessed: nat,
    latency: real)

  const BLANK := Signal(0, 0.0, 0.0, 0.0, 0.0, 0.0, 0.0, 0.0, 0.0, QUIET, Neutral, 0.0, 0.0, 0.0, 0, 0.0)

  /** State only the analysis thread touches. */
  datatype Core = Core(
    volume: RS.Stats,
    vwap: Vwap.State,
    ofi: OrderFlow.State,
    vacuum: Vacuum.State,
    flow: Decay.Flow,
    lastPrice: real,
    ticks: nat)

  datatype EngineState = EngineState(cfg: Config, core: Core, published: Signal)

  function Start(cfg: Config): EngineState {
    EngineState(cfg,
          Core(RS.Empty(cfg.volumeWindow), Vwap.Empty(cfg.vwapTrades), OrderFlow.Start(cfg.ofiDecay),
               Vacuum.Start(cfg.vacuumWindow, cfg.vacuumTrigger), Decay.Flow(0.0, 0.0), 0.0, 0),
          BLANK)
  }

  function DepthSum(levels: seq<Level>): real {
    if levels == [] then 0.0 else DepthSum(levels[..|levels| - 1]) + levels[|levels| - 1].size
  }

  /** A book with an empty side is ignored. */
  predicate Usable(t: Tick) {
    t.Book? && t.bids != [] && t.asks != []
  }

  function TopOf(t: Tick): OrderFlow.Quote
    requires Usable(t)
  {
    OrderFlow.Quote(t.bids[0].price, t.bids[0].size, t.asks[0].price, t.asks[0].size)
  }

  function HitOf(t: Tick): (h: Decay.Hit)
    requires t.Trade?
    ensures h.side == t.side
  {
    Decay.Hit(t.side, t.price * t.quantity)
  }

  function ProcessCore(core: Core, t: Tick): Core {
    if t.Trade? then
      core.(volume := core.volume.Push(t.quantity),
            vwap := core.vwap.OnTrade(t.price, t.quantity),
            flow := core.flow.OnTrade(HitOf(t)),
            lastPrice := t.price)
    else if Usable(t) then
      core.(ofi := core.ofi.OnDepth(TopOf(t)),
            vacuum := core.vacuum.OnDepth(DepthSum(t.bids), DepthSum(t.asks)))
    else core
  }

  /** Up to and including the first lock section: the calculators absorb the tick
      and its own group of fields is published. */
  function Process(e: EngineState, t: Tick): EngineState {
    var p := e.published;
    EngineState(e.cfg, ProcessCore(e.core, t),
      if t.Trade? then p.(volumeZ := e.core.volume.Score(e.cfg.maths.sqrt, t.quantity))
      else if Usable(t) then
        p.(vacuum := e.core.vacuum.Verdict(e.cfg.maths.sqrt, DepthSum(t.bids), DepthSum(t.asks)))
      else p)
  }

  function Sign(b: bool): real { if b then 1.0 else -1.0 }

  function VacuumTerm(v: Result): real {
    if v.triggered then Sign(v.side.Buy?) * Min(v.magnitude / 6.0, 1.0) * 0.25 else 0.0
  }

  function VolumeTerm(tanh: real -> real, z: real, ofiNormalized: real): real {
    tanh(z / 4.0) * Sign(ofiNormalized >= 0.0) * 0.3
  }

  /** The composite heuristic. */
  function Score(tanh: real -> real, ofiNormalized: real, z: real, v: Result): real {
    ofiNormalized * 0.55 + VolumeTerm(tanh, z, ofiNormalized) + VacuumTerm(v)
  }

  function DirectionOf(score: real, threshold: real): Direction {
    if score > threshold then Bullish
    else if score < -threshold then Bearish
    else Neutral
  }

  function ConfidenceOf(score: real): real {
    Clamp(Abs(score) * 100.0, 0.0, 100.0)
  }

  function Band(vwapWindow: real, ofiNormalized: real): real {
    vwapWindow * (0.0015 + 0.0010 * Min(Abs(ofiNormalized), 1.0))
  }

  /** The signal written by the second lock section. */
  function Recomputed(cfg: Config, core: Core, p: Signal, ts: int): Signal {
    var n := core.ofi.Normalized(cfg.maths.tanh);
    var w := core.vwap.WindowVwap();
    var score := Score(cfg.maths.tanh, n, p.volumeZ, p.vacuum);
    Signal(ts, core.lastPrice, core.vwap.SessionVwap(), w, p.volumeZ, core.ofi.ema, n,
           core.flow.inflow, core.flow.outflow, p.vacuum,
           DirectionOf(score, cfg.threshold), ConfidenceOf(score),
           w + Band(w, n), w - Band(w, n), core.ticks, p.latency)
  }

  /** The second lock section, with the tick counter bumped just before it. */
  function Recompute(e: EngineState, ts: int): EngineState {
    var core := e.core.(ticks := e.core.ticks + 1);
    EngineState(e.cfg, core, Recomputed(e.cfg, core, e.published, ts))
  }

  /** The third lock section. */
  function Timed(e: EngineState, latency: real): EngineState {
    e.(published := e.published.(latency := Max(e.published.latency * Decay.LATENCY_DECAY, latency)))
  }

  /** A whole on_tick. */
  function OnTick(e: EngineState, t: Tick, latency: real): EngineState {
    Timed(Recompute(Process(e, t), t.ts), latency)
  }
}
