/** Buyers and sellers are treated alike: reflecting every book about C/2, with
    the two sides exchanged, and flipping every trade's side turns the engine's
    bullish conclusions into bearish ones, exactly unless the run ends in one of
    two ties that the code breaks towards one side. Both ties occur. */
module Mirror {
  import opened RealAlgebra
  import opened RealMath
  import opened Engine
  import opened EngineHistory
  import opened SignalTheorems
  import opened Statistics
  import V = Vacuum
  import OrderFlow
  import Decay
  import RS = RollingStats

  function FlipSide(s: V.Side): V.Side {
    if s.Buy? then V.Sell else V.Buy
  }

  function ReflectLevels(c: real, levels: seq<Level>): (r: seq<Level>)
    ensures |r| == |levels|
  {
    seq(|levels|, i requires 0 <= i < |levels| => Level(c - levels[i].price, levels[i].size))
  }

  function MirrorTick(c: real, t: Tick): Tick {
    match t
    case Trade(ts, side, price, quantity) => Trade(ts, FlipSide(side), price, quantity)
    case Book(ts, bids, asks) => Book(ts, ReflectLevels(c, asks), ReflectLevels(c, bids))
  }

  function MirrorRun(c: real, h: seq<Tick>): (r: seq<Tick>)
    ensures |r| == |h|
  {
    seq(|h|, i requires 0 <= i < |h| => MirrorTick(c, h[i]))
  }

  function MirrorDirection(d: Direction): Direction {
    match d
    case Bullish => Bearish
    case Bearish => Bullish
    case Neutral => Neutral
  }

  function MirrorQuote(c: real, q: OrderFlow.Quote): OrderFlow.Quote {
    OrderFlow.Quote(c - q.askPrice, q.askSize, c - q.bidPrice, q.bidSize)
  }

  function MirrorVerdict(r: V.Result): V.Result {
    if r.triggered then V.Result(true, FlipSide(r.side), r.magnitude) else r
  }

  // -------------------------------------------------------- calculators

  ghost predicate OfiMirrored(c: real, s: OrderFlow.State, s': OrderFlow.State) {
    && s'.decay == s.decay && s'.hasPrev == s.hasPrev
    && (s.hasPrev ==> s'.prev == MirrorQuote(c, s.prev))
    && s'.ema == -s.ema && s'.scale == s.scale
  }

  lemma InstantMirrored(c: real, a: OrderFlow.Quote, b: OrderFlow.Quote)
    ensures OrderFlow.Instant(MirrorQuote(c, a), MirrorQuote(c, b)) == -OrderFlow.Instant(a, b)
  {
  }

  lemma OfiStepMirrored(c: real, s: OrderFlow.State, s': OrderFlow.State, q: OrderFlow.Quote)
    requires OfiMirrored(c, s, s')
    ensures OfiMirrored(c, s.OnDepth(q), s'.OnDepth(MirrorQuote(c, q)))
  {
    hide OrderFlow.Instant;
    if s.hasPrev {
      InstantMirrored(c, s.prev, q);
      NegateBlend(s.ema, s.decay, s.Ofi(q));
    }
  }

  lemma NegateBlend(a: real, d: real, b: real)
    ensures (-a) * d + (-b) * (1.0 - d) == -(a * d + b * (1.0 - d))
  {
    assert (-a) * d == -(a * d);
    assert (-b) * (1.0 - d) == -(b * (1.0 - d));
  }

  lemma NormalizedMirrored(c: real, s: OrderFlow.State, s': OrderFlow.State, tanh: real -> real)
    requires OfiMirrored(c, s, s') && IsSquash(tanh)
    ensures s'.Normalized(tanh) == -s.Normalized(tanh)
  {
    var d := Max(s.scale, 0.000001) * 4.0;
    NegateQuotient(s.ema, d);
  }

  lemma NegateQuotient(a: real, d: real)
    requires d != 0.0
    ensures (-a) / d == -(a / d)
  {
    QuotientTimes(a, d);
    assert d * -(a / d) == -(d * (a / d));
    QuotientUnique(-a, d, -(a / d));
  }

  ghost predicate VacuumMirrored(s: V.State, s': V.State) {
    && s'.trigger == s.trigger && s'.bids == s.asks && s'.asks == s.bids
    && s'.prevBid == s.prevAsk && s'.prevAsk == s.prevBid
    && (s.prevBid >= 0.0 <==> s.prevAsk >= 0.0)
  }

  lemma VacuumStepMirrored(s: V.State, s': V.State, bid: real, ask: real)
    requires VacuumMirrored(s, s') && bid >= 0.0 && ask >= 0.0
    ensures VacuumMirrored(s.OnDepth(bid, ask), s'.OnDepth(ask, bid))
  {
  }

  /** Both sides score alike and above the trigger: the code then reports the
      bid side, whichever way the market is turned. */
  ghost predicate TiedBook(sqrt: real -> real, s: V.State, bid: real, ask: real) {
    && s.prevBid >= 0.0
    && s.bids.Score(sqrt, s.prevBid - bid) == s.asks.Score(sqrt, s.prevAsk - ask) > s.trigger
  }

  lemma VerdictMirrored(sqrt: real -> real, s: V.State, s': V.State, bid: real, ask: real)
    requires VacuumMirrored(s, s')
    ensures s'.Verdict(sqrt, ask, bid) == MirrorVerdict(s.Verdict(sqrt, bid, ask))
      <==> !TiedBook(sqrt, s, bid, ask)
  {
  }

  lemma {:induction false} DepthReflected(c: real, levels: seq<Level>)
    ensures DepthSum(ReflectLevels(c, levels)) == DepthSum(levels)
  {
    if levels != [] {
      var n := |levels| - 1;
      DepthReflected(c, levels[..n]);
      assert ReflectLevels(c, levels)[..n] == ReflectLevels(c, levels[..n]);
    }
  }

  // -------------------------------------------------------- the engine

  ghost predicate CoreMirrored(c: real, x: Core, y: Core) {
    && y.volume == x.volume && y.vwap == x.vwap
    && OfiMirrored(c, x.ofi, y.ofi)
    && VacuumMirrored(x.vacuum, y.vacuum)
    && y.flow == Decay.Flow(x.flow.outflow, x.flow.inflow)
    && y.lastPrice == x.lastPrice && y.ticks == x.ticks
  }

  lemma CoreStepMirrored(c: real, x: Core, y: Core, t: Tick)
    requires CoreMirrored(c, x, y)
    requires t.Book? ==> LevelsOk(t.bids) && LevelsOk(t.asks)
    ensures CoreMirrored(c, ProcessCore(x, t), ProcessCore(y, MirrorTick(c, t)))
  {
    hide OrderFlow.State.OnDepth, V.State.OnDepth, DepthSum, OfiMirrored, VacuumMirrored;
    if t.Trade? {
      assert HitOf(MirrorTick(c, t)).notional == HitOf(t).notional;
    } else if Usable(t) {
      var t' := MirrorTick(c, t);
      assert TopOf(t') == MirrorQuote(c, TopOf(t));
      DepthReflected(c, t.bids);
      DepthReflected(c, t.asks);
      DepthSumNonNegative(t.bids);
      DepthSumNonNegative(t.asks);
      OfiStepMirrored(c, x.ofi, y.ofi, TopOf(t));
      VacuumStepMirrored(x.vacuum, y.vacuum, DepthSum(t.bids), DepthSum(t.asks));
    }
  }

  /** Over any run, the mirrored market leaves the mirrored engine state. */
  lemma {:induction false} RunMirrored(c: real, cfg: Config, h: seq<Tick>)
    requires SizesOk(h)
    ensures CoreMirrored(c, CoreAfter(cfg, h), CoreAfter(cfg, MirrorRun(c, h)))
    ensures ZAfter(cfg, MirrorRun(c, h)) == ZAfter(cfg, h)
  {
    hide ProcessCore;
    if h != [] {
      var n := |h| - 1;
      RunMirrored(c, cfg, h[..n]);
      assert MirrorRun(c, h)[..n] == MirrorRun(c, h[..n]);
      CoreStepMirrored(c, CoreAfter(cfg, h[..n]), CoreAfter(cfg, MirrorRun(c, h[..n])), h[n]);
    }
  }

  /** The newest usable book of `h` is not a tie above the trigger. */
  ghost predicate LastBookUntied(cfg: Config, h: seq<Tick>) {
    h != [] ==>
      var init, t := h[..|h| - 1], h[|h| - 1];
      if Usable(t)
      then !TiedBook(cfg.maths.sqrt, CoreAfter(cfg, init).vacuum, DepthSum(t.bids), DepthSum(t.asks))
      else LastBookUntied(cfg, init)
  }

  /** The vacuum alarm of the mirrored run is the mirrored alarm exactly when the
      newest book was not such a tie. */
  lemma {:induction false} VacuumRunMirrored(c: real, cfg: Config, h: seq<Tick>)
    requires SizesOk(h)
    ensures VacuumAfter(cfg, MirrorRun(c, h)) == MirrorVerdict(VacuumAfter(cfg, h))
      <==> LastBookUntied(cfg, h)
  {
    hide CoreAfter, V.State.Verdict, TiedBook, DepthSum;
    if h != [] {
      var n := |h| - 1;
      var init, t := h[..n], h[n];
      assert MirrorRun(c, h)[..n] == MirrorRun(c, init);
      if Usable(t) {
        RunMirrored(c, cfg, init);
        DepthReflected(c, t.bids);
        DepthReflected(c, t.asks);
        VerdictMirrored(cfg.maths.sqrt, CoreAfter(cfg, init).vacuum,
          CoreAfter(cfg, MirrorRun(c, init)).vacuum, DepthSum(t.bids), DepthSum(t.asks));
      } else {
        VacuumRunMirrored(c, cfg, init);
      }
    }
  }

  // -------------------------------------------------------- the signal

  lemma VolumeTermMirrored(tanh: real -> real, z: real, n: real)
    requires n != 0.0
    ensures VolumeTerm(tanh, z, -n) == -VolumeTerm(tanh, z, n)
  {
    var s := tanh(z / 4.0);
    assert s * -1.0 == -(s * 1.0);
  }

  lemma VacuumTermMirrored(v: V.Result)
    ensures VacuumTerm(MirrorVerdict(v)) == -VacuumTerm(v)
  {
  }

  /** The volume term takes the bullish side when the imbalance is exactly 0. That
      shows in the signal when a vacuum is flagged as well, or when the term alone
      exceeds the threshold. */
  ghost predicate Balanced(tanh: real -> real, n: real, z: real, v: V.Result, threshold: real) {
    n != 0.0 || z == 0.0 || (!v.triggered && Abs(VolumeTerm(tanh, z, 0.0)) <= threshold)
  }

  /** From a threshold of 0.3 on, which the default 0.35 is, the term alone never
      exceeds it. */
  lemma BalancedFromThirty(tanh: real -> real, n: real, z: real, v: V.Result, threshold: real)
    requires IsSquash(tanh) && threshold >= 0.3
    ensures Balanced(tanh, n, z, v, threshold) <==> n != 0.0 || z == 0.0 || !v.triggered
  {
    NeutralAtZero(tanh, z, v);
  }

  ghost predicate ScoresMirror(tanh: real -> real, n: real, z: real, v: V.Result, threshold: real) {
    var a, b := Score(tanh, n, z, v), Score(tanh, -n, z, MirrorVerdict(v));
    && DirectionOf(b, threshold) == MirrorDirection(DirectionOf(a, threshold))
    && ConfidenceOf(b) == ConfidenceOf(a)
  }

  lemma ScoreMirrored(tanh: real -> real, n: real, z: real, v: V.Result, threshold: real)
    requires IsSquash(tanh) && threshold >= 0.0 && Balanced(tanh, n, z, v, threshold)
    ensures ScoresMirror(tanh, n, z, v, threshold)
  {
    hide VolumeTerm, VacuumTerm;
    VacuumTermMirrored(v);
    NeutralAtZero(tanh, z, v);
    if n != 0.0 {
      VolumeTermMirrored(tanh, z, n);
    }
  }

  /** The condition is exact for any verdict of a detector whose trigger is not
      negative: such a verdict has a positive magnitude. */
  lemma ScoreMirroredIff(tanh: real -> real, n: real, z: real, v: V.Result, threshold: real)
    requires IsSquash(tanh) && threshold >= 0.0
    requires v.triggered ==> v.magnitude > 0.0
    ensures ScoresMirror(tanh, n, z, v, threshold) <==> Balanced(tanh, n, z, v, threshold)
  {
    if Balanced(tanh, n, z, v, threshold) {
      ScoreMirrored(tanh, n, z, v, threshold);
    } else if v.triggered {
      ZeroImbalanceIff(tanh, z, v);
    } else {
      VacuumTermMirrored(v);
      NeutralAtZero(tanh, z, v);
      hide VolumeTerm, VacuumTerm;
    }
  }

  lemma NeutralAtZero(tanh: real -> real, z: real, v: V.Result)
    requires IsSquash(tanh)
    ensures -0.3 <= VolumeTerm(tanh, z, 0.0) <= 0.3
    ensures !v.triggered ==> VacuumTerm(v) == 0.0
    ensures z == 0.0 ==> VolumeTerm(tanh, z, 0.0) == 0.0
  {
    if z == 0.0 { assert tanh(-0.0) == -tanh(0.0); }
  }

  /** With imbalance exactly 0 and a vacuum flagged, the confidence survives the
      mirror exactly when the volume score is 0: this tie is a real exception. */
  lemma ZeroImbalanceIff(tanh: real -> real, z: real, v: V.Result)
    requires IsSquash(tanh) && v.triggered && v.magnitude > 0.0
    ensures ConfidenceOf(Score(tanh, -0.0, z, MirrorVerdict(v))) == ConfidenceOf(Score(tanh, 0.0, z, v))
      <==> z == 0.0
  {
    NeutralAtZero(tanh, z, v);
    SquashSign(tanh, z / 4.0);
    VacuumTermMirrored(v);
    VacuumTermSize(v);
    assert VolumeTerm(tanh, z, 0.0) == tanh(z / 4.0) * 0.3;
    hide VolumeTerm, VacuumTerm;
  }

  lemma VacuumTermSize(v: V.Result)
    requires v.triggered && v.magnitude > 0.0
    ensures 0.0 < Abs(VacuumTerm(v)) <= 0.25
  {
  }

  /** The detector keeps its trigger, and what it reports exceeds it. */
  lemma {:induction false} AlarmExceedsTrigger(cfg: Config, h: seq<Tick>)
    ensures CoreAfter(cfg, h).vacuum.trigger == cfg.vacuumTrigger
    ensures VacuumAfter(cfg, h).triggered ==> VacuumAfter(cfg, h).magnitude > cfg.vacuumTrigger
  {
    hide DepthSum, RS.Stats.Score, RS.Stats.Push;
    if h != [] { AlarmExceedsTrigger(cfg, h[..|h| - 1]); }
  }

  /** `m` is the signal `s` seen in the mirror. */
  ghost predicate IsMirror(s: Signal, m: Signal) {
    && m.ofiRaw == -s.ofiRaw && m.ofiNormalized == -s.ofiNormalized
    && m.inflow == s.outflow && m.outflow == s.inflow
    && m.volumeZ == s.volumeZ && m.vacuum == MirrorVerdict(s.vacuum)
    && m.direction == MirrorDirection(s.direction)
    && m.confidence == s.confidence
    && m.vwapSession == s.vwapSession && m.vwapWindow == s.vwapWindow
    && m.targetUp == s.targetUp && m.targetDown == s.targetDown
    && m.lastPrice == s.lastPrice && m.ticksProcessed == s.ticksProcessed
    && m.timestamp == s.timestamp && m.latency == s.latency
  }

  /** Neither tie is present after `h`. */
  ghost predicate Untied(cfg: Config, h: seq<Tick>) {
    && LastBookUntied(cfg, h)
    && Balanced(cfg.maths.tanh, CoreAfter(cfg, h).ofi.Normalized(cfg.maths.tanh),
                ZAfter(cfg, h), VacuumAfter(cfg, h), cfg.threshold)
  }

  /** Mirror symmetry of the published signal, over any run whose books have no
      negative sizes: the mirrored run publishes the mirrored signal exactly when
      neither tie is present. The imbalance is negated, inflow exchanged with
      outflow, bullish with bearish and the pulled side with the other; the
      confidence, the VWAPs and both targets are kept. */
  lemma SignalMirroredIff(c: real, cfg: Config, h: seq<Tick>, latency: real)
    requires SizesOk(h) && IsSquash(cfg.maths.tanh)
    requires cfg.threshold >= 0.0 && cfg.vacuumTrigger >= 0.0
    ensures IsMirror(SignalAfter(cfg, h, latency), SignalAfter(cfg, MirrorRun(c, h), latency))
      <==> Untied(cfg, h)
  {
    hide CoreAfter, ZAfter, VacuumAfter, LastBookUntied, Score, OrderFlow.State.Normalized;
    hide DirectionOf, ConfidenceOf, MirrorVerdict, VacuumMirrored, Balanced, ScoresMirror;
    if h == [] {
      BlankMirrored(cfg, c, latency);
    } else {
      MirrorFields(c, cfg, h, latency);
      AlarmExceedsTrigger(cfg, h);
      VacuumRunMirrored(c, cfg, h);
      ScoreMirroredIff(cfg.maths.tanh, CoreAfter(cfg, h).ofi.Normalized(cfg.maths.tanh), ZAfter(cfg, h),
        VacuumAfter(cfg, h), cfg.threshold);
    }
  }

  /** The same in one direction, for any trigger. */
  lemma SignalMirrored(c: real, cfg: Config, h: seq<Tick>, latency: real)
    requires SizesOk(h) && IsSquash(cfg.maths.tanh) && cfg.threshold >= 0.0 && Untied(cfg, h)
    ensures IsMirror(SignalAfter(cfg, h, latency), SignalAfter(cfg, MirrorRun(c, h), latency))
  {
    hide CoreAfter, ZAfter, VacuumAfter, LastBookUntied, Score, OrderFlow.State.Normalized;
    hide DirectionOf, ConfidenceOf, MirrorVerdict, VacuumMirrored, Balanced, ScoresMirror;
    if h == [] {
      BlankMirrored(cfg, c, latency);
    } else {
      MirrorFields(c, cfg, h, latency);
      VacuumRunMirrored(c, cfg, h);
      ScoreMirrored(cfg.maths.tanh, CoreAfter(cfg, h).ofi.Normalized(cfg.maths.tanh), ZAfter(cfg, h),
        VacuumAfter(cfg, h), cfg.threshold);
    }
  }

  lemma BlankMirrored(cfg: Config, c: real, latency: real)
    ensures Untied(cfg, [])
    ensures IsMirror(SignalAfter(cfg, [], latency), SignalAfter(cfg, MirrorRun(c, []), latency))
  {
  }

  /** All fields but the verdict and what the score decides are mirrored in any
      case. */
  lemma MirrorFields(c: real, cfg: Config, h: seq<Tick>, latency: real)
    requires SizesOk(h) && IsSquash(cfg.maths.tanh) && h != []
    ensures IsMirror(SignalAfter(cfg, h, latency), SignalAfter(cfg, MirrorRun(c, h), latency))
      <==> (&& VacuumAfter(cfg, MirrorRun(c, h)) == MirrorVerdict(VacuumAfter(cfg, h))
            && ScoresMirror(cfg.maths.tanh, CoreAfter(cfg, h).ofi.Normalized(cfg.maths.tanh), ZAfter(cfg, h),
                            VacuumAfter(cfg, h), cfg.threshold))
  {
    hide CoreAfter, ZAfter, VacuumAfter, Score, OrderFlow.State.Normalized;
    hide DirectionOf, ConfidenceOf, MirrorVerdict, VacuumMirrored;
    var x, y := CoreAfter(cfg, h), CoreAfter(cfg, MirrorRun(c, h));
    RunMirrored(c, cfg, h);
    NormalizedMirrored(c, x.ofi, y.ofi, cfg.maths.tanh);
    BandEven(x.vwap.WindowVwap(), x.ofi.Normalized(cfg.maths.tanh));
    assert MirrorRun(c, h)[|h| - 1].ts == h[|h| - 1].ts;
  }

  lemma BandEven(w: real, n: real)
    ensures Band(w, -n) == Band(w, n)
  {
  }

  // -------------------------------------------------------- both ties occur

  function BookOf(bid: real, ask: real, bidSizes: seq<real>, askSizes: seq<real>): Tick {
    Book(0, LevelsAt(bid, bidSizes), LevelsAt(ask, askSizes))
  }

  /** A side with all its sizes at one price. */
  function LevelsAt(price: real, sizes: seq<real>): (levels: seq<Level>)
    ensures |levels| == |sizes|
  {
    seq(|sizes|, i requires 0 <= i < |sizes| => Level(price, sizes[i]))
  }

  lemma {:induction false} DepthAt(price: real, sizes: seq<real>)
    ensures DepthSum(LevelsAt(price, sizes)) == Sum(sizes)
  {
    if sizes != [] {
      var n := |sizes| - 1;
      DepthAt(price, sizes[..n]);
      assert LevelsAt(price, sizes)[..n] == LevelsAt(price, sizes[..n]);
    }
  }

  /** A depth of 20, 19, 20 and 10, all but 1 of it behind the best price. */
  const PULLED: seq<seq<real>> := [[1.0, 19.0], [1.0, 18.0], [1.0, 19.0], [1.0, 9.0]]

  const STEADY: seq<seq<real>> := [[1.0], [1.0], [1.0], [1.0]]

  function BookRun(bid: real, ask: real, bidSizes: seq<seq<real>>, askSizes: seq<seq<real>>): (bs: seq<Tick>)
    requires |bidSizes| == |askSizes|
    ensures |bs| == |bidSizes|
  {
    seq(|bidSizes|, i requires 0 <= i < |bidSizes| => BookOf(bid, ask, bidSizes[i], askSizes[i]))
  }

  function Totals(sizes: seq<seq<real>>): (xs: seq<real>)
    ensures |xs| == |sizes|
  {
    seq(|sizes|, i requires 0 <= i < |sizes| => Sum(sizes[i]))
  }

  /** The score of the last of four depths. */
  function LastZ(sizes: seq<seq<real>>): real {
    if sizes == PULLED then 10.0 else 0.0
  }

  lemma ScoreOfPull(sqrt: real -> real)
    requires IsRoot(sqrt)
    ensures RS.NaiveScore(sqrt, [1.0, -1.0], 10.0) == 10.0
  {
    var w := [1.0, -1.0];
    SumOfTwo(1.0, -1.0);
    assert w[..1] == [1.0] && w[..1][..0] == [];
    assert Mean(w) == 0.0;
    assert Square(1.0) == 1.0 && Square(-1.0) == 1.0;
    assert SumDeviations(w[..1], 0.0) == 1.0;
    assert Variance(w) == 1.0;
    RootOfSquare(sqrt, 1.0);
  }

  lemma ScoreOfNothing(sqrt: real -> real)
    requires IsRoot(sqrt)
    ensures RS.NaiveScore(sqrt, [0.0, 0.0], 0.0) == 0.0
  {
    var w := [0.0, 0.0];
    SumOfTwo(0.0, 0.0);
    assert w[..1] == [0.0] && w[..1][..0] == [];
    assert Mean(w) == 0.0 && Square(0.0) == 0.0;
    assert SumDeviations(w[..1], 0.0) == 0.0;
    assert Variance(w) == 0.0;
    RootOfSquare(sqrt, 0.0);
  }

  lemma PulledTotals()
    ensures Totals(PULLED) == [20.0, 19.0, 20.0, 10.0] && Totals(STEADY) == [1.0, 1.0, 1.0, 1.0]
  {
    SumOfTwo(1.0, 19.0);
    SumOfTwo(1.0, 18.0);
    SumOfTwo(1.0, 9.0);
  }

  lemma SumOfTwo(a: real, b: real)
    ensures Sum([a]) == a && Sum([a, b]) == a + b
  {
    assert [a, b][..1] == [a] && [a][..0] == [];
  }

  lemma WithdrawalsOfThree(a: real, b: real, c: real)
    ensures V.Withdrawals([a, b, c]) == [a - b, b - c]
  {
    assert [a, b, c][..2] == [a, b] && [a, b][..1] == [a];
  }

  lemma LastZIs(sqrt: real -> real, window: nat, sizes: seq<seq<real>>)
    requires IsRoot(sqrt) && window >= 2 && (sizes == PULLED || sizes == STEADY)
    ensures V.NaiveZ(sqrt, window, Totals(sizes)[..3], Totals(sizes)[3]) == LastZ(sizes)
  {
    hide RS.NaiveScore, V.Withdrawals, Totals;
    ScoreOfPull(sqrt);
    ScoreOfNothing(sqrt);
    PulledTotals();
    WithdrawalsOfThree(20.0, 19.0, 20.0);
    WithdrawalsOfThree(1.0, 1.0, 1.0);
    assert [20.0, 19.0, 20.0, 10.0][..3] == [20.0, 19.0, 20.0];
    assert [1.0, 1.0, 1.0, 1.0][..3] == [1.0, 1.0, 1.0];
    assert STEADY[0] != PULLED[0];
  }

  lemma RunDepths(bid: real, ask: real, bidSizes: seq<seq<real>>, askSizes: seq<seq<real>>)
    requires bidSizes in {PULLED, STEADY} && askSizes in {PULLED, STEADY}
    ensures var bs := BookRun(bid, ask, bidSizes, askSizes);
      && (forall i :: 0 <= i < |bs| ==> Usable(bs[i]))
      && SizesOk(bs)
      && V.Bids(DepthsOf(bs)) == Totals(bidSizes) && V.Asks(DepthsOf(bs)) == Totals(askSizes)
  {
    hide DepthSum, Sum;
    forall i | 0 <= i < 4
      ensures DepthSum(LevelsAt(bid, bidSizes[i])) == Sum(bidSizes[i])
        && DepthSum(LevelsAt(ask, askSizes[i])) == Sum(askSizes[i])
    {
      DepthAt(bid, bidSizes[i]);
      DepthAt(ask, askSizes[i]);
    }
  }

  /** The verdict after trades and one of these runs of books. */
  lemma RunVerdict(cfg: Config, ts: seq<Tick>, bid: real, ask: real,
                   bidSizes: seq<seq<real>>, askSizes: seq<seq<real>>)
    requires IsRoot(cfg.maths.sqrt) && cfg.vacuumWindow >= 2
    requires forall i :: 0 <= i < |ts| ==> ts[i].Trade?
    requires bidSizes in {PULLED, STEADY} && askSizes in {PULLED, STEADY}
    ensures var h := ts + BookRun(bid, ask, bidSizes, askSizes);
      && SizesOk(h)
      && VacuumAfter(cfg, h) == V.Decide(cfg.vacuumTrigger, LastZ(bidSizes), LastZ(askSizes))
  {
    hide VacuumAfter, V.Decide, V.NaiveZ, Totals, LastZ, DepthSum, Books, BookOf;
    var bs := BookRun(bid, ask, bidSizes, askSizes);
    RunDepths(bid, ask, bidSizes, askSizes);
    TradesThenBooks(ts, bs);
    VacuumIsNaive(cfg, ts + bs);
    var depths := DepthsOf(bs);
    assert V.Bids(depths)[..3] == V.Bids(depths[..3]) && V.Asks(depths)[..3] == V.Asks(depths[..3]);
    LastZIs(cfg.maths.sqrt, cfg.vacuumWindow, bidSizes);
    LastZIs(cfg.maths.sqrt, cfg.vacuumWindow, askSizes);
  }

  lemma BookRunMirrored(c: real, bid: real, ask: real, bidSizes: seq<seq<real>>, askSizes: seq<seq<real>>)
    requires |bidSizes| == |askSizes|
    ensures MirrorRun(c, BookRun(bid, ask, bidSizes, askSizes))
      == BookRun(c - ask, c - bid, askSizes, bidSizes)
  {
    forall price, sizes ensures ReflectLevels(c, LevelsAt(price, sizes)) == LevelsAt(c - price, sizes) {
    }
  }

  /** The first tie: both sides fall from 20, 19 and 20 to 10. The run and its
      mirror image both report the bids as pulled. */
  lemma TiedRunExists(c: real, cfg: Config, bid: real, ask: real)
    requires IsRoot(cfg.maths.sqrt) && cfg.vacuumWindow >= 2 && cfg.vacuumTrigger < 10.0
    ensures var h := BookRun(bid, ask, PULLED, PULLED);
      && SizesOk(h) && !LastBookUntied(cfg, h)
      && VacuumAfter(cfg, h) == VacuumAfter(cfg, MirrorRun(c, h)) == V.Result(true, V.Sell, 10.0)
  {
    hide VacuumAfter, LastBookUntied;
    var h := BookRun(bid, ask, PULLED, PULLED);
    assert [] + h == h;
    RunVerdict(cfg, [], bid, ask, PULLED, PULLED);
    BookRunMirrored(c, bid, ask, PULLED, PULLED);
    var h' := BookRun(c - ask, c - bid, PULLED, PULLED);
    assert [] + h' == h';
    RunVerdict(cfg, [], c - ask, c - bid, PULLED, PULLED);
    VacuumRunMirrored(c, cfg, h);
  }

  /** The second tie: after trades of 1, 3 and 10, whose last scores 8, the bids
      behind a standing best price are pulled. The imbalance is 0, the verdict is
      mirrored, and yet the mirrored run shows another confidence. */
  lemma UnbalancedRunExists(c: real, cfg: Config, side: V.Side, price: real, bid: real, ask: real, latency: real)
    requires IsRoot(cfg.maths.sqrt) && IsSquash(cfg.maths.tanh)
    requires cfg.volumeWindow >= 2 && cfg.vacuumWindow >= 2 && cfg.vacuumTrigger < 10.0
    ensures var h := GrowingTrades(side, price) + BookRun(bid, ask, PULLED, STEADY);
      var s, m := SignalAfter(cfg, h, latency), SignalAfter(cfg, MirrorRun(c, h), latency);
      && SizesOk(h) && LastBookUntied(cfg, h)
      && s.ofiNormalized == 0.0 && s.volumeZ == 8.0 && s.vacuum == V.Result(true, V.Sell, 10.0)
      && m.confidence != s.confidence
  {
    hide CoreAfter, ZAfter, VacuumAfter, LastBookUntied, Score, BookRun, GrowingTrades, MirrorRun, V.Decide;
    hide Trades, Books, ConfidenceOf, DirectionOf, OrderFlow.State.Normalized, OrderFlow.After;
    var ts, bs := GrowingTrades(side, price), BookRun(bid, ask, PULLED, STEADY);
    var h := ts + bs;
    RunDepths(bid, ask, PULLED, STEADY);
    RunVerdict(cfg, ts, bid, ask, PULLED, STEADY);
    PulledVerdicts(cfg.vacuumTrigger);
    MirroredVerdict(c, cfg, side, price, bid, ask);
    VacuumRunMirrored(c, cfg, h);
    GrowingScore(cfg, h, side, price, bs);
    StillBooks(cfg, ts, bid, ask);
    RunMirrored(c, cfg, h);
    NormalizedMirrored(c, CoreAfter(cfg, h).ofi, CoreAfter(cfg, MirrorRun(c, h)).ofi, cfg.maths.tanh);
    ZeroImbalanceIff(cfg.maths.tanh, 8.0, VacuumAfter(cfg, h));
  }

  function GrowingTrades(side: V.Side, price: real): (ts: seq<Tick>)
    ensures forall i :: 0 <= i < |ts| ==> ts[i].Trade?
  {
    [Trade(0, side, price, 1.0), Trade(0, side, price, 3.0), Trade(0, side, price, 10.0)]
  }

  lemma PulledVerdicts(trigger: real)
    requires trigger < 10.0
    ensures V.Decide(trigger, LastZ(PULLED), LastZ(STEADY)) == V.Result(true, V.Sell, 10.0)
    ensures V.Decide(trigger, LastZ(STEADY), LastZ(PULLED)) == V.Result(true, V.Buy, 10.0)
  {
    assert STEADY[0] != PULLED[0];
  }

  lemma MirroredVerdict(c: real, cfg: Config, side: V.Side, price: real, bid: real, ask: real)
    requires IsRoot(cfg.maths.sqrt) && cfg.vacuumWindow >= 2
    ensures var h := GrowingTrades(side, price) + BookRun(bid, ask, PULLED, STEADY);
      VacuumAfter(cfg, MirrorRun(c, h)) == V.Decide(cfg.vacuumTrigger, LastZ(STEADY), LastZ(PULLED))
  {
    hide VacuumAfter, V.Decide, LastZ;
    var ts, bs := GrowingTrades(side, price), BookRun(bid, ask, PULLED, STEADY);
    BookRunMirrored(c, bid, ask, PULLED, STEADY);
    assert MirrorRun(c, ts + bs) == MirrorRun(c, ts) + MirrorRun(c, bs);
    RunVerdict(cfg, MirrorRun(c, ts), c - ask, c - bid, STEADY, PULLED);
  }

  lemma GrowingScore(cfg: Config, h: seq<Tick>, side: V.Side, price: real, bs: seq<Tick>)
    requires IsRoot(cfg.maths.sqrt) && cfg.volumeWindow >= 2
    requires forall i :: 0 <= i < |bs| ==> Usable(bs[i])
    requires h == GrowingTrades(side, price) + bs
    ensures ZAfter(cfg, h) == 8.0
  {
    hide ZAfter, RS.NaiveScore, Trades;
    TradesThenBooks(GrowingTrades(side, price), bs);
    ZIsNaive(cfg, h);
    assert Quantities(Trades(h)) == [1.0, 3.0, 10.0];
    assert [1.0, 3.0, 10.0][..2] == [1.0, 3.0];
    ScoreOfTen(cfg.maths.sqrt);
  }

  lemma StillBooks(cfg: Config, ts: seq<Tick>, bid: real, ask: real)
    requires IsSquash(cfg.maths.tanh)
    requires forall i :: 0 <= i < |ts| ==> ts[i].Trade?
    ensures var ofi := CoreAfter(cfg, ts + BookRun(bid, ask, PULLED, STEADY)).ofi;
      ofi.ema == 0.0 && ofi.Normalized(cfg.maths.tanh) == 0.0
  {
    hide CoreAfter, Books, OrderFlow.After, BookRun, V.After, DepthSum, TopOf;
    var bs := BookRun(bid, ask, PULLED, STEADY);
    RunDepths(bid, ask, PULLED, STEADY);
    TradesThenBooks(ts, bs);
    BookSide(cfg, ts + bs);
    StillQuotes(bid, ask);
    OrderFlow.StandingStill(cfg.ofiDecay, QuotesOf(bs), OrderFlow.Quote(bid, 1.0, ask, 1.0));
    OrderFlow.NormalizedSign(cfg.ofiDecay, QuotesOf(bs), cfg.maths.tanh);
  }

  lemma StillQuotes(bid: real, ask: real)
    ensures var bs := BookRun(bid, ask, PULLED, STEADY);
      forall i :: 0 <= i < |bs| ==> Usable(bs[i]) && TopOf(bs[i]) == OrderFlow.Quote(bid, 1.0, ask, 1.0)
  {
  }
}
