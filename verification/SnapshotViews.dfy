/** What another thread can see. on_tick publishes in three lock sections, so a
    snapshot can fall between them; these are all the signals it can return. */
module SnapshotViews {
  import opened RealMath
  import opened Engine
  import opened EngineHistory
  import opened SignalTheorems
  import V = Vacuum
  import RS = RollingStats
  import OrderFlow
  import Decay

  /** `s` is a signal a reader may get while `h` are the ticks whose processing
      has begun and `latencies` the readings of those that are finished. All fields
      written by recompute_signal come from one tick, the one numbered
      s.ticksProcessed; of the volume score and the vacuum group at most one is
      ahead of it, by one tick, and it is the one that tick carries. */
  ghost predicate Coherent(cfg: Config, s: Signal, h: seq<Tick>, latencies: seq<real>) {
    var k := s.ticksProcessed;
    && |latencies| <= k <= |h| <= |latencies| + 1
    && s == SignalAfter(cfg, h[..k], Decay.Peak(latencies)).(volumeZ := s.volumeZ, vacuum := s.vacuum)
    && (|| (s.volumeZ == ZAfter(cfg, h[..k]) && s.vacuum == VacuumAfter(cfg, h[..k]))
        || (|h| == k + 1 && h[k].Trade?
            && s.volumeZ == ZAfter(cfg, h) && s.vacuum == VacuumAfter(cfg, h[..k]))
        || (|h| == k + 1 && h[k].Book?
            && s.volumeZ == ZAfter(cfg, h[..k]) && s.vacuum == VacuumAfter(cfg, h)))
  }

  lemma RestIsCoherent(cfg: Config, h: seq<Tick>, latencies: seq<real>)
    requires |latencies| == |h|
    ensures Coherent(cfg, RunOn(cfg, h, latencies).published, h, latencies)
    ensures RunOn(cfg, h, latencies).published.ticksProcessed == |h|
  {
    hide RunOn, Score, Band, DirectionOf, ConfidenceOf, Decay.Peak;
    RunIsHistory(cfg, h, latencies);
    TradeSide(cfg, h);
    assert h[..|h|] == h;
  }

  lemma ProcessedIsCoherent(cfg: Config, h: seq<Tick>, latencies: seq<real>, t: Tick)
    requires |latencies| == |h|
    ensures Coherent(cfg, Process(RunOn(cfg, h, latencies), t).published, h + [t], latencies)
    ensures Process(RunOn(cfg, h, latencies), t).published.ticksProcessed == |h|
  {
    hide RunOn, Score, Band, DirectionOf, ConfidenceOf, CoreAfter, RS.Stats.Score, V.State.Verdict;
    hide ProcessCore, DepthSum, Decay.Peak;
    RunIsHistory(cfg, h, latencies);
    TradeSide(cfg, h);
    assert (h + [t])[..|h|] == h;
  }

  lemma RecomputedIsCoherent(cfg: Config, h: seq<Tick>, latencies: seq<real>, t: Tick)
    requires |latencies| == |h|
    ensures Coherent(cfg, Recompute(Process(RunOn(cfg, h, latencies), t), t.ts).published, h + [t], latencies)
    ensures Recompute(Process(RunOn(cfg, h, latencies), t), t.ts).published.ticksProcessed == |h| + 1
  {
    hide Process, Recomputed, RunOn, SignalAfter, Decay.Peak;
    var h' := h + [t];
    var e := Recompute(Process(RunOn(cfg, h, latencies), t), t.ts);
    var quick := latencies + [0.0];
    assert h'[..|h|] == h && quick[..|h|] == latencies;
    TimedRun(cfg, h, latencies, t, 0.0);
    RestIsCoherent(cfg, h', quick);
    assert h'[..|h'|] == h';
    RunIsHistory(cfg, h', quick);
    LatencyKept(RunOn(cfg, h, latencies), t);
    RunIsHistory(cfg, h, latencies);
    LatencyIsSeparate(cfg, h, Decay.Peak(latencies), 0.0);
    LatencyIsSeparate(cfg, h', Decay.Peak(quick), e.published.latency);
  }

  lemma TimedRun(cfg: Config, h: seq<Tick>, latencies: seq<real>, t: Tick, latency: real)
    requires |latencies| == |h|
    ensures RunOn(cfg, h + [t], latencies + [latency])
      == OnTick(RunOn(cfg, h, latencies), t, latency)
  {
    assert (h + [t])[..|h|] == h && (latencies + [latency])[..|h|] == latencies;
  }

  /** Only the third lock section writes the latency. */
  lemma LatencyKept(e: EngineState, t: Tick)
    ensures Recompute(Process(e, t), t.ts).published.latency == e.published.latency
  {
  }

  lemma LatencyIsSeparate(cfg: Config, h: seq<Tick>, a: real, b: real)
    ensures SignalAfter(cfg, h, a).(latency := b) == SignalAfter(cfg, h, b)
    ensures SignalAfter(cfg, h, a).latency == a
  {
  }

  /** Direction, confidence and targets are written together, so they agree in
      every snapshot, mid-tick ones included. */
  lemma CoherentIsSelfConsistent(cfg: Config, s: Signal, h: seq<Tick>, latencies: seq<real>)
    requires Coherent(cfg, s, h, latencies) && 0.0 <= cfg.threshold < 1.0
    ensures SelfConsistent(cfg, s)
  {
    hide Recomputed, CoreAfter, ZAfter, VacuumAfter, Decay.Peak;
    var done := h[..s.ticksProcessed];
    if done != [] {
      RecomputedIsSelfConsistent(cfg, CoreAfter(cfg, done),
        BLANK.(volumeZ := ZAfter(cfg, done), vacuum := VacuumAfter(cfg, done), latency := Decay.Peak(latencies)),
        done[|done| - 1].ts);
    }
  }

  // ------------------------------------------------------- torn snapshots

  function ScoreShown(cfg: Config, s: Signal): real {
    Score(cfg.maths.tanh, s.ofiNormalized, s.volumeZ, s.vacuum)
  }

  /** The direction and confidence shown are those the heuristic gives for the
      imbalance, volume score and vacuum shown beside them. */
  ghost predicate Explained(cfg: Config, s: Signal) {
    && s.direction == DirectionOf(ScoreShown(cfg, s), cfg.threshold)
    && s.confidence == ConfidenceOf(ScoreShown(cfg, s))
  }

  /** Two scores look alike: they are equal, or opposite and too weak to call a
      direction, or both beyond the same end of the scale. */
  predicate LookAlike(a: real, b: real, threshold: real) {
    a == b || (a == -b && Abs(a) <= threshold) || (a >= 1.0 && b >= 1.0) || (a <= -1.0 && b <= -1.0)
  }

  lemma LookAlikeIff(a: real, b: real, threshold: real)
    requires 0.0 <= threshold < 1.0
    ensures DirectionOf(a, threshold) == DirectionOf(b, threshold) && ConfidenceOf(a) == ConfidenceOf(b)
      <==> LookAlike(a, b, threshold)
  {
  }

  lemma RestIsExplained(cfg: Config, h: seq<Tick>, latencies: seq<real>)
    requires |latencies| == |h| && IsSquash(cfg.maths.tanh) && cfg.threshold >= 0.0
    ensures Explained(cfg, RunOn(cfg, h, latencies).published)
  {
    hide RunOn, CoreAfter, ZAfter, VacuumAfter, Decay.Peak, OrderFlow.State.Normalized, Band;
    RunIsHistory(cfg, h, latencies);
    if h == [] {
      assert cfg.maths.tanh(-0.0) == -cfg.maths.tanh(0.0);
    }
  }

  /** How far the first lock section moves the score shown: by the volume term of
      a trade or the vacuum term of a book, and not by the imbalance. */
  function ScoreMove(cfg: Config, h: seq<Tick>, t: Tick, s: Signal): real {
    if t.Trade? then
      VolumeTerm(cfg.maths.tanh, ZAfter(cfg, h + [t]), s.ofiNormalized)
      - VolumeTerm(cfg.maths.tanh, ZAfter(cfg, h), s.ofiNormalized)
    else VacuumTerm(VacuumAfter(cfg, h + [t])) - VacuumTerm(VacuumAfter(cfg, h))
  }

  /** A reader between the first two sections sees a direction and confidence that
      no longer follow from the volume score and vacuum beside them exactly when
      the tick moves the score to one that does not look like the old one. */
  lemma MixedIff(cfg: Config, h: seq<Tick>, latencies: seq<real>, t: Tick)
    requires |latencies| == |h| && IsSquash(cfg.maths.tanh) && 0.0 <= cfg.threshold < 1.0
    ensures var e := RunOn(cfg, h, latencies);
      var before := ScoreShown(cfg, e.published);
      Explained(cfg, Process(e, t).published)
      <==> LookAlike(before, before + ScoreMove(cfg, h, t, e.published), cfg.threshold)
  {
    hide RunOn, CoreAfter, Process, Score, VolumeTerm, VacuumTerm, DirectionOf, ConfidenceOf, LookAlike;
    var e := RunOn(cfg, h, latencies);
    RestIsExplained(cfg, h, latencies);
    FirstSection(cfg, h, latencies, t);
    ScoreSplit(cfg, Process(e, t).published);
    ScoreSplit(cfg, e.published);
    LookAlikeIff(ScoreShown(cfg, e.published), ScoreShown(cfg, Process(e, t).published), cfg.threshold);
  }

  lemma ScoreSplit(cfg: Config, s: Signal)
    ensures ScoreShown(cfg, s)
      == s.ofiNormalized * 0.55 + VolumeTerm(cfg.maths.tanh, s.volumeZ, s.ofiNormalized) + VacuumTerm(s.vacuum)
  {
  }

  lemma FirstSection(cfg: Config, h: seq<Tick>, latencies: seq<real>, t: Tick)
    requires |latencies| == |h|
    ensures var s := RunOn(cfg, h, latencies).published;
      && s.volumeZ == ZAfter(cfg, h) && s.vacuum == VacuumAfter(cfg, h)
      && Process(RunOn(cfg, h, latencies), t).published
        == s.(volumeZ := ZAfter(cfg, h + [t]), vacuum := VacuumAfter(cfg, h + [t]))
      && (t.Trade? ==> VacuumAfter(cfg, h + [t]) == s.vacuum)
      && (t.Book? ==> ZAfter(cfg, h + [t]) == s.volumeZ)
  {
    hide RunOn, Score, Band, DirectionOf, ConfidenceOf, CoreAfter, RS.Stats.Score, V.State.Verdict;
    hide ProcessCore, DepthSum, Decay.Peak;
    RunIsHistory(cfg, h, latencies);
    assert (h + [t])[..|h|] == h;
  }

  /** Such snapshots exist: after trades of 1 and 3 a trade of 10 shows a score of
      8 beside the tick count, direction and confidence of the second trade, whose
      own score was 0. */
  lemma MixedSnapshotExists(cfg: Config, side: V.Side, price: real)
    requires IsRoot(cfg.maths.sqrt) && IsSquash(cfg.maths.tanh)
    requires cfg.volumeWindow >= 2 && 0.0 <= cfg.threshold < 1.0
    ensures var h := [Trade(0, side, price, 1.0), Trade(0, side, price, 3.0)];
      var s := Process(RunOn(cfg, h, [0.0, 0.0]), Trade(0, side, price, 10.0)).published;
      s.ticksProcessed == 2 && s.volumeZ == 8.0 && ZAfter(cfg, h) == 0.0 && !Explained(cfg, s)
  {
    hide RunOn, CoreAfter, Process, ZAfter, VacuumAfter, Score, LookAlike, VolumeTerm, Coherent, Explained;
    var h := [Trade(0, side, price, 1.0), Trade(0, side, price, 3.0)];
    var t := Trade(0, side, price, 10.0);
    ProcessedIsCoherent(cfg, h, [0.0, 0.0], t);
    FirstSection(cfg, h, [0.0, 0.0], t);
    GrowingScores(cfg, h, t, side, price);
    MixedIff(cfg, h, [0.0, 0.0], t);
    NoBooksYet(cfg, h, [0.0, 0.0]);
    SurpriseShows(cfg.maths.tanh, cfg.threshold);
  }

  /** With trades only, there is no imbalance and no vacuum. */
  lemma NoBooksYet(cfg: Config, h: seq<Tick>, latencies: seq<real>)
    requires |latencies| == |h| && IsSquash(cfg.maths.tanh)
    requires h != [] && forall i :: 0 <= i < |h| ==> h[i].Trade?
    ensures RunOn(cfg, h, latencies).published.ofiNormalized == 0.0
    ensures VacuumAfter(cfg, h) == V.QUIET
  {
    hide RunOn, CoreAfter, VacuumAfter, Books, Trades, Decay.Peak, OrderFlow.State.Normalized;
    assert h + [] == h;
    TradesThenBooks(h, []);
    VacuumIsNaive(cfg, h);
    BookSide(cfg, h);
    OrderFlow.NormalizedSign(cfg.ofiDecay, [], cfg.maths.tanh);
    RunIsHistory(cfg, h, latencies);
  }

  lemma SurpriseShows(tanh: real -> real, threshold: real)
    requires IsSquash(tanh)
    ensures Score(tanh, 0.0, 0.0, V.QUIET) == 0.0
    ensures !LookAlike(0.0, VolumeTerm(tanh, 8.0, 0.0) - VolumeTerm(tanh, 0.0, 0.0), threshold)
  {
    SquashSign(tanh, 2.0);
    SquashSign(tanh, 0.0);
  }

  lemma GrowingScores(cfg: Config, h: seq<Tick>, t: Tick, side: V.Side, price: real)
    requires IsRoot(cfg.maths.sqrt) && cfg.volumeWindow >= 2
    requires h == [Trade(0, side, price, 1.0), Trade(0, side, price, 3.0)]
    requires t == Trade(0, side, price, 10.0)
    ensures ZAfter(cfg, h) == 0.0 && ZAfter(cfg, h + [t]) == 8.0
  {
    hide RS.NaiveScore, ZAfter, Trades, Books;
    var h' := h + [t];
    assert h + [] == h && h' + [] == h';
    TradesThenBooks(h, []);
    TradesThenBooks(h', []);
    ZIsNaive(cfg, h);
    ZIsNaive(cfg, h');
    assert Quantities(h) == [1.0, 3.0] && Quantities(h') == [1.0, 3.0, 10.0];
    assert [1.0, 3.0][..1] == [1.0] && [1.0, 3.0, 10.0][..2] == [1.0, 3.0];
    ScoreOfTen(cfg.maths.sqrt);
    ShortWindowScore(cfg.maths.sqrt);
  }

  lemma ShortWindowScore(sqrt: real -> real)
    ensures RS.NaiveScore(sqrt, [1.0], 3.0) == 0.0
  {
  }
}
