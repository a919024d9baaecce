/** The whole process: the network thread pushing parsed ticks into the ring, the
    analysis thread popping them and running the engine section by section, and
    a publisher that may read the engine's snapshot between any two steps. */
module Pipeline {
  import opened SpscMachine
  import opened SpscProperties
  import opened Bits
  import opened Engine
  import opened EngineHistory
  import opened SignalTheorems
  import opened SnapshotViews
  import Decay

  /** Where the analysis loop is, apart from its position inside try_pop. */
  datatype Phase =
    | Polling
    | Popped(tick: Tick)      // try_pop returned a tick, on_tick not begun
    | Absorbed(tick: Tick)    // first lock section done
    | Refreshed(tick: Tick)   // second lock section done
    | Exited

  datatype System = System(
    ring: State<Tick>,
    engine: EngineState,
    phase: Phase,
    running: bool,
    latencies: seq<real>)

  datatype Action =
    | Network(step: Step<Tick>)   // a step of try_push; PushBegin is a frame that parsed
    | Poll(step: Step<Tick>)      // a step of try_pop
    | Absorb
    | Refresh
    | Clock(latency: real)
    | Stop                        // the signal handler clears `running`
    | Exit                        // the loop test sees `running` cleared

  function Boot(cfg: Config, cap: nat, fill: Tick): System {
    System(Initial(cap, fill), Start(cfg), Polling, true, [])
  }

  /** The loop test is a relaxed load and may be out of date, so a pop may still
      begin after Stop; the loop exits only once `running` is cleared. */
  ghost predicate Can(p: System, a: Action) {
    match a
    case Network(step) => IsProducerStep(step) && Enabled(p.ring, step)
    case Poll(step) => p.phase.Polling? && !IsProducerStep(step) && Enabled(p.ring, step)
    case Absorb => p.phase.Popped?
    case Refresh => p.phase.Absorbed?
    case Clock(_) => p.phase.Refreshed?
    case Stop => true
    case Exit => p.phase.Polling? && p.ring.consumer.Waiting? && !p.running
  }

  ghost function Do(p: System, a: Action): System
    requires Can(p, a)
  {
    match a
    case Network(step) => p.(ring := Next(p.ring, step))
    case Poll(step) =>
      p.(ring := Next(p.ring, step),
         phase := if step.PopStore? then Popped(p.ring.consumer.value) else Polling)
    case Absorb => p.(engine := Engine.Process(p.engine, p.phase.tick), phase := Absorbed(p.phase.tick))
    case Refresh => p.(engine := Recompute(p.engine, p.phase.tick.ts), phase := Refreshed(p.phase.tick))
    case Clock(latency) =>
      p.(engine := Timed(p.engine, latency), phase := Polling, latencies := p.latencies + [latency])
    case Stop => p.(running := false)
    case Exit => p.(phase := Exited)
  }

  ghost predicate CanDo(p: System, actions: seq<Action>)
    decreases |actions|
  {
    actions == [] || (Can(p, actions[0]) && CanDo(Do(p, actions[0]), actions[1..]))
  }

  ghost function DoAll(p: System, actions: seq<Action>): System
    requires CanDo(p, actions)
    decreases |actions|
  {
    if actions == [] then p else DoAll(Do(p, actions[0]), actions[1..])
  }

  /** The engine has run exactly the popped ticks, the last of them perhaps only
      in part. */
  ghost predicate EngineInv(cfg: Config, p: System) {
    var popped, done := p.ring.popped, p.latencies;
    match p.phase
    case Polling => |done| == |popped| && p.engine == RunOn(cfg, popped, done)
    case Exited => |done| == |popped| && p.engine == RunOn(cfg, popped, done)
    case Popped(t) =>
      EndsWith(popped, t, done) && p.engine == Before(cfg, popped, done)
    case Absorbed(t) =>
      EndsWith(popped, t, done) && p.engine == Engine.Process(Before(cfg, popped, done), t)
    case Refreshed(t) =>
      EndsWith(popped, t, done) && p.engine == Recompute(Engine.Process(Before(cfg, popped, done), t), t.ts)
  }

  /** The engine before it took the last popped tick. */
  ghost function Before(cfg: Config, popped: seq<Tick>, latencies: seq<real>): EngineState
    requires popped != [] && |latencies| == |popped| - 1
  {
    RunOn(cfg, popped[..|popped| - 1], latencies)
  }

  predicate EndsWith(popped: seq<Tick>, t: Tick, latencies: seq<real>) {
    popped != [] && popped[|popped| - 1] == t && |latencies| == |popped| - 1
  }

  ghost predicate SystemInv(cfg: Config, p: System) {
    && Inv(p.ring)
    && (!p.phase.Polling? ==> p.ring.consumer.Waiting?)
    && EngineInv(cfg, p)
  }

  lemma BootInv(cfg: Config, cap: nat, fill: Tick)
    requires IsPowerOfTwo(cap)
    ensures SystemInv(cfg, Boot(cfg, cap, fill))
  {
    InitialInv(cap, fill);
  }

  /** A producer step leaves the consumer and what it has popped alone, and a
      consumer step pops only when it stores head_. */
  lemma PoppedChanges(s: State<Tick>, step: Step<Tick>)
    requires Enabled(s, step)
    ensures IsProducerStep(step) ==>
      Next(s, step).popped == s.popped && Next(s, step).consumer == s.consumer
    ensures !IsProducerStep(step) && !step.PopStore? ==> Next(s, step).popped == s.popped
    ensures step.PopStore? ==>
      Next(s, step).popped == s.popped + [s.consumer.value] && Next(s, step).consumer.Waiting?
  {
  }

  lemma {:induction false} ActionKeepsInv(cfg: Config, p: System, a: Action)
    requires SystemInv(cfg, p) && Can(p, a)
    ensures SystemInv(cfg, Do(p, a))
  {
    hide Inv, Next, Enabled, RunOn, Engine.Process, Recompute, Timed;
    var popped := p.ring.popped;
    match a
    case Network(step) =>
      InvPreserved(p.ring, step);
      PoppedChanges(p.ring, step);
    case Poll(step) =>
      InvPreserved(p.ring, step);
      PoppedChanges(p.ring, step);
      if step.PopStore? {
        assert Do(p, a).ring.popped[..|popped|] == popped;
      }
    case Clock(latency) =>
      TimedRun(cfg, popped[..|popped| - 1], p.latencies, p.phase.tick, latency);
      assert popped == popped[..|popped| - 1] + [p.phase.tick];
      OnTickSections(RunOn(cfg, popped[..|popped| - 1], p.latencies), p.phase.tick, latency);
    case _ =>
  }

  lemma OnTickSections(e: EngineState, t: Tick, latency: real)
    ensures OnTick(e, t, latency) == Timed(Recompute(Engine.Process(e, t), t.ts), latency)
  {
    hide Engine.Process, Recompute, Timed;
  }

  lemma {:induction false} RunKeepsInv(cfg: Config, p: System, actions: seq<Action>)
    requires SystemInv(cfg, p) && CanDo(p, actions)
    ensures SystemInv(cfg, DoAll(p, actions))
    decreases |actions|
  {
    hide SystemInv, Can, Do;
    if actions != [] {
      ActionKeepsInv(cfg, p, actions[0]);
      RunKeepsInv(cfg, Do(p, actions[0]), actions[1..]);
    }
  }

  // ------------------------------------------------------------- results

  lemma {:induction false} MergeLength<T>(all: seq<T>, a: seq<T>, b: seq<T>)
    requires IsMerge(all, a, b)
    ensures |all| == |a| + |b|
    decreases |all|
  {
    if all != [] {
      var n := |all| - 1;
      if a != [] && IsMerge(all[..n], a[..|a| - 1], b) {
        MergeLength(all[..n], a[..|a| - 1], b);
      } else {
        MergeLength(all[..n], a, b[..|b| - 1]);
      }
    }
  }

  function InProducer(p: System): nat {
    if p.ring.producer.Idle? then 0 else 1
  }

  function InAnalysis(p: System): nat {
    if p.phase.Popped? || p.phase.Absorbed? then 1 else 0
  }

  lemma TicksCount(cfg: Config, p: System)
    requires SystemInv(cfg, p)
    ensures p.engine.core.ticks + InAnalysis(p) == |p.ring.popped|
  {
    hide Inv, RunOn, CoreAfter, Recomputed, ProcessCore;
    var popped := p.ring.popped;
    var done := popped[..|p.latencies|];
    assert popped[..|popped|] == popped;
    RunIsHistory(cfg, done, p.latencies);
    TradeSide(cfg, done);
    if p.phase.Absorbed? || p.phase.Refreshed? {
      TicksKept(RunOn(cfg, done, p.latencies).core, p.phase.tick);
    }
  }

  lemma TicksKept(core: Core, t: Tick)
    ensures ProcessCore(core, t).ticks == core.ticks
  {
  }

  /** Conservation, after any interleaving: every tick parsed has been dropped and
      counted, waits in the ring, is in flight in one of the two threads, or has
      been processed; and accepted and dropped ticks are complementary
      subsequences of the parsed ones. */
  lemma {:induction false} Conservation(cfg: Config, cap: nat, fill: Tick, actions: seq<Action>)
    requires IsPowerOfTwo(cap) && CanDo(Boot(cfg, cap, fill), actions)
    ensures var p := DoAll(Boot(cfg, cap, fill), actions);
      && Inv(p.ring)
      && |p.ring.offered| == p.ring.dropped + |Unread(p.ring)| + InProducer(p) + InAnalysis(p)
                             + p.engine.core.ticks
      && OfferedInv(p.ring)
  {
    hide Can, Do, CanDo, DoAll, IsMerge, Unread, EngineInv, Boot;
    BootInv(cfg, cap, fill);
    RunKeepsInv(cfg, Boot(cfg, cap, fill), actions);
    var p := DoAll(Boot(cfg, cap, fill), actions);
    TicksCount(cfg, p);
    UnreadIsSuffix(p.ring);
    var n := if p.ring.producer.Idle? then |p.ring.offered| else |p.ring.offered| - 1;
    assert p.ring.offered[..|p.ring.offered|] == p.ring.offered;
    MergeLength(p.ring.offered[..n], p.ring.accepted, p.ring.lost);
  }

  /** Between ticks, and when the loop has exited, the engine is exactly the
      sequential fold of on_tick over the accepted ticks already consumed. */
  lemma {:induction false} EngineAtRest(cfg: Config, cap: nat, fill: Tick, actions: seq<Action>)
    requires IsPowerOfTwo(cap) && CanDo(Boot(cfg, cap, fill), actions)
    requires var p := DoAll(Boot(cfg, cap, fill), actions); p.phase.Polling? || p.phase.Exited?
    ensures var p := DoAll(Boot(cfg, cap, fill), actions);
      var consumed := p.ring.popped;
      && consumed <= p.ring.accepted
      && |p.latencies| == |consumed|
      && p.engine == RunOn(cfg, consumed, p.latencies)
      && p.engine.core == CoreAfter(cfg, consumed)
      && p.engine.published == SignalAfter(cfg, consumed, Decay.Peak(p.latencies))
  {
    hide Can, Do, CanDo, DoAll, RunOn, Boot, CoreAfter, SignalAfter;
    BootInv(cfg, cap, fill);
    RunKeepsInv(cfg, Boot(cfg, cap, fill), actions);
    var p := DoAll(Boot(cfg, cap, fill), actions);
    RunIsHistory(cfg, p.ring.popped, p.latencies);
  }

  lemma PublishedIsCoherent(cfg: Config, p: System) returns (seen: seq<Tick>)
    requires SystemInv(cfg, p)
    ensures seen <= p.ring.popped && |p.ring.popped| - 1 <= |seen|
    ensures Coherent(cfg, p.engine.published, seen, p.latencies)
  {
    hide Inv, RunOn, Engine.Process, Recompute, Coherent;
    var popped := p.ring.popped;
    seen := popped;
    match p.phase
    case Polling => RestIsCoherent(cfg, popped, p.latencies);
    case Exited => RestIsCoherent(cfg, popped, p.latencies);
    case Popped(t) =>
      seen := popped[..|popped| - 1];
      RestIsCoherent(cfg, seen, p.latencies);
    case Absorbed(t) =>
      ProcessedIsCoherent(cfg, popped[..|popped| - 1], p.latencies, t);
      assert popped == popped[..|popped| - 1] + [t];
    case Refreshed(t) =>
      RecomputedIsCoherent(cfg, popped[..|popped| - 1], p.latencies, t);
      assert popped == popped[..|popped| - 1] + [t];
  }

  /** End to end: whatever the interleaving and whenever the publisher looks, the
      snapshot is determined by a prefix of the accepted ticks and the latencies
      read so far, in the sense of Coherent: `seen` are the accepted ticks whose
      processing has begun. And for a threshold in [0, 1) its direction, confidence
      and targets always agree. */
  lemma {:induction false} EverySnapshotIsAPrefix(cfg: Config, cap: nat, fill: Tick, actions: seq<Action>)
    returns (seen: seq<Tick>)
    requires IsPowerOfTwo(cap) && CanDo(Boot(cfg, cap, fill), actions)
    ensures var p := DoAll(Boot(cfg, cap, fill), actions);
      && seen <= p.ring.accepted
      && Coherent(cfg, p.engine.published, seen, p.latencies)
      && (0.0 <= cfg.threshold < 1.0 ==> SelfConsistent(cfg, p.engine.published))
      && |p.ring.popped| - 1 <= |seen| <= |p.ring.popped|
  {
    hide Can, Do, CanDo, DoAll, RunOn, Boot, Coherent, EngineInv, SelfConsistent;
    BootInv(cfg, cap, fill);
    RunKeepsInv(cfg, Boot(cfg, cap, fill), actions);
    var p := DoAll(Boot(cfg, cap, fill), actions);
    seen := PublishedIsCoherent(cfg, p);
    if 0.0 <= cfg.threshold < 1.0 {
      CoherentIsSelfConsistent(cfg, p.engine.published, seen, p.latencies);
    }
  }
}
