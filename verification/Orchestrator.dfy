/** The objects wired together and run without interleaving: frames pushed into
    the ring, a burst of the analysis loop, and a snapshot for the publisher. */
module Orchestrator {
  import opened Bits
  import opened RealMath
  import opened Engine
  import opened EngineHistory
  import opened SnapshotViews
  import M = SpscMachine
  import R = SpscRingBuffer
  import A = AnalysisEngine
  import Decay

  class Orchestrator {
    const queue: R.LockFreeRingBuffer<Tick>
    const engine: A.AnalysisEngine
    const idle: Tick                 // what a move leaves in a slot
    ghost var latencies: seq<real>

    ghost function QueueRepr(): set<object> {
      {queue, queue.buffer}
    }

    ghost predicate Valid()
      reads this, QueueRepr(), engine.Repr()
    {
      && queue.Valid() && engine.Valid()
      && this !in QueueRepr() && this !in engine.Repr()
      && QueueRepr() !! engine.Repr()
      && |latencies| == |queue.model.popped|
      && engine.View() == RunOn(engine.cfg, queue.model.popped, latencies)
    }

    constructor (cfg: Config, capacity: nat, idle: Tick)
      requires IsPowerOfTwo(capacity)
      ensures Valid() && fresh(QueueRepr()) && fresh(engine.Repr())
      ensures engine.cfg == cfg && queue.capacity == capacity && queue.model.offered == []
    {
      this.idle := idle;
      queue := new R.LockFreeRingBuffer(capacity, idle);
      engine := new A.AnalysisEngine(cfg);
      latencies := [];
    }

    /** The frame handler: a frame that parses is pushed, or dropped if the ring is
        full; the engine is not touched. */
    method OnFrame(parsed: R.Option<Tick>)
      requires Valid()
      modifies QueueRepr()
      ensures Valid()
      ensures parsed.None? ==> queue.model == old(queue.model)
      ensures parsed.Some? ==> queue.model == R.Pushed(old(queue.model), parsed.value)
    {
      if parsed.Some? {
        hide RunOn, R.AtRest, M.Unread, R.Pushed;
        var _ := queue.TryPush(parsed.value);
      }
    }

    /** The analysis loop: its test finds `running` set `turns` times and then
        cleared; what it analyses on turn i takes clock(i). Each turn analyses the
        next queued tick while there is one; what is left then stays queued. */
    method AnalyseWhileRunning(turns: nat, clock: nat -> real)
      requires Valid()
      modifies this`latencies, QueueRepr(), engine.Repr()
      ensures Valid()
      ensures queue.model.accepted == old(queue.model.accepted)
      ensures queue.model.popped <= queue.model.accepted
      ensures |queue.model.popped| == MinNat(|old(queue.model.popped)| + turns, |queue.model.accepted|)
      ensures latencies == old(latencies) + Readings(clock, |queue.model.popped| - |old(queue.model.popped)|)
      ensures engine.View().core == CoreAfter(engine.cfg, queue.model.popped)
    {
      hide RunOn, CoreAfter, M.Unread, R.AtRest, Engine.OnTick;
      ghost var start := |latencies|;
      RestBounds(queue.model);
      for turn := 0 to turns
        invariant Valid()
        invariant queue.model.accepted == old(queue.model.accepted)
        invariant start <= |queue.model.popped|
        invariant |queue.model.popped| == MinNat(start + turn, |queue.model.accepted|)
        invariant latencies == old(latencies) + Readings(clock, |queue.model.popped| - start)
      {
        var _ := StepLoop(clock(turn));
      }
      RestBounds(queue.model);
      RunIsHistory(engine.cfg, queue.model.popped, latencies);
    }

    /** One turn of the loop: pop, and analyse what came out. */
    method StepLoop(latency: real) returns (popped: bool)
      requires Valid()
      modifies this`latencies, QueueRepr(), engine.Repr()
      ensures Valid()
      ensures queue.model.accepted == old(queue.model.accepted)
      ensures popped ==> |queue.model.popped| == |old(queue.model.popped)| + 1
      ensures |queue.model.popped| <= |queue.model.accepted|
      ensures !popped ==> queue.model.popped == queue.model.accepted == old(queue.model.popped)
      ensures latencies == old(latencies) + if popped then [latency] else []
    {
      hide RunOn, Engine.OnTick, R.Popped, R.AtRest, M.Unread;
      ghost var before := queue.model;
      R.PopCall(before, idle);
      var tick := queue.TryPop(idle);
      RestBounds(queue.model);
      TickIsPopped(before, idle);
      if tick.None? {
        return false;
      }
      TimedRun(engine.cfg, before.popped, latencies, tick.value, latency);
      engine.OnTick(tick.value, latency);
      latencies := latencies + [latency];
      return true;
    }

    /** What the publisher reads between ticks. */
    method PublishSnapshot() returns (s: Signal)
      requires Valid()
      ensures s == SignalAfter(engine.cfg, queue.model.popped, Decay.Peak(latencies))
    {
      s := engine.Snapshot();
      RunIsHistory(engine.cfg, queue.model.popped, latencies);
    }
  }

  function Readings(clock: nat -> real, n: nat): (r: seq<real>)
    ensures |r| == n
  {
    seq(n, i requires 0 <= i < n => clock(i))
  }

  lemma RestBounds(s: M.State<Tick>)
    requires R.AtRest(s)
    ensures s.popped <= s.accepted
  {
  }

  lemma TickIsPopped(s: M.State<Tick>, left: Tick)
    requires R.AtRest(s)
    ensures s.popped == s.accepted <==> M.Unread(s) == []
    ensures R.Popped(s, left).popped ==
      if M.Unread(s) == [] then s.popped else s.popped + [M.Unread(s)[0]]
    ensures R.Popped(s, left).accepted == s.accepted
  {
    R.PopCall(s, left);
  }
}
