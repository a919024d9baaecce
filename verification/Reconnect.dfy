/** The WebSocket client's connect, read and reconnect chain. Each asynchronous
    operation ends in success or failure at an arbitrary later moment; `stop` may
    come at any time. */
module Reconnect {
  import opened Bits
  import opened RealMath

  /** What is done on the socket. */
  datatype Task = Connect | TlsHandshake | WsHandshake | Read

  /** An operation whose handler has not run. One on the socket belongs to the
      opening of the socket it was started on; once `done`, it has succeeded and
      its handler is queued. */
  datatype Op = Resolve | Timer(delay: nat) | OnSocket(task: Task, opening: nat, done: bool)

  datatype Notice = Connecting | Connected | Disconnected

  datatype Event =
    | Run
    | Stop
    | Succeed(op: Op)            // an operation on the socket completes
    | Finish(op: Op, ok: bool)   // a handler runs

  datatype State = State(
    initial: nat,             // reconnect_initial_backoff, in ms
    max: nat,                 // reconnect_max_backoff, in ms
    backoff: nat,
    stopping: bool,
    open: bool,               // the stream's socket is open
    opening: nat,             // how often it has been opened
    pending: multiset<Op>,    // operations in flight and armed timers
    notices: seq<Notice>,     // calls of the state handler
    frames: nat,              // calls of the frame handler
    waits: seq<nat>)          // delays armed since the last successful handshake

  function Fresh(initial: nat, max: nat): State {
    State(initial, max, initial, false, false, 0, multiset{}, [], 0, [])
  }

  function DoResolve(s: State): State {
    s.(notices := s.notices + [Connecting], pending := s.pending + multiset{Resolve})
  }

  function ScheduleReconnect(s: State): State {
    if s.stopping then s
    else
      s.(notices := s.notices + [Disconnected],
         pending := s.pending + multiset{Timer(s.backoff)},
         waits := s.waits + [s.backoff])
  }

  /** Starts an operation on the socket, open or not. */
  function Begin(s: State, task: Task): State {
    s.(pending := s.pending + multiset{OnSocket(task, s.opening, false)})
  }

  /** async_connect over the resolved endpoints opens the socket anew. */
  function DoConnect(s: State): State {
    Begin(s.(open := true, opening := s.opening + 1), Connect)
  }

  /** The socket an operation was started on is still open. An operation whose
      socket was closed under it, or was closed to begin with, can only fail. */
  predicate Alive(s: State, op: Op)
    requires op.OnSocket?
  {
    s.open && op.opening == s.opening
  }

  /** A handler sees success only of an operation that has succeeded. A connect
      that did may still be given up: the server name can be refused. */
  predicate Enabled(s: State, e: Event) {
    match e
    case Succeed(op) => op in s.pending && op.OnSocket? && !op.done && Alive(s, op)
    case Finish(op, ok) =>
      && op in s.pending
      && (op.OnSocket? ==> if ok then op.done else op.done ==> op.task.Connect?)
    case _ => true
  }

  function Next(s: State, e: Event): State
    requires Enabled(s, e)
  {
    match e
    case Run => DoResolve(s.(stopping := false))
    case Stop => s.(stopping := true, open := false)
    case Succeed(op) => s.(pending := s.pending - multiset{op} + multiset{op.(done := true)})
    case Finish(op, ok) =>
      var t := s.(pending := s.pending - multiset{op});
      match op
      case Resolve => if ok then DoConnect(t) else ScheduleReconnect(t)
      case Timer(_) =>
        if !ok || t.stopping then t
        else DoResolve(t.(backoff := MinNat(2 * t.backoff, t.max), open := false))
      case OnSocket(task, _, _) => AfterTask(t, task, ok)
  }

  function AfterTask(t: State, task: Task, ok: bool): State {
    match task
    case Connect => if ok then Begin(t, TlsHandshake) else ScheduleReconnect(t)
    case TlsHandshake => if ok then Begin(t, WsHandshake) else ScheduleReconnect(t)
    case WsHandshake =>
      if ok then
        Begin(t.(backoff := t.initial, waits := [], notices := t.notices + [Connected]), Read)
      else ScheduleReconnect(t)
    case Read =>
      if ok then Begin(t.(frames := t.frames + 1), Read)
      else if t.stopping then t
      else ScheduleReconnect(t.(notices := t.notices + [Disconnected]))
  }

  predicate CanRun(s: State, events: seq<Event>)
    decreases |events|
  {
    events == [] || (Enabled(s, events[0]) && CanRun(Next(s, events[0]), events[1..]))
  }

  function RunAll(s: State, events: seq<Event>): State
    requires CanRun(s, events)
    decreases |events|
  {
    if events == [] then s else RunAll(Next(s, events[0]), events[1..])
  }

  function Starts(events: seq<Event>): nat {
    if events == [] then 0 else (if events[0].Run? then 1 else 0) + Starts(events[1..])
  }

  /** One call of run() keeps at most one operation in flight; in general there are
      never more than there were calls of run(). */
  lemma {:induction false} PendingBoundedByRuns(s: State, events: seq<Event>)
    requires CanRun(s, events)
    ensures |RunAll(s, events).pending| <= |s.pending| + Starts(events)
    decreases |events|
  {
    if events != [] {
      PendingStep(s, events[0]);
      PendingBoundedByRuns(Next(s, events[0]), events[1..]);
    }
  }

  lemma PendingStep(s: State, e: Event)
    requires Enabled(s, e)
    ensures |Next(s, e).pending| <= |s.pending| + if e.Run? then 1 else 0
  {
    if e.Finish? || e.Succeed? {
      assert |s.pending - multiset{e.op}| == |s.pending| - 1;
    }
  }

  /** "Safe to call once" is exact: a second call puts a second operation in
      flight. */
  lemma SecondRunDoubles(initial: nat, max: nat)
    ensures |RunAll(Fresh(initial, max), [Run, Run]).pending| == 2
  {
    var s := Fresh(initial, max);
    assert [Run, Run][1..] == [Run] && [Run][1..] == [];
    assert CanRun(Next(s, Run), [Run]);
    assert RunAll(s, [Run, Run]) == RunAll(Next(s, Run), [Run]);
  }

  // ------------------------------------------------------------- backoff

  /** The delay of the (k+1)-th wait in a row. */
  function Wait(initial: nat, max: nat, k: nat): nat {
    if k == 0 then initial else MinNat(initial * Pow2(k), max)
  }

  lemma WaitDoubles(initial: nat, max: nat, k: nat)
    ensures MinNat(2 * Wait(initial, max, k), max) == Wait(initial, max, k + 1)
  {
    assert initial * Pow2(k + 1) == 2 * (initial * Pow2(k));
    assert initial * Pow2(0) == initial;
  }

  /** Which notice may follow which. */
  predicate MayFollow(a: Notice, b: Notice) {
    match b
    case Connecting => a == Disconnected
    case Connected => a == Connecting
    case Disconnected => true
  }

  ghost predicate Grammatical(notices: seq<Notice>) {
    forall i :: 0 < i < |notices| ==> MayFollow(notices[i - 1], notices[i])
  }

  ghost predicate LogInv(s: State) {
    && (forall k :: 0 <= k < |s.waits| ==> s.waits[k] == Wait(s.initial, s.max, k))
    && Grammatical(s.notices)
    && s.notices != []
  }

  /** The single operation in flight, the backoff, the waits and the last notice
      agree. */
  ghost predicate ChainInv(s: State) {
    && LogInv(s)
    && (s.pending == multiset{} || exists op :: s.pending == multiset{op} && OpInv(s, op))
  }

  ghost predicate OpInv(s: State, op: Op)
    requires s.notices != []
  {
    var last := s.notices[|s.notices| - 1];
    match op
    case Timer(d) =>
      last == Disconnected && s.waits != [] && d == s.backoff == s.waits[|s.waits| - 1]
    case OnSocket(Read, _, _) => last == Connected && s.backoff == Wait(s.initial, s.max, |s.waits|)
    case _ => last == Connecting && s.backoff == Wait(s.initial, s.max, |s.waits|)
  }

  lemma GrammaticalAppend(n: seq<Notice>, b: Notice)
    requires Grammatical(n) && n != [] && MayFollow(n[|n| - 1], b)
    ensures Grammatical(n + [b])
  {
  }

  lemma WaitZero(initial: nat, max: nat)
    ensures Wait(initial, max, 0) == initial
  {
  }

  lemma ScheduleKeeps(t: State)
    requires LogInv(t) && t.pending == multiset{}
    requires t.backoff == Wait(t.initial, t.max, |t.waits|)
    ensures ChainInv(ScheduleReconnect(t))
  {
    hide Wait, Grammatical;
    GrammaticalAppend(t.notices, Disconnected);
    var s := ScheduleReconnect(t);
    if !t.stopping {
      assert s.pending == multiset{Timer(t.backoff)};
      assert OpInv(s, Timer(t.backoff));
    }
  }

  lemma ProceedKeeps(t: State, op: Op)
    requires LogInv(t) && t.pending == multiset{op} && OpInv(t, op)
    ensures ChainInv(t)
  {
    hide Wait, Grammatical;
  }

  lemma TimerKeeps(s: State, d: nat, ok: bool)
    requires LogInv(s) && s.pending == multiset{Timer(d)} && OpInv(s, Timer(d))
    ensures ChainInv(Next(s, Finish(Timer(d), ok)))
  {
    hide Wait, Grammatical;
    assert s.pending - multiset{Timer(d)} == multiset{};
    WaitDoubles(s.initial, s.max, |s.waits| - 1);
    GrammaticalAppend(s.notices, Connecting);
    if ok && !s.stopping {
      var s' := Next(s, Finish(Timer(d), ok));
      assert s'.pending == multiset{Resolve};
      ProceedKeeps(s', Resolve);
    }
  }

  lemma ResolveKeeps(s: State, ok: bool)
    requires LogInv(s) && s.pending == multiset{Resolve} && OpInv(s, Resolve)
    ensures ChainInv(Next(s, Finish(Resolve, ok)))
  {
    hide Wait, Grammatical;
    assert s.pending - multiset{Resolve} == multiset{};
    if ok {
      var s' := Next(s, Finish(Resolve, ok));
      assert s'.pending == multiset{OnSocket(Connect, s'.opening, false)};
      ProceedKeeps(s', OnSocket(Connect, s'.opening, false));
    } else {
      ScheduleKeeps(s.(pending := multiset{}));
    }
  }

  /** The handlers of the socket's operations, run when nothing else is pending. */
  lemma TaskKeeps(s: State, op: Op, ok: bool)
    requires op.OnSocket? && LogInv(s) && s.pending == multiset{op} && OpInv(s, op)
    ensures ChainInv(AfterTask(s.(pending := multiset{}), op.task, ok))
  {
    hide Wait, Grammatical;
    var t := s.(pending := multiset{});
    if ok {
      if op.task.WsHandshake? {
        WaitZero(s.initial, s.max);
        GrammaticalAppend(s.notices, Connected);
      }
      var s' := AfterTask(t, op.task, ok);
      var next := OnSocket(NextTask(op.task), s.opening, false);
      assert s'.pending == multiset{next};
      ProceedKeeps(s', next);
    } else if op.task.Read? {
      if !s.stopping {
        GrammaticalAppend(s.notices, Disconnected);
        ScheduleKeeps(t.(notices := s.notices + [Disconnected]));
      }
    } else {
      ScheduleKeeps(t);
    }
  }

  /** What a success leads to. */
  function NextTask(task: Task): Task {
    match task
    case Connect => TlsHandshake
    case TlsHandshake => WsHandshake
    case _ => Read
  }

  lemma SucceedKeeps(s: State, op: Op)
    requires LogInv(s) && s.pending == multiset{op} && OpInv(s, op) && Enabled(s, Succeed(op))
    ensures ChainInv(Next(s, Succeed(op)))
  {
    hide Wait, Grammatical;
    var s', op' := Next(s, Succeed(op)), OnSocket(op.task, op.opening, true);
    assert s'.pending == multiset{op'};
    ProceedKeeps(s', op');
  }

  lemma {:induction false} ChainStep(s: State, e: Event)
    requires ChainInv(s) && Enabled(s, e) && !e.Run?
    ensures ChainInv(Next(s, e))
    ensures Next(s, e).initial == s.initial && Next(s, e).max == s.max
  {
    ConfigKept(s, e);
    hide LogInv, OpInv, AfterTask, Wait;
    match e
    case Stop => StopKeeps(s);
    case Succeed(op) => SucceedKeeps(s, op);
    case Finish(op, ok) =>
      match op
      case Resolve => ResolveKeeps(s, ok);
      case Timer(d) => TimerKeeps(s, d, ok);
      case OnSocket(task, _, _) =>
        assert s.pending - multiset{op} == multiset{};
        TaskKeeps(s, op, ok);
  }

  lemma ConfigKept(s: State, e: Event)
    requires Enabled(s, e)
    ensures Next(s, e).initial == s.initial && Next(s, e).max == s.max
  {
  }

  lemma StopKeeps(s: State)
    requires ChainInv(s)
    ensures ChainInv(Next(s, Stop))
  {
    hide Wait, Grammatical;
    if s.pending != multiset{} {
      var op :| s.pending == multiset{op} && OpInv(s, op);
      assert OpInv(Next(s, Stop), op);
    }
  }

  lemma {:induction false} ChainRun(s: State, events: seq<Event>)
    requires ChainInv(s) && CanRun(s, events) && Starts(events) == 0
    ensures ChainInv(RunAll(s, events))
    ensures RunAll(s, events).initial == s.initial && RunAll(s, events).max == s.max
    decreases |events|
  {
    hide ChainInv, Next, Enabled;
    if events != [] {
      ChainStep(s, events[0]);
      ChainRun(Next(s, events[0]), events[1..]);
    }
  }

  /** One run(), then anything: the k-th wait since the last successful handshake
      is min(initial * 2^(k-1), max), the first being initial whatever max is. */
  lemma BackoffSchedule(initial: nat, max: nat, events: seq<Event>, k: nat)
    requires CanRun(Fresh(initial, max), [Run] + events) && Starts(events) == 0
    requires k < |RunAll(Fresh(initial, max), [Run] + events).waits|
    ensures RunAll(Fresh(initial, max), [Run] + events).waits[k]
      == if k == 0 then initial else MinNat(initial * Pow2(k), max)
  {
    hide RunAll, CanRun, Next;
    OneRun(initial, max, events);
  }

  lemma OneRun(initial: nat, max: nat, events: seq<Event>)
    requires CanRun(Fresh(initial, max), [Run] + events) && Starts(events) == 0
    ensures var s := RunAll(Fresh(initial, max), [Run] + events);
      ChainInv(s) && s.initial == initial && s.max == max
  {
    assert ([Run] + events)[1..] == events;
    ChainRun(Next(Fresh(initial, max), Run), events);
  }

  /** Between two Connected notices there is always a Disconnected and, after it, a
      Connecting. */
  lemma ReconnectIsAnnounced(initial: nat, max: nat, events: seq<Event>, i: nat, j: nat)
    requires CanRun(Fresh(initial, max), [Run] + events) && Starts(events) == 0
    requires var n := RunAll(Fresh(initial, max), [Run] + events).notices;
      i < j < |n| && n[i] == n[j] == Connected
    ensures var n := RunAll(Fresh(initial, max), [Run] + events).notices;
      i + 1 < j - 1 && n[i + 1] == Disconnected && n[j - 1] == Connecting
  {
    hide RunAll, CanRun, Next, Wait;
    OneRun(initial, max, events);
    var n := RunAll(Fresh(initial, max), [Run] + events).notices;
    assert MayFollow(n[i], n[i + 1]) && MayFollow(n[j - 1], n[j]);
  }

  // ------------------------------------------------------------- stop

  /** Once stopped, and until run() is called again, no timer is armed, no resolve
      is started, and neither Connecting nor Disconnected is announced; an armed
      timer that fires does nothing. */
  lemma {:induction false} StopIsFinal(s: State, events: seq<Event>)
    requires s.stopping && CanRun(s, events) && Starts(events) == 0
    ensures var s' := RunAll(s, events);
      && s'.stopping
      && s'.pending[Resolve] <= s.pending[Resolve]
      && (forall d :: s'.pending[Timer(d)] <= s.pending[Timer(d)])
      && s.notices <= s'.notices
      && (forall i :: |s.notices| <= i < |s'.notices| ==> s'.notices[i] == Connected)
    decreases |events|
  {
    if events != [] {
      StopStep(s, events[0]);
      StopIsFinal(Next(s, events[0]), events[1..]);
    }
  }

  /** What an event can do after stop: pending lookups and timers only go, and
      nothing but a Connected is announced. */
  ghost predicate Quieter(s: State, s': State) {
    && s'.stopping
    && s'.pending[Resolve] <= s.pending[Resolve]
    && (forall d :: s'.pending[Timer(d)] <= s.pending[Timer(d)])
    && (s'.notices == s.notices || s'.notices == s.notices + [Connected])
  }

  lemma StopStep(s: State, e: Event)
    requires s.stopping && Enabled(s, e) && !e.Run?
    ensures Quieter(s, Next(s, e))
  {
    hide AfterTask;
    match e
    case Stop =>
    case Succeed(op) =>
    case Finish(op, ok) =>
      if op.OnSocket? {
        QuietTask(s.(pending := s.pending - multiset{op}), op.task, ok);
      }
  }

  lemma QuietTask(t: State, task: Task, ok: bool)
    requires t.stopping
    ensures Quieter(t, AfterTask(t, task, ok))
  {
  }

  /** Operations that closing the socket does not keep from announcing Connected:
      a lookup, whose handler opens the socket again without asking whether the
      client was stopped, and a handshake that had already succeeded. */
  predicate Leaks(op: Op) {
    op.Resolve? || (op.OnSocket? && op.task.WsHandshake? && op.done)
  }

  /** What stop() does not suppress: after it, and until run() is called again, a
      Connected can still be announced exactly when such an operation was pending.
      A connect or TLS handshake in flight, and even one that had succeeded, is
      cut off by the closed socket. */
  lemma ConnectsAfterStopIff(s: State)
    ensures var stopped := Next(s, Stop);
      (exists events :: CanRun(stopped, events) && Starts(events) == 0
        && s.notices + [Connected] <= RunAll(stopped, events).notices)
      <==> exists op :: op in s.pending && Leaks(op)
  {
    var stopped := Next(s, Stop);
    if op :| op in s.pending && Leaks(op) {
      var events := FollowThrough(stopped, op, 0);
      assert s.notices + [Connected] <= RunAll(stopped, events).notices;
    } else {
      forall events | CanRun(stopped, events) && Starts(events) == 0
        ensures !(s.notices + [Connected] <= RunAll(stopped, events).notices)
      {
        NeverConnects(stopped, events);
      }
    }
  }

  lemma {:induction false} NeverConnects(s: State, events: seq<Event>)
    requires s.stopping && !s.open && CanRun(s, events) && Starts(events) == 0
    requires forall op :: op in s.pending ==> !Leaks(op)
    ensures RunAll(s, events).notices == s.notices
    decreases |events|
  {
    if events != [] {
      SealedStep(s, events[0]);
      NeverConnects(Next(s, events[0]), events[1..]);
    }
  }

  lemma SealedStep(s: State, e: Event)
    requires s.stopping && !s.open && Enabled(s, e) && !e.Run?
    requires forall op :: op in s.pending ==> !Leaks(op)
    ensures var s' := Next(s, e);
      s'.stopping && !s'.open && s'.notices == s.notices && forall op :: op in s'.pending ==> !Leaks(op)
  {
  }

  lemma Prepend(s: State, e: Event, rest: seq<Event>)
    requires Enabled(s, e) && CanRun(Next(s, e), rest)
    ensures CanRun(s, [e] + rest) && RunAll(s, [e] + rest) == RunAll(Next(s, e), rest)
    ensures Starts([e] + rest) == Starts(rest) + if e.Run? then 1 else 0
  {
    assert ([e] + rest)[1..] == rest;
  }

  /** `op` can be carried through to n frames: its socket is open, or will be, or
      nothing more is asked of it. */
  predicate Feasible(s: State, op: Op, n: nat) {
    && op in s.pending
    && match op
       case Resolve => true
       case Timer(_) => false
       case OnSocket(task, _, done) =>
         Alive(s, op) || (n == 0 && (task.Read? || (task.WsHandshake? && done)))
  }

  function StepsLeft(op: Op): nat {
    match op
    case Resolve => 8
    case Timer(_) => 0
    case OnSocket(task, _, done) =>
      (match task case Connect => 6 case TlsHandshake => 4 case WsHandshake => 2 case Read => 0)
      + if done then 0 else 1
  }

  predicate IsRead(op: Op) {
    op.OnSocket? && op.task.Read?
  }

  /** The chain of successes that completes the connection and reads n frames. */
  lemma {:induction false} FollowThrough(s: State, op: Op, n: nat) returns (events: seq<Event>)
    requires Feasible(s, op, n)
    ensures CanRun(s, events) && Starts(events) == 0
    ensures RunAll(s, events).frames == s.frames + n
    ensures RunAll(s, events).notices == s.notices + if IsRead(op) then [] else [Connected]
    ensures RunAll(s, events).initial == s.initial
    ensures !IsRead(op) ==> RunAll(s, events).backoff == s.initial && RunAll(s, events).waits == []
    ensures IsRead(op) ==> RunAll(s, events).backoff == s.backoff && RunAll(s, events).waits == s.waits
    decreases n, StepsLeft(op)
  {
    hide CanRun, RunAll, Starts, Next;
    if IsRead(op) && n == 0 {
      events := [];
      NothingRuns(s);
    } else if op.OnSocket? && !op.done {
      var e := Succeed(op);
      SuccessQueued(s, op, n);
      var rest := FollowThrough(Next(s, e), op.(done := true), n);
      events := [e] + rest;
      Prepend(s, e, rest);
    } else {
      var e := Finish(op, true);
      var next := SuccessHandled(s, op, n);
      var rest := FollowThrough(Next(s, e), next, if IsRead(op) then n - 1 else n);
      events := [e] + rest;
      Prepend(s, e, rest);
    }
  }

  lemma SuccessQueued(s: State, op: Op, n: nat)
    requires Feasible(s, op, n) && op.OnSocket? && !op.done && (n > 0 || !IsRead(op))
    ensures Enabled(s, Succeed(op))
    ensures var s' := Next(s, Succeed(op));
      Feasible(s', op.(done := true), n) && s' == s.(pending := s'.pending)
  {
  }

  /** The handler of a success starts the next operation. */
  lemma SuccessHandled(s: State, op: Op, n: nat) returns (next: Op)
    requires Feasible(s, op, n) && (op.OnSocket? ==> op.done) && (n > 0 || !IsRead(op))
    ensures Enabled(s, Finish(op, true)) && next.OnSocket? && !next.done
    ensures next.task == if op.Resolve? then Connect else NextTask(op.task)
    ensures var s' := Next(s, Finish(op, true));
      && Feasible(s', next, if IsRead(op) then n - 1 else n)
      && s'.frames == s.frames + (if IsRead(op) then 1 else 0)
      && s'.initial == s.initial
      && (if op.OnSocket? && op.task.WsHandshake? then s'.backoff == s.initial && s'.waits == []
          else s'.backoff == s.backoff && s'.waits == s.waits)
      && s'.notices == s.notices + if op.OnSocket? && op.task.WsHandshake? then [Connected] else []
  {
    var s' := Next(s, Finish(op, true));
    next := OnSocket(if op.Resolve? then Connect else NextTask(op.task), s'.opening, false);
  }

  lemma NothingRuns(s: State)
    ensures CanRun(s, []) && RunAll(s, []) == s && Starts([]) == 0
  {
  }

  /** n more frames can reach the frame handler without another run(). */
  ghost predicate CanDeliver(s: State, n: nat) {
    exists events :: CanRun(s, events) && Starts(events) == 0 && RunAll(s, events).frames == s.frames + n
  }

  /** How many frames can still come after stop(), whatever was pending: any number
      when it was a lookup, one when it was a read that had already succeeded, and
      otherwise none. */
  lemma FramesAfterStopIff(s: State, op: Op, n: nat)
    requires s.pending == multiset{op}
    ensures CanDeliver(Next(s, Stop), n) <==> n == 0 || op.Resolve? || (n == 1 && IsRead(op) && op.done)
  {
    hide CanRun, RunAll;
    var stopped := Next(s, Stop);
    if op.Resolve? {
      var events := FollowThrough(stopped, op, n);
    } else if n == 0 {
      NothingRuns(stopped);
    } else {
      var e := Finish(op, true);
      if n == 1 && IsRead(op) && op.done {
        NothingRuns(Next(stopped, e));
        Prepend(stopped, e, []);
      }
      forall events | CanRun(stopped, events) && Starts(events) == 0
        ensures RunAll(stopped, events).frames <= s.frames + if IsRead(op) && op.done then 1 else 0
      {
        FewFrames(stopped, op, events);
      }
    }
  }

  lemma {:induction false} FewFrames(s: State, op: Op, events: seq<Event>)
    requires s.stopping && !s.open && s.pending == multiset{op} && !op.Resolve?
    requires CanRun(s, events) && Starts(events) == 0
    ensures RunAll(s, events).frames <= s.frames + if IsRead(op) && op.done then 1 else 0
    decreases |events|
  {
    if events != [] {
      var s' := Next(s, events[0]);
      assert s.pending - multiset{op} == multiset{};
      if events[0].Stop? {
        FewFrames(s', op, events[1..]);
      } else if s'.pending == multiset{} {
        NothingPending(s', events[1..]);
      } else {
        FewFrames(s', OnSocket(NextTask(op.task), s.opening, false), events[1..]);
      }
    }
  }

  lemma {:induction false} NothingPending(s: State, events: seq<Event>)
    requires s.pending == multiset{} && CanRun(s, events) && Starts(events) == 0
    ensures RunAll(s, events).frames == s.frames
    decreases |events|
  {
    if events != [] { NothingPending(Next(s, events[0]), events[1..]); }
  }

  // ------------------------------------------------------------- recovery

  /** While the client is not stopped, whatever it waits for, it can still get to
      Connected without another run(): a fired timer resolves again, what is on a
      lost socket fails and arms a timer, and success restores the first delay. */
  lemma {:induction false} CanAlwaysConnect(s: State, op: Op) returns (events: seq<Event>)
    requires !s.stopping && op in s.pending
    ensures CanRun(s, events) && Starts(events) == 0
    ensures RunAll(s, events).initial == s.initial
    ensures var s' := RunAll(s, events);
      && s.notices < s'.notices && s'.notices[|s'.notices| - 1] == Connected
      && s'.backoff == s'.initial && s'.waits == []
    decreases Detour(op)
  {
    hide CanRun, RunAll, Starts, Next;
    if op.Resolve? {
      events := FollowThrough(s, op, 0);
    } else {
      var e := if op.Timer? then Finish(op, true) else Finish(op, op.done);
      var next := SomethingFollows(s, op);
      var rest := CanAlwaysConnect(Next(s, e), next);
      events := [e] + rest;
      Prepend(s, e, rest);
    }
  }

  /** From an armed timer in particular: Connecting, then Connected. */
  lemma TimerReconnects(s: State, delay: nat) returns (events: seq<Event>)
    requires !s.stopping && Timer(delay) in s.pending
    ensures CanRun(s, events) && Starts(events) == 0
    ensures RunAll(s, events).notices == s.notices + [Connecting, Connected]
  {
    hide CanRun, RunAll, Starts;
    var e := Finish(Timer(delay), true);
    var s' := Next(s, e);
    var rest := FollowThrough(s', Resolve, 0);
    events := [e] + rest;
    Prepend(s, e, rest);
    assert s.notices + [Connecting] + [Connected] == s.notices + [Connecting, Connected];
  }

  /** How far an operation is from a lookup, by way of failures. */
  function Detour(op: Op): nat {
    match op
    case Resolve => 0
    case Timer(_) => 1
    case OnSocket(_, _, done) => if done then 3 else 2
  }

  /** An operation that fails, or a handler that goes on, leaves another operation
      closer to a lookup. */
  lemma SomethingFollows(s: State, op: Op) returns (next: Op)
    requires !s.stopping && op in s.pending && !op.Resolve?
    ensures var e := if op.Timer? then Finish(op, true) else Finish(op, op.done);
      && Enabled(s, e)
      && var s' := Next(s, e);
      !s'.stopping && s'.initial == s.initial && s.notices <= s'.notices
      && next in s'.pending && Detour(next) < Detour(op)
  {
    hide AfterTask;
    if op.Timer? {
      next := Resolve;
    } else {
      var t := s.(pending := s.pending - multiset{op});
      next := if op.done then OnSocket(NextTask(op.task), s.opening, false) else Timer(s.backoff);
      TaskLeadsOn(t, op.task, op.done);
    }
  }

  lemma TaskLeadsOn(t: State, task: Task, ok: bool)
    requires !t.stopping
    ensures var s' := AfterTask(t, task, ok);
      && !s'.stopping && s'.initial == t.initial && t.notices <= s'.notices
      && (if ok then OnSocket(NextTask(task), t.opening, false) in s'.pending
          else Timer(t.backoff) in s'.pending)
  {
  }

  /** A fired timer puts a new stream in place of the old one: nothing started on
      the old one can succeed any more. */
  lemma TimerCutsOff(s: State, delay: nat)
    requires !s.stopping && Timer(delay) in s.pending
    ensures var s' := Next(s, Finish(Timer(delay), true));
      forall op :: op in s'.pending && op.OnSocket? ==> !Alive(s', op)
  {
    hide MinNat;
  }

  /** The stages of one connection attempt. */
  datatype Stage = Looking | Dialling | Securing | Upgrading | Reading | Waiting

  function StageOf(op: Op): Stage {
    match op
    case Resolve => Looking
    case Timer(_) => Waiting
    case OnSocket(Connect, _, _) => Dialling
    case OnSocket(TlsHandshake, _, _) => Securing
    case OnSocket(WsHandshake, _, _) => Upgrading
    case OnSocket(Read, _, _) => Reading
  }

  /** From stage to stage: lookup, TCP, TLS, websocket, frames; any failure waits
      for the timer, and the timer leads back to the lookup. */
  predicate Leads(a: Stage, ok: bool, b: Stage) {
    if !ok then b.Waiting?
    else
      match a
      case Looking => b.Dialling?
      case Dialling => b.Securing?
      case Securing => b.Upgrading?
      case Upgrading => b.Reading?
      case Reading => b.Reading?
      case Waiting => b.Looking?
  }

  /** The handlers among `events` run in the order of the stages, from `stage` on. */
  ghost predicate InOrder(stage: Stage, events: seq<Event>)
    decreases |events|
  {
    events == []
    || (match events[0]
        case Succeed(op) => StageOf(op) == stage && InOrder(stage, events[1..])
        case Finish(op, ok) =>
          StageOf(op) == stage && exists next :: Leads(stage, ok, next) && InOrder(next, events[1..])
        case _ => InOrder(stage, events[1..]))
  }

  /** With one operation pending and no stop, there is always exactly one pending:
      the chain never forks and never dies. Its handlers run in the order of the
      stages, so Connected needs a lookup, a connect and both handshakes since the
      last failure. The program never cancels a timer. */
  lemma {:induction false} HandlersInOrder(s: State, op: Op, events: seq<Event>)
    requires s.pending == multiset{op} && !s.stopping
    requires CanRun(s, events) && Starts(events) == 0 && Stop !in events
    requires forall d :: Finish(Timer(d), false) !in events
    ensures InOrder(StageOf(op), events)
    ensures |RunAll(s, events).pending| == 1
    decreases |events|
  {
    hide Next, Leads, StageOf;
    if events != [] {
      var next := StageStep(s, op, events[0]);
      HandlersInOrder(Next(s, events[0]), next, events[1..]);
    }
  }

  lemma StageStep(s: State, op: Op, e: Event) returns (next: Op)
    requires s.pending == multiset{op} && !s.stopping && Enabled(s, e)
    requires (e.Succeed? || e.Finish?) && (e.Finish? && e.op.Timer? ==> e.ok)
    ensures e.op == op && Next(s, e).pending == multiset{next} && !Next(s, e).stopping
    ensures e.Succeed? ==> StageOf(next) == StageOf(op)
    ensures e.Finish? ==> Leads(StageOf(op), e.ok, StageOf(next))
  {
    hide MinNat, AfterTask;
    assert s.pending - multiset{op} == multiset{};
    if e.Finish? && op.OnSocket? {
      TaskStage(s.(pending := multiset{}), op.task, e.ok);
    }
    next :=
      if e.Succeed? then op.(done := true)
      else if op.Timer? then Resolve
      else if !e.ok then Timer(s.backoff)
      else if op.Resolve? then OnSocket(Connect, s.opening + 1, false)
      else OnSocket(NextTask(op.task), s.opening, false);
    assert Next(s, e).pending == multiset{next};
  }

  lemma TaskStage(t: State, task: Task, ok: bool)
    requires t.pending == multiset{} && !t.stopping
    ensures var s' := AfterTask(t, task, ok);
      && !s'.stopping
      && s'.pending == multiset{if ok then OnSocket(NextTask(task), t.opening, false) else Timer(t.backoff)}
  {
  }

  /** In a run without stop every notice has its cause, and every cause its notice:
      Connecting for a run or a fired timer, Connected for a handshake that
      succeeded, Disconnected for a failed operation, twice for a failed read. */
  lemma {:induction false} NoticeLedger(s: State, events: seq<Event>)
    requires !s.stopping && CanRun(s, events) && Stop !in events
    ensures var s' := RunAll(s, events);
      && Count(s'.notices, Connecting) == Count(s.notices, Connecting) + Causes(events, Connecting)
      && Count(s'.notices, Connected) == Count(s.notices, Connected) + Causes(events, Connected)
      && Count(s'.notices, Disconnected) == Count(s.notices, Disconnected) + Causes(events, Disconnected)
    decreases |events|
  {
    hide Next, Cause, Enabled, Count;
    if events != [] {
      var e := events[0];
      LedgerStep(s, e, Connecting);
      LedgerStep(s, e, Connected);
      LedgerStep(s, e, Disconnected);
      NoticeLedger(Next(s, e), events[1..]);
    }
  }

  function Count(notices: seq<Notice>, n: Notice): nat {
    multiset(notices)[n]
  }

  function Cause(e: Event, n: Notice): nat {
    match e
    case Run => if n.Connecting? then 1 else 0
    case Finish(Timer(_), ok) => if n.Connecting? && ok then 1 else 0
    case Finish(op, ok) =>
      if ok then (if n.Connected? && op.OnSocket? && op.task.WsHandshake? then 1 else 0)
      else if n.Disconnected? then (if IsRead(op) then 2 else 1)
      else 0
    case _ => 0
  }

  function Causes(events: seq<Event>, n: Notice): nat {
    if events == [] then 0 else Cause(events[0], n) + Causes(events[1..], n)
  }

  lemma CountAppend(notices: seq<Notice>, x: Notice, n: Notice)
    ensures Count(notices + [x], n) == Count(notices, n) + if x == n then 1 else 0
  {
    assert multiset(notices + [x]) == multiset(notices) + multiset{x};
  }

  lemma LedgerStep(s: State, e: Event, n: Notice)
    requires !s.stopping && Enabled(s, e) && !e.Stop?
    ensures !Next(s, e).stopping
    ensures Count(Next(s, e).notices, n) == Count(s.notices, n) + Cause(e, n)
  {
    hide Count, AfterTask;
    CountAppend(s.notices, Connecting, n);
    CountAppend(s.notices, Disconnected, n);
    if e.Finish? && e.op.OnSocket? {
      TaskLedger(s.(pending := s.pending - multiset{e.op}), e.op.task, e.ok, n);
    }
  }

  lemma TaskLedger(t: State, task: Task, ok: bool, n: Notice)
    requires !t.stopping
    ensures var s' := AfterTask(t, task, ok);
      && !s'.stopping
      && Count(s'.notices, n) == Count(t.notices, n)
        + (if ok then (if n.Connected? && task.WsHandshake? then 1 else 0)
           else if n.Disconnected? then (if task.Read? then 2 else 1)
           else 0)
  {
    hide Count;
    CountAppend(t.notices, Connected, n);
    CountAppend(t.notices, Disconnected, n);
    CountAppend(t.notices + [Disconnected], Disconnected, n);
  }

  // ------------------------------------------------------------- the class

  class WebSocketClient {
    const initialBackoff: nat
    const maxBackoff: nat
    var currentBackoff: nat
    var stopping: bool
    ghost var open: bool
    ghost var opening: nat
    ghost var pending: multiset<Op>
    ghost var notices: seq<Notice>
    ghost var frames: nat
    ghost var waits: seq<nat>

    ghost function View(): State
      reads this
    {
      State(initialBackoff, maxBackoff, currentBackoff, stopping, open, opening, pending, notices, frames, waits)
    }

    constructor (initialBackoff: nat, maxBackoff: nat)
      ensures View() == Fresh(initialBackoff, maxBackoff)
    {
      this.initialBackoff := initialBackoff;
      this.maxBackoff := maxBackoff;
      currentBackoff, stopping := initialBackoff, false;
      open, opening, pending, notices, frames, waits := false, 0, multiset{}, [], 0, [];
    }

    method Start()
      modifies this
      ensures View() == Next(old(View()), Run)
    {
      stopping := false;
      BeginResolve();
    }

    method Halt()
      modifies this
      ensures View() == Next(old(View()), Stop)
    {
      stopping := true;
      open := false;
    }

    method BeginResolve()
      modifies this`pending, this`notices
      ensures View() == DoResolve(old(View()))
    {
      notices := notices + [Connecting];
      pending := pending + multiset{Resolve};
    }

    method BeginConnect()
      modifies this`open, this`opening, this`pending
      ensures View() == DoConnect(old(View()))
    {
      open := true;
      opening := opening + 1;
      BeginTask(Connect);
    }

    method BeginTask(task: Task)
      modifies this`pending
      ensures View() == Begin(old(View()), task)
    {
      pending := pending + multiset{OnSocket(task, opening, false)};
    }

    method ArmReconnect()
      modifies this`pending, this`notices, this`waits
      ensures View() == ScheduleReconnect(old(View()))
    {
      if stopping {
        return;
      }
      notices := notices + [Disconnected];
      pending := pending + multiset{Timer(currentBackoff)};
      waits := waits + [currentBackoff];
    }

    method OnResolve(ok: bool)
      requires Enabled(View(), Finish(Resolve, ok))
      modifies this
      ensures View() == Next(old(View()), Finish(Resolve, ok))
    {
      pending := pending - multiset{Resolve};
      if !ok {
        ArmReconnect();
        return;
      }
      BeginConnect();
    }

    method OnConnect(ghost op: Op, ok: bool)
      requires op.OnSocket? && op.task.Connect? && Enabled(View(), Finish(op, ok))
      modifies this
      ensures View() == Next(old(View()), Finish(op, ok))
    {
      hide Begin, ScheduleReconnect, Alive;
      pending := pending - multiset{op};
      if !ok {
        ArmReconnect();
        return;
      }
      BeginTask(TlsHandshake);
    }

    method OnSslHandshake(ghost op: Op, ok: bool)
      requires op.OnSocket? && op.task.TlsHandshake? && Enabled(View(), Finish(op, ok))
      modifies this
      ensures View() == Next(old(View()), Finish(op, ok))
    {
      hide Begin, ScheduleReconnect, Alive;
      pending := pending - multiset{op};
      if !ok {
        ArmReconnect();
        return;
      }
      BeginTask(WsHandshake);
    }

    method OnHandshake(ghost op: Op, ok: bool)
      requires op.OnSocket? && op.task.WsHandshake? && Enabled(View(), Finish(op, ok))
      modifies this
      ensures View() == Next(old(View()), Finish(op, ok))
    {
      hide Begin, ScheduleReconnect, Alive;
      pending := pending - multiset{op};
      if !ok {
        ArmReconnect();
        return;
      }
      currentBackoff := initialBackoff;
      waits := [];
      notices := notices + [Connected];
      BeginTask(Read);
    }

    method OnRead(ghost op: Op, ok: bool)
      requires IsRead(op) && Enabled(View(), Finish(op, ok))
      modifies this
      ensures View() == Next(old(View()), Finish(op, ok))
    {
      hide Begin, ScheduleReconnect, Alive;
      pending := pending - multiset{op};
      if !ok {
        if !stopping {
          notices := notices + [Disconnected];
          ArmReconnect();
        }
        return;
      }
      frames := frames + 1;
      BeginTask(Read);
    }

    method OnTimer(delay: nat, ok: bool)
      requires Enabled(View(), Finish(Timer(delay), ok))
      modifies this
      ensures View() == Next(old(View()), Finish(Timer(delay), ok))
    {
      hide DoResolve, AfterTask;
      pending := pending - multiset{Timer(delay)};
      if !ok || stopping {
        return;
      }
      currentBackoff := MinNat(2 * currentBackoff, maxBackoff);
      open := false;
      BeginResolve();
    }
  }
}
