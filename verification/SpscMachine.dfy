/** The single-producer single-consumer ring buffer as a machine of atomic
    steps: every interleaving of one thread inside try_push and one thread
    inside try_pop is a sequence of Step values.

    Each atomic index is modelled by the list of all values ever stored to it.
    An acquire load by the other thread may return any entry that is not older
    than the newest entry that thread has already observed, so a load can be
    stale; the entry's position in the list is what the load synchronises with. */
module SpscMachine {
  import opened Bits

  /** Where the producer is inside try_push. */
  datatype Producer<T> =
    | Idle
    | HasTail(value: T, tail: nat, next: nat)  // own index loaded
    | Full(value: T)                           // comparison said full, dropped_ not yet bumped
    | Room(value: T, tail: nat, next: nat)     // about to write the slot
    | Written(value: T, tail: nat, next: nat)  // slot written, tail_ not yet stored

  /** Where the consumer is inside try_pop. */
  datatype Consumer<T> =
    | Waiting
    | HasHead(head: nat)                       // own index loaded
    | Ready(head: nat)                         // about to move out of the slot
    | Holding(head: nat, value: T)             // slot emptied, head_ not yet stored

  datatype State<T> = State(
    cap: nat,
    buffer: seq<T>,
    heads: seq<nat>,      // every value stored to head_, oldest first
    tails: seq<nat>,      // every value stored to tail_, oldest first
    headView: nat,        // newest entry of heads the producer has observed
    tailView: nat,        // newest entry of tails the consumer has observed
    producer: Producer<T>,
    consumer: Consumer<T>,
    dropped: nat,
    offered: seq<T>,      // arguments of all try_push calls
    accepted: seq<T>,     // those whose call returned or will return true
    lost: seq<T>,         // those whose call returned false
    popped: seq<T>)       // values returned by try_pop

  datatype Step<T> =
    | PushBegin(value: T)
    | PushLoadHead(view: nat)
    | PushDrop
    | PushWrite
    | PushStore
    | PopBegin
    | PopLoadTail(view: nat)
    | PopMove(left: T)    // `left` is whatever the move leaves behind in the slot
    | PopStore

  function Increment(idx: nat, cap: nat): nat
    requires cap > 0
  {
    And(idx + 1, cap - 1)
  }

  function Initial<T>(cap: nat, fill: T): State<T> {
    State(cap, seq(cap, _ => fill), [0], [0], 0, 0, Idle, Waiting, 0, [], [], [], [])
  }

  /** The machine's own well-formedness, enough to make its steps meaningful. */
  predicate Shaped<T>(s: State<T>) {
    && s.cap > 0 && |s.buffer| == s.cap
    && |s.heads| > 0 && |s.tails| > 0
  }

  ghost predicate Enabled<T>(s: State<T>, step: Step<T>) {
    Shaped(s) &&
    match step
    case PushBegin(_) => s.producer.Idle?
    case PushLoadHead(view) => s.producer.HasTail? && s.headView <= view < |s.heads|
    case PushDrop => s.producer.Full?
    case PushWrite => s.producer.Room? && s.producer.tail < s.cap
    case PushStore => s.producer.Written?
    case PopBegin => s.consumer.Waiting?
    case PopLoadTail(view) => s.consumer.HasHead? && s.tailView <= view < |s.tails|
    case PopMove(_) => s.consumer.Ready? && s.consumer.head < s.cap
    case PopStore => s.consumer.Holding?
  }

  ghost function Next<T>(s: State<T>, step: Step<T>): State<T>
    requires Enabled(s, step)
  {
    match step
    case PushBegin(value) =>
      var tail := s.tails[|s.tails| - 1];
      s.(producer := HasTail(value, tail, Increment(tail, s.cap)), offered := s.offered + [value])
    case PushLoadHead(view) =>
      var HasTail(value, tail, next) := s.producer;
      s.(headView := view,
         producer := if next == s.heads[view] then Full(value) else Room(value, tail, next))
    case PushDrop =>
      s.(producer := Idle, dropped := s.dropped + 1, lost := s.lost + [s.producer.value])
    case PushWrite =>
      var Room(value, tail, next) := s.producer;
      s.(producer := Written(value, tail, next), buffer := s.buffer[tail := value])
    case PushStore =>
      s.(producer := Idle, tails := s.tails + [s.producer.next],
         accepted := s.accepted + [s.producer.value])
    case PopBegin =>
      s.(consumer := HasHead(s.heads[|s.heads| - 1]))
    case PopLoadTail(view) =>
      var head := s.consumer.head;
      s.(tailView := view,
         consumer := if head == s.tails[view] then Waiting else Ready(head))
    case PopMove(left) =>
      var head := s.consumer.head;
      s.(consumer := Holding(head, s.buffer[head]), buffer := s.buffer[head := left])
    case PopStore =>
      var Holding(head, value) := s.consumer;
      s.(consumer := Waiting, heads := s.heads + [Increment(head, s.cap)],
         popped := s.popped + [value])
  }

  /** `all` is an interleaving of `a` and `b`, each in its own order. */
  ghost predicate IsMerge<T>(all: seq<T>, a: seq<T>, b: seq<T>) {
    if all == [] then a == [] && b == []
    else
      var n := |all| - 1;
      || (a != [] && a[|a| - 1] == all[n] && IsMerge(all[..n], a[..|a| - 1], b))
      || (b != [] && b[|b| - 1] == all[n] && IsMerge(all[..n], a, b[..|b| - 1]))
  }

  /** Every offered value is accepted or lost, in order, except the argument of
      the try_push call in progress. */
  ghost predicate OfferedInv<T>(s: State<T>) {
    if s.producer.Idle? then IsMerge(s.offered, s.accepted, s.lost)
    else
      var n := |s.offered| - 1;
      n >= 0 && s.offered[n] == s.producer.value && IsMerge(s.offered[..n], s.accepted, s.lost)
  }

  /** Items stored and not yet taken, read from the memory they live in: the
      slots from head_ up to tail_, going round the end of the array, except
      that an item the consumer has moved out but not yet released lives in the
      consumer. */
  function Unread<T>(s: State<T>): (items: seq<T>)
    requires Shaped(s) && |s.popped| <= |s.accepted|
  {
    seq(|s.accepted| - |s.popped|, i requires 0 <= i =>
      if i == 0 && s.consumer.Holding? then s.consumer.value
      else s.buffer[(|s.popped| + i) % s.cap])
  }

  ghost predicate IndicesInv<T>(s: State<T>) {
    && Shaped(s) && IsPowerOfTwo(s.cap)
    && |s.heads| == |s.popped| + 1
    && |s.tails| == |s.accepted| + 1
    && (forall i :: 0 <= i < |s.heads| ==> s.heads[i] == i % s.cap)
    && (forall i :: 0 <= i < |s.tails| ==> s.tails[i] == i % s.cap)
    && s.headView <= |s.popped| <= s.tailView <= |s.accepted| < s.headView + s.cap
  }

  ghost predicate ProducerInv<T>(s: State<T>)
    requires IndicesInv(s)
  {
    var n := |s.accepted|;
    match s.producer
    case Idle => true
    case HasTail(_, tail, next) => tail == n % s.cap && next == (n + 1) % s.cap
    case Full(_) => n + 1 == s.headView + s.cap
    case Room(_, tail, next) =>
      tail == n % s.cap && next == (n + 1) % s.cap && n + 1 < s.headView + s.cap
    case Written(value, tail, next) =>
      tail == n % s.cap && next == (n + 1) % s.cap && n + 1 < s.headView + s.cap
      && s.buffer[tail] == value
  }

  ghost predicate ConsumerInv<T>(s: State<T>)
    requires IndicesInv(s)
  {
    var h := |s.popped|;
    match s.consumer
    case Waiting => true
    case HasHead(head) => head == h % s.cap
    case Ready(head) => head == h % s.cap && h < s.tailView
    case Holding(head, value) => head == h % s.cap && h < s.tailView && value == s.accepted[h]
  }

  /** The slot of every unread item holds that item. */
  ghost predicate SlotsInv<T>(s: State<T>)
    requires IndicesInv(s)
  {
    forall i :: |s.popped| <= i < |s.accepted| && !(i == |s.popped| && s.consumer.Holding?)
      ==> s.buffer[i % s.cap] == s.accepted[i]
  }

  ghost predicate Inv<T>(s: State<T>) {
    && IndicesInv(s)
    && ProducerInv(s)
    && ConsumerInv(s)
    && SlotsInv(s)
    && s.popped <= s.accepted
    && OfferedInv(s)
    && s.dropped == |s.lost|
  }

  lemma InitialInv<T>(cap: nat, fill: T)
    requires IsPowerOfTwo(cap)
    ensures Inv(Initial(cap, fill))
  {
  }

  lemma IncrementIsModulo(idx: nat, cap: nat)
    requires IsPowerOfTwo(cap)
    ensures Increment(idx % cap, cap) == (idx + 1) % cap
  {
    var k: nat :| cap == Pow2(k);
    MaskIsModulo(idx % cap + 1, k);
    SuccessorModulo(idx, cap);
  }

  lemma {:induction false} LoadHeadPreserves<T>(s: State<T>, view: nat)
    requires Inv(s) && Enabled(s, PushLoadHead(view))
    ensures Inv(Next(s, PushLoadHead(view)))
    ensures Next(s, PushLoadHead(view)).producer.Full? <==> |s.accepted| + 1 == view + s.cap
  {
    var n := |s.accepted|;
    if n + 1 == view + s.cap {
      WrapModulo(view, s.cap);
    } else {
      ResiduesDiffer(view, n + 1, s.cap);
    }
  }

  lemma {:induction false} WritePreserves<T>(s: State<T>)
    requires Inv(s) && Enabled(s, PushWrite)
    ensures Inv(Next(s, PushWrite))
  {
    var n := |s.accepted|;
    forall i | |s.popped| <= i < n ensures i % s.cap != n % s.cap {
      ResiduesDiffer(i, n, s.cap);
    }
  }

  lemma {:induction false} StorePreserves<T>(s: State<T>)
    requires Inv(s) && Enabled(s, PushStore)
    ensures Inv(Next(s, PushStore))
  {
    var n, s' := |s.accepted|, Next(s, PushStore);
    var v := s.producer.value;
    MergeLeft(s.offered[..|s.offered| - 1], s.accepted, s.lost, v);
    assert s.offered == s.offered[..|s.offered| - 1] + [v];
    assert s'.accepted[n] == v;
  }

  lemma {:induction false} LoadTailPreserves<T>(s: State<T>, view: nat)
    requires Inv(s) && Enabled(s, PopLoadTail(view))
    ensures Inv(Next(s, PopLoadTail(view)))
    ensures Next(s, PopLoadTail(view)).consumer.Waiting? <==> view == |s.popped|
  {
    if |s.popped| < view {
      ResiduesDiffer(|s.popped|, view, s.cap);
    }
  }

  lemma {:induction false} MovePreserves<T>(s: State<T>, left: T)
    requires Inv(s) && Enabled(s, PopMove(left))
    ensures Inv(Next(s, PopMove(left)))
  {
    var h, n := |s.popped|, |s.accepted|;
    forall i | h < i <= n ensures i % s.cap != h % s.cap {
      ResiduesDiffer(h, i, s.cap);
    }
    assert s.accepted[h] == s.buffer[h % s.cap];
  }

  lemma {:induction false} ReleasePreserves<T>(s: State<T>)
    requires Inv(s) && Enabled(s, PopStore)
    ensures Inv(Next(s, PopStore))
  {
    IncrementIsModulo(|s.popped|, s.cap);
  }

  lemma MergeLeft<T>(all: seq<T>, a: seq<T>, b: seq<T>, v: T)
    requires IsMerge(all, a, b)
    ensures IsMerge(all + [v], a + [v], b)
  {
    assert (all + [v])[..|all|] == all && (a + [v])[..|a|] == a;
  }

  lemma MergeRight<T>(all: seq<T>, a: seq<T>, b: seq<T>, v: T)
    requires IsMerge(all, a, b)
    ensures IsMerge(all + [v], a, b + [v])
  {
    assert (all + [v])[..|all|] == all && (b + [v])[..|b|] == b;
  }

  /** No step of either thread, and no staleness the memory model allows,
      breaks the invariant. */
  lemma {:induction false} InvPreserved<T>(s: State<T>, step: Step<T>)
    requires Inv(s) && Enabled(s, step)
    ensures Inv(Next(s, step))
  {
    match step
    case PushBegin(value) =>
      IncrementIsModulo(|s.accepted|, s.cap);
      assert (s.offered + [value])[..|s.offered|] == s.offered;
    case PushLoadHead(view) => LoadHeadPreserves(s, view);
    case PushDrop =>
      var v := s.producer.value;
      MergeRight(s.offered[..|s.offered| - 1], s.accepted, s.lost, v);
      assert s.offered == s.offered[..|s.offered| - 1] + [v];
    case PushWrite => WritePreserves(s);
    case PushStore => StorePreserves(s);
    case PopBegin =>
    case PopLoadTail(view) => LoadTailPreserves(s, view);
    case PopMove(left) => MovePreserves(s, left);
    case PopStore => ReleasePreserves(s);
  }

  // ---------------------------------------------------------------- runs

  /** The steps can be taken one after the other from `s`. */
  ghost predicate CanRun<T>(s: State<T>, steps: seq<Step<T>>)
    decreases |steps|
  {
    steps == [] || (Enabled(s, steps[0]) && CanRun(Next(s, steps[0]), steps[1..]))
  }

  ghost function Run<T>(s: State<T>, steps: seq<Step<T>>): State<T>
    requires CanRun(s, steps)
    decreases |steps|
  {
    if steps == [] then s else Run(Next(s, steps[0]), steps[1..])
  }

  lemma {:induction false} RunInv<T>(s: State<T>, steps: seq<Step<T>>)
    requires Inv(s) && CanRun(s, steps)
    ensures Inv(Run(s, steps))
    decreases |steps|
  {
    if steps != [] {
      InvPreserved(s, steps[0]);
      RunInv(Next(s, steps[0]), steps[1..]);
    }
  }

  lemma {:induction false} RunKeepsCapacity<T>(s: State<T>, steps: seq<Step<T>>)
    requires CanRun(s, steps)
    ensures Run(s, steps).cap == s.cap
    decreases |steps|
  {
    if steps != [] {
      RunKeepsCapacity(Next(s, steps[0]), steps[1..]);
    }
  }

  /** FIFO in every interleaving: what has been popped, followed by what the
      memory still holds between the two indices, is what was accepted, in
      order; never more than Capacity - 1 items are held; and the accepted and
      the lost values together are exactly the settled offers. */
  lemma {:induction false} Fifo<T>(cap: nat, fill: T, steps: seq<Step<T>>)
    requires IsPowerOfTwo(cap) && CanRun(Initial(cap, fill), steps)
    ensures var s := Run(Initial(cap, fill), steps);
      && Inv(s)
      && s.popped + Unread(s) == s.accepted
      && |Unread(s)| <= cap - 1
  {
    InitialInv(cap, fill);
    RunInv(Initial(cap, fill), steps);
    RunKeepsCapacity(Initial(cap, fill), steps);
    UnreadIsSuffix(Run(Initial(cap, fill), steps));
  }

  lemma UnreadIsSuffix<T>(s: State<T>)
    requires Inv(s)
    ensures Unread(s) == s.accepted[|s.popped|..]
    ensures s.popped + Unread(s) == s.accepted
    ensures |Unread(s)| <= s.cap - 1
  {
    var rest := s.accepted[|s.popped|..];
    forall i | 0 <= i < |rest| ensures Unread(s)[i] == rest[i] {
      assert rest[i] == s.accepted[|s.popped| + i];
    }
  }
}
