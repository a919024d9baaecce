/** What the ring-buffer machine guarantees: refinement of a bounded FIFO,
    freedom from data races, what stale loads can cost, and wait-freedom. */
module SpscProperties {
  import opened Bits
  import opened SpscMachine

  // ------------------------------------------------- bounded FIFO refinement

  /** The abstract queue: it holds at most `bound` items. */
  datatype FifoOp<T> = Enqueue(value: T) | Dequeue(value: T) | Stutter

  ghost predicate FifoAllows<T>(bound: int, queue: seq<T>, op: FifoOp<T>) {
    match op
    case Enqueue(_) => |queue| < bound
    case Dequeue(value) => queue != [] && queue[0] == value
    case Stutter => true
  }

  ghost function FifoNext<T>(queue: seq<T>, op: FifoOp<T>): seq<T>
    requires op.Dequeue? ==> queue != []
  {
    match op
    case Enqueue(value) => queue + [value]
    case Dequeue(_) => queue[1..]
    case Stutter => queue
  }

  ghost predicate FifoAccepts<T>(bound: int, queue: seq<T>, ops: seq<FifoOp<T>>)
    decreases |ops|
  {
    ops == [] ||
    (FifoAllows(bound, queue, ops[0]) && FifoAccepts(bound, FifoNext(queue, ops[0]), ops[1..]))
  }

  /** A push takes effect when it stores tail_, a pop when it stores head_. */
  ghost function Label<T>(s: State<T>, step: Step<T>): FifoOp<T>
    requires Enabled(s, step)
  {
    match step
    case PushStore => Enqueue(s.producer.value)
    case PopStore => Dequeue(s.consumer.value)
    case _ => Stutter
  }

  ghost function Labels<T>(s: State<T>, steps: seq<Step<T>>): seq<FifoOp<T>>
    requires CanRun(s, steps)
    decreases |steps|
  {
    if steps == [] then [] else [Label(s, steps[0])] + Labels(Next(s, steps[0]), steps[1..])
  }

  lemma {:induction false} StepRefinesFifo<T>(s: State<T>, step: Step<T>)
    requires Inv(s) && Enabled(s, step)
    ensures Inv(Next(s, step)) && Next(s, step).cap == s.cap
    ensures FifoAllows(s.cap - 1, Unread(s), Label(s, step))
    ensures Unread(Next(s, step)) == FifoNext(Unread(s), Label(s, step))
  {
    hide OfferedInv, IsMerge, Unread;
    InvPreserved(s, step);
    UnreadIsSuffix(s);
    UnreadIsSuffix(Next(s, step));
  }

  /** Every interleaving refines a FIFO of Capacity - 1 items: its visible
      enqueues and dequeues are a run of that queue, with the same values. */
  lemma {:induction false} RunRefinesFifo<T>(s: State<T>, steps: seq<Step<T>>)
    requires Inv(s) && CanRun(s, steps)
    ensures FifoAccepts(s.cap - 1, Unread(s), Labels(s, steps))
    decreases |steps|
  {
    hide Inv, Unread, Next, Label, FifoAllows;
    if steps != [] {
      StepRefinesFifo(s, steps[0]);
      var s' := Next(s, steps[0]);
      RunRefinesFifo(s', steps[1..]);
      var labels := Labels(s, steps);
      assert labels[0] == Label(s, steps[0]) && labels[1..] == Labels(s', steps[1..]);
    }
  }

  // ---------------------------------------------------------- verdicts

  /** A push is refused exactly when Capacity - 1 items lie between the loaded
      head and the tail. With an up-to-date load that is a full queue; a stale
      load can only refuse a push that would have fitted, never admit one that
      would not. */
  lemma {:induction false} PushVerdict<T>(s: State<T>, view: nat)
    requires Inv(s) && Enabled(s, PushLoadHead(view))
    ensures var s' := Next(s, PushLoadHead(view));
      && (s'.producer.Full? <==> |s.accepted| - view == s.cap - 1)
      && (s'.producer.Room? ==> |Unread(s)| < s.cap - 1)
      && (view == |s.popped| ==> (s'.producer.Full? <==> |Unread(s)| == s.cap - 1))
  {
    LoadHeadPreserves(s, view);
  }

  /** A pop finds nothing exactly when the loaded tail is the head; a stale load
      can only hide an item, never invent one. */
  lemma {:induction false} PopVerdict<T>(s: State<T>, view: nat)
    requires Inv(s) && Enabled(s, PopLoadTail(view))
    ensures var s' := Next(s, PopLoadTail(view));
      && (s'.consumer.Waiting? <==> view == |s.popped|)
      && (s'.consumer.Ready? ==> Unread(s) != [])
      && (view == |s.accepted| ==> (s'.consumer.Waiting? <==> Unread(s) == []))
  {
    LoadTailPreserves(s, view);
  }

  // ---------------------------------------------------------- data races

  /** The consumer moved item j out of slot j % Capacity; it did so before the
      store that made heads[j + 1]. */
  ghost function ItemsMoved<T>(s: State<T>): nat {
    |s.popped| + if s.consumer.Holding? then 1 else 0
  }

  /** The producer wrote item i to slot i % Capacity; it did so before the store
      that made tails[i + 1]. */
  ghost function ItemsWritten<T>(s: State<T>): nat {
    |s.accepted| + if s.producer.Written? then 1 else 0
  }

  /** The slots are plain memory, so a write must be ordered after every earlier
      access by the other thread. When the producer is about to write a slot,
      each of the consumer's past moves out of that slot was released by a store
      to head_ that the producer has acquired; when the consumer is about to
      touch a slot, each of the producer's past writes to it was released by a
      store to tail_ that the consumer has acquired. And they are never at the
      same slot together. */
  lemma {:induction false} RaceFree<T>(s: State<T>)
    requires Inv(s)
    ensures s.producer.Room? ==>
      forall j :: 0 <= j < ItemsMoved(s) && j % s.cap == s.producer.tail ==> j + 1 <= s.headView
    ensures s.consumer.Ready? ==>
      forall i :: 0 <= i < ItemsWritten(s) && i % s.cap == s.consumer.head ==> i + 1 <= s.tailView
    ensures (s.producer.Room? || s.producer.Written?) && (s.consumer.Ready? || s.consumer.Holding?)
      ==> s.producer.tail != s.consumer.head
  {
    var h, n := |s.popped|, |s.accepted|;
    if s.producer.Room? || s.producer.Written? {
      forall j | n - s.cap < j < n ensures j % s.cap != n % s.cap || j < 0 {
        if j >= 0 { ResiduesDiffer(j, n, s.cap); }
      }
    }
    if s.consumer.Ready? {
      forall i | h < i < h + s.cap ensures i % s.cap != h % s.cap {
        ResiduesDiffer(h, i, s.cap);
      }
    }
  }

  // ---------------------------------------------------------- wait-freedom

  predicate IsProducerStep<T>(step: Step<T>) {
    step.PushBegin? || step.PushLoadHead? || step.PushDrop? || step.PushWrite? || step.PushStore?
  }

  /** Steps the try_push call in progress still needs, at most. */
  function PushWork<T>(p: Producer<T>): nat {
    match p
    case Idle => 0
    case HasTail(_, _, _) => 3
    case Full(_) => 1
    case Room(_, _, _) => 2
    case Written(_, _, _) => 1
  }

  function PopWork<T>(c: Consumer<T>): nat {
    match c
    case Waiting => 0
    case HasHead(_) => 3
    case Ready(_) => 2
    case Holding(_, _) => 1
  }

  /** Neither call ever waits for the other thread: whatever that thread has
      done, a call in progress can take its next step. */
  lemma {:induction false} NeverBlocked<T>(s: State<T>, junk: T)
    requires Inv(s)
    ensures !s.producer.Idle? ==>
      exists step :: IsProducerStep(step) && !step.PushBegin? && Enabled(s, step)
    ensures !s.consumer.Waiting? ==>
      exists step :: !IsProducerStep(step) && !step.PopBegin? && Enabled(s, step)
  {
    hide OfferedInv, SlotsInv, IsMerge;
    match s.producer {
      case Idle =>
      case HasTail(_, _, _) => assert Enabled(s, PushLoadHead(|s.heads| - 1));
      case Full(_) => assert Enabled(s, PushDrop);
      case Room(_, _, _) => assert Enabled(s, PushWrite);
      case Written(_, _, _) => assert Enabled(s, PushStore);
    }
    match s.consumer {
      case Waiting =>
      case HasHead(_) => assert Enabled(s, PopLoadTail(|s.tails| - 1));
      case Ready(_) => assert Enabled(s, PopMove(junk));
      case Holding(_, _) => assert Enabled(s, PopStore);
    }
  }

  /** Each step of a call brings it nearer its end, and no step of the other
      thread takes it further away: a call ends within four of its own steps. */
  lemma {:induction false} WaitFree<T>(s: State<T>, step: Step<T>)
    requires Enabled(s, step) && !step.PushBegin? && !step.PopBegin?
    ensures var s' := Next(s, step);
      if IsProducerStep(step)
      then PushWork(s'.producer) < PushWork(s.producer) <= 3 && s'.consumer == s.consumer
      else PopWork(s'.consumer) < PopWork(s.consumer) <= 3 && s'.producer == s.producer
  {
    match step
    case PushLoadHead(_) =>
    case PushDrop =>
    case PushWrite =>
    case PushStore =>
    case PopLoadTail(_) =>
    case PopMove(_) =>
    case PopStore =>
    case _ => assert false;
  }

  // ---------------------------------------------------------- size_hint

  function SizeHint(h: nat, t: nat, cap: nat): int {
    if t >= h then t - h else cap - h + t
  }

  /** A monitor loads the i-th value of head_, then the j-th of tail_. Since it
      acquires the head store, j cannot be older than i. Its answer is j - i
      modulo Capacity, so it counts right exactly when fewer than Capacity
      items were accepted beyond that head. */
  lemma {:induction false} SizeHintMeaning<T>(s: State<T>, i: nat, j: nat)
    requires Inv(s) && i < |s.heads| && j < |s.tails| && i <= j
    ensures SizeHint(s.heads[i], s.tails[j], s.cap) == (j - i) % s.cap
    ensures SizeHint(s.heads[i], s.tails[j], s.cap) == j - i <==> j - i < s.cap
    ensures i == |s.popped| && j == |s.accepted|
      ==> SizeHint(s.heads[i], s.tails[j], s.cap) == |Unread(s)|
  {
    DifferenceModulo(i, j, s.cap);
    if j - i < s.cap { ModuloUnique(j - i, s.cap, 0, j - i); }
  }

  lemma DifferenceModulo(i: nat, j: nat, n: nat)
    requires n > 0 && i <= j
    ensures (j - i) % n == SizeHint(i % n, j % n, n)
  {
    var q := j / n - i / n;
    assert j - i == n * q + (j % n - i % n) && n * (q - 1) == n * q - n;
    if j % n >= i % n {
      ModuloUnique(j - i, n, q, j % n - i % n);
    } else {
      ModuloUnique(j - i, n, q - 1, n + j % n - i % n);
    }
  }
}
