/** The ring buffer class itself. Each method is one call run without
    interruption; its ghost `model` is the step machine's state, which every
    call advances by exactly the steps the call consists of. */
module SpscRingBuffer {
  import opened Bits
  import opened SpscMachine
  import opened SpscProperties

  datatype Option<T> = None | Some(value: T)

  ghost predicate AtRest<T>(s: State<T>) {
    Inv(s) && s.producer.Idle? && s.consumer.Waiting?
  }

  /** Fewer than Capacity - 1 items are held. */
  ghost predicate Fits<T>(s: State<T>) {
    |s.accepted| - |s.popped| < s.cap - 1
  }

  /** The machine steps of one try_push whose head load is up to date. */
  ghost function PushSteps<T>(s: State<T>, value: T): seq<Step<T>>
    requires AtRest(s)
  {
    [PushBegin(value)] + ([PushLoadHead(|s.popped|)]
    + (if Fits(s) then [PushWrite] + ([PushStore] + []) else [PushDrop] + []))
  }

  /** The machine steps of one try_pop whose tail load is up to date. */
  ghost function PopSteps<T>(s: State<T>, left: T): seq<Step<T>>
    requires AtRest(s)
  {
    [PopBegin] + ([PopLoadTail(|s.accepted|)]
    + (if s.popped == s.accepted then [] else [PopMove(left)] + ([PopStore] + [])))
  }

  /** What the steps of a whole call amount to. */
  ghost function Pushed<T>(s: State<T>, value: T): State<T>
    requires AtRest(s)
  {
    var n := |s.accepted|;
    if Fits(s)
    then s.(headView := |s.popped|, buffer := s.buffer[n % s.cap := value],
            tails := s.tails + [(n + 1) % s.cap],
            offered := s.offered + [value], accepted := s.accepted + [value])
    else s.(headView := |s.popped|, dropped := s.dropped + 1,
            offered := s.offered + [value], lost := s.lost + [value])
  }

  ghost function Popped<T>(s: State<T>, left: T): State<T>
    requires AtRest(s)
  {
    var h := |s.popped|;
    if s.popped == s.accepted
    then s.(tailView := |s.accepted|)
    else s.(tailView := |s.accepted|, buffer := s.buffer[h % s.cap := left],
            heads := s.heads + [(h + 1) % s.cap], popped := s.popped + [s.buffer[h % s.cap]])
  }

  lemma RunStep<T>(s: State<T>, step: Step<T>, rest: seq<Step<T>>)
    requires Enabled(s, step) && CanRun(Next(s, step), rest)
    ensures CanRun(s, [step] + rest)
    ensures Run(s, [step] + rest) == Run(Next(s, step), rest)
  {
    assert ([step] + rest)[1..] == rest;
  }

  lemma {:induction false} PushRun<T>(s: State<T>, value: T)
    requires AtRest(s)
    ensures CanRun(s, PushSteps(s, value))
    ensures Run(s, PushSteps(s, value)) == Pushed(s, value)
  {
    var n := |s.accepted|;
    IncrementIsModulo(n, s.cap);
    WrapsOnlyWhenFull(s);
    var s1 := s.(producer := HasTail(value, n % s.cap, (n + 1) % s.cap),
                 offered := s.offered + [value]);
    assert Next(s, PushBegin(value)) == s1;
    var load := PushLoadHead(|s.popped|);
    if Fits(s) {
      var s2 := s1.(headView := |s.popped|, producer := Room(value, n % s.cap, (n + 1) % s.cap));
      assert Next(s1, load) == s2;
      var s3 := s2.(producer := Written(value, n % s.cap, (n + 1) % s.cap),
                    buffer := s.buffer[n % s.cap := value]);
      assert Next(s2, PushWrite) == s3;
      RunStep(s3, PushStore, []);
      RunStep(s2, PushWrite, [PushStore] + []);
      RunStep(s1, load, [PushWrite] + ([PushStore] + []));
    } else {
      var s2 := s1.(headView := |s.popped|, producer := Full(value));
      assert Next(s1, load) == s2;
      RunStep(s2, PushDrop, []);
      RunStep(s1, load, [PushDrop] + []);
    }
    RunStep(s, PushBegin(value), PushSteps(s, value)[1..]);
  }

  lemma {:induction false} PopRun<T>(s: State<T>, left: T)
    requires AtRest(s)
    ensures CanRun(s, PopSteps(s, left))
    ensures Run(s, PopSteps(s, left)) == Popped(s, left)
  {
    var h := |s.popped|;
    IncrementIsModulo(h, s.cap);
    MeetOnlyWhenEmpty(s);
    var s1 := s.(consumer := HasHead(h % s.cap));
    assert Next(s, PopBegin) == s1;
    var load := PopLoadTail(|s.accepted|);
    if s.popped == s.accepted {
      RunStep(s1, load, []);
      assert PopSteps(s, left) == [PopBegin] + ([load] + []);
      RunStep(s, PopBegin, [load] + []);
    } else {
      var s2 := s1.(tailView := |s.accepted|, consumer := Ready(h % s.cap));
      assert Next(s1, load) == s2;
      var s3 := s2.(consumer := Holding(h % s.cap, s.buffer[h % s.cap]),
                    buffer := s.buffer[h % s.cap := left]);
      assert Next(s2, PopMove(left)) == s3;
      RunStep(s3, PopStore, []);
      RunStep(s2, PopMove(left), [PopStore] + []);
      RunStep(s1, load, [PopMove(left)] + ([PopStore] + []));
      RunStep(s, PopBegin, [load] + ([PopMove(left)] + ([PopStore] + [])));
    }
  }

  /** A whole try_push, from rest to rest: the queue gains the value exactly
      when it fits, and otherwise dropped_ counts it. */
  lemma {:induction false} PushCall<T>(s: State<T>, value: T)
    requires AtRest(s)
    ensures AtRest(Pushed(s, value))
    ensures Fits(s) <==> |Unread(s)| < s.cap - 1
    ensures Unread(Pushed(s, value)) == if Fits(s) then Unread(s) + [value] else Unread(s)
  {
    hide PushSteps, CanRun, Run, OfferedInv, SlotsInv, IsMerge, Unread;
    PushRun(s, value);
    RunInv(s, PushSteps(s, value));
    UnreadIsSuffix(s);
    UnreadIsSuffix(Pushed(s, value));
  }

  /** A whole try_pop, from rest to rest: the queue loses its first item, if any,
      and that is the value returned. */
  lemma {:induction false} PopCall<T>(s: State<T>, left: T)
    requires AtRest(s)
    ensures AtRest(Popped(s, left))
    ensures s.popped == s.accepted <==> Unread(s) == []
    ensures Unread(Popped(s, left)) == if Unread(s) == [] then [] else Unread(s)[1..]
    ensures Unread(s) != [] ==> Unread(s)[0] == s.buffer[|s.popped| % s.cap]
  {
    hide PopSteps, CanRun, Run, OfferedInv, IsMerge, Unread;
    PopRun(s, left);
    RunInv(s, PopSteps(s, left));
    UnreadIsSuffix(s);
    UnreadIsSuffix(Popped(s, left));
  }

  lemma WrapsOnlyWhenFull<T>(s: State<T>)
    requires Inv(s)
    ensures (|s.accepted| + 1) % s.cap == |s.popped| % s.cap <==> !Fits(s)
  {
    var n, h := |s.accepted|, |s.popped|;
    if n + 1 == h + s.cap { WrapModulo(h, s.cap); } else { ResiduesDiffer(h, n + 1, s.cap); }
  }

  lemma MeetOnlyWhenEmpty<T>(s: State<T>)
    requires Inv(s)
    ensures |s.popped| % s.cap == |s.accepted| % s.cap <==> s.popped == s.accepted
  {
    if |s.popped| < |s.accepted| { ResiduesDiffer(|s.popped|, |s.accepted|, s.cap); }
  }

  class LockFreeRingBuffer<T> {
    const capacity: nat
    const buffer: array<T>
    var head: nat
    var tail: nat
    var dropped: nat
    ghost var model: State<T>

    ghost predicate Valid()
      reads this, buffer
    {
      && AtRest(model)
      && model.cap == capacity
      && buffer[..] == model.buffer
      && head == model.heads[|model.heads| - 1]
      && tail == model.tails[|model.tails| - 1]
      && dropped == model.dropped
    }

    constructor (capacity: nat, fill: T)
      requires IsPowerOfTwo(capacity)
      ensures Valid() && fresh(buffer) && this.capacity == capacity
      ensures model == Initial(capacity, fill)
    {
      InitialInv(capacity, fill);
      this.capacity := capacity;
      buffer := new T[capacity](_ => fill);
      head, tail, dropped := 0, 0, 0;
      model := Initial(capacity, fill);
    }

    method TryPush(value: T) returns (ok: bool)
      requires Valid()
      modifies this`tail, this`dropped, this`model, buffer
      ensures Valid()
      ensures model == Pushed(old(model), value)
      ensures ok == (|Unread(old(model))| < capacity - 1)
      ensures Unread(model) == if ok then Unread(old(model)) + [value] else Unread(old(model))
      ensures dropped == old(dropped) + if ok then 0 else 1
    {
      hide OfferedInv, SlotsInv, IsMerge, Unread;
      ghost var s := model;
      PushCall(s, value);
      IncrementIsModulo(|s.accepted|, capacity);
      WrapsOnlyWhenFull(s);
      var currentTail := tail;
      var nextTail := Increment(currentTail, capacity);
      model := Pushed(s, value);
      if nextTail == head {
        dropped := dropped + 1;
        return false;
      }
      buffer[currentTail] := value;
      tail := nextTail;
      return true;
    }

    method TryPop(left: T) returns (result: Option<T>)
      requires Valid()
      modifies this`head, this`model, buffer
      ensures Valid()
      ensures model == Popped(old(model), left)
      ensures result == if Unread(old(model)) == [] then None else Some(Unread(old(model))[0])
      ensures Unread(model) == if result.None? then [] else Unread(old(model))[1..]
    {
      hide OfferedInv, SlotsInv, IsMerge, Unread;
      ghost var s := model;
      PopCall(s, left);
      IncrementIsModulo(|s.popped|, capacity);
      MeetOnlyWhenEmpty(s);
      var currentHead := head;
      model := Popped(s, left);
      if currentHead == tail {
        return None;
      }
      var value := buffer[currentHead];
      buffer[currentHead] := left;
      head := Increment(currentHead, capacity);
      return Some(value);
    }

    method GetSizeHint() returns (size: int)
      requires Valid()
      ensures size == |Unread(model)| < capacity
    {
      var h, t := head, tail;
      SizeHintMeaning(model, |model.popped|, |model.accepted|);
      UnreadIsSuffix(model);
      size := if t >= h then t - h else capacity - h + t;
    }
  }
}
