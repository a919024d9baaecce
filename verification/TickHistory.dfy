/** The standalone engine's circular history: a push overwrites the oldest entry
    once max_size - 1 are held. */
module TickHistory {
  import opened Bits
  import opened Statistics

  /** Where the i-th item pushed is stored. */
  function Slot(i: nat, size: nat): (s: nat)
    requires size > 0
    ensures s < size
  {
    i % size
  }

  class HistoryRing<T> {
    const buffer: array<T>
    const maxSize: nat
    var head: nat
    var tail: nat
    ghost var pushed: seq<T>     // every item ever pushed

    ghost function Held(): nat
      requires maxSize > 0
      reads this
    {
      if |pushed| < maxSize then |pushed| else maxSize - 1
    }

    ghost predicate Valid()
      reads this, buffer
    {
      && maxSize > 0
      && var n := |pushed|;
      && buffer.Length == maxSize
      && head == Slot(n, maxSize)
      && tail == Slot(n - Held(), maxSize)
      && forall i :: n - Held() <= i < n ==> buffer[Slot(i, maxSize)] == pushed[i]
    }

    constructor (size: nat, fill: T)
      requires size > 0
      ensures Valid() && fresh(buffer) && maxSize == size && pushed == []
    {
      buffer := new T[size](_ => fill);
      maxSize := size;
      head, tail := 0, 0;
      pushed := [];
    }

    method Push(item: T)
      requires Valid()
      modifies this, buffer
      ensures Valid()
      ensures pushed == old(pushed) + [item]
    {
      ghost var n, k := |pushed|, Held();
      hide Slot;
      HeadMeetsTail(n, maxSize);
      SlotNext(n, maxSize);
      SlotNext(n - k, maxSize);
      SlotsApart(n, k, maxSize);
      buffer[head] := item;
      head := (head + 1) % maxSize;
      if head == tail {
        tail := (tail + 1) % maxSize;
      }
      pushed := pushed + [item];
      assert Held() == if k == maxSize - 1 then k else k + 1;
    }

    /** A snapshot is the last max_size - 1 items pushed, oldest first. */
    method GetSnapshot() returns (snapshot: seq<T>)
      requires Valid()
      ensures snapshot == LastN(pushed, maxSize - 1)
    {
      hide Slot;
      snapshot := [];
      ghost var first := |pushed| - Held();
      var current := tail;
      while current != head
        invariant 0 <= first + |snapshot| <= |pushed| && |snapshot| <= Held()
        invariant current == Slot(first + |snapshot|, maxSize)
        invariant snapshot == pushed[first..first + |snapshot|]
        decreases Held() - |snapshot|
      {
        ghost var i := first + |snapshot|;
        SlotNext(i, maxSize);
        snapshot := snapshot + [buffer[current]];
        current := (current + 1) % maxSize;
      }
      if first + |snapshot| < |pushed| {
        SlotsDiffer(first + |snapshot|, |pushed|, maxSize);
      }
    }

    method Size() returns (size: nat)
      requires Valid()
      ensures size == |LastN(pushed, maxSize - 1)|
    {
      ghost var first := |pushed| - Held();
      RingDistance(first, |pushed|, maxSize);
      if head >= tail {
        return head - tail;
      }
      size := maxSize - tail + head;
    }
  }

  lemma SlotNext(i: nat, m: nat)
    requires m > 0
    ensures (Slot(i, m) + 1) % m == Slot(i + 1, m)
  {
    SuccessorModulo(i, m);
  }

  lemma SlotsDiffer(i: nat, j: nat, m: nat)
    requires m > 0 && i < j < i + m
    ensures Slot(i, m) != Slot(j, m)
  {
    ResiduesDiffer(i, j, m);
  }

  lemma HeadMeetsTail(n: nat, m: nat)
    requires m > 0
    ensures var k := if n < m then n else m - 1;
      Slot(n + 1, m) == Slot(n - k, m) <==> k == m - 1
  {
    var k := if n < m then n else m - 1;
    if k == m - 1 {
      WrapModulo(n - k, m);
    } else {
      ResiduesDiffer(n - k, n + 1, m);
    }
  }

  lemma SlotsApart(n: nat, k: nat, m: nat)
    requires m > 0 && k <= n && k < m
    ensures forall i :: n - k <= i < n ==> Slot(i, m) != Slot(n, m)
  {
    forall i | n - k <= i < n ensures Slot(i, m) != Slot(n, m) {
      ResiduesDiffer(i, n, m);
    }
  }

  lemma RingDistance(first: nat, last: nat, m: nat)
    requires m > 0 && first <= last < first + m
    ensures last - first ==
      if Slot(last, m) >= Slot(first, m) then Slot(last, m) - Slot(first, m)
      else m - Slot(first, m) + Slot(last, m)
  {
    var d := last / m - first / m;
    assert m * d == (last - first) - (last % m - first % m);
    MultiplesAreFar(m, d);
    MultiplesAreFar(m, d - 1);
    assert m * (d - 1) == m * d - m;
  }
}
