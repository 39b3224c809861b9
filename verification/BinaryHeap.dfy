/** The binary heap that the daemon keeps in a Python list through `heapq`. */
module BinaryHeap {
  import opened QueueEntries

  function Parent(i: int): int {
    (i - 1) / 2
  }

  ghost predicate IsHeap(q: seq<QueueEntry>) {
    forall i :: 0 < i < |q| ==> Leq(q[Parent(i)], q[i])
  }

  /** In a heap the root is least. */
  lemma {:induction false} RootBelow(q: seq<QueueEntry>, i: nat)
    requires IsHeap(q) && i < |q|
    ensures Leq(q[0], q[i])
    decreases i
  {
    if i > 0 {
      RootBelow(q, Parent(i));
    }
  }

  lemma RootIsLeast(q: seq<QueueEntry>)
    requires IsHeap(q) && q != []
    ensures Least(q[0], q)
  {
    forall x | x in q ensures Leq(q[0], x) {
      var i :| 0 <= i < |q| && q[i] == x;
      RootBelow(q, i);
    }
  }

  function Swap(q: seq<QueueEntry>, i: nat, j: nat): seq<QueueEntry>
    requires i < |q| && j < |q|
  {
    q[i := q[j]][j := q[i]]
  }

  /** Heap order except between pos and its parent. */
  ghost predicate HeapBut(q: seq<QueueEntry>, pos: nat) {
    && pos < |q|
    && (forall i :: 0 < i < |q| && i != pos ==> Leq(q[Parent(i)], q[i]))
    && (forall i :: 0 < i < |q| && 0 < pos && Parent(i) == pos ==> Leq(q[Parent(pos)], q[i]))
  }

  /** Heap order except around pos, whose children are not below its parent. */
  ghost predicate HeapAround(q: seq<QueueEntry>, pos: nat) {
    && pos < |q|
    && (forall i :: 0 < i < |q| && i != pos && Parent(i) != pos ==> Leq(q[Parent(i)], q[i]))
    && (forall i :: 0 < i < |q| && 0 < pos && Parent(i) == pos ==> Leq(q[Parent(pos)], q[i]))
  }

  lemma SwapUp(q: seq<QueueEntry>, pos: nat)
    requires HeapBut(q, pos) && pos > 0 && Less(q[pos], q[Parent(pos)])
    ensures HeapBut(Swap(q, pos, Parent(pos)), Parent(pos))
    ensures multiset(Swap(q, pos, Parent(pos))) == multiset(q)
  {
    var r := Swap(q, pos, Parent(pos));
    forall i | 0 < i < |r| && i != Parent(pos) ensures Leq(r[Parent(i)], r[i]) {
      assert i != pos ==> Leq(q[Parent(i)], q[i]);
    }
    forall i | 0 < i < |r| && 0 < Parent(pos) && Parent(i) == Parent(pos)
      ensures Leq(r[Parent(Parent(pos))], r[i])
    {
      assert Leq(q[Parent(Parent(pos))], q[Parent(pos)]);
      assert i != pos ==> Leq(q[Parent(i)], q[i]);
    }
  }

  lemma SwapDown(q: seq<QueueEntry>, pos: nat, child: nat)
    requires HeapAround(q, pos) && 0 < child < |q| && Parent(child) == pos
    requires forall i :: 0 < i < |q| && Parent(i) == pos ==> Leq(q[child], q[i])
    ensures HeapAround(Swap(q, pos, child), child)
    ensures multiset(Swap(q, pos, child)) == multiset(q)
  {
    var r := Swap(q, pos, child);
    forall i | 0 < i < |r| && i != child && Parent(i) != child ensures Leq(r[Parent(i)], r[i]) {
      assert i != pos && Parent(i) != pos ==> Leq(q[Parent(i)], q[i]);
      assert i == pos ==> Leq(q[Parent(pos)], q[child]);
    }
    forall i | 0 < i < |r| && Parent(i) == child ensures Leq(r[pos], r[i]) {
      assert Leq(q[Parent(i)], q[i]);
    }
  }

  lemma SmallerChild(q: seq<QueueEntry>, pos: nat, child: nat)
    requires 2 * pos + 1 < |q|
    requires child == if 2 * pos + 2 < |q| && !Less(q[2 * pos + 1], q[2 * pos + 2]) then 2 * pos + 2 else 2 * pos + 1
    ensures child < |q| && Parent(child) == pos
    ensures forall i :: 0 < i < |q| && Parent(i) == pos ==> Leq(q[child], q[i])
  {
    forall i | 0 < i < |q| && Parent(i) == pos ensures Leq(q[child], q[i]) {
      assert i == 2 * pos + 1 || i == 2 * pos + 2;
    }
  }

  lemma LeafIsLast(q: seq<QueueEntry>, pos: nat)
    requires HeapAround(q, pos) && |q| <= 2 * pos + 1
    ensures HeapBut(q, pos)
  {
    assert forall i :: 0 < i < |q| ==> Parent(i) != pos;
  }

  /** Moves the entry at `start` towards the root until its parent is not larger. */
  method BubbleUp(q0: seq<QueueEntry>, start: nat) returns (q: seq<QueueEntry>)
    requires HeapBut(q0, start)
    ensures IsHeap(q) && multiset(q) == multiset(q0)
  {
    q := q0;
    var pos := start;
    while pos > 0
      invariant 0 <= pos && HeapBut(q, pos)
      invariant multiset(q) == multiset(q0)
    {
      var parent := Parent(pos);
      if !Less(q[pos], q[parent]) {
        return;
      }
      SwapUp(q, pos);
      q := Swap(q, pos, parent);
      pos := parent;
    }
  }

  /** Moves the root along the smaller children to a leaf, then bubbles it up. */
  method SinkRoot(q0: seq<QueueEntry>) returns (q: seq<QueueEntry>)
    requires HeapAround(q0, 0)
    ensures IsHeap(q) && multiset(q) == multiset(q0)
  {
    q := q0;
    var pos := 0;
    while 2 * pos + 1 < |q|
      invariant 0 <= pos && HeapAround(q, pos)
      invariant |q| == |q0| && multiset(q) == multiset(q0)
      decreases |q| - pos
    {
      var child := 2 * pos + 1;
      if child + 1 < |q| && !Less(q[child], q[child + 1]) {
        child := child + 1;
      }
      SmallerChild(q, pos, child);
      SwapDown(q, pos, child);
      q := Swap(q, pos, child);
      pos := child;
    }
    LeafIsLast(q, pos);
    q := BubbleUp(q, pos);
  }

  /** `heapq.heappush`: append, then bubble up. */
  method HeapPush(q0: seq<QueueEntry>, e: QueueEntry) returns (q: seq<QueueEntry>)
    requires IsHeap(q0)
    ensures IsHeap(q) && multiset(q) == multiset(q0) + multiset{e}
  {
    q := BubbleUp(q0 + [e], |q0|);
  }

  /** `heapq.heappop`: the last entry takes the root's place and sinks. */
  method HeapPop(q0: seq<QueueEntry>) returns (q: seq<QueueEntry>)
    requires IsHeap(q0) && q0 != []
    ensures IsHeap(q) && multiset(q) == multiset(q0) - multiset{q0[0]}
  {
    var last := q0[|q0| - 1];
    var rest := q0[..|q0| - 1];
    assert q0 == rest + [last];
    if rest == [] {
      return rest;
    }
    assert rest == [q0[0]] + rest[1..];
    assert rest[0 := last] == [last] + rest[1..];
    q := SinkRoot(rest[0 := last]);
  }
}
