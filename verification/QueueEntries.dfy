/** The queue entry, whose field order is the heap order, and sequences kept in that order. */
module QueueEntries {
  /** A moment, a job's current generation when it was pushed, the job, the attempt. */
  datatype QueueEntry = QueueEntry(when: int, generation: int, job: int, attempt: int)

  /** Tuple comparison: the first differing field decides. */
  predicate Less(a: QueueEntry, b: QueueEntry) {
    || a.when < b.when
    || (a.when == b.when && a.generation < b.generation)
    || (a.when == b.when && a.generation == b.generation && a.job < b.job)
    || (a.when == b.when && a.generation == b.generation && a.job == b.job && a.attempt < b.attempt)
  }

  /** Time first, then generation, then job, then attempt: the first field that differs decides, and
      equal entries are not less. */
  lemma FirstDifferenceDecides(a: QueueEntry, b: QueueEntry)
    ensures a.when != b.when ==> (Less(a, b) <==> a.when < b.when)
    ensures a.when == b.when && a.generation != b.generation ==> (Less(a, b) <==> a.generation < b.generation)
    ensures a.when == b.when && a.generation == b.generation && a.job != b.job ==> (Less(a, b) <==> a.job < b.job)
    ensures a == b.(attempt := a.attempt) ==> (Less(a, b) <==> a.attempt < b.attempt)
  {
  }

  predicate Leq(a: QueueEntry, b: QueueEntry) {
    !Less(b, a)
  }

  ghost predicate Sorted(s: seq<QueueEntry>) {
    forall i, j :: 0 <= i < j < |s| ==> Leq(s[i], s[j])
  }

  /** e is a least element of s. */
  ghost predicate Least(e: QueueEntry, s: seq<QueueEntry>) {
    e in s && forall x :: x in s ==> Leq(e, x)
  }

  /** Ordered insertion: what pushing means for a queue read in order. */
  function Insert(s: seq<QueueEntry>, e: QueueEntry): seq<QueueEntry> {
    if s == [] || Less(e, s[0]) then [e] + s else [s[0]] + Insert(s[1..], e)
  }

  lemma {:induction false} InsertAddsOne(s: seq<QueueEntry>, e: QueueEntry)
    ensures multiset(Insert(s, e)) == multiset(s) + multiset{e}
  {
    if s != [] {
      InsertAddsOne(s[1..], e);
      assert s == [s[0]] + s[1..];
    }
  }

  lemma {:induction false} InsertKeepsOrder(s: seq<QueueEntry>, e: QueueEntry)
    requires Sorted(s)
    ensures Sorted(Insert(s, e))
  {
    if s != [] && !Less(e, s[0]) {
      var r := Insert(s[1..], e);
      InsertKeepsOrder(s[1..], e);
      InsertAddsOne(s[1..], e);
      forall i | 0 <= i < |r| ensures Leq(s[0], r[i]) {
        assert r[i] in multiset(r);
        assert r[i] == e || r[i] in s[1..];
      }
    }
  }

  lemma HeadIsLeast(s: seq<QueueEntry>, e: QueueEntry)
    requires Sorted(s) && e in s
    ensures Leq(s[0], e)
  {
    var i :| 0 <= i < |s| && s[i] == e;
  }

  lemma TailBag(s: seq<QueueEntry>)
    requires s != []
    ensures multiset(s[1..]) == multiset(s) - multiset{s[0]}
  {
    assert s == [s[0]] + s[1..];
  }

  /** A queue read in order is determined by which entries it holds. */
  lemma {:induction false} SortedIsUnique(a: seq<QueueEntry>, b: seq<QueueEntry>)
    requires Sorted(a) && Sorted(b) && multiset(a) == multiset(b)
    ensures a == b
  {
    assert |multiset(a)| == |a| && |multiset(b)| == |b|;
    if a != [] {
      assert a[0] in multiset(b) && b[0] in multiset(a);
      HeadIsLeast(a, b[0]);
      HeadIsLeast(b, a[0]);
      TailBag(a);
      TailBag(b);
      SortedIsUnique(a[1..], b[1..]);
      assert a == [a[0]] + a[1..] && b == [b[0]] + b[1..];
    }
  }

  /** Whatever the layout, its least entry comes first in order. */
  lemma LeastComesFirst(q: seq<QueueEntry>, ordered: seq<QueueEntry>, e: QueueEntry)
    requires Sorted(ordered) && multiset(ordered) == multiset(q) && Least(e, q)
    ensures ordered != [] && ordered[0] == e && ordered == [e] + ordered[1..]
  {
    assert e in multiset(ordered) && |ordered| > 0;
    assert ordered[0] in multiset(q);
    assert Leq(e, ordered[0]) && Leq(ordered[0], e);
  }
}
