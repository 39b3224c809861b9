/** The queue with lazily deleted entries answers like a plain priority queue of the live ones. */
module QueueRefinement {
  import opened Options
  import opened QueueEntries
  import opened Daemon
  import opened WellFormed

  /** The plain priority queue: the live entries in order. */
  ghost function LiveOnly(s: State, q: seq<QueueEntry>): seq<QueueEntry> {
    if q == [] then []
    else if Live(s, q[0]) then [q[0]] + LiveOnly(s, q[1..])
    else LiveOnly(s, q[1..])
  }

  lemma {:induction false} LiveOnlyHas(s: State, q: seq<QueueEntry>)
    ensures forall e :: e in LiveOnly(s, q) <==> e in q && Live(s, e)
  {
    if q != [] {
      LiveOnlyHas(s, q[1..]);
      assert forall e :: e in q <==> e == q[0] || e in q[1..];
    }
  }

  lemma {:induction false} InsertLive(s: State, q: seq<QueueEntry>, e: QueueEntry)
    requires Sorted(q)
    ensures LiveOnly(s, Insert(q, e)) == if Live(s, e) then Insert(LiveOnly(s, q), e) else LiveOnly(s, q)
  {
    if q == [] {
      assert LiveOnly(s, [e]) == if Live(s, e) then [e] else [];
    } else if Less(e, q[0]) {
      var rest := LiveOnly(s, q);
      assert ([e] + q)[1..] == q;
      LiveOnlyHas(s, q);
      if rest != [] {
        assert rest[0] in q;
        var i :| 0 <= i < |q| && q[i] == rest[0];
        assert Less(e, rest[0]);
      }
    } else {
      InsertLive(s, q[1..], e);
      assert Insert(q, e)[1..] == Insert(q[1..], e);
      var tail := LiveOnly(s, q[1..]);
      if Live(s, q[0]) {
        assert ([q[0]] + tail)[1..] == tail;
      }
    }
  }

  /** Pushing inserts into the plain queue a live entry, and nothing otherwise. */
  lemma PushRefines(s: State, known: map<JobId, Job>, when: int, id: JobId, attempt: int, generation: int)
    requires Fits(s, known)
    ensures var e := QueueEntry(when, generation, id, attempt);
      LiveOnly(s, Push(s, when, id, attempt, generation).queue)
      == if Live(s, e) then Insert(LiveOnly(s, s.queue), e) else LiveOnly(s, s.queue)
  {
    InsertLive(s, s.queue, QueueEntry(when, generation, id, attempt));
  }

  lemma {:induction false} DropDeadKeepsLive(s: State, q: seq<QueueEntry>)
    ensures LiveOnly(s, DropDead(s, q)) == LiveOnly(s, q)
    ensures var d := DropDead(s, q);
      if d == [] then LiveOnly(s, q) == [] else LiveOnly(s, q) != [] && d[0] == LiveOnly(s, q)[0]
  {
    if q != [] && !Live(s, q[0]) {
      DropDeadKeepsLive(s, q[1..]);
    }
  }

  lemma {:induction false} LiveOnlySorted(s: State, q: seq<QueueEntry>)
    requires Sorted(q)
    ensures Sorted(LiveOnly(s, q))
  {
    if q != [] {
      LiveOnlySorted(s, q[1..]);
      LiveOnlyHas(s, q[1..]);
      var rest := LiveOnly(s, q[1..]);
      forall i | 0 <= i < |rest| ensures Leq(q[0], rest[i]) {
        assert rest[i] in q[1..];
      }
    }
  }

  /** Peeking leaves the plain queue as it is and returns its head, which is the least live entry;
      it returns None exactly when there is no live entry. */
  lemma PeekRefines(s: State, known: map<JobId, Job>)
    requires Fits(s, known)
    ensures LiveOnly(s, Purge(s).queue) == LiveOnly(s, s.queue)
    ensures Peek(s) == if LiveOnly(s, s.queue) == [] then None else Some(LiveOnly(s, s.queue)[0])
    ensures Peek(s) == None <==> forall e :: e in s.queue ==> !Live(s, e)
    ensures Peek(s).Some? ==> Least(Peek(s).value, LiveOnly(s, s.queue))
  {
    DropDeadKeepsLive(s, s.queue);
    LiveOnlyHas(s, s.queue);
    LiveOnlySorted(s, s.queue);
    var live := LiveOnly(s, s.queue);
    if live == [] {
      forall e | e in s.queue ensures !Live(s, e) {
        assert e !in live;
      }
    } else {
      assert live[0] in live;
    }
  }

  /** Dispatching after a peek removes the head of the plain queue. */
  lemma DispatchRefines(s: State, known: map<JobId, Job>)
    requires Fits(s, known) && Peek(s).Some?
    ensures LiveOnly(s, s.queue) == [Peek(s).value] + LiveOnly(s, Dispatch(Purge(s)).queue)
  {
    PurgeFits(s, known);
    DropDeadKeepsLive(s, s.queue);
    var q := Purge(s).queue;
    assert LiveOnly(s, q) == [q[0]] + LiveOnly(s, q[1..]);
  }
}
