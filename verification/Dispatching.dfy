/** What the queue loop does once it has a slot: it dispatches the least live entry if that is due,
    and otherwise gives the slot back. Waiting for the slot may have changed the queue. */
module Dispatching {
  import opened Options
  import opened QueueEntries
  import opened Daemon
  import opened Machine
  import opened WellFormed

  function Started(task: nat, e: QueueEntry): Execution {
    Execution(task, e.job, e.when, e.attempt, e.generation, Phase.Dispatched)
  }

  /** The first k entries are dead and go; the next one, if live and due, is dispatched. */
  lemma GrantShape(s: State, now: int) returns (k: nat)
    ensures k <= |s.queue| && forall i :: 0 <= i < k ==> !Live(s, s.queue[i])
    ensures k < |s.queue| ==> Live(s, s.queue[k])
    ensures var s' := QueueSlot(s, now);
      && s'.jobs == s.jobs && s'.generations == s.generations
      && (match DispatchOf(s, QueueGrant(now))
          case None =>
            (s'.queue == s.queue[k..] && s'.inflight == s.inflight && (k < |s.queue| ==> s.queue[k].when > now))
          case Some(e) =>
            (k < |s.queue| && e == s.queue[k] && e.when <= now
             && s'.queue == s.queue[k + 1..] && s'.inflight == s.inflight + [Started(s.nextTask, e)]))
  {
    k := DropDeadIsTail(s, s.queue);
    DropDeadDependsOn(s, TakeSlot(s), s.queue);
  }

  /** e is due and the least of the live entries. */
  ghost predicate LeastLive(s: State, e: QueueEntry) {
    e in s.queue && Live(s, e) && forall x :: x in s.queue && Live(s, x) ==> Leq(e, x)
  }

  lemma FirstLiveIsLeast(s: State, k: nat)
    requires Sorted(s.queue) && k < |s.queue| && Live(s, s.queue[k])
    requires forall i :: 0 <= i < k ==> !Live(s, s.queue[i])
    ensures LeastLive(s, s.queue[k])
  {
    var e := s.queue[k];
    forall x | x in s.queue && Live(s, x) ensures Leq(e, x) {
      var i :| 0 <= i < |s.queue| && s.queue[i] == x;
    }
  }

  lemma RestIsWithout<T>(s: seq<T>, k: nat)
    requires k < |s|
    ensures multiset(s) >= multiset(s[k + 1..]) + multiset{s[k]}
  {
    assert s == s[..k] + ([s[k]] + s[k + 1..]);
  }

  /** Every dispatched entry is, when it is popped, due, at its job's current generation, of a
      registered job and the least live entry; it is gone from the queue and in flight. */
  lemma DispatchedIsLeastLive(s: State, now: int, e: QueueEntry)
    requires Sorted(s.queue) && DispatchOf(s, QueueGrant(now)) == Some(e)
    ensures LeastLive(s, e) && e.when <= now
    ensures Registered(s, e.job) && Get(s.generations, e.job) == Some(e.generation)
    ensures multiset(s.queue) >= multiset(QueueSlot(s, now).queue) + multiset{e}
    ensures QueueSlot(s, now).inflight == s.inflight + [Started(s.nextTask, e)]
  {
    var k := GrantShape(s, now);
    FirstLiveIsLeast(s, k);
    RestIsWithout(s.queue, k);
  }

  /** A due live entry is never held back by a granted slot. */
  lemma DueIsDispatched(s: State, now: int, e: QueueEntry)
    requires Sorted(s.queue) && e in s.queue && Live(s, e) && e.when <= now
    ensures DispatchOf(s, QueueGrant(now)).Some?
  {
    var k := GrantShape(s, now);
    var i :| 0 <= i < |s.queue| && s.queue[i] == e;
    assert Leq(s.queue[k], s.queue[i]);
  }

  /** The same of every step of the machine in a state that fits. */
  lemma DispatchesAreLeastLive(w: World, step: Step)
    requires Fits(w.s, w.known) && Enabled(w, step) && DispatchOf(w.s, step).Some?
    ensures step.QueueGrant? && LeastLive(w.s, DispatchOf(w.s, step).value)
    ensures DispatchOf(w.s, step).value.when <= step.now
    ensures Next(w, step).dispatches == w.dispatches + [DispatchOf(w.s, step).value]
  {
    DispatchedIsLeastLive(w.s, step.now, DispatchOf(w.s, step).value);
  }
}
