/** Attempt numbers: where they come from, how far they go, and what each one was preceded by. */
module Attempts {
  import opened Options
  import opened QueueEntries
  import opened Schedules
  import opened Daemon
  import opened Machine
  import opened WellFormed

  /** Without a policy there is one attempt; with a maximum m there are at most max(1, m). */
  predicate Allowed(job: Job, attempt: int) {
    match job.trigger.failPolicy
    case None => attempt <= 1
    case Some(p) => p.maxAttempts.Some? ==> attempt <= 1 || attempt <= p.maxAttempts.value
  }

  /** An earlier record of the same job tells that the attempt before this one failed. */
  ghost predicate Preceded(log: seq<Record>, id: JobId, attempt: int) {
    exists k :: 0 <= k < |log| && log[k].job == id && log[k].attempt == attempt - 1 &&
      log[k].status in {Failed, TimedOut}
  }

  ghost predicate Earned(known: map<JobId, Job>, log: seq<Record>, id: JobId, attempt: int) {
    && id in known
    && 1 <= attempt
    && Allowed(known[id], attempt)
    && (attempt > 1 ==> Preceded(log, id, attempt))
  }

  /** Every attempt that is queued, in flight or recorded was earned. */
  ghost predicate AttemptsEarned(w: World) {
    && (forall e :: e in w.s.queue ==> Earned(w.known, w.log, e.job, e.attempt))
    && (forall i :: 0 <= i < |w.s.inflight| ==> Earned(w.known, w.log, w.s.inflight[i].job, w.s.inflight[i].attempt))
    && (forall r :: 0 <= r < |w.log| ==> Earned(w.known, w.log[..r], w.log[r].job, w.log[r].attempt))
  }

  // ------------------------------------------------- which entries a step adds

  /** Entries of s' beyond those of s are first attempts or the given retry. */
  ghost predicate Adds(s: State, s': State, id: JobId, retry: int) {
    forall e :: e in s'.queue ==> e in s.queue || e.attempt == 1 || (e.job == id && e.attempt == retry)
  }

  lemma PushAdds(s: State, when: int, id: JobId, attempt: int, generation: int)
    ensures Adds(s, Push(s, when, id, attempt, generation), id, attempt)
  {
    InsertHas(s.queue, QueueEntry(when, generation, id, attempt));
  }

  lemma ScheduleNextAddsFirst(s: State, job: Job, after: int, generation: int)
    ensures Adds(s, ScheduleNext(s, job, after, 1, generation), job.id, 1)
    ensures ScheduleNext(s, job, after, 1, generation).inflight == s.inflight
  {
    match ResolveAfter(job.trigger, after)
    case None =>
    case Some(when) => PushAdds(s, when, job.id, 1, generation);
  }

  /** A retry adds the next attempt only while the policy allows it. */
  lemma ScheduleRetryAddsNext(s: State, job: Job, now: int, attempt: int)
    requires job.trigger.failPolicy.Some?
    ensures Adds(s, ScheduleRetry(s, job, now, attempt), job.id, if Allowed(job, attempt + 1) then attempt + 1 else 1)
    ensures ScheduleRetry(s, job, now, attempt).inflight == s.inflight
  {
    var generation := GetOr(s.generations, job.id, 1);
    var policy := job.trigger.failPolicy.value;
    ScheduleNextAddsFirst(s, job, now, generation);
    if policy.retryInterval.Some? {
      PushAdds(s, now + policy.retryInterval.value, job.id, attempt + 1, generation);
    }
    match ResolveAfter(job.trigger, now)
    case None =>
    case Some(when) => PushAdds(s, when, job.id, attempt + 1, generation);
  }

  lemma {:induction false} RefreshEachAdds(s: State, jobs: seq<Job>, now: int, sweep: Sweep)
    ensures Adds(s, RefreshEach(s, jobs, now, sweep), 0, 1)
    ensures RefreshEach(s, jobs, now, sweep).inflight == s.inflight
    decreases |jobs|
  {
    if jobs != [] {
      var s1 := if Due(s, jobs[0], now, sweep) then RefreshJob(s, jobs[0], now) else s;
      ScheduleNextAddsFirst(Bump(s, jobs[0], now), jobs[0], now, GetOr(s.generations, jobs[0].id, 0) + 1);
      RefreshEachAdds(s1, jobs[1..], now, sweep);
    }
  }

  lemma PurgeAddsNothing(s: State)
    ensures forall e :: e in Purge(s).queue ==> e in s.queue
  {
    var k := DropDeadIsTail(s, s.queue);
  }

  /** An execution of s' is one of s, or was made from a queued entry. */
  ghost predicate FromBefore(s: State, s': State) {
    forall i :: 0 <= i < |s'.inflight| ==> Source(s, s'.inflight[i].job, s'.inflight[i].attempt)
  }

  ghost predicate Source(s: State, id: JobId, attempt: int) {
    || (exists k :: 0 <= k < |s.inflight| && s.inflight[k].job == id && s.inflight[k].attempt == attempt)
    || (exists e :: e in s.queue && e.job == id && e.attempt == attempt)
  }

  lemma SameInflight(s: State, s': State)
    requires s'.inflight == s.inflight
    ensures FromBefore(s, s')
  {
  }

  lemma RemovedInflight(s: State, s': State, i: nat)
    requires i < |s.inflight| && s'.inflight == s.inflight[..i] + s.inflight[i + 1..]
    ensures FromBefore(s, s')
  {
    forall k | 0 <= k < |s'.inflight| ensures Source(s, s'.inflight[k].job, s'.inflight[k].attempt) {
      var k' := if k < i then k else k + 1;
      assert s'.inflight[k] == s.inflight[k'];
    }
  }

  lemma SyncAdds(s: State, now: int)
    ensures Adds(s, PopulateMissing(s, now), 0, 1) && PopulateMissing(s, now).inflight == s.inflight
  {
    RefreshEachAdds(Forget(s), s.jobs, now, Missing);
  }

  lemma RefreshAdds(s: State, id: JobId, now: int)
    ensures Adds(s, RefreshById(s, id, now), 0, 1) && RefreshById(s, id, now).inflight == s.inflight
  {
    if Lookup(s.jobs, id).Some? {
      var job := Lookup(s.jobs, id).value;
      ScheduleNextAddsFirst(Bump(s, job, now), job, now, GetOr(s.generations, job.id, 0) + 1);
    }
  }

  lemma StartAdds(s: State, now: int, until: Option<int>)
    ensures Adds(s, StartRun(s, now, until), 0, 1) && StartRun(s, now, until).inflight == s.inflight
  {
    RefreshEachAdds(s.(running := true, until := until), s.jobs, now, Missing);
  }

  lemma QueueTopAdds(s: State, t1: int, t2: int, t3: int)
    ensures Adds(s, QueueTop(s, t1, t2, t3), 0, 1) && QueueTop(s, t1, t2, t3).inflight == s.inflight
  {
    SyncAdds(s, t2);
    PurgeAddsNothing(PopulateMissing(s, t2));
  }

  lemma MidnightAdds(s: State, now: int, later: int)
    ensures Adds(s, MidnightTop(s, now, later), 0, 1) && MidnightTop(s, now, later).inflight == s.inflight
    ensures Adds(s, MidnightWake(s, later), 0, 1) && MidnightWake(s, later).inflight == s.inflight
  {
    RefreshEachAdds(s, s.jobs, later, RolledOver);
  }

  lemma SweepStepAdds(w: World, step: Step)
    requires Enabled(w, step) && SweepStep(step)
    ensures Adds(w.s, StateAfter(w, step), 0, 1) && StateAfter(w, step).inflight == w.s.inflight
  {
    match step
    case SyncRegistry(now) => SyncAdds(w.s, now);
    case RefreshCall(id, now) => RefreshAdds(w.s, id, now);
    case Run(now, until) => StartAdds(w.s, now, until);
    case QueueTurn(now, t2, t3) => QueueTopAdds(w.s, now, t2, t3);
    case MidnightTurn(now, later) => MidnightAdds(w.s, now, later);
    case MidnightWakes(now) => MidnightAdds(w.s, now, now);
    case _ =>
  }

  lemma GrantAdds(s: State, now: int)
    ensures Adds(s, QueueSlot(s, now), 0, 1) && FromBefore(s, QueueSlot(s, now))
  {
    PurgeAddsNothing(TakeSlot(s));
    var s', q := QueueSlot(s, now), DropDead(TakeSlot(s), s.queue);
    assert forall e :: e in Purge(TakeSlot(s)).queue ==> e in s.queue;
    forall i | 0 <= i < |s'.inflight| ensures Source(s, s'.inflight[i].job, s'.inflight[i].attempt) {
      if i < |s.inflight| {
        assert s'.inflight[i] == s.inflight[i];
      } else {
        assert q[0] in s.queue;
      }
    }
  }

  lemma BeginAdds(s: State, i: nat, now: int, later: int)
    requires i < |s.inflight|
    ensures Adds(s, Begin(s, i, now, later), 0, 1) && FromBefore(s, Begin(s, i, now, later))
  {
    var x, s' := s.inflight[i], Begin(s, i, now, later);
    var job := Lookup(s.jobs, x.job);
    if job.Some? && !TooLate(s.cfg, job.value, x.scheduledFor, now) {
      assert forall k :: 0 <= k < |s'.inflight| ==>
        s'.inflight[k].job == s.inflight[k].job && s'.inflight[k].attempt == s.inflight[k].attempt;
    } else {
      if job.Some? {
        ScheduleNextAddsFirst(AddRecord(s, SkipRecord(x, job.value, now, later)), job.value, now,
          GetOr(s.generations, job.value.id, 1));
      }
      RemovedInflight(s, s', i);
    }
  }

  /** The same state, but for the policy of the execution at i. */
  function UnderPolicy(s: State, i: nat, policy: Option<FailPolicy>): State
    requires i < |s.inflight| && s.inflight[i].phase.Evaluating?
  {
    var x := s.inflight[i];
    var spec := x.phase.spec.(trigger := x.phase.spec.trigger.(failPolicy := policy));
    s.(inflight := s.inflight[i := x.(phase := Evaluating(spec, x.phase.generation, x.phase.startedAt))])
  }

  /** When the conditions do not pass, the next regular occurrence is scheduled, as a first attempt
      at the captured generation, and nothing else; no fail policy has a part in it. */
  lemma DeclineSchedulesNext(s: State, i: nat, status: Status, now: int, policy: Option<FailPolicy>)
    requires i < |s.inflight| && s.inflight[i].phase.Evaluating?
    ensures var spec, generation := s.inflight[i].phase.spec, s.inflight[i].phase.generation;
      Decide(s, i, Some(status), now).queue ==
      match ResolveAfter(spec.trigger, now)
      case None => s.queue
      case Some(when) => Insert(s.queue, QueueEntry(when, generation, spec.id, 1))
    ensures Decide(UnderPolicy(s, i, policy), i, Some(status), now).queue == Decide(s, i, Some(status), now).queue
  {
    assert ResolveAfter(s.inflight[i].phase.spec.trigger.(failPolicy := policy), now) ==
      ResolveAfter(s.inflight[i].phase.spec.trigger, now);
  }

  lemma DecideAdds(s: State, i: nat, outcome: Option<Status>, now: int)
    requires i < |s.inflight| && s.inflight[i].phase.Evaluating?
    ensures Adds(s, Decide(s, i, outcome, now), 0, 1) && FromBefore(s, Decide(s, i, outcome, now))
  {
    var x, s' := s.inflight[i], Decide(s, i, outcome, now);
    match outcome
    case None =>
      assert forall k :: 0 <= k < |s'.inflight| ==>
        s'.inflight[k].job == s.inflight[k].job && s'.inflight[k].attempt == s.inflight[k].attempt;
    case Some(status) =>
      ScheduleNextAddsFirst(AddRecord(s, OutcomeRecord(x, status, now)), x.phase.spec, now, x.phase.generation);
      RemovedInflight(s, s', i);
  }

  /** The attempt that may follow this one: the next after a failure that the policy lets retry. */
  function RetryAttempt(x: Execution, status: Status): int
    requires x.phase.Calling?
  {
    if status != Success && Allowed(x.phase.spec, x.attempt + 1) then x.attempt + 1 else 1
  }

  lemma CompleteAdds(s: State, i: nat, status: Status, now: int)
    requires i < |s.inflight| && s.inflight[i].phase.Calling?
    ensures FromBefore(s, Complete(s, i, status, now))
    ensures Adds(s, Complete(s, i, status, now), s.inflight[i].phase.spec.id, RetryAttempt(s.inflight[i], status))
  {
    var x := s.inflight[i];
    var s1 := AddRecord(s, OutcomeRecord(x, status, now));
    ScheduleNextAddsFirst(s1, x.phase.spec, now, x.phase.generation);
    if x.phase.spec.trigger.failPolicy.Some? {
      ScheduleRetryAddsNext(s1, x.phase.spec, now, x.attempt);
    }
    RemovedInflight(s, Complete(s, i, status, now), i);
  }

  // ------------------------------------------------------------ the invariant

  lemma EarnedLater(known: map<JobId, Job>, known': map<JobId, Job>, log: seq<Record>, more: Option<Record>,
        id: JobId, attempt: int)
    requires Earned(known, log, id, attempt)
    requires forall j :: j in known ==> j in known' && known'[j] == known[j]
    ensures Earned(known', Append(log, more), id, attempt)
  {
    if attempt > 1 {
      var k :| 0 <= k < |log| && log[k].job == id && log[k].attempt == attempt - 1 &&
        log[k].status in {Failed, TimedOut};
      assert Append(log, more)[k] == log[k];
    }
  }

  lemma RecordIsEarned(w: World, step: Step)
    requires Fits(w.s, w.known) && Enabled(w, step) && AttemptsEarned(w) && RecordOf(w, step).Some?
    ensures Earned(w.known, w.log, RecordOf(w, step).value.job, RecordOf(w, step).value.attempt)
  {
    var s := w.s;
    match step
    case BeginAt(i, _, _) => LookupFinds(s.jobs, s.inflight[i].job);
    case DecideAt(i, _, _) => assert ExecutionFits(s.jobs, s.generations, w.known, s.inflight[i]);
    case CompleteAt(i, _, _) => assert ExecutionFits(s.jobs, s.generations, w.known, s.inflight[i]);
    case _ =>
  }

  /** The retry a step may queue: its job and attempt; (0, 1) when it queues none. */
  ghost function RetryOf(w: World, step: Step): (JobId, int)
    requires Enabled(w, step)
  {
    match step
    case CompleteAt(i, status, _) =>
      var x := w.s.inflight[i];
      (x.phase.spec.id, RetryAttempt(x, status))
    case _ => (0, 1)
  }

  lemma StepAdds(w: World, step: Step)
    requires Enabled(w, step)
    ensures Adds(w.s, StateAfter(w, step), RetryOf(w, step).0, RetryOf(w, step).1)
    ensures FromBefore(w.s, StateAfter(w, step))
  {
    var s := w.s;
    match step
    case PeekNext =>
      PurgeAddsNothing(s);
      SameInflight(s, Purge(s));
    case QueueGrant(now) => GrantAdds(s, now);
    case BeginAt(i, now, later) => BeginAdds(s, i, now, later);
    case DecideAt(i, outcome, now) => DecideAdds(s, i, outcome, now);
    case CompleteAt(i, status, now) => CompleteAdds(s, i, status, now);
    case AbortAt(i) => RemovedInflight(s, Finish(s, i), i);
    case SyncRegistry(_) | RefreshCall(_, _) | Run(_, _) | QueueTurn(_, _, _) | MidnightTurn(_, _) | MidnightWakes(_) =>
      SweepStepAdds(w, step);
      SameInflight(s, StateAfter(w, step));
    case _ => SameInflight(s, StateAfter(w, step));
  }

  lemma RetryIsEarned(w: World, step: Step)
    requires Fits(w.s, w.known) && Enabled(w, step) && AttemptsEarned(w) && RetryOf(w, step).1 != 1
    ensures Earned(w.known, Append(w.log, RecordOf(w, step)), RetryOf(w, step).0, RetryOf(w, step).1)
  {
    var i := step.i;
    var x := w.s.inflight[i];
    assert ExecutionFits(w.s.jobs, w.s.generations, w.known, x);
    assert Earned(w.known, w.log, x.job, x.attempt);
    var log := Append(w.log, RecordOf(w, step));
    assert log[|w.log|] == OutcomeRecord(x, step.status, step.now);
    assert log[|w.log|].status in {Failed, TimedOut};
  }

  lemma QueueKeepsEarned(w: World, step: Step, e: QueueEntry)
    requires Fits(w.s, w.known) && Enabled(w, step) && AttemptsEarned(w) && e in Next(w, step).s.queue
    ensures Earned(Next(w, step).known, Next(w, step).log, e.job, e.attempt)
  {
    var w' := Next(w, step);
    StepFits(w, step);
    StepAdds(w, step);
    var k :| 0 <= k < |w'.s.queue| && w'.s.queue[k] == e;
    assert e.job in w'.known;
    if e in w.s.queue {
      EarnedLater(w.known, w'.known, w.log, RecordOf(w, step), e.job, e.attempt);
    } else if e.attempt != 1 {
      RetryIsEarned(w, step);
    }
  }

  lemma LogKeepsEarned(w: World, step: Step, r: nat)
    requires Fits(w.s, w.known) && Enabled(w, step) && AttemptsEarned(w) && r < |Next(w, step).log|
    ensures var w' := Next(w, step); Earned(w'.known, w'.log[..r], w'.log[r].job, w'.log[r].attempt)
  {
    var w' := Next(w, step);
    assert w'.log[..r] == w.log[..r];
    if r == |w.log| {
      assert w.log[..r] == w.log;
      RecordIsEarned(w, step);
    }
    EarnedLater(w.known, w'.known, w.log[..r], None, w'.log[r].job, w'.log[r].attempt);
  }

  lemma StepKeepsEarned(w: World, step: Step)
    requires Fits(w.s, w.known) && Enabled(w, step) && AttemptsEarned(w)
    ensures AttemptsEarned(Next(w, step))
  {
    var w' := Next(w, step);
    StepAdds(w, step);
    forall e | e in w'.s.queue ensures Earned(w'.known, w'.log, e.job, e.attempt) {
      QueueKeepsEarned(w, step, e);
    }
    forall i | 0 <= i < |w'.s.inflight|
      ensures Earned(w'.known, w'.log, w'.s.inflight[i].job, w'.s.inflight[i].attempt)
    {
      assert Source(w.s, w'.s.inflight[i].job, w'.s.inflight[i].attempt);
      EarnedLater(w.known, w'.known, w.log, RecordOf(w, step), w'.s.inflight[i].job, w'.s.inflight[i].attempt);
    }
    forall r | 0 <= r < |w'.log| ensures Earned(w'.known, w'.log[..r], w'.log[r].job, w'.log[r].attempt) {
      LogKeepsEarned(w, step, r);
    }
  }

  /** In every reachable state of every interleaving. */
  lemma {:induction false} AttemptsAreEarned(w: World, steps: seq<Step>)
    requires Fits(w.s, w.known) && AttemptsEarned(w) && Runs(w, steps)
    ensures AttemptsEarned(After(w, steps))
    decreases |steps|
  {
    if steps != [] {
      StepFits(w, steps[0]);
      StepKeepsEarned(w, steps[0]);
      AttemptsAreEarned(Next(w, steps[0]), steps[1..]);
    }
  }
}
