/** Where the times of queued runs come from: a job's trigger, or its policy's interval after a
    failure. Nothing is ever queued for a time that neither of them gave. */
module AskedTimes {
  import opened Options
  import opened QueueEntries
  import opened Schedules
  import opened Daemon
  import opened Machine
  import opened WellFormed
  import opened Dispatching
  import opened KeptEntries
  import opened Effects

  /** The trigger, asked at some moment up to now, answered this time. */
  ghost predicate FromTrigger(job: Job, when: int, now: int) {
    exists t :: t <= now && ResolveAfter(job.trigger, t) == Some(when)
  }

  /** The record of a failed attempt, an interval before the given time. */
  predicate FailedBefore(job: Job, r: Record, interval: int, when: int, attempt: int) {
    && r.job == job.id && r.attempt == attempt - 1 && r.status in {Failed, TimedOut}
    && when == r.finishedAt + interval
  }

  /** It is the policy's interval after a recorded failure of the attempt before. */
  ghost predicate FromPolicy(job: Job, log: seq<Record>, when: int, attempt: int) {
    && job.trigger.failPolicy.Some? && job.trigger.failPolicy.value.retryInterval.Some?
    && var interval := job.trigger.failPolicy.value.retryInterval.value;
      exists k :: 0 <= k < |log| && FailedBefore(job, log[k], interval, when, attempt)
  }

  ghost predicate Asked(known: map<JobId, Job>, log: seq<Record>, now: int, e: QueueEntry) {
    && e.job in known && known[e.job].id == e.job
    && (FromTrigger(known[e.job], e.when, now) || FromPolicy(known[e.job], log, e.when, e.attempt))
  }

  ghost predicate AllAsked(w: World) {
    forall e :: e in w.s.queue ==> Asked(w.known, w.log, w.now, e)
  }

  // --------------------------------------------------------------------- steps

  /** e was queued before, or its job's trigger gave its time when asked at `after`. */
  ghost predicate OldOrResolved(q: seq<QueueEntry>, known: map<JobId, Job>, after: int, e: QueueEntry) {
    e in q || (e.job in known && known[e.job].id == e.job && ResolveAfter(known[e.job].trigger, after) == Some(e.when))
  }

  lemma QueuedIsResolved(q: seq<QueueEntry>, q': seq<QueueEntry>, known: map<JobId, Job>, job: Job, after: int,
        generation: int, attempt: int, e: QueueEntry)
    requires Queues(q, q', job, after, generation, attempt) && e in q'
    requires job.id in known && known[job.id] == job
    ensures OldOrResolved(q, known, after, e)
  {
    match ResolveAfter(job.trigger, after)
    case None =>
    case Some(when) => InsertHas(q, QueueEntry(when, generation, job.id, attempt));
  }

  lemma SweptIsResolved(s: State, known: map<JobId, Job>, jobs: seq<Job>, now: int, sweep: Sweep, e: QueueEntry)
    requires UniqueIds(jobs) && JobsKnown(jobs, known) && e in RefreshEach(s, jobs, now, sweep).queue
    ensures OldOrResolved(s.queue, known, now, e)
  {
    SweepQueues(s, jobs, now, sweep);
    if e !in s.queue {
      var i :| 0 <= i < |jobs| && Due(s, jobs[i], now, sweep) && IsNextOf(s, jobs[i], now, e);
    }
  }

  lemma RefreshedIsResolved(s: State, known: map<JobId, Job>, id: JobId, now: int, e: QueueEntry)
    requires Fits(s, known) && e in RefreshById(s, id, now).queue
    ensures OldOrResolved(s.queue, known, now, e)
  {
    LookupFinds(s.jobs, id);
    if Lookup(s.jobs, id).Some? {
      RefreshAddsNext(s, Lookup(s.jobs, id).value, now, e);
    }
  }

  lemma PurgedWasThere(s: State, e: QueueEntry)
    requires e in Purge(s).queue
    ensures e in s.queue
  {
    var k := DropDeadIsTail(s, s.queue);
  }

  lemma QueueTopResolved(s: State, known: map<JobId, Job>, t1: int, t2: int, t3: int, e: QueueEntry)
    requires Fits(s, known) && e in QueueTop(s, t1, t2, t3).queue
    ensures OldOrResolved(s.queue, known, t2, e)
  {
    if s.running && !(s.until.Some? && t1 >= s.until.value) {
      PurgedWasThere(PopulateMissing(s, t2), e);
      SweptIsResolved(Forget(s), known, s.jobs, t2, Missing, e);
    }
  }

  /** When a sweeping step asks the triggers. */
  function AskTime(step: Step): int {
    match step
    case SyncRegistry(now) => now
    case RefreshCall(_, now) => now
    case Run(now, _) => now
    case QueueTurn(_, t2, _) => t2
    case MidnightTurn(_, later) => later
    case MidnightWakes(now) => now
    case _ => 0
  }

  lemma SweepStepResolved(w: World, step: Step, e: QueueEntry)
    requires Fits(w.s, w.known) && Enabled(w, step) && SweepStep(step) && e in StateAfter(w, step).queue
    ensures OldOrResolved(w.s.queue, w.known, AskTime(step), e) && AskTime(step) <= ClockAfter(w, step)
  {
    var s, known := w.s, w.known;
    match step
    case SyncRegistry(now) => SweptIsResolved(Forget(s), known, s.jobs, now, Missing, e);
    case RefreshCall(id, now) => RefreshedIsResolved(s, known, id, now, e);
    case Run(now, until) => SweptIsResolved(s.(running := true, until := until), known, s.jobs, now, Missing, e);
    case QueueTurn(now, t2, t3) => QueueTopResolved(s, known, now, t2, t3, e);
    case MidnightTurn(now, later) =>
      if e !in s.queue {
        SweptIsResolved(s, known, s.jobs, later, RolledOver, e);
      }
    case MidnightWakes(now) =>
      if e !in s.queue {
        SweptIsResolved(s, known, s.jobs, now, RolledOver, e);
      }
    case _ =>
  }

  /** e was queued before, or is asked for after the step. */
  ghost predicate OldOrAsked(w: World, step: Step, e: QueueEntry)
    requires Enabled(w, step)
  {
    e in w.s.queue || Asked(w.known, Append(w.log, RecordOf(w, step)), ClockAfter(w, step), e)
  }

  lemma BeginAsks(w: World, step: Step, e: QueueEntry)
    requires Fits(w.s, w.known) && Enabled(w, step) && step.BeginAt? && e in StateAfter(w, step).queue
    ensures OldOrAsked(w, step, e)
  {
    var x := w.s.inflight[step.i];
    LookupFinds(w.s.jobs, x.job);
    BeginSkipsExactly(w.s, step.i, step.now, step.later);
    if e !in w.s.queue {
      var job := Lookup(w.s.jobs, x.job).value;
      QueuedIsResolved(w.s.queue, StateAfter(w, step).queue, w.known, job, step.now, Read(w.s, job.id), 1, e);
    }
  }

  lemma DecideAsks(w: World, step: Step, e: QueueEntry)
    requires Fits(w.s, w.known) && Enabled(w, step) && step.DecideAt? && e in StateAfter(w, step).queue
    ensures OldOrAsked(w, step, e)
  {
    var x := w.s.inflight[step.i];
    assert ExecutionFits(w.s.jobs, w.s.generations, w.known, x);
    DecideGoesOn(w.s, step.i, step.outcome, step.now);
    if e !in w.s.queue {
      QueuedIsResolved(w.s.queue, StateAfter(w, step).queue, w.known, x.phase.spec, step.now, x.phase.generation, 1, e);
    }
  }

  /** The interval after the failure that the step records. */
  lemma RetryIsAsked(w: World, step: Step, e: QueueEntry)
    requires Fits(w.s, w.known) && Enabled(w, step) && step.CompleteAt? && step.status != Success
    requires var x := w.s.inflight[step.i];
      && RetryGranted(x.phase.spec, x.attempt) && e == RetryEntry(w.s, x, step.now)
    ensures OldOrAsked(w, step, e)
  {
    var x := w.s.inflight[step.i];
    assert ExecutionFits(w.s.jobs, w.s.generations, w.known, x);
    var log := Append(w.log, RecordOf(w, step));
    var interval := x.phase.spec.trigger.failPolicy.value.retryInterval.value;
    assert log[|w.log|] == OutcomeRecord(x, step.status, step.now);
    assert FailedBefore(x.phase.spec, log[|w.log|], interval, e.when, e.attempt);
  }

  lemma CompleteAsks(w: World, step: Step, e: QueueEntry)
    requires Fits(w.s, w.known) && Enabled(w, step) && step.CompleteAt? && e in StateAfter(w, step).queue
    ensures OldOrAsked(w, step, e)
  {
    var x, q, q' := w.s.inflight[step.i], w.s.queue, StateAfter(w, step).queue;
    var Calling(job, captured, _) := x.phase;
    assert ExecutionFits(w.s.jobs, w.s.generations, w.known, x);
    CompleteFollowsUp(w.s, step.i, step.status, step.now);
    if step.status != Success && RetryGranted(job, x.attempt) {
      InsertHas(q, RetryEntry(w.s, x, step.now));
      if e !in q {
        RetryIsAsked(w, step, e);
      }
    } else if e !in q {
      var generation, attempt := NextIsQueued(w.s, q', x, step.status, step.now);
      QueuedIsResolved(q, q', w.known, job, step.now, generation, attempt, e);
    }
  }

  /** Without a granted retry the follow-up is at the next occurrence, whatever its attempt. */
  lemma NextIsQueued(s: State, q': seq<QueueEntry>, x: Execution, status: Status, now: int)
    returns (generation: int, attempt: int)
    requires x.phase.Calling? && FollowsUp(s, q', x, status, now)
    requires status == Success || !RetryGranted(x.phase.spec, x.attempt)
    ensures Queues(s.queue, q', x.phase.spec, now, generation, attempt)
  {
    var Calling(job, captured, _) := x.phase;
    if status == Success || job.trigger.failPolicy.None? {
      generation, attempt := captured, 1;
    } else {
      var policy := job.trigger.failPolicy.value;
      generation := Read(s, job.id);
      attempt := if policy.maxAttempts.Some? && x.attempt >= policy.maxAttempts.value then 1 else x.attempt + 1;
    }
  }

  lemma StepAsks(w: World, step: Step, e: QueueEntry)
    requires Fits(w.s, w.known) && Enabled(w, step) && e in StateAfter(w, step).queue
    ensures OldOrAsked(w, step, e)
  {
    if SweepStep(step) {
      SweepStepResolved(w, step, e);
    } else if step.BeginAt? {
      BeginAsks(w, step, e);
    } else if step.DecideAt? {
      DecideAsks(w, step, e);
    } else if step.CompleteAt? {
      CompleteAsks(w, step, e);
    } else if step.QueueGrant? {
      var k := GrantShape(w.s, step.now);
    } else if step.PeekNext? {
      PurgedWasThere(w.s, e);
    }
  }

  lemma AskedLater(known: map<JobId, Job>, known': map<JobId, Job>, log: seq<Record>, more: Option<Record>, now: int,
        later: int, e: QueueEntry)
    requires Asked(known, log, now, e) && now <= later
    requires forall id :: id in known ==> id in known' && known'[id] == known[id]
    ensures Asked(known', Append(log, more), later, e)
  {
    var job := known[e.job];
    if !FromTrigger(job, e.when, now) {
      var interval := job.trigger.failPolicy.value.retryInterval.value;
      var k :| 0 <= k < |log| && FailedBefore(job, log[k], interval, e.when, e.attempt);
      assert Append(log, more)[k] == log[k];
    }
  }

  lemma StepKeepsAsked(w: World, step: Step)
    requires Fits(w.s, w.known) && Enabled(w, step) && AllAsked(w)
    ensures AllAsked(Next(w, step))
  {
    var w' := Next(w, step);
    forall e | e in w'.s.queue ensures Asked(w'.known, w'.log, w'.now, e) {
      StepAsks(w, step, e);
      if e in w.s.queue {
        AskedLater(w.known, w'.known, w.log, RecordOf(w, step), w.now, w'.now, e);
      } else {
        AskedLater(w.known, w'.known, w'.log, None, w'.now, w'.now, e);
      }
    }
  }

  /** In every run each queued entry is for a time that its job's trigger answered when it was asked,
      or for its policy's interval after the recorded failure of the attempt before. */
  lemma {:induction false} RunsAreAsked(w: World, steps: seq<Step>)
    requires Fits(w.s, w.known) && AllAsked(w) && Runs(w, steps)
    ensures AllAsked(After(w, steps))
    decreases |steps|
  {
    if steps != [] {
      StepFits(w, steps[0]);
      StepKeepsAsked(w, steps[0]);
      RunsAreAsked(Next(w, steps[0]), steps[1..]);
    }
  }
}
