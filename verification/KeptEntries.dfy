/** When a live queue entry is kept: exactly until its job is refreshed or removed. */
module KeptEntries {
  import opened Options
  import opened QueueEntries
  import opened Schedules
  import opened Daemon
  import opened Machine
  import opened WellFormed
  import opened Dispatching
  import opened Staleness

  /** Every entry of s is still there in s'. */
  ghost predicate QueueGrows(s: State, s': State) {
    forall e :: e in s.queue ==> e in s'.queue
  }

  lemma ScheduleNextGrows(s: State, job: Job, after: int, attempt: int, generation: int)
    ensures QueueGrows(s, ScheduleNext(s, job, after, attempt, generation))
  {
    match ResolveAfter(job.trigger, after)
    case None =>
    case Some(when) => InsertHas(s.queue, QueueEntry(when, generation, job.id, attempt));
  }

  lemma FollowUpGrows(s: State, spec: Job, generation: int, attempt: int, status: Status, now: int)
    ensures QueueGrows(s, FollowUp(s, spec, generation, attempt, status, now))
  {
    var current := GetOr(s.generations, spec.id, 1);
    ScheduleNextGrows(s, spec, now, 1, generation);
    ScheduleNextGrows(s, spec, now, 1, current);
    ScheduleNextGrows(s, spec, now, attempt + 1, current);
    if spec.trigger.failPolicy.Some? && spec.trigger.failPolicy.value.retryInterval.Some? {
      var when := now + spec.trigger.failPolicy.value.retryInterval.value;
      InsertHas(s.queue, QueueEntry(when, current, spec.id, attempt + 1));
    }
  }

  lemma {:induction false} RefreshEachGrows(s: State, jobs: seq<Job>, now: int, sweep: Sweep)
    ensures QueueGrows(s, RefreshEach(s, jobs, now, sweep))
    decreases |jobs|
  {
    if jobs != [] {
      var s1 := if Due(s, jobs[0], now, sweep) then RefreshJob(s, jobs[0], now) else s;
      ScheduleNextGrows(Bump(s, jobs[0], now), jobs[0], now, 1, GetOr(s.generations, jobs[0].id, 0) + 1);
      RefreshEachGrows(s1, jobs[1..], now, sweep);
    }
  }

  /** Dropping dead entries keeps the live ones. */
  lemma PurgeKeeps(s: State, e: QueueEntry)
    requires e in s.queue && Live(s, e)
    ensures e in Purge(s).queue
  {
    var k := DropDeadIsTail(s, s.queue);
    var i :| 0 <= i < |s.queue| && s.queue[i] == e;
    assert s.queue[k..][i - k] == e;
  }

  lemma QueueTopKeeps(s: State, t1: int, t2: int, t3: int, e: QueueEntry)
    requires e in s.queue && Live(QueueTop(s, t1, t2, t3), e)
    ensures e in QueueTop(s, t1, t2, t3).queue
  {
    RefreshEachGrows(Forget(s), s.jobs, t2, Missing);
    var s1 := PopulateMissing(s, t2);
    if s.running && !(s.until.Some? && t1 >= s.until.value) {
      assert Live(s1, e);
      PurgeKeeps(s1, e);
    }
  }

  lemma RefreshGrows(s: State, id: JobId, now: int)
    ensures QueueGrows(s, RefreshById(s, id, now))
  {
    if Lookup(s.jobs, id).Some? {
      var job := Lookup(s.jobs, id).value;
      ScheduleNextGrows(Bump(s, job, now), job, now, 1, GetOr(s.generations, job.id, 0) + 1);
    }
  }

  lemma MidnightGrows(s: State, now: int, later: int)
    ensures QueueGrows(s, MidnightTop(s, now, later)) && QueueGrows(s, MidnightWake(s, later))
  {
    RefreshEachGrows(s, s.jobs, later, RolledOver);
  }

  lemma SweepKeepsEntry(w: World, step: Step, e: QueueEntry)
    requires Enabled(w, step) && SweepStep(step) && e in w.s.queue && Live(StateAfter(w, step), e)
    ensures e in StateAfter(w, step).queue
  {
    var s := w.s;
    match step
    case SyncRegistry(now) => RefreshEachGrows(Forget(s), s.jobs, now, Missing);
    case RefreshCall(id, now) => RefreshGrows(s, id, now);
    case Run(now, until) => RefreshEachGrows(s.(running := true, until := until), s.jobs, now, Missing);
    case QueueTurn(now, t2, t3) => QueueTopKeeps(s, now, t2, t3, e);
    case MidnightTurn(now, later) => MidnightGrows(s, now, later);
    case MidnightWakes(now) => MidnightGrows(s, now, now);
    case _ =>
  }

  lemma ExecutionGrows(w: World, step: Step)
    requires Enabled(w, step) && ExecutionStep(step)
    ensures QueueGrows(w.s, StateAfter(w, step))
  {
    var s, x := w.s, w.s.inflight[step.i];
    match step
    case BeginAt(_, now, later) =>
      var job := Lookup(s.jobs, x.job);
      if job.Some? {
        var skipped := AddRecord(s, SkipRecord(x, job.value, now, later));
        ScheduleNextGrows(skipped, job.value, now, 1, GetOr(s.generations, job.value.id, 1));
      }
    case DecideAt(_, outcome, now) =>
      if outcome.Some? {
        var declined := AddRecord(s, OutcomeRecord(x, outcome.value, now));
        ScheduleNextGrows(declined, x.phase.spec, now, 1, x.phase.generation);
      }
    case CompleteAt(_, status, now) =>
      var recorded := AddRecord(s, OutcomeRecord(x, status, now));
      FollowUpGrows(recorded, x.phase.spec, x.phase.generation, x.attempt, status, now);
    case _ =>
  }

  lemma GrantKeepsEntry(s: State, now: int, e: QueueEntry)
    requires e in s.queue && Live(s, e)
    ensures DispatchOf(s, QueueGrant(now)) == Some(e) || e in QueueSlot(s, now).queue
    ensures Live(QueueSlot(s, now), e)
  {
    var k := GrantShape(s, now);
    var i :| 0 <= i < |s.queue| && s.queue[i] == e;
    if i > k {
      assert s.queue[k..][i - k] == e && s.queue[k + 1..][i - k - 1] == e;
    } else {
      assert s.queue[k..][0] == e;
    }
  }

  /** The entry is dispatched by the step, or queued and live after it. */
  ghost predicate Survives(w: World, step: Step, e: QueueEntry)
    requires Enabled(w, step)
  {
    || DispatchOf(w.s, step) == Some(e)
    || (e in StateAfter(w, step).queue && Live(StateAfter(w, step), e))
  }

  /** The step refreshes the job, or leaves it unregistered. */
  ghost predicate Outdates(w: World, step: Step, id: JobId)
    requires Enabled(w, step)
  {
    Bumped(w.s, StateAfter(w, step), id) || !Registered(StateAfter(w, step), id)
  }

  lemma SurvivorIsCurrent(w: World, step: Step, e: QueueEntry)
    requires Enabled(w, step) && e in w.s.queue && Live(w.s, e) && Survives(w, step, e)
    ensures !Outdates(w, step, e.job)
  {
    if step.QueueGrant? {
      var k := GrantShape(w.s, step.now);
    }
  }

  /** A live entry survives a step if and only if the step does not refresh or remove its job. */
  lemma EntrySurvivesExactly(w: World, step: Step, e: QueueEntry)
    requires Fits(w.s, w.known) && Enabled(w, step) && e in w.s.queue && Live(w.s, e)
    ensures Survives(w, step, e) <==> !Outdates(w, step, e.job)
  {
    if Survives(w, step, e) {
      SurvivorIsCurrent(w, step, e);
    } else if !Outdates(w, step, e.job) {
      StepGoesOn(w, step, e.job);
      EntryIsKept(w, step, e);
    }
  }

  lemma EntryIsKept(w: World, step: Step, e: QueueEntry)
    requires Enabled(w, step) && e in w.s.queue && Live(w.s, e) && Live(StateAfter(w, step), e)
    ensures Survives(w, step, e)
  {
    if SweepStep(step) {
      SweepKeepsEntry(w, step, e);
    } else if ExecutionStep(step) {
      ExecutionGrows(w, step);
    } else if step.QueueGrant? {
      GrantKeepsEntry(w.s, step.now, e);
    } else if step.PeekNext? {
      PurgeKeeps(w.s, e);
    }
  }

  // --------------------------------------------------------------------- runs

  /** Along the run the entry stays queued and live until it is dispatched, if it is. */
  ghost predicate Kept(w: World, steps: seq<Step>, e: QueueEntry)
    requires Runs(w, steps)
    decreases |steps|
  {
    steps != [] ==>
      && Survives(w, steps[0], e)
      && (DispatchOf(w.s, steps[0]) == Some(e) || Kept(Next(w, steps[0]), steps[1..], e))
  }

  /** Some step of the run refreshes or removes the job before the entry is dispatched. */
  ghost predicate Outdated(w: World, steps: seq<Step>, e: QueueEntry)
    requires Runs(w, steps)
    decreases |steps|
  {
    && steps != []
    && (|| Outdates(w, steps[0], e.job)
        || (DispatchOf(w.s, steps[0]) != Some(e) && Outdated(Next(w, steps[0]), steps[1..], e)))
  }

  /** A live entry is kept along a run if and only if no step refreshes or removes its job first. */
  lemma {:induction false} EntryIsKeptExactly(w: World, steps: seq<Step>, e: QueueEntry)
    requires Fits(w.s, w.known) && Runs(w, steps) && e in w.s.queue && Live(w.s, e)
    ensures Kept(w, steps, e) <==> !Outdated(w, steps, e)
    decreases |steps|
  {
    if steps != [] {
      StepFits(w, steps[0]);
      EntrySurvivesExactly(w, steps[0], e);
      if Survives(w, steps[0], e) && DispatchOf(w.s, steps[0]) != Some(e) {
        EntryIsKeptExactly(Next(w, steps[0]), steps[1..], e);
      }
    }
  }

  // ------------------------------------------------------------------ retries

  /** The retry that the policy grants after a failed call. */
  function RetryEntry(s: State, x: Execution, now: int): QueueEntry
    requires x.phase.Calling? && RetryGranted(x.phase.spec, x.attempt)
  {
    var interval := x.phase.spec.trigger.failPolicy.value.retryInterval.value;
    QueueEntry(now + interval, GetOr(s.generations, x.phase.spec.id, 1), x.phase.spec.id, x.attempt + 1)
  }

  lemma RetryIsPushed(s: State, i: nat, status: Status, now: int)
    requires i < |s.inflight| && s.inflight[i].phase.Calling? && status != Success
    requires RetryGranted(s.inflight[i].phase.spec, s.inflight[i].attempt)
    ensures Complete(s, i, status, now).queue == Insert(s.queue, RetryEntry(s, s.inflight[i], now))
    ensures Complete(s, i, status, now).jobs == s.jobs && Complete(s, i, status, now).generations == s.generations
  {
  }

  /** A failed call with a granted retry leaves that retry queued and, of a registered job, live. */
  lemma RetryIsQueued(w: World, i: nat, status: Status, now: int)
    requires Fits(w.s, w.known) && Enabled(w, CompleteAt(i, status, now)) && status != Success
    requires RetryGranted(w.s.inflight[i].phase.spec, w.s.inflight[i].attempt)
    requires Registered(w.s, w.s.inflight[i].job)
    ensures var s', e := Next(w, CompleteAt(i, status, now)).s, RetryEntry(w.s, w.s.inflight[i], now);
      e in s'.queue && Live(s', e) && e.job == w.s.inflight[i].job
  {
    assert ExecutionFits(w.s.jobs, w.s.generations, w.known, w.s.inflight[i]);
    RetryIsPushed(w.s, i, status, now);
    InsertHas(w.s.queue, RetryEntry(w.s, w.s.inflight[i], now));
  }

  /** It is kept until it is dispatched if and only if its job is not refreshed or removed first. */
  lemma RetryIsKeptExactly(w: World, i: nat, status: Status, now: int, steps: seq<Step>)
    requires Fits(w.s, w.known) && Enabled(w, CompleteAt(i, status, now)) && status != Success
    requires RetryGranted(w.s.inflight[i].phase.spec, w.s.inflight[i].attempt)
    requires Registered(w.s, w.s.inflight[i].job) && Runs(Next(w, CompleteAt(i, status, now)), steps)
    ensures var w', e := Next(w, CompleteAt(i, status, now)), RetryEntry(w.s, w.s.inflight[i], now);
      Kept(w', steps, e) <==> !Outdated(w', steps, e)
  {
    StepFits(w, CompleteAt(i, status, now));
    RetryIsQueued(w, i, status, now);
    EntryIsKeptExactly(Next(w, CompleteAt(i, status, now)), steps, RetryEntry(w.s, w.s.inflight[i], now));
  }
}
