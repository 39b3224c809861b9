/** What the daemon's segments do, told in the fields of the state: which limit makes a run missed,
    at what time a follow-up is queued, when the loops end and how long they wait. */
module Effects {
  import opened BoundedDeques
  import opened Options
  import opened QueueEntries
  import opened TimeZones
  import opened Units
  import opened Schedules
  import opened Daemon
  import opened Machine
  import opened WellFormed
  import opened Dispatching
  import opened Executions
  import opened Sweeps
  import opened QueueRefinement

  /** From q to q' the job's next occurrence after a moment is queued, or nothing if there is none. */
  ghost predicate Queues(q: seq<QueueEntry>, q': seq<QueueEntry>, job: Job, after: int, generation: int, attempt: int) {
    match ResolveAfter(job.trigger, after)
    case None => q' == q
    case Some(when) => q' == Insert(q, QueueEntry(when, generation, job.id, attempt))
  }

  /** A registered job's current generation. */
  function Read(s: State, id: JobId): int {
    if id in s.generations then s.generations[id] else 1
  }

  // ---------------------------------------------------------------- executions

  /** A run is missed when it begins later than the job's own limit allows, or, for a job without
      one, than the daemon's. */
  predicate Missed(cfg: Config, job: Job, scheduledFor: int, now: int) {
    || (job.maxLatency.Some? && now - scheduledFor > job.maxLatency.value)
    || (job.maxLatency.None? && cfg.maxLatency.Some? && now - scheduledFor > cfg.maxLatency.value)
  }

  /** The execution at i leaves the flight and its slot is free again. */
  ghost predicate Leaves(s: State, s': State, i: nat)
    requires i < |s.inflight|
  {
    && s'.inflight == s.inflight[..i] + s.inflight[i + 1..]
    && (s.available < s.cfg.maxConcurrency ==> s'.available == s.available + 1 && s'.permits == s.permits + 1)
    && s'.generations == s.generations && s'.active == s.active && s'.lastRefresh == s.lastRefresh
  }

  /** A removed job's execution ends without a trace; a missed run is recorded as skipped and the job
      scheduled anew; any other goes on to its conditions, with the generation read here. */
  lemma BeginSkipsExactly(s: State, i: nat, now: int, later: int)
    requires i < |s.inflight|
    ensures var x, s' := s.inflight[i], Begin(s, i, now, later);
      match Lookup(s.jobs, x.job)
      case None => Leaves(s, s', i) && s'.queue == s.queue && s'.history == s.history
      case Some(job) =>
        if Missed(s.cfg, job, x.scheduledFor, now) then
          && Leaves(s, s', i)
          && Queues(s.queue, s'.queue, job, now, Read(s, job.id), 1)
          && s'.history ==
             LastOf(s.history + [Record(job.id, x.scheduledFor, now, later, x.attempt, Skipped)], s.cfg.historyLimit)
        else
          s' == s.(inflight := s.inflight[i := x.(phase := Evaluating(job, Read(s, job.id), later))])
  {
    var x := s.inflight[i];
    match Lookup(s.jobs, x.job)
    case None =>
    case Some(job) =>
      MissedIsTooLate(s.cfg, job, x.scheduledFor, now);
      SchedulingOnlyPushes(AddRecord(s, SkipRecord(x, job, now, later)), job, now, 1, Read(s, job.id));
  }

  lemma MissedIsTooLate(cfg: Config, job: Job, scheduledFor: int, now: int)
    ensures Missed(cfg, job, scheduledFor, now) <==> TooLate(cfg, job, scheduledFor, now)
  {
  }

  /** A step records a skip exactly when it begins a missed run of a registered job. */
  lemma SkipIsRecordedExactly(w: World, step: Step)
    requires Enabled(w, step)
    ensures (RecordOf(w, step).Some? && RecordOf(w, step).value.status == Skipped) <==>
      && step.BeginAt? && Registered(w.s, w.s.inflight[step.i].job)
      && Missed(w.s.cfg, Lookup(w.s.jobs, w.s.inflight[step.i].job).value, w.s.inflight[step.i].scheduledFor, step.now)
  {
    if step.BeginAt? && Registered(w.s, w.s.inflight[step.i].job) {
      var x := w.s.inflight[step.i];
      MissedIsTooLate(w.s.cfg, Lookup(w.s.jobs, x.job).value, x.scheduledFor, step.now);
    }
  }

  /** Conditions that pass lead to the call, with what was captured; any other outcome is recorded as
      it is and the next occurrence scheduled. */
  lemma DecideGoesOn(s: State, i: nat, outcome: Option<Status>, now: int)
    requires i < |s.inflight| && s.inflight[i].phase.Evaluating?
    ensures var x, s' := s.inflight[i], Decide(s, i, outcome, now);
      var Evaluating(job, captured, startedAt) := x.phase;
      match outcome
      case None => s' == s.(inflight := s.inflight[i := x.(phase := Calling(job, captured, startedAt))])
      case Some(status) =>
        && Leaves(s, s', i)
        && Queues(s.queue, s'.queue, job, now, captured, 1)
        && s'.history ==
           LastOf(s.history + [Record(job.id, x.scheduledFor, startedAt, now, x.attempt, status)], s.cfg.historyLimit)
  {
    if outcome.Some? {
      var x := s.inflight[i];
      var recorded := AddRecord(s, OutcomeRecord(x, outcome.value, now));
      SchedulingOnlyPushes(recorded, x.phase.spec, now, 1, x.phase.generation);
    }
  }

  /** What a finished call queues. Success, or any end without a policy: the next occurrence, as a
      first attempt at the captured generation. A failure under a policy, at the generation read now:
      the next occurrence as a first attempt once the attempts are used up; the next attempt after
      the interval; or, without an interval, at the next occurrence. */
  ghost predicate FollowsUp(s: State, q': seq<QueueEntry>, x: Execution, status: Status, now: int)
    requires x.phase.Calling?
  {
    var Calling(job, captured, _) := x.phase;
    match (status, job.trigger.failPolicy)
    case (Success, _) => Queues(s.queue, q', job, now, captured, 1)
    case (_, None) => Queues(s.queue, q', job, now, captured, 1)
    case (_, Some(FailPolicy(interval, most))) =>
      if most.Some? && x.attempt >= most.value then Queues(s.queue, q', job, now, Read(s, job.id), 1)
      else
        match interval
        case None => Queues(s.queue, q', job, now, Read(s, job.id), x.attempt + 1)
        case Some(d) => q' == Insert(s.queue, QueueEntry(now + d, Read(s, job.id), job.id, x.attempt + 1))
  }

  /** A finished call is recorded with its outcome and followed up. */
  lemma CompleteFollowsUp(s: State, i: nat, status: Status, now: int)
    requires i < |s.inflight| && s.inflight[i].phase.Calling?
    ensures var x, s' := s.inflight[i], Complete(s, i, status, now);
      && Leaves(s, s', i)
      && FollowsUp(s, s'.queue, x, status, now)
      && s'.history == LastOf(
           s.history + [Record(x.phase.spec.id, x.scheduledFor, x.phase.startedAt, now, x.attempt, status)],
           s.cfg.historyLimit)
  {
    var x := s.inflight[i];
    var recorded := AddRecord(s, OutcomeRecord(x, status, now));
    FollowUpOnlyPushes(recorded, x.phase.spec, x.phase.generation, x.attempt, status, now);
  }

  // ------------------------------------------------------------------ refresh

  /** A refresh moves the job to its next generation, marks it active and with its local date, and
      queues its next occurrence as a first attempt at that generation. */
  lemma RefreshQueues(s: State, job: Job, now: int, offset: int)
    requires KeepsOffset(job.trigger, offset)
    ensures var s' := RefreshJob(s, job, now);
      var next := if job.id in s.generations then s.generations[job.id] + 1 else 1;
      && s'.generations == s.generations[job.id := next]
      && s'.active == s.active + {job.id}
      && s'.lastRefresh == s.lastRefresh[job.id := (now + offset) / DAY]
      && Queues(s.queue, s'.queue, job, now, next, 1)
      && s' == s.(queue := s'.queue, generations := s'.generations, active := s'.active, lastRefresh := s'.lastRefresh)
  {
    assert ZoneOf(job.trigger) == Fixed(offset);
  }

  /** A sweep for missing jobs takes those that are not active; one at midnight those that were not
      refreshed within the current day of their own clock. */
  lemma DueExactly(s: State, job: Job, now: int, offset: int)
    requires KeepsOffset(job.trigger, offset)
    ensures Due(s, job, now, Missing) <==> job.id !in s.active
    ensures Due(s, job, now, RolledOver) <==>
      !(job.id in s.lastRefresh && s.lastRefresh[job.id] * DAY <= now + offset < (s.lastRefresh[job.id] + 1) * DAY)
  {
    assert ZoneOf(job.trigger) == Fixed(offset);
    assert (now + offset) / DAY * DAY <= now + offset < ((now + offset) / DAY + 1) * DAY;
  }

  /** An entry is live when its job is registered and it carries the job's current generation. */
  lemma LiveExactly(s: State, e: QueueEntry)
    ensures Live(s, e) <==>
      (exists i :: 0 <= i < |s.jobs| && s.jobs[i].id == e.job)
      && e.job in s.generations && s.generations[e.job] == e.generation
  {
    LookupFinds(s.jobs, e.job);
  }

  /** e is the next occurrence after now of a due job of the list, at the generation after its own. */
  ghost predicate IsFresh(s: State, jobs: seq<Job>, now: int, sweep: Sweep, e: QueueEntry) {
    exists i :: 0 <= i < |jobs| && Due(s, jobs[i], now, sweep) && IsNextOf(s, jobs[i], now, e)
  }

  ghost predicate IsNextOf(s: State, job: Job, now: int, e: QueueEntry) {
    && ResolveAfter(job.trigger, now) == Some(e.when)
    && e == QueueEntry(e.when, if job.id in s.generations then s.generations[job.id] + 1 else 1, job.id, 1)
  }

  lemma FreshOfRest(s: State, s1: State, jobs: seq<Job>, now: int, sweep: Sweep, e: QueueEntry)
    requires UniqueIds(jobs) && jobs != []
    requires TookTurn(s, s1, jobs[0], now, Due(s, jobs[0], now, sweep))
    ensures IsFresh(s, jobs, now, sweep, e) <==>
      IsFresh(s1, jobs[1..], now, sweep, e) || (Due(s, jobs[0], now, sweep) && IsNextOf(s, jobs[0], now, e))
  {
    var rest := jobs[1..];
    OthersStillDue(s, s1, jobs, now, sweep);
    if i :| 0 <= i < |jobs| && Due(s, jobs[i], now, sweep) && IsNextOf(s, jobs[i], now, e) {
      if i > 0 {
        assert rest[i - 1] == jobs[i] && jobs[i].id != jobs[0].id;
        assert Due(s1, rest[i - 1], now, sweep) && IsNextOf(s1, rest[i - 1], now, e);
      }
    }
    if i :| 0 <= i < |rest| && Due(s1, rest[i], now, sweep) && IsNextOf(s1, rest[i], now, e) {
      assert jobs[i + 1] == rest[i] && jobs[i + 1].id != jobs[0].id;
      assert Due(s, jobs[i + 1], now, sweep) && IsNextOf(s, jobs[i + 1], now, e);
    }
  }

  /** A sweep queues exactly the next occurrences of the due jobs. */
  lemma {:induction false} SweepQueues(s: State, jobs: seq<Job>, now: int, sweep: Sweep)
    requires UniqueIds(jobs)
    ensures forall e :: e in RefreshEach(s, jobs, now, sweep).queue <==> e in s.queue || IsFresh(s, jobs, now, sweep, e)
    decreases |jobs|
  {
    if jobs != [] {
      var due := Due(s, jobs[0], now, sweep);
      var s1 := if due then RefreshJob(s, jobs[0], now) else s;
      RefreshTakesTurn(s, jobs[0], now);
      SweepQueues(s1, jobs[1..], now, sweep);
      forall e
        ensures e in RefreshEach(s, jobs, now, sweep).queue <==> e in s.queue || IsFresh(s, jobs, now, sweep, e)
      {
        FreshOfRest(s, s1, jobs, now, sweep, e);
        if due {
          RefreshAddsNext(s, jobs[0], now, e);
        }
      }
    }
  }

  lemma RefreshAddsNext(s: State, job: Job, now: int, e: QueueEntry)
    ensures e in RefreshJob(s, job, now).queue <==> e in s.queue || IsNextOf(s, job, now, e)
  {
    match ResolveAfter(job.trigger, now)
    case None =>
    case Some(when) => InsertHas(s.queue, QueueEntry(when, GetOr(s.generations, job.id, 0) + 1, job.id, 1));
  }

  // -------------------------------------------------------------------- loops

  /** Starting sets the deadline, wakes the loops that are configured, and keeps what ran before. */
  lemma RunStarts(s: State, now: int, until: Option<int>)
    requires UniqueIds(s.jobs)
    ensures var s' := StartRun(s, now, until);
      && s'.running && s'.until == until && s'.run == Looping && s'.queueLoop == Top
      && (s'.midnightLoop == if s.cfg.midnight then Top else Exited)
      && s'.active == s.active + Ids(s.jobs) && s'.inflight == s.inflight && s'.history == s.history
  {
    var s1 := s.(running := true, until := until);
    RefreshEachSwept(s1, s.jobs, now, Missing);
    forall id | id in Ids(s.jobs) ensures id in s.active || id in DueIds(s1, s.jobs, now, Missing) {
      var i :| 0 <= i < |s.jobs| && s.jobs[i].id == id;
      assert id !in s.active ==> Due(s1, s.jobs[i], now, Missing);
    }
    assert s.active + DueIds(s1, s.jobs, now, Missing) == s.active + Ids(s.jobs);
  }

  /** The daemon was stopped, or its deadline has come. */
  predicate Ends(s: State, now: int) {
    !s.running || (s.until.Some? && s.until.value <= now)
  }

  /** A turn of the queue loop ends the loop, and the daemon with it, exactly when the daemon was
      stopped or its deadline has come; otherwise it syncs, and then, by the least live entry, asks for
      a slot if that is due, waits until its time if not, and sleeps if there is none. */
  lemma QueueTurnDecides(s: State, known: map<JobId, Job>, t1: int, t2: int, t3: int)
    requires Fits(s, known)
    ensures var synced, s' := PopulateMissing(s, t2), QueueTop(s, t1, t2, t3);
      && (s'.queueLoop == Exited <==> Ends(s, t1))
      && (s'.running <==> s.running && !Ends(s, t1))
      && (Ends(s, t1) ==> s' == s.(queueLoop := Exited, running := false))
      && (!Ends(s, t1) ==>
            match s'.queueLoop
            case Asleep(None) => forall e :: e in synced.queue ==> !Live(synced, e)
            case Asleep(Some(when)) => t3 < when && exists e :: LeastLive(synced, e) && e.when == when
            case Acquiring => exists e :: LeastLive(synced, e) && e.when <= t3
            case _ => false)
  {
    if !Ends(s, t1) {
      var synced := PopulateMissing(s, t2);
      PopulateMissingFits(s, known, t2);
      RefreshEachSwept(Forget(s), s.jobs, t2, Missing);
      PeekRefines(synced, known);
      if Peek(synced).Some? {
        PeekIsLeastLive(synced);
      }
    }
  }

  lemma PeekIsLeastLive(s: State)
    requires Sorted(s.queue) && Peek(s).Some?
    ensures LeastLive(s, Peek(s).value)
  {
    var k := DropDeadIsTail(s, s.queue);
    FirstLiveIsLeast(s, k);
  }

  /** A turn of the midnight loop ends it when the daemon was stopped; it refreshes the due jobs if some
      are due; else it waits until the first moment at which one will be, and sleeps without jobs. */
  lemma MidnightTurnDecides(s: State, now: int, later: int)
    requires RegularZones(s.jobs)
    ensures var s' := MidnightTop(s, now, later);
      if !s.running then s' == s.(midnightLoop := Exited)
      else if s.jobs == [] then s' == s.(midnightLoop := Asleep(None))
      else if SomeDue(s, s.jobs, now) then s' == RefreshEach(s, s.jobs, later, RolledOver)
      else exists t :: now < t && FirstDue(s, s.jobs, now, t) && s' == s.(midnightLoop := Asleep(Some(t)))
  {
    MidnightIsPlanned(s, s.jobs, now);
    var planned := NextRefreshTime(s, s.jobs, now);
    if s.running && s.jobs != [] && !SomeDue(s, s.jobs, now) {
      assert FirstDue(s, s.jobs, now, planned.value) && now < planned.value;
    }
  }

  /** After a wait it refreshes what is due by then, unless the daemon was stopped; after a plain sleep
      it starts over. */
  lemma MidnightWakeDecides(s: State, now: int)
    requires UniqueIds(s.jobs) && s.midnightLoop.Asleep?
    ensures var s' := MidnightWake(s, now);
      if s.midnightLoop.until.None? then s' == s.(midnightLoop := Top)
      else if !s.running then s' == s.(midnightLoop := Exited)
      else s' == RefreshEach(s, s.jobs, now, RolledOver).(midnightLoop := Top)
  {
  }
}
