/** What every step of every interleaving keeps true of the bookkeeping: job ids are unique and
    never reused, the three per-job tables have the same keys, and no queued or running generation
    is ahead of its job's. */
module WellFormed {
  import opened Options
  import opened QueueEntries
  import opened Schedules
  import opened Daemon
  import opened Machine

  ghost predicate UniqueIds(jobs: seq<Job>) {
    forall i, j :: 0 <= i < j < |jobs| ==> jobs[i].id != jobs[j].id
  }

  ghost predicate JobsKnown(jobs: seq<Job>, known: map<JobId, Job>) {
    forall i :: 0 <= i < |jobs| ==> jobs[i].id in known && known[jobs[i].id] == jobs[i]
  }

  ghost predicate Registered(s: State, id: JobId) {
    Lookup(s.jobs, id).Some?
  }

  /** A generation seen with a job: not ahead of its current one, which exists while it is registered. */
  ghost predicate Within(jobs: seq<Job>, generations: map<JobId, int>, id: JobId, generation: int) {
    && (id in generations ==> generation <= generations[id])
    && (Lookup(jobs, id).Some? ==> id in generations)
  }

  ghost predicate QueueFits(jobs: seq<Job>, generations: map<JobId, int>, known: map<JobId, Job>,
        queue: seq<QueueEntry>) {
    && Sorted(queue)
    && forall i :: 0 <= i < |queue| ==>
      queue[i].job in known && Within(jobs, generations, queue[i].job, queue[i].generation)
  }

  ghost predicate ExecutionFits(jobs: seq<Job>, generations: map<JobId, int>, known: map<JobId, Job>, x: Execution) {
    && x.job in known
    && Within(jobs, generations, x.job, x.entryGeneration)
    && (!x.phase.Dispatched? ==>
          && x.phase.spec == known[x.job] && x.phase.spec.id == x.job
          && Within(jobs, generations, x.job, x.phase.generation))
  }

  ghost predicate InflightFits(jobs: seq<Job>, generations: map<JobId, int>, known: map<JobId, Job>,
        inflight: seq<Execution>) {
    forall i :: 0 <= i < |inflight| ==> ExecutionFits(jobs, generations, known, inflight[i])
  }

  ghost predicate TablesFit(generations: map<JobId, int>, active: set<JobId>, lastRefresh: map<JobId, int>,
        known: map<JobId, Job>) {
    && active == generations.Keys == lastRefresh.Keys
    && active <= known.Keys
  }

  ghost predicate Fits(s: State, known: map<JobId, Job>) {
    && UniqueIds(s.jobs)
    && JobsKnown(s.jobs, known)
    && TablesFit(s.generations, s.active, s.lastRefresh, known)
    && QueueFits(s.jobs, s.generations, known, s.queue)
    && InflightFits(s.jobs, s.generations, known, s.inflight)
  }

  // ------------------------------------------------------------ the registry

  lemma {:induction false} LookupFinds(jobs: seq<Job>, id: JobId)
    ensures match Lookup(jobs, id)
      case None => id !in Ids(jobs)
      case Some(job) => job.id == id && exists i :: 0 <= i < |jobs| && jobs[i] == job
  {
    if jobs != [] && jobs[0].id != id {
      LookupFinds(jobs[1..], id);
      match Lookup(jobs, id)
      case None => assert forall i :: 0 < i < |jobs| ==> jobs[i] == jobs[1..][i - 1];
      case Some(job) =>
        var i :| 0 <= i < |jobs[1..]| && jobs[1..][i] == job;
        assert jobs[i + 1] == job;
    }
  }

  lemma {:induction false} LookupAt(jobs: seq<Job>, i: nat)
    requires UniqueIds(jobs) && i < |jobs|
    ensures Lookup(jobs, jobs[i].id) == Some(jobs[i])
  {
    if i > 0 {
      LookupAt(jobs[1..], i - 1);
    }
  }

  lemma {:induction false} LookupAppend(jobs: seq<Job>, job: Job, id: JobId)
    ensures Lookup(jobs + [job], id) ==
      if Lookup(jobs, id).Some? then Lookup(jobs, id) else if job.id == id then Some(job) else None
  {
    if jobs == [] {
      assert jobs + [job] == [job];
    } else {
      assert (jobs + [job])[1..] == jobs[1..] + [job];
      LookupAppend(jobs[1..], job, id);
    }
  }

  /** Removing an id leaves every other job as it was. */
  lemma {:induction false} LookupWithout(jobs: seq<Job>, gone: JobId, id: JobId)
    ensures Lookup(Without(jobs, gone), id) == if id == gone then None else Lookup(jobs, id)
  {
    if jobs != [] {
      LookupWithout(jobs[1..], gone, id);
    }
  }

  lemma {:induction false} WithoutFrom(jobs: seq<Job>, gone: JobId)
    ensures forall job :: job in Without(jobs, gone) ==> job in jobs
  {
    if jobs != [] {
      WithoutFrom(jobs[1..], gone);
    }
  }

  lemma {:induction false} WithoutKeepsUnique(jobs: seq<Job>, gone: JobId)
    requires UniqueIds(jobs)
    ensures UniqueIds(Without(jobs, gone))
  {
    if jobs != [] {
      var rest := Without(jobs[1..], gone);
      WithoutKeepsUnique(jobs[1..], gone);
      WithoutFrom(jobs[1..], gone);
      forall i | 0 <= i < |rest| ensures rest[i].id != jobs[0].id {
        assert rest[i] in jobs[1..];
      }
    }
  }

  lemma WithoutIsSublist(jobs: seq<Job>, gone: JobId, known: map<JobId, Job>)
    requires UniqueIds(jobs) && JobsKnown(jobs, known)
    ensures UniqueIds(Without(jobs, gone)) && JobsKnown(Without(jobs, gone), known)
  {
    WithoutFrom(jobs, gone);
    WithoutKeepsUnique(jobs, gone);
    forall i | 0 <= i < |Without(jobs, gone)|
      ensures Without(jobs, gone)[i].id in known && known[Without(jobs, gone)[i].id] == Without(jobs, gone)[i]
    {
      assert Without(jobs, gone)[i] in jobs;
    }
  }

  // ------------------------------------------------------------ small pieces

  lemma {:induction false} InsertHas(s: seq<QueueEntry>, e: QueueEntry)
    ensures |Insert(s, e)| == |s| + 1
    ensures forall x :: x in Insert(s, e) <==> x == e || x in s
  {
    InsertAddsOne(s, e);
    var r := Insert(s, e);
    assert |r| == |multiset(r)|;
    forall x ensures x in r <==> x == e || x in s {
      assert x in r <==> x in multiset(r);
      assert x in s <==> x in multiset(s);
    }
  }

  /** What dropping dead entries leaves is a tail: all that goes is dead. */
  lemma {:induction false} DropDeadIsTail(s: State, q: seq<QueueEntry>) returns (k: nat)
    ensures k <= |q| && DropDead(s, q) == q[k..]
    ensures forall i :: 0 <= i < k ==> !Live(s, q[i])
    ensures k < |q| ==> Live(s, q[k])
  {
    if q == [] || Live(s, q[0]) {
      k := 0;
    } else {
      var r := DropDeadIsTail(s, q[1..]);
      k := r + 1;
      forall i | 0 <= i < k ensures !Live(s, q[i]) {
        if i > 0 {
          assert q[i] == q[1..][i - 1];
        }
      }
    }
  }

  /** Which entries are dead depends on the registry and the generations only. */
  lemma {:induction false} DropDeadDependsOn(s: State, s': State, q: seq<QueueEntry>)
    requires s'.jobs == s.jobs && s'.generations == s.generations
    ensures DropDead(s', q) == DropDead(s, q)
  {
    if q != [] {
      DropDeadDependsOn(s, s', q[1..]);
    }
  }

  // ----------------------------------------------- what the pieces of a step keep

  lemma PushFits(s: State, known: map<JobId, Job>, when: int, id: JobId, attempt: int, generation: int)
    requires Fits(s, known) && id in known && Within(s.jobs, s.generations, id, generation)
    ensures Fits(Push(s, when, id, attempt, generation), known)
  {
    var e := QueueEntry(when, generation, id, attempt);
    var s' := Push(s, when, id, attempt, generation);
    InsertHas(s.queue, e);
    InsertKeepsOrder(s.queue, e);
    forall i | 0 <= i < |s'.queue|
      ensures s'.queue[i].job in known && Within(s'.jobs, s'.generations, s'.queue[i].job, s'.queue[i].generation)
    {
      assert s'.queue[i] in s'.queue;
    }
  }

  lemma ScheduleNextFits(s: State, known: map<JobId, Job>, job: Job, after: int, attempt: int, generation: int)
    requires Fits(s, known) && job.id in known && Within(s.jobs, s.generations, job.id, generation)
    ensures Fits(ScheduleNext(s, job, after, attempt, generation), known)
  {
    match ResolveAfter(job.trigger, after)
    case None =>
    case Some(when) => PushFits(s, known, when, job.id, attempt, generation);
  }

  lemma ScheduleRetryFits(s: State, known: map<JobId, Job>, job: Job, now: int, attempt: int)
    requires Fits(s, known) && job.id in known && (Registered(s, job.id) ==> job.id in s.generations)
    ensures Fits(ScheduleRetry(s, job, now, attempt), known)
  {
    var generation := GetOr(s.generations, job.id, 1);
    match job.trigger.failPolicy
    case None => ScheduleNextFits(s, known, job, now, attempt + 1, generation);
    case Some(policy) =>
      ScheduleNextFits(s, known, job, now, 1, generation);
      ScheduleNextFits(s, known, job, now, attempt + 1, generation);
      if policy.retryInterval.Some? {
        PushFits(s, known, now + policy.retryInterval.value, job.id, attempt + 1, generation);
      }
  }

  lemma RefreshJobFits(s: State, known: map<JobId, Job>, job: Job, now: int)
    requires Fits(s, known) && Lookup(s.jobs, job.id) == Some(job)
    ensures Fits(RefreshJob(s, job, now), known)
  {
    LookupFinds(s.jobs, job.id);
    var b := Bump(s, job, now);
    assert forall id, g :: Within(s.jobs, s.generations, id, g) ==> Within(b.jobs, b.generations, id, g);
    assert Fits(b, known);
    ScheduleNextFits(b, known, job, now, 1, GetOr(s.generations, job.id, 0) + 1);
  }

  /** A sweep changes neither the registry nor what is in flight. */
  lemma {:induction false} RefreshEachFits(s: State, known: map<JobId, Job>, jobs: seq<Job>, now: int, sweep: Sweep)
    requires Fits(s, known) && forall i :: 0 <= i < |jobs| ==> Lookup(s.jobs, jobs[i].id) == Some(jobs[i])
    ensures Fits(RefreshEach(s, jobs, now, sweep), known)
    decreases |jobs|
  {
    if jobs != [] {
      var s1 := if Due(s, jobs[0], now, sweep) then RefreshJob(s, jobs[0], now) else s;
      RefreshJobFits(s, known, jobs[0], now);
      RefreshEachFits(s1, known, jobs[1..], now, sweep);
    }
  }

  lemma SweepFits(s: State, known: map<JobId, Job>, now: int, sweep: Sweep)
    requires Fits(s, known)
    ensures Fits(RefreshEach(s, s.jobs, now, sweep), known)
  {
    forall i | 0 <= i < |s.jobs| ensures Lookup(s.jobs, s.jobs[i].id) == Some(s.jobs[i]) {
      LookupAt(s.jobs, i);
    }
    RefreshEachFits(s, known, s.jobs, now, sweep);
  }

  lemma ForgetFits(s: State, known: map<JobId, Job>)
    requires Fits(s, known)
    ensures Fits(Forget(s), known)
  {
    var s' := Forget(s);
    forall id, g | Within(s.jobs, s.generations, id, g) ensures Within(s'.jobs, s'.generations, id, g) {
      LookupFinds(s.jobs, id);
    }
  }

  lemma PopulateMissingFits(s: State, known: map<JobId, Job>, now: int)
    requires Fits(s, known)
    ensures Fits(PopulateMissing(s, now), known)
  {
    ForgetFits(s, known);
    SweepFits(Forget(s), known, now, Missing);
  }

  lemma PurgeFits(s: State, known: map<JobId, Job>)
    requires Fits(s, known)
    ensures Fits(Purge(s), known)
    ensures Purge(s).queue == [] || Live(s, Purge(s).queue[0])
  {
    var k := DropDeadIsTail(s, s.queue);
  }

  lemma DispatchFits(s: State, known: map<JobId, Job>)
    requires Fits(s, known) && s.queue != []
    ensures Fits(Dispatch(s), known)
  {
    assert forall id, g :: Within(s.jobs, s.generations, id, g) ==>
      Within(Dispatch(s).jobs, Dispatch(s).generations, id, g);
  }

  lemma FinishFits(s: State, known: map<JobId, Job>, i: nat)
    requires Fits(s, known) && i < |s.inflight|
    ensures Fits(Finish(s, i), known)
  {
    var s' := Finish(s, i);
    forall k | 0 <= k < |s'.inflight| ensures ExecutionFits(s'.jobs, s'.generations, known, s'.inflight[k]) {
      assert ExecutionFits(s.jobs, s.generations, known, s.inflight[if k < i then k else k + 1]);
    }
  }

  lemma EnterFits(s: State, known: map<JobId, Job>, i: nat, phase: Phase)
    requires Fits(s, known) && i < |s.inflight| && !phase.Dispatched?
    requires phase.spec.id == s.inflight[i].job && phase.spec == known[phase.spec.id]
    requires Within(s.jobs, s.generations, phase.spec.id, phase.generation)
    ensures Fits(Enter(s, i, phase), known)
  {
    var s' := Enter(s, i, phase);
    forall k | 0 <= k < |s'.inflight| ensures ExecutionFits(s'.jobs, s'.generations, known, s'.inflight[k]) {
      assert ExecutionFits(s.jobs, s.generations, known, s.inflight[k]);
    }
  }

  // --------------------------------------------------------------- the steps

  lemma BeginFits(s: State, known: map<JobId, Job>, i: nat, now: int, later: int)
    requires Fits(s, known) && i < |s.inflight|
    ensures Fits(Begin(s, i, now, later), known)
  {
    var x := s.inflight[i];
    assert ExecutionFits(s.jobs, s.generations, known, x);
    LookupFinds(s.jobs, x.job);
    match Lookup(s.jobs, x.job)
    case None => FinishFits(s, known, i);
    case Some(job) =>
      var generation := GetOr(s.generations, job.id, 1);
      if TooLate(s.cfg, job, x.scheduledFor, now) {
        var s1 := AddRecord(s, SkipRecord(x, job, now, later));
        assert Fits(s1, known);
        ScheduleNextFits(s1, known, job, now, 1, generation);
        FinishFits(ScheduleNext(s1, job, now, 1, generation), known, i);
      } else {
        EnterFits(s, known, i, Evaluating(job, generation, later));
      }
  }

  lemma DecideFits(s: State, known: map<JobId, Job>, i: nat, outcome: Option<Status>, now: int)
    requires Fits(s, known) && i < |s.inflight| && s.inflight[i].phase.Evaluating?
    ensures Fits(Decide(s, i, outcome, now), known)
  {
    var x := s.inflight[i];
    assert ExecutionFits(s.jobs, s.generations, known, x);
    var Evaluating(spec, generation, startedAt) := x.phase;
    match outcome
    case None => EnterFits(s, known, i, Calling(spec, generation, startedAt));
    case Some(status) =>
      var s1 := AddRecord(s, OutcomeRecord(x, status, now));
      assert Fits(s1, known);
      ScheduleNextFits(s1, known, spec, now, 1, generation);
      FinishFits(ScheduleNext(s1, spec, now, 1, generation), known, i);
  }

  lemma CompleteFits(s: State, known: map<JobId, Job>, i: nat, status: Status, now: int)
    requires Fits(s, known) && i < |s.inflight| && s.inflight[i].phase.Calling?
    ensures Fits(Complete(s, i, status, now), known)
  {
    var x := s.inflight[i];
    assert ExecutionFits(s.jobs, s.generations, known, x);
    var Calling(spec, generation, _) := x.phase;
    var s1 := AddRecord(s, OutcomeRecord(x, status, now));
    assert Fits(s1, known);
    ScheduleNextFits(s1, known, spec, now, 1, generation);
    ScheduleRetryFits(s1, known, spec, now, x.attempt);
    FinishFits(FollowUp(s1, spec, generation, x.attempt, status, now), known, i);
  }

  lemma RegisterFits(s: State, known: map<JobId, Job>, job: Job)
    requires Fits(s, known) && job.id !in known
    ensures Fits(s.(jobs := s.jobs + [job]), known[job.id := job])
  {
    var s' := s.(jobs := s.jobs + [job]);
    forall id, g | Within(s.jobs, s.generations, id, g) && id in known ensures Within(s'.jobs, s'.generations, id, g) {
      LookupAppend(s.jobs, job, id);
    }
  }

  lemma RemoveFits(s: State, known: map<JobId, Job>, id: JobId)
    requires Fits(s, known)
    ensures Fits(s.(jobs := Without(s.jobs, id)), known)
  {
    var s' := s.(jobs := Without(s.jobs, id));
    WithoutIsSublist(s.jobs, id, known);
    forall j, g | Within(s.jobs, s.generations, j, g) ensures Within(s'.jobs, s'.generations, j, g) {
      LookupWithout(s.jobs, id, j);
    }
  }

  lemma QueueTopFits(s: State, known: map<JobId, Job>, t1: int, t2: int, t3: int)
    requires Fits(s, known)
    ensures Fits(QueueTop(s, t1, t2, t3), known)
  {
    PopulateMissingFits(s, known, t2);
    PurgeFits(PopulateMissing(s, t2), known);
  }

  lemma QueueSlotFits(s: State, known: map<JobId, Job>, now: int)
    requires Fits(s, known)
    ensures Fits(QueueSlot(s, now), known)
  {
    var s1 := TakeSlot(s);
    PurgeFits(s1, known);
    var s2 := Purge(s1).(queueLoop := Top);
    assert Fits(s2, known);
    if s2.queue != [] {
      DispatchFits(s2, known);
    }
  }

  lemma MidnightFits(s: State, known: map<JobId, Job>, now: int, later: int)
    requires Fits(s, known)
    ensures Fits(MidnightTop(s, now, later), known) && Fits(MidnightWake(s, later), known)
  {
    SweepFits(s, known, later, RolledOver);
  }

  lemma StartRunFits(s: State, known: map<JobId, Job>, now: int, until: Option<int>)
    requires Fits(s, known)
    ensures Fits(StartRun(s, now, until), known)
  {
    var s1 := s.(running := true, until := until);
    assert Fits(s1, known);
    SweepFits(s1, known, now, Missing);
  }

  /** Every step keeps the bookkeeping together. */
  lemma StepFits(w: World, step: Step)
    requires Fits(w.s, w.known) && Enabled(w, step)
    ensures Fits(Next(w, step).s, Next(w, step).known)
  {
    var s, known := w.s, w.known;
    match step
    case Register(job) => RegisterFits(s, known, job);
    case Remove(id) => RemoveFits(s, known, id);
    case Clear => assert forall id, g :: Within(s.jobs, s.generations, id, g) ==> Within([], s.generations, id, g);
    case SyncRegistry(now) => PopulateMissingFits(s, known, now);
    case RefreshCall(id, now) =>
      LookupFinds(s.jobs, id);
      if Lookup(s.jobs, id).Some? {
        RefreshJobFits(s, known, Lookup(s.jobs, id).value, now);
      }
    case PeekNext => PurgeFits(s, known);
    case StopCall =>
    case Borrow =>
    case GiveBack =>
    case Run(now, until) => StartRunFits(s, known, now, until);
    case Drain =>
    case Return =>
    case QueueTurn(now, t2, t3) => QueueTopFits(s, known, now, t2, t3);
    case QueueWake(_) =>
    case QueueGrant(now) => QueueSlotFits(s, known, now);
    case QueuePoll =>
    case MidnightTurn(now, later) => MidnightFits(s, known, now, later);
    case MidnightWakes(now) => MidnightFits(s, known, now, now);
    case BeginAt(i, now, later) => BeginFits(s, known, i, now, later);
    case DecideAt(i, outcome, now) => DecideFits(s, known, i, outcome, now);
    case CompleteAt(i, status, now) => CompleteFits(s, known, i, status, now);
    case AbortAt(i) => FinishFits(s, known, i);
  }

  lemma {:induction false} RunFits(w: World, steps: seq<Step>)
    requires Fits(w.s, w.known) && Runs(w, steps)
    ensures Fits(After(w, steps).s, After(w, steps).known)
    decreases |steps|
  {
    if steps != [] {
      StepFits(w, steps[0]);
      RunFits(Next(w, steps[0]), steps[1..]);
    }
  }
}
