/** The registry and the execution loop as objects that update their fields in place. Each method
    is one atomic segment and does to `View()` exactly what `Daemon` says; the queue is a heap. */
module ExecutionLoops {
  import opened BoundedDeques
  import opened BinaryHeap
  import opened IntSets
  import opened Options
  import opened QueueEntries
  import opened Schedules
  import opened Daemon
  import opened Machine

  /** `FuzzyCron`: the jobs in registration order, as a dictionary keeps them. */
  class FuzzyCron {
    var jobs: seq<Job>
    var revision: nat

    constructor ()
      ensures jobs == [] && revision == 0
    {
      jobs, revision := [], 0;
    }

    /** `register`, with the identifier drawn by `uuid4`. */
    method Register(id: JobId, trigger: LazySchedule, maxLatency: Option<int>) returns (job: Job)
      modifies this
      ensures job == Job(id, trigger, maxLatency)
      ensures jobs == old(jobs) + [job] && revision == old(revision) + 1
    {
      job := Job(id, trigger, maxLatency);
      jobs := jobs + [job];
      revision := revision + 1;
    }

    /** `remove`: the revision moves only when a job goes. */
    method Remove(id: JobId)
      modifies this
      ensures jobs == Without(old(jobs), id)
      ensures revision == old(revision) + if Lookup(old(jobs), id).Some? then 1 else 0
    {
      if Lookup(jobs, id).Some? {
        jobs := Without(jobs, id);
        revision := revision + 1;
      } else {
        WithoutUnknown(jobs, id);
      }
    }

    /** `clear`. */
    method Clear()
      modifies this
      ensures jobs == []
      ensures revision == old(revision) + if old(jobs) == [] then 0 else 1
    {
      if |jobs| > 0 {
        jobs := [];
        revision := revision + 1;
      }
    }
  }

  lemma {:induction false} WithoutUnknown(jobs: seq<Job>, id: JobId)
    requires Lookup(jobs, id).None?
    ensures Without(jobs, id) == jobs
  {
    if jobs != [] {
      WithoutUnknown(jobs[1..], id);
    }
  }

  class ExecutionLoop {
    const cfg: Config
    const registry: FuzzyCron
    var queue: seq<QueueEntry>
    var generations: map<JobId, int>
    var active: set<JobId>
    var lastRefresh: map<JobId, int>
    var running: bool
    var until: Option<int>
    var permits: int
    var available: int
    var inflight: seq<Execution>
    var nextTask: nat
    var history: seq<Record>
    var queueLoop: LoopAt
    var midnightLoop: LoopAt
    var run: RunAt

    /** The queue in order; `queue` lays out the same entries as a heap. */
    ghost var ordered: seq<QueueEntry>

    ghost predicate Valid() reads this {
      IsHeap(queue) && Sorted(ordered) && multiset(ordered) == multiset(queue)
    }

    ghost function View(): State reads this, registry {
      State(cfg, registry.jobs, ordered, generations, active, lastRefresh, running, until,
                  permits, available, inflight, nextTask, history, queueLoop, midnightLoop, run)
    }

    constructor (registry: FuzzyCron, cfg: Config)
      ensures Valid() && this.registry == registry
      ensures View() == NewState(cfg).(jobs := registry.jobs)
    {
      this.cfg, this.registry := cfg, registry;
      queue, ordered, generations, active, lastRefresh := [], [], map[], {}, map[];
      running, until := false, None;
      permits, available := cfg.maxConcurrency, cfg.maxConcurrency;
      inflight, nextTask, history := [], 0, [];
      queueLoop, midnightLoop, run := Exited, Exited, Idle;
    }

    /** The constructor's checks: null stands for its `ValueError`. */
    static method Create(registry: FuzzyCron, maxConcurrency: int, historyLimit: int, maxLatency: Option<int>,
          midnight: bool)
      returns (loop: ExecutionLoop?)
      ensures loop == null <==> maxConcurrency < 1 || historyLimit < 0
      ensures loop != null ==>
        && fresh(loop) && loop.Valid() && loop.registry == registry
        && loop.View() == NewState(Config(maxConcurrency, historyLimit, maxLatency, midnight)).(jobs := registry.jobs)
    {
      if maxConcurrency < 1 || historyLimit < 0 {
        return null;
      }
      loop := new ExecutionLoop(registry, Config(maxConcurrency, historyLimit, maxLatency, midnight));
    }

    // ------------------------------------------------------------ scheduling

    /** `_push`. */
    method PushEntry(when: int, id: JobId, attempt: int, generation: int)
      requires Valid()
      modifies this`queue, this`ordered
      ensures Valid() && View() == Push(old(View()), when, id, attempt, generation)
    {
      var e := QueueEntry(when, generation, id, attempt);
      queue := HeapPush(queue, e);
      InsertAddsOne(ordered, e);
      InsertKeepsOrder(ordered, e);
      ordered := Insert(ordered, e);
    }

    /** `_schedule_next`. */
    method ScheduleNextOf(job: Job, after: int, attempt: int, generation: int)
      requires Valid()
      modifies this`queue, this`ordered
      ensures Valid() && View() == ScheduleNext(old(View()), job, after, attempt, generation)
    {
      var nextAt := Resolve(job.trigger, after);
      if nextAt.Some? {
        PushEntry(nextAt.value, job.id, attempt, generation);
      }
    }

    /** `_schedule_retry`. */
    method ScheduleRetryOf(job: Job, now: int, attempt: int)
      requires Valid()
      modifies this`queue, this`ordered
      ensures Valid() && View() == ScheduleRetry(old(View()), job, now, attempt)
    {
      ghost var before := View();
      var generation := GetOr(generations, job.id, 1);
      match job.trigger.failPolicy
      case None =>
        ScheduleNextOf(job, now, attempt + 1, generation);
      case Some(policy) =>
        if policy.maxAttempts.Some? && attempt >= policy.maxAttempts.value {
          ScheduleNextOf(job, now, 1, generation);
        } else if policy.retryInterval.None? {
          ScheduleNextOf(job, now, attempt + 1, generation);
        } else {
          PushEntry(now + policy.retryInterval.value, job.id, attempt + 1, generation);
          assert View() == Push(before, now + policy.retryInterval.value, job.id, attempt + 1, generation);
        }
    }

    /** The bookkeeping of `_refresh_job`. */
    method BumpJob(job: Job, now: int) returns (generation: int)
      requires Valid()
      modifies this`generations, this`active, this`lastRefresh
      ensures Valid() && View() == Bump(old(View()), job, now)
      ensures generation == GetOr(old(generations), job.id, 0) + 1
    {
      generation := GetOr(generations, job.id, 0) + 1;
      generations := generations[job.id := generation];
      active := active + {job.id};
      lastRefresh := lastRefresh[job.id := LocalDate(job, now)];
    }

    /** `_refresh_job`. */
    method Refresh(job: Job, now: int)
      requires Valid()
      modifies this`queue, this`ordered, this`generations, this`active, this`lastRefresh
      ensures Valid() && View() == RefreshJob(old(View()), job, now)
    {
      var generation := BumpJob(job, now);
      ScheduleNextOf(job, now, 1, generation);
    }

    /** The loop shared by `_populate_all`, `_populate_missing` and `_refresh_due_jobs`. */
    method SweepJobs(now: int, sweep: Sweep)
      requires Valid()
      modifies this`queue, this`ordered, this`generations, this`active, this`lastRefresh
      ensures Valid() && View() == RefreshEach(old(View()), registry.jobs, now, sweep)
    {
      var jobs := registry.jobs;
      for k := 0 to |jobs|
        invariant Valid() && registry.jobs == jobs
        invariant RefreshEach(View(), jobs[k..], now, sweep) == RefreshEach(old(View()), jobs, now, sweep)
      {
        assert jobs[k..][0] == jobs[k] && jobs[k..][1..] == jobs[k + 1..];
        var due := match sweep
          case Missing => jobs[k].id !in active
          case RolledOver => Get(lastRefresh, jobs[k].id) != Some(LocalDate(jobs[k], now));
        if due {
          Refresh(jobs[k], now);
        }
      }
    }

    /** The first half of `_populate_missing`. */
    method ForgetRemoved()
      requires Valid()
      modifies this`generations, this`active, this`lastRefresh
      ensures Valid() && View() == Forget(old(View()))
    {
      var gone := active - Ids(registry.jobs);
      ghost var all := gone;
      while |gone| > 0
        invariant gone <= all
        invariant active == old(active) - (all - gone)
        invariant generations == old(generations) - (all - gone)
        invariant lastRefresh == old(lastRefresh) - (all - gone)
        decreases gone
      {
        ghost var some := AnyOf(gone);
        var id :| id in gone;
        active := active - {id};
        generations := generations - {id};
        lastRefresh := lastRefresh - {id};
        assert (all - gone) + {id} == all - (gone - {id});
        gone := gone - {id};
      }
      assert all - gone == all;
    }

    /** `_populate_missing`, public as `sync_registry`. */
    method PopulateMissingJobs(now: int)
      requires Valid()
      modifies this`queue, this`ordered, this`generations, this`active, this`lastRefresh
      ensures Valid() && View() == PopulateMissing(old(View()), now)
    {
      ForgetRemoved();
      SweepJobs(now, Missing);
    }

    /** Public `refresh_job`. */
    method RefreshKnown(id: JobId, now: int)
      requires Valid()
      modifies this`queue, this`ordered, this`generations, this`active, this`lastRefresh
      ensures Valid() && View() == RefreshById(old(View()), id, now)
    {
      var job := Lookup(registry.jobs, id);
      if job.None? {
        return;
      }
      Refresh(job.value, now);
    }

    /** `heappop(_queue)`: the root goes, which is the first entry in order. */
    method PopRoot()
      requires Valid() && queue != []
      modifies this`queue, this`ordered
      ensures Valid() && |queue| < |old(queue)|
      ensures old(ordered) == [old(queue)[0]] + ordered
    {
      RootIsLeast(queue);
      LeastComesFirst(queue, ordered, queue[0]);
      assert |multiset(ordered)| == |ordered| && |multiset(queue)| == |queue|;
      queue := HeapPop(queue);
      ordered := ordered[1..];
      assert |multiset(ordered)| == |ordered| && |multiset(queue)| == |queue|;
    }

    /** `_peek_valid`: dead entries are discarded when they reach the root. */
    method PeekValid() returns (r: Option<QueueEntry>)
      requires Valid()
      modifies this`queue, this`ordered
      ensures Valid() && View() == Purge(old(View())) && r == Peek(old(View()))
      ensures r.Some? ==> queue != [] && queue[0] == r.value && ordered != []
    {
      ghost var s0 := View();
      while |queue| > 0
        invariant Valid()
        invariant DropDead(s0, ordered) == DropDead(s0, s0.queue)
        decreases |queue|
      {
        var entry := queue[0];
        RootIsLeast(queue);
        LeastComesFirst(queue, ordered, entry);
        if Lookup(registry.jobs, entry.job).None? || Get(generations, entry.job) != Some(entry.generation) {
          assert !Live(s0, entry);
          PopRoot();
        } else {
          assert Live(s0, entry);
          return Some(entry);
        }
      }
      assert |multiset(ordered)| == |ordered|;
      return None;
    }

    // -------------------------------------------------------------- midnight

    /** `_next_refresh_time`. */
    method NextRefresh(now: int) returns (r: Option<int>)
      requires Valid()
      ensures r == NextRefreshTime(View(), registry.jobs, now)
    {
      r := None;
      var jobs := registry.jobs;
      for k := 0 to |jobs|
        invariant !SomeDue(View(), jobs[..k], now) && r == EarliestMidnight(jobs[..k], now)
      {
        if Get(lastRefresh, jobs[k].id) != Some(LocalDate(jobs[k], now)) {
          assert Due(View(), jobs[k], now, RolledOver);
          return Some(now);
        }
        assert jobs[..k + 1][..k] == jobs[..k];
        assert forall i :: 0 <= i <= k ==> jobs[..k + 1][i] == if i < k then jobs[..k][i] else jobs[k];
        var midnight := NextMidnight(jobs[k], now);
        if r.None? || midnight < r.value {
          r := Some(midnight);
        }
      }
      assert jobs[..|jobs|] == jobs;
    }

    // ----------------------------------------------------------------- slots

    /** The counting half of acquiring a slot; the semaphore has a permit. */
    method AcquireSlot()
      requires Valid() && permits > 0
      modifies this`permits, this`available
      ensures Valid() && View() == TakeSlot(old(View()))
    {
      permits := permits - 1;
      available := available - 1;
    }

    /** `release_concurrency_slot`. */
    method ReleaseConcurrencySlot()
      requires Valid()
      modifies this`permits, this`available
      ensures Valid() && View() == ReleaseSlot(old(View()))
    {
      if available < cfg.maxConcurrency {
        permits := permits + 1;
        available := available + 1;
      }
    }

    /** `stop`. */
    method StopLoop()
      requires Valid()
      modifies this`running
      ensures Valid() && View() == Stop(old(View()))
    {
      running := false;
    }

    // ----------------------------------------------------------------- loops

    method SetRunning(until: Option<int>)
      requires Valid()
      modifies this`running, this`until
      ensures Valid() && View() == old(View()).(running := true, until := until)
    {
      running := true;
      this.until := until;
    }

    /** The loops are created. */
    method EnterLoops()
      requires Valid()
      modifies this`run, this`queueLoop, this`midnightLoop
      ensures Valid() && View() ==
        old(View()).(run := Looping, queueLoop := Top, midnightLoop := if cfg.midnight then Top else Exited)
    {
      run := Looping;
      queueLoop := Top;
      midnightLoop := if cfg.midnight then Top else Exited;
    }

    /** `run` up to its first suspension. */
    method Start(now: int, until: Option<int>)
      requires Valid()
      modifies this`queue, this`ordered, this`generations, this`active, this`lastRefresh
      modifies this`running, this`until, this`run, this`queueLoop, this`midnightLoop
      ensures Valid() && View() == StartRun(old(View()), now, until)
    {
      SetRunning(until);
      SweepJobs(now, Missing);
      EnterLoops();
    }

    /** The queue loop's look at the registry and the queue. */
    method SyncAndPeek(now: int) returns (entry: Option<QueueEntry>)
      requires Valid()
      modifies this`queue, this`ordered, this`generations, this`active, this`lastRefresh
      ensures Valid() && View() == Purge(PopulateMissing(old(View()), now))
      ensures entry == Peek(PopulateMissing(old(View()), now))
    {
      PopulateMissingJobs(now);
      entry := PeekValid();
    }

    /** `_queue_loop` from its top to its next suspension. */
    method QueueLoopTurn(t1: int, t2: int, t3: int)
      requires Valid()
      modifies this`queue, this`ordered, this`generations, this`active, this`lastRefresh, this`queueLoop, this`running
      ensures Valid() && View() == QueueTop(old(View()), t1, t2, t3)
    {
      if !running {
        queueLoop := Exited;
        return;
      }
      if until.Some? && t1 >= until.value {
        StopLoop();
        queueLoop := Exited;
        return;
      }
      var entry := SyncAndPeek(t2);
      ghost var looked := View();
      match entry
      case None => queueLoop := Asleep(None);
      case Some(e) => queueLoop := if e.when > t3 then Asleep(Some(e.when)) else Acquiring;
      assert View() == looked.(queueLoop := queueLoop);
    }

    /** Pops the root and starts its execution. */
    method DispatchRoot()
      requires Valid() && queue != [] && ordered != []
      modifies this`queue, this`ordered, this`inflight, this`nextTask
      ensures Valid() && View() == Dispatch(old(View()))
    {
      var e := queue[0];
      PopRoot();
      inflight := inflight + [Execution(nextTask, e.job, e.when, e.attempt, e.generation, Dispatched)];
      nextTask := nextTask + 1;
    }

    /** `_queue_loop` once it has been given a slot. */
    method QueueLoopGranted(now: int)
      requires Valid() && permits > 0
      modifies this`queue, this`ordered, this`queueLoop, this`inflight, this`nextTask, this`permits, this`available
      ensures Valid() && View() == QueueSlot(old(View()), now)
    {
      ghost var s1 := TakeSlot(View());
      AcquireSlot();
      var entry := PeekValid();
      queueLoop := Top;
      assert View() == Purge(s1).(queueLoop := Top);
      if entry.None? || entry.value.when > now {
        ReleaseConcurrencySlot();
        return;
      }
      DispatchRoot();
    }

    /** `_midnight_loop` from its top to its next suspension or refresh. */
    method MidnightLoopTurn(now: int, later: int)
      requires Valid()
      modifies this`queue, this`ordered, this`generations, this`active, this`lastRefresh, this`midnightLoop
      ensures Valid() && View() == MidnightTop(old(View()), now, later)
    {
      if !running {
        midnightLoop := Exited;
        return;
      }
      var next := NextRefresh(now);
      if next.None? {
        midnightLoop := Asleep(None);
      } else if next.value > now {
        midnightLoop := Asleep(next);
      } else {
        SweepJobs(later, RolledOver);
      }
    }

    /** `_midnight_loop` after a sleep. */
    method MidnightLoopWakes(now: int)
      requires Valid() && midnightLoop.Asleep?
      modifies this`queue, this`ordered, this`generations, this`active, this`lastRefresh, this`midnightLoop
      ensures Valid() && View() == MidnightWake(old(View()), now)
    {
      if midnightLoop.until.None? {
        midnightLoop := Top;
      } else if !running {
        midnightLoop := Exited;
      } else {
        SweepJobs(now, RolledOver);
        midnightLoop := Top;
      }
    }

    // ------------------------------------------------------------- execution

    /** `_record`. */
    method AppendRecord(r: Record)
      requires Valid()
      modifies this`history
      ensures Valid() && View() == AddRecord(old(View()), r)
    {
      history := LastOf(history + [r], cfg.historyLimit);
    }

    /** The end of `_execute_entry`. */
    method FinishExecution(i: nat)
      requires Valid() && i < |inflight|
      modifies this`inflight, this`permits, this`available
      ensures Valid() && View() == Finish(old(View()), i)
    {
      inflight := inflight[..i] + inflight[i + 1..];
      ReleaseConcurrencySlot();
    }

    /** `_execute` up to evaluating the conditions. */
    method BeginExecution(i: nat, now: int, later: int)
      requires Valid() && i < |inflight|
      modifies this`queue, this`ordered, this`history, this`inflight, this`permits, this`available
      ensures Valid() && View() == Begin(old(View()), i, now, later)
    {
      var x := inflight[i];
      var job := Lookup(registry.jobs, x.job);
      if job.None? {
        FinishExecution(i);
        return;
      }
      var generation := GetOr(generations, job.value.id, 1);
      if TooLate(cfg, job.value, x.scheduledFor, now) {
        AppendRecord(Record(job.value.id, x.scheduledFor, now, later, x.attempt, Skipped));
        ScheduleNextOf(job.value, now, 1, generation);
        FinishExecution(i);
        return;
      }
      inflight := inflight[i := x.(phase := Evaluating(job.value, generation, later))];
    }

    /** `_execute` once the conditions are decided. */
    method DecideExecution(i: nat, outcome: Option<Status>, now: int)
      requires Valid() && i < |inflight| && inflight[i].phase.Evaluating?
      modifies this`queue, this`ordered, this`history, this`inflight, this`permits, this`available
      ensures Valid() && View() == Decide(old(View()), i, outcome, now)
    {
      var x := inflight[i];
      var Evaluating(spec, generation, startedAt) := x.phase;
      if outcome.None? {
        inflight := inflight[i := x.(phase := Calling(spec, generation, startedAt))];
        return;
      }
      AppendRecord(Record(spec.id, x.scheduledFor, startedAt, now, x.attempt, outcome.value));
      ScheduleNextOf(spec, now, 1, generation);
      FinishExecution(i);
    }

    /** `_execute` once the job function has returned, raised or timed out. */
    method CompleteExecution(i: nat, status: Status, now: int)
      requires Valid() && i < |inflight| && inflight[i].phase.Calling?
      modifies this`queue, this`ordered, this`history, this`inflight, this`permits, this`available
      ensures Valid() && View() == Complete(old(View()), i, status, now)
    {
      var x := inflight[i];
      var Calling(spec, generation, startedAt) := x.phase;
      AppendRecord(Record(spec.id, x.scheduledFor, startedAt, now, x.attempt, status));
      if status == Success {
        ScheduleNextOf(spec, now, 1, generation);
      } else if spec.trigger.failPolicy.Some? {
        ScheduleRetryOf(spec, now, x.attempt);
      } else {
        ScheduleNextOf(spec, now, 1, generation);
      }
      FinishExecution(i);
    }

    // --------------------------------------------------------------- one step

    /** The rest of `run`: gather what is in flight, then return. */
    method GatherInflight()
      requires Valid()
      modifies this`run
      ensures Valid() && View() == old(View()).(run := Draining(Awaited(old(inflight))))
    {
      run := Draining(Awaited(inflight));
    }

    method ReturnFromRun()
      requires Valid()
      modifies this`run, this`running
      ensures Valid() && View() == old(View()).(run := Idle, running := false)
    {
      run := Idle;
      running := false;
    }

    method QueueLoopToTop()
      requires Valid()
      modifies this`queueLoop
      ensures Valid() && View() == old(View()).(queueLoop := Top)
    {
      queueLoop := Top;
    }

    /** A step of one of the daemon's own tasks. */
    method TakeOwnStep(ghost w: World, step: Step)
      requires Valid() && w.s == View() && Enabled(w, step) && !step.Register? && !step.Remove? && !step.Clear?
      modifies this
      ensures Valid() && View() == StateAfter(w, step)
    {
      match step
      case SyncRegistry(now) => PopulateMissingJobs(now);
      case RefreshCall(id, now) => RefreshKnown(id, now);
      case PeekNext => var _ := PeekValid();
      case StopCall => StopLoop();
      case Borrow => AcquireSlot();
      case GiveBack => ReleaseConcurrencySlot();
      case Run(now, until) => Start(now, until);
      case Drain => GatherInflight();
      case Return => ReturnFromRun();
      case QueueTurn(now, t2, t3) => QueueLoopTurn(now, t2, t3);
      case QueueWake(_) => QueueLoopToTop();
      case QueueGrant(now) => QueueLoopGranted(now);
      case QueuePoll => QueueLoopToTop();
      case MidnightTurn(now, later) => MidnightLoopTurn(now, later);
      case MidnightWakes(now) => MidnightLoopWakes(now);
      case BeginAt(i, now, later) => BeginExecution(i, now, later);
      case DecideAt(i, outcome, now) => DecideExecution(i, outcome, now);
      case CompleteAt(i, status, now) => CompleteExecution(i, status, now);
      case AbortAt(i) => FinishExecution(i);
    }

    /** An edit of the registry. */
    method EditRegistry(ghost w: World, step: Step)
      requires Valid() && w.s == View() && Enabled(w, step) && (step.Register? || step.Remove? || step.Clear?)
      modifies registry
      ensures Valid() && View() == StateAfter(w, step)
    {
      match step
      case Register(job) => var _ := registry.Register(job.id, job.trigger, job.maxLatency);
      case Remove(id) => registry.Remove(id);
      case Clear => registry.Clear();
    }

    /** The object follows the state machine step by step. */
    method TakeStep(ghost w: World, step: Step)
      requires Valid() && w.s == View() && Enabled(w, step)
      modifies this, registry
      ensures Valid() && View() == Next(w, step).s
    {
      if step.Register? || step.Remove? || step.Clear? {
        EditRegistry(w, step);
      } else {
        TakeOwnStep(w, step);
      }
    }

    /** Step after step, so every run of the machine is a history of the object. */
    method TakeSteps(ghost w: World, steps: seq<Step>)
      requires Valid() && w.s == View() && Runs(w, steps)
      modifies this, registry
      ensures Valid() && View() == After(w, steps).s
    {
      ghost var at := w;
      for k := 0 to |steps|
        invariant Valid() && View() == at.s && Runs(at, steps[k..]) && After(at, steps[k..]) == After(w, steps)
      {
        assert steps[k..][1..] == steps[k + 1..];
        TakeStep(at, steps[k]);
        at := Next(at, steps[k]);
      }
    }
  }
}
