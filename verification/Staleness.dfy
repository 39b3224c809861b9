/** Once dead, always dead: an entry outlived by its job's generation, or whose job was removed,
    is never dispatched. */
module Staleness {
  import opened Options
  import opened QueueEntries
  import opened Daemon
  import opened Machine
  import opened WellFormed
  import opened Sweeps
  import opened Dispatching
  import opened Executions

  /** The job was registered once, and is no longer or has moved past the entry's generation. */
  ghost predicate Stale(s: State, known: map<JobId, Job>, e: QueueEntry) {
    && e.job in known
    && (Registered(s, e.job) ==> e.job in s.generations && e.generation < s.generations[e.job])
  }

  /** A dead entry in the queue is stale. */
  lemma DeadIsStale(s: State, known: map<JobId, Job>, e: QueueEntry)
    requires Fits(s, known) && e in s.queue && !Live(s, e)
    ensures Stale(s, known, e)
  {
    var i :| 0 <= i < |s.queue| && s.queue[i] == e;
    assert Within(s.jobs, s.generations, e.job, e.generation);
  }

  /** A job still registered afterwards was registered before, and its generation has not gone back. */
  ghost predicate GoesOn(s: State, known: map<JobId, Job>, s': State, id: JobId) {
    id in known && Registered(s', id) ==>
      && Registered(s, id)
      && (id in s.generations ==> id in s'.generations && s.generations[id] <= s'.generations[id])
  }

  lemma SweptGoesOn(s: State, known: map<JobId, Job>, s': State, jobs: seq<Job>, now: int, sweep: Sweep, id: JobId)
    requires Swept(s, s', jobs, now, sweep)
    ensures GoesOn(s, known, s', id)
  {
    if id in DueIds(s, jobs, now, sweep) {
      var i :| 0 <= i < |jobs| && Due(s, jobs[i], now, sweep) && jobs[i].id == id;
      assert MovedOn(s, s', jobs[i], now);
    } else {
      assert Get(s'.generations, id) == Get(s.generations, id);
    }
  }

  lemma ForgetGoesOn(s: State, known: map<JobId, Job>, id: JobId)
    requires Fits(s, known)
    ensures GoesOn(s, known, Forget(s), id)
  {
    LookupFinds(s.jobs, id);
  }

  lemma SyncGoesOn(s: State, known: map<JobId, Job>, now: int, id: JobId)
    requires Fits(s, known)
    ensures GoesOn(s, known, PopulateMissing(s, now), id)
  {
    RefreshEachSwept(Forget(s), s.jobs, now, Missing);
    ForgetGoesOn(s, known, id);
    SweptGoesOn(Forget(s), known, PopulateMissing(s, now), s.jobs, now, Missing, id);
  }

  lemma RunGoesOn(s: State, known: map<JobId, Job>, now: int, until: Option<int>, id: JobId)
    requires Fits(s, known)
    ensures GoesOn(s, known, StartRun(s, now, until), id)
  {
    var s1 := s.(running := true, until := until);
    RefreshEachSwept(s1, s.jobs, now, Missing);
    SweptGoesOn(s1, known, PopulateAll(s1, now), s.jobs, now, Missing, id);
  }

  lemma MidnightGoesOn(s: State, known: map<JobId, Job>, now: int, later: int, id: JobId)
    requires Fits(s, known)
    ensures GoesOn(s, known, MidnightTop(s, now, later), id) && GoesOn(s, known, MidnightWake(s, later), id)
  {
    RefreshEachSwept(s, s.jobs, later, RolledOver);
    SweptGoesOn(s, known, RefreshDueJobs(s, later), s.jobs, later, RolledOver, id);
  }

  lemma ExecutionGoesOn(w: World, step: Step, id: JobId)
    requires Enabled(w, step) && ExecutionStep(step)
    ensures GoesOn(w.s, w.known, StateAfter(w, step), id)
  {
    ExecutionStepEnds(w, step);
  }

  lemma SweepStepGoesOn(w: World, step: Step, id: JobId)
    requires Fits(w.s, w.known) && Enabled(w, step) && SweepStep(step)
    ensures GoesOn(w.s, w.known, StateAfter(w, step), id)
  {
    var s, known := w.s, w.known;
    match step
    case SyncRegistry(now) => SyncGoesOn(s, known, now, id);
    case Run(now, until) => RunGoesOn(s, known, now, until, id);
    case QueueTurn(_, t2, _) => SyncGoesOn(s, known, t2, id);
    case MidnightTurn(now, later) => MidnightGoesOn(s, known, now, later, id);
    case MidnightWakes(now) => MidnightGoesOn(s, known, now, now, id);
    case _ =>
  }

  lemma QuietStepGoesOn(w: World, step: Step, id: JobId)
    requires Enabled(w, step) && QuietStep(step)
    ensures GoesOn(w.s, w.known, StateAfter(w, step), id)
  {
    match step
    case Register(job) => LookupAppend(w.s.jobs, job, id);
    case Remove(gone) => LookupWithout(w.s.jobs, gone, id);
    case _ =>
  }

  lemma StepGoesOn(w: World, step: Step, id: JobId)
    requires Fits(w.s, w.known) && Enabled(w, step)
    ensures GoesOn(w.s, w.known, StateAfter(w, step), id)
  {
    if SweepStep(step) {
      SweepStepGoesOn(w, step, id);
    } else if ExecutionStep(step) {
      ExecutionGoesOn(w, step, id);
    } else if QuietStep(step) {
      QuietStepGoesOn(w, step, id);
    } else if step.QueueGrant? {
      var k := GrantShape(w.s, step.now);
    }
  }

  lemma StaleStays(w: World, step: Step, e: QueueEntry)
    requires Fits(w.s, w.known) && Enabled(w, step) && Stale(w.s, w.known, e)
    ensures Stale(Next(w, step).s, Next(w, step).known, e)
    ensures DispatchOf(w.s, step) != Some(e)
  {
    StepGoesOn(w, step, e.job);
    if step.QueueGrant? {
      var k := GrantShape(w.s, step.now);
    }
  }

  /** In every continuation of every run a stale entry stays stale and is never dispatched. This
      covers the entries that a removed job's executions still push. */
  lemma {:induction false} StaleIsNeverDispatched(w: World, steps: seq<Step>, e: QueueEntry)
    requires Fits(w.s, w.known) && Stale(w.s, w.known, e) && Runs(w, steps)
    ensures Stale(After(w, steps).s, After(w, steps).known, e)
    ensures w.dispatches <= After(w, steps).dispatches
    ensures e !in After(w, steps).dispatches[|w.dispatches|..]
    decreases |steps|
  {
    if steps != [] {
      var w1 := Next(w, steps[0]);
      StepFits(w, steps[0]);
      StaleStays(w, steps[0], e);
      StaleIsNeverDispatched(w1, steps[1..], e);
      var d := After(w, steps).dispatches;
      assert d[|w.dispatches|..] == d[|w.dispatches|..|w1.dispatches|] + d[|w1.dispatches|..];
      assert d[..|w1.dispatches|] == w1.dispatches;
    }
  }

  /** Removing a job makes every entry it has or will have stale. */
  lemma RemovedIsStale(w: World, id: JobId, e: QueueEntry)
    requires id in w.known && e.job == id
    ensures Stale(Next(w, Remove(id)).s, Next(w, Remove(id)).known, e)
  {
    LookupWithout(w.s.jobs, id, id);
  }
}
