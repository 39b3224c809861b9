/** How many chains of executions a job can have at once. A chain is a live queue entry or an
    execution in flight: whatever will, by itself, still lead to a run of the job. */
module LiveChains {
  import opened Counting
  import opened Options
  import opened QueueEntries
  import opened Schedules
  import opened Daemon
  import opened Machine
  import opened WellFormed

  function EntryOf(id: JobId, generation: int): QueueEntry -> bool {
    (e: QueueEntry) => e.job == id && e.generation == generation
  }

  function Holds(id: JobId, generation: int): Execution -> bool {
    (x: Execution) => x.job == id && Held(x) == generation
  }

  ghost function LiveEntries(s: State, id: JobId): nat {
    if id in s.generations then Count(s.queue, EntryOf(id, s.generations[id])) else 0
  }

  /** Entries at the current generation plus all executions in flight. */
  ghost function Chains(s: State, id: JobId): nat {
    LiveEntries(s, id) + Count(s.inflight, IsOf(id))
  }

  /** Entries at the current generation plus the executions that hold it. */
  ghost function Own(s: State, id: JobId): nat {
    LiveEntries(s, id) + if id in s.generations then Count(s.inflight, Holds(id, s.generations[id])) else 0
  }

  // ------------------------------------------------------ counting the queue

  lemma {:induction false} CountInsert(q: seq<QueueEntry>, e: QueueEntry, p: QueueEntry -> bool)
    ensures Count(Insert(q, e), p) == Count(q, p) + One(p(e))
  {
    if q != [] && !Less(e, q[0]) {
      CountInsert(q[1..], e, p);
    }
  }

  lemma PurgeKeepsLive(s: State, id: JobId)
    ensures LiveEntries(Purge(s), id) <= LiveEntries(s, id)
    ensures Registered(s, id) ==> LiveEntries(Purge(s), id) == LiveEntries(s, id)
  {
    if id in s.generations {
      var p := EntryOf(id, s.generations[id]);
      var k := DropDeadIsTail(s, s.queue);
      CountConcat(s.queue[..k], s.queue[k..], p);
      assert s.queue == s.queue[..k] + s.queue[k..];
      if Registered(s, id) {
        CountNone(s.queue[..k], p);
      }
    }
  }

  lemma ScheduleNextAdds(s: State, job: Job, after: int, attempt: int, generation: int, id: JobId)
    ensures var s' := ScheduleNext(s, job, after, attempt, generation);
      && s'.generations == s.generations && s'.inflight == s.inflight
      && LiveEntries(s', id) == LiveEntries(s, id)
        + One(id == job.id && Get(s.generations, id) == Some(generation) && Resolves(job, after))
  {
    match ResolveAfter(job.trigger, after)
    case None =>
    case Some(when) =>
      if id in s.generations {
        CountInsert(s.queue, QueueEntry(when, generation, job.id, attempt), EntryOf(id, s.generations[id]));
      }
  }

  lemma ScheduleRetryAdds(s: State, job: Job, now: int, attempt: int, id: JobId)
    requires job.trigger.failPolicy.Some?
    ensures var s' := ScheduleRetry(s, job, now, attempt);
      && s'.generations == s.generations && s'.inflight == s.inflight
      && LiveEntries(s', id) == LiveEntries(s, id)
        + One(id == job.id && id in s.generations && (RetryGranted(job, attempt) || Resolves(job, now)))
  {
    var generation := GetOr(s.generations, job.id, 1);
    ScheduleNextAdds(s, job, now, attempt + 1, generation, id);
    ScheduleNextAdds(s, job, now, 1, generation, id);
    if RetryGranted(job, attempt) && id in s.generations {
      var when := now + job.trigger.failPolicy.value.retryInterval.value;
      CountInsert(s.queue, QueueEntry(when, generation, job.id, attempt + 1), EntryOf(id, s.generations[id]));
    }
  }

  // ------------------------------------------------------------------ sweeps

  /** The job is registered and its trigger resolves at every time. */
  ghost predicate Endless(s: State, id: JobId) {
    Lookup(s.jobs, id).Some? && forall t :: Resolves(Lookup(s.jobs, id).value, t)
  }

  /** From s to s' nothing in flight changed; a job keeps its generation and its live entries (an
      unregistered one may lose some), or it moved to a later generation with at most one entry,
      and with one if its trigger always resolves. */
  ghost predicate Settles(s: State, s': State, id: JobId) {
    && s'.inflight == s.inflight
    && (id in s'.generations ==>
          if Bumped(s, s', id) then StartsOver(s, s', id) else KeepsEntries(s, s', id))
  }

  ghost predicate StartsOver(s: State, s': State, id: JobId)
    requires id in s'.generations
  {
    && Registered(s, id)
    && LiveEntries(s', id) <= 1
    && (Endless(s, id) ==> LiveEntries(s', id) == 1)
    && (id in s.generations ==> s.generations[id] < s'.generations[id])
  }

  ghost predicate KeepsEntries(s: State, s': State, id: JobId) {
    && LiveEntries(s', id) <= LiveEntries(s, id)
    && (Registered(s, id) ==> LiveEntries(s', id) == LiveEntries(s, id))
  }

  /** No entry is ahead of the generation a refresh moves to: the refresh starts from none. */
  lemma BumpLeavesNoEntry(s: State, known: map<JobId, Job>, job: Job, now: int)
    requires Fits(s, known) && Registered(s, job.id)
    ensures LiveEntries(Bump(s, job, now), job.id) == 0
  {
    var p := EntryOf(job.id, GetOr(s.generations, job.id, 0) + 1);
    forall i | 0 <= i < |s.queue| ensures !p(s.queue[i]) {
      assert Within(s.jobs, s.generations, s.queue[i].job, s.queue[i].generation);
    }
    CountNone(s.queue, p);
  }

  lemma RefreshJobSettles(s: State, known: map<JobId, Job>, job: Job, now: int, id: JobId)
    requires Fits(s, known) && Lookup(s.jobs, job.id) == Some(job)
    ensures Settles(s, RefreshJob(s, job, now), id)
    ensures id == job.id ==> LiveEntries(RefreshJob(s, job, now), id) == One(Resolves(job, now))
    ensures id in s.generations ==> id in RefreshJob(s, job, now).generations
    ensures RefreshJob(s, job, now).jobs == s.jobs
  {
    BumpLeavesNoEntry(s, known, job, now);
    ScheduleNextAdds(Bump(s, job, now), job, now, 1, GetOr(s.generations, job.id, 0) + 1, id);
  }

  lemma {:induction false} RefreshEachSettles(
      s: State, known: map<JobId, Job>, jobs: seq<Job>, now: int, sweep: Sweep, id: JobId)
    requires Fits(s, known) && forall i :: 0 <= i < |jobs| ==> Lookup(s.jobs, jobs[i].id) == Some(jobs[i])
    ensures Settles(s, RefreshEach(s, jobs, now, sweep), id)
    ensures RefreshEach(s, jobs, now, sweep).jobs == s.jobs
    ensures id in s.generations ==> id in RefreshEach(s, jobs, now, sweep).generations
    decreases |jobs|
  {
    if jobs != [] {
      var s1 := if Due(s, jobs[0], now, sweep) then RefreshJob(s, jobs[0], now) else s;
      RefreshJobFits(s, known, jobs[0], now);
      RefreshJobSettles(s, known, jobs[0], now, id);
      RefreshEachSettles(s1, known, jobs[1..], now, sweep, id);
    }
  }

  lemma SweepSettles(s: State, known: map<JobId, Job>, now: int, sweep: Sweep, id: JobId)
    requires Fits(s, known)
    ensures Settles(s, RefreshEach(s, s.jobs, now, sweep), id)
    ensures RefreshEach(s, s.jobs, now, sweep).jobs == s.jobs
  {
    forall i | 0 <= i < |s.jobs| ensures Lookup(s.jobs, s.jobs[i].id) == Some(s.jobs[i]) {
      LookupAt(s.jobs, i);
    }
    RefreshEachSettles(s, known, s.jobs, now, sweep, id);
  }

  lemma PopulateMissingSettles(s: State, known: map<JobId, Job>, now: int, id: JobId)
    requires Fits(s, known)
    ensures Settles(s, PopulateMissing(s, now), id) && PopulateMissing(s, now).jobs == s.jobs
  {
    var f := Forget(s);
    ForgetFits(s, known);
    SweepSettles(f, known, now, Missing, id);
    if id in s.generations && id !in f.generations && id in PopulateMissing(s, now).generations {
      ForgottenStaysOut(f, f.jobs, now, id);
    }
  }

  /** A sweep brings in only jobs of its list. */
  lemma {:induction false} ForgottenStaysOut(s: State, jobs: seq<Job>, now: int, id: JobId)
    requires id !in s.generations && forall i :: 0 <= i < |jobs| ==> jobs[i].id != id
    ensures id !in RefreshEach(s, jobs, now, Missing).generations
    decreases |jobs|
  {
    if jobs != [] {
      var s1 := if Due(s, jobs[0], now, Missing) then RefreshJob(s, jobs[0], now) else s;
      ForgottenStaysOut(s1, jobs[1..], now, id);
    }
  }

  /** A refresh of a registered job counts, exactly: one chain if the trigger resolves, and one for
      each execution still in flight. So a job whose trigger resolves is left with one chain if and
      only if nothing of it is in flight when it is refreshed. */
  lemma RefreshChainsExactly(s: State, known: map<JobId, Job>, id: JobId, now: int)
    requires Fits(s, known) && Registered(s, id)
    ensures var job := Lookup(s.jobs, id).value; var s' := RefreshById(s, id, now);
      && id in s'.generations && s'.inflight == s.inflight
      && LiveEntries(s', id) == One(Resolves(job, now))
      && Chains(s', id) == One(Resolves(job, now)) + Count(s.inflight, IsOf(id))
      && (Resolves(job, now) ==> (Chains(s', id) <= 1 <==> Count(s.inflight, IsOf(id)) == 0))
  {
    LookupFinds(s.jobs, id);
    RefreshJobSettles(s, known, Lookup(s.jobs, id).value, now, id);
  }

  // ------------------------------------------------------- executions and slots

  lemma FinishCounts(s: State, i: nat, p: Execution -> bool)
    requires i < |s.inflight|
    ensures Count(s.inflight, p) == Count(Finish(s, i).inflight, p) + One(p(s.inflight[i]))
  {
    CountRemove(s.inflight, i, p);
  }

  lemma DispatchCounts(s: State, id: JobId, p: Execution -> bool)
    requires s.queue != []
    ensures LiveEntries(s, id) == LiveEntries(Dispatch(s), id)
      + One(id in s.generations && EntryOf(id, s.generations[id])(s.queue[0]))
    ensures Count(Dispatch(s).inflight, p) == Count(s.inflight, p) + One(p(Dispatch(s).inflight[|s.inflight|]))
  {
    CountConcat(s.inflight, Dispatch(s).inflight[|s.inflight|..], p);
  }

  /** A finished execution leaves `extra` entries behind at the job's current generation. */
  ghost predicate Leaves(s: State, s': State, i: nat, id: JobId, extra: nat)
    requires i < |s.inflight|
  {
    && s'.generations == s.generations
    && s'.inflight == s.inflight[..i] + s.inflight[i + 1..]
    && LiveEntries(s', id) == LiveEntries(s, id) + extra
  }

  lemma BeginLeaves(s: State, known: map<JobId, Job>, i: nat, now: int, later: int, id: JobId)
    requires Fits(s, known) && i < |s.inflight|
    ensures var x := s.inflight[i]; var s' := Begin(s, i, now, later);
      if Lookup(s.jobs, x.job).Some? && !TooLate(s.cfg, Lookup(s.jobs, x.job).value, x.scheduledFor, now)
      then s' == Enter(s, i, Evaluating(Lookup(s.jobs, x.job).value, GetOr(s.generations, x.job, 1), later))
      else Leaves(s, s', i, id, One(id == x.job && BeginCarries(s, x, now)))
  {
    var x := s.inflight[i];
    LookupFinds(s.jobs, x.job);
    assert ExecutionFits(s.jobs, s.generations, known, x);
    if Lookup(s.jobs, x.job).Some? {
      var job := Lookup(s.jobs, x.job).value;
      ScheduleNextAdds(AddRecord(s, SkipRecord(x, job, now, later)), job, now, 1, GetOr(s.generations, job.id, 1), id);
    }
  }

  lemma DecideLeaves(s: State, known: map<JobId, Job>, i: nat, status: Status, now: int, id: JobId)
    requires Fits(s, known) && i < |s.inflight| && s.inflight[i].phase.Evaluating?
    ensures var x := s.inflight[i];
      Leaves(s, Decide(s, i, Some(status), now), i, id, One(id == x.job && DecideCarries(s, x, Some(status), now)))
  {
    var x := s.inflight[i];
    assert ExecutionFits(s.jobs, s.generations, known, x);
    ScheduleNextAdds(AddRecord(s, OutcomeRecord(x, status, now)), x.phase.spec, now, 1, x.phase.generation, id);
  }

  lemma CompleteLeaves(s: State, known: map<JobId, Job>, i: nat, status: Status, now: int, id: JobId)
    requires Fits(s, known) && i < |s.inflight| && s.inflight[i].phase.Calling?
    ensures var x := s.inflight[i];
      Leaves(s, Complete(s, i, status, now), i, id,
             One(id == x.job && id in s.generations && CompleteCarries(s, x, status, now)))
  {
    var x := s.inflight[i];
    assert ExecutionFits(s.jobs, s.generations, known, x);
    var s1 := AddRecord(s, OutcomeRecord(x, status, now));
    if status != Success && x.phase.spec.trigger.failPolicy.Some? {
      ScheduleRetryAdds(s1, x.phase.spec, now, x.attempt, id);
    } else {
      ScheduleNextAdds(s1, x.phase.spec, now, 1, x.phase.generation, id);
    }
  }

  // --------------------------------------------------------- chains in a step

  /** What a step may do to a count of chains: a refresh starts over at one chain more than what
      is in flight, and nothing else adds to it. */
  ghost predicate OnlyRefreshAdds(s: State, s': State, id: JobId) {
    id in s'.generations ==>
      if Bumped(s, s', id) then Chains(s', id) <= 1 + Count(s.inflight, IsOf(id)) else Chains(s', id) <= Chains(s, id)
  }

  lemma EnterChains(s: State, i: nat, phase: Phase, id: JobId)
    requires i < |s.inflight|
    ensures Chains(Enter(s, i, phase), id) == Chains(s, id)
  {
    CountUpdate(s.inflight, i, s.inflight[i].(phase := phase), IsOf(id));
  }

  lemma LeavesChains(s: State, s': State, i: nat, id: JobId, extra: nat)
    requires i < |s.inflight| && Leaves(s, s', i, id, extra) && extra <= One(id == s.inflight[i].job)
    ensures Chains(s', id) <= Chains(s, id)
  {
    CountRemove(s.inflight, i, IsOf(id));
  }

  lemma QueueTopChains(s: State, known: map<JobId, Job>, t1: int, t2: int, t3: int, id: JobId)
    requires Fits(s, known)
    ensures Settles(s, QueueTop(s, t1, t2, t3), id)
  {
    PopulateMissingSettles(s, known, t2, id);
    PurgeKeepsLive(PopulateMissing(s, t2), id);
  }

  /** A granted slot moves a chain from the queue into flight; only an unregistered job loses any. */
  lemma QueueSlotChains(s: State, now: int, id: JobId)
    ensures QueueSlot(s, now).generations == s.generations
    ensures Chains(QueueSlot(s, now), id) <= Chains(s, id)
    ensures Own(QueueSlot(s, now), id) <= Own(s, id)
    ensures Registered(s, id) ==> Own(QueueSlot(s, now), id) == Own(s, id)
  {
    var s1 := TakeSlot(s);
    PurgeKeepsLive(s1, id);
    var s2 := Purge(s1).(queueLoop := Top);
    var k := DropDeadIsTail(s1, s1.queue);
    if s2.queue != [] {
      DispatchCounts(s2, id, IsOf(id));
      if id in s.generations {
        DispatchCounts(s2, id, Holds(id, s.generations[id]));
      }
    }
  }

  lemma BeginChains(s: State, known: map<JobId, Job>, i: nat, now: int, later: int, id: JobId)
    requires Fits(s, known) && i < |s.inflight|
    ensures Chains(Begin(s, i, now, later), id) <= Chains(s, id)
    ensures Begin(s, i, now, later).generations == s.generations
  {
    var x := s.inflight[i];
    BeginLeaves(s, known, i, now, later, id);
    var job := Lookup(s.jobs, x.job);
    if job.Some? && !TooLate(s.cfg, job.value, x.scheduledFor, now) {
      EnterChains(s, i, Evaluating(job.value, GetOr(s.generations, x.job, 1), later), id);
    } else {
      LeavesChains(s, Begin(s, i, now, later), i, id, One(id == x.job && BeginCarries(s, x, now)));
    }
  }

  lemma DeclineChains(s: State, known: map<JobId, Job>, i: nat, status: Status, now: int, id: JobId)
    requires Fits(s, known) && i < |s.inflight| && s.inflight[i].phase.Evaluating?
    ensures Chains(Decide(s, i, Some(status), now), id) <= Chains(s, id)
    ensures Decide(s, i, Some(status), now).generations == s.generations
  {
    var x := s.inflight[i];
    DecideLeaves(s, known, i, status, now, id);
    LeavesChains(s, Decide(s, i, Some(status), now), i, id, One(id == x.job && DecideCarries(s, x, Some(status), now)));
  }

  lemma DecideChains(s: State, known: map<JobId, Job>, i: nat, outcome: Option<Status>, now: int, id: JobId)
    requires Fits(s, known) && i < |s.inflight| && s.inflight[i].phase.Evaluating?
    ensures Chains(Decide(s, i, outcome, now), id) <= Chains(s, id)
    ensures Decide(s, i, outcome, now).generations == s.generations
  {
    match outcome
    case None => EnterChains(s, i, Decide(s, i, None, now).inflight[i].phase, id);
    case Some(status) => DeclineChains(s, known, i, status, now, id);
  }

  lemma CompleteChains(s: State, known: map<JobId, Job>, i: nat, status: Status, now: int, id: JobId)
    requires Fits(s, known) && i < |s.inflight| && s.inflight[i].phase.Calling?
    ensures Chains(Complete(s, i, status, now), id) <= Chains(s, id)
    ensures Complete(s, i, status, now).generations == s.generations
  {
    var x := s.inflight[i];
    CompleteLeaves(s, known, i, status, now, id);
    LeavesChains(s, Complete(s, i, status, now), i, id,
                 One(id == x.job && id in s.generations && CompleteCarries(s, x, status, now)));
  }

  lemma SettlesChains(s: State, s': State, id: JobId)
    requires Settles(s, s', id)
    ensures OnlyRefreshAdds(s, s', id)
  {
  }

  lemma SweepStepSettles(w: World, step: Step, id: JobId)
    requires Fits(w.s, w.known) && Enabled(w, step)
    requires SweepStep(step)
    ensures Settles(w.s, StateAfter(w, step), id)
  {
    var s, known := w.s, w.known;
    match step
    case SyncRegistry(now) => PopulateMissingSettles(s, known, now, id);
    case RefreshCall(j, now) =>
      LookupFinds(s.jobs, j);
      if Lookup(s.jobs, j).Some? {
        RefreshJobSettles(s, known, Lookup(s.jobs, j).value, now, id);
      }
    case Run(now, until) =>
      var s1 := s.(running := true, until := until);
      assert Fits(s1, known);
      SweepSettles(s1, known, now, Missing, id);
    case QueueTurn(now, t2, t3) => QueueTopChains(s, known, now, t2, t3, id);
    case MidnightTurn(_, later) => SweepSettles(s, known, later, RolledOver, id);
    case MidnightWakes(now) => SweepSettles(s, known, now, RolledOver, id);
    case _ =>
  }

  lemma ExecutionStepChains(w: World, step: Step, id: JobId)
    requires Fits(w.s, w.known) && Enabled(w, step) && ExecutionStep(step)
    ensures StateAfter(w, step).generations == w.s.generations && Chains(StateAfter(w, step), id) <= Chains(w.s, id)
  {
    var s, known := w.s, w.known;
    match step
    case BeginAt(i, now, later) => BeginChains(s, known, i, now, later, id);
    case DecideAt(i, outcome, now) => DecideChains(s, known, i, outcome, now, id);
    case CompleteAt(i, status, now) => CompleteChains(s, known, i, status, now, id);
    case AbortAt(i) => FinishCounts(s, i, IsOf(id));
    case _ =>
  }

  /** In every step the chains of a job grow only through a refresh, by at most one. */
  lemma StepChains(w: World, step: Step, id: JobId)
    requires Fits(w.s, w.known) && Enabled(w, step)
    ensures OnlyRefreshAdds(w.s, StateAfter(w, step), id)
    ensures id in StateAfter(w, step).generations ==> Chains(StateAfter(w, step), id) <= Chains(w.s, id) + 1
  {
    if SweepStep(step) {
      SweepStepSettles(w, step, id);
      SettlesChains(w.s, StateAfter(w, step), id);
    } else if ExecutionStep(step) {
      ExecutionStepChains(w, step, id);
    } else if step.QueueGrant? {
      QueueSlotChains(w.s, step.now, id);
    } else if step.PeekNext? {
      PurgeKeepsLive(w.s, id);
    }
  }

  /** A job's chains never exceed one more than its executions in flight at its latest refresh. */
  ghost predicate ChainsBounded(w: World) {
    forall id :: id in w.s.generations ==> id in w.inflightAtRefresh && Chains(w.s, id) <= 1 + w.inflightAtRefresh[id]
  }

  lemma StepKeepsChainsBounded(w: World, step: Step)
    requires Fits(w.s, w.known) && Enabled(w, step) && ChainsBounded(w)
    ensures ChainsBounded(Next(w, step))
  {
    var w' := Next(w, step);
    forall id | id in w'.s.generations
      ensures id in w'.inflightAtRefresh && Chains(w'.s, id) <= 1 + w'.inflightAtRefresh[id]
    {
      StepChains(w, step, id);
    }
  }

  /** In every reachable state of every interleaving. */
  lemma {:induction false} ChainsAreBounded(w: World, steps: seq<Step>)
    requires Fits(w.s, w.known) && ChainsBounded(w) && Runs(w, steps)
    ensures ChainsBounded(After(w, steps))
    decreases |steps|
  {
    if steps != [] {
      StepFits(w, steps[0]);
      StepKeepsChainsBounded(w, steps[0]);
      ChainsAreBounded(Next(w, steps[0]), steps[1..]);
    }
  }
}
