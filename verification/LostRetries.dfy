/** A refresh drops a pending retry: of a one-off job past its target nothing is left, for good. */
module LostRetries {
  import opened Counting
  import opened Options
  import opened QueueEntries
  import opened Schedules
  import opened Daemon
  import opened Machine
  import opened WellFormed
  import opened LiveChains
  import opened OneOff
  import opened Attempts
  import opened Dispatching
  import opened Executions
  import opened Slots
  import opened Staleness
  import opened OwnChains
  import opened KeptEntries
  import opened FirstRuns

  /** Refreshing a one-off job past its target leaves no chain but the executions in flight. */
  lemma RefreshDropsRetry(s: State, known: map<JobId, Job>, id: JobId, now: int, target: int)
    requires Fits(s, known) && Registered(s, id) && IsOneOff(known, id, target) && target <= now
    ensures Chains(RefreshById(s, id, now), id) == Count(s.inflight, IsOf(id))
  {
    LookupFinds(s.jobs, id);
    RefreshChainsExactly(s, known, id, now);
  }

  /** The target has come and nothing of the job is live or in flight. */
  ghost predicate Spent(w: World, id: JobId, target: int) {
    target <= w.now && Chains(w.s, id) == 0
  }

  lemma CallsNobody(w: World, step: Step, id: JobId)
    requires Fits(w.s, w.known) && Enabled(w, step) && Count(w.s.inflight, IsOf(id)) == 0
    ensures CallOf(w, step).Some? ==> CallOf(w, step).value.job != id
  {
    if step.DecideAt? {
      assert ExecutionFits(w.s.jobs, w.s.generations, w.known, w.s.inflight[step.i]);
      if w.s.inflight[step.i].job == id {
        CountSome(w.s.inflight, step.i, IsOf(id));
      }
    }
  }

  /** A bump of a one-off job at or past its target, with nothing of it in flight, spends it. */
  lemma BumpSpends(w: World, step: Step, id: JobId, target: int)
    requires Fits(w.s, w.known) && Enabled(w, step) && SweepStep(step) && IsOneOff(w.known, id, target)
    requires Count(w.s.inflight, IsOf(id)) == 0 && target <= SweepTime(step) && Bumped(w.s, StateAfter(w, step), id)
    ensures Spent(Next(w, step), id, target)
  {
    SweepStepOneOff(w, step, id, target);
    SweepStepSettles(w, step, id);
  }

  lemma SweepKeepsSpent(w: World, step: Step, id: JobId, target: int)
    requires Fits(w.s, w.known) && Enabled(w, step) && SweepStep(step) && IsOneOff(w.known, id, target)
    requires Spent(w, id, target)
    ensures Spent(Next(w, step), id, target)
  {
    if Bumped(w.s, StateAfter(w, step), id) {
      BumpSpends(w, step, id, target);
    } else {
      SweepStepSettles(w, step, id);
    }
  }

  lemma StepKeepsSpent(w: World, step: Step, id: JobId, target: int)
    requires Fits(w.s, w.known) && Enabled(w, step) && IsOneOff(w.known, id, target) && Spent(w, id, target)
    ensures Spent(Next(w, step), id, target) && IsOneOff(Next(w, step).known, id, target)
  {
    if SweepStep(step) {
      SweepKeepsSpent(w, step, id, target);
    } else if ExecutionStep(step) {
      ExecutionStepChains(w, step, id);
    } else if step.QueueGrant? {
      QueueSlotChains(w.s, step.now, id);
    } else if step.PeekNext? {
      PurgeKeepsLive(w.s, id);
    }
  }

  lemma StepCallsNobody(w: World, step: Step, id: JobId)
    requires Fits(w.s, w.known) && Enabled(w, step) && Count(w.s.inflight, IsOf(id)) == 0
    ensures CallsOf(Next(w, step).calls, id) == CallsOf(w.calls, id)
  {
    CallsNobody(w, step, id);
    if CallOf(w, step).Some? {
      CallsGrow(w.calls, CallOf(w, step).value, id);
    }
  }

  /** The function of a spent job is never called again, in any continuation. */
  lemma {:induction false} SpentIsNeverCalled(w: World, steps: seq<Step>, id: JobId, target: int)
    requires Fits(w.s, w.known) && IsOneOff(w.known, id, target) && Spent(w, id, target) && Runs(w, steps)
    ensures CallsOf(After(w, steps).calls, id) == CallsOf(w.calls, id)
    decreases |steps|
  {
    if steps != [] {
      StepFits(w, steps[0]);
      StepKeepsSpent(w, steps[0], id, target);
      StepCallsNobody(w, steps[0], id);
      SpentIsNeverCalled(Next(w, steps[0]), steps[1..], id, target);
    }
  }

  /** So a refresh of a one-off job at or past its target, whether asked for or at local midnight,
      with nothing of it in flight, is the end of it. */
  lemma RetryIsLostForGood(w: World, step: Step, steps: seq<Step>, id: JobId, target: int)
    requires Fits(w.s, w.known) && Enabled(w, step) && SweepStep(step) && IsOneOff(w.known, id, target)
    requires Count(w.s.inflight, IsOf(id)) == 0 && target <= SweepTime(step) && Bumped(w.s, StateAfter(w, step), id)
    requires Runs(Next(w, step), steps)
    ensures CallsOf(After(Next(w, step), steps).calls, id) == CallsOf(w.calls, id)
  {
    StepFits(w, step);
    StepCallsNobody(w, step, id);
    BumpSpends(w, step, id, target);
    SpentIsNeverCalled(Next(w, step), steps, id, target);
  }

  // ----------------------------------------------------------------- removal

  /** The job was removed and nothing of it is in flight. */
  ghost predicate Gone(w: World, id: JobId) {
    id in w.known && !Registered(w.s, id) && Count(w.s.inflight, IsOf(id)) == 0
  }

  /** A granted slot is not given to an entry of an unregistered job. */
  lemma GrantKeepsGone(s: State, now: int, id: JobId)
    requires !Registered(s, id) && Count(s.inflight, IsOf(id)) == 0
    ensures Count(QueueSlot(s, now).inflight, IsOf(id)) == 0
  {
    var k := GrantShape(s, now);
    var s' := QueueSlot(s, now);
    if |s'.inflight| > |s.inflight| {
      CountConcat(s.inflight, s'.inflight[|s.inflight|..], IsOf(id));
      CountNone(s'.inflight[|s.inflight|..], IsOf(id));
    }
  }

  lemma StepKeepsGone(w: World, step: Step, id: JobId)
    requires Fits(w.s, w.known) && Enabled(w, step) && Gone(w, id)
    ensures Gone(Next(w, step), id)
  {
    StepGoesOn(w, step, id);
    if SweepStep(step) {
      SlotsAfterSweep(w, step);
    } else if ExecutionStep(step) {
      ExecutionStepIn(w, step, id);
    } else if step.QueueGrant? {
      GrantKeepsGone(w.s, step.now, id);
    }
  }

  /** An execution's step adds none to those in flight. */
  lemma ExecutionStepIn(w: World, step: Step, id: JobId)
    requires Enabled(w, step) && ExecutionStep(step)
    ensures Count(StateAfter(w, step).inflight, IsOf(id)) <= Count(w.s.inflight, IsOf(id))
  {
    var s, s' := w.s, StateAfter(w, step);
    ExecutionStepEnds(w, step);
    if Suspended(s, s', step.i) {
      CountUpdate(s.inflight, step.i, s'.inflight[step.i], IsOf(id));
    } else {
      CountRemove(s.inflight, step.i, IsOf(id));
    }
  }

  lemma {:induction false} GoneIsNeverCalled(w: World, steps: seq<Step>, id: JobId)
    requires Fits(w.s, w.known) && Gone(w, id) && Runs(w, steps)
    ensures CallsOf(After(w, steps).calls, id) == CallsOf(w.calls, id)
    decreases |steps|
  {
    if steps != [] {
      StepFits(w, steps[0]);
      StepKeepsGone(w, steps[0], id);
      StepCallsNobody(w, steps[0], id);
      GoneIsNeverCalled(Next(w, steps[0]), steps[1..], id);
    }
  }

  // ---------------------------------------------------------- a pending retry

  /** A retry of a one-off job is queued and live. */
  ghost predicate Pending(w: World, e: QueueEntry, target: int) {
    && e in w.s.queue && Live(w.s, e) && e.attempt > 1
    && IsOneOff(w.known, e.job, target) && OneOffInv(w, e.job, target)
  }

  /** Then the target has come and nothing of the job is in flight. */
  lemma PendingIsAlone(w: World, e: QueueEntry, target: int)
    requires Pending(w, e, target)
    ensures Count(w.s.inflight, IsOf(e.job)) == 0 && target <= w.now
  {
    var i :| 0 <= i < |w.s.queue| && w.s.queue[i] == e;
    CountSome(w.s.queue, i, EntryOf(e.job, w.s.generations[e.job]));
    assert NextUp(e, w.now, target, |CallsOf(w.calls, e.job)|);
  }

  lemma BumpIsSweep(w: World, step: Step, id: JobId)
    requires Fits(w.s, w.known) && Enabled(w, step) && Bumped(w.s, StateAfter(w, step), id)
    ensures SweepStep(step)
  {
    if ExecutionStep(step) {
      ExecutionStepChains(w, step, id);
    } else if step.QueueGrant? {
      QueueSlotChains(w.s, step.now, id);
    }
  }

  /** A step that refreshes or removes the job ends it: its function is never called again. */
  lemma OutdatedIsNeverCalled(w: World, step: Step, steps: seq<Step>, e: QueueEntry, target: int)
    requires Fits(w.s, w.known) && Enabled(w, step) && Pending(w, e, target) && Outdates(w, step, e.job)
    requires Runs(Next(w, step), steps)
    ensures CallsOf(After(Next(w, step), steps).calls, e.job) == CallsOf(w.calls, e.job)
  {
    PendingIsAlone(w, e, target);
    StepFits(w, step);
    StepCallsNobody(w, step, e.job);
    if Bumped(w.s, StateAfter(w, step), e.job) {
      BumpIsSweep(w, step, e.job);
      BumpSpends(w, step, e.job, target);
      SpentIsNeverCalled(Next(w, step), steps, e.job, target);
    } else {
      RemovalLeavesGone(w, step, e.job);
      GoneIsNeverCalled(Next(w, step), steps, e.job);
    }
  }

  lemma RemovalLeavesGone(w: World, step: Step, id: JobId)
    requires Enabled(w, step) && id in w.known && Count(w.s.inflight, IsOf(id)) == 0
    requires Registered(w.s, id) && !Registered(StateAfter(w, step), id)
    ensures Gone(Next(w, step), id)
  {
    if !step.Register? && !step.Remove? && !step.Clear? {
      StepKeepsJobs(w, step);
    }
  }

  /** A one-off job's pending retry is dispatched or still pending at the end of a run if and only if
      no step of the run refreshes or removes the job first; and if one does, at local midnight or on
      request, the job's function is never called again, whatever its policy still grants. */
  lemma {:induction false} RetryIsLostExactly(w: World, steps: seq<Step>, e: QueueEntry, target: int)
    requires Fits(w.s, w.known) && AttemptsEarned(w) && Pending(w, e, target) && Runs(w, steps)
    ensures Kept(w, steps, e) <==> !Outdated(w, steps, e)
    ensures Outdated(w, steps, e) ==> CallsOf(After(w, steps).calls, e.job) == CallsOf(w.calls, e.job)
    decreases |steps|
  {
    EntryIsKeptExactly(w, steps, e);
    if Outdated(w, steps, e) {
      var w' := Next(w, steps[0]);
      if Outdates(w, steps[0], e.job) {
        OutdatedIsNeverCalled(w, steps[0], steps[1..], e, target);
      } else {
        StepFits(w, steps[0]);
        StepKeepsEarned(w, steps[0]);
        EntrySurvivesExactly(w, steps[0], e);
        StepKeepsOneOff(w, steps[0], e.job, target);
        PendingIsAlone(w, e, target);
        StepCallsNobody(w, steps[0], e.job);
        RetryIsLostExactly(w', steps[1..], e, target);
      }
    }
  }

  // -------------------------------------------------------------------- a run

  /** It runs once, at 10; a failed attempt is retried after five. */
  const ONCE := Job(0, LazySchedule(OneOff(10), None, None, Some(POLICY)), None)
  const RETRY := QueueEntry(15, 1, 0, 2)

  function ToRetry(): seq<Step> {
    ToCall(ONCE) + [CompleteAt(0, Failed, 10)]
  }

  lemma FailurePushes(s: State)
    requires s.queue == [] && s.inflight == [Called(ONCE)] && s.generations == map[0 := 1]
    ensures var s' := Complete(s, 0, Failed, 10);
      s'.queue == [RETRY] && s'.inflight == [] && s' == Finish(s, 0).(queue := [RETRY], history := s'.history)
  {
    CompleteEnds(s, 0, Failed, 10);
    RetryIsPushed(s, 0, Failed, 10);
    assert Insert([], RETRY) == [RETRY];
  }

  lemma Retried(w: World)
    requires RunsWith(w, ONCE, Top, [], [Called(ONCE)]) && w.now == 10
    ensures var complete := CompleteAt(0, Failed, 10);
      && Enabled(w, complete) && Next(w, complete).now == 10 && Next(w, complete).calls == w.calls
      && RunsWith(Next(w, complete), ONCE, Top, [RETRY], [])
  {
    FailurePushes(w.s);
    StepFits(w, CompleteAt(0, Failed, 10));
  }

  lemma RetryIsReached()
    ensures Runs(NewWorld(CFG, 0), ToRetry())
    ensures var w := After(NewWorld(CFG, 0), ToRetry());
      && RunsWith(w, ONCE, Top, [RETRY], []) && w.now == 10 && w.calls == [Call(0, 10, 1, 10)]
      && Enabled(w, RefreshCall(0, 11))
  {
    var w, complete := NewWorld(CFG, 0), CompleteAt(0, Failed, 10);
    CallIsReached(ONCE);
    var w1 := After(w, ToCall(ONCE));
    Retried(w1);
    OneStep(w1, complete);
    RunsOn(w, ToCall(ONCE), [complete]);
  }

  /** A new daemon reaches a pending second attempt, which a refresh then drops: nothing of the job is
      left, and in no continuation is its function called a second time. */
  lemma RetryIsLost(steps: seq<Step>)
    requires Runs(NewWorld(CFG, 0), ToRetry())
    requires var w := After(NewWorld(CFG, 0), ToRetry());
      Enabled(w, RefreshCall(0, 11)) && Runs(Next(w, RefreshCall(0, 11)), steps)
    ensures var w := After(NewWorld(CFG, 0), ToRetry());
      && RETRY in w.s.queue && Live(w.s, RETRY)
      && Chains(Next(w, RefreshCall(0, 11)).s, 0) == 0
      && |CallsOf(After(Next(w, RefreshCall(0, 11)), steps).calls, 0)| == 1
  {
    var w := After(NewWorld(CFG, 0), ToRetry());
    var refresh := RefreshCall(0, 11);
    RetryIsReached();
    assert Lookup(w.s.jobs, 0) == Some(ONCE);
    RefreshDropsRetry(w.s, w.known, 0, 11, 10);
    assert Spent(Next(w, refresh), 0, 10);
    StepFits(w, refresh);
    SpentIsNeverCalled(Next(w, refresh), steps, 0, 10);
    assert CallsOf(w.calls, 0) == w.calls by {
      assert w.calls[..0] == [];
    }
  }
}
