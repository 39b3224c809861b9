/** Waiting for an entry's time: a wake from `_push` does not shorten it. */
module Sleeping {
  import opened Options
  import opened QueueEntries
  import opened Schedules
  import opened Daemon
  import opened Machine
  import opened WellFormed
  import opened Executions
  import opened Slots
  import opened Sweeps
  import opened FirstRuns

  /** The daemon runs and its queue loop waits until the given time. */
  ghost predicate Waits(s: State, until: int) {
    s.running && s.run.Looping? && s.queueLoop == Asleep(Some(until))
  }

  lemma ClockGrows(w: World, step: Step)
    requires Enabled(w, step)
    ensures w.now <= ClockAfter(w, step)
  {
  }

  lemma {:induction false} RunClockGrows(w: World, steps: seq<Step>)
    requires Runs(w, steps)
    ensures w.now <= After(w, steps).now
    decreases |steps|
  {
    if steps != [] {
      ClockGrows(w, steps[0]);
      RunClockGrows(Next(w, steps[0]), steps[1..]);
    }
  }

  lemma StepWaits(w: World, step: Step, until: int)
    requires Fits(w.s, w.known) && Enabled(w, step) && Waits(w.s, until)
    requires !step.StopCall? && ClockAfter(w, step) < until
    ensures Waits(StateAfter(w, step), until) && DispatchOf(w.s, step).None?
  {
    var s, known := w.s, w.known;
    if ExecutionStep(step) {
      ExecutionStepEnds(w, step);
    }
    match step
    case SyncRegistry(now) => SyncSlots(s, known, now);
    case MidnightTurn(now, later) => MidnightSlots(s, known, now, later);
    case MidnightWakes(now) => MidnightSlots(s, known, now, now);
    case _ =>
  }

  /** While it waits, and unless it is stopped, no entry is dispatched before that time, not even
      one that is pushed meanwhile and due earlier. */
  lemma {:induction false} NothingIsDispatchedBefore(w: World, steps: seq<Step>, until: int)
    requires Fits(w.s, w.known) && Waits(w.s, until) && Runs(w, steps)
    requires After(w, steps).now < until && forall e :: e in steps ==> !e.StopCall?
    ensures Waits(After(w, steps).s, until) && After(w, steps).dispatches == w.dispatches
    decreases |steps|
  {
    if steps != [] {
      var w1 := Next(w, steps[0]);
      assert steps[0] in steps && forall e :: e in steps[1..] ==> e in steps;
      RunClockGrows(w1, steps[1..]);
      StepWaits(w, steps[0], until);
      StepFits(w, steps[0]);
      NothingIsDispatchedBefore(w1, steps[1..], until);
    }
  }

  // -------------------------------------------------------------------- a run

  const LATER := Job(0, LazySchedule(OneOff(10), None, None, None), None)
  const SOONER := Job(1, LazySchedule(OneOff(2), None, None, None), None)
  const EARLY := QueueEntry(2, 1, 1, 1)

  /** The queue loop waits for the job due at 10. */
  function ToWait(): seq<Step> {
    ToStart(LATER) + [QueueTurn(0, 0, 0)]
  }

  /** Meanwhile a job due at 2 is registered and activated, and time goes on to 5. */
  const MEANWHILE: seq<Step> := [Register(SOONER), SyncRegistry(1), SyncRegistry(5)]

  lemma WaitIsReached()
    ensures Runs(NewWorld(CFG, 0), ToWait())
    ensures var w := After(NewWorld(CFG, 0), ToWait());
      RunsWith(w, LATER, Asleep(Some(10)), [FIRST], []) && w.now == 0
  {
    var w := NewWorld(CFG, 0);
    StartIsReached(LATER);
    var w1 := After(w, ToStart(LATER));
    Turned(w1, LATER, 0);
    OneStep(w1, QueueTurn(0, 0, 0));
    RunsOn(w, ToStart(LATER), [QueueTurn(0, 0, 0)]);
  }

  lemma SoonerIsPushed(s: State)
    requires s.jobs == [LATER, SOONER] && s.active == {0} && s.queue == [FIRST] && s.generations == map[0 := 1]
    ensures var s' := PopulateMissing(s, 1);
      s'.jobs == s.jobs && EARLY in s'.queue && Live(s', EARLY)
  {
    assert Ids(s.jobs) == {0, 1} by {
      assert s.jobs[0].id == 0 && s.jobs[1].id == 1;
    }
    assert s.active - Ids(s.jobs) == {};
    assert s.generations - {} == s.generations && s.lastRefresh - {} == s.lastRefresh && s.active - {} == s.active;
    assert Forget(s) == s;
    assert s.jobs[1..] == [SOONER] && s.jobs[1..][1..] == [];
    var s1 := RefreshJob(s, SOONER, 1);
    assert RefreshEach(s, s.jobs, 1, Missing) == RefreshEach(s, [SOONER], 1, Missing);
    assert RefreshEach(s, [SOONER], 1, Missing) == RefreshEach(s1, [], 1, Missing);
    InsertHas(s.queue, EARLY);
    assert Lookup([LATER, SOONER], 1) == Lookup([SOONER], 1) == Some(SOONER);
  }

  lemma SoonerRegistered(w: World)
    requires RunsWith(w, LATER, Asleep(Some(10)), [FIRST], []) && w.now == 0
    ensures Enabled(w, Register(SOONER))
    ensures var a := Next(w, Register(SOONER));
      && Fits(a.s, a.known) && a.now == 0 && Enabled(a, SyncRegistry(1))
      && EARLY in PopulateMissing(a.s, 1).queue && Live(PopulateMissing(a.s, 1), EARLY)
  {
    StepFits(w, Register(SOONER));
    SoonerIsPushed(Next(w, Register(SOONER)).s);
  }

  lemma SyncedTwice(a: World)
    requires Fits(a.s, a.known) && a.now == 0
    ensures Runs(a, [SyncRegistry(1), SyncRegistry(5)])
    ensures var b := After(a, [SyncRegistry(1), SyncRegistry(5)]); b.s == PopulateMissing(a.s, 1) && b.now == 5
  {
    SyncTwiceIsOnce(a.s, a.known, 1, 5);
    TwoSteps(a, SyncRegistry(1), SyncRegistry(5));
  }

  lemma MeanwhileRuns(w: World)
    requires RunsWith(w, LATER, Asleep(Some(10)), [FIRST], []) && w.now == 0
    ensures Runs(w, MEANWHILE)
    ensures var b := After(w, MEANWHILE); EARLY in b.s.queue && Live(b.s, EARLY) && b.now == 5
  {
    SoonerRegistered(w);
    SyncedTwice(Next(w, Register(SOONER)));
    assert MEANWHILE[1..] == [SyncRegistry(1), SyncRegistry(5)];
  }

  lemma EarlyWaits(w: World)
    requires RunsWith(w, LATER, Asleep(Some(10)), [FIRST], []) && w.now == 0
    ensures Runs(w, MEANWHILE)
    ensures var b := After(w, MEANWHILE);
      && EARLY in b.s.queue && Live(b.s, EARLY) && EARLY.when < b.now
      && Waits(b.s, 10) && b.dispatches == w.dispatches
  {
    MeanwhileRuns(w);
    NothingIsDispatchedBefore(w, MEANWHILE, 10);
  }

  /** A run of a new daemon in which an entry due at 2 is pushed while the loop waits until 10: at 5
      it is live, queued and past its time, and the loop still waits. */
  lemma EarlierEntryWaits()
    ensures Runs(NewWorld(CFG, 0), ToWait() + MEANWHILE)
    ensures var w := After(NewWorld(CFG, 0), ToWait() + MEANWHILE);
      EARLY in w.s.queue && Live(w.s, EARLY) && EARLY.when < w.now && Waits(w.s, 10)
  {
    WaitIsReached();
    EarlyWaits(After(NewWorld(CFG, 0), ToWait()));
    RunsOn(NewWorld(CFG, 0), ToWait(), MEANWHILE);
  }
}
