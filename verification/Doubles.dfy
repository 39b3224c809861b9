/** The two ways in which a job comes to two chains, exactly, and runs from a new daemon that lead
    to each. */
module Doubles {
  import opened Counting
  import opened Options
  import opened Schedules
  import opened Daemon
  import opened Machine
  import opened WellFormed
  import opened LiveChains
  import opened OwnChains
  import opened FirstRuns

  /** After a refresh the executions in flight are at an outdated generation. */
  lemma RefreshOutdates(w: World, id: JobId, t: int)
    requires Fits(w.s, w.known) && Registered(w.s, id) && w.now <= t
    ensures var w' := Next(w, RefreshCall(id, t));
      && Fits(w'.s, w'.known) && w'.s.jobs == w.s.jobs && w'.s.inflight == w.s.inflight && w'.s.cfg == w.s.cfg
      && id in w'.s.generations && Own(w'.s, id) == One(Resolves(Lookup(w.s.jobs, id).value, t))
      && forall i :: 0 <= i < |w.s.inflight| && w.s.inflight[i].job == id ==> !Current(w'.s, w.s.inflight[i])
  {
    var step := RefreshCall(id, t);
    LookupFinds(w.s.jobs, id);
    StepFits(w, step);
    StepKeepsJobs(w, step);
    RefreshChainsExactly(w.s, w.known, id, t);
    SweepStepSettles(w, step, id);
    SettlesOwn(w.s, w.known, StateAfter(w, step), id);
    forall i | 0 <= i < |w.s.inflight| && w.s.inflight[i].job == id
      ensures !Current(StateAfter(w, step), w.s.inflight[i])
    {
      assert ExecutionFits(w.s.jobs, w.s.generations, w.known, w.s.inflight[i]);
    }
  }

  /** A call that ends at an outdated generation: under a policy a failure adds a chain if there is
      anything to schedule; no other end does. */
  lemma OutdatedCompletes(w: World, i: nat, status: Status, now: int)
    requires Fits(w.s, w.known) && Enabled(w, CompleteAt(i, status, now))
    requires w.s.inflight[i].job in w.s.generations && !Current(w.s, w.s.inflight[i])
    ensures var x := w.s.inflight[i];
      var job := x.phase.spec;
      Own(Next(w, CompleteAt(i, status, now)).s, x.job) == Own(w.s, x.job) +
        One(status != Success && job.trigger.failPolicy.Some? && (RetryGranted(job, x.attempt) || Resolves(job, now)))
  {
    CompleteOwnExactly(w, CompleteAt(i, status, now), w.s.inflight[i].job);
  }

  lemma StillCalling(w: World, i: nat, t: int, status: Status, now: int)
    requires Fits(w.s, w.known) && i < |w.s.inflight| && w.now <= t <= now && status in {Success, Failed, TimedOut}
    requires w.s.inflight[i].phase.Calling? && Registered(w.s, w.s.inflight[i].job)
    ensures Enabled(Next(w, RefreshCall(w.s.inflight[i].job, t)), CompleteAt(i, status, now))
  {
    RefreshOutdates(w, w.s.inflight[i].job, t);
  }

  lemma RefreshThenBegin(w: World, i: nat, t: int, now: int, later: int)
    requires Fits(w.s, w.known) && i < |w.s.inflight| && w.now <= t <= now <= later
    requires w.s.inflight[i].phase.Dispatched? && Registered(w.s, w.s.inflight[i].job)
    ensures var x, job := w.s.inflight[i], Lookup(w.s.jobs, w.s.inflight[i].job).value;
      var w1 := Next(w, RefreshCall(x.job, t));
      && Enabled(w1, BeginAt(i, now, later))
      && Own(Next(w1, BeginAt(i, now, later)).s, x.job) ==
         One(Resolves(job, t)) + One(TooLate(w.s.cfg, job, x.scheduledFor, now) ==> Resolves(job, now))
  {
    var x := w.s.inflight[i];
    RefreshOutdates(w, x.job, t);
    BeginOwnExactly(Next(w, RefreshCall(x.job, t)), BeginAt(i, now, later), x.job);
  }

  /** A refresh between a pop and the start of its execution: two chains, if and only if the refresh
      found a next run and the execution goes on or, when skipped for being late, finds one too. */
  lemma RaceDoublesExactly(w: World, i: nat, t: int, now: int, later: int)
    requires Fits(w.s, w.known) && i < |w.s.inflight| && w.now <= t <= now <= later
    requires w.s.inflight[i].phase.Dispatched? && Registered(w.s, w.s.inflight[i].job)
    ensures var x, job := w.s.inflight[i], Lookup(w.s.jobs, w.s.inflight[i].job).value;
      var steps := [RefreshCall(x.job, t), BeginAt(i, now, later)];
      && Runs(w, steps)
      && (Own(After(w, steps).s, x.job) >= 2 <==>
            Resolves(job, t) && (TooLate(w.s.cfg, job, x.scheduledFor, now) ==> Resolves(job, now)))
  {
    RefreshThenBegin(w, i, t, now, later);
    TwoSteps(w, RefreshCall(w.s.inflight[i].job, t), BeginAt(i, now, later));
  }

  lemma RefreshThenComplete(w: World, i: nat, t: int, status: Status, now: int)
    requires Fits(w.s, w.known) && i < |w.s.inflight| && w.now <= t <= now && status in {Success, Failed, TimedOut}
    requires w.s.inflight[i].phase.Calling? && Registered(w.s, w.s.inflight[i].job)
    ensures var x, job := w.s.inflight[i], w.s.inflight[i].phase.spec;
      var w1 := Next(w, RefreshCall(x.job, t));
      && Enabled(w1, CompleteAt(i, status, now))
      && Own(Next(w1, CompleteAt(i, status, now)).s, x.job) == One(Resolves(job, t)) +
         One(status != Success && job.trigger.failPolicy.Some? && (RetryGranted(job, x.attempt) || Resolves(job, now)))
  {
    var x := w.s.inflight[i];
    assert ExecutionFits(w.s.jobs, w.s.generations, w.known, x);
    LookupFinds(w.s.jobs, x.job);
    RefreshOutdates(w, x.job, t);
    StillCalling(w, i, t, status, now);
    OutdatedCompletes(Next(w, RefreshCall(x.job, t)), i, status, now);
  }

  /** A refresh during a call: two chains, if and only if the refresh found a next run and the call
      fails under a policy; the retry, or the next run, is pushed at the generation read then. */
  lemma RetryDoublesExactly(w: World, i: nat, t: int, status: Status, now: int)
    requires Fits(w.s, w.known) && i < |w.s.inflight| && w.now <= t <= now && status in {Success, Failed, TimedOut}
    requires w.s.inflight[i].phase.Calling? && Registered(w.s, w.s.inflight[i].job)
    ensures var x, job := w.s.inflight[i], w.s.inflight[i].phase.spec;
      var steps := [RefreshCall(x.job, t), CompleteAt(i, status, now)];
      && Runs(w, steps)
      && (Own(After(w, steps).s, x.job) >= 2 <==>
            && Resolves(job, t) && status != Success && job.trigger.failPolicy.Some?
            && (RetryGranted(job, x.attempt) || Resolves(job, now)))
  {
    RefreshThenComplete(w, i, t, status, now);
    TwoSteps(w, RefreshCall(w.s.inflight[i].job, t), CompleteAt(i, status, now));
  }

  // --------------------------------------------------------------------- runs

  /** Its next run is always ten after; a failed one is retried after five. */
  const TICKING := Job(0, LazySchedule(Custom((t: int) => Some(t + 10)), None, None, Some(POLICY)), None)

  /** A run of a new daemon that a refresh between pop and begin takes to two chains. */
  lemma RaceHappens()
    ensures var steps := ToPop(TICKING) + [RefreshCall(0, 10), BeginAt(0, 10, 10)];
      Runs(NewWorld(CFG, 0), steps) && Own(After(NewWorld(CFG, 0), steps).s, 0) >= 2
  {
    var w := NewWorld(CFG, 0);
    PopIsReached(TICKING);
    var w1 := After(w, ToPop(TICKING));
    assert Lookup(w1.s.jobs, 0) == Some(TICKING) && Resolves(TICKING, 10);
    RaceDoublesExactly(w1, 0, 10, 10, 10);
    RunsOn(w, ToPop(TICKING), [RefreshCall(0, 10), BeginAt(0, 10, 10)]);
  }

  /** And one that a refresh during a failing call does. */
  lemma RetryRaceHappens()
    ensures var steps := ToCall(TICKING) + [RefreshCall(0, 10), CompleteAt(0, Failed, 10)];
      Runs(NewWorld(CFG, 0), steps) && Own(After(NewWorld(CFG, 0), steps).s, 0) >= 2
  {
    var w := NewWorld(CFG, 0);
    CallIsReached(TICKING);
    var w1 := After(w, ToCall(TICKING));
    assert Lookup(w1.s.jobs, 0) == Some(TICKING) && Resolves(TICKING, 10);
    RetryDoublesExactly(w1, 0, 10, Failed, 10);
    RunsOn(w, ToCall(TICKING), [RefreshCall(0, 10), CompleteAt(0, Failed, 10)]);
  }
}
