/** The chains at a job's current generation, counted exactly: when there is more than one, when
    there is none, and the runs in which it happens. */
module OwnChains {
  import opened Counting
  import opened Options
  import opened Daemon
  import opened Machine
  import opened WellFormed
  import opened LiveChains
  import opened Executions
  import opened Dispatching
  import opened Staleness

  // -------------------------------------------------------------------- steps

  lemma SettlesOwn(s: State, known: map<JobId, Job>, s': State, id: JobId)
    requires Fits(s, known) && Settles(s, s', id) && id in s'.generations
    ensures if Bumped(s, s', id) then Own(s', id) == LiveEntries(s', id) else Own(s', id) <= Own(s, id)
    ensures Registered(s, id) && !Bumped(s, s', id) ==> Own(s', id) == Own(s, id)
  {
    if Bumped(s, s', id) {
      forall i | 0 <= i < |s.inflight| ensures !Holds(id, s'.generations[id])(s.inflight[i]) {
        assert ExecutionFits(s.jobs, s.generations, known, s.inflight[i]);
      }
      CountNone(s.inflight, Holds(id, s'.generations[id]));
    }
  }

  /** An execution that goes on, at the generation of its phase. */
  lemma EnterOwn(s: State, i: nat, phase: Phase, id: JobId)
    requires i < |s.inflight| && id in s.generations
    ensures var x := s.inflight[i];
      Own(Enter(s, i, phase), id) + One(id == x.job && Current(s, x)) ==
      Own(s, id) + One(id == x.job && Current(s, x.(phase := phase)))
  {
    CountUpdate(s.inflight, i, s.inflight[i].(phase := phase), Holds(id, s.generations[id]));
  }

  lemma LeavesOwn(s: State, s': State, i: nat, id: JobId, extra: nat)
    requires i < |s.inflight| && id in s.generations && Leaves(s, s', i, id, extra)
    ensures Own(s', id) + One(id == s.inflight[i].job && Current(s, s.inflight[i])) == Own(s, id) + extra
  {
    CountRemove(s.inflight, i, Holds(id, s.generations[id]));
  }

  /** The step of an execution trades its chain at the current generation, if it had one, for the
      one it carries on, if it does. */
  ghost predicate Trades(w: World, step: Step, id: JobId)
    requires Enabled(w, step) && ExecutionStep(step)
  {
    var s, s', x := w.s, StateAfter(w, step), w.s.inflight[step.i];
    && s'.generations == s.generations
    && Own(s', id) + One(id == x.job && Current(s, x)) == Own(s, id) + One(id == x.job && CarriesOn(w, step))
  }

  lemma BeginOwnExactly(w: World, step: Step, id: JobId)
    requires Fits(w.s, w.known) && Enabled(w, step) && step.BeginAt? && id in w.s.generations
    ensures Trades(w, step, id)
  {
    var s, i, now := w.s, step.i, step.now;
    var x := s.inflight[i];
    assert ExecutionFits(s.jobs, s.generations, w.known, x);
    BeginLeaves(s, w.known, i, now, step.later, id);
    var job := Lookup(s.jobs, x.job);
    if job.Some? && !TooLate(s.cfg, job.value, x.scheduledFor, now) {
      EnterOwn(s, i, Evaluating(job.value, GetOr(s.generations, x.job, 1), step.later), id);
    } else {
      LeavesOwn(s, StateAfter(w, step), i, id, One(id == x.job && BeginCarries(s, x, now)));
    }
  }

  lemma DecideOwnExactly(w: World, step: Step, id: JobId)
    requires Fits(w.s, w.known) && Enabled(w, step) && step.DecideAt? && id in w.s.generations
    ensures Trades(w, step, id)
  {
    var s, i, now := w.s, step.i, step.now;
    var x := s.inflight[i];
    match step.outcome
    case None => EnterOwn(s, i, StateAfter(w, step).inflight[i].phase, id);
    case Some(status) =>
      DecideLeaves(s, w.known, i, status, now, id);
      LeavesOwn(s, StateAfter(w, step), i, id, One(id == x.job && DecideCarries(s, x, Some(status), now)));
  }

  lemma CompleteOwnExactly(w: World, step: Step, id: JobId)
    requires Fits(w.s, w.known) && Enabled(w, step) && step.CompleteAt? && id in w.s.generations
    ensures Trades(w, step, id)
  {
    var s, i, x := w.s, step.i, w.s.inflight[step.i];
    CompleteLeaves(s, w.known, i, step.status, step.now, id);
    LeavesOwn(s, StateAfter(w, step), i, id,
              One(id == x.job && id in s.generations && CompleteCarries(s, x, step.status, step.now)));
  }

  lemma AbortOwnExactly(w: World, step: Step, id: JobId)
    requires Enabled(w, step) && step.AbortAt? && id in w.s.generations
    ensures Trades(w, step, id)
  {
    LeavesOwn(w.s, StateAfter(w, step), step.i, id, 0);
  }

  lemma ExecutionTrades(w: World, step: Step, id: JobId)
    requires Fits(w.s, w.known) && Enabled(w, step) && ExecutionStep(step) && id in w.s.generations
    ensures Trades(w, step, id)
  {
    match step
    case BeginAt(_, _, _) => BeginOwnExactly(w, step, id);
    case DecideAt(_, _, _) => DecideOwnExactly(w, step, id);
    case CompleteAt(_, _, _) => CompleteOwnExactly(w, step, id);
    case AbortAt(_) => AbortOwnExactly(w, step, id);
    case _ =>
  }

  /** The step races, and the job is id. */
  ghost predicate RacesOf(w: World, step: Step, id: JobId)
    requires Enabled(w, step)
  {
    Races(w, step) && w.s.inflight[step.i].job == id
  }

  /** Only a race adds a chain to those at the current generation, and it adds one. */
  ghost predicate RaceAdds(w: World, step: Step, id: JobId)
    requires Enabled(w, step)
  {
    var s, s' := w.s, StateAfter(w, step);
    id in s'.generations ==>
      if Bumped(s, s', id) then Own(s', id) <= 1 && !RacesOf(w, step, id)
      else if RacesOf(w, step, id) then Own(s', id) == Own(s, id) + 1
      else Own(s', id) <= Own(s, id)
  }

  lemma SweepRaceAdds(w: World, step: Step, id: JobId)
    requires Fits(w.s, w.known) && Enabled(w, step) && SweepStep(step)
    ensures RaceAdds(w, step, id)
  {
    SweepStepSettles(w, step, id);
    if id in StateAfter(w, step).generations {
      SettlesOwn(w.s, w.known, StateAfter(w, step), id);
    }
  }

  lemma ExecutionRaceAdds(w: World, step: Step, id: JobId)
    requires Fits(w.s, w.known) && Enabled(w, step) && ExecutionStep(step)
    ensures RaceAdds(w, step, id)
  {
    ExecutionStepChains(w, step, id);
    if id in w.s.generations {
      ExecutionTrades(w, step, id);
    }
  }

  lemma StepRaceAdds(w: World, step: Step, id: JobId)
    requires Fits(w.s, w.known) && Enabled(w, step)
    ensures RaceAdds(w, step, id)
  {
    if SweepStep(step) {
      SweepRaceAdds(w, step, id);
    } else if ExecutionStep(step) {
      ExecutionRaceAdds(w, step, id);
    } else if step.QueueGrant? {
      QueueSlotChains(w.s, step.now, id);
    } else if step.PeekNext? {
      PurgeKeepsLive(w.s, id);
    }
  }

  ghost predicate AtMostOne(s: State, id: JobId) {
    id in s.generations ==> Own(s, id) <= 1
  }

  /** A job with at most one chain is left with more if and only if the step races while the job
      has one: an execution begins, or fails under a policy, after a refresh that left a chain. */
  lemma StepDoublesExactly(w: World, step: Step, id: JobId)
    requires Fits(w.s, w.known) && Enabled(w, step) && AtMostOne(w.s, id)
    ensures !AtMostOne(StateAfter(w, step), id) <==> RacesOf(w, step, id) && Own(w.s, id) == 1
  {
    StepRaceAdds(w, step, id);
    if ExecutionStep(step) {
      ExecutionStepChains(w, step, id);
    }
  }

  // --------------------------------------------------------------------- runs

  /** Every state of the run has at most one chain of the job. */
  ghost predicate StaysSingle(w: World, steps: seq<Step>, id: JobId)
    requires Runs(w, steps)
    decreases |steps|
  {
    AtMostOne(w.s, id) && (steps != [] ==> StaysSingle(Next(w, steps[0]), steps[1..], id))
  }

  /** Some step of the run races while the job has a chain. */
  ghost predicate RacesSometime(w: World, steps: seq<Step>, id: JobId)
    requires Runs(w, steps)
    decreases |steps|
  {
    && steps != []
    && ((RacesOf(w, steps[0], id) && Own(w.s, id) == 1) || RacesSometime(Next(w, steps[0]), steps[1..], id))
  }

  /** Exactly when a run keeps a job to one chain, with or without a fail policy. */
  lemma {:induction false} RunStaysSingleExactly(w: World, steps: seq<Step>, id: JobId)
    requires Fits(w.s, w.known) && Runs(w, steps) && AtMostOne(w.s, id)
    ensures StaysSingle(w, steps, id) <==> !RacesSometime(w, steps, id)
    decreases |steps|
  {
    if steps != [] {
      StepFits(w, steps[0]);
      StepDoublesExactly(w, steps[0], id);
      if AtMostOne(Next(w, steps[0]).s, id) {
        RunStaysSingleExactly(Next(w, steps[0]), steps[1..], id);
      }
    }
  }

  /** A job that never raced has at most one chain at its current generation. */
  ghost predicate OwnBounded(w: World) {
    forall id :: id in w.s.generations && id !in w.raced ==> Own(w.s, id) <= 1
  }

  lemma StepKeepsOwnBounded(w: World, step: Step)
    requires Fits(w.s, w.known) && Enabled(w, step) && OwnBounded(w)
    ensures OwnBounded(Next(w, step))
  {
    var w' := Next(w, step);
    forall id | id in w'.s.generations && id !in w'.raced ensures Own(w'.s, id) <= 1 {
      StepRaceAdds(w, step, id);
    }
  }

  /** In every reachable state of every interleaving. */
  lemma {:induction false} OwnIsBounded(w: World, steps: seq<Step>)
    requires Fits(w.s, w.known) && OwnBounded(w) && Runs(w, steps)
    ensures OwnBounded(After(w, steps))
    decreases |steps|
  {
    if steps != [] {
      StepFits(w, steps[0]);
      StepKeepsOwnBounded(w, steps[0]);
      OwnIsBounded(Next(w, steps[0]), steps[1..]);
    }
  }

  // -------------------------------------------------------------- no job lost

  lemma {:induction false} RefreshEachKeepsJobs(s: State, jobs: seq<Job>, now: int, sweep: Sweep)
    ensures RefreshEach(s, jobs, now, sweep).jobs == s.jobs
    decreases |jobs|
  {
    if jobs != [] {
      var s1 := if Due(s, jobs[0], now, sweep) then RefreshJob(s, jobs[0], now) else s;
      RefreshEachKeepsJobs(s1, jobs[1..], now, sweep);
    }
  }

  lemma QueueTopKeepsJobs(s: State, t1: int, t2: int, t3: int)
    ensures QueueTop(s, t1, t2, t3).jobs == s.jobs
  {
    RefreshEachKeepsJobs(Forget(s), s.jobs, t2, Missing);
  }

  lemma MidnightKeepsJobs(s: State, now: int, later: int)
    ensures MidnightTop(s, now, later).jobs == s.jobs && MidnightWake(s, later).jobs == s.jobs
  {
    RefreshEachKeepsJobs(s, s.jobs, later, RolledOver);
  }

  lemma SweepKeepsJobs(w: World, step: Step)
    requires Enabled(w, step) && SweepStep(step)
    ensures StateAfter(w, step).jobs == w.s.jobs
  {
    var s := w.s;
    match step
    case SyncRegistry(now) => RefreshEachKeepsJobs(Forget(s), s.jobs, now, Missing);
    case Run(now, until) => RefreshEachKeepsJobs(s.(running := true, until := until), s.jobs, now, Missing);
    case QueueTurn(now, t2, t3) => QueueTopKeepsJobs(s, now, t2, t3);
    case MidnightTurn(now, later) => MidnightKeepsJobs(s, now, later);
    case MidnightWakes(now) => MidnightKeepsJobs(s, now, now);
    case _ =>
  }

  lemma ExecutionKeepsJobs(w: World, step: Step)
    requires Enabled(w, step) && ExecutionStep(step)
    ensures StateAfter(w, step).jobs == w.s.jobs
  {
    ExecutionStepEnds(w, step);
  }

  lemma StepKeepsJobs(w: World, step: Step)
    requires Enabled(w, step) && !step.Register? && !step.Remove? && !step.Clear?
    ensures StateAfter(w, step).jobs == w.s.jobs
  {
    if SweepStep(step) {
      SweepKeepsJobs(w, step);
    } else if ExecutionStep(step) {
      ExecutionKeepsJobs(w, step);
    } else if step.QueueGrant? {
      var _ := GrantShape(w.s, step.now);
    }
  }

  /** The step removes the job or aborts an execution of it. */
  ghost predicate Disturbs(w: World, step: Step, id: JobId)
    requires Enabled(w, step)
  {
    match step
    case Remove(gone) => gone == id
    case Clear => true
    case AbortAt(i) => w.s.inflight[i].job == id
    case _ => false
  }

  /** An endless job stays so until it is removed, and was so unless it has just been registered. */
  lemma StepKeepsEndless(w: World, step: Step, id: JobId)
    requires Fits(w.s, w.known) && Enabled(w, step)
    ensures Endless(w.s, id) && !Disturbs(w, step, id) ==> Endless(StateAfter(w, step), id)
    ensures Endless(StateAfter(w, step), id) && id in w.known ==> Endless(w.s, id)
  {
    match step
    case Register(job) => LookupAppend(w.s.jobs, job, id);
    case Remove(gone) => LookupWithout(w.s.jobs, gone, id);
    case Clear =>
    case _ => StepKeepsJobs(w, step);
  }

  /** An execution of an endless job that is at the current generation carries its chain on. */
  lemma EndlessCarries(w: World, step: Step)
    requires Fits(w.s, w.known) && Enabled(w, step) && ExecutionStep(step) && !step.AbortAt?
    requires Endless(w.s, w.s.inflight[step.i].job) && Current(w.s, w.s.inflight[step.i])
    ensures CarriesOn(w, step)
  {
    var x := w.s.inflight[step.i];
    assert ExecutionFits(w.s.jobs, w.s.generations, w.known, x);
    LookupFinds(w.s.jobs, x.job);
  }

  lemma SweepLosesNone(w: World, step: Step, id: JobId)
    requires Fits(w.s, w.known) && Enabled(w, step) && SweepStep(step) && Endless(w.s, id)
    requires id in w.s.generations ==> Own(w.s, id) >= 1
    ensures id in StateAfter(w, step).generations ==> Own(StateAfter(w, step), id) >= 1
  {
    var s' := StateAfter(w, step);
    SweepStepSettles(w, step, id);
    if id in s'.generations {
      SettlesOwn(w.s, w.known, s', id);
    }
  }

  lemma ExecutionLosesNone(w: World, step: Step, id: JobId)
    requires Fits(w.s, w.known) && Enabled(w, step) && ExecutionStep(step) && Endless(w.s, id)
    requires id in w.s.generations && Own(w.s, id) >= 1 && !Disturbs(w, step, id)
    ensures Own(StateAfter(w, step), id) >= 1
  {
    ExecutionTrades(w, step, id);
    if w.s.inflight[step.i].job == id && Current(w.s, w.s.inflight[step.i]) {
      EndlessCarries(w, step);
    }
  }

  /** An endless job that has a chain keeps one, in every step that does not remove or abort it. */
  lemma StepLosesNone(w: World, step: Step, id: JobId)
    requires Fits(w.s, w.known) && Enabled(w, step) && Endless(w.s, id) && !Disturbs(w, step, id)
    requires id in w.s.generations ==> Own(w.s, id) >= 1
    ensures id in StateAfter(w, step).generations ==> Own(StateAfter(w, step), id) >= 1
  {
    if SweepStep(step) {
      SweepLosesNone(w, step, id);
    } else if ExecutionStep(step) {
      ExecutionStepChains(w, step, id);
      if id in w.s.generations {
        ExecutionLosesNone(w, step, id);
      }
    } else if step.QueueGrant? {
      QueueSlotChains(w.s, step.now, id);
    } else if step.PeekNext? {
      PurgeKeepsLive(w.s, id);
    }
  }

  /** No job is lost: an active registered job whose trigger always resolves has a chain, unless one
      of its executions was aborted. */
  ghost predicate NoneLost(w: World) {
    forall id :: id in w.s.generations && Endless(w.s, id) && id !in w.aborted ==> Own(w.s, id) >= 1
  }

  lemma StepKeepsNoneLost(w: World, step: Step)
    requires Fits(w.s, w.known) && Enabled(w, step) && NoneLost(w)
    ensures NoneLost(Next(w, step))
  {
    var w' := Next(w, step);
    StepFits(w, step);
    forall id | id in w'.s.generations && Endless(w'.s, id) && id !in w'.aborted ensures Own(w'.s, id) >= 1 {
      StepKeepsEndless(w, step, id);
      if Disturbs(w, step, id) {
        LookupWithout(w.s.jobs, id, id);
      } else if id in w.known {
        StepLosesNone(w, step, id);
      }
    }
  }

  /** An endless job that neither raced nor was aborted has exactly one chain. */
  lemma ExactlyOneChain(w: World, id: JobId)
    requires OwnBounded(w) && NoneLost(w)
    requires id in w.s.generations && Endless(w.s, id) && id !in w.raced && id !in w.aborted
    ensures Own(w.s, id) == 1
  {
  }

  /** No step of the run removes the job or aborts an execution of it. */
  ghost predicate Undisturbed(w: World, steps: seq<Step>, id: JobId)
    requires Runs(w, steps)
    decreases |steps|
  {
    steps != [] ==> !Disturbs(w, steps[0], id) && Undisturbed(Next(w, steps[0]), steps[1..], id)
  }

  /** Some step of the run races. */
  ghost predicate RacesAtAll(w: World, steps: seq<Step>, id: JobId)
    requires Runs(w, steps)
    decreases |steps|
  {
    steps != [] && (RacesOf(w, steps[0], id) || RacesAtAll(Next(w, steps[0]), steps[1..], id))
  }

  /** For an undisturbed endless job the guards of the steps alone decide: it is kept to one chain
      if and only if no execution of it begins, or fails under a policy, after a refresh. */
  lemma {:induction false} EndlessStaysSingleExactly(w: World, steps: seq<Step>, id: JobId)
    requires Fits(w.s, w.known) && Runs(w, steps) && Undisturbed(w, steps, id)
    requires Endless(w.s, id) && id in w.s.generations && Own(w.s, id) == 1
    ensures StaysSingle(w, steps, id) <==> !RacesAtAll(w, steps, id)
    decreases |steps|
  {
    if steps != [] {
      var w' := Next(w, steps[0]);
      StepFits(w, steps[0]);
      StepDoublesExactly(w, steps[0], id);
      StepKeepsEndless(w, steps[0], id);
      StepGoesOn(w, steps[0], id);
      LookupFinds(w.s.jobs, id);
      StepLosesNone(w, steps[0], id);
      if AtMostOne(w'.s, id) {
        EndlessStaysSingleExactly(w', steps[1..], id);
      }
    }
  }
}
