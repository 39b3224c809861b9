/** The invariants together, from a new daemon through every run. */
module EveryRun {
  import opened BoundedDeques
  import opened Counting
  import opened Options
  import opened Daemon
  import opened Machine
  import opened WellFormed
  import opened LiveChains
  import opened OwnChains
  import opened Attempts
  import opened OneOff
  import opened Executions
  import opened Dispatching
  import opened Slots
  import opened Accounts
  import opened QueueEntries
  import opened KeptEntries
  import opened LostRetries
  import opened AskedTimes
  import opened ExecutionLoops

  /** The in-memory history is the end of the full log. */
  ghost predicate HistoryIsEnd(w: World) {
    w.s.history == LastOf(w.log, w.s.cfg.historyLimit)
  }

  /** Scheduling, sweeping and slots leave the history alone. */
  lemma {:induction false} SweepKeepsHistory(s: State, jobs: seq<Job>, now: int, sweep: Sweep)
    ensures RefreshEach(s, jobs, now, sweep).history == s.history
    ensures RefreshEach(s, jobs, now, sweep).cfg == s.cfg
    decreases |jobs|
  {
    if jobs != [] {
      SweepKeepsHistory(if Due(s, jobs[0], now, sweep) then RefreshJob(s, jobs[0], now) else s, jobs[1..], now, sweep);
    }
  }

  /** An execution's segment appends its record, if it writes one. */
  lemma ExecutionHistory(w: World, step: Step)
    requires Enabled(w, step) && ExecutionStep(step)
    ensures StateAfter(w, step).cfg == w.s.cfg
    ensures StateAfter(w, step).history ==
      match RecordOf(w, step) case None => w.s.history case Some(r) => LastOf(w.s.history + [r], w.s.cfg.historyLimit)
  {
    var s, i := w.s, step.i;
    var x := s.inflight[i];
    match step
    case BeginAt(_, now, later) =>
      var job := Lookup(s.jobs, x.job);
      if job.Some? {
        SchedulingOnlyPushes(AddRecord(s, SkipRecord(x, job.value, now, later)), job.value, now, 1,
                             GetOr(s.generations, job.value.id, 1));
      }
    case DecideAt(_, outcome, now) =>
      if outcome.Some? {
        SchedulingOnlyPushes(AddRecord(s, OutcomeRecord(x, outcome.value, now)), x.phase.spec, now, 1,
          x.phase.generation);
      }
    case CompleteAt(_, status, now) =>
      FollowUpOnlyPushes(AddRecord(s, OutcomeRecord(x, status, now)), x.phase.spec, x.phase.generation,
        x.attempt, status, now);
    case _ =>
  }

  lemma SweepStepHistory(w: World, step: Step)
    requires Enabled(w, step) && SweepStep(step)
    ensures StateAfter(w, step).history == w.s.history && StateAfter(w, step).cfg == w.s.cfg
  {
    var s := w.s;
    match step
    case SyncRegistry(now) => SweepKeepsHistory(Forget(s), s.jobs, now, Missing);
    case Run(now, until) => SweepKeepsHistory(s.(running := true, until := until), s.jobs, now, Missing);
    case QueueTurn(_, t2, _) => SweepKeepsHistory(Forget(s), s.jobs, t2, Missing);
    case MidnightTurn(_, later) => SweepKeepsHistory(s, s.jobs, later, RolledOver);
    case MidnightWakes(now) => SweepKeepsHistory(s, s.jobs, now, RolledOver);
    case _ =>
  }

  lemma StepKeepsHistory(w: World, step: Step)
    requires Enabled(w, step) && HistoryIsEnd(w)
    ensures HistoryIsEnd(Next(w, step))
  {
    if SweepStep(step) {
      SweepStepHistory(w, step);
    } else if ExecutionStep(step) {
      ExecutionHistory(w, step);
      if RecordOf(w, step).Some? {
        LastOfAppended(w.log, RecordOf(w, step).value, w.s.cfg.historyLimit);
      }
    }
  }

  ghost predicate Sound(w: World) {
    && Fits(w.s, w.known)
    && ChainsBounded(w)
    && OwnBounded(w)
    && NoneLost(w)
    && AttemptsEarned(w)
    && AllOneOffs(w)
    && SlotsConserved(w)
    && ShutdownInv(w)
    && HistoryIsEnd(w)
    && Accounted(w)
    && TimesFit(w)
    && AllAsked(w)
  }

  lemma NewIsSound(cfg: Config, now: int)
    ensures Sound(NewWorld(cfg, now))
  {
  }

  lemma StepIsSound(w: World, step: Step)
    requires Sound(w) && Enabled(w, step)
    ensures Sound(Next(w, step))
  {
    StepFits(w, step);
    StepKeepsChainsBounded(w, step);
    StepKeepsOwnBounded(w, step);
    StepKeepsNoneLost(w, step);
    StepKeepsEarned(w, step);
    StepKeepsAllOneOffs(w, step);
    StepMovesSlots(w, step);
    StepKeepsShutdown(w, step);
    StepKeepsHistory(w, step);
    StepKeepsAccounted(w, step);
    StepKeepsTimes(w, step);
    StepKeepsAsked(w, step);
  }

  lemma {:induction false} RunIsSound(w: World, steps: seq<Step>)
    requires Sound(w) && Runs(w, steps)
    ensures Sound(After(w, steps))
    decreases |steps|
  {
    if steps != [] {
      StepIsSound(w, steps[0]);
      RunIsSound(Next(w, steps[0]), steps[1..]);
    }
  }

  /** Every state that any interleaving of a new daemon reaches is sound. */
  lemma EveryRunIsSound(cfg: Config, now: int, steps: seq<Step>)
    requires Runs(NewWorld(cfg, now), steps)
    ensures Sound(After(NewWorld(cfg, now), steps))
  {
    NewIsSound(cfg, now);
    RunIsSound(NewWorld(cfg, now), steps);
  }

  /** Whatever any run dispatches next is then due and the least live entry. */
  lemma EveryDispatchIsLeastLive(cfg: Config, now: int, steps: seq<Step>, step: Step)
    requires Runs(NewWorld(cfg, now), steps)
    requires var w := After(NewWorld(cfg, now), steps); Enabled(w, step) && DispatchOf(w.s, step).Some?
    ensures var w := After(NewWorld(cfg, now), steps);
      step.QueueGrant? && LeastLive(w.s, DispatchOf(w.s, step).value) && DispatchOf(w.s, step).value.when <= step.now
  {
    EveryRunIsSound(cfg, now, steps);
    DispatchesAreLeastLive(After(NewWorld(cfg, now), steps), step);
  }

  /** Whenever no run is on, every dispatch has been settled: as many records as dispatches, but for
      the executions that were aborted or whose job was gone before they began. */
  lemma EveryDispatchIsSettled(cfg: Config, now: int, steps: seq<Step>, o: Occurrence)
    requires Runs(NewWorld(cfg, now), steps) && After(NewWorld(cfg, now), steps).s.run.Idle?
    ensures var w := After(NewWorld(cfg, now), steps);
      Count(w.log, RecordIs(o)) + QuietEnds(NewWorld(cfg, now), steps, o) == Count(w.dispatches, EntryIs(o))
  {
    NewIsSound(cfg, now);
    EveryRunIsSound(cfg, now, steps);
    RunsBalance(NewWorld(cfg, now), steps, o);
  }

  /** Whatever run led to it, a one-off job's pending retry is kept until it is dispatched if and only
      if no step refreshes or removes the job first, and otherwise the job is never called again. */
  lemma EveryRetryIsLostExactly(cfg: Config, now: int, steps: seq<Step>, more: seq<Step>, e: QueueEntry, target: int)
    requires Runs(NewWorld(cfg, now), steps)
    requires var w := After(NewWorld(cfg, now), steps);
      && Runs(w, more) && IsOneOff(w.known, e.job, target)
      && e in w.s.queue && Live(w.s, e) && e.attempt > 1
    ensures var w := After(NewWorld(cfg, now), steps);
      && (Kept(w, more, e) <==> !Outdated(w, more, e))
      && (Outdated(w, more, e) ==> CallsOf(After(w, more).calls, e.job) == CallsOf(w.calls, e.job))
  {
    EveryRunIsSound(cfg, now, steps);
    RetryIsLostExactly(After(NewWorld(cfg, now), steps), more, e, target);
  }

  /** A new registry and loop that take the steps of a run are in its last state, which is sound. */
  method RunDaemon(cfg: Config, ghost now: int, steps: seq<Step>) returns (loop: ExecutionLoop)
    requires Runs(NewWorld(cfg, now), steps)
    ensures fresh(loop) && fresh(loop.registry) && loop.Valid()
    ensures var w := After(NewWorld(cfg, now), steps); loop.View() == w.s && Sound(w)
  {
    var registry := new FuzzyCron();
    loop := new ExecutionLoop(registry, cfg);
    loop.TakeSteps(NewWorld(cfg, now), steps);
    EveryRunIsSound(cfg, now, steps);
  }
}
