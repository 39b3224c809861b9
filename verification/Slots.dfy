/** Concurrency slots and shutdown. */
module Slots {
  import opened Options
  import opened Daemon
  import opened Machine
  import opened WellFormed
  import opened Sweeps
  import opened Executions

  /** Free slots and held slots (one per execution in flight, plus those lent out) make up the
      maximum; the semaphore and the counter agree. */
  ghost predicate SlotsConserved(w: World) {
    && w.s.permits == w.s.available
    && 0 <= w.s.available
    && w.s.available + |w.s.inflight| + w.borrowed == w.s.cfg.maxConcurrency
  }

  /** The slot fields and the executions in flight do not change. */
  ghost predicate SameSlots(s: State, s': State) {
    && s'.cfg == s.cfg && s'.permits == s.permits && s'.available == s.available && s'.inflight == s.inflight
  }

  /** While somebody holds a slot the guard lets the release through. */
  lemma GuardPassesHolders(w: World)
    requires SlotsConserved(w) && |w.s.inflight| + w.borrowed > 0
    ensures ReleaseSlot(w.s).available == w.s.available + 1 && ReleaseSlot(w.s).permits == w.s.permits + 1
  {
  }

  /** A release by somebody who holds nothing keeps the books exactly when no slot is held: the
      guard does not tell such a release from a genuine one. */
  lemma UnpairedRelease(w: World)
    requires SlotsConserved(w)
    ensures SlotsConserved(w.(s := ReleaseSlot(w.s))) <==> |w.s.inflight| + w.borrowed == 0
  {
  }

  /** Outside the slots, the executions, their count and the run, which a sweep leaves alone. */
  ghost predicate SameRun(s: State, s': State) {
    SameSlots(s, s') && s'.nextTask == s.nextTask && s'.run == s.run
  }

  lemma QueueTopSlots(s: State, known: map<JobId, Job>, t1: int, t2: int, t3: int)
    requires Fits(s, known)
    ensures SameRun(s, QueueTop(s, t1, t2, t3))
    ensures var s' := QueueTop(s, t1, t2, t3);
      && s'.midnightLoop == s.midnightLoop && !s'.queueLoop.Top?
      && (if s'.running then s.running && !s'.queueLoop.Exited? else s'.queueLoop.Exited?)
  {
    RefreshEachSwept(Forget(s), s.jobs, t2, Missing);
  }

  lemma MidnightSlots(s: State, known: map<JobId, Job>, now: int, later: int)
    requires Fits(s, known)
    ensures SameRun(s, MidnightTop(s, now, later)) && SameRun(s, MidnightWake(s, later))
    ensures MidnightTop(s, now, later).queueLoop == s.queueLoop && MidnightWake(s, later).queueLoop == s.queueLoop
    ensures MidnightTop(s, now, later).running == s.running && MidnightWake(s, later).running == s.running
  {
    RefreshEachSwept(s, s.jobs, later, RolledOver);
  }

  lemma SyncSlots(s: State, known: map<JobId, Job>, now: int)
    requires Fits(s, known)
    ensures OnlyTables(s, PopulateMissing(s, now))
  {
    RefreshEachSwept(Forget(s), s.jobs, now, Missing);
  }

  lemma RunSlots(s: State, known: map<JobId, Job>, now: int, until: Option<int>)
    requires Fits(s, known)
    ensures var s' := StartRun(s, now, until);
      && SameSlots(s, s') && s'.nextTask == s.nextTask
      && s'.running && s'.run.Looping? && s'.queueLoop.Top?
  {
    RefreshEachSwept(s.(running := true, until := until), s.jobs, now, Missing);
  }

  lemma SlotsAfterExecution(w: World, step: Step)
    requires Enabled(w, step) && SlotsConserved(w) && ExecutionStep(step)
    ensures SlotsConserved(Next(w, step)) && Next(w, step).s.cfg == w.s.cfg
    ensures |StateAfter(w, step).inflight| <= |w.s.inflight|
  {
    ExecutionStepEnds(w, step);
    if Suspended(w.s, StateAfter(w, step), step.i) {
      SuspendedTasks(w.s, StateAfter(w, step), step.i);
    } else {
      OverTasks(w.s, StateAfter(w, step), step.i);
    }
  }

  lemma SlotsAfterGrant(w: World, now: int)
    requires Enabled(w, QueueGrant(now)) && SlotsConserved(w)
    ensures SlotsConserved(Next(w, QueueGrant(now))) && Next(w, QueueGrant(now)).s.cfg == w.s.cfg
    ensures |QueueSlot(w.s, now).inflight| == |w.s.inflight| + if DispatchOf(w.s, QueueGrant(now)).Some? then 1 else 0
  {
    DropDeadDependsOn(w.s, TakeSlot(w.s), w.s.queue);
  }

  lemma SlotsAfterSweep(w: World, step: Step)
    requires Fits(w.s, w.known) && Enabled(w, step) && SweepStep(step)
    ensures SameSlots(w.s, StateAfter(w, step))
  {
    var s, known := w.s, w.known;
    match step
    case SyncRegistry(now) => SyncSlots(s, known, now);
    case Run(now, until) => RunSlots(s, known, now, until);
    case QueueTurn(now, t2, t3) => QueueTopSlots(s, known, now, t2, t3);
    case MidnightTurn(now, later) => MidnightSlots(s, known, now, later);
    case MidnightWakes(now) => MidnightSlots(s, known, now, now);
    case _ =>
  }

  /** Every dispatch takes one slot and every execution that ends gives back one; nothing else
      moves slots but the outside calls. */
  lemma StepMovesSlots(w: World, step: Step)
    requires Fits(w.s, w.known) && Enabled(w, step) && SlotsConserved(w)
    ensures SlotsConserved(Next(w, step)) && Next(w, step).s.cfg == w.s.cfg
    ensures StateAfter(w, step).available - w.s.available ==
      |w.s.inflight| - |StateAfter(w, step).inflight| + (if step.Borrow? then -1 else if step.GiveBack? then 1 else 0)
    ensures |StateAfter(w, step).inflight| > |w.s.inflight| <==> DispatchOf(w.s, step).Some?
  {
    if SweepStep(step) {
      SlotsAfterSweep(w, step);
    } else if ExecutionStep(step) {
      SlotsAfterExecution(w, step);
    } else if step.QueueGrant? {
      SlotsAfterGrant(w, step.now);
    }
  }

  /** In every reachable state of every interleaving. */
  lemma {:induction false} SlotsAreConserved(w: World, steps: seq<Step>)
    requires Fits(w.s, w.known) && SlotsConserved(w) && Runs(w, steps)
    ensures SlotsConserved(After(w, steps)) && After(w, steps).s.cfg == w.s.cfg
    ensures |After(w, steps).s.inflight| <= w.s.cfg.maxConcurrency
    decreases |steps|
  {
    if steps != [] {
      StepFits(w, steps[0]);
      StepMovesSlots(w, steps[0]);
      SlotsAreConserved(Next(w, steps[0]), steps[1..]);
    }
  }

  // ---------------------------------------------------------------- shutdown

  ghost predicate LoopsOver(s: State) {
    s.queueLoop.Exited? && s.midnightLoop.Exited?
  }

  /** Once stopped, at most one more dispatch: the one already waiting for a slot. When gathering,
      the loops are over and every execution in flight is awaited; when idle, none is in flight. */
  ghost predicate ShutdownInv(w: World) {
    var s := w.s;
    && (if s.running then w.late == 0 else w.late + (if s.queueLoop.Acquiring? then 1 else 0) <= 1)
    && (!s.run.Looping? ==> LoopsOver(s))
    && (s.run.Idle? ==> !s.running && s.inflight == [])
    && (s.run.Draining? ==> forall x :: x in s.inflight ==> x.task in s.run.awaited)
  }

  lemma ShutdownAfterExecution(w: World, step: Step)
    requires Enabled(w, step) && ShutdownInv(w) && ExecutionStep(step)
    ensures ShutdownInv(Next(w, step))
  {
    var s, s' := w.s, StateAfter(w, step);
    ExecutionStepEnds(w, step);
    if Suspended(s, s', step.i) {
      SuspendedTasks(s, s', step.i);
    } else {
      OverTasks(s, s', step.i);
    }
    assert s'.run == s.run && s'.running == s.running;
    assert s'.queueLoop == s.queueLoop && s'.midnightLoop == s.midnightLoop;
    if s.run.Draining? {
      StillAwaited(s, s');
    }
  }

  lemma StillAwaited(s: State, s': State)
    requires TasksFrom(s, s') && s.run.Draining? && forall x :: x in s.inflight ==> x.task in s.run.awaited
    ensures forall x :: x in s'.inflight ==> x.task in s.run.awaited
  {
    forall x | x in s'.inflight ensures x.task in s.run.awaited {
      var k :| 0 <= k < |s'.inflight| && s'.inflight[k] == x;
      var m :| 0 <= m < |s.inflight| && s.inflight[m].task == x.task;
      assert s.inflight[m] in s.inflight;
    }
  }

  lemma ShutdownAfterGrant(w: World, now: int)
    requires Enabled(w, QueueGrant(now)) && ShutdownInv(w)
    ensures ShutdownInv(Next(w, QueueGrant(now)))
  {
    var s' := QueueSlot(w.s, now);
    assert s'.queueLoop == Top && s'.running == w.s.running && s'.run == w.s.run;
  }

  lemma ShutdownAfterRun(w: World, now: int, until: Option<int>)
    requires Fits(w.s, w.known) && Enabled(w, Run(now, until)) && ShutdownInv(w)
    ensures ShutdownInv(Next(w, Run(now, until)))
  {
    RunSlots(w.s, w.known, now, until);
  }

  lemma ShutdownAfterQueueTurn(w: World, now: int, t2: int, t3: int)
    requires Fits(w.s, w.known) && Enabled(w, QueueTurn(now, t2, t3)) && ShutdownInv(w)
    ensures ShutdownInv(Next(w, QueueTurn(now, t2, t3)))
  {
    QueueTopSlots(w.s, w.known, now, t2, t3);
  }

  lemma ShutdownAfterSweep(w: World, step: Step)
    requires Fits(w.s, w.known) && Enabled(w, step) && SweepStep(step) && ShutdownInv(w)
    ensures ShutdownInv(Next(w, step))
  {
    var s, known := w.s, w.known;
    match step
    case SyncRegistry(now) => SyncSlots(s, known, now);
    case Run(now, until) => ShutdownAfterRun(w, now, until);
    case QueueTurn(now, t2, t3) => ShutdownAfterQueueTurn(w, now, t2, t3);
    case MidnightTurn(now, later) => MidnightSlots(s, known, now, later);
    case MidnightWakes(now) => MidnightSlots(s, known, now, now);
    case _ =>
  }

  lemma ShutdownAfterQuiet(w: World, step: Step)
    requires Enabled(w, step) && QuietStep(step) && ShutdownInv(w)
    ensures ShutdownInv(Next(w, step))
  {
    if step.Drain? {
      forall x | x in w.s.inflight ensures x.task in Awaited(w.s.inflight) {
        var k :| 0 <= k < |w.s.inflight| && w.s.inflight[k] == x;
      }
    } else if step.Return? {
      AllAwaited(w.s);
    }
  }

  lemma StepKeepsShutdown(w: World, step: Step)
    requires Fits(w.s, w.known) && Enabled(w, step) && ShutdownInv(w)
    ensures ShutdownInv(Next(w, step))
  {
    if SweepStep(step) {
      ShutdownAfterSweep(w, step);
    } else if ExecutionStep(step) {
      ShutdownAfterExecution(w, step);
    } else if QuietStep(step) {
      ShutdownAfterQuiet(w, step);
    } else if step.QueueGrant? {
      ShutdownAfterGrant(w, step.now);
    }
  }

  lemma NoElements<T>(s: seq<T>)
    requires forall x :: x !in s
    ensures s == []
  {
    assert multiset(s) == multiset{} by {
      assert forall x :: x in multiset(s) <==> x in s;
    }
    assert |s| == |multiset(s)|;
  }

  /** All tasks in flight are awaited and no awaited task is in flight. */
  lemma AllAwaited(s: State)
    requires s.run.Draining?
    requires forall x :: x in s.inflight ==> x.task in s.run.awaited
    requires forall x :: x in s.inflight ==> x.task !in s.run.awaited
    ensures s.inflight == []
  {
    NoElements(s.inflight);
  }

  /** In every reachable state of every interleaving. */
  lemma {:induction false} ShutdownIsOrderly(w: World, steps: seq<Step>)
    requires Fits(w.s, w.known) && ShutdownInv(w) && Runs(w, steps)
    ensures ShutdownInv(After(w, steps))
    decreases |steps|
  {
    if steps != [] {
      StepFits(w, steps[0]);
      StepKeepsShutdown(w, steps[0]);
      ShutdownIsOrderly(Next(w, steps[0]), steps[1..]);
    }
  }

  /** When `run` returns, every dispatched execution has finished and given back its slot. */
  lemma ReturnLeavesNothing(w: World)
    requires SlotsConserved(w) && ShutdownInv(w) && Enabled(w, Return)
    ensures var s' := Next(w, Return).s;
      s'.inflight == [] && s'.available + w.borrowed == s'.cfg.maxConcurrency && LoopsOver(s')
  {
    AllAwaited(w.s);
  }
}
