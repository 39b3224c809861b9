/** Every interleaving of the daemon: the queue loop, the midnight loop, the executions in flight
    and outside calls take turns, one atomic segment at a time, under a clock that never goes
    back. `World` adds the logs of a run to the daemon's state. */
module Machine {
  import opened Counting
  import opened Options
  import opened QueueEntries
  import opened Schedules
  import opened Daemon

  /** A call of a job's function. */
  datatype Call = Call(job: JobId, scheduledFor: int, attempt: int, at: int)

  /** `known`: every job ever registered; `borrowed`: slots held by outside callers;
      `inflightAtRefresh`: how many executions of a job were in flight at its latest refresh;
      `raced`: jobs of which some execution took a step that added a chain (see `Races`);
      `aborted`: jobs of which some execution was aborted;
      `late`: dispatches since the daemon stopped running. */
  datatype World = World(
    s: State,
    now: int,
    known: map<JobId, Job>,
    borrowed: nat,
    inflightAtRefresh: map<JobId, nat>,
    raced: set<JobId>,
    aborted: set<JobId>,
    log: seq<Record>,
    calls: seq<Call>,
    dispatches: seq<QueueEntry>,
    late: nat)

  datatype Step =
    // Outside calls: registry edits, public methods, slots taken and returned directly.
    | Register(job: Job) | Remove(id: JobId) | Clear
    | SyncRegistry(now: int) | RefreshCall(id: JobId, now: int) | PeekNext | StopCall
    | Borrow | GiveBack
    // run().
    | Run(now: int, until: Option<int>) | Drain | Return
    // The two loops.
    | QueueTurn(now: int, t2: int, t3: int) | QueueWake(now: int) | QueueGrant(now: int) | QueuePoll
    | MidnightTurn(now: int, later: int) | MidnightWakes(now: int)
    // The execution at position i of those in flight.
    | BeginAt(i: nat, now: int, later: int)
    | DecideAt(i: nat, outcome: Option<Status>, now: int)
    | CompleteAt(i: nat, status: Status, now: int)
    | AbortAt(i: nat)

  /** Steps that sweep over the registry or refresh a job. */
  predicate SweepStep(step: Step) {
    step.SyncRegistry? || step.RefreshCall? || step.Run? || step.QueueTurn? || step.MidnightTurn? || step.MidnightWakes?
  }

  /** Steps of an execution in flight. */
  predicate ExecutionStep(step: Step) {
    step.BeginAt? || step.DecideAt? || step.CompleteAt? || step.AbortAt?
  }

  /** Steps that touch neither the queue nor the executions nor the generations. */
  predicate QuietStep(step: Step) {
    || step.Register? || step.Remove? || step.Clear? || step.StopCall? || step.Borrow? || step.GiveBack?
    || step.Drain? || step.Return? || step.QueueWake? || step.QueuePoll?
  }

  ghost predicate Enabled(w: World, step: Step) {
    var s := w.s;
    match step
    case Register(job) => job.id !in w.known
    case Remove(_) | Clear | PeekNext | StopCall => true
    case SyncRegistry(now) => w.now <= now
    case RefreshCall(_, now) => w.now <= now
    case Borrow => s.permits > 0
    case GiveBack => w.borrowed > 0
    case Run(now, _) => w.now <= now && s.run.Idle?
    case Drain => s.run.Looping? && s.queueLoop.Exited? && s.midnightLoop.Exited?
    case Return => s.run.Draining? && forall x :: x in s.inflight ==> x.task !in s.run.awaited
    case QueueTurn(now, t2, t3) => s.run.Looping? && s.queueLoop.Top? && w.now <= now <= t2 <= t3
    case QueueWake(now) =>
      (s.run.Looping? && s.queueLoop.Asleep? && w.now <= now
       && (s.queueLoop.until.None? || !s.running || s.queueLoop.until.value <= now))
    case QueueGrant(now) => s.run.Looping? && s.queueLoop.Acquiring? && s.permits > 0 && w.now <= now
    case QueuePoll => s.run.Looping? && s.queueLoop.Acquiring? && !s.running
    case MidnightTurn(now, later) => s.run.Looping? && s.midnightLoop.Top? && w.now <= now <= later
    case MidnightWakes(now) =>
      (s.run.Looping? && s.midnightLoop.Asleep? && w.now <= now
       && (s.midnightLoop.until.None? || !s.running || s.midnightLoop.until.value <= now))
    case BeginAt(i, now, later) => i < |s.inflight| && s.inflight[i].phase.Dispatched? && w.now <= now <= later
    case DecideAt(i, outcome, now) =>
      (i < |s.inflight| && s.inflight[i].phase.Evaluating? && w.now <= now
       && (outcome.None? || outcome.value in {ConditionFailed, ConditionError, ConditionTimeout}))
    case CompleteAt(i, status, now) =>
      i < |s.inflight| && s.inflight[i].phase.Calling? && w.now <= now && status in {Success, Failed, TimedOut}
    case AbortAt(i) => i < |s.inflight| && !s.inflight[i].phase.Dispatched?
  }

  function Awaited(inflight: seq<Execution>): set<nat> {
    set i | 0 <= i < |inflight| :: inflight[i].task
  }

  ghost function StateAfter(w: World, step: Step): State
    requires Enabled(w, step)
  {
    var s := w.s;
    match step
    case Register(job) => s.(jobs := s.jobs + [job])
    case Remove(id) => s.(jobs := Without(s.jobs, id))
    case Clear => s.(jobs := [])
    case SyncRegistry(now) => PopulateMissing(s, now)
    case RefreshCall(id, now) => RefreshById(s, id, now)
    case PeekNext => Purge(s)
    case StopCall => Stop(s)
    case Borrow => TakeSlot(s)
    case GiveBack => ReleaseSlot(s)
    case Run(now, until) => StartRun(s, now, until)
    case Drain => s.(run := Draining(Awaited(s.inflight)))
    case Return => s.(run := Idle, running := false)
    case QueueTurn(now, t2, t3) => QueueTop(s, now, t2, t3)
    case QueueWake(_) => s.(queueLoop := Top)
    case QueueGrant(now) => QueueSlot(s, now)
    case QueuePoll => s.(queueLoop := Top)
    case MidnightTurn(now, later) => MidnightTop(s, now, later)
    case MidnightWakes(now) => MidnightWake(s, now)
    case BeginAt(i, now, later) => Begin(s, i, now, later)
    case DecideAt(i, outcome, now) => Decide(s, i, outcome, now)
    case CompleteAt(i, status, now) => Complete(s, i, status, now)
    case AbortAt(i) => Finish(s, i)
  }

  /** The last reading of the clock in a step. */
  function ClockAfter(w: World, step: Step): int {
    match step
    case SyncRegistry(now) => now
    case RefreshCall(_, now) => now
    case Run(now, _) => now
    case QueueTurn(_, _, t3) => t3
    case QueueWake(now) => now
    case QueueGrant(now) => now
    case MidnightTurn(_, later) => later
    case MidnightWakes(now) => now
    case BeginAt(_, _, later) => later
    case DecideAt(_, _, now) => now
    case CompleteAt(_, _, now) => now
    case _ => w.now
  }

  /** The entry a step dispatches, if any. */
  ghost function DispatchOf(s: State, step: Step): Option<QueueEntry> {
    match step
    case QueueGrant(now) =>
      (match Peek(s)
       case None => None
       case Some(e) => if e.when > now then None else Some(e))
    case _ => None
  }

  /** The record a step writes, if any. */
  ghost function RecordOf(w: World, step: Step): Option<Record>
    requires Enabled(w, step)
  {
    var s := w.s;
    match step
    case BeginAt(i, now, later) =>
      (match Lookup(s.jobs, s.inflight[i].job)
       case None => None
       case Some(job) =>
         if TooLate(s.cfg, job, s.inflight[i].scheduledFor, now)
         then Some(SkipRecord(s.inflight[i], job, now, later)) else None)
    case DecideAt(i, Some(status), now) => Some(OutcomeRecord(s.inflight[i], status, now))
    case CompleteAt(i, status, now) => Some(OutcomeRecord(s.inflight[i], status, now))
    case _ => None
  }

  /** The call a step makes, if any. */
  ghost function CallOf(w: World, step: Step): Option<Call>
    requires Enabled(w, step)
  {
    match step
    case DecideAt(i, None, now) =>
      var x := w.s.inflight[i];
      Some(Call(x.phase.spec.id, x.scheduledFor, x.attempt, now))
    case _ => None
  }

  function Append<T>(s: seq<T>, x: Option<T>): seq<T> {
    match x
    case None => s
    case Some(v) => s + [v]
  }

  function IsOf(id: JobId): Execution -> bool {
    (x: Execution) => x.job == id
  }

  ghost predicate Bumped(s: State, s': State, id: JobId) {
    id in s'.generations && Get(s.generations, id) != Some(s'.generations[id])
  }

  ghost function AtRefresh(w: World, s': State): map<JobId, nat> {
    map id | id in s'.generations ::
      if Bumped(w.s, s', id) || id !in w.inflightAtRefresh
        then Count(w.s.inflight, IsOf(id)) else w.inflightAtRefresh[id]
  }

  // ------------------------------------------------- carrying a chain on

  ghost predicate Resolves(job: Job, after: int) {
    ResolveAfter(job.trigger, after).Some?
  }

  /** The generation an execution stands for: its entry's until it begins, then the one it read. */
  function Held(x: Execution): int {
    if x.phase.Dispatched? then x.entryGeneration else x.phase.generation
  }

  ghost predicate Current(s: State, x: Execution) {
    Get(s.generations, x.job) == Some(Held(x))
  }

  /** The policy grants another attempt after this one. */
  predicate RetryGranted(job: Job, attempt: int) {
    match job.trigger.failPolicy
    case None => false
    case Some(p) => p.retryInterval.Some? && (p.maxAttempts.Some? ==> attempt < p.maxAttempts.value)
  }

  /** A registered job's execution that begins reads the current generation, whatever its entry's:
      it goes on at that generation, or is skipped and schedules at it. */
  ghost predicate BeginCarries(s: State, x: Execution, now: int) {
    match Lookup(s.jobs, x.job)
    case None => false
    case Some(job) => TooLate(s.cfg, job, x.scheduledFor, now) ==> Resolves(job, now)
  }

  ghost predicate DecideCarries(s: State, x: Execution, outcome: Option<Status>, now: int)
    requires !x.phase.Dispatched?
  {
    Current(s, x) && (outcome.None? || Resolves(x.phase.spec, now))
  }

  /** A failure under a policy schedules at the generation read when it ends; any other end at the
      one that was captured. */
  ghost predicate CompleteCarries(s: State, x: Execution, status: Status, now: int)
    requires !x.phase.Dispatched?
  {
    var spec := x.phase.spec;
    if status != Success && spec.trigger.failPolicy.Some? then RetryGranted(spec, x.attempt) || Resolves(spec, now)
    else Current(s, x) && Resolves(spec, now)
  }

  /** After the step the execution, or the entry it pushed, is a chain at the job's current
      generation. Decided before the step, from the guards of its branches. */
  ghost predicate CarriesOn(w: World, step: Step)
    requires Enabled(w, step) && ExecutionStep(step)
  {
    var x := w.s.inflight[step.i];
    match step
    case BeginAt(_, now, _) => BeginCarries(w.s, x, now)
    case DecideAt(_, outcome, now) => DecideCarries(w.s, x, outcome, now)
    case CompleteAt(_, status, now) => CompleteCarries(w.s, x, status, now)
    case _ => false
  }

  /** The step makes a chain at the current generation out of an execution that was at an outdated
      one: it begins after a refresh, or fails under a policy after a refresh. */
  ghost predicate Races(w: World, step: Step)
    requires Enabled(w, step)
  {
    ExecutionStep(step) && CarriesOn(w, step)
    && w.s.inflight[step.i].job in w.s.generations && !Current(w.s, w.s.inflight[step.i])
  }

  ghost function Next(w: World, step: Step): World
    requires Enabled(w, step)
  {
    var s' := StateAfter(w, step);
    World(
      s',
      ClockAfter(w, step),
      if step.Register? then w.known[step.job.id := step.job] else w.known,
      if step.Borrow? then w.borrowed + 1 else if step.GiveBack? then w.borrowed - 1 else w.borrowed,
      AtRefresh(w, s'),
      if Races(w, step) then w.raced + {w.s.inflight[step.i].job} else w.raced,
      if step.AbortAt? then w.aborted + {w.s.inflight[step.i].job} else w.aborted,
      Append(w.log, RecordOf(w, step)),
      Append(w.calls, CallOf(w, step)),
      Append(w.dispatches, DispatchOf(w.s, step)),
      if s'.running || w.s.running then 0 else w.late + (if DispatchOf(w.s, step).Some? then 1 else 0))
  }

  /** A new daemon with an empty registry. */
  function NewState(cfg: Config): State {
    State(cfg, [], [], map[], {}, map[], false, None, cfg.maxConcurrency, cfg.maxConcurrency,
          [], 0, [], Exited, Exited, Idle)
  }

  function NewWorld(cfg: Config, now: int): World {
    World(NewState(cfg), now, map[], 0, map[], {}, {}, [], [], [], 0)
  }

  /** The steps can be taken one after the other from w. */
  ghost predicate Runs(w: World, steps: seq<Step>)
    decreases |steps|
  {
    steps == [] || (Enabled(w, steps[0]) && Runs(Next(w, steps[0]), steps[1..]))
  }

  ghost function After(w: World, steps: seq<Step>): World
    requires Runs(w, steps)
    decreases |steps|
  {
    if steps == [] then w else After(Next(w, steps[0]), steps[1..])
  }
}
