/** The daemon's state and what each of its atomic segments (from one `await` to the next) does
    to it. The queue is read in heap order; `ExecutionLoops` keeps it as a binary heap. */
module Daemon {
  import opened BoundedDeques
  import opened Options
  import opened QueueEntries
  import opened Schedules

  type JobId = int

  /** The fields of `JobSpec` that decide scheduling. */
  datatype Job = Job(id: JobId, trigger: LazySchedule, maxLatency: Option<int>)

  datatype Status =
    | Success | Failed | TimedOut
    | ConditionFailed | ConditionError | ConditionTimeout
    | Skipped

  datatype Record = Record(job: JobId, scheduledFor: int, startedAt: int, finishedAt: int, attempt: int, status: Status)

  /** Where a running `_execute` is suspended. `generation` is what it read when it began. */
  datatype Phase =
    | Dispatched
    | Evaluating(spec: Job, generation: int, startedAt: int)
    | Calling(spec: Job, generation: int, startedAt: int)

  /** An execution in flight; it holds one slot. `entryGeneration` is its queue entry's. */
  datatype Execution = Execution(task: nat, job: JobId, scheduledFor: int, attempt: int, entryGeneration: int,
        phase: Phase)

  /** Where `_queue_loop` or `_midnight_loop` is. Asleep(None) is a plain sleep, Asleep(Some(w))
      a wait until w. */
  datatype LoopAt = Top | Asleep(until: Option<int>) | Acquiring | Exited

  /** `run`: not started or returned, looping, or gathering the executions still in flight. */
  datatype RunAt = Idle | Looping | Draining(awaited: set<nat>)

  datatype Config = Config(maxConcurrency: nat, historyLimit: nat, maxLatency: Option<int>, midnight: bool)

  datatype State = State(
    cfg: Config,
    jobs: seq<Job>,
    queue: seq<QueueEntry>,
    generations: map<JobId, int>,
    active: set<JobId>,
    lastRefresh: map<JobId, int>,
    running: bool,
    until: Option<int>,
    permits: int,
    available: int,
    inflight: seq<Execution>,
    nextTask: nat,
    history: seq<Record>,
    queueLoop: LoopAt,
    midnightLoop: LoopAt,
    run: RunAt)

  // ---------------------------------------------------------------- registry

  /** `get_job`. */
  function Lookup(jobs: seq<Job>, id: JobId): Option<Job> {
    if jobs == [] then None
    else if jobs[0].id == id then Some(jobs[0])
    else Lookup(jobs[1..], id)
  }

  function Ids(jobs: seq<Job>): set<JobId> {
    set i | 0 <= i < |jobs| :: jobs[i].id
  }

  function Without(jobs: seq<Job>, id: JobId): seq<Job> {
    if jobs == [] then []
    else if jobs[0].id == id then Without(jobs[1..], id)
    else [jobs[0]] + Without(jobs[1..], id)
  }

  // -------------------------------------------------------------- scheduling

  function LocalDate(job: Job, now: int): int {
    ZoneOf(job.trigger).dateOf(now)
  }

  ghost function Push(s: State, when: int, id: JobId, attempt: int, generation: int): State {
    s.(queue := Insert(s.queue, QueueEntry(when, generation, id, attempt)))
  }

  /** `_schedule_next`: nothing is pushed when the trigger does not resolve. */
  ghost function ScheduleNext(s: State, job: Job, after: int, attempt: int, generation: int): State {
    match ResolveAfter(job.trigger, after)
    case None => s
    case Some(when) => Push(s, when, job.id, attempt, generation)
  }

  /** `_schedule_retry`: the generation is read again here, when the attempt has finished. */
  ghost function ScheduleRetry(s: State, job: Job, now: int, attempt: int): State {
    var generation := GetOr(s.generations, job.id, 1);
    match job.trigger.failPolicy
    case None => ScheduleNext(s, job, now, attempt + 1, generation)
    case Some(policy) =>
      if policy.maxAttempts.Some? && attempt >= policy.maxAttempts.value then
        ScheduleNext(s, job, now, 1, generation)
      else if policy.retryInterval.None? then
        ScheduleNext(s, job, now, attempt + 1, generation)
      else
        Push(s, now + policy.retryInterval.value, job.id, attempt + 1, generation)
  }

  /** The bookkeeping of `_refresh_job` before it schedules. */
  ghost function Bump(s: State, job: Job, now: int): State {
    s.(generations := s.generations[job.id := GetOr(s.generations, job.id, 0) + 1],
       active := s.active + {job.id},
       lastRefresh := s.lastRefresh[job.id := LocalDate(job, now)])
  }

  /** `_refresh_job`. */
  ghost function RefreshJob(s: State, job: Job, now: int): State {
    ScheduleNext(Bump(s, job, now), job, now, 1, GetOr(s.generations, job.id, 0) + 1)
  }

  /** Which jobs a sweep refreshes: those not active yet, or those whose local date rolled over. */
  datatype Sweep = Missing | RolledOver

  predicate Due(s: State, job: Job, now: int, sweep: Sweep) {
    match sweep
    case Missing => job.id !in s.active
    case RolledOver => Get(s.lastRefresh, job.id) != Some(LocalDate(job, now))
  }

  /** Refreshes the due jobs of a list, in order. */
  ghost function RefreshEach(s: State, jobs: seq<Job>, now: int, sweep: Sweep): State
    decreases |jobs|
  {
    if jobs == [] then s
    else RefreshEach(if Due(s, jobs[0], now, sweep) then RefreshJob(s, jobs[0], now) else s, jobs[1..], now, sweep)
  }

  /** Removed jobs leave `_active`, `_generations` and `_last_refresh`. */
  ghost function Forget(s: State): State {
    var gone := s.active - Ids(s.jobs);
    s.(active := s.active - gone, generations := s.generations - gone, lastRefresh := s.lastRefresh - gone)
  }

  /** `_populate_missing`. */
  ghost function PopulateMissing(s: State, now: int): State {
    RefreshEach(Forget(s), s.jobs, now, Missing)
  }

  /** `_populate_all`. */
  ghost function PopulateAll(s: State, now: int): State {
    RefreshEach(s, s.jobs, now, Missing)
  }

  /** `_refresh_due_jobs`. */
  ghost function RefreshDueJobs(s: State, now: int): State {
    RefreshEach(s, s.jobs, now, RolledOver)
  }

  /** Public `refresh_job`: unknown ids are ignored. */
  ghost function RefreshById(s: State, id: JobId, now: int): State {
    match Lookup(s.jobs, id)
    case None => s
    case Some(job) => RefreshJob(s, job, now)
  }

  /** The entry's job is registered and the entry carries its current generation. */
  predicate Live(s: State, e: QueueEntry) {
    Lookup(s.jobs, e.job).Some? && Get(s.generations, e.job) == Some(e.generation)
  }

  ghost function DropDead(s: State, q: seq<QueueEntry>): seq<QueueEntry> {
    if q == [] || Live(s, q[0]) then q else DropDead(s, q[1..])
  }

  /** What `_peek_valid` leaves behind ... */
  ghost function Purge(s: State): State {
    s.(queue := DropDead(s, s.queue))
  }

  /** ... and returns. */
  ghost function Peek(s: State): Option<QueueEntry> {
    var q := DropDead(s, s.queue);
    if q == [] then None else Some(q[0])
  }

  // ------------------------------------------------------------ slots and run

  /** `stop`. */
  ghost function Stop(s: State): State {
    s.(running := false)
  }

  ghost function TakeSlot(s: State): State {
    s.(permits := s.permits - 1, available := s.available - 1)
  }

  /** `release_concurrency_slot`, with its guard against releasing too often. */
  ghost function ReleaseSlot(s: State): State {
    if s.available < s.cfg.maxConcurrency then s.(permits := s.permits + 1, available := s.available + 1) else s
  }

  /** `run` up to its first suspension. */
  ghost function StartRun(s: State, now: int, until: Option<int>): State {
    var s1 := PopulateAll(s.(running := true, until := until), now);
    s1.(run := Looping, queueLoop := Top, midnightLoop := if s.cfg.midnight then Top else Exited)
  }

  /** `_queue_loop` from its top to its next suspension; the three readings of the clock. */
  ghost function QueueTop(s: State, t1: int, t2: int, t3: int): State {
    if !s.running then
      s.(queueLoop := Exited)
    else if s.until.Some? && t1 >= s.until.value then
      Stop(s).(queueLoop := Exited)
    else
      var s1 := PopulateMissing(s, t2);
      var s2 := Purge(s1);
      match Peek(s1)
      case None => s2.(queueLoop := Asleep(None))
      case Some(e) => s2.(queueLoop := if e.when > t3 then Asleep(Some(e.when)) else Acquiring)
  }

  /** The queue loop has been given a slot: look again, then dispatch or give the slot back. */
  ghost function QueueSlot(s: State, now: int): State {
    var s1 := TakeSlot(s);
    var s2 := Purge(s1).(queueLoop := Top);
    match Peek(s1)
    case None => ReleaseSlot(s2)
    case Some(e) => if e.when > now then ReleaseSlot(s2) else Dispatch(s2)
  }

  /** Pops the first entry and starts its execution. */
  ghost function Dispatch(s: State): State
    requires s.queue != []
  {
    var e := s.queue[0];
    s.(queue := s.queue[1..],
       inflight := s.inflight + [Execution(s.nextTask, e.job, e.when, e.attempt, e.generation, Dispatched)],
       nextTask := s.nextTask + 1)
  }

  /** `_midnight_loop` from its top to its next suspension or refresh; two readings of the clock. */
  ghost function MidnightTop(s: State, now: int, later: int): State {
    if !s.running then
      s.(midnightLoop := Exited)
    else
      match NextRefreshTime(s, s.jobs, now)
      case None => s.(midnightLoop := Asleep(None))
      case Some(t) => if t > now then s.(midnightLoop := Asleep(Some(t))) else RefreshDueJobs(s, later)
  }

  /** A sleeping midnight loop goes on. After a plain sleep it starts over; after a wait it stops
      when the daemon did and refreshes otherwise. */
  ghost function MidnightWake(s: State, now: int): State {
    match s.midnightLoop
    case Asleep(Some(_)) =>
      if !s.running then s.(midnightLoop := Exited) else RefreshDueJobs(s, now).(midnightLoop := Top)
    case _ => s.(midnightLoop := Top)
  }

  ghost predicate SomeDue(s: State, jobs: seq<Job>, now: int) {
    exists i :: 0 <= i < |jobs| && Due(s, jobs[i], now, RolledOver)
  }

  /** `_next_refresh_time`: now when some job is due, else the earliest coming midnight. */
  ghost function NextRefreshTime(s: State, jobs: seq<Job>, now: int): Option<int> {
    if SomeDue(s, jobs, now) then Some(now) else EarliestMidnight(jobs, now)
  }

  function EarliestMidnight(jobs: seq<Job>, now: int): Option<int> {
    if jobs == [] then None
    else
      var before, midnight := EarliestMidnight(jobs[..|jobs| - 1], now), NextMidnight(jobs[|jobs| - 1], now);
      Some(if before.None? || midnight < before.value then midnight else before.value)
  }

  function NextMidnight(job: Job, now: int): int {
    var z := ZoneOf(job.trigger);
    z.wall(z.dateOf(now) + 1, 0)
  }

  // --------------------------------------------------------------- execution

  /** `_record`: appends to the bounded history. */
  ghost function AddRecord(s: State, r: Record): State {
    s.(history := LastOf(s.history + [r], s.cfg.historyLimit))
  }

  /** The execution at position i is over and gives its slot back. */
  ghost function Finish(s: State, i: nat): State
    requires i < |s.inflight|
  {
    ReleaseSlot(s.(inflight := s.inflight[..i] + s.inflight[i + 1..]))
  }

  ghost function Enter(s: State, i: nat, phase: Phase): State
    requires i < |s.inflight|
  {
    s.(inflight := s.inflight[i := s.inflight[i].(phase := phase)])
  }

  /** The job's own limit on latency, else the daemon's. */
  function LatencyLimit(cfg: Config, job: Job): Option<int> {
    if job.maxLatency.Some? then job.maxLatency else cfg.maxLatency
  }

  predicate TooLate(cfg: Config, job: Job, scheduledFor: int, now: int) {
    LatencyLimit(cfg, job).Some? && now - scheduledFor > LatencyLimit(cfg, job).value
  }

  ghost function SkipRecord(x: Execution, job: Job, now: int, later: int): Record {
    Record(job.id, x.scheduledFor, now, later, x.attempt, Skipped)
  }

  ghost function OutcomeRecord(x: Execution, status: Status, now: int): Record
    requires !x.phase.Dispatched?
  {
    Record(x.phase.spec.id, x.scheduledFor, x.phase.startedAt, now, x.attempt, status)
  }

  /** `_execute` up to evaluating the conditions; `later` is its second reading of the clock. */
  ghost function Begin(s: State, i: nat, now: int, later: int): State
    requires i < |s.inflight|
  {
    var x := s.inflight[i];
    match Lookup(s.jobs, x.job)
    case None => Finish(s, i)
    case Some(job) =>
      var generation := GetOr(s.generations, job.id, 1);
      if TooLate(s.cfg, job, x.scheduledFor, now) then
        Finish(ScheduleNext(AddRecord(s, SkipRecord(x, job, now, later)), job, now, 1, generation), i)
      else
        Enter(s, i, Evaluating(job, generation, later))
  }

  /** The conditions are decided: None when they passed, else how they did not. */
  ghost function Decide(s: State, i: nat, outcome: Option<Status>, now: int): State
    requires i < |s.inflight| && s.inflight[i].phase.Evaluating?
  {
    var x := s.inflight[i];
    var Evaluating(spec, generation, startedAt) := x.phase;
    match outcome
    case None => Enter(s, i, Calling(spec, generation, startedAt))
    case Some(status) =>
      Finish(ScheduleNext(AddRecord(s, OutcomeRecord(x, status, now)), spec, now, 1, generation), i)
  }

  /** The follow-up of a finished call: a retry only after a failure under a policy. */
  ghost function FollowUp(s: State, spec: Job, generation: int, attempt: int, status: Status, now: int): State {
    if status != Success && spec.trigger.failPolicy.Some? then ScheduleRetry(s, spec, now, attempt)
    else ScheduleNext(s, spec, now, 1, generation)
  }

  /** The job function returned, raised or timed out. */
  ghost function Complete(s: State, i: nat, status: Status, now: int): State
    requires i < |s.inflight| && s.inflight[i].phase.Calling?
  {
    var x := s.inflight[i];
    var Calling(spec, generation, _) := x.phase;
    var s1 := AddRecord(s, OutcomeRecord(x, status, now));
    Finish(FollowUp(s1, spec, generation, x.attempt, status, now), i)
  }
}
