/** What becomes of the dispatched entries: each is called at most once, recorded at most once, and
    leaves no record only when it was aborted or its job was gone before it began. */
module Accounts {
  import opened Counting
  import opened Options
  import opened QueueEntries
  import opened Daemon
  import opened Machine
  import opened WellFormed
  import opened Dispatching
  import opened Executions
  import opened Slots

  /** One attempt at one scheduled run of a job. */
  datatype Occurrence = Occurrence(job: JobId, when: int, attempt: int)

  function EntryIs(o: Occurrence): QueueEntry -> bool {
    (e: QueueEntry) => Occurrence(e.job, e.when, e.attempt) == o
  }

  function ExecutionIs(o: Occurrence): Execution -> bool {
    (x: Execution) => Occurrence(x.job, x.scheduledFor, x.attempt) == o
  }

  function Uncalled(o: Occurrence): Execution -> bool {
    (x: Execution) => Occurrence(x.job, x.scheduledFor, x.attempt) == o && !x.phase.Calling?
  }

  function RecordIs(o: Occurrence): Record -> bool {
    (r: Record) => Occurrence(r.job, r.scheduledFor, r.attempt) == o
  }

  function CallIs(o: Occurrence): Call -> bool {
    (c: Call) => Occurrence(c.job, c.scheduledFor, c.attempt) == o
  }

  ghost predicate Dispatches(w: World, step: Step, o: Occurrence) {
    DispatchOf(w.s, step).Some? && EntryIs(o)(DispatchOf(w.s, step).value)
  }

  /** The step ends an execution of o without a record. */
  ghost predicate EndsQuietly(w: World, step: Step, o: Occurrence)
    requires Enabled(w, step)
  {
    match step
    case AbortAt(i) => ExecutionIs(o)(w.s.inflight[i])
    case BeginAt(i, _, _) => ExecutionIs(o)(w.s.inflight[i]) && Lookup(w.s.jobs, w.s.inflight[i].job).None?
    case _ => false
  }

  ghost function Pending(w: World, o: Occurrence): nat {
    Count(w.log, RecordIs(o)) + Count(w.s.inflight, ExecutionIs(o))
  }

  ghost function Spent(w: World, o: Occurrence): nat {
    Count(w.calls, CallIs(o)) + Count(w.s.inflight, Uncalled(o))
  }

  ghost predicate Accounted(w: World) {
    forall o :: Pending(w, o) <= Count(w.dispatches, EntryIs(o)) && Spent(w, o) <= Count(w.dispatches, EntryIs(o))
  }

  lemma AppendCounts<T>(s: seq<T>, x: Option<T>, p: T -> bool)
    ensures Count(Append(s, x), p) == Count(s, p) + if x.Some? then One(p(x.value)) else 0
  {
    if x.Some? {
      CountConcat(s, [x.value], p);
      assert [x.value][1..] == [];
    }
  }

  // -------------------------------------------------------------------- steps

  /** The execution goes on or ends; its record and its call are of its own occurrence. */
  ghost predicate TakesAccount(w: World, step: Step, o: Occurrence)
    requires Enabled(w, step)
  {
    var s, s' := w.s, StateAfter(w, step);
    && Count(s'.inflight, ExecutionIs(o)) + One(EndsQuietly(w, step, o))
       + (if RecordOf(w, step).Some? then One(RecordIs(o)(RecordOf(w, step).value)) else 0)
       == Count(s.inflight, ExecutionIs(o)) + One(Dispatches(w, step, o))
    && Count(s'.inflight, Uncalled(o)) + (if CallOf(w, step).Some? then One(CallIs(o)(CallOf(w, step).value)) else 0)
       <= Count(s.inflight, Uncalled(o)) + One(Dispatches(w, step, o))
  }

  lemma SuspendedCounts(s: State, s': State, i: nat, o: Occurrence)
    requires i < |s.inflight| && Suspended(s, s', i)
    ensures Count(s'.inflight, ExecutionIs(o)) == Count(s.inflight, ExecutionIs(o))
    ensures Count(s'.inflight, Uncalled(o)) + One(Uncalled(o)(s.inflight[i])) ==
      Count(s.inflight, Uncalled(o)) + One(Uncalled(o)(s'.inflight[i]))
  {
    CountUpdate(s.inflight, i, s'.inflight[i], ExecutionIs(o));
    CountUpdate(s.inflight, i, s'.inflight[i], Uncalled(o));
  }

  lemma OverCounts(s: State, s': State, i: nat, o: Occurrence)
    requires i < |s.inflight| && Over(s, s', i)
    ensures Count(s'.inflight, ExecutionIs(o)) + One(ExecutionIs(o)(s.inflight[i])) == Count(s.inflight, ExecutionIs(o))
    ensures Count(s'.inflight, Uncalled(o)) <= Count(s.inflight, Uncalled(o))
  {
    CountRemove(s.inflight, i, ExecutionIs(o));
    CountRemove(s.inflight, i, Uncalled(o));
  }

  lemma BegunAccounts(w: World, step: Step, o: Occurrence)
    requires Enabled(w, step) && step.BeginAt? && Suspended(w.s, StateAfter(w, step), step.i)
    ensures TakesAccount(w, step, o)
  {
    LookupFinds(w.s.jobs, w.s.inflight[step.i].job);
    SuspendedCounts(w.s, StateAfter(w, step), step.i, o);
  }

  lemma SkippedAccounts(w: World, step: Step, o: Occurrence)
    requires Enabled(w, step) && step.BeginAt? && Over(w.s, StateAfter(w, step), step.i)
    ensures TakesAccount(w, step, o)
  {
    LookupFinds(w.s.jobs, w.s.inflight[step.i].job);
    OverCounts(w.s, StateAfter(w, step), step.i, o);
  }

  lemma BeginAccounts(w: World, step: Step, o: Occurrence)
    requires Enabled(w, step) && step.BeginAt?
    ensures TakesAccount(w, step, o)
  {
    BeginEnds(w.s, step.i, step.now, step.later);
    if Suspended(w.s, StateAfter(w, step), step.i) {
      BegunAccounts(w, step, o);
    } else {
      SkippedAccounts(w, step, o);
    }
  }

  /** The conditions passed and the function is called. */
  lemma CallAccounts(w: World, step: Step, o: Occurrence)
    requires Fits(w.s, w.known) && Enabled(w, step) && step.DecideAt? && step.outcome.None?
    ensures TakesAccount(w, step, o)
  {
    assert ExecutionFits(w.s.jobs, w.s.generations, w.known, w.s.inflight[step.i]);
    SuspendedCounts(w.s, StateAfter(w, step), step.i, o);
  }

  lemma RecordAccounts(w: World, step: Step, o: Occurrence)
    requires Fits(w.s, w.known) && Enabled(w, step)
    requires step.CompleteAt? || (step.DecideAt? && step.outcome.Some?)
    ensures TakesAccount(w, step, o)
  {
    var s, s', i := w.s, StateAfter(w, step), step.i;
    assert ExecutionFits(s.jobs, s.generations, w.known, s.inflight[i]);
    if step.CompleteAt? {
      CompleteEnds(s, i, step.status, step.now);
    } else {
      DeclinedIsOver(s, i, step.outcome.value, step.now);
    }
    OverCounts(s, s', i, o);
  }

  lemma AbortAccounts(w: World, step: Step, o: Occurrence)
    requires Enabled(w, step) && step.AbortAt?
    ensures TakesAccount(w, step, o)
  {
    OverCounts(w.s, StateAfter(w, step), step.i, o);
  }

  lemma GrantAccounts(w: World, step: Step, o: Occurrence)
    requires Enabled(w, step) && step.QueueGrant?
    ensures TakesAccount(w, step, o)
  {
    var s := w.s;
    var k := GrantShape(s, step.now);
    var e := DispatchOf(s, step);
    if e.Some? {
      var x := Started(s.nextTask, e.value);
      assert [x][1..] == [];
      CountConcat(s.inflight, [x], ExecutionIs(o));
      CountConcat(s.inflight, [x], Uncalled(o));
    }
  }

  /** The other steps dispatch, run and record nothing. */
  lemma OtherAccounts(w: World, step: Step, o: Occurrence)
    requires Fits(w.s, w.known) && Enabled(w, step) && !ExecutionStep(step) && !step.QueueGrant?
    ensures TakesAccount(w, step, o)
  {
    if SweepStep(step) {
      SlotsAfterSweep(w, step);
    }
    assert StateAfter(w, step).inflight == w.s.inflight;
    assert RecordOf(w, step).None? && CallOf(w, step).None? && DispatchOf(w.s, step).None?;
  }

  lemma StepTakesAccount(w: World, step: Step, o: Occurrence)
    requires Fits(w.s, w.known) && Enabled(w, step)
    ensures TakesAccount(w, step, o)
  {
    if step.BeginAt? {
      BeginAccounts(w, step, o);
    } else if step.DecideAt? && step.outcome.None? {
      CallAccounts(w, step, o);
    } else if step.AbortAt? {
      AbortAccounts(w, step, o);
    } else if ExecutionStep(step) {
      RecordAccounts(w, step, o);
    } else if step.QueueGrant? {
      GrantAccounts(w, step, o);
    } else {
      OtherAccounts(w, step, o);
    }
  }

  /** In each step the records and executions of an occurrence gain exactly what is dispatched and
      lose exactly what ends quietly. */
  lemma StepAccounts(w: World, step: Step, o: Occurrence)
    requires Fits(w.s, w.known) && Enabled(w, step)
    ensures Pending(Next(w, step), o) + One(EndsQuietly(w, step, o)) == Pending(w, o) + One(Dispatches(w, step, o))
    ensures Spent(Next(w, step), o) <= Spent(w, o) + One(Dispatches(w, step, o))
    ensures Count(Next(w, step).dispatches, EntryIs(o)) ==
      Count(w.dispatches, EntryIs(o)) + One(Dispatches(w, step, o))
  {
    StepTakesAccount(w, step, o);
    AppendCounts(w.log, RecordOf(w, step), RecordIs(o));
    AppendCounts(w.calls, CallOf(w, step), CallIs(o));
    AppendCounts(w.dispatches, DispatchOf(w.s, step), EntryIs(o));
  }

  lemma StepKeepsAccounted(w: World, step: Step)
    requires Fits(w.s, w.known) && Enabled(w, step) && Accounted(w)
    ensures Accounted(Next(w, step))
  {
    forall o
      ensures Pending(Next(w, step), o) <= Count(Next(w, step).dispatches, EntryIs(o))
      ensures Spent(Next(w, step), o) <= Count(Next(w, step).dispatches, EntryIs(o))
    {
      StepAccounts(w, step, o);
    }
  }

  // -------------------------------------------------------------------- times

  /** No execution starts before the run it was scheduled for; a run is skipped only when it begins
      later than its limit allows. */
  ghost predicate TimesFit(w: World) {
    && AllInTime(w.s.inflight, w.now)
    && (forall r :: 0 <= r < |w.log| ==> RecordInTime(w.s.cfg, w.known, w.log[r], w.now))
    && (forall c :: 0 <= c < |w.calls| ==> w.calls[c].scheduledFor <= w.calls[c].at <= w.now)
  }

  ghost predicate ExecutionInTime(x: Execution, now: int) {
    x.scheduledFor <= now && (!x.phase.Dispatched? ==> x.scheduledFor <= x.phase.startedAt <= now)
  }

  ghost predicate RecordInTime(cfg: Config, known: map<JobId, Job>, r: Record, now: int) {
    && r.scheduledFor <= r.startedAt <= r.finishedAt <= now
    && r.job in known
    && (r.status == Skipped ==> TooLate(cfg, known[r.job], r.scheduledFor, r.startedAt))
  }

  ghost predicate AllInTime(inflight: seq<Execution>, now: int) {
    forall k :: 0 <= k < |inflight| ==> ExecutionInTime(inflight[k], now)
  }

  ghost predicate StepInTime(w: World, step: Step)
    requires Enabled(w, step)
  {
    var s', now := StateAfter(w, step), ClockAfter(w, step);
    && w.now <= now
    && s'.cfg == w.s.cfg
    && AllInTime(s'.inflight, now)
    && (RecordOf(w, step).Some? ==> RecordInTime(w.s.cfg, w.known, RecordOf(w, step).value, now))
    && (CallOf(w, step).Some? ==> CallOf(w, step).value.scheduledFor <= CallOf(w, step).value.at <= now)
  }

  lemma StillInTime(inflight: seq<Execution>, now: int, later: int)
    requires AllInTime(inflight, now) && now <= later
    ensures AllInTime(inflight, later)
  {
    forall k | 0 <= k < |inflight| ensures ExecutionInTime(inflight[k], later) {
      assert ExecutionInTime(inflight[k], now);
    }
  }

  lemma EndedInTime(s: State, s': State, i: nat, now: int)
    requires i < |s.inflight| && Over(s, s', i) && AllInTime(s.inflight, now)
    ensures AllInTime(s'.inflight, now) && s'.cfg == s.cfg
  {
    forall k | 0 <= k < |s'.inflight| ensures ExecutionInTime(s'.inflight[k], now) {
      assert s'.inflight[k] == s.inflight[if k < i then k else k + 1];
    }
  }

  lemma GoesOnInTime(s: State, s': State, i: nat, now: int)
    requires i < |s.inflight| && Suspended(s, s', i) && AllInTime(s.inflight, now)
    requires ExecutionInTime(s'.inflight[i], now)
    ensures AllInTime(s'.inflight, now) && s'.cfg == s.cfg
  {
    forall k | 0 <= k < |s'.inflight| ensures ExecutionInTime(s'.inflight[k], now) {
      assert k != i ==> s'.inflight[k] == s.inflight[k];
    }
  }

  /** The phase that an execution enters started no earlier than it was due. */
  lemma PhaseInTime(w: World, step: Step)
    requires Enabled(w, step) && ExecutionStep(step) && AllInTime(w.s.inflight, w.now)
    requires Suspended(w.s, StateAfter(w, step), step.i)
    ensures ExecutionInTime(StateAfter(w, step).inflight[step.i], ClockAfter(w, step))
  {
    assert ExecutionInTime(w.s.inflight[step.i], w.now);
  }

  lemma RecordsInTime(w: World, step: Step)
    requires Fits(w.s, w.known) && Enabled(w, step) && ExecutionStep(step) && TimesFit(w)
    ensures w.now <= ClockAfter(w, step)
    ensures RecordOf(w, step).Some? ==> RecordInTime(w.s.cfg, w.known, RecordOf(w, step).value, ClockAfter(w, step))
    ensures CallOf(w, step).Some? ==>
      CallOf(w, step).value.scheduledFor <= CallOf(w, step).value.at <= ClockAfter(w, step)
  {
    var s, x := w.s, w.s.inflight[step.i];
    assert ExecutionFits(s.jobs, s.generations, w.known, x) && ExecutionInTime(x, w.now);
    LookupFinds(s.jobs, x.job);
  }

  lemma ExecutionStepInTime(w: World, step: Step)
    requires Fits(w.s, w.known) && Enabled(w, step) && ExecutionStep(step) && TimesFit(w)
    ensures StepInTime(w, step)
  {
    var s, s', now := w.s, StateAfter(w, step), ClockAfter(w, step);
    RecordsInTime(w, step);
    ExecutionStepEnds(w, step);
    StillInTime(s.inflight, w.now, now);
    if Over(s, s', step.i) {
      EndedInTime(s, s', step.i, now);
    } else {
      PhaseInTime(w, step);
      GoesOnInTime(s, s', step.i, now);
    }
  }

  /** An entry is dispatched when it is due. */
  lemma GrantInTime(w: World, step: Step)
    requires Enabled(w, step) && step.QueueGrant? && TimesFit(w)
    ensures StepInTime(w, step)
  {
    var k := GrantShape(w.s, step.now);
    var s' := StateAfter(w, step);
    forall k | 0 <= k < |s'.inflight| ensures ExecutionInTime(s'.inflight[k], step.now) {
      if k < |w.s.inflight| {
        assert ExecutionInTime(w.s.inflight[k], w.now);
      }
    }
  }

  /** The other steps leave the executions alone. */
  lemma OtherStepInTime(w: World, step: Step)
    requires Fits(w.s, w.known) && Enabled(w, step) && !ExecutionStep(step) && !step.QueueGrant? && TimesFit(w)
    ensures StepInTime(w, step)
  {
    if SweepStep(step) {
      SlotsAfterSweep(w, step);
    }
    StillInTime(w.s.inflight, w.now, ClockAfter(w, step));
  }

  lemma LaterStillInTime(w: World, w': World)
    requires TimesFit(w) && w.now <= w'.now && w'.s.cfg == w.s.cfg
    requires forall id :: id in w.known ==> id in w'.known && w'.known[id] == w.known[id]
    ensures forall r :: 0 <= r < |w.log| ==> RecordInTime(w'.s.cfg, w'.known, w.log[r], w'.now)
  {
    forall r | 0 <= r < |w.log| ensures RecordInTime(w'.s.cfg, w'.known, w.log[r], w'.now) {
      assert RecordInTime(w.s.cfg, w.known, w.log[r], w.now);
    }
  }

  lemma StepKeepsTimes(w: World, step: Step)
    requires Fits(w.s, w.known) && Enabled(w, step) && TimesFit(w)
    ensures TimesFit(Next(w, step))
  {
    if ExecutionStep(step) {
      ExecutionStepInTime(w, step);
    } else if step.QueueGrant? {
      GrantInTime(w, step);
    } else {
      OtherStepInTime(w, step);
    }
    LaterStillInTime(w, Next(w, step));
  }

  // --------------------------------------------------------------------- runs

  /** In every run an entry is called at most once and recorded at most once per dispatch, nothing
      runs before it is due, and only missed runs are skipped. */
  lemma {:induction false} RunsAreAccounted(w: World, steps: seq<Step>)
    requires Fits(w.s, w.known) && Accounted(w) && TimesFit(w) && Runs(w, steps)
    ensures Accounted(After(w, steps)) && TimesFit(After(w, steps))
    decreases |steps|
  {
    if steps != [] {
      StepFits(w, steps[0]);
      StepKeepsAccounted(w, steps[0]);
      StepKeepsTimes(w, steps[0]);
      RunsAreAccounted(Next(w, steps[0]), steps[1..]);
    }
  }

  /** How many executions of o end without a record along the run. */
  ghost function QuietEnds(w: World, steps: seq<Step>, o: Occurrence): nat
    requires Runs(w, steps)
    decreases |steps|
  {
    if steps == [] then 0 else One(EndsQuietly(w, steps[0], o)) + QuietEnds(Next(w, steps[0]), steps[1..], o)
  }

  /** Along every run the dispatches of o are its records, its quiet ends and what is still in flight. */
  lemma {:induction false} RunsBalance(w: World, steps: seq<Step>, o: Occurrence)
    requires Fits(w.s, w.known) && Runs(w, steps)
    ensures var w' := After(w, steps);
      Pending(w', o) - Pending(w, o) + QuietEnds(w, steps, o) ==
      Count(w'.dispatches, EntryIs(o)) - Count(w.dispatches, EntryIs(o))
    decreases |steps|
  {
    if steps != [] {
      StepFits(w, steps[0]);
      StepAccounts(w, steps[0], o);
      RunsBalance(Next(w, steps[0]), steps[1..], o);
    }
  }
}
