/**
 * The life of an execution row: the wrappers around the jobs, the statements they send, and the
 * process that may die between any two of them. A statement is applied some time after it was
 * sent, or never, whether or not anybody still waits for it.
 */
module Lifecycle {
  import opened Options
  import opened Store

  const SUCCESS: string := "success"
  const CANCELLED: string := "cancelled"
  const CANCELLATION: string := "Job cancelled (shutdown or timeout)"

  /** How the wrapped function ended. */
  datatype Outcome = Returned | Raised(error: string) | Cancelled

  function StatusOf(outcome: Outcome): (status: string)
    ensures status != RUNNING
  {
    assert RUNNING[0] == 'r';
    match outcome
    case Returned => SUCCESS
    case Raised(_) => FAILED
    case Cancelled => CANCELLED
  }

  function ErrorOf(outcome: Outcome): Option<string> {
    match outcome
    case Returned => None
    case Raised(error) => Some(error)
    case Cancelled => Some(CANCELLATION)
  }

  /** What a wrapper call waits for: a statement, or the wrapped function (`Running`). */
  datatype Phase =
    | Logging
    | Registering
    | Relogging
    | Running(id: int)
    | Ending(id: int, outcome: Outcome, finishedAt: string)
    | Over

  /** One call of a wrapper. Not `awaited`: it was cancelled or timed out and sends nothing more. */
  datatype Call = Call(job: JobRow, row: ExecutionRow, awaited: bool, phase: Phase)

  /** `open`: `init` has run in this process. */
  datatype State = State(tables: Tables, calls: seq<Call>, open: bool)

  const NEW := State(EMPTY, [], false)

  datatype Step =
    | Invoked(name: string, job: JobRow, attempt: int, triggeredAt: string, startedAt: string)
    | Applied(k: nat)
    | Lost(k: nat)
    | Abandoned(k: nat)
    | Finished(k: nat, outcome: Outcome, finishedAt: string)
    | JobRegistered(name: string, job: JobRow)
    | JobUnregistered(name: string)
    | OldPruned(cutoff: string)
    | Healed(now: string)
    | Crashed
    | Opened(now: string)

  function RunningRow(name: string, attempt: int, triggeredAt: string, startedAt: string): ExecutionRow {
    ExecutionRow(name, RUNNING, attempt, Some(triggeredAt), Some(startedAt), None, None)
  }

  predicate Enabled(s: State, e: Step) {
    match e
    case Invoked(_, _, _, _, _) => s.open
    case Applied(k) => k < |s.calls| && !s.calls[k].phase.Over? && !s.calls[k].phase.Running?
    case Lost(k) => k < |s.calls|
    case Abandoned(k) => k < |s.calls| && !s.calls[k].phase.Running?
    case Finished(k, _, _) => k < |s.calls| && s.calls[k].phase.Running?
    case JobRegistered(_, _) => true
    case JobUnregistered(_) => true
    case OldPruned(_) => true
    case Healed(_) => s.open
    case Crashed => true
    case Opened(_) => !s.open
  }

  /** What a call turns to once its insert was answered. */
  function Logged(c: Call, id: Option<int>): Phase {
    if !c.awaited then Over
    else if id.Some? then Running(id.value)
    else if c.phase.Logging? then Registering
    else Over
  }

  function Apply(s: State, k: nat): State
    requires Enabled(s, Applied(k))
  {
    var c := s.calls[k];
    match c.phase
    case Registering =>
      s.(tables := RegisterJob(s.tables, c.row.jobName, c.job),
         calls := s.calls[k := c.(phase := if c.awaited then Relogging else Over)])
    case Ending(id, outcome, finishedAt) =>
      s.(tables := UpdateExecution(s.tables, id, Some(StatusOf(outcome)), Some(finishedAt), ErrorOf(outcome)),
         calls := s.calls[k := c.(phase := Over)])
    case _ =>
      var (id, tables) := LogExecution(s.tables, c.row);
      s.(tables := tables, calls := s.calls[k := c.(phase := Logged(c, id))])
  }

  function Next(s: State, e: Step): State
    requires Enabled(s, e)
  {
    match e
    case Invoked(name, job, attempt, triggeredAt, startedAt) =>
      s.(calls := s.calls + [Call(job, RunningRow(name, attempt, triggeredAt, startedAt), true, Logging)])
    case Applied(k) => Apply(s, k)
    case Lost(k) => s.(calls := s.calls[k := s.calls[k].(phase := Over)])
    case Abandoned(k) => s.(calls := s.calls[k := s.calls[k].(awaited := false)])
    case Finished(k, outcome, finishedAt) =>
      s.(calls := s.calls[k := s.calls[k].(phase := Ending(s.calls[k].phase.id, outcome, finishedAt))])
    case JobRegistered(name, job) => s.(tables := RegisterJob(s.tables, name, job))
    case JobUnregistered(name) => s.(tables := UnregisterJob(s.tables, name))
    case OldPruned(cutoff) => s.(tables := Prune(s.tables, cutoff))
    case Healed(now) => s.(tables := Heal(s.tables, now))
    case Crashed => s.(calls := [], open := false)
    case Opened(now) => s.(tables := Heal(s.tables, now), open := true)
  }

  predicate Runs(s: State, steps: seq<Step>)
    decreases |steps|
  {
    steps == [] || (Enabled(s, steps[0]) && Runs(Next(s, steps[0]), steps[1..]))
  }

  function End(s: State, steps: seq<Step>): State
    requires Runs(s, steps)
    decreases |steps|
  {
    if steps == [] then s else End(Next(s, steps[0]), steps[1..])
  }

  // ---------------------------------------------------------------- invariant

  /** The row a call has inserted and may still end. */
  function Owned(phase: Phase): Option<int> {
    match phase
    case Running(id) => Some(id)
    case Ending(id, _, _) => Some(id)
    case _ => None
  }

  predicate KnownStatus(status: string) {
    status == RUNNING || status == SUCCESS || status == FAILED || status == CANCELLED
  }

  /** What the update of a finished call makes of its row. */
  function EndedRow(row: ExecutionRow, outcome: Outcome, finishedAt: string): ExecutionRow {
    Patched(row, Some(StatusOf(outcome)), Some(finishedAt), ErrorOf(outcome))
  }

  /** The owned row is still running; or the update that is on its way would change nothing in it. */
  predicate PhaseFits(t: Tables, phase: Phase) {
    match phase
    case Running(id) => 0 < id < t.nextId && (id in t.executions ==> t.executions[id].status == RUNNING)
    case Ending(id, outcome, finishedAt) =>
      && 0 < id < t.nextId
      && (id in t.executions ==>
            var row := t.executions[id];
            row.status == RUNNING || EndedRow(row, outcome, finishedAt) == row)
    case _ => true
  }

  ghost predicate OwnersDiffer(calls: seq<Call>) {
    forall j, k :: 0 <= j < k < |calls| && Owned(calls[j].phase).Some? ==>
      Owned(calls[j].phase) != Owned(calls[k].phase)
  }

  ghost predicate Sound(s: State) {
    && Integrity(s.tables)
    && (forall id :: id in s.tables.executions ==> KnownStatus(s.tables.executions[id].status))
    && (forall k :: 0 <= k < |s.calls| ==> PhaseFits(s.tables, s.calls[k].phase))
    && (forall k :: 0 <= k < |s.calls| ==> s.calls[k].row.status == RUNNING)
    && OwnersDiffer(s.calls)
    && (!s.open ==> s.calls == [])
  }

  /** The call's row is still running, and its update could write something else than a heal at
      `now` does: it is not on its way yet, or it does not carry just what the heal writes. */
  predicate LateCall(t: Tables, phase: Phase, now: string) {
    match phase
    case Running(id) => id in t.executions && t.executions[id].status == RUNNING
    case Ending(id, outcome, finishedAt) =>
      && id in t.executions && t.executions[id].status == RUNNING
      && (outcome != Raised(RESTARTED) || finishedAt != now)
    case _ => false
  }

  predicate Late(s: State, now: string) {
    exists k :: 0 <= k < |s.calls| && LateCall(s.tables, s.calls[k].phase, now)
  }

  /** `heal_interrupted` is called beside `init` only while no call is late. */
  predicate Careful(s: State, steps: seq<Step>)
    requires Runs(s, steps)
    decreases |steps|
  {
    steps != [] ==> (steps[0].Healed? ==> !Late(s, steps[0].now)) && Careful(Next(s, steps[0]), steps[1..])
  }

  /** From t to u rows may end, appear or go; a row that has ended never changes, and no id comes back. */
  ghost predicate Settled(t: Tables, u: Tables) {
    && t.nextId <= u.nextId
    && (forall id :: id in u.executions && id < t.nextId ==> id in t.executions)
    && (forall id :: id in u.executions && id in t.executions ==> SettledRow(t.executions[id], u.executions[id]))
  }

  predicate SettledRow(was: ExecutionRow, row: ExecutionRow) {
    && row.jobName == was.jobName && row.attempt == was.attempt
    && row.triggeredAt == was.triggeredAt && row.startedAt == was.startedAt
    && (was.status != RUNNING ==> row == was)
  }

  // -------------------------------------------------------------------- steps

  lemma OwnersStayDifferent(calls: seq<Call>, k: nat, phase: Phase)
    requires OwnersDiffer(calls) && k < |calls|
    requires Owned(phase).Some? ==> forall j :: 0 <= j < |calls| && j != k ==> Owned(calls[j].phase) != Owned(phase)
    ensures OwnersDiffer(calls[k := calls[k].(phase := phase)])
  {
  }

  lemma InsertKeeps(s: State, k: nat)
    requires Sound(s) && Enabled(s, Applied(k))
    requires s.calls[k].phase.Logging? || s.calls[k].phase.Relogging?
    ensures Sound(Apply(s, k)) && Settled(s.tables, Apply(s, k).tables)
  {
    var c := s.calls[k];
    var (id, tables) := LogExecution(s.tables, c.row);
    OwnersStayDifferent(s.calls, k, Logged(c, id));
  }

  lemma UpdateKeeps(s: State, k: nat)
    requires Sound(s) && Enabled(s, Applied(k)) && s.calls[k].phase.Ending?
    ensures Sound(Apply(s, k)) && Settled(s.tables, Apply(s, k).tables)
  {
    var c := s.calls[k];
    OwnersStayDifferent(s.calls, k, Over);
    forall j | 0 <= j < |s.calls| && j != k ensures PhaseFits(Apply(s, k).tables, s.calls[j].phase) {
      assert PhaseFits(s.tables, s.calls[j].phase) && PhaseFits(s.tables, c.phase);
      assert Owned(s.calls[j].phase) != Owned(c.phase);
    }
  }

  lemma HealKeeps(s: State, now: string)
    requires Sound(s) && !Late(s, now)
    ensures Sound(s.(tables := Heal(s.tables, now))) && Settled(s.tables, Heal(s.tables, now))
  {
    forall k | 0 <= k < |s.calls| ensures PhaseFits(Heal(s.tables, now), s.calls[k].phase) {
      assert PhaseFits(s.tables, s.calls[k].phase) && !LateCall(s.tables, s.calls[k].phase, now);
    }
  }

  lemma ApplyKeeps(s: State, k: nat)
    requires Sound(s) && Enabled(s, Applied(k))
    ensures Sound(Apply(s, k)) && Settled(s.tables, Apply(s, k).tables)
  {
    match s.calls[k].phase
    case Registering => OwnersStayDifferent(s.calls, k, if s.calls[k].awaited then Relogging else Over);
    case Ending(_, _, _) => UpdateKeeps(s, k);
    case _ => InsertKeeps(s, k);
  }

  /** Statements from elsewhere on the jobs, and pruning: rows may go but not change. */
  lemma OutsideKeeps(s: State, u: Tables)
    requires Sound(s) && Integrity(u) && u.nextId == s.tables.nextId
    requires forall id :: id in u.executions ==>
      id in s.tables.executions && u.executions[id] == s.tables.executions[id]
    ensures Sound(s.(tables := u)) && Settled(s.tables, u)
  {
  }

  /** Steps that only move one call on. */
  lemma PhaseKeeps(s: State, k: nat, c: Call)
    requires Sound(s) && k < |s.calls| && c.row == s.calls[k].row && PhaseFits(s.tables, c.phase)
    requires Owned(c.phase).Some? ==> Owned(c.phase) == Owned(s.calls[k].phase)
    ensures Sound(s.(calls := s.calls[k := c]))
  {
  }

  lemma StepKeeps(s: State, e: Step)
    requires Sound(s) && Enabled(s, e) && (e.Healed? ==> !Late(s, e.now))
    ensures Sound(Next(s, e)) && Settled(s.tables, Next(s, e).tables)
  {
    match e
    case Invoked(_, _, _, _, _) =>
    case Applied(k) => ApplyKeeps(s, k);
    case Lost(k) => PhaseKeeps(s, k, s.calls[k].(phase := Over));
    case Abandoned(k) =>
      assert PhaseFits(s.tables, s.calls[k].phase);
      PhaseKeeps(s, k, s.calls[k].(awaited := false));
    case Finished(k, outcome, finishedAt) =>
      assert PhaseFits(s.tables, s.calls[k].phase);
      PhaseKeeps(s, k, s.calls[k].(phase := Ending(s.calls[k].phase.id, outcome, finishedAt)));
    case JobRegistered(name, job) => OutsideKeeps(s, RegisterJob(s.tables, name, job));
    case JobUnregistered(name) => OutsideKeeps(s, UnregisterJob(s.tables, name));
    case OldPruned(cutoff) => OutsideKeeps(s, Prune(s.tables, cutoff));
    case Healed(now) => HealKeeps(s, now);
    case Crashed =>
    case Opened(now) => HealKeeps(s, now);
  }

  // --------------------------------------------------------------------- runs

  /**
   * Over every careful run, across crashes and restarts: rows keep referring to jobs, calls own
   * different rows, a row leaves `running` at most once and never changes after that, and an id
   * never denotes a second execution.
   */
  lemma {:induction false} RowsEndOnce(s: State, steps: seq<Step>)
    requires Sound(s) && Runs(s, steps) && Careful(s, steps)
    ensures Sound(End(s, steps)) && Settled(s.tables, End(s, steps).tables)
    decreases |steps|
  {
    if steps != [] {
      StepKeeps(s, steps[0]);
      RowsEndOnce(Next(s, steps[0]), steps[1..]);
    }
  }

  /** The same from an empty store on, between any two moments of a run. */
  lemma EveryRowEndsOnce(before: seq<Step>, after: seq<Step>)
    requires Runs(NEW, before) && Careful(NEW, before)
    requires Runs(End(NEW, before), after) && Careful(End(NEW, before), after)
    ensures Sound(End(NEW, before)) && Settled(End(NEW, before).tables, End(End(NEW, before), after).tables)
  {
    RowsEndOnce(NEW, before);
    RowsEndOnce(End(NEW, before), after);
  }

  /** A run that heals only in `init` is careful. */
  lemma {:induction false} HealingAtInitIsCareful(s: State, steps: seq<Step>)
    requires Runs(s, steps) && forall e :: e in steps ==> !e.Healed?
    ensures Careful(s, steps)
    decreases |steps|
  {
    if steps != [] {
      assert forall e :: e in steps[1..] ==> e in steps;
      HealingAtInitIsCareful(Next(s, steps[0]), steps[1..]);
    }
  }

  /** What the late call does after the heal. */
  function LateSteps(phase: Phase, k: nat): seq<Step> {
    if phase.Running? then [Finished(k, Returned, ""), Applied(k)] else [Applied(k)]
  }

  lemma EndOfOne(s: State, e: Step)
    requires Enabled(s, e) && !e.Healed?
    ensures Runs(s, [e]) && Careful(s, [e]) && End(s, [e]) == Next(s, e)
  {
    assert [e][1..] == [];
    assert Runs(Next(s, e), []);
  }

  lemma LateUpdateOverwrites(s: State, now: string, k: nat)
    requires Sound(s) && s.open && k < |s.calls| && LateCall(s.tables, s.calls[k].phase, now)
    ensures var h := Next(s, Healed(now));
      var steps := LateSteps(s.calls[k].phase, k);
      Runs(h, steps) && Careful(h, steps) && !Settled(h.tables, End(h, steps).tables)
  {
    var h := Next(s, Healed(now));
    var id := Owned(s.calls[k].phase).value;
    assert h.tables.executions[id].status == FAILED;
    assert FAILED[0] != RUNNING[0] && SUCCESS[0] != FAILED[0];
    if s.calls[k].phase.Running? {
      var f := Next(h, Finished(k, Returned, ""));
      assert f.calls[k].phase == Ending(id, Returned, "");
      assert [Finished(k, Returned, ""), Applied(k)][1..] == [Applied(k)];
      EndOfOne(f, Applied(k));
      assert Apply(f, k).tables.executions[id].status == SUCCESS;
      assert !SettledRow(h.tables.executions[id], Apply(f, k).tables.executions[id]);
    } else {
      EndOfOne(h, Applied(k));
      assert !SettledRow(h.tables.executions[id], Apply(h, k).tables.executions[id]);
    }
  }

  /** A heal beside `init` is harmless if and only if no call is late at that moment. */
  lemma HealIsSafeUnlessLate(s: State, now: string)
    requires Sound(s) && s.open
    ensures var h := Next(s, Healed(now));
      !Late(s, now) <==> forall steps ::
        Runs(h, steps) && Careful(h, steps) ==> Settled(h.tables, End(h, steps).tables)
  {
    var h := Next(s, Healed(now));
    if Late(s, now) {
      var k :| 0 <= k < |s.calls| && LateCall(s.tables, s.calls[k].phase, now);
      LateUpdateOverwrites(s, now, k);
    } else {
      StepKeeps(s, Healed(now));
      forall steps | Runs(h, steps) && Careful(h, steps) ensures Settled(h.tables, End(h, steps).tables) {
        RowsEndOnce(h, steps);
      }
    }
  }

  /** What a call that nothing disturbs goes through: the insert, once more after adding the job's row
      if that was missing, the function, the update. */
  function Undisturbed(s: State, invoke: Step, outcome: Outcome, finishedAt: string): seq<Step>
    requires invoke.Invoked?
  {
    var k := |s.calls|;
    [invoke] + ToInsert(k, invoke.name in s.tables.jobs) + [Finished(k, outcome, finishedAt), Applied(k)]
  }

  /** The row of such a call once it has ended. */
  function Recorded(invoke: Step, outcome: Outcome, finishedAt: string): ExecutionRow
    requires invoke.Invoked?
  {
    var Invoked(name, _, attempt, triggeredAt, startedAt) := invoke;
    match outcome
    case Returned =>
      ExecutionRow(name, "success", attempt, Some(triggeredAt), Some(startedAt), Some(finishedAt), None)
    case Raised(e) =>
      ExecutionRow(name, "failed", attempt, Some(triggeredAt), Some(startedAt), Some(finishedAt), Some(e))
    case Cancelled =>
      var error := "Job cancelled (shutdown or timeout)";
      ExecutionRow(name, "cancelled", attempt, Some(triggeredAt), Some(startedAt), Some(finishedAt), Some(error))
  }

  lemma OneStep(s: State, e: Step, rest: seq<Step>)
    requires Enabled(s, e) && Runs(Next(s, e), rest)
    ensures Runs(s, [e] + rest) && End(s, [e] + rest) == End(Next(s, e), rest)
  {
    assert ([e] + rest)[1..] == rest;
  }

  /** The update of the last two steps. */
  lemma CallEnds(s: State, k: nat, id: int, outcome: Outcome, finishedAt: string)
    requires k < |s.calls| && s.calls[k].phase == Running(id) && id in s.tables.executions
    ensures var steps := [Finished(k, outcome, finishedAt), Applied(k)];
      && Runs(s, steps)
      && End(s, steps).tables ==
         s.tables.(executions := s.tables.executions[id := EndedRow(s.tables.executions[id], outcome, finishedAt)])
  {
    var f := Next(s, Finished(k, outcome, finishedAt));
    EndOfOne(f, Applied(k));
    OneStep(s, Finished(k, outcome, finishedAt), [Applied(k)]);
    assert [Finished(k, outcome, finishedAt)] + [Applied(k)] == [Finished(k, outcome, finishedAt), Applied(k)];
  }

  /** The insert, when the job's row is there. */
  lemma CallStarts(s: State, k: nat)
    requires k < |s.calls| && s.calls[k].awaited && s.calls[k].phase in {Logging, Relogging}
    requires s.calls[k].row.jobName in s.tables.jobs
    ensures Enabled(s, Applied(k))
    ensures var s' := Next(s, Applied(k));
      && |s'.calls| == |s.calls| && s'.calls[k].phase == Running(s.tables.nextId)
      && s'.tables.executions == s.tables.executions[s.tables.nextId := s.calls[k].row]
      && s'.tables.jobs == s.tables.jobs && s'.tables.nextId == s.tables.nextId + 1
  {
  }

  /** The first insert is refused, and the job's row is added. */
  lemma CallRegisters(s: State, k: nat)
    requires k < |s.calls| && s.calls[k].awaited && s.calls[k].phase == Logging
    requires s.calls[k].row.jobName !in s.tables.jobs
    ensures Runs(s, [Applied(k), Applied(k)])
    ensures var s' := End(s, [Applied(k), Applied(k)]);
      && |s'.calls| == |s.calls| && s'.calls[k] == s.calls[k].(phase := Relogging)
      && s'.tables == s.tables.(jobs := s.tables.jobs[s.calls[k].row.jobName := s.calls[k].job])
  {
    var a := Next(s, Applied(k));
    EndOfOne(a, Applied(k));
    OneStep(s, Applied(k), [Applied(k)]);
    assert [Applied(k)] + [Applied(k)] == [Applied(k), Applied(k)];
  }

  /** A call nobody waits for any more sends nothing after the statement it had sent. */
  lemma AbandonedSendsNothing(s: State, k: nat)
    requires Enabled(s, Applied(k)) && !s.calls[k].awaited
    ensures Next(s, Applied(k)).calls == s.calls[k := s.calls[k].(phase := Over)]
  {
  }

  /** A second refusal, the job having been removed meanwhile, is the end of the call. */
  lemma RefusedTwiceIsOver(s: State, k: nat)
    requires k < |s.calls| && s.calls[k].phase == Relogging && s.calls[k].row.jobName !in s.tables.jobs
    ensures Enabled(s, Applied(k)) && Next(s, Applied(k)).calls[k].phase == Over
    ensures Next(s, Applied(k)).tables == s.tables
  {
  }

  lemma {:induction false} RunsOn(s: State, steps: seq<Step>, more: seq<Step>)
    requires Runs(s, steps) && Runs(End(s, steps), more)
    ensures Runs(s, steps + more) && End(s, steps + more) == End(End(s, steps), more)
    decreases |steps|
  {
    if steps == [] {
      assert steps + more == more;
    } else {
      assert (steps + more)[1..] == steps[1..] + more;
      RunsOn(Next(s, steps[0]), steps[1..], more);
    }
  }

  function ToInsert(k: nat, known: bool): seq<Step> {
    if known then [Applied(k)] else [Applied(k), Applied(k), Applied(k)]
  }

  /** Registered before or not, the call gets its row and runs. */
  lemma CallInserts(s: State, k: nat)
    requires k < |s.calls| && s.calls[k].awaited && s.calls[k].phase == Logging
    ensures var name, jobs := s.calls[k].row.jobName, s.tables.jobs;
      var steps := ToInsert(k, name in jobs);
      && Runs(s, steps)
      && var s' := End(s, steps);
        && |s'.calls| == |s.calls| && s'.calls[k].phase == Running(s.tables.nextId)
        && s'.tables.executions == s.tables.executions[s.tables.nextId := s.calls[k].row]
        && s'.tables.jobs == if name in jobs then jobs else jobs[name := s.calls[k].job]
  {
    if s.calls[k].row.jobName in s.tables.jobs {
      CallStarts(s, k);
      EndOfOne(s, Applied(k));
    } else {
      CallRegisters(s, k);
      var r := End(s, [Applied(k), Applied(k)]);
      CallStarts(r, k);
      EndOfOne(r, Applied(k));
      RunsOn(s, [Applied(k), Applied(k)], [Applied(k)]);
      assert [Applied(k), Applied(k)] + [Applied(k)] == [Applied(k), Applied(k), Applied(k)];
    }
  }

  lemma EndedIsRecorded(invoke: Step, outcome: Outcome, finishedAt: string)
    requires invoke.Invoked?
    ensures var running := RunningRow(invoke.name, invoke.attempt, invoke.triggeredAt, invoke.startedAt);
      EndedRow(running, outcome, finishedAt) == Recorded(invoke, outcome, finishedAt)
  {
  }

  /** An undisturbed call, whatever went before, adds exactly its row, with the outcome of its
      function, and its job's row if that was missing. */
  lemma UndisturbedIsRecorded(s: State, invoke: Step, outcome: Outcome, finishedAt: string)
    requires s.open && invoke.Invoked?
    ensures var steps, jobs := Undisturbed(s, invoke, outcome, finishedAt), s.tables.jobs;
      && Runs(s, steps)
      && var u := End(s, steps).tables;
        && u.executions == s.tables.executions[s.tables.nextId := Recorded(invoke, outcome, finishedAt)]
        && u.jobs == if invoke.name in jobs then jobs else jobs[invoke.name := invoke.job]
  {
    var k := |s.calls|;
    var a := Next(s, invoke);
    var toInsert := ToInsert(k, invoke.name in s.tables.jobs);
    var toEnd := [Finished(k, outcome, finishedAt), Applied(k)];
    EndOfOne(s, invoke);
    CallInserts(a, k);
    var b := End(a, toInsert);
    CallEnds(b, k, s.tables.nextId, outcome, finishedAt);
    EndedIsRecorded(invoke, outcome, finishedAt);
    RunsOn(s, [invoke], toInsert);
    RunsOn(s, [invoke] + toInsert, toEnd);
  }

  /** From an empty store to a call that has inserted its row and whose function runs. */
  function ToLate(name: string, job: JobRow, t: string): seq<Step> {
    [Opened(t), JobRegistered(name, job), Invoked(name, job, 1, t, t), Applied(0)]
  }

  /** Any job's first call is late from its insert on, so a heal then is not safe. */
  lemma LateIsReached(name: string, job: JobRow, t: string, now: string)
    ensures Runs(NEW, ToLate(name, job, t)) && Careful(NEW, ToLate(name, job, t))
    ensures var s := End(NEW, ToLate(name, job, t)); Sound(s) && s.open && Late(s, now)
    ensures var h := Next(End(NEW, ToLate(name, job, t)), Healed(now));
      exists steps :: Runs(h, steps) && Careful(h, steps) && !Settled(h.tables, End(h, steps).tables)
  {
    var steps := ToLate(name, job, t);
    var a := Next(NEW, steps[0]);
    var b := Next(a, steps[1]);
    var c := Next(b, steps[2]);
    assert steps[1..][1..] == steps[2..] && steps[2..][1..] == steps[3..] && steps[3..][1..] == [];
    assert name in c.tables.jobs && c.calls[0].phase == Logging;
    EndOfOne(c, steps[3]);
    assert Runs(c, steps[3..]) && Runs(b, steps[2..]) && Runs(a, steps[1..]);
    var s := Next(c, steps[3]);
    assert End(NEW, steps) == End(a, steps[1..]) == End(b, steps[2..]) == End(c, steps[3..]) == s;
    RowsEndOnce(NEW, steps);
    assert LateCall(s.tables, s.calls[0].phase, now);
    LateUpdateOverwrites(s, now, 0);
  }

  // -------------------------------------------------------------------- crash

  /** While the process is down nothing ends a row. */
  lemma {:induction false} DownKeepsRows(s: State, steps: seq<Step>)
    requires Runs(s, steps) && !s.open && s.calls == []
    requires forall e :: e in steps ==> !e.Opened?
    ensures !End(s, steps).open && End(s, steps).calls == []
    ensures forall id :: id in End(s, steps).tables.executions ==>
      id in s.tables.executions && End(s, steps).tables.executions[id] == s.tables.executions[id]
    decreases |steps|
  {
    if steps != [] {
      assert steps[0] in steps && forall e :: e in steps[1..] ==> e in steps;
      DownKeepsRows(Next(s, steps[0]), steps[1..]);
    }
  }

  /**
   * The run that was cut off by a crash is failed by the next `init`, every ended row comes
   * through unchanged, and no row is left running.
   */
  lemma CrashIsHealed(s: State, steps: seq<Step>, now: string)
    requires Sound(s) && Runs(Next(s, Crashed), steps) && forall e :: e in steps ==> !e.Opened?
    ensures var d := End(Next(s, Crashed), steps);
      && Enabled(d, Opened(now))
      && RunningIds(Next(d, Opened(now)).tables) == {}
      && forall id :: id in Next(d, Opened(now)).tables.executions ==>
        && id in s.tables.executions
        && Next(d, Opened(now)).tables.executions[id] ==
           (if s.tables.executions[id].status != RUNNING then s.tables.executions[id]
            else s.tables.executions[id].(status := FAILED, finishedAt := Some(now), error := Some(RESTARTED)))
  {
    DownKeepsRows(Next(s, Crashed), steps);
    var d := End(Next(s, Crashed), steps);
    HealLeavesNoneRunning(d.tables, now);
  }

  // -------------------------------------------------- one call, undisturbed

  /** Insert the running row; a missing job row is added first. */
  method LogStart(store: SQLiteStore, job: JobRow, row: ExecutionRow) returns (id: int)
    requires Integrity(store.Content())
    modifies store
    ensures Integrity(store.Content()) && id == old(store.nextId)
    ensures store.executions == old(store.executions)[id := row]
    ensures store.jobs == if row.jobName in old(store.jobs)
      then old(store.jobs) else old(store.jobs)[row.jobName := job]
  {
    var logged := store.Log(row);
    if logged.None? {
      store.Register(row.jobName, job);
      logged := store.Log(row);
    }
    id := logged.value;
  }

  /** A wrapper call that nothing interleaves with adds one row, ended as the function ended. */
  method RunWrapped(store: SQLiteStore, job: JobRow, row: ExecutionRow, outcome: Outcome, finishedAt: string)
    requires Integrity(store.Content()) && row.status == RUNNING
    modifies store
    ensures Integrity(store.Content()) && RunningIds(store.Content()) == old(RunningIds(store.Content()))
    ensures store.executions.Keys == old(store.executions).Keys + {old(store.nextId)}
    ensures forall id :: id in old(store.executions) ==> store.executions[id] == old(store.executions)[id]
    ensures var ended := store.executions[old(store.nextId)];
      && ended == EndedRow(row, outcome, finishedAt) && SettledRow(row, ended)
      && ended.status == StatusOf(outcome) && ended.finishedAt == Some(finishedAt)
      && (outcome == Returned ==> ended.status == "success" && ended.error == row.error)
      && (forall e :: outcome == Raised(e) ==> ended.status == "failed" && ended.error == Some(e))
      && (outcome == Cancelled ==>
            ended.status == "cancelled" && ended.error == Some("Job cancelled (shutdown or timeout)"))
  {
    var id := LogStart(store, job, row);
    store.Update(id, Some(StatusOf(outcome)), Some(finishedAt), ErrorOf(outcome));
    assert id !in old(store.executions);
  }
}
