/** The two tables of the SQLite store and what its statements do to them. */
module Store {
  import opened Options
  import opened Timestamps

  datatype JobRow = JobRow(module_: string, qualname: string, scheduleRepr: string, passContext: bool,
        createdAt: Option<string>)

  /** A row of `executions` without its id; timestamps are stored as text. */
  datatype ExecutionRow = ExecutionRow(
    jobName: string,
    status: string,
    attempt: int,
    triggeredAt: Option<string>,
    startedAt: Option<string>,
    finishedAt: Option<string>,
    error: Option<string>)

  const RUNNING: string := "running"
  const FAILED: string := "failed"
  const RESTARTED: string := "Daemon restarted while job was in flight"

  /** `nextId`: AUTOINCREMENT never gives an id twice. */
  datatype Tables = Tables(jobs: map<string, JobRow>, executions: map<int, ExecutionRow>, nextId: int)

  /** Every execution refers to a job, and ids were given out. */
  ghost predicate Integrity(t: Tables) {
    && (forall id :: id in t.executions ==> 0 < id < t.nextId && t.executions[id].jobName in t.jobs)
    && 0 < t.nextId
  }

  const EMPTY: Tables := Tables(map[], map[], 1)

  /** Upsert: an existing row keeps its creation time. */
  function RegisterJob(t: Tables, name: string, row: JobRow): Tables {
    t.(jobs := t.jobs[name := if name in t.jobs then row.(createdAt := t.jobs[name].createdAt) else row])
  }

  /** Delete, with the executions of the job (ON DELETE CASCADE). */
  function UnregisterJob(t: Tables, name: string): Tables {
    t.(jobs := t.jobs - {name},
       executions := map id | id in t.executions && t.executions[id].jobName != name :: t.executions[id])
  }

  /** Insert; the id, or None for the IntegrityError of a missing job. */
  function LogExecution(t: Tables, row: ExecutionRow): (Option<int>, Tables) {
    if row.jobName !in t.jobs then (None, t)
    else (Some(t.nextId), t.(executions := t.executions[t.nextId := row], nextId := t.nextId + 1))
  }

  function Patched(row: ExecutionRow, status: Option<string>, finishedAt: Option<string>,
        error: Option<string>): ExecutionRow {
    row.(status := if status.Some? then status.value else row.status,
         finishedAt := if finishedAt.Some? then finishedAt else row.finishedAt,
         error := if error.Some? then error else row.error)
  }

  /** Update of the given columns; an unknown id matches no row. */
  function UpdateExecution(t: Tables, id: int, status: Option<string>, finishedAt: Option<string>,
        error: Option<string>): Tables {
    if id in t.executions then
      t.(executions := t.executions[id := Patched(t.executions[id], status, finishedAt, error)])
    else t
  }

  function RunningIds(t: Tables): set<int> {
    set id | id in t.executions && t.executions[id].status == RUNNING
  }

  function HealedRow(row: ExecutionRow, now: string): ExecutionRow {
    Patched(row, Some(FAILED), Some(now), Some(RESTARTED))
  }

  /** `heal_interrupted`: the rows still running become failed. */
  function Heal(t: Tables, now: string): Tables {
    t.(executions := map id | id in t.executions ::
      if t.executions[id].status == RUNNING then HealedRow(t.executions[id], now) else t.executions[id])
  }

  /** `COALESCE(triggered_at, started_at, finished_at)`. */
  function Stamp(row: ExecutionRow): Option<string> {
    if row.triggeredAt.Some? then row.triggeredAt
    else if row.startedAt.Some? then row.startedAt
    else row.finishedAt
  }

  /** SQL comparison with a text: a null satisfies nothing. */
  predicate Older(row: ExecutionRow, cutoff: string) {
    Stamp(row).Some? && TextLess(Stamp(row).value, cutoff)
  }

  function Prune(t: Tables, cutoff: string): Tables {
    t.(executions := map id | id in t.executions && !Older(t.executions[id], cutoff) :: t.executions[id])
  }

  /** The store as an object: each method is one statement on the connection. */
  class SQLiteStore {
    var jobs: map<string, JobRow>
    var executions: map<int, ExecutionRow>
    var nextId: int

    ghost function Content(): Tables reads this {
      Tables(jobs, executions, nextId)
    }

    constructor ()
      ensures Content() == EMPTY && Integrity(Content())
    {
      jobs, executions, nextId := map[], map[], 1;
    }

    method Register(name: string, row: JobRow)
      requires Integrity(Content())
      modifies this
      ensures Content() == RegisterJob(old(Content()), name, row) && Integrity(Content())
    {
      var kept := if name in jobs then row.(createdAt := jobs[name].createdAt) else row;
      jobs := jobs[name := kept];
    }

    method Unregister(name: string)
      requires Integrity(Content())
      modifies this
      ensures Content() == UnregisterJob(old(Content()), name) && Integrity(Content())
      ensures name !in jobs && forall id :: id in executions ==> executions[id].jobName != name
    {
      jobs := jobs - {name};
      executions := map id | id in executions && executions[id].jobName != name :: executions[id];
    }

    method Log(row: ExecutionRow) returns (id: Option<int>)
      requires Integrity(Content())
      modifies this
      ensures (id, Content()) == LogExecution(old(Content()), row) && Integrity(Content())
    {
      if row.jobName !in jobs {
        return None;
      }
      id := Some(nextId);
      executions := executions[nextId := row];
      nextId := nextId + 1;
    }

    /** The columns are collected one by one; without any the statement is not sent. */
    method Update(id: int, status: Option<string>, finishedAt: Option<string>, error: Option<string>)
      requires Integrity(Content())
      modifies this
      ensures Content() == UpdateExecution(old(Content()), id, status, finishedAt, error) && Integrity(Content())
    {
      if id !in executions {
        return;
      }
      var row := executions[id];
      if status.Some? {
        row := row.(status := status.value);
      }
      if finishedAt.Some? {
        row := row.(finishedAt := finishedAt);
      }
      if error.Some? {
        row := row.(error := error);
      }
      executions := executions[id := row];
    }

    /** Returns how many rows it changed. */
    method HealInterrupted(now: string) returns (healed: nat)
      requires Integrity(Content())
      modifies this
      ensures Content() == Heal(old(Content()), now) && Integrity(Content())
      ensures healed == |RunningIds(old(Content()))|
    {
      var left := set id | id in executions && executions[id].status == RUNNING;
      assert left == RunningIds(Content());
      healed := |left|;
      executions := map id | id in executions ::
        if executions[id].status == RUNNING then HealedRow(executions[id], now) else executions[id];
    }

    /** Returns how many rows it deleted. */
    method PruneOlder(cutoff: string) returns (deleted: nat)
      requires Integrity(Content())
      modifies this
      ensures Content() == Prune(old(Content()), cutoff) && Integrity(Content())
      ensures deleted == |old(executions)| - |executions|
    {
      var gone := set id | id in executions && Older(executions[id], cutoff);
      var kept := map id | id in executions && !Older(executions[id], cutoff) :: executions[id];
      assert executions.Keys == gone + kept.Keys && gone !! kept.Keys;
      assert |executions.Keys| == |gone| + |kept.Keys|;
      deleted := |gone|;
      executions := kept;
    }
  }

  // --------------------------------------------------------------- properties

  /** Healing leaves no row running and touches exactly the rows that were. */
  lemma HealLeavesNoneRunning(t: Tables, now: string)
    ensures RunningIds(Heal(t, now)) == {}
    ensures Heal(t, now).executions.Keys == t.executions.Keys
    ensures (set id | id in t.executions && Heal(t, now).executions[id] != t.executions[id]) == RunningIds(t)
    ensures forall id :: id in RunningIds(t) ==> Heal(t, now).executions[id].status == FAILED
  {
    assert RUNNING[0] != FAILED[0];
    forall id | id in RunningIds(t)
      ensures Heal(t, now).executions[id].status == FAILED && Heal(t, now).executions[id] != t.executions[id]
    {
    }
  }

  /** Pruning by text deletes exactly the rows whose first stamp lies before the cutoff moment. */
  lemma PruneFollowsTime(t: Tables, id: int, v: DateTime, cutoff: DateTime)
    requires id in t.executions && Representable(v) && Representable(cutoff)
    requires Stamp(t.executions[id]) == IsoUtc(Some(v))
    ensures id in Prune(t, IsoUtc(Some(cutoff)).value).executions <==> Moment(v) >= Moment(cutoff)
  {
    TextOrderIsTimeOrder(v, cutoff);
  }

  /** Re-registering a job keeps when it was created, and its executions. */
  lemma RegisterKeepsCreation(t: Tables, name: string, row: JobRow)
    requires Integrity(t)
    ensures Integrity(RegisterJob(t, name, row)) && RegisterJob(t, name, row).executions == t.executions
    ensures name in t.jobs ==> RegisterJob(t, name, row).jobs[name].createdAt == t.jobs[name].createdAt
    ensures RegisterJob(RegisterJob(t, name, row), name, row) == RegisterJob(t, name, row)
  {
  }

  /** The job goes, and exactly the executions that refer to it; all else stays as it is. */
  lemma UnregisterRemovesExactly(t: Tables, name: string)
    ensures var u := UnregisterJob(t, name);
      && u.jobs.Keys == t.jobs.Keys - {name} && (forall n :: n in u.jobs ==> u.jobs[n] == t.jobs[n])
      && (forall id :: id in u.executions <==> id in t.executions && t.executions[id].jobName != name)
      && (forall id :: id in u.executions ==> u.executions[id] == t.executions[id])
      && u.nextId == t.nextId
  {
  }

  /** On conflict every column but the creation time is written; no other job is touched. */
  lemma RegisterWritesColumns(t: Tables, name: string, row: JobRow)
    ensures var u := RegisterJob(t, name, row);
      && name in u.jobs
      && u.jobs[name].module_ == row.module_ && u.jobs[name].qualname == row.qualname
      && u.jobs[name].scheduleRepr == row.scheduleRepr && u.jobs[name].passContext == row.passContext
      && (name !in t.jobs ==> u.jobs[name].createdAt == row.createdAt)
      && u.jobs.Keys == t.jobs.Keys + {name}
      && forall n :: n in t.jobs && n != name ==> u.jobs[n] == t.jobs[n]
  {
  }

  /** A row of a known job is added under an id above all that are in use, and nothing else changes;
      one of an unknown job is refused. */
  lemma LogAddsExactly(t: Tables, row: ExecutionRow)
    requires Integrity(t)
    ensures row.jobName !in t.jobs ==> LogExecution(t, row) == (None, t)
    ensures row.jobName in t.jobs ==>
      var (id, u) := LogExecution(t, row);
      && id.Some? && (forall e :: e in t.executions ==> e < id.value)
      && u.executions == t.executions[id.value := row] && u.jobs == t.jobs && id.value < u.nextId
  {
  }

  /** Each given column is written, each other one and each other row is kept. */
  lemma UpdateWritesExactly(t: Tables, id: int, status: Option<string>, finishedAt: Option<string>,
        error: Option<string>)
    ensures var u := UpdateExecution(t, id, status, finishedAt, error);
      && u.executions.Keys == t.executions.Keys && u.jobs == t.jobs && u.nextId == t.nextId
      && (forall e :: e in t.executions && e != id ==> u.executions[e] == t.executions[e])
      && (id in t.executions ==>
            var was, row := t.executions[id], u.executions[id];
            && (status.Some? ==> row.status == status.value) && (status.None? ==> row.status == was.status)
            && (finishedAt.Some? ==> row.finishedAt == finishedAt)
            && (finishedAt.None? ==> row.finishedAt == was.finishedAt)
            && (error.Some? ==> row.error == error) && (error.None? ==> row.error == was.error)
            && row.jobName == was.jobName && row.attempt == was.attempt
            && row.triggeredAt == was.triggeredAt && row.startedAt == was.startedAt)
  {
  }

  /** What a heal writes into a row that says "running". */
  lemma HealWrites(t: Tables, now: string, id: int)
    requires id in t.executions && t.executions[id].status == "running"
    ensures id in Heal(t, now).executions
    ensures Heal(t, now).executions[id] == t.executions[id].(
      status := "failed", finishedAt := Some(now), error := Some("Daemon restarted while job was in flight"))
    ensures Heal(t, now).jobs == t.jobs && Heal(t, now).nextId == t.nextId
  {
  }

  /** A row is pruned exactly when the first of its triggered, started and finished times that is
      known lies before the cutoff; the rows that stay are unchanged. */
  lemma PruneRemovesExactly(t: Tables, cutoff: string, id: int)
    requires id in t.executions
    ensures var row, u := t.executions[id], Prune(t, cutoff);
      && (row.triggeredAt.Some? ==> (id !in u.executions <==> TextLess(row.triggeredAt.value, cutoff)))
      && (row.triggeredAt.None? && row.startedAt.Some? ==>
            (id !in u.executions <==> TextLess(row.startedAt.value, cutoff)))
      && (row.triggeredAt.None? && row.startedAt.None? && row.finishedAt.Some? ==>
            (id !in u.executions <==> TextLess(row.finishedAt.value, cutoff)))
      && (row.triggeredAt.None? && row.startedAt.None? && row.finishedAt.None? ==> id in u.executions)
      && (id in u.executions ==> u.executions[id] == row) && u.jobs == t.jobs
  {
  }
}
