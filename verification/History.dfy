/** Reading the stored executions, and what `init` puts back into memory. */
module History {
  import opened BoundedDeques
  import opened IntSets
  import opened Listings
  import opened Options
  import opened Store
  import opened Timestamps

  type Rows = map<int, ExecutionRow>

  /** `ExecutionRecord` of the persistence layer, without its JSON context. */
  datatype ExecutionRecord = ExecutionRecord(
    jobName: string,
    status: string,
    attempt: int,
    triggeredAt: Option<DateTime>,
    startedAt: Option<DateTime>,
    finishedAt: Option<DateTime>,
    error: Option<string>)

  // -------------------------------------------------------------------- order

  lemma {:induction false} TextsAreOrdered(a: string, b: string)
    ensures !(TextLess(a, b) && TextLess(b, a))
    ensures a == b || TextLess(a, b) || TextLess(b, a)
    decreases |a|
  {
    if a != [] && b != [] {
      assert a == [a[0]] + a[1..] && b == [b[0]] + b[1..];
      TextsAreOrdered(a[1..], b[1..]);
    }
  }

  lemma {:induction false} TextsChain(a: string, b: string, c: string)
    requires TextLess(a, b) && TextLess(b, c)
    ensures TextLess(a, c)
    decreases |a|
  {
    if a != [] && a[0] == b[0] == c[0] {
      TextsChain(a[1..], b[1..], c[1..]);
    }
  }

  /** Nulls are least. */
  predicate StampLess(a: Option<string>, b: Option<string>) {
    b.Some? && (a.None? || TextLess(a.value, b.value))
  }

  /** `(triggered_at, id)`, compared field by field. */
  predicate Earlier(t: Rows, a: int, b: int)
    requires a in t && b in t
  {
    StampLess(t[a].triggeredAt, t[b].triggeredAt) || (t[a].triggeredAt == t[b].triggeredAt && a < b)
  }

  lemma RowsAreOrdered(t: Rows, a: int, b: int)
    requires a in t && b in t
    ensures !(Earlier(t, a, b) && Earlier(t, b, a))
    ensures a == b || Earlier(t, a, b) || Earlier(t, b, a)
  {
    var x, y := t[a].triggeredAt, t[b].triggeredAt;
    if x.Some? && y.Some? {
      TextsAreOrdered(x.value, y.value);
      TextsAreOrdered(x.value, x.value);
    }
  }

  lemma RowsChain(t: Rows, a: int, b: int, c: int)
    requires a in t && b in t && c in t && Earlier(t, a, b) && Earlier(t, b, c)
    ensures Earlier(t, a, c)
  {
    var x, y, z := t[a].triggeredAt, t[b].triggeredAt, t[c].triggeredAt;
    if x.Some? && y.Some? && z.Some? && TextLess(x.value, y.value) && TextLess(y.value, z.value) {
      TextsChain(x.value, y.value, z.value);
    }
  }

  predicate Latest(t: Rows, ids: set<int>, last: int)
    requires ids <= t.Keys
  {
    last in ids && forall id :: id in ids && id != last ==> Earlier(t, id, last)
  }

  lemma {:induction false} LatestExists(t: Rows, ids: set<int>) returns (last: int)
    requires |ids| > 0 && ids <= t.Keys
    ensures Latest(t, ids, last)
    decreases |ids|
  {
    var x := AnyOf(ids);
    last := x;
    if |ids| > 1 {
      var rest := LatestExists(t, ids - {x});
      RowsAreOrdered(t, x, rest);
      if Earlier(t, x, rest) {
        last := rest;
      } else {
        forall id | id in ids && id != x ensures Earlier(t, id, x) {
          if id != rest {
            RowsChain(t, id, rest, x);
          }
        }
      }
    } else {
      assert |ids - {x}| == 0;
      assert ids == {x};
    }
  }

  lemma OneLatest(t: Rows, ids: set<int>)
    requires |ids| > 0 && ids <= t.Keys
    ensures exists last :: last in ids && Latest(t, ids, last)
    ensures forall x, y :: Latest(t, ids, x) && Latest(t, ids, y) ==> x == y
  {
    var last := LatestExists(t, ids);
    forall x, y | Latest(t, ids, x) && Latest(t, ids, y) ensures x == y {
      RowsAreOrdered(t, x, y);
    }
  }

  /** `ORDER BY triggered_at DESC, id DESC`. */
  function Newest(t: Rows, ids: set<int>): seq<int>
    requires ids <= t.Keys
    decreases |ids|
  {
    if |ids| == 0 then []
    else
      OneLatest(t, ids);
      var last :| last in ids && Latest(t, ids, last);
      [last] + Newest(t, ids - {last})
  }

  /** Each element strictly earlier than all that follow: the order in which things happened. */
  ghost predicate Chronological(t: Rows, s: seq<int>)
    requires forall i :: 0 <= i < |s| ==> s[i] in t
  {
    forall i, j :: 0 <= i < j < |s| ==> Earlier(t, s[i], s[j])
  }

  ghost predicate Lists(s: seq<int>, ids: set<int>) {
    (forall i :: 0 <= i < |s| ==> s[i] in ids) && (forall id :: id in ids ==> id in s)
  }

  lemma LastIsLatest(t: Rows, ids: set<int>, all: seq<int>)
    requires ids <= t.Keys && Lists(all, ids) && Chronological(t, all) && all != []
    ensures Latest(t, ids, all[|all| - 1]) && Lists(all[..|all| - 1], ids - {all[|all| - 1]})
  {
    var n := |all| - 1;
    forall i | 0 <= i < n ensures all[i] != all[n] {
      RowsAreOrdered(t, all[i], all[n]);
    }
  }

  /** A chronological listing of the rows is unique, and newest-first is its reverse. */
  lemma {:induction false} NewestIsReversed(t: Rows, ids: set<int>, all: seq<int>)
    requires ids <= t.Keys && Lists(all, ids) && Chronological(t, all)
    ensures Newest(t, ids) == Reversed(all)
    decreases |ids|
  {
    if all == [] {
      assert forall id :: id in ids ==> id in all;
      assert ids == {};
    } else {
      var n := |all| - 1;
      LastIsLatest(t, ids, all);
      OneLatest(t, ids);
      NewestIsReversed(t, ids - {all[n]}, all[..n]);
      assert Reversed(all) == [all[n]] + Reversed(all[..n]);
    }
  }

  lemma {:induction false} NewestListsAll(t: Rows, ids: set<int>)
    requires ids <= t.Keys
    ensures |Newest(t, ids)| == |ids| && forall id :: id in Newest(t, ids) <==> id in ids
    ensures forall i, j :: 0 <= i < j < |ids| ==> Earlier(t, Newest(t, ids)[j], Newest(t, ids)[i])
    decreases |ids|
  {
    if |ids| > 0 {
      OneLatest(t, ids);
      var last :| last in ids && Latest(t, ids, last);
      NewestListsAll(t, ids - {last});
      var rest := Newest(t, ids - {last});
      forall j | 0 <= j < |rest| ensures Earlier(t, rest[j], last) {
        assert rest[j] in ids - {last};
      }
    }
  }

  // -------------------------------------------------------------------- query

  datatype Condition = JobIs(name: string) | StatusIs(status: string) | Since(from: string) | Until(to: string)

  /** SQL comparisons: a null satisfies none. */
  predicate Satisfies(row: ExecutionRow, c: Condition) {
    match c
    case JobIs(name) => row.jobName == name
    case StatusIs(status) => row.status == status
    case Since(from) => row.triggeredAt.Some? && !TextLess(row.triggeredAt.value, from)
    case Until(to) => row.triggeredAt.Some? && !TextLess(to, row.triggeredAt.value)
  }

  predicate SatisfiesAll(row: ExecutionRow, conditions: seq<Condition>) {
    forall c :: c in conditions ==> Satisfies(row, c)
  }

  lemma OneMore(conditions: seq<Condition>, c: Condition)
    ensures forall row :: SatisfiesAll(row, conditions + [c]) <==> SatisfiesAll(row, conditions) && Satisfies(row, c)
  {
    forall row ensures SatisfiesAll(row, conditions + [c]) <==> SatisfiesAll(row, conditions) && Satisfies(row, c) {
      if SatisfiesAll(row, conditions + [c]) {
        assert forall d :: d in conditions ==> d in conditions + [c];
        assert c in conditions + [c];
      }
    }
  }

  /** `WHERE 1=1 AND ...`. */
  function Where(t: Rows, conditions: seq<Condition>): (ids: set<int>)
    ensures ids <= t.Keys
  {
    set id | id in t && SatisfiesAll(t[id], conditions)
  }

  /** `LIMIT limit OFFSET offset`; SQLite reads a negative limit as none and a negative offset as zero. */
  function Page<T>(s: seq<T>, limit: int, offset: int): seq<T> {
    var from := if offset < 0 then 0 else if offset > |s| then |s| else offset;
    if limit < 0 || from + limit > |s| then s[from..] else s[from..from + limit]
  }

  function ReadStamp(value: Option<string>): Option<Option<DateTime>> {
    match ParseDt(value)
    case Absent => Some(None)
    case Parsed(v) => Some(Some(v))
    case Malformed => None
  }

  /** `from_db_row`; None for the ValueError of a malformed timestamp. */
  function FromRow(row: ExecutionRow): (r: Option<ExecutionRecord>)
    ensures r.Some? ==> r.value.status == row.status
  {
    var triggeredAt, startedAt, finishedAt :=
      ReadStamp(row.triggeredAt), ReadStamp(row.startedAt), ReadStamp(row.finishedAt);
    if triggeredAt.None? || startedAt.None? || finishedAt.None? then None
    else Some(ExecutionRecord(row.jobName, row.status, row.attempt,
                              triggeredAt.value, startedAt.value, finishedAt.value, row.error))
  }

  /** `to_db_row`. */
  ghost function ToRow(r: ExecutionRecord): ExecutionRow
    requires StampsFit(r)
  {
    ExecutionRow(r.jobName, r.status, r.attempt, IsoUtc(r.triggeredAt), IsoUtc(r.startedAt),
      IsoUtc(r.finishedAt), r.error)
  }

  predicate StampsFit(r: ExecutionRecord) {
    && (r.triggeredAt.Some? ==> Representable(r.triggeredAt.value))
    && (r.startedAt.Some? ==> Representable(r.startedAt.value))
    && (r.finishedAt.Some? ==> Representable(r.finishedAt.value))
  }

  predicate SameMoment(a: Option<DateTime>, b: Option<DateTime>) {
    match (a, b)
    case (None, None) => true
    case (Some(v), Some(w)) => Moment(v) == Moment(w)
    case _ => false
  }

  lemma StampIsRead(v: Option<DateTime>)
    requires v.Some? ==> Representable(v.value)
    ensures ReadStamp(IsoUtc(v)).Some? && SameMoment(v, ReadStamp(IsoUtc(v)).value)
  {
    if v.Some? {
      var back := StoredIsRead(v.value);
    }
  }

  /** A stored record is read back the same up to the offset its timestamps are written in. */
  lemma RecordRoundTrip(r: ExecutionRecord)
    requires StampsFit(r)
    ensures FromRow(ToRow(r)).Some?
    ensures var back := FromRow(ToRow(r)).value;
      && back == r.(triggeredAt := back.triggeredAt, startedAt := back.startedAt, finishedAt := back.finishedAt)
      && SameMoment(r.triggeredAt, back.triggeredAt) && SameMoment(r.startedAt, back.startedAt)
      && SameMoment(r.finishedAt, back.finishedAt)
  {
    StampIsRead(r.triggeredAt);
    StampIsRead(r.startedAt);
    StampIsRead(r.finishedAt);
  }

  function Decoded(t: Rows): map<int, Option<ExecutionRecord>> {
    map id | id in t :: FromRow(t[id])
  }

  /** The records of the listed rows, or None when one of them cannot be read. */
  function Records(t: Rows, ids: seq<int>): Option<seq<ExecutionRecord>>
    requires forall i :: 0 <= i < |ids| ==> ids[i] in t
  {
    ReadAll(Decoded(t), ids)
  }

  /** What a query answers, whichever way it is put together. */
  ghost predicate Matches(row: ExecutionRow, name: Option<string>, status: Option<string>,
        since: Option<string>, until: Option<string>) {
    && (name.Some? && name.value != "" ==> row.jobName == name.value)
    && (status.Some? && status.value != "" ==> row.status == status.value)
    && (since.Some? ==> row.triggeredAt.Some? && !TextLess(row.triggeredAt.value, since.value))
    && (until.Some? ==> row.triggeredAt.Some? && !TextLess(until.value, row.triggeredAt.value))
  }

  ghost function Matching(t: Rows, name: Option<string>, status: Option<string>, since: Option<string>,
        until: Option<string>): (ids: set<int>)
    ensures ids <= t.Keys
  {
    set id | id in t && Matches(t[id], name, status, since, until)
  }

  ghost function Answer(t: Rows, ids: set<int>, limit: int, offset: int): Option<seq<ExecutionRecord>>
    requires ids <= t.Keys
  {
    NewestListsAll(t, ids);
    Records(t, Page(Newest(t, ids), limit, offset))
  }

  /** The conditions are collected one by one; an empty name or status filters nothing. */
  method Conditions(name: Option<string>, status: Option<string>, since: Option<string>, until: Option<string>)
    returns (conditions: seq<Condition>)
    ensures forall row :: SatisfiesAll(row, conditions) <==> Matches(row, name, status, since, until)
  {
    conditions := [];
    if name.Some? && name.value != "" {
      OneMore(conditions, JobIs(name.value));
      conditions := conditions + [JobIs(name.value)];
    }
    assert forall row :: SatisfiesAll(row, conditions) <==> Matches(row, name, None, None, None);
    if status.Some? && status.value != "" {
      OneMore(conditions, StatusIs(status.value));
      conditions := conditions + [StatusIs(status.value)];
    }
    assert forall row :: SatisfiesAll(row, conditions) <==> Matches(row, name, status, None, None);
    if since.Some? {
      OneMore(conditions, Since(since.value));
      conditions := conditions + [Since(since.value)];
    }
    assert forall row :: SatisfiesAll(row, conditions) <==> Matches(row, name, status, since, None);
    if until.Some? {
      OneMore(conditions, Until(until.value));
      conditions := conditions + [Until(until.value)];
    }
  }

  /** `get_history`. */
  method GetHistory(store: SQLiteStore, name: Option<string>, status: Option<string>, since: Option<string>,
                    until: Option<string>, limit: int, offset: int)
    returns (rows: Option<seq<ExecutionRecord>>)
    ensures rows == Answer(store.executions, Matching(store.executions, name, status, since, until), limit, offset)
  {
    var conditions := Conditions(name, status, since, until);
    var ids := Where(store.executions, conditions);
    assert ids == Matching(store.executions, name, status, since, until);
    NewestListsAll(store.executions, ids);
    rows := Records(store.executions, Page(Newest(store.executions, ids), limit, offset));
  }

  /** The first row of a newest-first answer is the latest. */
  lemma FirstPage(t: Rows, ids: set<int>, last: int)
    requires ids <= t.Keys && Latest(t, ids, last)
    ensures var record := Decoded(t)[last];
      Answer(t, ids, 1, 0) == if record.Some? then Some([record.value]) else None
  {
    var decoded := Decoded(t);
    assert last in decoded;
    NewestListsAll(t, ids);
    OneLatest(t, ids);
    assert Page(Newest(t, ids), 1, 0) == [last];
    ReadOne(decoded, last);
  }

  /** `get_last_execution`. */
  method GetLastExecution(store: SQLiteStore, name: string) returns (row: Option<Option<ExecutionRecord>>)
    ensures var ids := Matching(store.executions, Some(name), None, None, None);
      && (ids == {} ==> row == Some(None))
      && forall last :: Latest(store.executions, ids, last) ==>
        row == if Decoded(store.executions)[last].Some? then Some(Decoded(store.executions)[last]) else None
  {
    var rows := GetHistory(store, Some(name), None, None, None, 1, 0);
    ghost var ids := Matching(store.executions, Some(name), None, None, None);
    if ids != {} {
      OneLatest(store.executions, ids);
      var last :| last in ids && Latest(store.executions, ids, last);
      FirstPage(store.executions, ids, last);
    }
    row := if rows.None? then None else if rows.value == [] then Some(None) else Some(Some(rows.value[0]));
  }

  // --------------------------------------------------------------------- init

  lemma AllMatch(t: Rows)
    ensures Matching(t, None, None, None, None) == t.Keys
  {
    assert forall row :: Matches(row, None, None, None, None);
  }

  /** `deque.extend(reversed(rows))`. */
  method ExtendReversed<T>(history: seq<T>, rows: seq<T>, limit: nat) returns (extended: seq<T>)
    requires |history| <= limit
    ensures extended == LastOf(history + Reversed(rows), limit)
  {
    extended := history;
    var i := |rows|;
    while i > 0
      invariant 0 <= i <= |rows|
      invariant extended == LastOf(history + Reversed(rows[i..]), limit)
    {
      i := i - 1;
      assert rows[i..] == [rows[i]] + rows[i + 1..];
      assert history + Reversed(rows[i..]) == history + Reversed(rows[i + 1..]) + [rows[i]];
      LastOfAppended(history + Reversed(rows[i + 1..]), rows[i], limit);
      extended := LastOf(extended + [rows[i]], limit);
    }
  }

  class PersistentExecutionLoop {
    const store: SQLiteStore
    const historyLimit: nat
    var history: seq<ExecutionRecord>
    var initialized: bool

    ghost predicate Valid()
      reads this, store
    {
      |history| <= historyLimit && Integrity(store.Content())
    }

    constructor (store: SQLiteStore, historyLimit: nat)
      requires Integrity(store.Content())
      ensures Valid() && this.store == store && this.historyLimit == historyLimit && history == [] && !initialized
    {
      this.store, this.historyLimit, history, initialized := store, historyLimit, [], false;
    }

    /** `init`: heal, then restore. None when a stored timestamp cannot be read. */
    method Init(now: string) returns (healed: Option<nat>)
      requires Valid()
      modifies this, store
      ensures Valid()
      ensures old(initialized) ==> healed == Some(0) && unchanged(this) && unchanged(store)
      ensures !old(initialized) ==>
        var answer := Answer(store.executions, store.executions.Keys, historyLimit, 0);
        && store.Content() == Heal(old(store.Content()), now)
        && initialized == answer.Some?
        && healed == (if answer.Some? then Some(|old(RunningIds(store.Content()))|) else None)
        && history == if answer.Some? then LastOf(old(history) + Reversed(answer.value), historyLimit) else old(history)
    {
      if initialized {
        return Some(0);
      }
      var count := store.HealInterrupted(now);
      var restored := GetHistory(store, None, None, None, None, historyLimit, 0);
      AllMatch(store.executions);
      if restored.None? {
        return None;
      }
      history := ExtendReversed(history, restored.value, historyLimit);
      initialized := true;
      healed := Some(count);
    }
  }

  /** The newest page, turned round, is the end of the chronological listing. */
  lemma PageIsEnd(s: seq<int>, limit: nat)
    ensures Page(Reversed(s), limit, 0) == Reversed(LastOf(s, limit))
  {
  }

  lemma RecordsKeepStatus(t: Rows, s: seq<int>)
    requires forall i :: 0 <= i < |s| ==> s[i] in t
    requires Records(t, s).Some?
    ensures |Records(t, s).value| == |s|
    ensures forall i :: 0 <= i < |s| ==> Records(t, s).value[i].status == t[s[i]].status
  {
    forall i | 0 <= i < |s| ensures Records(t, s).value[i].status == t[s[i]].status {
      var decoded, id := Decoded(t), s[i];
      assert decoded[id] == Some(ReadAll(decoded, s).value[i]);
      assert decoded[id] == FromRow(t[id]);
    }
  }

  /** Healing changes no row's place in the listing. */
  lemma HealKeepsOrder(t: Tables, now: string, all: seq<int>)
    requires Lists(all, t.executions.Keys) && Chronological(t.executions, all)
    ensures Lists(all, Heal(t, now).executions.Keys) && Chronological(Heal(t, now).executions, all)
  {
    var rows := Heal(t, now).executions;
    assert rows.Keys == t.executions.Keys;
    forall i, j | 0 <= i < j < |all| ensures Earlier(rows, all[i], all[j]) {
      assert Earlier(t.executions, all[i], all[j]);
    }
  }

  /** The answer of an unfiltered query, turned round, is the end of the chronological listing. */
  lemma AnswerIsEnd(rows: Rows, all: seq<int>, limit: nat)
    requires Lists(all, rows.Keys) && Chronological(rows, all)
    ensures var answer := Answer(rows, rows.Keys, limit, 0);
      && (answer.Some? <==> Records(rows, LastOf(all, limit)).Some?)
      && (answer.Some? ==> Reversed(answer.value) == Records(rows, LastOf(all, limit)).value)
  {
    NewestIsReversed(rows, rows.Keys, all);
    PageIsEnd(all, limit);
    ReadReversed(Decoded(rows), LastOf(all, limit));
  }

  /**
   * After `init` on an empty memory the history is the end, of length at most the limit, of all
   * stored rows listed in the order they were triggered, and none of them is still running.
   */
  lemma RestoredHistory(t: Tables, now: string, all: seq<int>, limit: nat)
    requires Lists(all, t.executions.Keys) && Chronological(t.executions, all)
    ensures var rows := Heal(t, now).executions;
      var answer := Answer(rows, rows.Keys, limit, 0);
      && rows.Keys == t.executions.Keys
      && (answer.Some? <==> Records(rows, LastOf(all, limit)).Some?)
      && (answer.Some? ==>
        && LastOf([] + Reversed(answer.value), limit) == Records(rows, LastOf(all, limit)).value
        && forall r :: r in Reversed(answer.value) ==> r.status != RUNNING)
  {
    var rows := Heal(t, now).executions;
    HealLeavesNoneRunning(t, now);
    HealKeepsOrder(t, now, all);
    AnswerIsEnd(rows, all, limit);
    var end := LastOf(all, limit);
    if Records(rows, end).Some? {
      RecordsKeepStatus(rows, end);
      forall i | 0 <= i < |end| ensures Records(rows, end).value[i].status != RUNNING {
        assert end[i] !in RunningIds(Heal(t, now));
      }
    }
  }

  // --------------------------------------------------------------------- time

  /** The order of the listing is the order of the moments, ties broken by id. */
  lemma ListedInTimeOrder(t: Rows, a: int, b: int, v: DateTime, w: DateTime)
    requires a in t && b in t && Representable(v) && Representable(w)
    requires t[a].triggeredAt == IsoUtc(Some(v)) && t[b].triggeredAt == IsoUtc(Some(w))
    ensures Earlier(t, a, b) <==> Moment(v) < Moment(w) || (Moment(v) == Moment(w) && a < b)
  {
    TextOrderIsTimeOrder(v, w);
  }

  /** Rows without a time come before all others in the listing, by id among themselves. */
  lemma UntimedComeFirst(t: Rows, a: int, b: int)
    requires a in t && b in t && t[a].triggeredAt.None?
    ensures Earlier(t, a, b) <==> t[b].triggeredAt.Some? || a < b
    ensures Earlier(t, b, a) <==> t[b].triggeredAt.None? && b < a
  {
  }

  /** The bounds of a query select the rows triggered within them, both ends included. */
  lemma BoundsSelectMoments(row: ExecutionRow, v: DateTime, since: DateTime, until: DateTime)
    requires Representable(v) && Representable(since) && Representable(until)
    requires row.triggeredAt == IsoUtc(Some(v))
    ensures Matches(row, None, None, IsoUtc(Some(since)), IsoUtc(Some(until))) <==>
      Moment(since) <= Moment(v) <= Moment(until)
  {
    TextOrderIsTimeOrder(v, since);
    TextOrderIsTimeOrder(until, v);
  }

  // ------------------------------------------------------------------ filters

  /** A name selects the rows of that job and a status those in it; an empty one, or none, all. */
  lemma FiltersSelect(row: ExecutionRow, text: string)
    ensures Matches(row, Some(text), None, None, None) <==> text == "" || row.jobName == text
    ensures Matches(row, None, Some(text), None, None) <==> text == "" || row.status == text
    ensures Matches(row, None, None, None, None)
  {
  }

  /** Several criteria select what each of them selects. */
  lemma CriteriaCombine(row: ExecutionRow, name: Option<string>, status: Option<string>, since: Option<string>,
        until: Option<string>)
    ensures Matches(row, name, status, since, until) <==>
      && Matches(row, name, None, None, None) && Matches(row, None, status, None, None)
      && Matches(row, None, None, since, None) && Matches(row, None, None, None, until)
  {
  }

  /** A page leaves out the first `offset` rows and ends after `limit` more; a negative limit does not
      end it. */
  lemma PageSelects<T>(s: seq<T>, limit: int, offset: nat)
    ensures |Page(s, limit, offset)| ==
      if offset >= |s| then 0 else if limit < 0 || limit > |s| - offset then |s| - offset else limit
    ensures forall i :: 0 <= i < |Page(s, limit, offset)| ==> Page(s, limit, offset)[i] == s[offset + i]
    ensures forall negative: int :: negative < 0 ==> Page(s, limit, negative) == Page(s, limit, 0)
  {
  }

  /** Every column holds the field of its name. */
  lemma ColumnsHoldFields(r: ExecutionRecord)
    requires StampsFit(r)
    ensures ToRow(r).jobName == r.jobName && ToRow(r).status == r.status && ToRow(r).attempt == r.attempt
    ensures ToRow(r).triggeredAt == IsoUtc(r.triggeredAt) && ToRow(r).startedAt == IsoUtc(r.startedAt)
    ensures ToRow(r).finishedAt == IsoUtc(r.finishedAt) && ToRow(r).error == r.error
  {
  }
}
