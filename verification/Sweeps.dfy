/** Exactly what a sweep over the registry does, and what follows for registry syncing and for the
    midnight loop. */
module Sweeps {
  import opened Options
  import opened TimeZones
  import opened Schedules
  import opened Daemon
  import opened Machine
  import opened WellFormed

  ghost function DueIds(s: State, jobs: seq<Job>, now: int, sweep: Sweep): set<JobId> {
    set i | 0 <= i < |jobs| && Due(s, jobs[i], now, sweep) :: jobs[i].id
  }

  /** Only the queue and the three tables differ. */
  ghost predicate OnlyTables(s: State, s': State) {
    s' == s.(queue := s'.queue, generations := s'.generations, active := s'.active, lastRefresh := s'.lastRefresh)
  }

  /** The ids outside `due` keep their generation and their refresh date. */
  ghost predicate Keeps(s: State, s': State, due: set<JobId>) {
    forall id :: id !in due ==>
      Get(s'.generations, id) == Get(s.generations, id) && Get(s'.lastRefresh, id) == Get(s.lastRefresh, id)
  }

  /** The job moved on by one generation and is marked with its local date. */
  ghost predicate MovedOn(s: State, s': State, job: Job, now: int) {
    && Get(s'.generations, job.id) == Some(GetOr(s.generations, job.id, 0) + 1)
    && Get(s'.lastRefresh, job.id) == Some(LocalDate(job, now))
  }

  /** The due jobs move on; no other id changes. */
  ghost predicate Swept(s: State, s': State, jobs: seq<Job>, now: int, sweep: Sweep) {
    var due := DueIds(s, jobs, now, sweep);
    && OnlyTables(s, s')
    && s'.active == s.active + due
    && Keeps(s, s', due)
    && forall i :: 0 <= i < |jobs| && Due(s, jobs[i], now, sweep) ==> MovedOn(s, s', jobs[i], now)
  }

  /** One job of a sweep has had its turn. */
  ghost predicate TookTurn(s: State, s1: State, job: Job, now: int, due: bool) {
    && OnlyTables(s, s1)
    && (if due then
          && s1.active == s.active + {job.id}
          && s1.generations == s.generations[job.id := GetOr(s.generations, job.id, 0) + 1]
          && s1.lastRefresh == s.lastRefresh[job.id := LocalDate(job, now)]
        else s1 == s)
  }

  lemma RefreshTakesTurn(s: State, job: Job, now: int)
    ensures TookTurn(s, RefreshJob(s, job, now), job, now, true)
  {
  }

  /** Refreshing one job does not decide about the others. */
  lemma OthersStillDue(s: State, s1: State, jobs: seq<Job>, now: int, sweep: Sweep)
    requires UniqueIds(jobs) && jobs != []
    requires TookTurn(s, s1, jobs[0], now, Due(s, jobs[0], now, sweep))
    ensures forall i :: 0 < i < |jobs| ==> Due(s1, jobs[i], now, sweep) == Due(s, jobs[i], now, sweep)
    ensures jobs[0].id !in DueIds(s1, jobs[1..], now, sweep)
    ensures DueIds(s, jobs, now, sweep)
      == DueIds(s1, jobs[1..], now, sweep) + if Due(s, jobs[0], now, sweep) then {jobs[0].id} else {}
  {
    var rest := jobs[1..];
    forall i | 0 < i < |jobs| ensures Due(s1, jobs[i], now, sweep) == Due(s, jobs[i], now, sweep) {
      assert jobs[0].id != jobs[i].id;
    }
    forall id | id in DueIds(s, jobs, now, sweep)
      ensures id in DueIds(s1, rest, now, sweep) || (Due(s, jobs[0], now, sweep) && id == jobs[0].id)
    {
      var i :| 0 <= i < |jobs| && Due(s, jobs[i], now, sweep) && jobs[i].id == id;
      if i > 0 {
        assert rest[i - 1] == jobs[i];
      }
    }
    forall id | id in DueIds(s1, rest, now, sweep) ensures id in DueIds(s, jobs, now, sweep) {
      var i :| 0 <= i < |rest| && Due(s1, rest[i], now, sweep) && rest[i].id == id;
      assert jobs[i + 1] == rest[i];
    }
  }

  lemma KeepsBoth(s: State, s1: State, s': State, a: set<JobId>, b: set<JobId>)
    requires Keeps(s, s1, a) && Keeps(s1, s', b)
    ensures Keeps(s, s', a + b)
  {
  }

  /** A job moved on from where it was before another one had its turn. */
  lemma StillMovedOn(s: State, s1: State, s': State, first: Job, job: Job, now: int, due: bool)
    requires TookTurn(s, s1, first, now, due) && first.id != job.id && MovedOn(s1, s', job, now)
    ensures MovedOn(s, s', job, now)
  {
  }

  /** A turn of the first job followed by a sweep over the rest is a sweep over the whole list. */
  lemma SweptFromRest(s: State, s1: State, s': State, jobs: seq<Job>, now: int, sweep: Sweep)
    requires UniqueIds(jobs) && jobs != []
    requires TookTurn(s, s1, jobs[0], now, Due(s, jobs[0], now, sweep))
    requires Swept(s1, s', jobs[1..], now, sweep)
    ensures Swept(s, s', jobs, now, sweep)
  {
    var first := if Due(s, jobs[0], now, sweep) then {jobs[0].id} else {};
    var rest := DueIds(s1, jobs[1..], now, sweep);
    OthersStillDue(s, s1, jobs, now, sweep);
    KeepsBoth(s, s1, s', first, rest);
    assert s'.active == s.active + (rest + first);
    forall i | 0 <= i < |jobs| && Due(s, jobs[i], now, sweep) ensures MovedOn(s, s', jobs[i], now) {
      if i > 0 {
        assert jobs[1..][i - 1] == jobs[i] && MovedOn(s1, s', jobs[1..][i - 1], now);
        StillMovedOn(s, s1, s', jobs[0], jobs[i], now, Due(s, jobs[0], now, sweep));
      }
    }
  }

  lemma {:induction false} RefreshEachSwept(s: State, jobs: seq<Job>, now: int, sweep: Sweep)
    requires UniqueIds(jobs)
    ensures Swept(s, RefreshEach(s, jobs, now, sweep), jobs, now, sweep)
    decreases |jobs|
  {
    if jobs != [] {
      var s1 := if Due(s, jobs[0], now, sweep) then RefreshJob(s, jobs[0], now) else s;
      RefreshTakesTurn(s, jobs[0], now);
      RefreshEachSwept(s1, jobs[1..], now, sweep);
      SweptFromRest(s, s1, RefreshEach(s, jobs, now, sweep), jobs, now, sweep);
    }
  }

  /** After a sweep no job of the list is due, and a job was bumped exactly when it was. */
  lemma SweepLeavesNoneDue(s: State, jobs: seq<Job>, now: int, sweep: Sweep, i: nat)
    requires UniqueIds(jobs) && i < |jobs|
    ensures !Due(RefreshEach(s, jobs, now, sweep), jobs[i], now, sweep)
    ensures Bumped(s, RefreshEach(s, jobs, now, sweep), jobs[i].id) <==> Due(s, jobs[i], now, sweep)
  {
    RefreshEachSwept(s, jobs, now, sweep);
    var due := DueIds(s, jobs, now, sweep);
    forall k | 0 <= k < |jobs| && jobs[k].id == jobs[i].id ensures k == i {
    }
  }

  lemma {:induction false} NothingDue(s: State, jobs: seq<Job>, now: int, sweep: Sweep)
    requires forall i :: 0 <= i < |jobs| ==> !Due(s, jobs[i], now, sweep)
    ensures RefreshEach(s, jobs, now, sweep) == s
    decreases |jobs|
  {
    if jobs != [] {
      NothingDue(s, jobs[1..], now, sweep);
    }
  }

  // --------------------------------------------------------- registry syncing

  /** After syncing the active jobs are exactly the registered ones. */
  lemma SyncActivatesRegistry(s: State, known: map<JobId, Job>, now: int)
    requires Fits(s, known)
    ensures var s' := PopulateMissing(s, now);
      s'.active == s'.generations.Keys == s'.lastRefresh.Keys == Ids(s.jobs)
  {
    var f := Forget(s);
    RefreshEachSwept(f, s.jobs, now, Missing);
    PopulateMissingFits(s, known, now);
    var s' := PopulateMissing(s, now);
    forall id ensures id in s'.active <==> id in Ids(s.jobs) {
      if id in Ids(s.jobs) && id !in f.active {
        var i :| 0 <= i < |s.jobs| && s.jobs[i].id == id;
        assert Due(f, s.jobs[i], now, Missing);
      }
    }
  }

  lemma NothingToForget(s: State)
    requires s.active <= Ids(s.jobs)
    ensures Forget(s) == s
  {
    assert s.active - Ids(s.jobs) == {};
    assert s.active - {} == s.active && s.generations - {} == s.generations && s.lastRefresh - {} == s.lastRefresh;
  }

  /** Syncing again, at any later time, changes nothing. */
  lemma SyncTwiceIsOnce(s: State, known: map<JobId, Job>, now: int, later: int)
    requires Fits(s, known)
    ensures PopulateMissing(PopulateMissing(s, now), later) == PopulateMissing(s, now)
  {
    var s' := PopulateMissing(s, now);
    SyncActivatesRegistry(s, known, now);
    assert s'.jobs == s.jobs by {
      RefreshEachSwept(Forget(s), s.jobs, now, Missing);
    }
    NothingToForget(s');
    forall i | 0 <= i < |s'.jobs| ensures !Due(s', s'.jobs[i], later, Missing) {
      assert s'.jobs[i].id in Ids(s'.jobs);
    }
    NothingDue(s', s'.jobs, later, Missing);
  }

  // -------------------------------------------------------------- midnights

  ghost predicate RegularZones(jobs: seq<Job>) {
    forall i :: 0 <= i < |jobs| ==> Regular(ZoneOf(jobs[i].trigger))
  }

  /** A job that is not due stays so until its next local midnight, and is due then. */
  lemma DueAtMidnight(s: State, job: Job, now: int)
    requires Regular(ZoneOf(job.trigger)) && !Due(s, job, now, RolledOver)
    ensures now < NextMidnight(job, now) && Due(s, job, NextMidnight(job, now), RolledOver)
    ensures forall u :: now <= u < NextMidnight(job, now) ==> !Due(s, job, u, RolledOver)
  {
    var z := ZoneOf(job.trigger);
    var midnight := NextMidnight(job, now);
    DateIsWindow(z, midnight, z.dateOf(now));
    forall u | now <= u < midnight ensures !Due(s, job, u, RolledOver) {
      DateIsWindow(z, u, z.dateOf(now));
    }
  }

  /** t is the first moment from now on at which some job is due. */
  ghost predicate FirstDue(s: State, jobs: seq<Job>, now: int, t: int) {
    now <= t && SomeDue(s, jobs, t) && forall u :: now <= u < t ==> !SomeDue(s, jobs, u)
  }

  /** What `_next_refresh_time` promises the midnight loop. */
  ghost predicate Plans(s: State, jobs: seq<Job>, now: int, r: Option<int>) {
    match r
    case None => jobs == []
    case Some(t) => FirstDue(s, jobs, now, t)
  }

  lemma LastJobDue(s: State, jobs: seq<Job>, u: int)
    requires jobs != []
    ensures SomeDue(s, jobs, u) <==> Due(s, jobs[|jobs| - 1], u, RolledOver) || SomeDue(s, jobs[..|jobs| - 1], u)
  {
    var init := jobs[..|jobs| - 1];
    if SomeDue(s, init, u) {
      var i :| 0 <= i < |init| && Due(s, init[i], u, RolledOver);
      assert Due(s, jobs[i], u, RolledOver);
    }
    if SomeDue(s, jobs, u) && !Due(s, jobs[|jobs| - 1], u, RolledOver) {
      var i :| 0 <= i < |jobs| && Due(s, jobs[i], u, RolledOver);
      assert Due(s, init[i], u, RolledOver);
    }
  }

  /** One more job that is not due: the first due moment is the earlier of the two. */
  lemma PlanOneMore(s: State, jobs: seq<Job>, now: int, before: Option<int>)
    requires jobs != [] && Regular(ZoneOf(jobs[|jobs| - 1].trigger)) && !Due(s, jobs[|jobs| - 1], now, RolledOver)
    requires Plans(s, jobs[..|jobs| - 1], now, before)
    ensures var midnight := NextMidnight(jobs[|jobs| - 1], now);
      FirstDue(s, jobs, now, if before.None? || midnight < before.value then midnight else before.value)
  {
    var midnight := NextMidnight(jobs[|jobs| - 1], now);
    var first := if before.None? || midnight < before.value then midnight else before.value;
    DueAtMidnight(s, jobs[|jobs| - 1], now);
    LastJobDue(s, jobs, first);
    forall u | now <= u < first ensures !SomeDue(s, jobs, u) {
      LastJobDue(s, jobs, u);
    }
  }

  lemma {:induction false} EarliestMidnightPlans(s: State, jobs: seq<Job>, now: int)
    requires RegularZones(jobs) && !SomeDue(s, jobs, now)
    ensures Plans(s, jobs, now, EarliestMidnight(jobs, now))
    ensures EarliestMidnight(jobs, now) != Some(now)
  {
    if jobs != [] {
      LastJobDue(s, jobs, now);
      EarliestMidnightPlans(s, jobs[..|jobs| - 1], now);
      DueAtMidnight(s, jobs[|jobs| - 1], now);
      PlanOneMore(s, jobs, now, EarliestMidnight(jobs[..|jobs| - 1], now));
    }
  }

  /** The planned moment is the first one, from now on, at which some job is due: it is now exactly
      when `_refresh_due_jobs` would refresh a job now, and there is none only without jobs. */
  lemma MidnightIsPlanned(s: State, jobs: seq<Job>, now: int)
    requires RegularZones(jobs)
    ensures Plans(s, jobs, now, NextRefreshTime(s, jobs, now))
    ensures NextRefreshTime(s, jobs, now) == Some(now) <==> SomeDue(s, jobs, now)
    ensures NextRefreshTime(s, jobs, now) == None <==> jobs == []
  {
    if !SomeDue(s, jobs, now) {
      EarliestMidnightPlans(s, jobs, now);
    }
  }

  /** `_refresh_due_jobs(now)` refreshes exactly the jobs due at now and leaves none due, so the
      next plan lies in the future. */
  lemma MidnightRefreshSettles(s: State, known: map<JobId, Job>, now: int)
    requires Fits(s, known) && RegularZones(s.jobs)
    ensures var s' := RefreshDueJobs(s, now);
      && !SomeDue(s', s'.jobs, now)
      && (forall i :: 0 <= i < |s.jobs| ==> (Bumped(s, s', s.jobs[i].id) <==> Due(s, s.jobs[i], now, RolledOver)))
      && (s'.jobs == [] || (NextRefreshTime(s', s'.jobs, now).Some? && NextRefreshTime(s', s'.jobs, now).value > now))
  {
    var s' := RefreshDueJobs(s, now);
    RefreshEachSwept(s, s.jobs, now, RolledOver);
    forall i | 0 <= i < |s.jobs|
      ensures !Due(s', s.jobs[i], now, RolledOver)
      ensures Bumped(s, s', s.jobs[i].id) <==> Due(s, s.jobs[i], now, RolledOver)
    {
      SweepLeavesNoneDue(s, s.jobs, now, RolledOver, i);
    }
    MidnightIsPlanned(s', s'.jobs, now);
  }
}
