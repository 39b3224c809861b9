/** A job with a one-off target: how often, when and with which attempts its function is called. */
module OneOff {
  import opened Counting
  import opened Options
  import opened QueueEntries
  import opened Schedules
  import opened Daemon
  import opened Machine
  import opened WellFormed
  import opened LiveChains
  import opened Executions
  import opened Attempts
  import opened Dispatching

  function CallMade(x: Execution, now: int): Call {
    Call(x.job, x.scheduledFor, x.attempt, now)
  }

  function CallsOf(calls: seq<Call>, id: JobId): seq<Call> {
    if calls == [] then []
    else
      var n := |calls| - 1;
      CallsOf(calls[..n], id) + if calls[n].job == id then [calls[n]] else []
  }

  ghost predicate IsOneOff(known: map<JobId, Job>, id: JobId, target: int) {
    id in known && known[id].trigger.target == OneOff(target)
  }

  /** Calls with the attempts 1, 2, 3, ... at or after the target, as many as the policy allows. */
  ghost predicate InTurn(job: Job, calls: seq<Call>, target: int) {
    && (forall k :: 0 <= k < |calls| ==> calls[k].attempt == k + 1 && calls[k].at >= target)
    && (|calls| > 0 ==> Allowed(job, |calls|))
  }

  /** The entry will run the next attempt, and not before the target. */
  ghost predicate NextUp(e: QueueEntry, now: int, target: int, made: nat) {
    e.attempt == made + 1 && (e.when >= target || now >= target)
  }

  ghost predicate EntriesNextUp(s: State, id: JobId, now: int, target: int, made: nat) {
    id in s.generations ==>
      forall e :: e in s.queue && e.job == id && e.generation == s.generations[id] ==> NextUp(e, now, target, made)
  }

  ghost predicate ExecutionsInTurn(s: State, id: JobId, made: nat) {
    forall i :: 0 <= i < |s.inflight| && s.inflight[i].job == id ==>
      s.inflight[i].attempt == if s.inflight[i].phase.Calling? then made else made + 1
  }

  ghost predicate OneChain(s: State, id: JobId) {
    && Count(s.inflight, IsOf(id)) <= 1
    && (id in s.generations ==> Chains(s, id) <= 1)
  }

  ghost predicate OneOffFits(s: State, job: Job, calls: seq<Call>, now: int, target: int) {
    && InTurn(job, calls, target)
    && (|calls| > 0 || Count(s.inflight, IsOf(job.id)) > 0 ==> now >= target)
    && OneChain(s, job.id)
    && ExecutionsInTurn(s, job.id, |calls|)
    && EntriesNextUp(s, job.id, now, target, |calls|)
  }

  ghost predicate OneOffInv(w: World, id: JobId, target: int)
    requires id in w.known
  {
    w.known[id].id == id && OneOffFits(w.s, w.known[id], CallsOf(w.calls, id), w.now, target)
  }

  // ------------------------------------------------------------------ sweeps

  /** What scheduling can add for the job: nothing once the target has come, else a first attempt
      at the target. */
  ghost predicate AddsOnlyTarget(s: State, s': State, id: JobId, target: int, now: int) {
    forall e :: e in s'.queue && e.job == id ==> e in s.queue || (now < target && e.when == target && e.attempt == 1)
  }

  /** A sweep at `now`: generations that stay keep their entries; a new one has an entry only
      before the target. */
  ghost predicate SweptOneOff(s: State, s': State, id: JobId, target: int, now: int) {
    && AddsOnlyTarget(s, s', id, target, now)
    && (id in s'.generations && Bumped(s, s', id) && now >= target ==> LiveEntries(s', id) == 0)
  }

  lemma RefreshJobOneOff(s: State, known: map<JobId, Job>, job: Job, now: int, id: JobId, target: int)
    requires Fits(s, known) && Lookup(s.jobs, job.id) == Some(job) && IsOneOff(known, id, target)
    ensures SweptOneOff(s, RefreshJob(s, job, now), id, target, now)
    ensures job.id != id ==> LiveEntries(RefreshJob(s, job, now), id) == LiveEntries(s, id)
  {
    LookupFinds(s.jobs, job.id);
    var b := Bump(s, job, now);
    var generation := GetOr(s.generations, job.id, 0) + 1;
    match ResolveAfter(job.trigger, now) {
      case None =>
      case Some(when) =>
        InsertHas(s.queue, QueueEntry(when, generation, job.id, 1));
        if id in s.generations {
          CountInsert(s.queue, QueueEntry(when, generation, job.id, 1), EntryOf(id, s.generations[id]));
        }
    }
    if job.id == id && now >= target {
      forall i | 0 <= i < |s.queue| ensures !EntryOf(id, generation)(s.queue[i]) {
        assert Within(s.jobs, s.generations, s.queue[i].job, s.queue[i].generation);
      }
      CountNone(s.queue, EntryOf(id, generation));
    }
  }

  /** What one sweep after another keeps: moreover an unbumped generation keeps its live entries,
      and none goes back. */
  ghost predicate SweptOn(s: State, s': State, id: JobId, target: int, now: int) {
    && SweptOneOff(s, s', id, target, now)
    && (id in s'.generations && !Bumped(s, s', id) ==> LiveEntries(s', id) == LiveEntries(s, id))
    && (id in s.generations ==> id in s'.generations && s.generations[id] <= s'.generations[id])
  }

  lemma SweptOnAndOn(s: State, s1: State, s': State, id: JobId, target: int, now: int)
    requires SweptOn(s, s1, id, target, now) && SweptOn(s1, s', id, target, now)
    ensures SweptOn(s, s', id, target, now)
  {
  }

  lemma {:induction false} RefreshEachOneOff(
      s: State, known: map<JobId, Job>, jobs: seq<Job>, now: int, sweep: Sweep, id: JobId, target: int)
    requires Fits(s, known) && forall i :: 0 <= i < |jobs| ==> Lookup(s.jobs, jobs[i].id) == Some(jobs[i])
    requires IsOneOff(known, id, target)
    ensures SweptOn(s, RefreshEach(s, jobs, now, sweep), id, target, now)
    decreases |jobs|
  {
    if jobs != [] {
      var s1 := if Due(s, jobs[0], now, sweep) then RefreshJob(s, jobs[0], now) else s;
      RefreshJobFits(s, known, jobs[0], now);
      RefreshJobOneOff(s, known, jobs[0], now, id, target);
      assert SweptOn(s, s1, id, target, now);
      RefreshEachOneOff(s1, known, jobs[1..], now, sweep, id, target);
      SweptOnAndOn(s, s1, RefreshEach(s, jobs, now, sweep), id, target, now);
    }
  }

  lemma SweepOneOff(s: State, known: map<JobId, Job>, now: int, sweep: Sweep, id: JobId, target: int)
    requires Fits(s, known) && IsOneOff(known, id, target)
    ensures SweptOneOff(s, RefreshEach(s, s.jobs, now, sweep), id, target, now)
  {
    forall i | 0 <= i < |s.jobs| ensures Lookup(s.jobs, s.jobs[i].id) == Some(s.jobs[i]) {
      LookupAt(s.jobs, i);
    }
    RefreshEachOneOff(s, known, s.jobs, now, sweep, id, target);
  }

  lemma PopulateMissingOneOff(s: State, known: map<JobId, Job>, now: int, id: JobId, target: int)
    requires Fits(s, known) && IsOneOff(known, id, target)
    ensures SweptOneOff(s, PopulateMissing(s, now), id, target, now)
  {
    var f := Forget(s);
    ForgetFits(s, known);
    SweepOneOff(f, known, now, Missing, id, target);
    if id in s.generations && id !in f.generations && id in PopulateMissing(s, now).generations {
      ForgottenStaysOut(f, f.jobs, now, id);
    }
  }

  /** When a sweeping step reads the clock for its sweep. */
  function SweepTime(step: Step): int {
    match step
    case SyncRegistry(now) => now
    case RefreshCall(_, now) => now
    case Run(now, _) => now
    case QueueTurn(_, t2, _) => t2
    case MidnightTurn(_, later) => later
    case MidnightWakes(now) => now
    case _ => 0
  }

  lemma SweepStepOneOff(w: World, step: Step, id: JobId, target: int)
    requires Fits(w.s, w.known) && Enabled(w, step) && SweepStep(step) && IsOneOff(w.known, id, target)
    ensures SweptOneOff(w.s, StateAfter(w, step), id, target, SweepTime(step))
  {
    var s, known := w.s, w.known;
    match step
    case SyncRegistry(now) => PopulateMissingOneOff(s, known, now, id, target);
    case RefreshCall(j, now) =>
      LookupFinds(s.jobs, j);
      if Lookup(s.jobs, j).Some? {
        RefreshJobOneOff(s, known, Lookup(s.jobs, j).value, now, id, target);
      }
    case Run(now, until) =>
      var s1 := s.(running := true, until := until);
      assert Fits(s1, known);
      SweepOneOff(s1, known, now, Missing, id, target);
    case QueueTurn(now, t2, t3) =>
      PopulateMissingOneOff(s, known, t2, id, target);
      PurgeAddsNothing(PopulateMissing(s, t2));
      PurgeKeepsLive(PopulateMissing(s, t2), id);
    case MidnightTurn(_, later) => SweepOneOff(s, known, later, RolledOver, id, target);
    case MidnightWakes(now) => SweepOneOff(s, known, now, RolledOver, id, target);
    case _ =>
  }

  lemma SweepKeepsOneOff(w: World, step: Step, id: JobId, target: int)
    requires Fits(w.s, w.known) && Enabled(w, step) && SweepStep(step) && IsOneOff(w.known, id, target)
    requires OneOffInv(w, id, target)
    ensures OneOffInv(Next(w, step), id, target)
  {
    var s, s' := w.s, StateAfter(w, step);
    SweepStepOneOff(w, step, id, target);
    SweepStepSettles(w, step, id);
    SettlesChains(s, s', id);
    var made := |CallsOf(w.calls, id)|;
    if id in s'.generations {
      forall e | e in s'.queue && e.job == id && e.generation == s'.generations[id]
        ensures NextUp(e, Next(w, step).now, target, made)
      {
        if e in s.queue {
          var k :| 0 <= k < |s.queue| && s.queue[k] == e;
          assert Within(s.jobs, s.generations, e.job, e.generation);
        }
      }
    }
  }

  // -------------------------------------------------------------- executions

  lemma OnlyOneOf(xs: seq<Execution>, id: JobId, i: nat, j: nat)
    requires Count(xs, IsOf(id)) <= 1 && i < |xs| && j < |xs| && xs[i].job == id && xs[j].job == id
    ensures i == j
  {
    var lo, hi := if i < j then i else j, if i < j then j else i;
    if lo < hi {
      CountSplit(xs, hi, IsOf(id));
      CountSome(xs[..hi], lo, IsOf(id));
    }
  }

  /** Removing an execution keeps the rest in turn; all it may leave is the next attempt. */
  lemma EndKeepsTurn(s: State, s': State, i: nat, id: JobId, now: int, now': int, target: int, made: nat)
    requires i < |s.inflight| && now <= now'
    requires s'.generations == s.generations && s'.inflight == s.inflight[..i] + s.inflight[i + 1..]
    requires ExecutionsInTurn(s, id, made) && EntriesNextUp(s, id, now, target, made)
    requires forall e :: e in s'.queue && e.job == id ==>
      e in s.queue || (s.inflight[i].job == id && e.attempt == made + 1)
    requires s.inflight[i].job == id ==> now >= target
    ensures ExecutionsInTurn(s', id, made) && EntriesNextUp(s', id, now', target, made)
    ensures Count(s'.inflight, IsOf(id)) <= Count(s.inflight, IsOf(id))
  {
    CountRemove(s.inflight, i, IsOf(id));
    forall k | 0 <= k < |s'.inflight| && s'.inflight[k].job == id
      ensures s'.inflight[k].attempt == if s'.inflight[k].phase.Calling? then made else made + 1
    {
      assert s'.inflight[k] == s.inflight[if k < i then k else k + 1];
    }
  }

  /** Once the target has come, scheduling the next occurrence adds nothing for the job. */
  lemma TooLateToSchedule(s: State, known: map<JobId, Job>, spec: Job, after: int, generation: int, id: JobId,
        target: int)
    requires IsOneOff(known, id, target) && (spec.id == id ==> spec == known[id] && after >= target)
    ensures forall e :: e in ScheduleNext(s, spec, after, 1, generation).queue && e.job == id ==> e in s.queue
  {
    match ResolveAfter(spec.trigger, after)
    case None =>
    case Some(when) => InsertHas(s.queue, QueueEntry(when, generation, spec.id, 1));
  }

  /** Entries of the job beyond those of s are the given attempt. */
  ghost predicate OnlyAttempt(s: State, s': State, id: JobId, attempt: int) {
    forall e :: e in s'.queue && e.job == id ==> e in s.queue || e.attempt == attempt
  }

  lemma ScheduleNextIsAttempt(s: State, spec: Job, after: int, attempt: int, generation: int, id: JobId)
    ensures OnlyAttempt(s, ScheduleNext(s, spec, after, attempt, generation), id, attempt)
    ensures spec.id != id ==>
      forall e :: e in ScheduleNext(s, spec, after, attempt, generation).queue && e.job == id ==> e in s.queue
  {
    match ResolveAfter(spec.trigger, after)
    case None =>
    case Some(when) => InsertHas(s.queue, QueueEntry(when, generation, spec.id, attempt));
  }

  lemma FollowUpOfOther(s: State, spec: Job, generation: int, attempt: int, status: Status, now: int, id: JobId)
    requires spec.id != id
    ensures forall e :: e in FollowUp(s, spec, generation, attempt, status, now).queue && e.job == id ==> e in s.queue
  {
    var current := GetOr(s.generations, spec.id, 1);
    ScheduleNextIsAttempt(s, spec, now, 1, generation, id);
    ScheduleNextIsAttempt(s, spec, now, 1, current, id);
    ScheduleNextIsAttempt(s, spec, now, attempt + 1, current, id);
    if spec.trigger.failPolicy.Some? && spec.trigger.failPolicy.value.retryInterval.Some? {
      InsertHas(s.queue, QueueEntry(now + spec.trigger.failPolicy.value.retryInterval.value, current, spec.id,
        attempt + 1));
    }
  }

  lemma RetryIsNext(s: State, known: map<JobId, Job>, spec: Job, attempt: int, now: int, target: int)
    requires IsOneOff(known, spec.id, target) && spec == known[spec.id] && now >= target
    requires spec.trigger.failPolicy.Some?
    ensures OnlyAttempt(s, ScheduleRetry(s, spec, now, attempt), spec.id, attempt + 1)
  {
    var current := GetOr(s.generations, spec.id, 1);
    TooLateToSchedule(s, known, spec, now, current, spec.id, target);
    ScheduleNextIsAttempt(s, spec, now, attempt + 1, current, spec.id);
    if spec.trigger.failPolicy.value.retryInterval.Some? {
      InsertHas(s.queue, QueueEntry(now + spec.trigger.failPolicy.value.retryInterval.value, current, spec.id,
        attempt + 1));
    }
  }

  lemma FollowUpIsNext(s: State, known: map<JobId, Job>, spec: Job, generation: int, attempt: int,
        status: Status, now: int, id: JobId, target: int)
    requires IsOneOff(known, id, target) && (spec.id == id ==> spec == known[id] && now >= target)
    ensures forall e :: e in FollowUp(s, spec, generation, attempt, status, now).queue && e.job == id ==>
      e in s.queue || (spec.id == id && e.attempt == attempt + 1)
  {
    if spec.id != id {
      FollowUpOfOther(s, spec, generation, attempt, status, now, id);
    } else if status != Success && spec.trigger.failPolicy.Some? {
      RetryIsNext(s, known, spec, attempt, now, target);
    } else {
      TooLateToSchedule(s, known, spec, now, generation, id, target);
    }
  }

  /** Beginning an execution keeps the turns, whether it goes on or is over at once. */
  lemma BeginKeepsTurn(s: State, known: map<JobId, Job>, i: nat, t: int, now: int, later: int, id: JobId,
        target: int, made: nat)
    requires Fits(s, known) && i < |s.inflight| && s.inflight[i].phase.Dispatched? && t <= now <= later
    requires IsOneOff(known, id, target)
    requires ExecutionsInTurn(s, id, made) && EntriesNextUp(s, id, t, target, made)
    requires s.inflight[i].job == id ==> t >= target
    ensures ExecutionsInTurn(Begin(s, i, now, later), id, made)
    ensures EntriesNextUp(Begin(s, i, now, later), id, later, target, made)
    ensures Count(Begin(s, i, now, later).inflight, IsOf(id)) <= Count(s.inflight, IsOf(id))
  {
    var x, s' := s.inflight[i], Begin(s, i, now, later);
    LookupFinds(s.jobs, x.job);
    var job := Lookup(s.jobs, x.job);
    BeginLeaves(s, known, i, now, later, id);
    if job.Some? && !TooLate(s.cfg, job.value, x.scheduledFor, now) {
      CountUpdate(s.inflight, i, s'.inflight[i], IsOf(id));
      assert forall k :: 0 <= k < |s.inflight| && k != i ==> s'.inflight[k] == s.inflight[k];
    } else {
      if job.Some? {
        var s1 := AddRecord(s, SkipRecord(x, job.value, now, later));
        TooLateToSchedule(s1, known, job.value, now, GetOr(s.generations, job.value.id, 1), id, target);
      }
      EndKeepsTurn(s, s', i, id, t, later, target, made);
    }
  }

  lemma BeginOneOff(s: State, known: map<JobId, Job>, calls: seq<Call>, i: nat, t: int, now: int, later: int,
        id: JobId, target: int)
    requires Fits(s, known) && i < |s.inflight| && s.inflight[i].phase.Dispatched? && t <= now <= later
    requires IsOneOff(known, id, target) && known[id].id == id && OneOffFits(s, known[id], calls, t, target)
    ensures OneOffFits(Begin(s, i, now, later), known[id], calls, later, target)
  {
    if s.inflight[i].job == id {
      CountSome(s.inflight, i, IsOf(id));
    }
    BeginChains(s, known, i, now, later, id);
    BeginKeepsTurn(s, known, i, t, now, later, id, target, |calls|);
  }

  lemma CallsGrow(calls: seq<Call>, c: Call, id: JobId)
    ensures CallsOf(calls + [c], id) == CallsOf(calls, id) + if c.job == id then [c] else []
  {
    assert (calls + [c])[..|calls|] == calls;
  }

  /** With the only execution of the job calling, no live entry is left. */
  lemma CallTakesTurn(s: State, i: nat, phase: Phase, id: JobId, made: nat)
    requires i < |s.inflight| && s.inflight[i].phase.Evaluating? && phase.Calling?
    requires OneChain(s, id) && ExecutionsInTurn(s, id, made) && s.inflight[i].job == id
    ensures ExecutionsInTurn(Enter(s, i, phase), id, made + 1)
    ensures id in s.generations ==>
      forall e :: e in s.queue && e.job == id ==> e.generation != s.generations[id]
  {
    var s' := Enter(s, i, phase);
    CountSome(s.inflight, i, IsOf(id));
    forall k | 0 <= k < |s'.inflight| && s'.inflight[k].job == id ensures k == i {
      OnlyOneOf(s.inflight, id, k, i);
    }
    if id in s.generations {
      forall k | 0 <= k < |s.queue| && EntryOf(id, s.generations[id])(s.queue[k]) ensures false {
        CountSome(s.queue, k, EntryOf(id, s.generations[id]));
      }
    }
  }

  lemma CallOfOther(s: State, i: nat, phase: Phase, id: JobId, made: nat)
    requires i < |s.inflight| && ExecutionsInTurn(s, id, made) && s.inflight[i].job != id
    ensures ExecutionsInTurn(Enter(s, i, phase), id, made)
  {
    assert forall k :: 0 <= k < |s.inflight| && k != i ==> Enter(s, i, phase).inflight[k] == s.inflight[k];
  }

  /** The conditions passed: the function is called with the next attempt. */
  lemma CallOneOff(s: State, known: map<JobId, Job>, calls: seq<Call>, i: nat, t: int, now: int, id: JobId, target: int)
    requires Fits(s, known) && i < |s.inflight| && s.inflight[i].phase.Evaluating? && t <= now
    requires IsOneOff(known, id, target) && known[id].id == id && OneOffFits(s, known[id], calls, t, target)
    requires s.inflight[i].job == id ==> Allowed(known[id], s.inflight[i].attempt)
    ensures OneOffFits(Decide(s, i, None, now), known[id],
                       calls + if s.inflight[i].job == id then [CallMade(s.inflight[i], now)] else [], now, target)
  {
    var x, phase := s.inflight[i], Decide(s, i, None, now).inflight[i].phase;
    CountUpdate(s.inflight, i, x.(phase := phase), IsOf(id));
    DecideChains(s, known, i, None, now, id);
    if x.job == id {
      CountSome(s.inflight, i, IsOf(id));
      CallTakesTurn(s, i, phase, id, |calls|);
    } else {
      CallOfOther(s, i, phase, id, |calls|);
      assert calls + [] == calls;
    }
  }

  /** Past the target a declined execution leaves no entry of the job behind. */
  lemma DeclineAddsNothing(s: State, known: map<JobId, Job>, i: nat, status: Status, now: int, id: JobId, target: int)
    requires Fits(s, known) && i < |s.inflight| && s.inflight[i].phase.Evaluating?
    requires IsOneOff(known, id, target) && (s.inflight[i].job == id ==> now >= target)
    ensures forall e :: e in Decide(s, i, Some(status), now).queue && e.job == id ==> e in s.queue
  {
    var x := s.inflight[i];
    assert ExecutionFits(s.jobs, s.generations, known, x);
    TooLateToSchedule(AddRecord(s, OutcomeRecord(x, status, now)), known, x.phase.spec, now,
      x.phase.generation, id, target);
  }

  lemma DeclineOneOff(s: State, known: map<JobId, Job>, calls: seq<Call>, i: nat, status: Status, t: int,
        now: int, id: JobId, target: int)
    requires Fits(s, known) && i < |s.inflight| && s.inflight[i].phase.Evaluating? && t <= now
    requires IsOneOff(known, id, target) && known[id].id == id && OneOffFits(s, known[id], calls, t, target)
    ensures OneOffFits(Decide(s, i, Some(status), now), known[id], calls, now, target)
  {
    if s.inflight[i].job == id {
      CountSome(s.inflight, i, IsOf(id));
    }
    DeclineAddsNothing(s, known, i, status, now, id, target);
    DeclineChains(s, known, i, status, now, id);
    DeclinedIsOver(s, i, status, now);
    EndKeepsTurn(s, Decide(s, i, Some(status), now), i, id, t, now, target, |calls|);
  }

  lemma CompleteOneOff(s: State, known: map<JobId, Job>, calls: seq<Call>, i: nat, status: Status, t: int,
        now: int, id: JobId, target: int)
    requires Fits(s, known) && i < |s.inflight| && s.inflight[i].phase.Calling? && t <= now
    requires IsOneOff(known, id, target) && known[id].id == id && OneOffFits(s, known[id], calls, t, target)
    ensures OneOffFits(Complete(s, i, status, now), known[id], calls, now, target)
  {
    var x := s.inflight[i];
    assert ExecutionFits(s.jobs, s.generations, known, x);
    if x.job == id {
      CountSome(s.inflight, i, IsOf(id));
    }
    FollowUpIsNext(AddRecord(s, OutcomeRecord(x, status, now)), known, x.phase.spec, x.phase.generation,
                   x.attempt, status, now, id, target);
    CompleteChains(s, known, i, status, now, id);
    CompleteEnds(s, i, status, now);
    EndKeepsTurn(s, Complete(s, i, status, now), i, id, t, now, target, |calls|);
  }

  lemma AbortOneOff(s: State, job: Job, calls: seq<Call>, i: nat, t: int, target: int)
    requires i < |s.inflight| && OneOffFits(s, job, calls, t, target)
    ensures OneOffFits(Finish(s, i), job, calls, t, target)
  {
    if s.inflight[i].job == job.id {
      CountSome(s.inflight, i, IsOf(job.id));
    }
    EndKeepsTurn(s, Finish(s, i), i, job.id, t, t, target, |calls|);
  }

  /** Dispatching the next attempt keeps the turns. */
  lemma GrantKeepsTurn(s: State, t: int, now: int, id: JobId, target: int, made: nat)
    requires t <= now && OneChain(s, id)
    requires ExecutionsInTurn(s, id, made) && EntriesNextUp(s, id, t, target, made)
    ensures ExecutionsInTurn(QueueSlot(s, now), id, made) && EntriesNextUp(QueueSlot(s, now), id, now, target, made)
    ensures id !in s.generations ==> Count(QueueSlot(s, now).inflight, IsOf(id)) == Count(s.inflight, IsOf(id))
    ensures Count(QueueSlot(s, now).inflight, IsOf(id)) > Count(s.inflight, IsOf(id)) ==> now >= target
  {
    var s' := QueueSlot(s, now);
    var k := GrantShape(s, now);
    var dispatched := DispatchOf(s, QueueGrant(now));
    assert forall e :: e in s'.queue ==> e in s.queue;
    if dispatched.Some? {
      var e := dispatched.value;
      CountConcat(s.inflight, [Started(s.nextTask, e)], IsOf(id));
      assert Count([Started(s.nextTask, e)], IsOf(id)) <= 1;
      if e.job == id {
        assert NextUp(e, t, target, made);
      }
    }
  }

  lemma GrantOneOff(s: State, job: Job, calls: seq<Call>, t: int, now: int, target: int)
    requires OneOffFits(s, job, calls, t, target) && t <= now
    ensures OneOffFits(QueueSlot(s, now), job, calls, now, target)
  {
    QueueSlotChains(s, now, job.id);
    GrantKeepsTurn(s, t, now, job.id, target, |calls|);
  }

  lemma PeekOneOff(s: State, job: Job, calls: seq<Call>, t: int, target: int)
    requires OneOffFits(s, job, calls, t, target)
    ensures OneOffFits(Purge(s), job, calls, t, target)
  {
    PurgeAddsNothing(s);
    PurgeKeepsLive(s, job.id);
  }

  lemma ExecutionKeepsOneOff(w: World, step: Step, id: JobId, target: int)
    requires Fits(w.s, w.known) && Enabled(w, step) && ExecutionStep(step) && AttemptsEarned(w)
    requires IsOneOff(w.known, id, target) && OneOffInv(w, id, target)
    ensures OneOffInv(Next(w, step), id, target)
  {
    var s, known, calls := w.s, w.known, CallsOf(w.calls, id);
    match step
    case BeginAt(i, now, later) => BeginOneOff(s, known, calls, i, w.now, now, later, id, target);
    case DecideAt(i, None, now) =>
      assert ExecutionFits(s.jobs, s.generations, known, s.inflight[i]);
      assert Earned(known, w.log, s.inflight[i].job, s.inflight[i].attempt);
      CallsGrow(w.calls, CallMade(s.inflight[i], now), id);
      CallOneOff(s, known, calls, i, w.now, now, id, target);
    case DecideAt(i, Some(status), now) => DeclineOneOff(s, known, calls, i, status, w.now, now, id, target);
    case CompleteAt(i, status, now) => CompleteOneOff(s, known, calls, i, status, w.now, now, id, target);
    case AbortAt(i) => AbortOneOff(s, known[id], calls, i, w.now, target);
    case _ =>
  }

  lemma QuietKeepsOneOff(w: World, step: Step, id: JobId, target: int)
    requires Enabled(w, step) && QuietStep(step) && IsOneOff(w.known, id, target) && OneOffInv(w, id, target)
    ensures OneOffInv(Next(w, step), id, target) && IsOneOff(Next(w, step).known, id, target)
  {
    var s, s' := w.s, StateAfter(w, step);
    assert s'.queue == s.queue && s'.inflight == s.inflight && s'.generations == s.generations;
    assert w.now <= ClockAfter(w, step);
  }

  lemma StepKeepsOneOff(w: World, step: Step, id: JobId, target: int)
    requires Fits(w.s, w.known) && Enabled(w, step) && AttemptsEarned(w)
    requires IsOneOff(w.known, id, target) && OneOffInv(w, id, target)
    ensures IsOneOff(Next(w, step).known, id, target) && OneOffInv(Next(w, step), id, target)
  {
    if SweepStep(step) {
      SweepKeepsOneOff(w, step, id, target);
    } else if ExecutionStep(step) {
      ExecutionKeepsOneOff(w, step, id, target);
    } else if QuietStep(step) {
      QuietKeepsOneOff(w, step, id, target);
    } else if step.QueueGrant? {
      GrantOneOff(w.s, w.known[id], CallsOf(w.calls, id), w.now, step.now, target);
    } else {
      PeekOneOff(w.s, w.known[id], CallsOf(w.calls, id), w.now, target);
    }
  }

  // -------------------------------------------------------------- every run

  /** Calls are made for known jobs only. */
  ghost predicate CallsKnown(w: World) {
    forall k :: 0 <= k < |w.calls| ==> w.calls[k].job in w.known
  }

  ghost predicate AllOneOffs(w: World) {
    && CallsKnown(w)
    && forall id, target :: IsOneOff(w.known, id, target) ==> OneOffInv(w, id, target)
  }

  lemma {:induction false} NoCallsOf(calls: seq<Call>, id: JobId)
    requires forall k :: 0 <= k < |calls| ==> calls[k].job != id
    ensures CallsOf(calls, id) == []
  {
    if calls != [] {
      NoCallsOf(calls[..|calls| - 1], id);
    }
  }

  /** A new job starts without entries, executions and calls. */
  lemma RegisteredOneOff(w: World, job: Job, target: int)
    requires Fits(w.s, w.known) && Enabled(w, Register(job)) && CallsKnown(w) && job.trigger.target == OneOff(target)
    ensures OneOffInv(Next(w, Register(job)), job.id, target)
  {
    var id := job.id;
    NoCallsOf(w.calls, id);
    forall i | 0 <= i < |w.s.inflight| ensures w.s.inflight[i].job != id {
      assert ExecutionFits(w.s.jobs, w.s.generations, w.known, w.s.inflight[i]);
    }
    CountNone(w.s.inflight, IsOf(id));
    assert id !in w.s.generations;
  }

  lemma StepKeepsCallsKnown(w: World, step: Step)
    requires Fits(w.s, w.known) && Enabled(w, step) && CallsKnown(w)
    ensures CallsKnown(Next(w, step))
  {
    if step.DecideAt? {
      assert ExecutionFits(w.s.jobs, w.s.generations, w.known, w.s.inflight[step.i]);
    }
  }

  lemma StepKeepsAllOneOffs(w: World, step: Step)
    requires Fits(w.s, w.known) && Enabled(w, step) && AttemptsEarned(w) && AllOneOffs(w)
    ensures AllOneOffs(Next(w, step))
  {
    StepKeepsCallsKnown(w, step);
    var w' := Next(w, step);
    forall id, target | IsOneOff(w'.known, id, target) ensures OneOffInv(w', id, target) {
      if id in w.known {
        StepKeepsOneOff(w, step, id, target);
      } else {
        RegisteredOneOff(w, step.job, target);
      }
    }
  }

  /** In every run, however often the job is refreshed: the function of a one-off job is called at
      most once, or at most max(1, m) times under a policy with maximum m; never before its target;
      with the attempts 1, 2, 3, ... */
  lemma {:induction false} OneOffsAreInTurn(w: World, steps: seq<Step>)
    requires Fits(w.s, w.known) && AttemptsEarned(w) && AllOneOffs(w) && Runs(w, steps)
    ensures AllOneOffs(After(w, steps))
    decreases |steps|
  {
    if steps != [] {
      StepFits(w, steps[0]);
      StepKeepsEarned(w, steps[0]);
      StepKeepsAllOneOffs(w, steps[0]);
      OneOffsAreInTurn(Next(w, steps[0]), steps[1..]);
    }
  }
}
