/** How a segment of an execution ends: the execution is suspended again, or it is over, has pushed
    at most one entry and recorded at most one outcome, and gives its slot back. */
module Executions {
  import opened Options
  import opened Daemon
  import opened Machine

  ghost predicate Suspended(s: State, s': State, i: nat)
    requires i < |s.inflight|
  {
    && i < |s'.inflight|
    && s' == s.(inflight := s.inflight[i := s.inflight[i].(phase := s'.inflight[i].phase)])
  }

  ghost predicate Over(s: State, s': State, i: nat)
    requires i < |s.inflight|
  {
    s' == Finish(s, i).(queue := s'.queue, history := s'.history)
  }

  lemma SchedulingOnlyPushes(s: State, job: Job, after: int, attempt: int, generation: int)
    ensures ScheduleNext(s, job, after, attempt, generation)
      == s.(queue := ScheduleNext(s, job, after, attempt, generation).queue)
  {
  }

  lemma FollowUpOnlyPushes(s: State, spec: Job, generation: int, attempt: int, status: Status, now: int)
    ensures FollowUp(s, spec, generation, attempt, status, now)
      == s.(queue := FollowUp(s, spec, generation, attempt, status, now).queue)
  {
    SchedulingOnlyPushes(s, spec, now, 1, generation);
    SchedulingOnlyPushes(s, spec, now, 1, GetOr(s.generations, spec.id, 1));
    SchedulingOnlyPushes(s, spec, now, attempt + 1, GetOr(s.generations, spec.id, 1));
  }

  lemma BeginEnds(s: State, i: nat, now: int, later: int)
    requires i < |s.inflight|
    ensures Suspended(s, Begin(s, i, now, later), i) || Over(s, Begin(s, i, now, later), i)
  {
    var x := s.inflight[i];
    var job := Lookup(s.jobs, x.job);
    if job.Some? {
      SchedulingOnlyPushes(AddRecord(s, SkipRecord(x, job.value, now, later)), job.value, now, 1,
                           GetOr(s.generations, job.value.id, 1));
    }
  }

  lemma DeclinedIsOver(s: State, i: nat, status: Status, now: int)
    requires i < |s.inflight| && s.inflight[i].phase.Evaluating?
    ensures Over(s, Decide(s, i, Some(status), now), i)
  {
    var x := s.inflight[i];
    SchedulingOnlyPushes(AddRecord(s, OutcomeRecord(x, status, now)), x.phase.spec, now, 1, x.phase.generation);
  }

  lemma DecideEnds(s: State, i: nat, outcome: Option<Status>, now: int)
    requires i < |s.inflight| && s.inflight[i].phase.Evaluating?
    ensures Suspended(s, Decide(s, i, outcome, now), i) || Over(s, Decide(s, i, outcome, now), i)
  {
    if outcome.Some? {
      DeclinedIsOver(s, i, outcome.value, now);
    }
  }

  lemma CompleteEnds(s: State, i: nat, status: Status, now: int)
    requires i < |s.inflight| && s.inflight[i].phase.Calling?
    ensures Over(s, Complete(s, i, status, now), i)
  {
    var x := s.inflight[i];
    FollowUpOnlyPushes(AddRecord(s, OutcomeRecord(x, status, now)), x.phase.spec, x.phase.generation,
      x.attempt, status, now);
  }

  lemma ExecutionStepEnds(w: World, step: Step)
    requires Enabled(w, step) && ExecutionStep(step)
    ensures Suspended(w.s, StateAfter(w, step), step.i) || Over(w.s, StateAfter(w, step), step.i)
  {
    match step
    case BeginAt(i, now, later) => BeginEnds(w.s, i, now, later);
    case DecideAt(i, outcome, now) => DecideEnds(w.s, i, outcome, now);
    case CompleteAt(i, status, now) => CompleteEnds(w.s, i, status, now);
    case AbortAt(_) =>
    case _ =>
  }

  /** No task is in flight that was not before. */
  ghost predicate TasksFrom(s: State, s': State) {
    forall k :: 0 <= k < |s'.inflight| ==> s'.inflight[k].task in Awaited(s.inflight)
  }

  lemma SuspendedTasks(s: State, s': State, i: nat)
    requires i < |s.inflight| && Suspended(s, s', i)
    ensures TasksFrom(s, s') && |s'.inflight| == |s.inflight|
  {
    forall k | 0 <= k < |s'.inflight| ensures s'.inflight[k].task in Awaited(s.inflight) {
      assert s'.inflight[k].task == s.inflight[k].task;
    }
  }

  lemma OverTasks(s: State, s': State, i: nat)
    requires i < |s.inflight| && Over(s, s', i)
    ensures TasksFrom(s, s') && |s'.inflight| == |s.inflight| - 1
  {
    forall k | 0 <= k < |s'.inflight| ensures s'.inflight[k].task in Awaited(s.inflight) {
      assert s'.inflight[k] == s.inflight[if k < i then k else k + 1];
    }
  }
}
