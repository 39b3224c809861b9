/** Runs of a new daemon with one job, from its registration to its first call, step by step. */
module FirstRuns {
  import opened Options
  import opened QueueEntries
  import opened Schedules
  import opened Daemon
  import opened Machine
  import opened WellFormed

  lemma {:induction false} RunsOn(w: World, steps: seq<Step>, more: seq<Step>)
    requires Runs(w, steps) && Runs(After(w, steps), more)
    ensures Runs(w, steps + more) && After(w, steps + more) == After(After(w, steps), more)
    decreases |steps|
  {
    if steps == [] {
      assert steps + more == more;
    } else {
      assert (steps + more)[1..] == steps[1..] + more;
      RunsOn(Next(w, steps[0]), steps[1..], more);
    }
  }

  lemma OneStep(w: World, a: Step)
    requires Enabled(w, a)
    ensures Runs(w, [a]) && After(w, [a]) == Next(w, a)
  {
    assert [a][1..] == [];
    assert Runs(Next(w, a), []);
  }

  lemma TwoSteps(w: World, a: Step, b: Step)
    requires Enabled(w, a) && Enabled(Next(w, a), b)
    ensures Runs(w, [a, b]) && After(w, [a, b]) == Next(Next(w, a), b)
  {
    var steps := [a, b];
    assert steps[1..] == [b] && steps[1..][1..] == [];
    assert After(Next(w, a), steps[1..]) == Next(Next(w, a), b);
  }

  const CFG := Config(1, 1000, None, false)
  const POLICY := FailPolicy(Some(5), None)

  /** The job has the id 0 and, asked at 0, first runs at 10. */
  ghost predicate DueAtTen(job: Job) {
    job.id == 0 && job.maxLatency == None && ResolveAfter(job.trigger, 0) == Some(10)
  }

  const FIRST := QueueEntry(10, 1, 0, 1)
  const POPPED := Execution(0, 0, 10, 1, 1, Dispatched)

  function Called(job: Job): Execution {
    POPPED.(phase := Calling(job, 1, 10))
  }

  /** Registering the job and starting. */
  function ToStart(job: Job): seq<Step> {
    [Register(job), Run(0, None)]
  }

  /** One turn of the queue loop when the job is due, and its slot. */
  function ToPop(job: Job): seq<Step> {
    ToStart(job) + [QueueTurn(10, 10, 10), QueueGrant(10)]
  }

  /** The execution begins, and its conditions pass. */
  function ToCall(job: Job): seq<Step> {
    ToPop(job) + [BeginAt(0, 10, 10), DecideAt(0, None, 10)]
  }

  /** The daemon runs with the given queue and executions, and the job is its only one. */
  ghost predicate RunsWith(w: World, job: Job, at: LoopAt, queue: seq<QueueEntry>, inflight: seq<Execution>) {
    var s := w.s;
    && Fits(s, w.known) && w.known == map[0 := job]
    && s.cfg == CFG && s.jobs == [job] && s.queue == queue && s.inflight == inflight
    && s.generations == map[0 := 1] && s.active == {0}
    && s.running && s.run == Looping && s.queueLoop == at && s.until == None
    && s.permits + |inflight| == 1 && s.available + |inflight| == 1
  }

  lemma StartPushes(s: State, job: Job)
    requires s == NewState(CFG).(jobs := [job]) && DueAtTen(job)
    ensures var s' := StartRun(s, 0, None);
      && s'.queue == [FIRST] && s'.generations == map[0 := 1] && s'.active == {0}
      && s' == s.(queue := s'.queue, generations := s'.generations, active := s'.active, lastRefresh := s'.lastRefresh,
                  running := true, run := Looping, queueLoop := Top, midnightLoop := Exited)
  {
    var s1 := s.(running := true, until := None);
    assert Due(s1, job, 0, Missing);
    assert [job][1..] == [];
    assert RefreshEach(s1, [job], 0, Missing) == RefreshJob(s1, job, 0);
    assert Insert([], FIRST) == [FIRST];
  }

  lemma StartIsReached(job: Job)
    requires DueAtTen(job)
    ensures Runs(NewWorld(CFG, 0), ToStart(job))
    ensures var w := After(NewWorld(CFG, 0), ToStart(job));
      && RunsWith(w, job, Top, [FIRST], []) && w.now == 0
      && w.s.nextTask == 0 && w.calls == []
  {
    var w := NewWorld(CFG, 0);
    var register, run := Register(job), Run(0, None);
    var w1 := Next(w, register);
    assert w1.s == NewState(CFG).(jobs := [job]);
    TwoSteps(w, register, run);
    StartPushes(w1.s, job);
    StepFits(w, register);
    StepFits(w1, run);
  }

  /** With its only job active a sync changes nothing. */
  lemma NothingMissing(s: State, job: Job, now: int)
    requires job.id == 0 && s.jobs == [job] && s.active == {0}
    ensures PopulateMissing(s, now) == s
  {
    assert Ids(s.jobs) == {0} by {
      assert s.jobs[0].id == 0;
    }
    assert s.active - Ids(s.jobs) == {};
    assert s.generations - {} == s.generations && s.lastRefresh - {} == s.lastRefresh && s.active - {} == s.active;
    assert Forget(s) == s;
    assert [job][1..] == [] && !Due(s, job, now, Missing);
    assert RefreshEach(s, [job], now, Missing) == RefreshEach(s, [], now, Missing) == s;
  }

  lemma Turned(w: World, job: Job, now: int)
    requires DueAtTen(job) && RunsWith(w, job, Top, [FIRST], []) && w.now <= now
    ensures var turn := QueueTurn(now, now, now);
      && Enabled(w, turn) && Next(w, turn).now == now
      && RunsWith(Next(w, turn), job, if now < 10 then Asleep(Some(10)) else Acquiring, [FIRST], [])
      && Next(w, turn).s.nextTask == w.s.nextTask && Next(w, turn).calls == w.calls
  {
    NothingMissing(w.s, job, now);
    assert Live(w.s, FIRST);
    StepFits(w, QueueTurn(now, now, now));
  }

  lemma Granted(w: World, job: Job)
    requires DueAtTen(job) && RunsWith(w, job, Acquiring, [FIRST], []) && w.now <= 10 && w.s.nextTask == 0
    ensures var grant := QueueGrant(10);
      && Enabled(w, grant) && Next(w, grant).now == 10
      && RunsWith(Next(w, grant), job, Top, [], [POPPED]) && Next(w, grant).calls == w.calls
  {
    assert Live(TakeSlot(w.s), FIRST);
    StepFits(w, QueueGrant(10));
  }

  lemma PopIsReached(job: Job)
    requires DueAtTen(job)
    ensures Runs(NewWorld(CFG, 0), ToPop(job))
    ensures var w := After(NewWorld(CFG, 0), ToPop(job));
      RunsWith(w, job, Top, [], [POPPED]) && w.now == 10 && w.calls == []
  {
    var w := NewWorld(CFG, 0);
    StartIsReached(job);
    var w1 := After(w, ToStart(job));
    Turned(w1, job, 10);
    Granted(Next(w1, QueueTurn(10, 10, 10)), job);
    TwoSteps(w1, QueueTurn(10, 10, 10), QueueGrant(10));
    RunsOn(w, ToStart(job), [QueueTurn(10, 10, 10), QueueGrant(10)]);
  }

  lemma Begun(w: World, job: Job)
    requires DueAtTen(job) && RunsWith(w, job, Top, [], [POPPED]) && w.now == 10
    ensures var begin := BeginAt(0, 10, 10);
      && Enabled(w, begin) && Next(w, begin).now == 10
      && RunsWith(Next(w, begin), job, Top, [], [POPPED.(phase := Evaluating(job, 1, 10))])
      && Next(w, begin).calls == w.calls
  {
    StepFits(w, BeginAt(0, 10, 10));
  }

  lemma Decided(w: World, job: Job)
    requires RunsWith(w, job, Top, [], [POPPED.(phase := Evaluating(job, 1, 10))]) && w.now == 10 && job.id == 0
    ensures var decide := DecideAt(0, None, 10);
      && Enabled(w, decide) && Next(w, decide).now == 10
      && RunsWith(Next(w, decide), job, Top, [], [Called(job)])
      && Next(w, decide).calls == w.calls + [Call(0, 10, 1, 10)]
  {
    StepFits(w, DecideAt(0, None, 10));
  }

  lemma CallIsReached(job: Job)
    requires DueAtTen(job)
    ensures Runs(NewWorld(CFG, 0), ToCall(job))
    ensures var w := After(NewWorld(CFG, 0), ToCall(job));
      RunsWith(w, job, Top, [], [Called(job)]) && w.now == 10 && w.calls == [Call(0, 10, 1, 10)]
  {
    var w := NewWorld(CFG, 0);
    PopIsReached(job);
    var w1 := After(w, ToPop(job));
    Begun(w1, job);
    Decided(Next(w1, BeginAt(0, 10, 10)), job);
    TwoSteps(w1, BeginAt(0, 10, 10), DecideAt(0, None, 10));
    RunsOn(w, ToPop(job), [BeginAt(0, 10, 10), DecideAt(0, None, 10)]);
  }
}
