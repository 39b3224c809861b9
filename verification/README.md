# Zeitwerkzeug, verified

A Dafny model of the parts of Zeitwerkzeug in which several things happen at once or in which one
representation stands for another, with proofs of what they keep.

**The daemon.** `ExecutionLoop` holds a heap of queue entries in which deletion is lazy: refreshing
a job bumps its generation, which kills its older entries without removing them. The queue loop,
the midnight loop, the executions in flight and outside callers all change the same fields, taking
turns at `await` points. `Daemon.dfy` says what each segment between two awaits does to the state;
`ExecutionLoops.dfy` does the same on objects whose fields are updated in place, the queue being a
binary heap, and `TakeStep` proves that the object follows `Machine.dfy`, the state machine of all
interleavings under a clock that never goes back. A `World` of that machine carries logs: the calls
of job functions, the records, the dispatched entries, the slots lent out. The invariants are proved
for every step and so for every run: `EveryRun.EveryRunIsSound` puts them together, from a new
daemon with an empty registry to any state that any sequence of steps reaches.

**The rate limiter.** Three deques, pruned from the front, are shown to answer as the full log of
accepted requests would; the log satisfies a bound on every window of every run, over real time.

**Triggers.** The search for the next solar event over local days, with the astronomy as a
parameter, and the next time of day at a fixed offset from UTC.

**Persistence.** The timestamp printer and parser over a Gregorian calendar, the text order that the
SQL statements rely on, the two tables as maps with their key constraints, the life of an execution
row across wrapper calls, lost statements, crashes and restarts, and what `init` restores.

Instants are integers, microseconds of UTC, except in the rate limiter, whose times are reals. Jobs,
dates and row ids are integers. `None` stands for `None` or for the error that the doc comment names.

| file | contents |
|---|---|
| `Options`, `IntSets`, `Counting`, `Listings`, `BoundedDeques`, `Units` | small vocabulary |
| `QueueEntries`, `BinaryHeap` | the order of queue entries; push and pop on a heap |
| `TimeZones`, `SolarSearch`, `Schedules` | local days, the solar search, trigger resolution |
| `Daemon`, `Machine`, `ExecutionLoops` | the segments, their interleavings, the objects |
| `WellFormed`, `LiveChains`, `OwnChains`, `Attempts`, `OneOff`, `AskedTimes`, `Executions`, `Slots`, `Accounts`, `EveryRun` | invariants of every run |
| `FirstRuns`, `Doubles`, `KeptEntries`, `LostRetries`, `StrayReleases` | runs of a new daemon; how a job comes to two chains; when an entry is kept; how a granted retry is lost; releases by those who hold nothing |
| `Dispatching`, `QueueRefinement`, `Staleness`, `Sleeping`, `Sweeps` | what dispatching, peeking, removal, waiting and sweeps do |
| `Effects` | the segments told in the fields of the state: which limit applies, what is queued for when, when loops end and how long they wait |
| `RateLimits` | the three-tier limiter |
| `Calendars`, `Timestamps` | the calendar, printing and parsing, text order |
| `Store`, `Lifecycle`, `History` | tables, the life of a row, restored history |

## What turned out not to hold

- A job can have several live chains (live entries, or executions that hold the current generation).
  It comes to a second one exactly when, after a refresh that left it one, an execution popped or
  called before that refresh begins, or fails under a policy: `StepDoublesExactly` for every step,
  `RunStaysSingleExactly` for every run, `EndlessStaysSingleExactly` from the guards of the steps
  alone, for a job whose trigger always resolves. `RaceDoublesExactly` and `RetryDoublesExactly`
  decide the two cases from the state before the refresh; `RaceHappens` and `RetryRaceHappens` are
  runs of a new daemon in which they happen. If all executions in flight are counted as chains, a
  refresh whose trigger resolves leaves one if and only if nothing of the job is in flight
  (`RefreshChainsExactly`). An execution that begins after a refresh only to be skipped
  for being late adds a chain as well, when its trigger resolves.
- A granted retry can be lost for good. A live entry is kept until it is dispatched if and only if no
  step refreshes or removes its job first (`EntrySurvivesExactly`, `EntryIsKeptExactly`). Of a one-off
  job, whose trigger resolves to nothing any more, an outdated retry is the end: its function is never
  called again, whatever its policy still grants (`RetryIsLostExactly`). A refresh at local midnight
  is enough. `RetryIsLost` is a run of a new daemon: a failed first attempt, the second one queued, a
  refresh, nothing left.
- The solar search misses events. For a local date it looks at the UTC dates of its start, its end and
  five hours of it, which at a fixed offset are two, and an event's own offset from UTC midnight can
  reach further: a sunset far west of a zone left at UTC falls more than a day after the midnight it is
  computed from. A local date resolves if and only if an event in reach falls on it
  (`DateResolvesExactly`; in reach: within a day of the UTC time of local midnight, on either side).
  `WesternSunsetsAreMissed` has a sunset on every local date and a search that always fails. Of two
  events on one local date only the first probed is seen (`SeenExactly`); `SecondSunriseIsSkipped`
  has a sunrise that passes midnight UTC. The search answers the least event there is if and only if
  it overlooks none (`NextEventIsTrueExactly`), which holds when all are in reach and no local date
  has two (`NextEventIsTrue`).
- The next time of day can lie in the past. When the clock was set back past that time earlier today
  `_next_time_after` answers its first showing. It answers an instant ahead exactly otherwise
  (`NextTimeIsAheadExactly`); `NextTimeGoesBack` shows it in a zone with ordered midnights
  (`SetBackIsRegular`) whose clocks are set back once.
- Waking the queue loop does not make it look at the queue: it goes back to sleep until the time it
  was waiting for, so an entry pushed meanwhile and due earlier waits too
  (`NothingIsDispatchedBefore`; `EarlierEntryWaits` is a run of a new daemon with such an entry).
- The guard in `release_concurrency_slot` does not recognise a release by somebody who holds no slot
  unless every slot is free (`UnpairedRelease`). A run with such releases keeps the books right if and
  only if none comes while a slot is held (`RunConservesExactly`).
- `heal_interrupted` called beside `init` can be overwritten by the update of a call in flight.
  `HealIsSafeUnlessLate` gives the exact condition: no call stands between its insert and its update
  with a row that is still running, other than one that is about to write just what the heal writes.
  `LateIsReached` is a run from an empty store to a state in which it fails.
- The documentation says that when conditions fail the job is skipped or passed to the retry policy
  (docs/concepts/context.md:11; the docstring at src/zeitwerkzeug/context/scheduler.py:44 says the
  policy is for that). The code never passes it to the policy: it schedules the next regular
  occurrence as a first attempt, the same under every policy
  (src/zeitwerkzeug/daemon/execution.py:166-168); the model follows the code (`DeclineSchedulesNext`).
- The documentation says that a restarted loop resumes where it left off
  (docs/concepts/persistence.md:63). The code fails the rows that were running and restores the
  history; pending retries are not stored. `CrashIsHealed` states what the restart does to the rows.

## Model

| member | source | states |
|---|---|---|
| QueueEntries.InsertKeepsOrder | src/zeitwerkzeug/daemon/models.py:55-64 | pushing into an ordered queue keeps the tuple order (when, generation, job id, attempt) |
| QueueEntries.SortedIsUnique | src/zeitwerkzeug/daemon/models.py:55-64 | the order is total: a queue read in order is determined by which entries it holds, whatever the heap's layout |
| QueueEntries.FirstDifferenceDecides | src/zeitwerkzeug/daemon/models.py:55-64 | entries compare by time, then generation, then job, then attempt: the first field that differs decides |
| BinaryHeap.RootIsLeast | src/zeitwerkzeug/daemon/scheduling.py:151-152 | the entry at index 0 is a least entry of the whole heap |
| BinaryHeap.HeapPush | src/zeitwerkzeug/daemon/scheduling.py:136-139 | the heap order is kept and exactly the new entry is added |
| BinaryHeap.HeapPop | src/zeitwerkzeug/daemon/scheduling.py:156-158 | the heap order is kept and exactly the root is removed |
| ExecutionLoops.FuzzyCron.Register | src/zeitwerkzeug/daemon/registry.py:95-147 | the job is added last under its new id and the revision moves on |
| ExecutionLoops.FuzzyCron.Remove | src/zeitwerkzeug/daemon/registry.py:149-152 | the job of that id goes and no other; the revision moves only if there was one |
| ExecutionLoops.FuzzyCron.Clear | src/zeitwerkzeug/daemon/registry.py:158-162 | no job is left; the revision moves only if there was one |
| ExecutionLoops.ExecutionLoop.Create | src/zeitwerkzeug/daemon/loop.py:36-64 | no loop for a concurrency below one or a negative history limit, otherwise a fresh idle loop with all slots free |
| ExecutionLoops.ExecutionLoop.PushEntry | src/zeitwerkzeug/daemon/scheduling.py:128-140 | in-place heap push: the queue read in order gains the entry at its place |
| ExecutionLoops.ExecutionLoop.ScheduleRetryOf | src/zeitwerkzeug/daemon/scheduling.py:98-126 | the object does what the specification of retries says, with the generation read at that moment |
| ExecutionLoops.ExecutionLoop.Refresh | src/zeitwerkzeug/daemon/scheduling.py:59-68 | bump, mark active and with today's local date, then schedule a first attempt |
| ExecutionLoops.ExecutionLoop.PopulateMissingJobs | src/zeitwerkzeug/daemon/scheduling.py:42-57 | removed jobs leave all three tables, jobs not active are refreshed in registration order |
| ExecutionLoops.ExecutionLoop.PeekValid | src/zeitwerkzeug/daemon/scheduling.py:142-162 | popping dead roots one by one ends, leaves the queue without its dead prefix, and returns the first live entry, which is then the root |
| ExecutionLoops.ExecutionLoop.NextRefresh | src/zeitwerkzeug/daemon/scheduling.py:168-191 | the loop over the jobs computes now if some job is due, else the earliest coming local midnight |
| ExecutionLoops.ExecutionLoop.QueueLoopTurn | src/zeitwerkzeug/daemon/loop.py:185-205 | one turn of the queue loop to its next suspension, with its three readings of the clock |
| ExecutionLoops.ExecutionLoop.QueueLoopGranted | src/zeitwerkzeug/daemon/loop.py:205-221 | once a slot is granted: look again, then dispatch or give the slot back |
| ExecutionLoops.ExecutionLoop.MidnightLoopTurn | src/zeitwerkzeug/daemon/loop.py:231-245 | one turn of the midnight loop, with its two readings of the clock |
| ExecutionLoops.ExecutionLoop.BeginExecution | src/zeitwerkzeug/daemon/execution.py:62-114 | the object does what the specification says: a removed job ends quietly, a missed run is skipped, otherwise the generation is captured (exactly when and how: Effects.BeginSkipsExactly) |
| ExecutionLoops.ExecutionLoop.CompleteExecution | src/zeitwerkzeug/daemon/execution.py:200-217 | the object does what the specification says: record, follow-up, release (what is queued for when: Effects.CompleteFollowsUp) |
| ExecutionLoops.ExecutionLoop.TakeStep | src/zeitwerkzeug/daemon/loop.py:145-245 | the object, its heap and its registry simulate every enabled step of the state machine |
| ExecutionLoops.ExecutionLoop.TakeSteps | src/zeitwerkzeug/daemon/loop.py:145-245 | the object that takes the steps of any run is in the last state of that run |
| Effects.RefreshQueues | src/zeitwerkzeug/daemon/scheduling.py:59-96 | a refresh moves the job to its next generation, marks it active and with the date of its own clock, and queues its next occurrence after now as a first attempt at that generation, or nothing when there is none; nothing else changes |
| Effects.DueExactly | src/zeitwerkzeug/daemon/scheduling.py:55-57 | a sync takes exactly the jobs not active; a sweep at midnight exactly those not refreshed within the current day of their own clock |
| Effects.SweepQueues | src/zeitwerkzeug/daemon/scheduling.py:193-201 | a sweep queues exactly the next occurrences of the due jobs and loses no entry |
| Effects.LiveExactly | src/zeitwerkzeug/daemon/scheduling.py:142-162 | an entry counts exactly when its job is registered and it carries the job's current generation |
| Effects.RunStarts | src/zeitwerkzeug/daemon/loop.py:145-157 | starting sets the deadline, lets the configured loops run, activates every registered job, and leaves executions and history alone |
| Effects.QueueTurnDecides | src/zeitwerkzeug/daemon/loop.py:185-205 | a turn ends the queue loop, and the daemon, exactly when it was stopped or its deadline has come; otherwise it asks for a slot if the least live entry is due, waits until that entry's time if not, and sleeps if no entry is live |
| Effects.MidnightTurnDecides | src/zeitwerkzeug/daemon/loop.py:231-245 | it refreshes the due jobs when some are; else it waits until the first moment at which one will be, and sleeps without jobs; it ends when the daemon was stopped |
| Effects.MidnightWakeDecides | src/zeitwerkzeug/daemon/loop.py:235-245 | after a wait it refreshes what is due by then, or ends when the daemon was stopped; after a plain sleep it starts over |
| Effects.BeginSkipsExactly | src/zeitwerkzeug/daemon/execution.py:69-103 | the job's own limit decides, and the daemon's only for a job without one: a run that begins later than that is recorded as skipped and the next occurrence after now is queued as a first attempt; any other registered job's goes on with the generation read here; a removed job's leaves no trace |
| Effects.SkipIsRecordedExactly | src/zeitwerkzeug/daemon/execution.py:81-103 | a step of any run records a skip if and only if it begins a missed run of a registered job |
| Effects.DecideGoesOn | src/zeitwerkzeug/daemon/execution.py:153-168 | conditions that pass lead to the call; any other outcome is recorded as it is and the next occurrence after its end is queued as a first attempt at the captured generation |
| Effects.CompleteFollowsUp | src/zeitwerkzeug/daemon/execution.py:200-217 | the outcome is recorded as it is; success, or any end without a policy, queues the next occurrence after the end as a first attempt at the captured generation; a failure under a policy queues, at the generation read then, the next attempt after the interval, or at the next occurrence without one, or a first attempt at the next occurrence once the attempts are used up |
| WellFormed.StepFits | src/zeitwerkzeug/daemon/scheduling.py:42-68 | every step of every interleaving keeps: unique known ids, `_active` and the keys of `_generations` and `_last_refresh` equal, queue in order, no queued, entry or captured generation ahead of its job's |
| WellFormed.RunFits | src/zeitwerkzeug/daemon/scheduling.py:42-68 | the same over whole runs |
| LiveChains.StepChains | src/zeitwerkzeug/daemon/scheduling.py:59-140 | a job's chains (live entries plus executions in flight) grow only when its generation is bumped, and by at most one |
| LiveChains.ChainsAreBounded | src/zeitwerkzeug/daemon/execution.py:212-217 | in every reachable state a job's chains number at most one plus its executions in flight at its latest refresh |
| LiveChains.RefreshChainsExactly | src/zeitwerkzeug/daemon/scheduling.py:59-68 | a refresh leaves exactly one live entry if the trigger resolves and none otherwise, besides what is in flight; with a trigger that resolves, one chain if and only if nothing of the job is in flight |
| OwnChains.BeginOwnExactly | src/zeitwerkzeug/daemon/execution.py:69-103 | an execution that begins trades its chain at the current generation, if it had one, for the one it carries on: a registered job's always, unless it is skipped and its trigger does not resolve |
| OwnChains.CompleteOwnExactly | src/zeitwerkzeug/daemon/execution.py:212-217 | the same for a call that ends: a failure under a policy carries on at the generation read then, any other end at the captured one, if there is anything to schedule |
| OwnChains.StepDoublesExactly | src/zeitwerkzeug/daemon/execution.py:77-217 | for every step and every job, with or without a policy: one chain turns into more if and only if an execution at an outdated generation begins or fails under a policy with something to schedule |
| OwnChains.RunStaysSingleExactly | src/zeitwerkzeug/daemon/execution.py:77-217 | a run keeps a job to at most one chain in every state if and only if no step of it does that while the job has one |
| OwnChains.EndlessStaysSingleExactly | src/zeitwerkzeug/daemon/execution.py:77-217 | for a job whose trigger always resolves, neither removed nor aborted: if and only if no step does it at all |
| OwnChains.OwnIsBounded | src/zeitwerkzeug/daemon/execution.py:77-217 | in every reachable state a job to which that never happened has at most one live entry or execution at its current generation |
| OwnChains.StepKeepsNoneLost | src/zeitwerkzeug/daemon/scheduling.py:59-140 | no job is lost: a registered active job whose trigger always resolves keeps at least one chain in every step, unless an execution of it was aborted |
| OwnChains.ExactlyOneChain | src/zeitwerkzeug/daemon/execution.py:77-217 | so without a race and an abort it has exactly one |
| Doubles.RaceDoublesExactly | src/zeitwerkzeug/daemon/execution.py:69-103 | a refresh between pop and begin leaves two chains if and only if the refresh resolved and the execution goes on or, when skipped for being late, resolves too |
| Doubles.RaceHappens | src/zeitwerkzeug/daemon/execution.py:69-77 | a run of a new daemon in which it does |
| Doubles.RetryDoublesExactly | src/zeitwerkzeug/daemon/scheduling.py:98-126 | a refresh during a call leaves two chains if and only if the refresh resolved and the call fails under a policy that grants a retry or whose trigger resolves |
| Doubles.RetryRaceHappens | src/zeitwerkzeug/daemon/scheduling.py:98-126 | a run of a new daemon in which it does |
| LostRetries.RefreshDropsRetry | src/zeitwerkzeug/daemon/scheduling.py:59-68 | refreshing a one-off job at or past its target leaves no chain but the executions in flight |
| LostRetries.RetryIsLostForGood | src/zeitwerkzeug/daemon/scheduling.py:193-201 | a bump of a one-off job at or past its target with nothing of it in flight: in no continuation is its function called again |
| KeptEntries.EntrySurvivesExactly | src/zeitwerkzeug/daemon/scheduling.py:59-68 | in every step a live entry is dispatched, or stays queued and live, if and only if the step does not refresh or remove its job |
| KeptEntries.EntryIsKeptExactly | src/zeitwerkzeug/daemon/scheduling.py:142-162 | along every run it is kept until it is dispatched if and only if no step refreshes or removes its job first |
| KeptEntries.RetryIsQueued | src/zeitwerkzeug/daemon/scheduling.py:112-126 | a failed call with a granted retry leaves that retry queued and live |
| KeptEntries.RetryIsKeptExactly | src/zeitwerkzeug/daemon/scheduling.py:98-126 | and it is kept until it is dispatched if and only if its job is not refreshed or removed first |
| LostRetries.RetryIsLostExactly | src/zeitwerkzeug/context/scheduler.py:143-149 | a one-off job's pending retry is kept along a run if and only if no step refreshes or removes the job first; if one does, the job's function is never called again |
| LostRetries.RetryIsReached | src/zeitwerkzeug/daemon/execution.py:212-217 | a run of a new daemon to a pending second attempt of a one-off job |
| LostRetries.RetryIsLost | src/zeitwerkzeug/daemon/loop.py:99-105 | a refresh then leaves no chain of it, and no continuation calls its function a second time |
| EveryRun.EveryRetryIsLostExactly | src/zeitwerkzeug/daemon/scheduling.py:59-68 | the equivalence for a pending retry after any run of a new daemon |
| Attempts.DeclineSchedulesNext | src/zeitwerkzeug/daemon/execution.py:153-168 | when the conditions do not pass exactly the trigger's next occurrence is queued, as a first attempt at the captured generation, or nothing if there is none; the queue is the same under every fail policy |
| Attempts.AttemptsAreEarned | src/zeitwerkzeug/daemon/scheduling.py:98-126 | in every run each queued, running or recorded attempt lies in 1..max(1, max_attempts), is 1 without a policy, and if k > 1 an earlier record of the same job has attempt k-1 and status error or timeout |
| OneOff.OneOffsAreInTurn | src/zeitwerkzeug/context/scheduler.py:143-149 | in every run, with any refreshes, the function of a one-off job is called at most once without a policy and at most max(1, max_attempts) times when a maximum is set, never before the target, with attempts 1, 2, 3, ... |
| AskedTimes.RunsAreAsked | src/zeitwerkzeug/daemon/scheduling.py:78-126 | in every run each queued entry is for a time that its job's trigger answered when it was asked at some moment up to now, or for its policy's interval after the recorded failure of the attempt before |
| Dispatching.DispatchedIsLeastLive | src/zeitwerkzeug/daemon/loop.py:210-221 | a dispatched entry is due, at its registered job's current generation and the least live entry; it leaves the queue and is in flight |
| Dispatching.DueIsDispatched | src/zeitwerkzeug/daemon/loop.py:210-217 | a granted slot is not given back while a live entry is due |
| EveryRun.EveryDispatchIsLeastLive | src/zeitwerkzeug/daemon/loop.py:185-221 | the same of the next dispatch after any run, although waiting for the slot let others change the queue |
| QueueRefinement.PushRefines | src/zeitwerkzeug/daemon/scheduling.py:128-140 | against a plain priority queue of the live entries: a push inserts a live entry and is invisible otherwise |
| QueueRefinement.PeekRefines | src/zeitwerkzeug/daemon/scheduling.py:142-162 | a peek leaves the plain queue as it is, returns its head, which is the least live entry, and None exactly when no live entry exists |
| QueueRefinement.DispatchRefines | src/zeitwerkzeug/daemon/loop.py:210-217 | a pop after a peek removes the head of the plain queue |
| Staleness.DeadIsStale | src/zeitwerkzeug/daemon/scheduling.py:151-158 | a dead entry in the queue is outlived for good or of a removed job |
| Staleness.StaleIsNeverDispatched | src/zeitwerkzeug/daemon/scheduling.py:59-68 | in every continuation of every run a stale entry stays stale and is never dispatched, also when pushed again |
| Staleness.RemovedIsStale | src/zeitwerkzeug/daemon/registry.py:149-152 | removing a job makes every entry it has, or that its executions still push, stale |
| Sweeps.RefreshEachSwept | src/zeitwerkzeug/daemon/scheduling.py:55-68 | a sweep moves exactly the due jobs on by one generation, marks them with their local date and changes no other id |
| Sweeps.SyncActivatesRegistry | src/zeitwerkzeug/daemon/scheduling.py:42-57 | after `_populate_missing` the active jobs, and the keys of both tables, are exactly the registry's ids |
| Sweeps.SyncTwiceIsOnce | src/zeitwerkzeug/daemon/scheduling.py:42-57 | repeating it, at any later time, changes nothing |
| Sweeps.MidnightIsPlanned | src/zeitwerkzeug/daemon/scheduling.py:168-191 | for any jobs in regular zones the planned instant is the first one from now on at which some job is due; it is now exactly when a job is due now, and none only without jobs |
| Sweeps.MidnightRefreshSettles | src/zeitwerkzeug/daemon/scheduling.py:193-201 | `_refresh_due_jobs` refreshes exactly the jobs that are due, leaves none due, and the next plan lies in the future |
| Slots.StepMovesSlots | src/zeitwerkzeug/daemon/execution.py:55-60 | in each step the counter moves by exactly the executions that ended minus those dispatched, and outside calls |
| Slots.SlotsAreConserved | src/zeitwerkzeug/daemon/loop.py:111-123 | in every run free plus held slots make `max_concurrency`, never negative, and at most `max_concurrency` executions hold a slot; counter and semaphore agree, a permit on its way to a waiter counting as free |
| Slots.GuardPassesHolders | src/zeitwerkzeug/daemon/loop.py:118-123 | the guard never swallows the release of somebody who holds a slot |
| Slots.UnpairedRelease | src/zeitwerkzeug/daemon/loop.py:118-123 | a release by somebody who holds none keeps the books if and only if no slot is held at all |
| StrayReleases.RunConservesExactly | src/zeitwerkzeug/daemon/loop.py:118-123 | a run with releases by somebody who holds no slot keeps the books right in every state if and only if none of them comes while a slot is held |
| Slots.ShutdownIsOrderly | src/zeitwerkzeug/daemon/loop.py:70-73 | in every run at most one entry is dispatched after `stop`, the one already waiting for a slot; while gathering every execution in flight is awaited |
| Slots.ReturnLeavesNothing | src/zeitwerkzeug/daemon/loop.py:152-163 | when `run` returns both loops are over, every dispatched execution has finished and every slot but the lent ones is free |
| Accounts.StepAccounts | src/zeitwerkzeug/daemon/execution.py:55-114 | in each step the records and executions of an occurrence (job, time, attempt) gain exactly what is dispatched and lose exactly what ends without a record: an aborted execution, or one whose job is gone when it begins |
| Accounts.RunsAreAccounted | src/zeitwerkzeug/daemon/execution.py:62-217 | in every run an occurrence is called at most once and recorded at most once per dispatch; nothing starts before it is due; records have scheduled <= started <= finished; only runs beyond their latency limit are skipped |
| Accounts.RunsBalance | src/zeitwerkzeug/daemon/loop.py:217-221 | along every run the dispatches of an occurrence are its records, its quiet ends and what is still in flight |
| EveryRun.EveryDispatchIsSettled | src/zeitwerkzeug/daemon/loop.py:152-163 | whenever no run is on, records plus quiet ends equal the dispatches, for every occurrence |
| EveryRun.StepIsSound | src/zeitwerkzeug/daemon/loop.py:165-245 | all invariants together are kept by every step |
| EveryRun.EveryRunIsSound | src/zeitwerkzeug/daemon/loop.py:145-245 | from a new daemon every run of every interleaving keeps all of them, and the bounded history is the end of the full log |
| EveryRun.RunDaemon | src/zeitwerkzeug/daemon/loop.py:145-245 | a new registry and loop that take the steps of any run are in its last state, in which all invariants hold |
| Sleeping.NothingIsDispatchedBefore | src/zeitwerkzeug/daemon/sleeping.py:20-34 | while the queue loop waits until a time and is not stopped, nothing is dispatched before that time in any run, not even an entry pushed meanwhile and due earlier |
| Sleeping.EarlierEntryWaits | src/zeitwerkzeug/daemon/sleeping.py:20-34 | a run of a new daemon in which a live entry pushed while the loop waits is past its time and the loop still waits |
| RateLimits.OpenMeteoRateLimiter.constructor | src/zeitwerkzeug/integrations/rate_limit.py:21-36 | empty windows with the default limits 500, 4500 and 9000 per minute, hour and day |
| RateLimits.OpenMeteoRateLimiter.Prune | src/zeitwerkzeug/integrations/rate_limit.py:40-44 | the while loop drops from one window exactly the front that is at least a period old |
| RateLimits.OpenMeteoRateLimiter.CheckAndAcquire | src/zeitwerkzeug/integrations/rate_limit.py:46-70 | the pruned deques answer as the full log would; an accepted request enters it, a refusal leaves no trace |
| RateLimits.OpenMeteoRateLimiter.Serve | src/zeitwerkzeug/integrations/rate_limit.py:46-70 | requests one after the other: each is answered from the log of the run so far, and the accepted ones are the log of the run |
| RateLimits.OpenMeteoRateLimiter.ServesWithinLimits | src/zeitwerkzeug/integrations/rate_limit.py:21-36 | what the object has accepted is at most n times a tier's maximum in any n periods |
| RateLimits.OpenMeteoRateLimiter.WindowsNest | src/zeitwerkzeug/integrations/rate_limit.py:31-36 | the minute deque is a suffix of the hour deque, itself a suffix of the day deque |
| RateLimits.PrunedTwice | src/zeitwerkzeug/integrations/rate_limit.py:40-44 | having pruned at an earlier time makes no difference |
| RateLimits.RefusedWhenFull | src/zeitwerkzeug/integrations/rate_limit.py:54-66 | a request is refused if and only if some tier has its maximum accepted within its last period |
| RateLimits.EveryWindowIsBounded | src/zeitwerkzeug/integrations/rate_limit.py:41-70 | for each tier, every run and every real a, at most n times the maximum is accepted within the n periods after a |
| TimeZones.FixedIsRegular | src/zeitwerkzeug/context/scheduler.py:90-99 | at a fixed offset local midnights ascend and cut UTC into the local dates |
| TimeZones.DateIsWindow | src/zeitwerkzeug/daemon/scheduling.py:70-72 | an instant has a local date exactly when it lies between that date's midnights |
| SolarSearch.EventOnDate | src/zeitwerkzeug/astro/math_engine.py:233-307 | the loop over the sorted candidate dates returns the instant of the least one whose event lies in the local day's window |
| SolarSearch.NextSolarEvent | src/zeitwerkzeug/astro/math_engine.py:334-361 | the loop over the days is the search of the specification (what it answers: NextEventFalls, NextEventIsLeast) |
| SolarSearch.NextEventIsLeast | src/zeitwerkzeug/astro/math_engine.py:334-361 | the result is the least of the events that the local dates up to the last searched one resolve to, strictly after `after`; the search fails exactly when there is none among them |
| SolarSearch.NextEventFalls | src/zeitwerkzeug/astro/math_engine.py:334-361 | the result is after `after`, and as long after a UTC midnight as the astronomy gives for that date: the crossing of that altitude in that direction, or the transit for noon; an event without an altitude fails |
| SolarSearch.OrdinaryDay | src/zeitwerkzeug/astro/math_engine.py:310-331 | a place that rises at six and sets at eighteen every day: the next sunrise after midnight is at six and the next sunset at eighteen |
| SolarSearch.NextEventIsTrueExactly | src/zeitwerkzeug/astro/math_engine.py:334-361 | over the events of all UTC dates: the result is the least one strictly after `after`, or there is none, if and only if no event is overlooked |
| SolarSearch.NextEventIsTrue | src/zeitwerkzeug/astro/math_engine.py:334-361 | so it is at a fixed offset when all events are in reach and no local date has two |
| SolarSearch.ProbesAreTwoDates | src/zeitwerkzeug/astro/math_engine.py:251-258 | at a fixed offset the seven candidates are two UTC dates |
| SolarSearch.SevenProbes | src/zeitwerkzeug/astro/math_engine.py:251-258 | in any zone the candidates are the UTC dates of the start and the end of the local day and of its hours 0, 6, 12, 18 and 23 |
| SolarSearch.HitIsProbedExactly | src/zeitwerkzeug/astro/math_engine.py:251-269 | the UTC date whose event falls on a local date is a candidate if and only if the event's offset from UTC midnight is within a day of the UTC time of local midnight |
| SolarSearch.DateResolvesExactly | src/zeitwerkzeug/astro/math_engine.py:251-274 | a local date resolves if and only if such an event falls on it |
| SolarSearch.SeenExactly | src/zeitwerkzeug/astro/math_engine.py:260-269 | an event is the one its local date resolves to if and only if it is in reach and not the second of two |
| SolarSearch.WesternSunsetsAreMissed | src/zeitwerkzeug/astro/math_engine.py:271-274 | a place in zone UTC with an event on every local date where the search fails whenever it is asked |
| SolarSearch.SecondSunriseIsSkipped | src/zeitwerkzeug/astro/math_engine.py:260-269 | a place where the second sunrise of one local date is skipped |
| Schedules.Resolve | src/zeitwerkzeug/context/scheduler.py:132-158 | the four kinds of target, None for each error (what each resolves to: DailyResolvesToFirst, OthersResolve, SolarResolves) |
| Schedules.ResolvesLater | src/zeitwerkzeug/context/scheduler.py:132-152 | a solar, one-off or fixed-offset time-of-day target resolves strictly after `after` |
| Schedules.DailyResolvesToFirst | src/zeitwerkzeug/context/scheduler.py:28-39 | a time of day resolves to the first later instant at which the clock of the location, else of the zone, else UTC, shows it, at most a day away, at a fixed offset |
| Schedules.OthersResolve | src/zeitwerkzeug/context/scheduler.py:143-156 | a one-off resolves to its instant exactly while that lies ahead; a callable to what it answers |
| Schedules.SolarResolves | src/zeitwerkzeug/context/scheduler.py:137-141 | without a location a solar target fails; with one it resolves to the least later event that the local dates searched resolve to |
| Schedules.NextTimeIsFirst | src/zeitwerkzeug/context/scheduler.py:28-39 | at a fixed offset the first instant strictly after `after` whose local clock shows the time, at most a day away |
| Schedules.NextTimeIsAheadExactly | src/zeitwerkzeug/context/scheduler.py:28-39 | in any zone with ordered midnights the result lies ahead if and only if the clock was not set back past the time earlier today |
| Schedules.NextTimeGoesBack | src/zeitwerkzeug/context/scheduler.py:36-39 | a zone and a moment at which the result is already past |
| Calendars.OrdinalsFollowDates | src/zeitwerkzeug/persistence/persistant_models.py:11-19 | earlier dates of the Gregorian calendar have smaller day numbers |
| Calendars.DateOfIsValid | src/zeitwerkzeug/persistence/persistant_models.py:11-19 | every day number from year 1 to 9999 is that of a valid date |
| Calendars.KnownDays | src/zeitwerkzeug/persistence/persistant_models.py:11-19 | the day Unix time starts is day 719163 and 1 March 2000 day 730180 (`date.toordinal`) |
| Timestamps.TextOrderIsTimeOrder | src/zeitwerkzeug/persistence/store.py:32-40 | comparing stored texts compares moments, for all values that convert to UTC, with or without a fraction and whatever their offsets |
| Timestamps.RoundTrip | src/zeitwerkzeug/persistence/persistant_models.py:11-34 | reading a stored text gives the same moment in UTC, also with `Z` for the offset or a space for the `T`; a missing value stays missing |
| Timestamps.PrintedForm | src/zeitwerkzeug/persistence/persistant_models.py:11-19 | the stored text is YYYY-MM-DDTHH:MM:SS, a fraction of six digits unless it is zero, and +00:00 |
| Timestamps.AheadIsPrintedEarlier | src/zeitwerkzeug/persistence/persistant_models.py:11-19 | what a clock k hours ahead of UTC shows is stored k hours earlier |
| Timestamps.OffsetsAreRead | src/zeitwerkzeug/persistence/persistant_models.py:22-34 | a text with an offset of either sign reads as the moment that much earlier or later |
| Store.SQLiteStore.Register | src/zeitwerkzeug/persistence/store.py:220-239 | upsert that keeps the creation time; references stay intact |
| Store.SQLiteStore.Unregister | src/zeitwerkzeug/persistence/store.py:241-245 | afterwards neither the job nor any row of it is there; references stay intact |
| Store.SQLiteStore.Log | src/zeitwerkzeug/persistence/store.py:255-276 | the row gets an id never given before; without its job it is refused and nothing changes |
| Store.SQLiteStore.Update | src/zeitwerkzeug/persistence/store.py:278-309 | only the given columns of that row change; an unknown id changes nothing |
| Store.SQLiteStore.HealInterrupted | src/zeitwerkzeug/persistence/store.py:402-422 | the count returned is the number of rows that were running |
| Store.SQLiteStore.PruneOlder | src/zeitwerkzeug/persistence/store.py:382-396 | the count returned is the number of rows deleted |
| Store.HealLeavesNoneRunning | src/zeitwerkzeug/persistence/store.py:402-422 | no row is running afterwards and exactly the rows that were have changed |
| Store.PruneFollowsTime | src/zeitwerkzeug/persistence/store.py:387-396 | the comparison of texts deletes exactly the rows whose first known moment lies before the cutoff |
| Store.RegisterKeepsCreation | src/zeitwerkzeug/persistence/store.py:220-239 | registering again keeps the creation time and the executions, and doing it twice is doing it once |
| Store.RegisterWritesColumns | src/zeitwerkzeug/persistence/store.py:220-239 | on conflict every column but the creation time is overwritten, a new job keeps its own, and no other job changes |
| Store.UnregisterRemovesExactly | src/zeitwerkzeug/persistence/store.py:241-245 | the job and its rows are gone; every other job, and every row of another job, is there unchanged |
| Store.LogAddsExactly | src/zeitwerkzeug/persistence/store.py:255-276 | exactly the new row is added, under an id greater than any before; without its job nothing changes |
| Store.UpdateWritesExactly | src/zeitwerkzeug/persistence/store.py:278-309 | each given column is written, each other one and each other row is kept |
| Store.HealWrites | src/zeitwerkzeug/persistence/store.py:402-422 | a running row becomes failed, finished now, with the restart message |
| Store.PruneRemovesExactly | src/zeitwerkzeug/persistence/store.py:387-396 | a row goes exactly when its trigger time, else its start, else its end is known and less than the cutoff; the others are unchanged |
| Lifecycle.StepKeeps | src/zeitwerkzeug/persistence/persistance_loop.py:115-271 | every step of wrapper, store or process keeps references and distinct owners and changes no row that has ended |
| Lifecycle.RowsEndOnce | src/zeitwerkzeug/persistence/persistance_loop.py:115-271 | over every careful run (a heal beside `init` meets no late call), crashes and restarts included, a row leaves `running` at most once and then never changes at all, what it records of its start never changes, and no id comes back |
| Lifecycle.EveryRowEndsOnce | src/zeitwerkzeug/persistence/store.py:63-74 | the same from an empty store on, between any two moments of a run |
| Lifecycle.HealingAtInitIsCareful | src/zeitwerkzeug/persistence/persistance_loop.py:586-603 | a run whose only heals are those of `init` is careful |
| Lifecycle.HealIsSafeUnlessLate | src/zeitwerkzeug/persistence/store.py:402-422 | a heal at another time is harmless in all continuations if and only if no call is late |
| Lifecycle.LateIsReached | src/zeitwerkzeug/persistence/persistance_loop.py:130-135 | a run from an empty store to a state in which a call is late and a heal is not safe |
| Lifecycle.CrashIsHealed | src/zeitwerkzeug/persistence/persistance_loop.py:596-603 | after a crash and the next `init` exactly the rows that were running are failed with the restart message, all others are unchanged, none is running |
| Lifecycle.LogStart | src/zeitwerkzeug/persistence/persistance_loop.py:115-128 | a missing job row is added and the insert repeated, so a row is always logged |
| Lifecycle.RunWrapped | src/zeitwerkzeug/persistence/persistance_loop.py:130-202 | an undisturbed call adds one row, ended with the status, time and error of its function's outcome, and changes no other |
| Lifecycle.UndisturbedIsRecorded | src/zeitwerkzeug/persistence/persistance_loop.py:115-202 | in the state machine too an undisturbed call, with the insert repeated if its job was missing, leaves exactly its row with status success, failed or cancelled and the matching error |
| Lifecycle.RefusedTwiceIsOver | src/zeitwerkzeug/persistence/persistance_loop.py:122-128 | a second refusal, the job having been removed meanwhile, ends the call and changes nothing |
| Lifecycle.AbandonedSendsNothing | src/zeitwerkzeug/persistence/persistance_loop.py:115-128 | a call nobody waits for any more sends nothing after the statement it had sent |
| History.NewestIsReversed | src/zeitwerkzeug/persistence/store.py:340-344 | newest first is the reverse of the one chronological listing of the rows |
| History.NewestListsAll | src/zeitwerkzeug/persistence/store.py:340-344 | every selected row is listed once, each later than the next |
| History.Conditions | src/zeitwerkzeug/persistence/store.py:321-338 | the conditions collected one by one select exactly the rows that match all given criteria; an empty name or status selects all |
| History.GetHistory | src/zeitwerkzeug/persistence/store.py:311-344 | the page of the matching rows newest first, or an error when a timestamp on it cannot be read |
| History.FiltersSelect | src/zeitwerkzeug/persistence/store.py:324-330 | a name selects the rows of that job and a status those in it; an empty one, or none, selects all |
| History.CriteriaCombine | src/zeitwerkzeug/persistence/store.py:321-338 | several criteria select what each of them selects alone |
| History.PageSelects | src/zeitwerkzeug/persistence/store.py:340-344 | the page starts at the offset and is as long as the limit allows; a negative limit is none and a negative offset zero |
| History.GetLastExecution | src/zeitwerkzeug/persistence/store.py:346-351 | the latest matching row, or nothing when there is none |
| History.RecordRoundTrip | src/zeitwerkzeug/persistence/persistant_models.py:55-80 | a record stored and read back has the same fields and the same moments |
| History.ColumnsHoldFields | src/zeitwerkzeug/persistence/persistant_models.py:55-66 | each field is stored in its own column |
| History.ExtendReversed | src/zeitwerkzeug/persistence/persistance_loop.py:609-613 | appending the rows last to first to a bounded deque leaves the end of the old history followed by the rows turned round |
| History.PersistentExecutionLoop.Init | src/zeitwerkzeug/persistence/persistance_loop.py:586-620 | the second call does nothing; the first heals, counts and appends the restored rows oldest first |
| History.RestoredHistory | src/zeitwerkzeug/persistence/persistance_loop.py:602-613 | the history after `init` is the end, of length at most `history_limit`, of all rows listed by (triggered_at, id), nulls first, and none of it is running |
| History.ListedInTimeOrder | src/zeitwerkzeug/persistence/store.py:340 | the listing follows the moments, ties broken by id |
| History.UntimedComeFirst | src/zeitwerkzeug/persistence/store.py:340 | rows without a trigger time come before all others in time order, by id among themselves |
| History.BoundsSelectMoments | src/zeitwerkzeug/persistence/store.py:332-338 | `since` and `until` select the rows triggered between the two moments, both included |

## Left out

- asyncio itself: wake events and timeouts as durations; a sleeping loop may wake when its wait is over or it is signalled, and a step from one await to the next is atomic.
- Promptness: nothing is said about when an entry is dispatched or how punctually `until` ends a run.
- Errors other than the library's own out of a trigger, and cancellations of executions that have begun, appear only as an execution that ends without record or follow-up (`AbortAt`).
- Schedules.NextTimeIsFirst: for fixed offsets only, because when clocks change a time of day can be skipped or shown twice; what holds in other zones is NextTimeIsAheadExactly.
- Sweeps.MidnightIsPlanned: for zones whose local midnights ascend and cut the time line (every fixed offset does), because a zone that skips or repeats midnight has no such windows; the same holds of SolarSearch.NextEventIsLeast.
- SolarSearch.DateResolvesExactly: for fixed offsets only, because a local day of another length can meet another number of UTC dates.
- The solar geometry (floating point) is a parameter, an optional offset per UTC date; so are condition results, job outcomes, clock readings and the identifiers drawn by `uuid4`, which are assumed new.
- Slots.SlotsAreConserved: does not model the time between the release of a permit to a waiting task and that task's resumption, in which asyncio has already taken the permit off the semaphore and the daemon has not yet taken it off its counter, because the hand-over is one step of the model; nor an execution cancelled before its first step, which keeps its slot for ever because the releasing `finally` has not been entered.
- History.RecordRoundTrip: leaves out the `context_data` column, because JSON with a fallback to `str` is not undone by reading.
- The heap of Python's `heapq` is a textbook binary heap on a list value; its order among equal entries does not matter because entries are compared by all fields.
- `FailPolicy.limit`, `resolve_limit` and `retry_jitter_seconds`, which the daemon never reads.
- Job functions, arguments, names and tags; log messages; the error texts of the in-memory records.
- `PersistentFuzzyCron` as a registry of the loop: its `get_job` is keyed by name while the loop asks by id, so the daemon theorems are not lifted to it; its queue of pending job writes is not modelled, those writes being steps that may happen at any time.
- SQLite itself, migrations, VACUUM, the JSON of `context_data`, and the default creation time of a job row.
- Rows that something other than the wrappers inserts or updates: the life cycle speaks of rows the wrappers write.
- ISO texts beyond the shapes that the printer writes, with `Z` or a space: `fromisoformat` accepts more, the model's parser rejects it.
- Reading job rows back, `list_jobs`, `execution_count`, `db_stats`: each is settled by reading one query.
- Personas, the phrase parser, weather conditions, condition combinators and the schedule builder.
- Wrappers without a job record, whose insert is not repeated; when pruning happens on shutdown, which is a step that may come at any time.
