# EVA01 runtime: a verified model

This project models the coroutine runtime of EVA01 in Dafny and proves what it
keeps: the worker scheduler, the I/O event manager, the timer manager, fibers,
the hooked blocking calls built on them, and the log pattern parser. `dafny
verify dfyconfig.toml` checks everything.

Objects that the source updates in place are classes (`Timers.TimerManager`,
`IOManagers.IOManager`, `Schedulers.Scheduler`, `FdManagers.FdManager`,
`Fibers.FiberThread`); each method is proved to produce the state that a
specification function gives. Concurrent behaviour is a step machine, one step
per locked section or atomic access, over those functions; its theorems hold for
every run.

| file | what it holds |
|---|---|
| `Timers.dfy`, `TimerRuns.dfy` | the ordered timer set; every interleaving of its locked sections |
| `Events.dfy`, `IOManager.dfy` | the event table, its contexts and the kernel's interest, as values and as objects |
| `EventRuns.dfy`, `EventReach.dfy` | every interleaving of its operations: conservation; what the kernel watches and the vector finds |
| `Scheduler.dfy`, `SchedulerMachine.dfy` | the scheduler's sections; run and idle with n workers as a machine |
| `SchedulerHistory.dfy`, `SchedulerWake.dfy`, `SchedulerQuiet.dfy` | counters and task history; wake-ups; quiescence with one worker |
| `SchedulerHandover.dfy`, `SchedulerNotice.dfy`, `SchedulerShared.dfy` | what workers hand back to the queue; notices of new tasks; the pipe, the pending counter and the timer set |
| `SchedulerStop.dfy`, `SchedulerCareful.dfy`, `SchedulerTwoWorkers.dfy` | stopping and starting again with n workers; a condition for callers; runs that go wrong |
| `Ownership.dfy`, `OwnedFunctions.dfy` | who may resume a fiber, and what becomes of functions, with one worker |
| `HookCalls.dfy`, `HookWaits.dfy`, `HookTimeouts.dfy` | do_io, connect and the sleeps, racing timers against readiness; their registrations; their timeouts and reports |
| `Locks.dfy`, `LockGraph.dfy` | lock order and absence of deadlock; which locks are taken, nested and retaken |
| `Fibers.dfy` | call, yield and reset on one thread |
| `FdFlags.dfy`, `FdManager.dfy`, `FdRaces.dfy` | the virtual O_NONBLOCK flag; the table of tracked descriptors; racing lookups in it |
| `LogPattern.dfy` | parsing, printing and formatting of log patterns |

Where the code misses its evident intent the model keeps the code and says when
it works, in both directions where a name ends in Iff:

- Event slots are emptied on a copy (`auto event_ctx`), so a slot is never
  free again. `clears == false` is the code, `clears == true` the intent; the
  table and history theorems hold for both, and `SlotsServeOnce` says what the
  difference is.
- A new `FdContext` has no initial mask: `NewContextsConsistentIff`.
- Growing the vector does not look at the size again, so racing growers can cut
  it. That loses no registration, because the kernel still points to the context,
  but cancelEvent, delEvent and cancelAll no longer find it, and a close then
  strands it: `ReachIff`, `ResizeFitsIff`, `InReachIff`, `RacingGrowersLose`,
  `RacingGrowersOverrun`.
- Looking up a tracked descriptor does not look again before it creates:
  `CallersAgreeIff`, `RacingGetsDisagree`.
- Readiness is dispatched without masking it: `ReadyEffect`, `FailsExactlyWhen`.
- shouldStop overlooks work between the dequeue and `++m_active_threads`, between
  `--m_active_threads` and the requeue, between `getExpiredFuncs` and `schedule`,
  and a timer added after it looked: `StopIsFinalIff`, with the runs
  `StopsWithWorkInHand` and `StopsWithATimer`.
- What is then left when all workers have returned: tasks, exactly when the last
  worker left `run` with a done fiber in hand and tasks queued (`NoTaskLostIff`,
  `LosesATask`, and for callers `CarefulRunsLoseNoTask`); timers and events, only
  if a worker called a task after its own idle fiber had ended
  (`NothingLeftUnlessLate`, `AbandonsATimer`).
- A worker that has found the queue empty and is not yet counted as idle is told
  nothing of a new task and may wait 3000 ms: `NoLostTaskWakeup`, `PushNoticedIff`,
  `TaskComesTooEarly`.
- A dequeued done fiber stays counted for ever: `LeakBlocksStop`.
- A fiber registers before it yields: `QueuedWhileRunning`,
  `QueuedIsCallableIff`.
- connect takes being woken for being connected: `UndisturbedIsGenuine`,
  `DisturbedIsFooled`, `DisturbsIff`, `ConnectIsFooled`.
- A timeout that comes between its timer and the registration is lost on the
  call: `TimeoutReachesIff`, `TimeoutComesTooEarly`.
- `MutexWriteGuard` does not set its flag: `LeakingOpsIff`, `LeakedLockBlocks`.
- `sleep` and `nanosleep` overflow 32 bits: `SleepIsLongEnoughIff`,
  `NanosleepIsLongEnoughIff`.
- `F_SETFL` changes the shown flag before the kernel answers, a socket created
  non-blocking is shown as blocking, and FIONBIO reaches the kernel:
  `ShownAsPlainIff`, `RefusedIff`, `FlagsShownAsPlain`, `KernelNonblockIff`.
- `Fiber::call` admits a fiber that ended by an exception: `CallAssertionGap`.
- The repository's README lists the key `%r`; the parser has no such key, so a
  pattern stops there (`ErrorKeepsPrefix`).

Assertions are active in the source's build, so a failed one is an outcome of
its own (`Abort`, `Died`, or a false result). The clock, the addresses of timer
objects, the kernel's answers and the order in which threads run are parameters
or free choices. The kernel is taken to report an edge for every write to the
tickle pipe, and to drop an undelivered edge only when the pipe is empty. Locks
are scoped as the guards intend.

## Model

| member | source | states |
|---|---|---|
| `Timers.SortedIsCanonical` | src/timer.h:26-38 | the comparator's order determines the container: two sorted sequences with the same timers are equal |
| `Timers.FilterExact` | src/timer.cpp:101-110 | the filter keeps exactly the timers with deadline <= now, in strictly increasing (deadline, address) order, and leaves exactly the others |
| `Timers.Timer.constructor` | src/timer.h:40-48 | a timer is due one period after its creation, modulo 2^64 |
| `Timers.TimerManager.LowerBound` | src/timer.h:26-38 | binary search by the comparator splits the set at the key |
| `Timers.TimerManager.Erase` | src/timer.cpp:32-35 | erasing by key finds the timer exactly when it is armed and removes only it |
| `Timers.TimerManager.Insert` | src/timer.cpp:51-64 | insertion adds the entry, keeps the order, and reports exactly whether it is now the earliest |
| `Timers.TimerManager.AddTimer` | src/timer.cpp:13-17 | the new timer is armed with its deadline modulo 2^64; onFirstTimerChanged is due exactly when its deadline, then its address, is before every other's |
| `Timers.TimerManager.Cancel` | src/timer.cpp:32-35 | succeeds exactly on an armed timer, which is not armed afterwards |
| `Timers.TimerManager.RefreshErase` | src/timer.cpp:37-47 | first section of refresh: the deadline changes only after the timer is out of the set |
| `Timers.TimerManager.Refresh` | src/timer.cpp:37-49 | an armed timer is moved to now + period; any other is left alone and false returned |
| `Timers.TimerManager.HasTimers` | src/timer.cpp:84-87 | true exactly when some timer is armed |
| `Timers.TimerManager.GetNextTimeMs` | src/timer.cpp:70-82 | the minimum remaining time over all armed timers, 0 if one is overdue, the all-ones word if none |
| `Timers.TimerManager.CollectDue` | src/timer.cpp:101-110 | the collecting loop takes out the filter's timers in order, with their callbacks |
| `Timers.TimerManager.Rearm` | src/timer.cpp:112-117 | the second loop adds each recurring expired timer one period later |
| `Timers.TimerManager.GetExpiredFuncs` | src/timer.cpp:89-118 | appends the filter's callbacks; the set becomes the unexpired timers plus the advanced recurring ones |
| `TimerRuns.StepKeepsInv` | src/timer.cpp:32-118 | each locked section keeps: stored key = current key, and every timer in exactly one place |
| `TimerRuns.RunsConserve` | src/timer.cpp:32-118 | the same over every interleaving |
| `TimerRuns.AddArms` | src/timer.cpp:51-64 | a new timer is armed with its own period, function and kind, others untouched |
| `TimerRuns.CancelDisarmsIff` | src/timer.cpp:32-35 | cancel counts exactly on an armed timer, which is then not found, others untouched |
| `TimerRuns.RefreshRestartsIff` | src/timer.cpp:37-49 | the two sections of refresh restart an armed timer at now + period, and do nothing to any other |
| `TimerRuns.OneShotOnce` | src/timer.cpp:101-117 | in every run a one-shot timer is collected once or cancelled once, never both |
| `TimerRuns.CancelIsFinal` | src/timer.cpp:32-49 | after a successful cancel no later step changes, collects, refreshes or finds the timer |
| `TimerRuns.RunsSteady` | src/timer.cpp:101-117 | in every run each pending deadline is on the grid of its last arming, modulo 2^64 |
| `TimerRuns.NoDrift` | src/timer.cpp:101-117 | in every run, after k firings a timer armed at s is due at s + (k+1)p modulo 2^64; that is s + (k+1)p exactly when it fits 64 bits, and then k <= floor((T - s) / p) |
| `TimerRuns.PollsCatchUp` | src/timer.cpp:89-118 | repeated polls at a fixed T fire a recurring timer whose deadline did not wrap up to exactly floor((T - s) / p) times and then stop |
| `TimerRuns.ZeroPeriodFiresForever` | src/timer.cpp:112-117 | with period zero they never stop |
| `Events.AddEffect` | src/iomanager.cpp:63-91 | addEvent's locked part makes one registration and changes no other; it aborts exactly when the slot is occupied or the kernel refuses |
| `Events.AddWatches` | src/iomanager.cpp:65-73 | in a table the kernel agrees with, it refuses exactly when it already watches for another context of the descriptor, and agrees afterwards |
| `Events.AddEventEffect` | src/iomanager.cpp:39-91 | addEvent without interruption makes exactly the registration asked for, on the descriptor's context, new exactly when the vector was too small; the exact abort condition |
| `Events.AddEventWatches` | src/iomanager.cpp:65-73 | the kernel then watches the descriptor for the event, for that context |
| `Events.DelEffect` | src/iomanager.cpp:102-122 | delEvent takes exactly the registration of its context without waking it, or finds the bit clear and changes nothing |
| `Events.CancelEffect` | src/iomanager.cpp:133-152 | cancelEvent schedules exactly the registered waiter, or finds the bit clear and changes nothing |
| `Events.CancelAllEffect` | src/iomanager.cpp:162-191 | cancelAll schedules every waiter of its context, READ first |
| `Events.DelEventEffect` | src/iomanager.cpp:93-122 | delEvent by descriptor: the verdict, and exactly the registration asked for leaves, unwoken |
| `Events.CancelEventEffect` | src/iomanager.cpp:124-152 | cancelEvent by descriptor: the verdict, exactly the waiter asked for is scheduled, every other registration stays |
| `Events.CancelAllByFdEffect` | src/iomanager.cpp:154-191 | cancelAll by descriptor: the verdict, exactly its waiters are scheduled, READ first |
| `Events.ReadyEffect` | src/iomanager.cpp:193-244 | readiness on the context in data.ptr schedules exactly the waiters of the reported events, after EPOLLHUP or EPOLLERR of all registered ones; it aborts exactly on a report naming a registered event and one that is not |
| `Events.HangupWakesAll` | src/iomanager.cpp:198-241 | EPOLLHUP or EPOLLERR wakes every waiter of the context, READ first, whatever else is reported, and never aborts |
| `Events.DelWatches` | src/iomanager.cpp:108-121 | delEvent's epoll_ctl is legal and keeps the kernel's interest equal to the mask |
| `Events.CancelWatches` | src/iomanager.cpp:139-151 | the same for cancelEvent |
| `Events.CancelAllWatches` | src/iomanager.cpp:167-190 | the same for cancelAll |
| `Events.ReadyWatches` | src/iomanager.cpp:219-243 | the same for readiness |
| `Events.ResizeEffect` | src/iomanager.cpp:20-28 | a resize, up or down, changes no context and no registration; a context stays in the vector exactly when its descriptor is below the new size |
| `Events.ReachIff` | src/iomanager.cpp:93-191 | delEvent, cancelEvent and cancelAll reach a live registration exactly when its context is still the vector's entry |
| `Events.CloseKeepsIff` | src/hook.cpp:329-343 | the kernel's close keeps table and kernel agreed exactly when it did not watch the descriptor; after the hook's cancelAll that is exactly when the watched context was in the vector |
| `Events.NewContextsConsistentIff` | src/iomanager.h:68-72 | new contexts form a consistent table exactly when their uninitialised masks are empty |
| `Events.StartInv` | src/iomanager.cpp:14-18 | the table of a new IOManager is consistent |
| `IOManagers.IOManager.constructor` | src/iomanager.cpp:14-18 | 32 fresh contexts in the vector |
| `IOManagers.IOManager.ResizeContexts` | src/iomanager.cpp:20-28 | the vector is cut, or padded with new contexts; cut contexts live on |
| `IOManagers.IOManager.AddEvent` | src/iomanager.cpp:39-91 | its sections run without interruption give, in place, the table and verdict of Events.AddEvent; EventRuns interleaves the sections |
| `IOManagers.IOManager.DelEvent` | src/iomanager.cpp:93-122 | in place, the table and verdict that Events.DelEvent gives |
| `IOManagers.IOManager.CancelEvent` | src/iomanager.cpp:124-152 | in place, the table and verdict that Events.CancelEvent gives |
| `IOManagers.IOManager.Dispatch` | src/iomanager.h:52-66 | FdContext::scheduleEvent: mask bit cleared, waiter scheduled |
| `IOManagers.IOManager.CancelAll` | src/iomanager.cpp:154-191 | in place, the table and verdict that Events.CancelAll gives |
| `IOManagers.IOManager.ScheduleEvent` | src/iomanager.cpp:193-244 | in place, the table and verdict that Events.Ready gives |
| `EventRuns.StepGood` | src/iomanager.cpp:39-244 | every step of any thread, cutting resizes and closes included, keeps the counter, the slots and the registration history |
| `EventRuns.ExactlyOnceWake` | src/iomanager.cpp:63-244 | in every run registrations made = pending + enqueued + deleted, each is in exactly one of these, none is enqueued twice, and what is enqueued is what was registered |
| `EventReach.AddEventIsRun` | src/iomanager.cpp:39-91 | addEvent without interruption is the look, the resize or fetch, and the commit of the interleaved model, with the same result or abort |
| `EventReach.TableStaysConsistent` | src/iomanager.cpp:65-243 | all along a run the kernel's interest equals every context's mask exactly when every close is of an unwatched descriptor; slots and counter then agree too |
| `EventReach.ResizeFitsIff` | src/iomanager.cpp:42-53 | a resize decided on an old size keeps every needed context in the vector exactly when none of them, and no descriptor about to be fetched, is beyond the new size |
| `EventReach.InReachIff` | src/iomanager.cpp:39-244 | all along a run the vector finds every needed context exactly when every resize fits |
| `EventReach.HookedCloseIsClean` | src/hook.cpp:329-343 | then cancelAll leaves nothing for the kernel to forget |
| `EventReach.FailsExactlyWhen` | src/iomanager.cpp:49-80 | with emptied slots an assertion fails exactly on a double registration, a descriptor watched for another context, or a partly stale report without hangup; a lookup overruns the vector exactly when it was cut since the look |
| `EventReach.SlotsServeOnce` | src/iomanager.h:45-66 | as written, registering aborts exactly when the event was registered before on the same context or the descriptor is watched for another |
| `EventReach.CutOffStillWakes` | src/iomanager.cpp:193-244 | after a cut readiness still wakes the waiter while cancelEvent, delEvent and cancelAll find nothing |
| `EventReach.RacingGrowersLose` | src/iomanager.cpp:42-53 | a run in which growers for 40 and 100 race, the registration of 100 is out of reach, and the hooked close strands it |
| `EventReach.RacingGrowersOverrun` | src/iomanager.cpp:53-56 | a run in which addEvent fetches beyond the vector |
| `Schedulers.Scheduler.Schedule` | src/scheduler.h:34-42 | in place, the machine's Scheduled step with the task, followed by its write; a byte is written exactly when the list was empty and a thread idle |
| `Schedulers.Scheduler.ScheduleAll` | src/scheduler.h:44-54 | the loop over the range is, in place, one Scheduled step of the machine with the whole batch and at most one write |
| `Schedulers.Scheduler.TakeTask` | src/scheduler.cpp:113-130 | in place, the machine's Take or FindEmpty by that worker; the result is the task it then has in hand, and needTickle its `more` |
| `Schedulers.Scheduler.ShouldStop` | src/scheduler.cpp:212-217 | the answer decides which of the machine's acts DecideStop and DecideGoOn is enabled |
| `Schedulers.Scheduler.Start` | src/scheduler.cpp:57-70 | the machine's Restarted state unless stopping; its assertion fails exactly when threads are running |
| `Schedulers.Scheduler.StopBegin` | src/scheduler.cpp:72-83 | the flags, for a first stop the machine's Stop step, and one tickle with its write per thread: that many bytes exactly when a thread is idle |
| `Schedulers.Scheduler.StopAndStartAgain` | src/scheduler.cpp:57-97 | once the joins have seen every worker return, the end of stop and the next start give the machine's Restarted state |
| `Schedulers.IdleTimeout` | src/scheduler.cpp:236-247 | the wait is the time to the earliest timer, capped at 3000 ms |
| `SchedulerMachine.EarliestExists` | src/timer.cpp:70-76 | a timer set has an earliest deadline, or is empty |
| `SchedulerHistory.StepBase` | src/scheduler.cpp:132-192 | m_idle_threads and m_active_threads count the workers in idle and in a counted task, plus each done fiber dequeued |
| `SchedulerHistory.StepHistory` | src/scheduler.cpp:113-178 | tasks leave in the order they came; each dequeued task is called once, dropped as done, or in exactly one hand |
| `SchedulerHistory.RunInv` | src/scheduler.cpp:108-193 | the same over every run of any number of workers |
| `SchedulerHistory.NoTaskLostIff` | src/scheduler.cpp:72-97 | once all workers have returned every task was called once, dropped as a finished fiber, or is left in the queue, and some are left exactly when the last worker left with a done fiber in hand and tasks queued |
| `SchedulerHistory.LeakBlocksStop` | src/scheduler.cpp:136-150 | after one done fiber is dequeued no idle fiber ever ends |
| `SchedulerHandover.DebtsArePaid` | src/scheduler.cpp:153-178 | in every run the functions of the timers a worker collected, and a fiber that yielded READY, are in that worker's hand or were scheduled once, in order, at a place of their own |
| `SchedulerHandover.CollectedFunctionsAreCalled` | src/scheduler.cpp:258-263 | once all workers have returned every collected timer's function was called, once per collection, unless tasks were left |
| `SchedulerHandover.QueueIsWhatWasScheduled` | src/scheduler.h:34-54 | in every run the queue's history is exactly what was given to schedule, in order |
| `SchedulerHandover.ExpireIsGetExpiredFuncs` | src/timer.cpp:89-118 | what a worker then owes is the list getExpiredFuncs returns |
| `SchedulerHandover.ExpiredTimersAreQueued` | src/scheduler.cpp:258-263 | a poll and its schedule: the due timers leave, recurring ones return a period on, and their functions are at the end of the queue in deadline order |
| `SchedulerShared.WakesIff` | src/scheduler.cpp:248-256 | epoll_wait ends by timeout, pipe or event; EINTR computes the wait again |
| `SchedulerShared.TimeoutFindsItsTimer` | src/scheduler.cpp:236-248 | a wait that ends by its timeout has not ended before the timer it was computed from is due |
| `SchedulerShared.OneWakePerEdge` | src/scheduler.cpp:266-272 | a notification wakes one worker until the next write |
| `SchedulerShared.NotifiedWorkerDrains` | src/scheduler.cpp:266-272 | the worker it wakes does not leave idle before it has drained the pipe |
| `SchedulerShared.DrainEmpties` | src/scheduler.cpp:266-272 | a drained pipe is empty until the next write |
| `SchedulerShared.LeavesIdleIff` | src/scheduler.cpp:226-279 | a round through idle ends by the yield after the reported events, or by the stop |
| `SchedulerShared.StopChecksIff` | src/scheduler.cpp:212-217 | shouldStop's two looks, under m_mutex, say exactly what they ask |
| `SchedulerShared.CalledUnlessDone` | src/scheduler.cpp:148-159 | a dequeued task is called exactly unless it is a finished fiber, which is dropped |
| `SchedulerShared.PendingCounts` | src/iomanager.cpp:74-150 | in every run m_pending_count is the registrations made less those deleted, cancelled or fired |
| `SchedulerShared.TimersChangeIff` | src/timer.cpp:32-118 | which timers are in the set after any step |
| `SchedulerWake.ReadIdleWatched` | src/scheduler.cpp:196-202 | skipping the tickle because nobody is idle loses no timer |
| `SchedulerWake.StepWatched` | src/scheduler.cpp:196-285 | every step keeps: a notification is coming, or some worker will wake for the earliest timer by itself |
| `SchedulerWake.NoLostTimerWakeup` | src/scheduler.cpp:233-279 | with all live workers blocked and no adder before its tickle, the pipe is notified or some wait ends by the earliest deadline |
| `SchedulerWake.WaitIsBounded` | src/scheduler.cpp:232-256 | a worker on its way through idle with a task queued reaches the next dequeue before its limit |
| `SchedulerWake.TaskWaitsAtMost` | src/scheduler.cpp:196-256 | with a task queued and a worker idle, tickled or not, a dequeue happens within 3000 ms |
| `SchedulerWake.TimersAreLateAtMost` | src/scheduler.cpp:232-263 | while some worker waits in idle, expired timers are collected within 3000 ms |
| `SchedulerNotice.TicklesIff` | src/scheduler.cpp:196-202 | schedule brings a notification exactly when the list was empty and a worker is in idle; the dequeue with tasks left, and stop, exactly when a worker is in idle |
| `SchedulerNotice.NoLostTaskWakeup` | src/scheduler.h:34-54 | a task that comes to an empty queue while a worker is in idle: in every continuation, until a dequeue, a notification is there or on its way, or a worker goes to the queue without waiting |
| `SchedulerNotice.PushNoticedIff` | src/scheduler.cpp:188-191 | and that is so exactly when a worker is in idle or at the queue |
| `SchedulerNotice.TaskComesTooEarly` | src/scheduler.cpp:129-189 | a run in which the only worker waits 3000 ms with a task queued |
| `SchedulerQuiet.QuiescentAtStop` | src/scheduler.cpp:180-230 | one worker: after shouldStop was true there is no task, timer, pending event or active task in any later state, and the worker can only leave run |
| `SchedulerStop.StopSeesNoCounted` | src/scheduler.cpp:132-192 | when shouldStop is true a worker has work in hand exactly at the three overlooked places |
| `SchedulerStop.AllCalledIff` | src/scheduler.cpp:129-138 | when shouldStop is true every task scheduled so far has been called exactly unless a worker is between its dequeue and its count |
| `SchedulerStop.StopIsFinalIff` | src/scheduler.cpp:212-217 | n workers: after shouldStop nothing is left and nothing appears in any continuation, exactly when no timer was added since it looked and no worker is at an overlooked place |
| `SchedulerStop.CleanStopsLeaveNothing` | src/scheduler.cpp:72-193 | n workers: if shouldStop never overlooked anything, every task was called exactly once and no timer or event is left when all have returned |
| `SchedulerStop.NothingLeftUnlessLate` | src/scheduler.cpp:180-186 | n workers: no task, timer or pending event is left unless a worker called a task after its own idle fiber had ended |
| `SchedulerStop.OneWorkerLosesNothing` | src/scheduler.cpp:72-193 | one worker: every task was called exactly once and no timer or event is left when run has returned |
| `SchedulerStop.RestartIsCleanIff` | src/scheduler.cpp:57-97 | start after stop begins as if new exactly when nothing was left and no done fiber was ever dequeued |
| `SchedulerStop.OneWorkerRestarts` | src/scheduler.cpp:57-97 | one worker: it always does |
| `SchedulerCareful.NeverSkips` | src/scheduler.cpp:148-148 | if fibers are scheduled only when unfinished and nowhere else, no worker meets a done fiber |
| `SchedulerCareful.CarefulRunsLoseNoTask` | src/scheduler.h:34-54 | n workers: under that condition on the callers every task ever scheduled was called exactly once when all have returned |
| `SchedulerTwoWorkers.StopsWithWorkInHand` | src/scheduler.cpp:129-138 | two workers: a run to shouldStop being true while a task is in hand |
| `SchedulerTwoWorkers.StopsWithATimer` | src/scheduler.cpp:212-217 | two workers: a run to shouldStop being true while a timer is armed |
| `SchedulerTwoWorkers.LosesATask` | src/scheduler.cpp:146-186 | two workers: a run after which both have returned and a function is still queued |
| `SchedulerTwoWorkers.AbandonsATimer` | src/scheduler.cpp:180-186 | two workers: a run after which both have returned, no task is queued, and a timer and an event are left |
| `Ownership.StepPlaces` | src/scheduler.cpp:108-193 | every step of the one worker, the running fiber or another thread, scheduling a new fiber included, keeps each unfinished fiber in exactly one place |
| `Ownership.SingleOwnership` | src/hook.cpp:98-189 | in every run a fiber can be resumed from exactly one place until it ends and from none afterwards; m_active_threads counts the executing task |
| `Ownership.LoopAssertionsHold` | src/scheduler.cpp:122-173 | the RUNNING assertion and call's assertion never fail, no done fiber is dequeued, the pooled fiber is reset only when ended |
| `Ownership.QueuedIsCallableIff` | src/scheduler.cpp:122-123 | a queued fiber may be called exactly when it is not still executing |
| `Ownership.QueuedWhileRunning` | src/hook.cpp:109-118 | a run in which a fiber is queued while still RUNNING |
| `OwnedFunctions.FunctionsConserved` | src/scheduler.cpp:159-178 | in every run the functions handed in, by schedule, timers and events, are those still waiting and those called or dropped |
| `OwnedFunctions.FunctionsShareAFiber` | src/scheduler.cpp:160-166 | a function runs on the kept fiber, or on a new one when none is kept |
| `OwnedFunctions.FiberIsKeptIff` | src/scheduler.cpp:150-177 | after a call a READY fiber is queued again, and the function fiber is kept and reset exactly when its function has ended |
| `OwnedFunctions.StatesChangeIff` | src/fiber.cpp:101-202 | which step leaves a fiber in which state |
| `HookCalls.StepInv` | src/hook.cpp:88-130 | every step of any call, callback or other thread keeps timers, flags and waits consistent |
| `HookCalls.HonestTimeouts` | src/hook.cpp:85-130 | do_io or connect reports its own ETIMEDOUT only after a timer of that same call expired and its whole timeout passed since its first wait |
| `HookCalls.ForeignCallbackOnlyWakes` | src/hook.cpp:99-106 | a timeout callback of another or a finished call never sets this call's flag; it can only wake it, and not as readiness |
| `HookCalls.WokenWithoutFlag` | src/hook.cpp:118-126 | a woken do_io whose flag is clear goes back to its system call; a woken connect reports what SO_ERROR says |
| `HookTimeouts.EndsIff` | src/hook.cpp:118-130 | a call ends with the system call's result, with ETIMEDOUT exactly when its flag is set at the check, with SO_ERROR, or as a sleep whose callback ran |
| `HookTimeouts.FlaggedWaitTimesOut` | src/hook.cpp:118-127 | once its flag is set on the way into or out of a wait, in every continuation a call is still waiting or has reported ETIMEDOUT |
| `HookTimeouts.OwnTimeoutEnds` | src/hook.cpp:99-126 | in every run the cancelEvent after the flag ends a registered wait in ETIMEDOUT |
| `HookTimeouts.UnansweredTimesOut` | src/hook.cpp:88-126 | from any state a call that would block and has a timeout reports ETIMEDOUT when only the clock answers |
| `HookTimeouts.ReportIsFinal` | src/hook.cpp:122-130 | a report never changes |
| `HookTimeouts.NoTimerLeftBehind` | src/hook.cpp:118-121 | in every run a call has at most one armed timer, and none once it is past its wait |
| `HookWaits.ConnectReports` | src/hook.cpp:245-272 | connect's error is always a failed attempt, and its success after readiness an established connection |
| `HookTimeouts.ReadinessIsNoted` | src/hook.cpp:245-253 | a call is woken as ready exactly by readiness of its key |
| `HookTimeouts.ConnectReportsOutcome` | src/hook.cpp:262-272 | connect woken once its attempt is settled reports how it ended |
| `HookWaits.UndisturbedIsGenuine` | src/hook.cpp:245-272 | in every run in which only readiness wakes a connect in progress its success is genuine |
| `HookWaits.DisturbedIsFooled` | src/hook.cpp:245-272 | every other wake of a connect in progress can end in a false success |
| `HookWaits.DisturbsIff` | src/hook.cpp:245-272 | those wakes are exactly the dispatches of its key other than readiness and the cancelEvents of timeout callbacks on it, while it is parked in progress |
| `HookWaits.ConnectIsFooled` | src/hook.cpp:99-106 | a run in which the late callback of a finished do_io makes a connect report success while in progress |
| `HookWaits.StepWaits` | src/hook.cpp:93-127 | every step keeps registrations, parked calls, timers, callbacks and pending cancelEvents matched |
| `HookWaits.TimeoutReachesIff` | src/hook.cpp:98-118 | a parked call is registered, and its timeout is still coming exactly unless the flag was set and its cancelEvent over when the call registered |
| `HookWaits.TimeoutComesTooEarly` | src/hook.cpp:99-109 | a run in which a call parks with its timeout already spent |
| `HookCalls.SleepsOnceAndLongEnough` | src/hook.cpp:139-189 | a sleeping fiber is scheduled exactly once and not before its time; until then its timer or callback is there |
| `HookTimeouts.SleeperWakes` | src/hook.cpp:139-189 | from any state a sleep is over, and its fiber scheduled, when its time has passed and its callback has run |
| `HookCalls.SleepIsLongEnoughIff` | src/hook.cpp:148-152 | sleep is not shortened exactly when seconds * 1000 fits 32 bits |
| `HookCalls.UsleepIsLongEnough` | src/hook.cpp:166-170 | usleep loses less than one millisecond |
| `HookCalls.NanosleepIsLongEnoughIff` | src/hook.cpp:184-186 | nanosleep is not shortened exactly when its milliseconds fit a signed int |
| `HookCalls.NanosleepExpiresAtOnce` | src/hook.cpp:184-186 | nanosleep of 2147484 s has a deadline in the past |
| `Locks.EveryOpDisciplined` | src/iomanager.cpp:154-162 | each listed operation takes descriptor, scheduler, timer, logging and descriptor-table locks in this order, the event table's lock released first, and joins with none held; start waits for its threads under m_mutex |
| `Locks.NoDeadlock` | src/scheduler.cpp:72-97 | in every run of any threads, while one has not finished some thread can go on |
| `Locks.NoWaitCycle` | src/scheduler.cpp:212-217 | no reachable state has a cycle of lock waits |
| `Locks.MutualExclusion` | src/mutex.h:112-137 | in every run a lock held exclusively is held by nobody else |
| `Locks.AcquiredIsExclusive` | src/mutex.h:112-137 | after an exclusive acquisition nobody else acquires the lock before its release |
| `Locks.JoinedHaveEnded` | src/scheduler.cpp:84-97 | a join is passed only when the thread has ended |
| `Locks.StartWaitsForThreads` | src/thread.cpp:16-20 | start does not get past the constructor of a thread that has not run |
| `LockGraph.StartAndStopWait` | src/scheduler.cpp:57-97 | start waits under m_mutex for each thread to start, stop for each to end |
| `LockGraph.TakesIff` | src/iomanager.cpp:39-191 | the locks each operation takes |
| `LockGraph.LockGraphIff` | src/iomanager.cpp:39-244 | which lock some operation takes while it holds which other |
| `LockGraph.RetakesIff` | src/timer.cpp:37-118 | addEvent lets go of the table's lock and takes it again, refresh and getExpiredFuncs the timers' lock, nobody else |
| `Locks.OpReleasesIff` | src/mutex.h:112-137 | with the write guard as written an operation gives back every lock it takes exactly when the guard's uninitialised flag is true or it uses no write guard |
| `LockGraph.LeakingOpsIff` | src/mutex.h:112-137 | so a lock may stay locked exactly after a growing addEvent, any change of the timers, and creating or deleting a tracked descriptor, when the flag happens to be false |
| `Locks.LeakedLockBlocks` | src/mutex.h:112-137 | a thread that ends holding a lock blocks for ever every thread waiting for it |
| `Fibers.FiberThread.Call` | src/fiber.cpp:101-114 | the fiber becomes current and RUNNING, unless its state fails the assertion or it is the current main fiber |
| `Fibers.FiberThread.Yield` | src/fiber.cpp:127-140 | back to the main fiber, the fiber left in SUSPEND; nothing on the main fiber |
| `Fibers.FiberThread.YieldReady` | src/fiber.cpp:142-155 | back to the main fiber, the fiber left in READY |
| `Fibers.FiberThread.Finish` | src/fiber.cpp:184-202 | back to the main fiber, the fiber left in TERM, or EXCEPT after a throw |
| `Fibers.FiberThread.Reset` | src/fiber.cpp:77-91 | the fiber is READY again |
| `Fibers.FiberDiscipline` | src/fiber.cpp:77-202 | over any operations at most one task fiber is RUNNING and it is current; calls and returns alternate and match; call's assertion holds |
| `Fibers.StatesAreAsLeft` | src/fiber.cpp:101-202 | over any operations every fiber not reset is in the state in which control last left it |
| `Fibers.DoneStays` | src/fiber.cpp:77-91 | a done fiber changes state only by reset |
| `Fibers.CallAssertionGap` | src/fiber.cpp:107-107 | call's assertion is weaker than "not done" exactly by EXCEPT |
| `FdFlags.BitsAgree` | src/hook.cpp:349-379 | over any operations all other flag bits are those of a plain descriptor |
| `FdFlags.SetFlagsBits` | src/hook.cpp:349-379 | F_SETFL changes bits 10, 11, 13, 14 and 18 and no other; O_NONBLOCK is bit 11 |
| `FdFlags.FlagsShownAsPlain` | src/hook.cpp:349-379 | after accepted operations F_GETFL equals a plain descriptor's, exactly unless nothing was set yet on a socket created non-blocking |
| `FdFlags.ShownAsPlainIff` | src/hook.cpp:349-379 | over any accepted and refused operations F_GETFL equals a plain descriptor's exactly when the flag last asked for is the one last granted |
| `FdFlags.RefusedIff` | src/hook.cpp:357-363 | a refused F_SETFL or FIONBIO keeps the agreement exactly when it asked for the flag already there |
| `FdFlags.KernelNonblockIff` | src/hook.cpp:438-446 | the kernel flag is non-blocking, so do_io does not block, exactly until an accepted FIONBIO clears it with no accepted operation after |
| `FdManagers.FdCtx.constructor` | src/fd_manager.cpp:9-53 | a new context: kind from fstat, user flag clear, no timeouts |
| `FdManagers.FdCtx.SetTimeout` | src/fd_manager.cpp:55-69 | sets the one timeout and leaves the other |
| `FdManagers.FdManager.Get` | src/fd_manager.cpp:75-100 | without interruption: the existing context, or a fresh one whose socket becomes non-blocking in the kernel; other entries unchanged |
| `FdRaces.CallersAgreeIff` | src/fd_manager.cpp:80-98 | with racing gets every caller has the table's context exactly when every creation finds the entry still empty |
| `FdRaces.SectionsAre` | src/fd_manager.cpp:80-108 | what the look, the creation and del do to the table and to their caller |
| `FdRaces.RacingGetsDisagree` | src/fd_manager.cpp:80-98 | a run in which two gets make two contexts and the first caller keeps the wrong one |
| `FdManagers.FdManager.Del` | src/fd_manager.cpp:102-108 | the entry is gone, others unchanged |
| `FdManagers.FdManager.FcntlSetFl` | src/hook.cpp:349-364 | in place, the socket that FdFlags.Hooked gives; a plain F_SETFL on other descriptors |
| `FdManagers.FdManager.FcntlGetFl` | src/hook.cpp:366-379 | the shown flags of a tracked socket, the kernel's otherwise |
| `FdManagers.FdManager.IoctlNbio` | src/hook.cpp:432-447 | in place, the socket that FdFlags.Hooked gives for FIONBIO |
| `LogPattern.ReadArgument` | src/log.cpp:319-334 | the argument runs to the first '}' or, unclosed, to the end |
| `LogPattern.InitItems` | src/log.cpp:304-347 | the loop with its found flag computes the items of the grammar |
| `LogPattern.ParseConcat` | src/log.cpp:304-347 | parsing distributes over concatenation at token boundaries |
| `LogPattern.ErrorKeepsPrefix` | src/log.cpp:307-342 | a doubled '%' or unknown key keeps exactly the items of the well-formed prefix |
| `LogPattern.KeysParseIff` | src/log.cpp:197-211 | a '%' and a character are a directive exactly for the eleven keys |
| `LogPattern.UnclosedTakesRest` | src/log.cpp:319-334 | an argument that is not closed is the rest of the pattern |
| `LogPattern.RoundTrip` | src/log.cpp:304-347 | parsing the printed form of any printable items gives them back |
| `LogPattern.PrintIsNormalForm` | src/log.cpp:304-347 | every pattern, even a malformed one, parses to printable items whose text parses to the same items |
| `LogPattern.ShortRoundTripIff` | src/log.cpp:319-336 | with empty arguments left out the round trip holds exactly when no such directive is directly followed by a literal '{' |
| `LogPattern.Format` | src/log.cpp:183-195 | the items' texts in order |
| `LogPattern.ItemsFormatInPlace` | src/log.cpp:183-189 | every item shows at its own place, a directive what the event shows for its key and argument |
| `LogPattern.PatternsFormatSideBySide` | src/log.cpp:183-195 | joining patterns joins their output |
| `LogPattern.PlainTextFormatsToItself` | src/log.cpp:183-195 | a pattern without '%' prints itself |

## Left out

- SchedulerStop.NothingLeftUnlessLate: is one direction; a call after the end of the idle fiber that arms, registers and schedules nothing leaves nothing.
- SchedulerWake.TimersAreLateAtMost: makes the same assumptions about the clock as SchedulerWake.TaskWaitsAtMost.
- SchedulerWake.TaskWaitsAtMost: counts only clock time while every worker waits, runs a task or is gone, and no EINTR; the scheduling delays of the operating system are not part of the model.
- SchedulerCareful.CarefulRunsLoseNoTask: its condition also binds wakes by readiness: with several workers a fiber that has registered and not yet yielded can be scheduled while executing, which no caller controls.
- Ownership.SingleOwnership: is for one worker and for fibers that are scheduled by hand at most once, when new, and park only through hooked calls or YieldReady, and no thread deletes another fiber's registration; with more workers QueuedWhileRunning shows the gap.
- run, idle and do_io are step machines and not methods: other threads act in the middle of their loops, and run and idle have no end of their own.
- A clock that goes backwards: GetCurrentMs reads the wall clock; in the machines of the scheduler and of the hooked calls it does not decrease.
- Tasks pinned to a thread: the dequeue scan does not advance past them.
- The early returns of do_io and connect (not hooked, untracked, closed, not a socket, user non-blocking) and the one-line read, write, send, recv and accept wrappers: they pass the call through.
- The other fcntl commands and setsockopt or getsockopt forwarding: pass-through only.
- FdCtx::isClose: no code sets it.
- Events other than READ and WRITE: getContext asserts on them.
- Negative descriptors other than -1: the code indexes its tables with them.
- Memory: shared_ptr lifetimes, fiber stacks, destructor order; the weak reference to timer_info is in HookCalls.
- Log appenders, dates and file names in log lines, LoggerManager: input and output.
- Thread, Semaphore, Singleton and the backtraces: thin wrappers.
