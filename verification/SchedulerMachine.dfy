/**
 * The scheduler of src/scheduler.h and src/scheduler.cpp with any number of
 * workers, as a step machine. One step is one section under m_mutex or one
 * access to a shared counter, the timer set, the pipe or epoll.
 *
 * A worker runs Scheduler::run, whose idle fiber runs Scheduler::idle; its
 * program counter says which access comes next. Tasks are unpinned.
 */
module SchedulerMachine {
  import opened Basics
  import opened Timers

  datatype Task = Fiber(id: nat) | Func(id: nat)

  const EPOLL_WAIT_TIMEOUT_MS: nat := 3000

  // What a wait was computed from: the earliest deadline, or nothing armed.
  datatype Basis = Never | At(deadline: nat)

  datatype Pc =
    | Fetch                                        // run: next is the scan of m_tasks
    | Counting(i: nat, more: bool)                 // task number i in hand, ++m_active_threads next
    | Offering(i: nat)                             // tickle next, because tasks are left
    | Deciding(i: nat)                             // look at the task
    | Executing(i: nat)                            // inside call()
    | Back(ready: Option<Task>)                    // --m_active_threads next
    | Requeueing(task: Task)                       // schedule the READY fiber
    | EnteringIdle                                 // ++m_idle_threads next
    | StopCheck                                    // idle: shouldStop, hasTimers first
    | StopCheck2                                   // no timers seen, m_mutex held
    | Computing                                    // getNextTimeMs
    | Computed(basis: Basis, at: nat)              // epoll_wait next; computed at time `at`
    | Blocked(basis: Basis, at: nat, since: nat)   // in epoll_wait since time `since`
    | Woken(pipe: bool)                            // getExpiredFuncs next; pipe reported?
    | Carrying(funcs: seq<Task>, pipe: bool)       // schedule the expired callbacks
    | Dispatching(pipe: bool)                      // the loop over the reported events
    | Leaving                                      // --m_idle_threads next
    | Exited                                       // run has returned

  datatype Worker = Worker(pc: Pc, idleDone: bool)

  datatype State = State(
    workers: seq<Worker>,
    tasks: seq<Task>,        // m_tasks
    active: int,             // m_active_threads
    idle: int,               // m_idle_threads
    pending: nat,            // m_pending_count
    stopping: bool,          // m_auto_stop and m_stopping
    timers: set<Entry>,      // m_timers
    notified: bool,          // epoll has an undelivered edge for the pipe
    bytes: nat,              // bytes in the pipe
    inserting: nat,          // threads in onFirstTimerChanged, m_idle_threads not yet read
    writing: nat,            // threads in tickle that saw an idle thread, write not yet done
    now: nat,
    // history
    pushed: seq<Task>,       // every task scheduled, in order
    taken: seq<Task>,        // every task dequeued, in order
    calls: seq<nat>,         // numbers of the tasks called, in order
    skipped: set<nat>,       // numbers of tasks dropped because the fiber was done
    done: set<nat>,          // fibers that have finished
    strayed: bool,           // the last worker left run with a done fiber in hand and tasks queued
    late: bool)              // a worker called a task after its own idle fiber had ended

  // Right after start: no work. The clock, the pipe and the fibers that have
  // finished may be left from before.
  ghost predicate Init(s: State) {
    && |s.workers| > 0 && (forall w :: 0 <= w < |s.workers| ==> s.workers[w] == Worker(Fetch, false))
    && s.tasks == [] && s.active == 0 && s.idle == 0 && s.pending == 0 && !s.stopping && s.timers == {}
    && s.pushed == [] && s.taken == [] && s.calls == [] && s.skipped == {} && !s.strayed && !s.late
  }

  datatype Act =
    // run
    | Take | FindEmpty                          // the scan of m_tasks, with and without a task
    | Count | Offer                             // ++m_active_threads; tickle
    | Call | Skip                               // call the task; drop a fiber that is done
    | ReturnReady(id: nat)                      // it yielded READY (a function as fiber `id`)
    | ReturnSuspended | ReturnDone              // it parked itself elsewhere; it ended
    | Uncount | Requeue
    | EnterIdle | Leave
    // idle
    | SeeTimers | SeeNoTimers                   // shouldStop, first half
    | DecideStop | DecideGoOn                   // shouldStop, second half
    | Compute | Block
    | WakeByTimeout | WakeByPipe | WakeByIo | Interrupt
    | Expire(at: nat, due: seq<Entry>)          // getExpiredFuncs, which read the clock at `at`
    | Deliver
    | Drain | Fire(task: Task) | YieldIdle

  datatype Step =
    | Work(w: nat, act: Act)          // a worker's own step
    | Push(batch: seq<Task>)          // schedule, by a running task or from outside
    | Insert(e: Entry)                // addTimer's insertion, first time or after a refresh
    | Remove(e: Entry)                // a timer is cancelled or taken out for a refresh
    | Register                        // addEvent
    | Withdraw                        // delEvent
    | CancelEvent(task: Task)         // cancelEvent: the waiter is scheduled
    | ReadIdle                        // tickle after a new first timer
    | Write                           // tickle's write
    | Forget                          // epoll drops the edge of a drained pipe
    | Stop                            // stop sets its flags
    | StopTickle                      // stop's tickles
    | Tick(t: nat)

  // ---- enabledness ----

  ghost predicate IsWorker(s: State, w: nat) { w < |s.workers| }

  // shouldStop holds m_mutex between its two reads.
  ghost predicate MutexFree(s: State) {
    forall w :: 0 <= w < |s.workers| ==> s.workers[w].pc != StopCheck2
  }

  // After stop only running tasks act.
  ghost predicate CanAct(s: State) {
    !s.stopping || exists w :: 0 <= w < |s.workers| && s.workers[w].pc.Executing?
  }

  function TimeoutFor(basis: Basis, at: nat): (r: nat)
    ensures r <= EPOLL_WAIT_TIMEOUT_MS
  {
    if basis.Never? || (basis.deadline > at && basis.deadline - at >= EPOLL_WAIT_TIMEOUT_MS) then EPOLL_WAIT_TIMEOUT_MS
    else if basis.deadline > at then basis.deadline - at
    else 0
  }

  // shouldStop after hasTimers.
  ghost predicate ShouldStop(s: State) {
    s.stopping && s.tasks == [] && s.active == 0 && s.pending == 0
  }

  ghost predicate IsDoneFiber(s: State, i: nat) {
    i < |s.taken| && s.taken[i].Fiber? && s.taken[i].id in s.done
  }

  ghost predicate ActEnabled(s: State, w: nat, a: Act)
    requires IsWorker(s, w)
  {
    var pc := s.workers[w].pc;
    match a
    case Take => pc.Fetch? && MutexFree(s) && s.tasks != []
    case FindEmpty => pc.Fetch? && MutexFree(s) && s.tasks == []
    case Count => pc.Counting?
    case Offer => pc.Offering?
    case Call => pc.Deciding? && pc.i < |s.taken| && !IsDoneFiber(s, pc.i)
    case Skip => pc.Deciding? && IsDoneFiber(s, pc.i)
    case ReturnReady(_) => pc.Executing? && pc.i < |s.taken|
    case ReturnSuspended => pc.Executing?
    case ReturnDone => pc.Executing? && pc.i < |s.taken|
    case Uncount => pc.Back?
    case Requeue => pc.Requeueing? && MutexFree(s)
    case EnterIdle => pc.EnteringIdle?
    case Leave => pc.Leaving?
    case SeeTimers => pc.StopCheck? && MutexFree(s) && s.timers != {}
    case SeeNoTimers => pc.StopCheck? && MutexFree(s) && s.timers == {}
    case DecideStop => pc.StopCheck2? && ShouldStop(s)
    case DecideGoOn => pc.StopCheck2? && !ShouldStop(s)
    case Compute => pc.Computing?
    case Block => pc.Computed?
    case WakeByTimeout => pc.Blocked? && pc.since + TimeoutFor(pc.basis, pc.at) <= s.now
    case WakeByPipe => pc.Blocked? && s.notified && s.bytes > 0
    case WakeByIo => pc.Blocked?
    case Interrupt => pc.Blocked?
    case Expire(at, due) => pc.Woken? && at <= s.now && Sorted(due) && Elems(due) == Due(s.timers, at)
    case Deliver => pc.Carrying? && MutexFree(s)
    case Drain => pc == Dispatching(true)
    case Fire(_) => pc.Dispatching? && s.pending > 0 && MutexFree(s)
    case YieldIdle => pc == Dispatching(false)
  }

  ghost predicate Enabled(s: State, step: Step) {
    match step
    case Work(w, a) => IsWorker(s, w) && ActEnabled(s, w, a)
    case Push(_) => CanAct(s) && MutexFree(s)
    case Insert(_) => CanAct(s)
    case Remove(_) => CanAct(s)
    case Register => CanAct(s)
    case Withdraw => CanAct(s) && s.pending > 0
    case CancelEvent(_) => CanAct(s) && s.pending > 0 && MutexFree(s)
    case ReadIdle => s.inserting > 0
    case Write => s.writing > 0
    case Forget => s.notified && s.bytes == 0
    case Stop => !s.stopping && MutexFree(s)
    case StopTickle => s.stopping
    case Tick(t) => s.now <= t
  }

  // ---- effects ----

  // tickle up to its write.
  ghost function Tickle(s: State): State {
    if s.idle > 0 then s.(writing := s.writing + 1) else s
  }

  // Both schedule templates: append, and tickle if the list was empty.
  ghost function Scheduled(s: State, batch: seq<Task>): State {
    var t := s.(tasks := s.tasks + batch, pushed := s.pushed + batch);
    if s.tasks == [] then Tickle(t) else t
  }

  ghost predicate IsEarliest(b: Basis, timers: set<Entry>) {
    if timers == {} then b == Never
    else b.At? && (exists e :: e in timers && e.next == b.deadline) && forall e :: e in timers ==> b.deadline <= e.next
  }

  lemma EarliestExists(timers: set<Entry>)
    ensures exists b :: IsEarliest(b, timers)
  {
    if timers == {} {
      assert IsEarliest(Never, timers);
    } else {
      var e := EarliestEntry(timers);
      assert IsEarliest(At(e.next), timers);
    }
  }

  lemma {:induction false} EarliestEntry(timers: set<Entry>) returns (m: Entry)
    requires timers != {}
    ensures m in timers && forall e :: e in timers ==> m.next <= e.next
    decreases |timers|
  {
    var x :| x in timers;
    if timers == {x} {
      m := x;
    } else {
      assert timers - {x} != {};
      var y := EarliestEntry(timers - {x});
      m := if x.next <= y.next then x else y;
    }
  }

  ghost function Earliest(timers: set<Entry>): (b: Basis)
    ensures IsEarliest(b, timers)
  {
    EarliestExists(timers);
    var b :| IsEarliest(b, timers);
    b
  }

  ghost function Callbacks(due: seq<Entry>): seq<Task> {
    seq(|due|, i requires 0 <= i < |due| => Func(due[i].func))
  }

  // Where worker w is after its act. With no task to call it enters idle, or
  // leaves run if its idle fiber has ended.
  ghost function Moved(s: State, w: nat, a: Act): Worker
    requires IsWorker(s, w) && ActEnabled(s, w, a)
  {
    var k := s.workers[w];
    var pc := k.pc;
    match a
    case Take => k.(pc := Counting(|s.taken|, |s.tasks| > 1))
    case FindEmpty => k.(pc := if k.idleDone then Exited else EnteringIdle)
    case Count => k.(pc := if pc.more then Offering(pc.i) else Deciding(pc.i))
    case Offer => k.(pc := Deciding(pc.i))
    case Call => k.(pc := Executing(pc.i))
    case Skip => k.(pc := if k.idleDone then Exited else EnteringIdle)
    case ReturnReady(id) => k.(pc := Back(Some(if s.taken[pc.i].Fiber? then s.taken[pc.i] else Fiber(id))))
    case ReturnSuspended => k.(pc := Back(None))
    case ReturnDone => k.(pc := Back(None))
    case Uncount => k.(pc := if pc.ready.Some? then Requeueing(pc.ready.value) else Fetch)
    case Requeue => k.(pc := Fetch)
    case EnterIdle => k.(pc := StopCheck)
    case Leave => k.(pc := Fetch)
    case SeeTimers => k.(pc := Computing)
    case SeeNoTimers => k.(pc := StopCheck2)
    case DecideStop => Worker(Leaving, true)
    case DecideGoOn => k.(pc := Computing)
    case Compute => k.(pc := Computed(Earliest(s.timers), s.now))
    case Block => k.(pc := Blocked(pc.basis, pc.at, s.now))
    case WakeByTimeout => k.(pc := Woken(false))
    case WakeByPipe => k.(pc := Woken(true))
    case WakeByIo => k.(pc := Woken(false))
    case Interrupt => k.(pc := Computing)
    case Expire(_, due) => k.(pc := if due == [] then Dispatching(pc.pipe) else Carrying(Callbacks(due), pc.pipe))
    case Deliver => k.(pc := Dispatching(pc.pipe))
    case Drain => k.(pc := Dispatching(false))
    case Fire(_) => k
    case YieldIdle => k.(pc := Leaving)
  }

  // The tasks an act schedules.
  ghost function Batch(pc: Pc, a: Act): seq<Task> {
    if a.Requeue? && pc.Requeueing? then [pc.task]
    else if a.Deliver? && pc.Carrying? then pc.funcs
    else if a.Fire? then [a.task]
    else []
  }

  // An act's effect on everything but its worker, one shared variable at a time.
  ghost function Shared(s: State, pc: Pc, a: Act): State
    requires a.Take? ==> s.tasks != []
    requires a.ReturnDone? && pc.Executing? ==> pc.i < |s.taken|
    requires a.Fire? ==> s.pending > 0
  {
    var t := if a.Offer? then Tickle(s) else if Batch(pc, a) != [] then Scheduled(s, Batch(pc, a)) else s;
    t.(tasks := if a.Take? then s.tasks[1..] else t.tasks,
       taken := if a.Take? then s.taken + [s.tasks[0]] else s.taken,
       active := if a.Count? then s.active + 1 else if a.Uncount? then s.active - 1 else s.active,
       idle := if a.EnterIdle? then s.idle + 1 else if a.Leave? then s.idle - 1 else s.idle,
       pending := if a.Fire? then s.pending - 1 else s.pending,
       timers := if a.Expire? then AfterPoll(s.timers, a.at) else s.timers,
       notified := s.notified && !a.WakeByPipe?,
       bytes := if a.Drain? then 0 else s.bytes,
       calls := if a.Call? && pc.Deciding? then s.calls + [pc.i] else s.calls,
       skipped := if a.Skip? && pc.Deciding? then s.skipped + {pc.i} else s.skipped,
       done := if a.ReturnDone? && pc.Executing? && s.taken[pc.i].Fiber? then s.done + {s.taken[pc.i].id} else s.done)
  }

  ghost function DoAct(s: State, w: nat, a: Act): State
    requires IsWorker(s, w) && ActEnabled(s, w, a)
  {
    Shared(s, s.workers[w].pc, a).(
      workers := s.workers[w := Moved(s, w, a)],
      strayed := s.strayed || (a.Skip? && s.workers[w].idleDone && s.tasks != [] && OthersExited(s, w)),
      late := s.late || (a.Call? && s.workers[w].idleDone))
  }

  ghost predicate OthersExited(s: State, w: nat) {
    forall v :: 0 <= v < |s.workers| && v != w ==> s.workers[v].pc.Exited?
  }

  ghost function Do(s: State, step: Step): State
    requires Enabled(s, step)
  {
    if step.Work? then DoAct(s, step.w, step.act) else DoOther(s, step)
  }

  // A step that is no worker's own: it touches the shared variables and no
  // worker, counter or history of the dequeued tasks.
  ghost function DoOther(s: State, step: Step): State
    requires Enabled(s, step) && !step.Work?
  {
    var t := OtherEffect(s, step);
    s.(tasks := t.tasks, pushed := t.pushed, pending := t.pending, stopping := t.stopping, timers := t.timers,
       notified := t.notified, bytes := t.bytes, inserting := t.inserting, writing := t.writing, now := t.now)
  }

  ghost function OtherEffect(s: State, step: Step): State
    requires Enabled(s, step) && !step.Work?
  {
    match step
    case Push(batch) => Scheduled(s, batch)
    case Insert(e) =>
      var timers := s.timers + {e};
      s.(timers := timers, inserting := if IsFirst(e, timers) then s.inserting + 1 else s.inserting)
    case Remove(e) => s.(timers := s.timers - {e})
    case Register => s.(pending := s.pending + 1)
    case Withdraw => s.(pending := s.pending - 1)
    case CancelEvent(t) => Scheduled(s, [t]).(pending := s.pending - 1)
    case ReadIdle => Tickle(s.(inserting := s.inserting - 1))
    case Write => s.(writing := s.writing - 1, notified := true, bytes := s.bytes + 1)
    case Forget => s.(notified := false)
    case Stop => s.(stopping := true)
    case StopTickle => Tickle(s)
    case Tick(t) => s.(now := t)
  }

  ghost predicate Legal(s: State, run: seq<Step>)
    decreases |run|
  {
    run == [] || (Enabled(s, run[0]) && Legal(Do(s, run[0]), run[1..]))
  }

  ghost function Final(s: State, run: seq<Step>): State
    requires Legal(s, run)
    decreases |run|
  {
    if run == [] then s else Final(Do(s, run[0]), run[1..])
  }

  // ---- the counters ----

  // Between ++m_idle_threads and --m_idle_threads.
  predicate InIdle(pc: Pc) {
    pc.StopCheck? || pc.StopCheck2? || pc.Computing? || pc.Computed? || pc.Blocked? || pc.Woken?
    || pc.Carrying? || pc.Dispatching? || pc.Leaving?
  }

  // Between ++m_active_threads and --m_active_threads.
  predicate IsCounted(pc: Pc) {
    pc.Offering? || pc.Deciding? || pc.Executing? || pc.Back?
  }

  function IdleCount(ws: seq<Worker>): nat {
    if ws == [] then 0 else One(InIdle(ws[0].pc)) + IdleCount(ws[1..])
  }

  function ActiveCount(ws: seq<Worker>): nat {
    if ws == [] then 0 else One(IsCounted(ws[0].pc)) + ActiveCount(ws[1..])
  }

  lemma {:induction false} CountUpdate(ws: seq<Worker>, w: nat, x: Worker)
    requires w < |ws|
    ensures IdleCount(ws[w := x]) == IdleCount(ws) - One(InIdle(ws[w].pc)) + One(InIdle(x.pc))
    ensures ActiveCount(ws[w := x]) == ActiveCount(ws) - One(IsCounted(ws[w].pc)) + One(IsCounted(x.pc))
    decreases |ws|
  {
    if w == 0 {
      assert ws[w := x][1..] == ws[1..];
    } else {
      assert ws[w := x][1..] == ws[1..][w - 1 := x];
      CountUpdate(ws[1..], w - 1, x);
    }
  }

  lemma {:induction false} CountPositive(ws: seq<Worker>, w: nat)
    requires w < |ws|
    ensures InIdle(ws[w].pc) ==> IdleCount(ws) > 0
    ensures IsCounted(ws[w].pc) ==> ActiveCount(ws) > 0
    decreases |ws|
  {
    if w > 0 {
      CountPositive(ws[1..], w - 1);
    }
  }

  // m_idle_threads counts the workers in idle, m_active_threads those holding a
  // counted task and, for ever, each done fiber that was dequeued. A worker in
  // idle's loop has a live idle fiber, which ends only after stop.
  ghost predicate WorkerOk(stopping: bool, now: nat, k: Worker) {
    && (InIdle(k.pc) && k.pc != Leaving ==> !k.idleDone)
    && (k.pc.EnteringIdle? ==> !k.idleDone)
    && (k.idleDone ==> stopping)
    && (k.pc.Exited? ==> k.idleDone)
    && (k.pc.Blocked? ==> k.pc.at <= k.pc.since <= now)
    && (k.pc.Computed? ==> k.pc.at <= now)
  }

  ghost predicate Base(s: State) {
    && |s.workers| > 0
    && s.idle == IdleCount(s.workers)
    && s.active == ActiveCount(s.workers) + |s.skipped|
    && (forall w :: 0 <= w < |s.workers| ==> WorkerOk(s.stopping, s.now, s.workers[w]))
  }
}
