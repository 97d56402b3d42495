/**
 * Wake-ups, with any number of workers: no timer wake-up is lost (tickle, pipe
 * and epoll timeout together), and a queued task waits at most 3000 ms while
 * some worker is idle.
 */
module SchedulerWake {
  import opened Basics
  import opened Timers
  import opened SchedulerMachine
  import opened SchedulerHistory

  // The worker will wait again.
  predicate Live(k: Worker) { !k.idleDone }

  // The worker will look at the timers before it waits.
  predicate Aware(k: Worker) {
    Live(k) && !k.pc.StopCheck2? && !k.pc.Computed? && !k.pc.Blocked? && !k.pc.Exited?
  }

  ghost predicate BasisCovers(b: Basis, timers: set<Entry>) {
    forall e :: e in timers ==> b.At? && b.deadline <= e.next
  }

  // The worker will wake in time for the earliest timer by itself.
  ghost predicate Covers(k: Worker, timers: set<Entry>) {
    Aware(k) || ((k.pc.Computed? || k.pc.Blocked?) && BasisCovers(k.pc.basis, timers))
  }

  ghost predicate SomeLive(ws: seq<Worker>) {
    exists w :: 0 <= w < |ws| && Live(ws[w])
  }

  ghost predicate SomeCovers(ws: seq<Worker>, timers: set<Entry>) {
    exists w :: 0 <= w < |ws| && Covers(ws[w], timers)
  }

  // A notification is on its way: an edge with bytes behind it, or a thread
  // between its insertion and its write.
  ghost predicate Coming(s: State) {
    (s.notified && s.bytes > 0) || s.inserting > 0 || s.writing > 0
  }

  ghost predicate Watched(s: State) {
    SomeLive(s.workers) && s.timers != {} ==> Coming(s) || SomeCovers(s.workers, s.timers)
  }

  // ---- worker steps ----

  // An act of worker w that leaves the timers alone and loses no notification
  // keeps the watch, if w covers the timers after it whenever it did before.
  lemma MoveKeepsWatch(s: State, t: State, w: nat, k: Worker)
    requires Watched(s) && IsWorker(s, w) && t.workers == s.workers[w := k] && t.timers <= s.timers
    requires Coming(s) ==> Coming(t)
    requires Covers(s.workers[w], s.timers) ==> Covers(k, t.timers)
    requires Live(k) ==> Live(s.workers[w])
    ensures Watched(t)
  {
    if SomeLive(t.workers) && t.timers != {} && !Coming(t) {
      var v :| 0 <= v < |t.workers| && Live(t.workers[v]);
      assert Live(s.workers[v]);
      var u :| 0 <= u < |s.workers| && Covers(s.workers[u], s.timers);
      assert Covers(t.workers[u], t.timers);
    }
  }

  lemma CoveringKeepsWatch(t: State, w: nat)
    requires IsWorker(t, w) && Covers(t.workers[w], t.timers)
    ensures Watched(t)
  {
  }

  // Acts after which the worker covers the timers, whatever was before.
  predicate Refreshes(a: Act) {
    a.Compute? || a.WakeByTimeout? || a.WakeByPipe? || a.WakeByIo? || a.Interrupt? || a.Expire? || a.Drain? || a.DecideGoOn?
  }

  lemma RefreshCovers(s: State, w: nat, a: Act)
    requires Base(s) && IsWorker(s, w) && ActEnabled(s, w, a) && Refreshes(a)
    ensures Covers(Moved(s, w, a), if a.Expire? then AfterPoll(s.timers, a.at) else s.timers)
  {
    assert WorkerOk(s.stopping, s.now, s.workers[w]);
  }

  lemma OtherActs(s: State, w: nat, a: Act)
    requires Base(s) && IsWorker(s, w) && ActEnabled(s, w, a) && !Refreshes(a) && !a.SeeNoTimers?
    ensures Covers(s.workers[w], s.timers) ==> Covers(Moved(s, w, a), s.timers)
    ensures Live(Moved(s, w, a)) ==> Live(s.workers[w])
  {
    assert WorkerOk(s.stopping, s.now, s.workers[w]);
  }

  lemma ScheduledWrites(s: State, batch: seq<Task>)
    ensures var t := Scheduled(s, batch); t.inserting == s.inserting && s.writing <= t.writing
  {
  }

  lemma ActComing(s: State, pc: Pc, a: Act)
    requires a.Take? ==> s.tasks != []
    requires a.ReturnDone? && pc.Executing? ==> pc.i < |s.taken|
    requires a.Fire? ==> s.pending > 0
    requires !Refreshes(a)
    ensures Coming(s) ==> Coming(Shared(s, pc, a))
  {
    ScheduledWrites(s, Batch(pc, a));
    var t := Shared(s, pc, a);
    assert t.notified == s.notified && t.bytes == s.bytes && t.inserting == s.inserting && t.writing >= s.writing;
  }

  lemma ActWatched(s: State, w: nat, a: Act)
    requires Base(s) && Watched(s) && IsWorker(s, w) && ActEnabled(s, w, a)
    ensures Watched(DoAct(s, w, a))
  {
    var t := DoAct(s, w, a);
    var k := Moved(s, w, a);
    assert t.workers[w] == k;
    if Refreshes(a) {
      RefreshCovers(s, w, a);
      CoveringKeepsWatch(t, w);
    } else if !a.SeeNoTimers? {
      OtherActs(s, w, a);
      ActComing(s, s.workers[w].pc, a);
      MoveKeepsWatch(s, t, w, k);
    }
  }

  // ---- the other steps ----

  lemma InsertWatched(s: State, e: Entry)
    requires Watched(s) && Enabled(s, Insert(e))
    ensures Watched(Do(s, Insert(e)))
  {
    var t := Do(s, Insert(e));
    if SomeLive(t.workers) && !Coming(t) {
      assert !IsFirst(e, t.timers);
      var x :| x in t.timers && x != e && !Before(e, x);
      assert x in s.timers && x.next <= e.next;
      var u :| 0 <= u < |s.workers| && Covers(s.workers[u], s.timers);
      assert Covers(t.workers[u], t.timers);
    }
  }

  // tickle is skipped only when no worker is in idle, and then every worker
  // that will wait again looks at the timers first.
  lemma ReadIdleWatched(s: State)
    requires Base(s) && Watched(s) && Enabled(s, ReadIdle)
    ensures Watched(Do(s, ReadIdle))
  {
    if s.idle == 0 && SomeLive(s.workers) {
      var v :| 0 <= v < |s.workers| && Live(s.workers[v]);
      CountPositive(s.workers, v);
      assert WorkerOk(s.stopping, s.now, s.workers[v]);
      assert Aware(s.workers[v]);
      CoveringKeepsWatch(Do(s, ReadIdle), v);
    }
  }

  lemma OtherTimers(s: State, step: Step)
    requires Enabled(s, step) && !step.Work? && !step.Insert?
    ensures Do(s, step).timers <= s.timers
  {
  }

  lemma OtherComing(s: State, step: Step)
    requires Enabled(s, step) && !step.Work? && !step.ReadIdle?
    ensures Coming(s) ==> Coming(Do(s, step))
  {
  }

  lemma OtherWatched(s: State, step: Step)
    requires Base(s) && Watched(s) && Enabled(s, step) && !step.Work? && !step.Insert? && !step.ReadIdle?
    ensures Watched(Do(s, step))
  {
    OthersKeep(s, step);
    OtherTimers(s, step);
    OtherComing(s, step);
    MoveKeepsWatch(s, Do(s, step), 0, s.workers[0]);
  }

  lemma StepWatched(s: State, step: Step)
    requires Base(s) && Watched(s) && Enabled(s, step)
    ensures Watched(Do(s, step))
  {
    if step.Work? {
      ActWatched(s, step.w, step.act);
    } else if step.Insert? {
      InsertWatched(s, step.e);
    } else if step.ReadIdle? {
      ReadIdleWatched(s);
    } else {
      OtherWatched(s, step);
    }
  }

  lemma {:induction false} RunWatched(s: State, run: seq<Step>)
    requires Inv(s) && Watched(s) && Legal(s, run)
    ensures Inv(Final(s, run)) && Watched(Final(s, run))
    decreases |run|
  {
    if run != [] {
      StepInv(s, run[0]);
      StepWatched(s, run[0]);
      RunWatched(Do(s, run[0]), run[1..]);
    }
  }

  // When epoll_wait returns by itself.
  function WakesAt(pc: Pc): nat
    requires pc.Blocked?
  {
    pc.since + TimeoutFor(pc.basis, pc.at)
  }

  // The wait of worker k ends no later than deadline `next`, give or take the
  // time the worker took from computing its timeout to entering epoll_wait.
  ghost predicate WakesInTime(k: Worker, next: nat, now: nat) {
    && k.pc.Blocked? && k.pc.at <= k.pc.since <= now
    && WakesAt(k.pc) <= (if next > k.pc.at then next else k.pc.at) + (k.pc.since - k.pc.at)
  }

  ghost predicate AllBlocked(s: State) {
    forall w :: 0 <= w < |s.workers| && Live(s.workers[w]) ==> s.workers[w].pc.Blocked?
  }

  lemma BlockedInTime(s: State, e: Entry)
    requires Base(s) && Watched(s) && SomeLive(s.workers) && AllBlocked(s) && !Coming(s) && e in s.timers
    ensures exists w :: 0 <= w < |s.workers| && WakesInTime(s.workers[w], e.next, s.now)
  {
    var w :| 0 <= w < |s.workers| && Covers(s.workers[w], s.timers);
    assert WorkerOk(s.stopping, s.now, s.workers[w]);
    assert WakesInTime(s.workers[w], e.next, s.now);
  }

  // No lost timer wake-up: in every reachable state in which every worker that
  // will wait again is blocked in epoll_wait and no thread is between inserting
  // a new first timer and its write, either the pipe has an undelivered
  // notification or some worker's own wait ends in time for the earliest timer.
  lemma NoLostTimerWakeup(s: State, run: seq<Step>, e: Entry)
    requires Init(s) && Legal(s, run)
    requires var t := Final(s, run);
      SomeLive(t.workers) && AllBlocked(t) && t.inserting == 0 && t.writing == 0 && e in t.timers
    ensures var t := Final(s, run);
      || (t.notified && t.bytes > 0)
      || exists w :: 0 <= w < |t.workers| && WakesInTime(t.workers[w], e.next, t.now)
  {
    InitInv(s);
    RunWatched(s, run);
    var t := Final(s, run);
    if !(t.notified && t.bytes > 0) {
      BlockedInTime(t, e);
    }
  }

  // ---- bounded wait of a queued task ----

  // The clock moves only while every worker waits, runs a task or is gone, and
  // not past the end of a wait.
  ghost predicate Urgent(s: State, step: Step) {
    step.Tick? ==> forall w :: 0 <= w < |s.workers| ==>
      var pc := s.workers[w].pc;
      pc.Executing? || pc.Exited? || (pc.Blocked? && step.t <= WakesAt(pc))
  }

  // No task is dequeued and epoll_wait is not interrupted.
  predicate NoTake(step: Step) {
    step.Work? ==> !step.act.Take? && !step.act.Interrupt?
  }

  ghost predicate Waiting(s: State, run: seq<Step>)
    requires Legal(s, run)
    decreases |run|
  {
    run == [] || (Urgent(s, run[0]) && NoTake(run[0]) && Waiting(Do(s, run[0]), run[1..]))
  }

  // How late a worker on its way through idle can still be at time `now`.
  predicate OnTime(pc: Pc, now: nat, limit: nat) {
    match pc
    case StopCheck => now + EPOLL_WAIT_TIMEOUT_MS <= limit
    case StopCheck2 => now + EPOLL_WAIT_TIMEOUT_MS <= limit
    case Computing => now + EPOLL_WAIT_TIMEOUT_MS <= limit
    case Computed(_, _) => now + EPOLL_WAIT_TIMEOUT_MS <= limit
    case Blocked(_, _, _) => now <= limit && WakesAt(pc) <= limit
    case Woken(_) => now <= limit
    case Carrying(_, _) => now <= limit
    case Dispatching(_) => now <= limit
    case Leaving => now <= limit
    case Fetch => now <= limit
    case _ => false
  }

  lemma MovedOnTime(s: State, w: nat, a: Act, limit: nat)
    requires IsWorker(s, w) && ActEnabled(s, w, a) && !a.Take? && !a.Interrupt? && s.tasks != []
    requires OnTime(s.workers[w].pc, s.now, limit)
    ensures OnTime(Moved(s, w, a).pc, s.now, limit)
  {
  }

  lemma OtherOnTime(s: State, step: Step, w: nat, limit: nat)
    requires IsWorker(s, w) && Enabled(s, step) && Urgent(s, step) && !step.Work?
    requires OnTime(s.workers[w].pc, s.now, limit)
    ensures OnTime(s.workers[w].pc, Do(s, step).now, limit)
  {
    assert !step.Tick? ==> Do(s, step).now == s.now;
  }

  lemma StepOnTime(s: State, step: Step, w: nat, limit: nat)
    requires IsWorker(s, w) && Enabled(s, step) && Urgent(s, step) && NoTake(step) && s.tasks != []
    requires OnTime(s.workers[w].pc, s.now, limit)
    ensures var t := Do(s, step); IsWorker(t, w) && t.tasks != [] && OnTime(t.workers[w].pc, t.now, limit)
  {
    if step.Work? {
      if step.w == w {
        MovedOnTime(s, w, step.act, limit);
      }
      assert Do(s, step).workers == s.workers[step.w := Moved(s, step.w, step.act)];
    } else {
      OthersKeep(s, step);
      OthersPush(s, step);
      OtherOnTime(s, step, w, limit);
    }
  }

  lemma {:induction false} WaitIsBounded(s: State, run: seq<Step>, w: nat, limit: nat)
    requires IsWorker(s, w) && s.tasks != [] && OnTime(s.workers[w].pc, s.now, limit)
    requires Legal(s, run) && Waiting(s, run)
    ensures Final(s, run).now <= limit
    decreases |run|
  {
    if run != [] {
      StepOnTime(s, run[0], w, limit);
      WaitIsBounded(Do(s, run[0]), run[1..], w, limit);
    }
  }

  // Bounded wake-up: from any reachable state with a queued task and a worker in
  // idle, tickled or not, no stretch of the run without a dequeue lasts longer
  // than 3000 ms.
  lemma TaskWaitsAtMost(s: State, before: seq<Step>, run: seq<Step>, w: nat)
    requires Init(s) && Legal(s, before) && Legal(Final(s, before), run) && Waiting(Final(s, before), run)
    requires var t := Final(s, before); t.tasks != [] && IsWorker(t, w) && InIdle(t.workers[w].pc)
    ensures Final(Final(s, before), run).now <= Final(s, before).now + 3000
  {
    InitInv(s);
    RunInv(s, before);
    var t := Final(s, before);
    assert WorkerOk(t.stopping, t.now, t.workers[w]);
    WaitIsBounded(t, run, w, t.now + EPOLL_WAIT_TIMEOUT_MS);
  }

  // ---- bounded lateness of a timer ----

  // No expired timers are collected and epoll_wait is not interrupted.
  predicate NoPoll(step: Step) {
    step.Work? ==> !step.act.Expire? && !step.act.Interrupt?
  }

  ghost predicate Unpolled(s: State, run: seq<Step>)
    requires Legal(s, run)
    decreases |run|
  {
    run == [] || (Urgent(s, run[0]) && NoPoll(run[0]) && Unpolled(Do(s, run[0]), run[1..]))
  }

  // The worker is on its way to its next getExpiredFuncs.
  predicate Polling(pc: Pc) {
    pc.Computing? || pc.Computed? || pc.Blocked? || pc.Woken?
  }

  lemma MovedPolling(s: State, w: nat, a: Act, limit: nat)
    requires IsWorker(s, w) && ActEnabled(s, w, a) && !a.Expire? && !a.Interrupt?
    requires Polling(s.workers[w].pc) && OnTime(s.workers[w].pc, s.now, limit)
    ensures Polling(Moved(s, w, a).pc) && OnTime(Moved(s, w, a).pc, s.now, limit)
  {
  }

  lemma ActPolling(s: State, v: nat, a: Act, w: nat, limit: nat)
    requires IsWorker(s, w) && IsWorker(s, v) && ActEnabled(s, v, a) && !a.Expire? && !a.Interrupt?
    requires Polling(s.workers[w].pc) && OnTime(s.workers[w].pc, s.now, limit)
    ensures var t := DoAct(s, v, a); IsWorker(t, w) && Polling(t.workers[w].pc) && OnTime(t.workers[w].pc, t.now, limit)
  {
    assert DoAct(s, v, a).workers == s.workers[v := Moved(s, v, a)];
    if v == w {
      MovedPolling(s, w, a, limit);
    }
  }

  lemma StepPolling(s: State, step: Step, w: nat, limit: nat)
    requires IsWorker(s, w) && Enabled(s, step) && Urgent(s, step) && NoPoll(step)
    requires Polling(s.workers[w].pc) && OnTime(s.workers[w].pc, s.now, limit)
    ensures var t := Do(s, step); IsWorker(t, w) && Polling(t.workers[w].pc) && OnTime(t.workers[w].pc, t.now, limit)
  {
    if step.Work? {
      ActPolling(s, step.w, step.act, w, limit);
    } else {
      OthersKeep(s, step);
      OtherOnTime(s, step, w, limit);
    }
  }

  lemma {:induction false} PollIsBounded(s: State, run: seq<Step>, w: nat, limit: nat)
    requires IsWorker(s, w) && Polling(s.workers[w].pc) && OnTime(s.workers[w].pc, s.now, limit)
    requires Legal(s, run) && Unpolled(s, run)
    ensures Final(s, run).now <= limit
    decreases |run|
  {
    if run != [] {
      StepPolling(s, run[0], w, limit);
      PollIsBounded(Do(s, run[0]), run[1..], w, limit);
    }
  }

  // Bounded lateness: a worker woken for a timer may go off to run a task, so a
  // timer can be late while others wait; but as long as some worker is waiting,
  // no stretch of a run without a collection of the expired timers lasts longer
  // than 3000 ms.
  lemma TimersAreLateAtMost(s: State, before: seq<Step>, run: seq<Step>, w: nat)
    requires Init(s) && Legal(s, before) && Legal(Final(s, before), run) && Unpolled(Final(s, before), run)
    requires var t := Final(s, before); IsWorker(t, w) && Polling(t.workers[w].pc)
    ensures Final(Final(s, before), run).now <= Final(s, before).now + 3000
  {
    InitInv(s);
    RunInv(s, before);
    var t := Final(s, before);
    assert WorkerOk(t.stopping, t.now, t.workers[w]);
    PollIsBounded(t, run, w, t.now + EPOLL_WAIT_TIMEOUT_MS);
  }
}
