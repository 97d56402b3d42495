/**
 * What the workers and other threads share besides the queue, over every run: the
 * tickle pipe (src/scheduler.cpp:196-202, 266-272), m_pending_count
 * (src/iomanager.cpp) and the timer set (src/timer.cpp).
 */
module SchedulerShared {
  import opened Basics
  import opened Timers
  import opened SchedulerMachine
  import opened SchedulerHistory

  // ---- the pipe ----

  // A blocked worker gets out of epoll_wait by its timeout, the pipe or an event;
  // EINTR sends it back to compute its wait again.
  lemma WakesIff(s: State, w: nat, a: Act)
    requires IsWorker(s, w) && ActEnabled(s, w, a) && s.workers[w].pc.Blocked?
    ensures var pc := Moved(s, w, a).pc;
      && (pc == Woken(true) <==> a.WakeByPipe?)
      && (pc == Woken(false) <==> a.WakeByTimeout? || a.WakeByIo?)
      && (pc == Computing <==> a.Interrupt?)
  {
  }

  // A wait that ends by its timeout before the cap has not ended before the timer
  // it was computed from is due.
  lemma TimeoutFindsItsTimer(s: State, w: nat)
    requires Base(s) && IsWorker(s, w) && ActEnabled(s, w, WakeByTimeout)
    requires var pc := s.workers[w].pc; pc.basis.At? && pc.basis.deadline < pc.at + 3000
    ensures s.workers[w].pc.basis.deadline <= s.now
  {
    assert WorkerOk(s.stopping, s.now, s.workers[w]);
  }

  // A round through idle ends, after the loop over the reported events, by the
  // yield, or before it by the stop.
  lemma LeavesIdleIff(s: State, w: nat, a: Act)
    requires IsWorker(s, w) && ActEnabled(s, w, a)
    ensures Moved(s, w, a).pc == Leaving <==> a.YieldIdle? || a.DecideStop?
    ensures a.YieldIdle? ==> s.workers[w].pc == Dispatching(false)
  {
  }

  // shouldStop holds m_mutex over both its looks; the first sees exactly whether a
  // timer is armed, and the second is true exactly after stop with no task queued, none
  // counted and no event pending.
  lemma StopChecksIff(s: State, w: nat)
    requires IsWorker(s, w)
    ensures s.workers[w].pc.StopCheck? && MutexFree(s) ==>
      (ActEnabled(s, w, SeeTimers) <==> s.timers != {}) && (ActEnabled(s, w, SeeNoTimers) <==> s.timers == {})
    ensures s.workers[w].pc.StopCheck2? ==>
      && !MutexFree(s)
      && (ActEnabled(s, w, DecideStop) <==> s.stopping && s.tasks == [] && s.active == 0 && s.pending == 0)
      && (ActEnabled(s, w, DecideGoOn) <==> !ActEnabled(s, w, DecideStop))
  {
  }

  // A dequeued task is called, unless it is a fiber that has finished, which is
  // dropped.
  lemma CalledUnlessDone(s: State, w: nat)
    requires History(s) && IsWorker(s, w) && s.workers[w].pc.Deciding?
    ensures s.workers[w].pc.i < |s.taken|
    ensures var t := s.taken[s.workers[w].pc.i]; var done := t.Fiber? && t.id in s.done;
      && (ActEnabled(s, w, Call) <==> !done) && (ActEnabled(s, w, Skip) <==> done)
  {
    assert Holds(s, w, s.workers[w].pc.i);
  }

  ghost predicate HasWrite(run: seq<Step>) {
    exists i :: 0 <= i < |run| && run[i].Write?
  }

  lemma QuietPipe(s: State, step: Step)
    requires Enabled(s, step) && !step.Write?
    ensures Do(s, step).notified ==> s.notified
    ensures Do(s, step).bytes <= s.bytes
  {
    if step.Work? {
      QuietAct(s, s.workers[step.w].pc, step.act);
    }
  }

  lemma QuietAct(s: State, pc: Pc, a: Act)
    requires a.Take? ==> s.tasks != []
    requires a.ReturnDone? && pc.Executing? ==> pc.i < |s.taken|
    requires a.Fire? ==> s.pending > 0
    ensures Shared(s, pc, a).notified ==> s.notified
    ensures Shared(s, pc, a).bytes <= s.bytes
  {
  }

  lemma {:induction false} QuietRun(s: State, run: seq<Step>)
    requires Legal(s, run) && !HasWrite(run)
    ensures Final(s, run).notified ==> s.notified
    ensures Final(s, run).bytes <= s.bytes
    decreases |run|
  {
    if run != [] {
      assert !run[0].Write?;
      QuietPipe(s, run[0]);
      forall i | 0 <= i < |run[1..]| ensures !run[1..][i].Write? {
        assert run[1..][i] == run[i + 1];
      }
      QuietRun(Do(s, run[0]), run[1..]);
    }
  }

  // The pipe is watched edge-triggered: a notification wakes one worker, and no
  // other is woken by the pipe before the next write.
  lemma OneWakePerEdge(s: State, w: nat, run: seq<Step>, v: nat)
    requires IsWorker(s, w) && ActEnabled(s, w, WakeByPipe)
    requires Legal(DoAct(s, w, WakeByPipe), run) && !HasWrite(run)
    ensures var t := Final(DoAct(s, w, WakeByPipe), run); IsWorker(t, v) ==> !ActEnabled(t, v, WakeByPipe)
  {
    QuietRun(DoAct(s, w, WakeByPipe), run);
  }

  // A drained pipe is empty until the next write.
  lemma DrainEmpties(s: State, w: nat, run: seq<Step>)
    requires IsWorker(s, w) && ActEnabled(s, w, Drain)
    requires Legal(DoAct(s, w, Drain), run) && !HasWrite(run)
    ensures Final(DoAct(s, w, Drain), run).bytes == 0
  {
    QuietRun(DoAct(s, w, Drain), run);
  }

  // The worker has the pipe among its reported events and has not drained it.
  predicate ToDrain(pc: Pc) {
    pc == Woken(true) || (pc.Carrying? && pc.pipe) || pc == Dispatching(true)
  }

  lemma MovedToDrain(s: State, w: nat, a: Act)
    requires IsWorker(s, w) && ActEnabled(s, w, a) && ToDrain(s.workers[w].pc)
    ensures ToDrain(Moved(s, w, a).pc) <==> !a.Drain?
  {
  }

  lemma StepToDrain(s: State, step: Step, w: nat)
    requires IsWorker(s, w) && Enabled(s, step) && ToDrain(s.workers[w].pc) && step != Work(w, Drain)
    ensures IsWorker(Do(s, step), w) && ToDrain(Do(s, step).workers[w].pc)
  {
    if step.Work? {
      assert Do(s, step).workers == s.workers[step.w := Moved(s, step.w, step.act)];
      if step.w == w {
        MovedToDrain(s, w, step.act);
      }
    } else {
      OthersKeep(s, step);
    }
  }

  // Whoever the pipe wakes drains it before it leaves idle: in every run without
  // that drain it is still in idle, dealing with what epoll_wait reported.
  lemma {:induction false} NotifiedWorkerDrains(s: State, w: nat, run: seq<Step>)
    requires IsWorker(s, w) && ToDrain(s.workers[w].pc) && Legal(s, run) && Work(w, Drain) !in run
    ensures IsWorker(Final(s, run), w) && ToDrain(Final(s, run).workers[w].pc)
    decreases |run|
  {
    if run != [] {
      StepToDrain(s, run[0], w);
      NotifiedWorkerDrains(Do(s, run[0]), w, run[1..]);
    }
  }

  // ---- pending events ----

  // What a step does to the number of registered events.
  function Registrations(step: Step): int {
    match step
    case Register => 1
    case Withdraw => -1
    case CancelEvent(_) => -1
    case Work(_, a) => if a.Fire? then -1 else 0
    case _ => 0
  }

  function NetRegistrations(run: seq<Step>): int {
    if run == [] then 0 else Registrations(run[0]) + NetRegistrations(run[1..])
  }

  lemma StepPending(s: State, step: Step)
    requires Enabled(s, step)
    ensures Do(s, step).pending == s.pending + Registrations(step)
  {
    if step.Work? {
      ActPending(s, s.workers[step.w].pc, step.act);
    }
  }

  lemma ActPending(s: State, pc: Pc, a: Act)
    requires a.Take? ==> s.tasks != []
    requires a.ReturnDone? && pc.Executing? ==> pc.i < |s.taken|
    requires a.Fire? ==> s.pending > 0
    ensures Shared(s, pc, a).pending == s.pending - One(a.Fire?)
  {
  }

  // In every run m_pending_count is the number of addEvents less that of the
  // registrations deleted, cancelled or fired.
  lemma {:induction false} PendingCounts(s: State, run: seq<Step>)
    requires Legal(s, run)
    ensures Final(s, run).pending == s.pending + NetRegistrations(run)
    decreases |run|
  {
    if run != [] {
      StepPending(s, run[0]);
      PendingCounts(Do(s, run[0]), run[1..]);
    }
  }

  // ---- the timer set ----

  // The set changes by insertions, removals and polls, and in no other way; a poll
  // takes exactly the due timers and puts the recurring ones back one period on.
  lemma TimersChangeIff(s: State, step: Step, e: Entry)
    requires Enabled(s, step)
    ensures e in Do(s, step).timers <==>
      if step.Insert? then e in s.timers || e == step.e
      else if step.Remove? then e in s.timers && e != step.e
      else if step.Work? && step.act.Expire? then
        (e in s.timers && e.next > step.act.at) ||
        exists d :: d in s.timers && d.next <= step.act.at && d.recurring && e == d.(next := (d.next + d.period) % WORD)
      else e in s.timers
  {
    if step.Work? {
      ActTimers(s, s.workers[step.w].pc, step.act, e);
    }
  }

  lemma ActTimers(s: State, pc: Pc, a: Act, e: Entry)
    requires a.Take? ==> s.tasks != []
    requires a.ReturnDone? && pc.Executing? ==> pc.i < |s.taken|
    requires a.Fire? ==> s.pending > 0
    ensures e in Shared(s, pc, a).timers <==>
      if a.Expire? then
        (e in s.timers && e.next > a.at) ||
        exists d :: d in s.timers && d.next <= a.at && d.recurring && e == d.(next := (d.next + d.period) % WORD)
      else e in s.timers
  {
    if a.Expire? {
      PollTimers(s.timers, a.at, e);
    }
  }

  lemma PollTimers(timers: set<Entry>, at: nat, e: Entry)
    ensures e in AfterPoll(timers, at) <==>
      (e in timers && e.next > at) ||
      exists d :: d in timers && d.next <= at && d.recurring && e == d.(next := (d.next + d.period) % WORD)
  {
    if d :| d in timers && d.next <= at && d.recurring && e == d.(next := (d.next + d.period) % WORD) {
      assert d in Due(timers, at) && Advance(d) == e;
    }
  }
}
