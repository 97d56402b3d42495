/**
 * What every run of the scheduler keeps, with any number of workers: the
 * counters, and the history of the tasks from schedule to call. Ends with what
 * becomes of the tasks by the time all workers have returned.
 */
module SchedulerHistory {
  import opened Basics
  import opened Timers
  import opened SchedulerMachine

  // The task a worker has dequeued and not yet called or dropped.
  function HeldBy(pc: Pc): Option<nat> {
    match pc
    case Counting(i, _) => Some(i)
    case Offering(i) => Some(i)
    case Deciding(i) => Some(i)
    case _ => None
  }

  ghost predicate Holds(s: State, w: int, i: nat) {
    0 <= w < |s.workers| && HeldBy(s.workers[w].pc) == Some(i)
  }

  ghost predicate InHand(s: State, i: nat) {
    exists w :: Holds(s, w, i)
  }

  ghost predicate CallsOk(s: State) {
    && (forall i, j :: 0 <= i < j < |s.calls| ==> s.calls[i] != s.calls[j])
    && (forall i :: i in s.calls ==> i < |s.taken| && i !in s.skipped)
    && (forall i :: i in s.skipped ==> i < |s.taken| && s.taken[i].Fiber? && s.taken[i].id in s.done)
  }

  // First in, first out; every dequeued task is called, dropped or in one hand.
  ghost predicate History(s: State) {
    && s.pushed == s.taken + s.tasks
    && CallsOk(s)
    && (forall w, i: nat :: Holds(s, w, i) ==> i < |s.taken| && i !in s.calls && i !in s.skipped)
    && (forall v, w, i: nat :: Holds(s, v, i) && Holds(s, w, i) ==> v == w)
    && (forall i :: 0 <= i < |s.taken| ==> i in s.calls || i in s.skipped || InHand(s, i))
  }

  ghost predicate AllExited(s: State) {
    forall w :: 0 <= w < |s.workers| ==> s.workers[w].pc.Exited?
  }

  ghost predicate Inv(s: State) {
    Base(s) && History(s) && (s.strayed <==> AllExited(s) && s.tasks != [])
  }

  // ---- the counters ----

  lemma MovedCounts(s: State, w: nat, a: Act)
    requires IsWorker(s, w) && ActEnabled(s, w, a)
    ensures var old_pc := s.workers[w].pc; var new_pc := Moved(s, w, a).pc;
      && One(InIdle(new_pc)) - One(InIdle(old_pc)) == (if a.EnterIdle? then 1 else if a.Leave? then -1 else 0)
      && One(IsCounted(new_pc)) - One(IsCounted(old_pc)) == (if a.Count? then 1 else if a.Uncount? || a.Skip? then -1 else 0)
  {
  }

  lemma MovedOk(s: State, w: nat, a: Act)
    requires Base(s) && IsWorker(s, w) && ActEnabled(s, w, a)
    ensures WorkerOk(s.stopping, s.now, Moved(s, w, a))
  {
    assert WorkerOk(s.stopping, s.now, s.workers[w]);
  }

  lemma OneMoved(s: State, t: State, w: nat, k: Worker)
    requires Base(s) && IsWorker(s, w) && t.workers == s.workers[w := k] && t.stopping == s.stopping && t.now == s.now
    requires WorkerOk(s.stopping, s.now, k)
    requires t.idle - s.idle == One(InIdle(k.pc)) - One(InIdle(s.workers[w].pc))
    requires t.active - s.active == One(IsCounted(k.pc)) - One(IsCounted(s.workers[w].pc)) + |t.skipped| - |s.skipped|
    ensures Base(t)
  {
    CountUpdate(s.workers, w, k);
  }

  lemma ActBase(s: State, w: nat, a: Act)
    requires Base(s) && History(s) && IsWorker(s, w) && ActEnabled(s, w, a)
    ensures Base(DoAct(s, w, a))
  {
    MovedCounts(s, w, a);
    MovedOk(s, w, a);
    assert a.Skip? ==> Holds(s, w, s.workers[w].pc.i);
    OneMoved(s, DoAct(s, w, a), w, Moved(s, w, a));
  }

  // A step that is no worker's own leaves the workers, their counters and the
  // history of the dequeued tasks alone.
  lemma OthersKeep(s: State, step: Step)
    requires Enabled(s, step) && !step.Work?
    ensures var t := Do(s, step);
      && t.workers == s.workers && t.idle == s.idle && t.active == s.active && (s.stopping ==> t.stopping) && s.now <= t.now
      && t.taken == s.taken && t.calls == s.calls && t.skipped == s.skipped && t.done == s.done
      && t.strayed == s.strayed && t.late == s.late
  {
  }

  lemma OthersPush(s: State, step: Step)
    requires Enabled(s, step) && !step.Work?
    ensures var t := Do(s, step);
      && (s.pushed == s.taken + s.tasks ==> t.pushed == t.taken + t.tasks)
      && s.tasks <= t.tasks && (t.tasks != s.tasks ==> CanAct(s))
  {
  }

  lemma StepBase(s: State, step: Step)
    requires Base(s) && History(s) && Enabled(s, step)
    ensures Base(Do(s, step))
  {
    if step.Work? {
      ActBase(s, step.w, step.act);
    } else {
      OthersKeep(s, step);
    }
  }

  // ---- the history ----

  // A step of worker w that dequeues and calls nothing.
  lemma QuietHistory(s: State, t: State, w: nat, k: Worker)
    requires History(s) && IsWorker(s, w) && t.workers == s.workers[w := k]
    requires HeldBy(k.pc) == HeldBy(s.workers[w].pc)
    requires t.taken == s.taken && t.calls == s.calls && t.skipped == s.skipped && s.done <= t.done
    requires t.pushed == t.taken + t.tasks
    ensures History(t)
  {
    assert forall v, i: nat :: Holds(t, v, i) <==> Holds(s, v, i);
    forall i | 0 <= i < |t.taken| && InHand(s, i) ensures InHand(t, i) {
      var v :| Holds(s, v, i);
      assert Holds(t, v, i);
    }
  }

  lemma DequeueHistory(s: State, w: nat)
    requires History(s) && IsWorker(s, w) && ActEnabled(s, w, Take)
    ensures History(DoAct(s, w, Take))
  {
    var t := DoAct(s, w, Take);
    var n := |s.taken|;
    assert s.tasks == [s.tasks[0]] + s.tasks[1..];
    assert Holds(t, w, n) && !Holds(s, w, n);
    assert forall v, i: nat :: Holds(t, v, i) <==> Holds(s, v, i) || (v == w && i == n);
    forall i | 0 <= i < n && InHand(s, i) ensures InHand(t, i) {
      var v :| Holds(s, v, i);
      assert Holds(t, v, i);
    }
  }

  lemma CallHistory(s: State, w: nat, a: Act)
    requires History(s) && IsWorker(s, w) && ActEnabled(s, w, a) && (a.Call? || a.Skip?)
    ensures History(DoAct(s, w, a))
  {
    var t := DoAct(s, w, a);
    var i := s.workers[w].pc.i;
    assert Holds(s, w, i);
    assert forall v, k: nat :: Holds(t, v, k) <==> Holds(s, v, k) && v != w;
    forall k | 0 <= k < |t.taken| && InHand(s, k) && k != i ensures InHand(t, k) {
      var v :| Holds(s, v, k);
      assert Holds(t, v, k);
    }
  }

  lemma HeldMoved(s: State, w: nat, a: Act)
    requires IsWorker(s, w) && ActEnabled(s, w, a) && !a.Take? && !a.Call? && !a.Skip?
    ensures HeldBy(Moved(s, w, a).pc) == HeldBy(s.workers[w].pc)
  {
  }

  // What such an act does to the history.
  lemma SharedHistory(s: State, pc: Pc, a: Act)
    requires !a.Take? && !a.Call? && !a.Skip?
    requires a.ReturnDone? && pc.Executing? ==> pc.i < |s.taken|
    requires a.Fire? ==> s.pending > 0
    requires s.pushed == s.taken + s.tasks
    ensures var t := Shared(s, pc, a);
      && t.taken == s.taken && t.calls == s.calls && t.skipped == s.skipped && s.done <= t.done
      && t.pushed == t.taken + t.tasks
  {
  }

  lemma ActHistory(s: State, w: nat, a: Act)
    requires History(s) && IsWorker(s, w) && ActEnabled(s, w, a)
    ensures History(DoAct(s, w, a))
  {
    if a.Take? {
      DequeueHistory(s, w);
    } else if a.Call? || a.Skip? {
      CallHistory(s, w, a);
    } else {
      HeldMoved(s, w, a);
      SharedHistory(s, s.workers[w].pc, a);
      QuietHistory(s, DoAct(s, w, a), w, Moved(s, w, a));
    }
  }

  lemma StepHistory(s: State, step: Step)
    requires Base(s) && History(s) && Enabled(s, step)
    ensures History(Do(s, step))
  {
    if step.Work? {
      ActHistory(s, step.w, step.act);
    } else {
      OthersKeep(s, step);
      OthersPush(s, step);
      QuietHistory(s, Do(s, step), 0, s.workers[0]);
    }
  }

  // ---- shutdown ----

  // Only an empty scan or a done fiber ends run.
  lemma MovedExits(s: State, w: nat, a: Act)
    requires IsWorker(s, w) && ActEnabled(s, w, a)
    ensures Moved(s, w, a).pc.Exited? ==> a.FindEmpty? || (a.Skip? && s.workers[w].idleDone)
  {
  }

  lemma StepExits(s: State, step: Step)
    requires Inv(s) && Enabled(s, step)
    ensures var t := Do(s, step); t.strayed <==> AllExited(t) && t.tasks != []
  {
    var t := Do(s, step);
    assert WorkerOk(s.stopping, s.now, s.workers[0]);
    if step.Work? {
      var w := step.w;
      MovedExits(s, w, step.act);
      assert t.workers[w] == Moved(s, w, step.act);
      assert !s.workers[w].pc.Exited?;
      assert forall v :: 0 <= v < |s.workers| && v != w ==> t.workers[v] == s.workers[v];
      assert AllExited(t) <==> Moved(s, w, step.act).pc.Exited? && OthersExited(s, w);
    } else {
      OthersKeep(s, step);
      OthersPush(s, step);
      if AllExited(s) {
        assert s.workers[0].pc.Exited? && !CanAct(s);
      }
    }
  }

  lemma StepInv(s: State, step: Step)
    requires Inv(s) && Enabled(s, step)
    ensures Inv(Do(s, step))
  {
    StepBase(s, step);
    StepHistory(s, step);
    StepExits(s, step);
  }

  lemma {:induction false} RunInv(s: State, run: seq<Step>)
    requires Inv(s) && Legal(s, run)
    ensures Inv(Final(s, run))
    decreases |run|
  {
    if run != [] {
      StepInv(s, run[0]);
      RunInv(Do(s, run[0]), run[1..]);
    }
  }

  lemma {:induction false} InitCounts(ws: seq<Worker>)
    requires forall w :: 0 <= w < |ws| ==> ws[w].pc == Fetch
    ensures IdleCount(ws) == 0 && ActiveCount(ws) == 0
    decreases |ws|
  {
    if ws != [] {
      InitCounts(ws[1..]);
    }
  }

  lemma InitInv(s: State)
    requires Init(s)
    ensures Inv(s)
  {
    InitCounts(s.workers);
    assert s.workers[0].pc == Fetch;
  }

  // What became of task number i by the end: called, dropped as a fiber that
  // had finished, or still queued.
  ghost predicate Called(t: State, i: nat) { i in t.calls }
  ghost predicate DroppedAsDone(t: State, i: nat) {
    i in t.skipped && i < |t.pushed| && t.pushed[i].Fiber? && t.pushed[i].id in t.done
  }
  ghost predicate LeftQueued(t: State, i: nat) { |t.taken| <= i < |t.pushed| }

  // Tasks at shutdown, with any number of workers: once all of them have
  // returned, every task ever scheduled was called, once, or dropped as a
  // finished fiber, or is left in the queue, in that order of scheduling; and
  // some are left exactly when the last worker left run with a done fiber in its
  // hand while tasks were queued.
  lemma NoTaskLostIff(s: State, run: seq<Step>)
    requires Init(s) && Legal(s, run) && AllExited(Final(s, run))
    ensures var t := Final(s, run);
      && (t.tasks == [] <==> !t.strayed)
      && t.pushed == t.taken + t.tasks
      && (forall i, j :: 0 <= i < j < |t.calls| ==> t.calls[i] != t.calls[j])
      && (forall i :: 0 <= i < |t.pushed| ==>
        One(Called(t, i)) + One(DroppedAsDone(t, i)) + One(LeftQueued(t, i)) == 1)
  {
    InitInv(s);
    RunInv(s, run);
    var t := Final(s, run);
    forall i | 0 <= i < |t.pushed|
      ensures One(Called(t, i)) + One(DroppedAsDone(t, i)) + One(LeftQueued(t, i)) == 1
    {
      assert !InHand(t, i);
      assert i < |t.taken| ==> t.pushed[i] == t.taken[i];
    }
  }

  lemma MovedStops(s: State, w: nat, a: Act)
    requires IsWorker(s, w) && ActEnabled(s, w, a) && s.active > 0
    ensures Moved(s, w, a).idleDone == s.workers[w].idleDone
  {
  }

  lemma StepKeepsEnds(s: State, step: Step, w: nat)
    requires Enabled(s, step) && s.active > 0 && IsWorker(s, w)
    ensures IsWorker(Do(s, step), w) && Do(s, step).workers[w].idleDone == s.workers[w].idleDone
    ensures s.skipped <= Do(s, step).skipped
  {
    if step.Work? {
      MovedStops(s, step.w, step.act);
    } else {
      OthersKeep(s, step);
    }
  }

  // A dequeued done fiber stays counted in m_active_threads, so from then on no
  // idle fiber ends: shouldStop is false for good.
  lemma {:induction false} LeakBlocksStop(s: State, run: seq<Step>, w: nat)
    requires Inv(s) && Legal(s, run) && s.skipped != {} && IsWorker(s, w)
    ensures IsWorker(Final(s, run), w) && Final(s, run).workers[w].idleDone == s.workers[w].idleDone
    decreases |run|
  {
    if run != [] {
      StepInv(s, run[0]);
      StepKeepsEnds(s, run[0], w);
      LeakBlocksStop(Do(s, run[0]), run[1..], w);
    }
  }
}
