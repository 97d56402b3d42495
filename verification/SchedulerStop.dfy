/**
 * Stopping with any number of workers: what shouldStop may overlook, exactly
 * when its answer is final, what can be left when all workers have returned,
 * and when the scheduler can be started again.
 */
module SchedulerStop {
  import opened Basics
  import opened Timers
  import opened SchedulerMachine
  import opened SchedulerHistory
  import opened SchedulerQuiet

  // The worker has a task, a READY fiber or expired callbacks in its hands.
  predicate HasWork(pc: Pc) {
    pc.Counting? || pc.Offering? || pc.Deciding? || pc.Executing? || pc.Back? || pc.Requeueing? || pc.Carrying?
  }

  // Work that is in no queue and in no counter: between the dequeue and
  // ++m_active_threads, between --m_active_threads and the requeue, and between
  // getExpiredFuncs and schedule.
  predicate Overlooked(pc: Pc) {
    pc.Counting? || pc.Requeueing? || pc.Carrying?
  }

  ghost predicate NoneOverlooked(s: State) {
    forall v :: 0 <= v < |s.workers| ==> !Overlooked(s.workers[v].pc)
  }

  // There is no work anywhere, and after stop nobody can bring any.
  ghost predicate Settled(s: State) {
    && s.stopping && s.tasks == [] && s.timers == {} && s.pending == 0
    && forall v :: 0 <= v < |s.workers| ==> !HasWork(s.workers[v].pc)
  }

  // ---- the moment shouldStop is true ----

  lemma StopSeesNoCounted(s: State, w: nat, v: nat)
    requires Inv(s) && IsWorker(s, w) && ActEnabled(s, w, DecideStop) && IsWorker(s, v)
    ensures s.skipped == {} && !IsCounted(s.workers[v].pc)
    ensures HasWork(s.workers[v].pc) <==> Overlooked(s.workers[v].pc)
  {
    CountPositive(s.workers, v);
  }

  // Exactly when every task scheduled so far has been called.
  lemma AllCalledIff(s: State, w: nat)
    requires Inv(s) && IsWorker(s, w) && ActEnabled(s, w, DecideStop)
    ensures (forall i :: 0 <= i < |s.pushed| ==> i in s.calls) <==>
            (forall v :: 0 <= v < |s.workers| ==> !s.workers[v].pc.Counting?)
  {
    StopSeesNoCounted(s, w, w);
    forall v | 0 <= v < |s.workers| ensures s.workers[v].pc.Counting? <==> HeldBy(s.workers[v].pc).Some? {
      StopSeesNoCounted(s, w, v);
    }
    if forall i :: 0 <= i < |s.pushed| ==> i in s.calls {
      forall v | 0 <= v < |s.workers| ensures !s.workers[v].pc.Counting? {
        if s.workers[v].pc.Counting? {
          assert Holds(s, v, s.workers[v].pc.i);
        }
      }
    }
    if forall v :: 0 <= v < |s.workers| ==> !s.workers[v].pc.Counting? {
      forall i | 0 <= i < |s.pushed| ensures i in s.calls {
        assert !InHand(s, i);
      }
    }
  }

  // Exactly when there is no work left at all. The timers were looked at before
  // the rest, so one may have been added in between.
  lemma SettledIff(s: State, w: nat)
    requires Inv(s) && IsWorker(s, w) && ActEnabled(s, w, DecideStop)
    ensures Settled(s) <==> s.timers == {} && NoneOverlooked(s)
  {
    forall v | 0 <= v < |s.workers| ensures HasWork(s.workers[v].pc) <==> Overlooked(s.workers[v].pc) {
      StopSeesNoCounted(s, w, v);
    }
  }

  // ---- a settled scheduler stays settled ----

  lemma NoElems(due: seq<Entry>)
    ensures due != [] ==> Elems(due) != {}
  {
    if due != [] {
      assert due[0] in Elems(due);
    }
  }

  lemma ActSettled(s: State, w: nat, a: Act)
    requires Settled(s) && IsWorker(s, w) && ActEnabled(s, w, a)
    ensures !HasWork(Moved(s, w, a).pc) && !a.Call? && !a.Skip? && !a.Take? && !a.Fire?
    ensures Batch(s.workers[w].pc, a) == []
    ensures a.Expire? ==> AfterPoll(s.timers, a.at) == {}
  {
    if a.Expire? {
      NoElems(a.due);
      assert Due({}, a.at) == {};
    }
  }

  lemma StepSettled(s: State, step: Step)
    requires Settled(s) && Enabled(s, step)
    ensures Settled(Do(s, step)) && Do(s, step).skipped == s.skipped && Do(s, step).late == s.late
    ensures Do(s, step).pushed == s.pushed && Do(s, step).calls == s.calls
  {
    if step.Work? {
      ActSettled(s, step.w, step.act);
    } else {
      assert !CanAct(s);
    }
  }

  lemma {:induction false} RunSettled(s: State, run: seq<Step>)
    requires Settled(s) && Legal(s, run)
    ensures Settled(Final(s, run)) && Final(s, run).skipped == s.skipped
    ensures Final(s, run).pushed == s.pushed && Final(s, run).calls == s.calls
    decreases |run|
  {
    if run != [] {
      StepSettled(s, run[0]);
      RunSettled(Do(s, run[0]), run[1..]);
    }
  }

  // Nothing is left and nothing appears, however the run goes on.
  ghost predicate StaysSettled(u: State) {
    forall run :: Legal(u, run) ==> Settled(Final(u, run))
  }

  lemma StaysSettledIff(u: State)
    ensures StaysSettled(u) <==> Settled(u)
  {
    if Settled(u) {
      forall run | Legal(u, run) ensures Settled(Final(u, run)) {
        RunSettled(u, run);
      }
    }
    if StaysSettled(u) {
      assert Legal(u, []) && Final(u, []) == u;
    }
  }

  // Quiescence with any number of workers: shouldStop's answer is final, in that
  // nothing is left and nothing appears in any continuation, exactly when no
  // timer was added since it looked and no worker is at one of the three
  // overlooked places.
  lemma StopIsFinalIff(s: State, before: seq<Step>, w: nat)
    requires Init(s) && Legal(s, before)
    requires IsWorker(Final(s, before), w) && ActEnabled(Final(s, before), w, DecideStop)
    ensures var t := Final(s, before);
      StaysSettled(DoAct(t, w, DecideStop)) <==> t.timers == {} && NoneOverlooked(t)
  {
    InitInv(s);
    RunInv(s, before);
    var t := Final(s, before);
    var u := DoAct(t, w, DecideStop);
    SettledIff(t, w);
    DecideKeeps(t, w);
    StaysSettledIff(u);
  }

  lemma DecideKeeps(t: State, w: nat)
    requires IsWorker(t, w) && ActEnabled(t, w, DecideStop)
    ensures Settled(DoAct(t, w, DecideStop)) <==> Settled(t)
  {
    var u := DoAct(t, w, DecideStop);
    assert u.workers == t.workers[w := Worker(Leaving, true)];
    forall v | 0 <= v < |t.workers| ensures HasWork(u.workers[v].pc) == HasWork(t.workers[v].pc) {
    }
  }

  // ---- what is left when all workers have returned ----

  // Every time shouldStop was true, it overlooked nothing.
  ghost predicate CleanStops(s: State, run: seq<Step>)
    requires Legal(s, run)
    decreases |run|
  {
    run == [] || (
      && (run[0].Work? && run[0].act.DecideStop? ==> s.timers == {} && NoneOverlooked(s))
      && CleanStops(Do(s, run[0]), run[1..]))
  }

  ghost predicate SomeStopped(s: State) {
    exists w :: 0 <= w < |s.workers| && s.workers[w].idleDone
  }

  ghost predicate CleanSoFar(s: State) {
    SomeStopped(s) ==> Settled(s) && s.skipped == {} && forall i :: 0 <= i < |s.pushed| ==> i in s.calls
  }

  lemma StepClean(s: State, step: Step)
    requires Inv(s) && CleanSoFar(s) && Enabled(s, step)
    requires step.Work? && step.act.DecideStop? ==> s.timers == {} && NoneOverlooked(s)
    ensures CleanSoFar(Do(s, step))
  {
    if SomeStopped(s) {
      StepSettled(s, step);
    } else if step.Work? {
      if step.act.DecideStop? {
        SettledIff(s, step.w);
        DecideKeeps(s, step.w);
        AllCalledIff(s, step.w);
        StopSeesNoCounted(s, step.w, step.w);
      } else {
        NoNewStop(s, step.w, step.act);
      }
    } else {
      OthersKeep(s, step);
    }
  }

  lemma NoNewStop(s: State, w: nat, a: Act)
    requires IsWorker(s, w) && ActEnabled(s, w, a) && !a.DecideStop? && !SomeStopped(s)
    ensures !SomeStopped(DoAct(s, w, a))
  {
    assert Moved(s, w, a).idleDone == s.workers[w].idleDone;
  }

  lemma {:induction false} RunClean(s: State, run: seq<Step>)
    requires Inv(s) && CleanSoFar(s) && Legal(s, run) && CleanStops(s, run)
    ensures Inv(Final(s, run)) && CleanSoFar(Final(s, run))
    decreases |run|
  {
    if run != [] {
      StepInv(s, run[0]);
      StepClean(s, run[0]);
      RunClean(Do(s, run[0]), run[1..]);
    }
  }

  // If shouldStop never overlooked anything, nothing is left: every task was
  // called exactly once, no timer is armed and no event is pending.
  lemma CleanStopsLeaveNothing(s: State, run: seq<Step>)
    requires Init(s) && Legal(s, run) && CleanStops(s, run) && AllExited(Final(s, run))
    ensures var t := Final(s, run);
      && t.tasks == [] && t.timers == {} && t.pending == 0
      && (forall i, j :: 0 <= i < j < |t.calls| ==> t.calls[i] != t.calls[j])
      && (forall i :: 0 <= i < |t.pushed| ==> i in t.calls)
  {
    InitInv(s);
    RunClean(s, run);
    var t := Final(s, run);
    assert WorkerOk(t.stopping, t.now, t.workers[0]) && t.workers[0].pc.Exited?;
  }

  // ---- calls after the end of the idle fiber ----

  // Where a worker whose idle fiber has ended can be, unless it has called a
  // task since.
  predicate Winding(pc: Pc) {
    pc.Leaving? || pc.Fetch? || pc.Counting? || pc.Offering? || pc.Deciding? || pc.Exited?
  }

  ghost predicate OthersDone(s: State, w: nat) {
    forall v :: 0 <= v < |s.workers| && v != w ==> s.workers[v].idleDone
  }

  ghost predicate AllDone(s: State) {
    forall v :: 0 <= v < |s.workers| ==> s.workers[v].idleDone
  }

  // m_mutex has one holder.
  ghost predicate OneChecks(s: State) {
    forall v, w :: 0 <= v < |s.workers| && 0 <= w < |s.workers| && s.workers[v].pc.StopCheck2? && s.workers[w].pc.StopCheck2? ==> v == w
  }

  ghost predicate DoneWind(s: State) {
    forall v :: 0 <= v < |s.workers| && s.workers[v].idleDone ==> Winding(s.workers[v].pc)
  }

  ghost predicate LastCheck(s: State) {
    forall w :: 0 <= w < |s.workers| && s.workers[w].pc.StopCheck2? && OthersDone(s, w) && s.stopping ==> s.timers == {}
  }

  ghost predicate NothingLeft(s: State) { s.tasks == [] && s.timers == {} && s.pending == 0 }

  // While no worker has called a task after its own idle fiber ended, nothing
  // is left once all idle fibers have ended.
  ghost predicate Punctual(s: State) {
    && OneChecks(s)
    && (!s.late ==> DoneWind(s) && LastCheck(s) && (AllDone(s) ==> NothingLeft(s)))
  }

  lemma ActOneChecks(s: State, w: nat, a: Act)
    requires OneChecks(s) && IsWorker(s, w) && ActEnabled(s, w, a)
    ensures OneChecks(DoAct(s, w, a))
  {
    assert Moved(s, w, a).pc.StopCheck2? ==> a.SeeNoTimers?;
  }

  lemma MovedWinds(s: State, w: nat, a: Act)
    requires Base(s) && IsWorker(s, w) && ActEnabled(s, w, a)
    requires s.workers[w].idleDone ==> Winding(s.workers[w].pc)
    ensures !(a.Call? && s.workers[w].idleDone) && Moved(s, w, a).idleDone ==> Winding(Moved(s, w, a).pc)
  {
    assert WorkerOk(s.stopping, s.now, s.workers[w]);
  }

  // An act of a winding worker brings no work.
  lemma WindingActs(s: State, w: nat, a: Act)
    requires IsWorker(s, w) && ActEnabled(s, w, a) && Winding(s.workers[w].pc)
    ensures Batch(s.workers[w].pc, a) == [] && !a.Expire? && !a.Fire? && !Moved(s, w, a).pc.StopCheck2?
    ensures Moved(s, w, a).idleDone == s.workers[w].idleDone
  {
  }

  lemma ActPunctual(s: State, w: nat, a: Act)
    requires Base(s) && Punctual(s) && IsWorker(s, w) && ActEnabled(s, w, a)
    ensures Punctual(DoAct(s, w, a))
  {
    var t := DoAct(s, w, a);
    ActOneChecks(s, w, a);
    if !t.late {
      MovedWinds(s, w, a);
      assert t.workers == s.workers[w := Moved(s, w, a)];
      assert DoneWind(t);
      ActLastCheck(s, w, a);
      if AllDone(t) {
        ActAllDone(s, w, a);
      }
    }
  }

  lemma ActLastCheck(s: State, w: nat, a: Act)
    requires Base(s) && Punctual(s) && IsWorker(s, w) && ActEnabled(s, w, a) && !s.late
    ensures LastCheck(DoAct(s, w, a))
  {
    var t := DoAct(s, w, a);
    assert t.workers == s.workers[w := Moved(s, w, a)];
    forall v | 0 <= v < |t.workers| && t.workers[v].pc.StopCheck2? && OthersDone(t, v) && t.stopping ensures t.timers == {} {
      if v == w {
        assert Moved(s, w, a).pc.StopCheck2? ==> a.SeeNoTimers?;
      } else {
        assert t.workers[w].idleDone;
        if s.workers[w].idleDone {
          WindingActs(s, w, a);
          forall x | 0 <= x < |s.workers| && x != v ensures s.workers[x].idleDone {
            assert x != w ==> t.workers[x] == s.workers[x];
          }
          assert OthersDone(s, v);
        } else {
          assert false;
        }
      }
    }
  }

  lemma ActAllDone(s: State, w: nat, a: Act)
    requires Base(s) && Punctual(s) && IsWorker(s, w) && ActEnabled(s, w, a) && !s.late && AllDone(DoAct(s, w, a))
    ensures NothingLeft(DoAct(s, w, a))
  {
    var t := DoAct(s, w, a);
    assert t.workers == s.workers[w := Moved(s, w, a)];
    assert OthersDone(s, w) by {
      forall v | 0 <= v < |s.workers| && v != w ensures s.workers[v].idleDone {
        assert t.workers[v].idleDone;
      }
    }
    assert t.workers[w].idleDone;
    if s.workers[w].idleDone {
      WindingActs(s, w, a);
      assert AllDone(s);
    } else {
      assert a.DecideStop?;
    }
  }

  // With nobody executing after stop, only the pipe and the clock change.
  lemma NobodyActs(s: State, step: Step)
    requires Enabled(s, step) && !step.Work? && s.stopping && !CanAct(s)
    ensures Do(s, step).timers == s.timers && Do(s, step).tasks == s.tasks && Do(s, step).pending == s.pending
  {
  }

  lemma OtherLastCheck(s: State, step: Step)
    requires Punctual(s) && !s.late && Enabled(s, step) && !step.Work?
    ensures LastCheck(Do(s, step))
  {
    var t := Do(s, step);
    OthersKeep(s, step);
    forall w | 0 <= w < |t.workers| && t.workers[w].pc.StopCheck2? && OthersDone(t, w) && t.stopping ensures t.timers == {} {
      assert OthersDone(s, w);
      StopNeedsMutex(s, step, w);
      assert forall v :: 0 <= v < |s.workers| ==> !s.workers[v].pc.Executing?;
      NobodyActs(s, step);
    }
  }

  lemma StopNeedsMutex(s: State, step: Step, w: nat)
    requires Enabled(s, step) && !step.Work? && IsWorker(s, w) && s.workers[w].pc.StopCheck2?
    ensures Do(s, step).stopping == s.stopping
  {
    assert !MutexFree(s);
  }

  lemma OtherPunctual(s: State, step: Step)
    requires Base(s) && Punctual(s) && Enabled(s, step) && !step.Work?
    ensures Punctual(Do(s, step))
  {
    OthersKeep(s, step);
    if !s.late {
      OtherLastCheck(s, step);
      if AllDone(s) {
        assert WorkerOk(s.stopping, s.now, s.workers[0]) && s.workers[0].idleDone;
        assert forall v :: 0 <= v < |s.workers| ==> !s.workers[v].pc.Executing?;
        NobodyActs(s, step);
      }
    }
  }

  lemma {:induction false} RunPunctual(s: State, run: seq<Step>)
    requires Inv(s) && Punctual(s) && Legal(s, run)
    ensures Inv(Final(s, run)) && Punctual(Final(s, run))
    decreases |run|
  {
    if run != [] {
      StepInv(s, run[0]);
      if run[0].Work? {
        ActPunctual(s, run[0].w, run[0].act);
      } else {
        OtherPunctual(s, run[0]);
      }
      RunPunctual(Do(s, run[0]), run[1..]);
    }
  }

  // Nothing is left when all workers have returned, no task, timer or pending
  // event, unless some worker called a task after its own idle fiber had ended.
  lemma NothingLeftUnlessLate(s: State, run: seq<Step>)
    requires Init(s) && Legal(s, run) && AllExited(Final(s, run)) && !Final(s, run).late
    ensures NothingLeft(Final(s, run))
  {
    InitInv(s);
    RunPunctual(s, run);
    var t := Final(s, run);
    forall v | 0 <= v < |t.workers| ensures t.workers[v].idleDone {
      assert WorkerOk(t.stopping, t.now, t.workers[v]) && t.workers[v].pc.Exited?;
    }
  }

  // With one worker that never happens: every task was called exactly once, and
  // no timer is armed and no event pending, when run has returned.
  lemma OneWorkerLosesNothing(s: State, run: seq<Step>)
    requires Init(s) && |s.workers| == 1 && Legal(s, run) && AllExited(Final(s, run))
    ensures var t := Final(s, run);
      && NothingLeft(t) && t.skipped == {} && t.taken == t.pushed
      && (forall i, j :: 0 <= i < j < |t.calls| ==> t.calls[i] != t.calls[j])
      && (forall i :: 0 <= i < |t.pushed| ==> i in t.calls)
  {
    InitInv(s);
    RunOneWorker(s, run);
    var t := Final(s, run);
    assert t.workers[0].pc.Exited? && WorkerOk(t.stopping, t.now, t.workers[0]);
    assert t.skipped == {};
    forall i | 0 <= i < |t.pushed| ensures i in t.calls {
      assert !InHand(t, i);
    }
  }

  // ---- starting again ----

  // stop after its joins, then start: new workers on the same queue, timers,
  // events, counters and pipe.
  ghost function Restarted(t: State): State {
    t.(workers := seq(|t.workers|, _ => Worker(Fetch, false)), stopping := false,
       pushed := t.tasks, taken := [], calls := [], skipped := {}, strayed := false, late := false)
  }

  // The scheduler starts again as if new, so that everything proved from Init
  // holds of its next life, exactly when nothing was left and no done fiber was
  // ever dequeued.
  lemma RestartIsCleanIff(s: State, run: seq<Step>)
    requires Init(s) && Legal(s, run) && AllExited(Final(s, run))
    ensures Init(Restarted(Final(s, run))) <==> NothingLeft(Final(s, run)) && Final(s, run).skipped == {}
  {
    InitInv(s);
    RunInv(s, run);
    var t := Final(s, run);
    ExitedCounts(t.workers);
  }

  lemma {:induction false} ExitedCounts(ws: seq<Worker>)
    requires forall w :: 0 <= w < |ws| ==> ws[w].pc.Exited?
    ensures IdleCount(ws) == 0 && ActiveCount(ws) == 0
  {
    if ws != [] {
      ExitedCounts(ws[1..]);
    }
  }

  lemma OneWorkerRestarts(s: State, run: seq<Step>)
    requires Init(s) && |s.workers| == 1 && Legal(s, run) && AllExited(Final(s, run))
    ensures Init(Restarted(Final(s, run)))
  {
    OneWorkerLosesNothing(s, run);
    RestartIsCleanIff(s, run);
  }
}
