/**
 * Quiescence at shutdown with one worker: when shouldStop is true there is no
 * work left and none appears.
 */
module SchedulerQuiet {
  import opened Basics
  import opened Timers
  import opened SchedulerMachine
  import opened SchedulerHistory

  // No task, timer, pending event or executing task.
  ghost predicate Quiet(s: State) {
    s.tasks == [] && s.timers == {} && s.pending == 0 && s.active == 0
  }

  // One worker: between the two halves of shouldStop nobody adds a timer once
  // stop has been called; after shouldStop all is quiet and the worker is on
  // its way out.
  ghost predicate OneWorker(s: State) {
    && |s.workers| == 1
    && var k := s.workers[0];
      && (k.pc.StopCheck2? && s.stopping ==> s.timers == {})
      && (k.idleDone ==> Quiet(s) && (k.pc.Leaving? || k.pc.Fetch? || k.pc.Exited?))
  }

  lemma MovedWhenDone(s: State, a: Act)
    requires OneWorker(s) && s.workers[0].idleDone && ActEnabled(s, 0, a)
    ensures (a.Leave? || a.FindEmpty?) && (Moved(s, 0, a).pc.Fetch? || Moved(s, 0, a).pc.Exited?)
  {
  }

  lemma MovedBefore(s: State, a: Act)
    requires OneWorker(s) && !s.workers[0].idleDone && ActEnabled(s, 0, a)
    ensures Moved(s, 0, a).pc.StopCheck2? ==> a.SeeNoTimers? && s.timers == {}
    ensures Moved(s, 0, a).idleDone ==> a.DecideStop? && Quiet(s) && Moved(s, 0, a).pc.Leaving?
  {
  }

  lemma ActOneWorker(s: State, a: Act)
    requires OneWorker(s) && ActEnabled(s, 0, a)
    ensures OneWorker(DoAct(s, 0, a))
  {
    if s.workers[0].idleDone {
      MovedWhenDone(s, a);
    } else {
      MovedBefore(s, a);
    }
  }

  lemma OtherOneWorker(s: State, step: Step)
    requires Base(s) && OneWorker(s) && Enabled(s, step) && !step.Work?
    ensures OneWorker(Do(s, step))
  {
    assert WorkerOk(s.stopping, s.now, s.workers[0]);
    assert CanAct(s) ==> !s.stopping || s.workers[0].pc.Executing?;
  }

  lemma StepOneWorker(s: State, step: Step)
    requires Inv(s) && OneWorker(s) && Enabled(s, step)
    ensures Inv(Do(s, step)) && OneWorker(Do(s, step))
    ensures Do(s, step).late == s.late
  {
    StepInv(s, step);
    if step.Work? {
      ActOneWorker(s, step.act);
    } else {
      OthersKeep(s, step);
      OtherOneWorker(s, step);
    }
  }

  lemma {:induction false} RunOneWorker(s: State, run: seq<Step>)
    requires Inv(s) && OneWorker(s) && Legal(s, run)
    ensures Inv(Final(s, run)) && OneWorker(Final(s, run)) && Final(s, run).late == s.late
    decreases |run|
  {
    if run != [] {
      StepOneWorker(s, run[0]);
      RunOneWorker(Do(s, run[0]), run[1..]);
    }
  }

  // One-worker quiescence: in every state reached after its idle fiber saw
  // shouldStop true there is no task, timer, pending event or executing task,
  // and the only acts left to the worker take it out of run: `Leave`, then a
  // scan that finds nothing.
  lemma QuiescentAtStop(s: State, run: seq<Step>, a: Act)
    requires Init(s) && |s.workers| == 1 && Legal(s, run)
    requires Final(s, run).workers != [] && Final(s, run).workers[0].idleDone
    ensures var t := Final(s, run);
      && Quiet(t) && ActiveCount(t.workers) == 0 && t.skipped == {}
      && (ActEnabled(t, 0, a) ==>
        || (a.Leave? && t.workers[0].pc.Leaving? && Moved(t, 0, a).pc.Fetch?)
        || (a.FindEmpty? && t.workers[0].pc.Fetch? && Moved(t, 0, a).pc.Exited?))
  {
    InitInv(s);
    RunOneWorker(s, run);
  }
}
