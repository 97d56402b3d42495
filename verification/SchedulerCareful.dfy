/**
 * A condition the callers of schedule can check: a fiber is scheduled only if
 * it has not finished and is not already queued or in a worker's hands. Then no
 * worker ever meets a done fiber, whatever the number of workers.
 */
module SchedulerCareful {
  import opened Basics
  import opened Timers
  import opened SchedulerMachine
  import opened SchedulerHistory

  // How often fiber f is in a list of tasks.
  function Queued(ts: seq<Task>, f: nat): nat {
    if ts == [] then 0 else One(ts[0] == Fiber(f)) + Queued(ts[1..], f)
  }

  lemma {:induction false} QueuedConcat(a: seq<Task>, b: seq<Task>, f: nat)
    ensures Queued(a + b, f) == Queued(a, f) + Queued(b, f)
    decreases |a|
  {
    if a == [] {
      assert a + b == b;
    } else {
      assert (a + b)[0] == a[0] && (a + b)[1..] == a[1..] + b;
      QueuedConcat(a[1..], b, f);
    }
  }

  // Whether a worker has fiber f in its hands, from the dequeue to the requeue.
  ghost predicate InHands(pc: Pc, taken: seq<Task>, f: nat) {
    match pc
    case Counting(i, _) => i < |taken| && taken[i] == Fiber(f)
    case Offering(i) => i < |taken| && taken[i] == Fiber(f)
    case Deciding(i) => i < |taken| && taken[i] == Fiber(f)
    case Executing(i) => i < |taken| && taken[i] == Fiber(f)
    case Back(ready) => ready == Some(Fiber(f))
    case Requeueing(t) => t == Fiber(f)
    case _ => false
  }

  ghost function Handled(ws: seq<Worker>, taken: seq<Task>, f: nat): nat {
    if ws == [] then 0 else One(InHands(ws[0].pc, taken, f)) + Handled(ws[1..], taken, f)
  }

  lemma {:induction false} HandledUpdate(ws: seq<Worker>, taken: seq<Task>, w: nat, k: Worker, f: nat)
    requires w < |ws|
    ensures Handled(ws[w := k], taken, f) == Handled(ws, taken, f) - One(InHands(ws[w].pc, taken, f)) + One(InHands(k.pc, taken, f))
    decreases |ws|
  {
    if w == 0 {
      assert ws[w := k][1..] == ws[1..];
    } else {
      assert ws[w := k][1..] == ws[1..][w - 1 := k];
      HandledUpdate(ws[1..], taken, w - 1, k, f);
    }
  }

  // Numbers in hand are those of tasks already taken, so taking one more
  // changes nobody else's hands.
  ghost predicate NumbersOk(ws: seq<Worker>, n: nat) {
    forall w :: 0 <= w < |ws| && (HeldBy(ws[w].pc).Some? || ws[w].pc.Executing?) ==> ws[w].pc.i < n
  }

  lemma {:induction false} HandledGrow(ws: seq<Worker>, taken: seq<Task>, t: Task, f: nat)
    requires NumbersOk(ws, |taken|)
    ensures Handled(ws, taken + [t], f) == Handled(ws, taken, f)
  {
    if ws != [] {
      assert InHands(ws[0].pc, taken + [t], f) == InHands(ws[0].pc, taken, f);
      HandledGrow(ws[1..], taken, t, f);
    }
  }

  lemma {:induction false} HandledAtLeast(ws: seq<Worker>, taken: seq<Task>, w: nat, f: nat)
    requires w < |ws| && InHands(ws[w].pc, taken, f)
    ensures Handled(ws, taken, f) > 0
    decreases |ws|
  {
    if w > 0 {
      HandledAtLeast(ws[1..], taken, w - 1, f);
    }
  }

  ghost function Uses(s: State, f: nat): nat {
    Queued(s.tasks, f) + Handled(s.workers, s.taken, f)
  }

  ghost predicate CallbacksOnly(pc: Pc) {
    pc.Carrying? ==> forall i :: 0 <= i < |pc.funcs| ==> pc.funcs[i].Func?
  }

  // No fiber is in two places, and none in any place has finished.
  ghost predicate Apart(s: State) {
    && NumbersOk(s.workers, |s.taken|)
    && (forall w :: 0 <= w < |s.workers| ==> CallbacksOnly(s.workers[w].pc))
    && (forall f: nat :: Uses(s, f) <= 1)
    && (forall f: nat :: Uses(s, f) > 0 ==> f !in s.done)
  }

  // The callers' condition on a batch, and on the fiber of a function that
  // yields READY, which is a new one.
  ghost predicate MayAdd(s: State, batch: seq<Task>) {
    forall f: nat :: Queued(batch, f) > 0 ==> Queued(batch, f) == 1 && Uses(s, f) == 0 && f !in s.done
  }

  ghost predicate Careful(s: State, step: Step) {
    match step
    case Push(batch) => MayAdd(s, batch)
    case CancelEvent(t) => MayAdd(s, [t])
    case Work(w, Fire(t)) => MayAdd(s, [t])
    case Work(w, ReturnReady(id)) => MayAdd(s, [Fiber(id)]) || (IsWorker(s, w) && s.workers[w].pc.Executing? &&
      s.workers[w].pc.i < |s.taken| && s.taken[s.workers[w].pc.i].Fiber?)
    case _ => true
  }

  // ---- every careful step keeps it ----

  ghost predicate ReturnsFunc(s: State, pc: Pc, a: Act) {
    a.ReturnReady? && pc.Executing? && pc.i < |s.taken| && s.taken[pc.i].Func?
  }

  // What an act does to its worker's hands.
  ghost function HandChange(s: State, pc: Pc, a: Act, f: nat): int
  {
    if a.Take? then One(s.tasks != [] && s.tasks[0] == Fiber(f))
    else if a.Requeue? then 0 - One(pc == Requeueing(Fiber(f)))
    else if ReturnsFunc(s, pc, a) then One(a.id == f)
    else if a.ReturnSuspended? || a.ReturnDone? || a.Skip? then 0 - One(InHands(pc, s.taken, f))
    else 0
  }

  // Acts that can change hands.
  predicate IsTaskAct(a: Act) {
    a.Take? || a.Count? || a.Offer? || a.Call? || a.Skip? || a.ReturnReady? || a.ReturnSuspended? || a.ReturnDone? || a.Uncount? || a.Requeue?
  }

  lemma TaskHandMoved(s: State, w: nat, a: Act, f: nat)
    requires IsWorker(s, w) && ActEnabled(s, w, a) && IsTaskAct(a)
    ensures One(InHands(Moved(s, w, a).pc, if a.Take? then s.taken + [s.tasks[0]] else s.taken, f)) ==
      One(InHands(s.workers[w].pc, s.taken, f)) + HandChange(s, s.workers[w].pc, a, f)
  {
  }

  lemma OtherHandMoved(s: State, w: nat, a: Act, f: nat)
    requires IsWorker(s, w) && ActEnabled(s, w, a) && !IsTaskAct(a)
    ensures !InHands(Moved(s, w, a).pc, s.taken, f) && !InHands(s.workers[w].pc, s.taken, f)
  {
  }

  lemma HandMoved(s: State, w: nat, a: Act, f: nat)
    requires IsWorker(s, w) && ActEnabled(s, w, a)
    ensures One(InHands(Moved(s, w, a).pc, DoAct(s, w, a).taken, f)) ==
      One(InHands(s.workers[w].pc, s.taken, f)) + HandChange(s, s.workers[w].pc, a, f)
  {
    assert DoAct(s, w, a).taken == if a.Take? then s.taken + [s.tasks[0]] else s.taken;
    if IsTaskAct(a) {
      TaskHandMoved(s, w, a, f);
    } else {
      OtherHandMoved(s, w, a, f);
    }
  }

  lemma HandledMoved(s: State, w: nat, a: Act, f: nat)
    requires NumbersOk(s.workers, |s.taken|) && IsWorker(s, w) && ActEnabled(s, w, a)
    ensures var t := DoAct(s, w, a);
      Handled(t.workers, t.taken, f) == Handled(s.workers, s.taken, f) + HandChange(s, s.workers[w].pc, a, f)
  {
    var t := DoAct(s, w, a);
    if a.Take? {
      HandledGrow(s.workers, s.taken, s.tasks[0], f);
    }
    assert Handled(s.workers, t.taken, f) == Handled(s.workers, s.taken, f);
    assert InHands(s.workers[w].pc, t.taken, f) == InHands(s.workers[w].pc, s.taken, f);
    HandledUpdate(s.workers, t.taken, w, Moved(s, w, a), f);
    HandMoved(s, w, a, f);
  }

  lemma {:induction false} CallbacksQueueNone(ts: seq<Task>, f: nat)
    requires forall i :: 0 <= i < |ts| ==> ts[i].Func?
    ensures Queued(ts, f) == 0
  {
    if ts != [] {
      CallbacksQueueNone(ts[1..], f);
    }
  }

  lemma QueuedOne(t: Task, f: nat)
    ensures Queued([t], f) == One(t == Fiber(f))
  {
    assert Queued([], f) == 0;
  }

  lemma BatchQueued(pc: Pc, a: Act, f: nat)
    requires CallbacksOnly(pc) && (a.Requeue? ==> pc.Requeueing?) && (a.Deliver? ==> pc.Carrying?)
    ensures Queued(Batch(pc, a), f) ==
      (if a.Requeue? then One(pc == Requeueing(Fiber(f))) else if a.Fire? then One(a.task == Fiber(f)) else 0)
  {
    if a.Requeue? {
      QueuedOne(pc.task, f);
    } else if a.Deliver? {
      CallbacksQueueNone(pc.funcs, f);
    } else if a.Fire? {
      QueuedOne(a.task, f);
    }
  }

  lemma QueuedMoved(s: State, w: nat, a: Act, f: nat)
    requires IsWorker(s, w) && ActEnabled(s, w, a) && CallbacksOnly(s.workers[w].pc)
    ensures Queued(DoAct(s, w, a).tasks, f) == Queued(s.tasks, f)
      - (if a.Take? then One(s.tasks[0] == Fiber(f)) else 0)
      + (if a.Requeue? then One(s.workers[w].pc == Requeueing(Fiber(f))) else if a.Fire? then One(a.task == Fiber(f)) else 0)
  {
    var b := Batch(s.workers[w].pc, a);
    BatchQueued(s.workers[w].pc, a, f);
    QueuedConcat(s.tasks, b, f);
    assert DoAct(s, w, a).tasks == if a.Take? then s.tasks[1..] else s.tasks + b;
  }

  lemma ActUses(s: State, w: nat, a: Act, f: nat)
    requires Apart(s) && IsWorker(s, w) && ActEnabled(s, w, a)
    ensures Uses(DoAct(s, w, a), f) == Uses(s, f)
      + (if a.Fire? then One(a.task == Fiber(f)) else if ReturnsFunc(s, s.workers[w].pc, a) then One(a.id == f) else 0)
      - (if a.ReturnSuspended? || a.ReturnDone? || a.Skip? then One(InHands(s.workers[w].pc, s.taken, f)) else 0)
  {
    HandledMoved(s, w, a, f);
    QueuedMoved(s, w, a, f);
  }

  lemma ActNumbers(s: State, w: nat, a: Act)
    requires Apart(s) && IsWorker(s, w) && ActEnabled(s, w, a)
    ensures var t := DoAct(s, w, a);
      NumbersOk(t.workers, |t.taken|) && forall v :: 0 <= v < |t.workers| ==> CallbacksOnly(t.workers[v].pc)
  {
    var t := DoAct(s, w, a);
    var k := Moved(s, w, a);
    assert t.workers == s.workers[w := k];
    assert CallbacksOnly(k.pc);
    assert HeldBy(k.pc).Some? || k.pc.Executing? ==> k.pc.i < |t.taken|;
  }

  lemma ActDone(s: State, w: nat, a: Act)
    requires IsWorker(s, w) && ActEnabled(s, w, a)
    ensures forall f :: f in DoAct(s, w, a).done ==> f in s.done || (a.ReturnDone? && InHands(s.workers[w].pc, s.taken, f))
  {
  }

  lemma ActApart(s: State, w: nat, a: Act)
    requires Apart(s) && IsWorker(s, w) && ActEnabled(s, w, a) && Careful(s, Work(w, a))
    ensures Apart(DoAct(s, w, a))
  {
    ActNumbers(s, w, a);
    ActDone(s, w, a);
    forall f: nat ensures Uses(DoAct(s, w, a), f) <= 1 && (Uses(DoAct(s, w, a), f) > 0 ==> f !in DoAct(s, w, a).done) {
      ActUses(s, w, a, f);
      if a.Fire? {
        QueuedOne(a.task, f);
      } else if a.ReturnReady? {
        QueuedOne(Fiber(a.id), f);
      }
    }
  }

  lemma OtherApart(s: State, step: Step)
    requires Apart(s) && Enabled(s, step) && !step.Work? && Careful(s, step)
    ensures Apart(Do(s, step))
  {
    OthersKeep(s, step);
    var t := Do(s, step);
    var batch := if step.Push? then step.batch else if step.CancelEvent? then [step.task] else [];
    assert t.tasks == s.tasks + batch;
    forall f: nat ensures Uses(t, f) == Uses(s, f) + Queued(batch, f) {
      QueuedConcat(s.tasks, batch, f);
    }
  }

  ghost predicate CarefulRun(s: State, run: seq<Step>)
    requires Legal(s, run)
    decreases |run|
  {
    run == [] || (Careful(s, run[0]) && CarefulRun(Do(s, run[0]), run[1..]))
  }

  // A worker about to look at its task does not find a done fiber.
  lemma NeverSkips(s: State, w: nat)
    requires Apart(s) && IsWorker(s, w)
    ensures !ActEnabled(s, w, Skip)
  {
    var pc := s.workers[w].pc;
    if pc.Deciding? && pc.i < |s.taken| && s.taken[pc.i].Fiber? {
      HandledAtLeast(s.workers, s.taken, w, s.taken[pc.i].id);
      assert Uses(s, s.taken[pc.i].id) > 0;
    }
  }

  lemma {:induction false} RunApart(s: State, run: seq<Step>)
    requires Apart(s) && Legal(s, run) && CarefulRun(s, run)
    ensures Apart(Final(s, run)) && Final(s, run).skipped == s.skipped && Final(s, run).strayed == s.strayed
    decreases |run|
  {
    if run != [] {
      if run[0].Work? {
        NeverSkips(s, run[0].w);
        ActApart(s, run[0].w, run[0].act);
      } else {
        OthersKeep(s, run[0]);
        OtherApart(s, run[0]);
      }
      RunApart(Do(s, run[0]), run[1..]);
    }
  }

  lemma {:induction false} NothingHandled(ws: seq<Worker>, taken: seq<Task>, f: nat)
    requires forall w :: 0 <= w < |ws| ==> ws[w].pc == Fetch
    ensures Handled(ws, taken, f) == 0
  {
    if ws != [] {
      NothingHandled(ws[1..], taken, f);
    }
  }

  // If fibers are scheduled carefully, no done fiber is dequeued and no task is
  // lost, with any number of workers: once all have returned, every task ever
  // scheduled has been called exactly once.
  lemma CarefulRunsLoseNoTask(s: State, run: seq<Step>)
    requires Init(s) && Legal(s, run) && CarefulRun(s, run) && AllExited(Final(s, run))
    ensures var t := Final(s, run);
      && t.tasks == [] && t.skipped == {}
      && (forall i, j :: 0 <= i < j < |t.calls| ==> t.calls[i] != t.calls[j])
      && (forall i :: 0 <= i < |t.pushed| ==> i in t.calls)
  {
    forall f: nat ensures Uses(s, f) == 0 {
      NothingHandled(s.workers, s.taken, f);
    }
    RunApart(s, run);
    NoTaskLostIff(s, run);
    var t := Final(s, run);
    forall i | 0 <= i < |t.pushed| ensures i in t.calls {
      assert One(Called(t, i)) + One(DroppedAsDone(t, i)) + One(LeftQueued(t, i)) == 1;
    }
  }
}
