/**
 * Functions with one worker (src/scheduler.cpp:136-178): what becomes of every
 * function handed to the scheduler, and the fiber that is kept for running them.
 */
module OwnedFunctions {
  import opened Basics
  import Fibers
  import opened Ownership

  // ---- functions are conserved ----

  predicate IsFn(t: Task) { t == OfFunc(UserFn) }

  function Fns(ts: seq<Task>): nat {
    if ts == [] then 0 else One(IsFn(ts[0])) + Fns(ts[1..])
  }

  lemma {:induction false} FnsConcat(a: seq<Task>, b: seq<Task>)
    ensures Fns(a + b) == Fns(a) + Fns(b)
    decreases |a|
  {
    if a == [] {
      assert a + b == b;
    } else {
      assert (a + b)[0] == a[0] && (a + b)[1..] == a[1..] + b;
      FnsConcat(a[1..], b);
    }
  }

  lemma FnsPush(a: seq<Task>, t: Task)
    ensures Fns(a + [t]) == Fns(a) + One(IsFn(t))
  {
    FnsConcat(a, [t]);
  }

  lemma FnsWithout(a: seq<Task>, i: nat)
    requires i < |a|
    ensures Fns(a) == Fns(Without(a, i)) + One(IsFn(a[i]))
  {
    assert a[..i + 1] == a[..i] + [a[i]] && a == a[..i + 1] + a[i + 1..];
    FnsPush(a[..i], a[i]);
    FnsConcat(a[..i + 1], a[i + 1..]);
    FnsConcat(a[..i], a[i + 1..]);
  }

  function HandFns(pc: Pc): nat {
    match pc
    case Counting(t) => One(IsFn(t))
    case Calling(t) => One(IsFn(t))
    case Idle(carried) => Fns(carried)
    case _ => 0
  }

  // The functions still to be called: in the queue, in event slots, in armed timers
  // and in the worker's hands.
  function Waiting(s: State): nat {
    Fns(s.tasks) + Fns(s.slots) + Fns(s.timers) + HandFns(s.pc)
  }

  // A function is handed in by schedule, a timer or an event, and once more each
  // time its timer is recurring; it goes by being called, or dropped with its timer
  // or event.
  ghost function HandedIn(step: Step): int {
    if step.Schedule? || step.AddTimer? || step.AddWaiter? || (step.Collect? && step.again) then 1 else 0
  }

  ghost function Gone(s: State, step: Step): int
    requires Enabled(s, step)
  {
    if step.DropTimer? || step.DropWaiter? || (step.CallFunc? && IsFn(s.pc.task)) then 1 else 0
  }

  lemma LoopFns(s: State, step: Step)
    requires Enabled(s, step) && IsLoopStep(step)
    ensures Waiting(Do(s, step)) == Waiting(s) - Gone(s, step)
  {
    if step.Settle? {
      FnsPush(s.tasks, OfFiber(s.pc.f));
    }
  }

  lemma IdleFns(s: State, step: Step)
    requires Enabled(s, step) && (step.Collect? || step.Deliver?)
    ensures Waiting(Do(s, step)) == Waiting(s) + HandedIn(step)
  {
    if step.Collect? {
      FnsPush(s.pc.carried, s.timers[step.i]);
      FnsWithout(s.timers, step.i);
    } else {
      FnsConcat(s.tasks, s.pc.carried);
    }
  }

  lemma FiberFns(s: State, step: Step)
    requires Enabled(s, step)
    requires step.ParkOnEvent? || step.ParkOnTimer? || step.Yield? || step.YieldReady? || step.ScheduleSleeper? || step.End?
    ensures Waiting(Do(s, step)) == Waiting(s)
  {
    match step
    case ParkOnEvent => FnsPush(s.slots, OfFiber(s.pc.f));
    case ParkOnTimer => FnsPush(s.timers, OfFunc(Wake(s.pc.f)));
    case ScheduleSleeper => FnsPush(s.tasks, OfFiber(s.pc.phase.fiber));
    case _ =>
  }

  lemma AnyoneFns(s: State, step: Step)
    requires Enabled(s, step)
    requires step.Schedule? || step.ScheduleFiber? || step.AddTimer? || step.AddWaiter? || step.DropTimer? || step.DropWaiter? || step.Dispatch?
    ensures Waiting(Do(s, step)) == Waiting(s) + HandedIn(step) - Gone(s, step)
  {
    match step
    case Schedule => FnsPush(s.tasks, OfFunc(UserFn));
    case ScheduleFiber(id) => FnsPush(s.tasks, OfFiber(id));
    case AddTimer => FnsPush(s.timers, OfFunc(UserFn));
    case AddWaiter => FnsPush(s.slots, OfFunc(UserFn));
    case DropTimer(i) => FnsWithout(s.timers, i);
    case DropWaiter(i) => FnsWithout(s.slots, i);
    case Dispatch(i) =>
      FnsWithout(s.slots, i);
      FnsPush(s.tasks, s.slots[i]);
  }

  lemma StepFns(s: State, step: Step)
    requires Enabled(s, step)
    ensures Waiting(Do(s, step)) == Waiting(s) + HandedIn(step) - Gone(s, step)
  {
    if IsLoopStep(step) {
      LoopFns(s, step);
    } else if step.Collect? || step.Deliver? {
      IdleFns(s, step);
    } else if step.ParkOnEvent? || step.ParkOnTimer? || step.Yield? || step.YieldReady? || step.ScheduleSleeper? || step.End? {
      FiberFns(s, step);
    } else {
      AnyoneFns(s, step);
    }
  }

  ghost function AllHandedIn(run: seq<Step>): int {
    if run == [] then 0 else HandedIn(run[0]) + AllHandedIn(run[1..])
  }

  ghost function AllGone(s: State, run: seq<Step>): int
    requires Legal(s, run)
    decreases |run|
  {
    if run == [] then 0 else Gone(s, run[0]) + AllGone(Do(s, run[0]), run[1..])
  }

  // In every run no function is lost or doubled: those handed in are those still
  // waiting and those called or dropped.
  lemma {:induction false} FunctionsConserved(s: State, run: seq<Step>)
    requires Legal(s, run)
    ensures Waiting(s) + AllHandedIn(run) == Waiting(Final(s, run)) + AllGone(s, run)
    decreases |run|
  {
    if run != [] {
      StepFns(s, run[0]);
      FunctionsConserved(Do(s, run[0]), run[1..]);
    }
  }

  // ---- fiber states ----

  // A fiber is RUNNING once called, and comes back SUSPEND from a hooked call, READY
  // from YieldReady, and in the state its function ended in; a finished function
  // fiber is reset, a new fiber is READY. Nothing else changes a fiber's state.
  lemma StatesChangeIff(s: State, step: Step, f: nat)
    requires Enabled(s, step)
    ensures var before := f in s.states; var t := Do(s, step).states;
      && (step.CallFiber? && s.pc.task.fiber == f ==> f in t && t[f] == Fibers.RUNNING)
      && (step.Yield? && s.pc.f == f ==> f in t && t[f] == Fibers.SUSPEND)
      && (step.YieldReady? && s.pc.f == f ==> f in t && t[f] == Fibers.READY)
      && (step.End? && s.pc.f == f ==> f in t && t[f] == step.result)
      && (step == ScheduleFiber(f) ==> f in t && t[f] == Fibers.READY)
      && (before && f in t && t[f] != s.states[f] ==>
        || step.CallFiber? || step.CallFunc? || step.ScheduleFiber?
        || ((step.Yield? || step.YieldReady? || step.End?) && s.pc.f == f)
        || (step.Settle? && s.pc.f == f && s.pc.viaFunc && t[f] == Fibers.READY))
  {
  }

  // ---- the function fiber ----

  // A function runs on the kept fiber, or on a new one when none is kept; no other
  // step of the loop makes a fiber.
  lemma FunctionsShareAFiber(s: State, id: nat)
    requires Inv(s) && Enabled(s, CallFunc(id))
    ensures var t := Do(s, CallFunc(id));
      && t.pc.Executing? && t.pc.viaFunc && t.pool == Some(t.pc.f)
      && (s.pool.Some? ==> t.pc.f == s.pool.value && t.states.Keys == s.states.Keys)
      && (s.pool.None? ==> t.pc.f == id)
  {
  }

  // After a call: a fiber that yielded READY is queued again; the function fiber is
  // kept, ready for the next function, exactly when its function has ended, be it by
  // an exception.
  lemma FiberIsKeptIff(s: State)
    requires Inv(s) && Enabled(s, Settle)
    ensures var t, f := Do(s, Settle), s.pc.f;
      && t.pc == Fetch
      && t.tasks == (if s.states[f] == Fibers.READY then s.tasks + [OfFiber(f)] else s.tasks)
      && (s.pc.viaFunc ==> (t.pool == Some(f) <==> s.states[f] == Fibers.TERM || s.states[f] == Fibers.EXCEPT))
      && (t.pool == Some(f) && s.pc.viaFunc ==> t.states[f] == Fibers.READY)
      && (!s.pc.viaFunc ==> t.pool == s.pool && t.states == s.states)
  {
  }
}
