/**
 * Single ownership with one worker (src/scheduler.cpp, src/hook.cpp,
 * src/iomanager.cpp, src/fiber.cpp). Fibers are made for functions or by the
 * user, who schedules them once, and park only through hooked calls or
 * YieldReady; other threads may schedule and wake event waiters. The right to
 * resume a fiber is then always in exactly one place, and the run loop never
 * meets a fiber it must not call.
 */
module Ownership {
  import opened Basics
  import opened Fibers

  // A function to call: the user's (timeout callbacks among them), or the
  // callback of a sleep, which schedules its fiber.
  datatype Callback = UserFn | Wake(fiber: nat)
  datatype Task = OfFiber(fiber: nat) | OfFunc(cb: Callback)

  // What the running fiber is about to do: anything; yield, having handed on
  // the right to resume it; or schedule a sleeper.
  datatype Phase = Free | Registered | Waking(fiber: nat)

  // The worker in Scheduler::run. `viaFunc` tells the pooled function fiber's
  // branch from the fiber branch.
  datatype Pc =
    | Fetch
    | Counting(task: Task)                      // dequeued, ++m_active_threads next
    | Calling(task: Task)                       // counted, about to call
    | Executing(f: nat, viaFunc: bool, phase: Phase)
    | Back(f: nat, viaFunc: bool)               // --m_active_threads next
    | After(f: nat, viaFunc: bool)              // look at the state it came back in
    | Idle(carried: seq<Task>)                  // in idle, with expired callbacks in hand

  datatype State = State(
    pc: Pc,
    tasks: seq<Task>,               // m_tasks
    slots: seq<Task>,               // waiters in event slots
    timers: seq<Task>,              // callbacks of armed timers
    active: int,                    // m_active_threads
    states: map<nat, FiberState>,   // m_state of every fiber made
    unfinished: set<nat>,           // fibers whose function has not ended
    pool: Option<nat>)              // func_fiber

  ghost predicate Init(s: State) {
    s == State(Fetch, [], [], [], 0, map[], {}, None)
  }

  datatype Step =
    // the worker in run
    | Dequeue | Count | CallFiber | CallFunc(id: nat) | Uncount | Settle | GoIdle
    // the worker in idle
    | Collect(i: nat, again: bool) | Deliver
    // the running fiber
    | ParkOnEvent | ParkOnTimer | Yield | YieldReady | ScheduleSleeper | End(result: FiberState)
    // anyone
    | Schedule | ScheduleFiber(id: nat) | AddTimer | AddWaiter | DropTimer(i: nat) | DropWaiter(i: nat) | Dispatch(i: nat)

  ghost predicate Runs(s: State, phase: Phase) {
    s.pc.Executing? && s.pc.phase == phase
  }

  ghost predicate Enabled(s: State, step: Step) {
    match step
    case Dequeue => s.pc.Fetch? && s.tasks != []
    case Count => s.pc.Counting?
    case CallFiber => s.pc.Calling? && s.pc.task.OfFiber?
    case CallFunc(id) => s.pc.Calling? && s.pc.task.OfFunc? && id !in s.states
    case Uncount => s.pc.Back?
    case Settle => s.pc.After? && s.pc.f in s.states
    case GoIdle => s.pc.Fetch? && s.tasks == []
    case Collect(i, again) => s.pc.Idle? && i < |s.timers| && (again ==> s.timers[i] == OfFunc(UserFn))
    case Deliver => s.pc.Idle?
    case ParkOnEvent => Runs(s, Free)
    case ParkOnTimer => Runs(s, Free)
    case Yield => Runs(s, Registered)
    case YieldReady => Runs(s, Free)
    case ScheduleSleeper => s.pc.Executing? && s.pc.phase.Waking?
    case End(r) => Runs(s, Free) && (r == TERM || r == EXCEPT)
    case Schedule => true
    case ScheduleFiber(id) => id !in s.states
    case AddTimer => true
    case AddWaiter => true
    case DropTimer(i) => i < |s.timers| && s.timers[i] == OfFunc(UserFn)
    case DropWaiter(i) => i < |s.slots| && s.slots[i] == OfFunc(UserFn)
    case Dispatch(i) => i < |s.slots|
  }

  function Without(ts: seq<Task>, i: nat): seq<Task>
    requires i < |ts|
  {
    ts[..i] + ts[i + 1..]
  }

  function PhaseOf(cb: Callback): Phase { if cb.Wake? then Waking(cb.fiber) else Free }

  // The function fiber: the pooled one, reset, or a new one.
  ghost function FuncFiber(s: State, id: nat): nat {
    if s.pool.Some? then s.pool.value else id
  }

  // The tail of run's loop body, after --m_active_threads.
  ghost function Settled(s: State): State
    requires s.pc.After? && s.pc.f in s.states
  {
    var f := s.pc.f;
    var t := s.(pc := Fetch);
    if s.states[f] == READY then t.(tasks := s.tasks + [OfFiber(f)], pool := if s.pc.viaFunc then None else s.pool)
    else if !s.pc.viaFunc then t
    else if s.states[f] == TERM || s.states[f] == EXCEPT then t.(states := s.states[f := READY])
    else t.(pool := None)
  }

  ghost function Do(s: State, step: Step): State
    requires Enabled(s, step)
  {
    match step
    case Dequeue => s.(pc := Counting(s.tasks[0]), tasks := s.tasks[1..])
    case Count => s.(pc := Calling(s.pc.task), active := s.active + 1)
    case CallFiber =>
      var f := s.pc.task.fiber;
      s.(pc := Executing(f, false, Free), states := s.states[f := RUNNING])
    case CallFunc(id) =>
      var f := FuncFiber(s, id);
      s.(pc := Executing(f, true, PhaseOf(s.pc.task.cb)), pool := Some(f), states := s.states[f := RUNNING],
         unfinished := s.unfinished + {f})
    case Uncount => s.(pc := After(s.pc.f, s.pc.viaFunc), active := s.active - 1)
    case Settle => Settled(s)
    case GoIdle => s.(pc := Idle([]))
    case Collect(i, again) =>
      s.(pc := Idle(s.pc.carried + [s.timers[i]]), timers := if again then s.timers else Without(s.timers, i))
    case Deliver => s.(pc := Fetch, tasks := s.tasks + s.pc.carried)
    case ParkOnEvent => s.(pc := s.pc.(phase := Registered), slots := s.slots + [OfFiber(s.pc.f)])
    case ParkOnTimer => s.(pc := s.pc.(phase := Registered), timers := s.timers + [OfFunc(Wake(s.pc.f))])
    case Yield => s.(pc := Back(s.pc.f, s.pc.viaFunc), states := s.states[s.pc.f := SUSPEND])
    case YieldReady => s.(pc := Back(s.pc.f, s.pc.viaFunc), states := s.states[s.pc.f := READY])
    case ScheduleSleeper => s.(pc := s.pc.(phase := Free), tasks := s.tasks + [OfFiber(s.pc.phase.fiber)])
    case End(r) =>
      s.(pc := Back(s.pc.f, s.pc.viaFunc), states := s.states[s.pc.f := r], unfinished := s.unfinished - {s.pc.f})
    case Schedule => s.(tasks := s.tasks + [OfFunc(UserFn)])
    case ScheduleFiber(id) =>
      s.(tasks := s.tasks + [OfFiber(id)], states := s.states[id := READY], unfinished := s.unfinished + {id})
    case AddTimer => s.(timers := s.timers + [OfFunc(UserFn)])
    case AddWaiter => s.(slots := s.slots + [OfFunc(UserFn)])
    case DropTimer(i) => s.(timers := Without(s.timers, i))
    case DropWaiter(i) => s.(slots := Without(s.slots, i))
    case Dispatch(i) => s.(tasks := s.tasks + [s.slots[i]], slots := Without(s.slots, i))
  }

  ghost predicate Legal(s: State, run: seq<Step>)
    decreases |run|
  {
    run == [] || (Enabled(s, run[0]) && Legal(Do(s, run[0]), run[1..]))
  }

  ghost function Final(s: State, run: seq<Step>): State
    requires Legal(s, run)
    decreases |run|
  {
    if run == [] then s else Final(Do(s, run[0]), run[1..])
  }

  // ---- who holds the right to resume a fiber ----

  predicate Carries(t: Task, f: nat) {
    t == OfFiber(f) || t == OfFunc(Wake(f))
  }

  // How many of the tasks resume fiber f.
  function Rights(ts: seq<Task>, f: nat): nat {
    if ts == [] then 0 else One(Carries(ts[0], f)) + Rights(ts[1..], f)
  }

  lemma {:induction false} RightsConcat(a: seq<Task>, b: seq<Task>, f: nat)
    ensures Rights(a + b, f) == Rights(a, f) + Rights(b, f)
    decreases |a|
  {
    if a == [] {
      assert a + b == b;
    } else {
      assert (a + b)[0] == a[0] && (a + b)[1..] == a[1..] + b;
      RightsConcat(a[1..], b, f);
    }
  }

  lemma RightsPush(a: seq<Task>, t: Task, f: nat)
    ensures Rights(a + [t], f) == Rights(a, f) + One(Carries(t, f))
  {
    RightsConcat(a, [t], f);
  }

  lemma RightsWithout(a: seq<Task>, i: nat, f: nat)
    requires i < |a|
    ensures Rights(a, f) == Rights(Without(a, i), f) + One(Carries(a[i], f))
  {
    assert a == a[..i] + ([a[i]] + a[i + 1..]);
    RightsConcat(a[..i], [a[i]] + a[i + 1..], f);
    RightsConcat(a[..i], a[i + 1..], f);
  }

  // The rights in the worker's own hands.
  ghost function InHand(pc: Pc, states: map<nat, FiberState>, f: nat): nat {
    match pc
    case Fetch => 0
    case Counting(t) => One(Carries(t, f))
    case Calling(t) => One(Carries(t, f))
    case Executing(g, _, phase) =>
      if phase.Registered? then 0 else One(g == f) + One(phase == Waking(f))
    case Back(g, _) => One(g == f && g in states && states[g] == READY)
    case After(g, _) => One(g == f && g in states && states[g] == READY)
    case Idle(carried) => Rights(carried, f)
  }

  ghost function Places(s: State, f: nat): nat {
    Rights(s.tasks, f) + Rights(s.slots, f) + Rights(s.timers, f) + InHand(s.pc, s.states, f)
  }

  // Every unfinished fiber has exactly one place, no other fiber has any.
  ghost predicate Owned(s: State) {
    forall f: nat :: Places(s, f) == One(f in s.unfinished)
  }

  // Only the executing fiber is RUNNING; the pooled fiber's function has ended
  // unless the worker is just dealing with it; an ended fiber has no function.
  ghost predicate Tidy(s: State) {
    && (forall f :: f in s.unfinished ==> f in s.states && !IsDone(s.states[f]))
    && (forall f :: f in s.states ==> (s.states[f] == RUNNING <==> s.pc.Executing? && s.pc.f == f))
    && (s.pool.Some? ==> s.pool.value in s.states)
    && (s.pool.Some? && s.pool.value in s.unfinished ==>
        (s.pc.Executing? || s.pc.Back? || s.pc.After?) && s.pc.viaFunc && s.pc.f == s.pool.value)
    && ((s.pc.Executing? || s.pc.Back? || s.pc.After?) ==>
        s.pc.f in s.states && (s.pc.viaFunc ==> s.pool == Some(s.pc.f)))
    && (s.pc.Executing? ==> s.pc.f in s.unfinished)
    && ((s.pc.Back? || s.pc.After?) ==> (s.pc.f in s.unfinished <==> !IsDone(s.states[s.pc.f])))
    && s.active == if s.pc.Calling? || s.pc.Executing? || s.pc.Back? then 1 else 0
  }

  ghost predicate Inv(s: State) { Owned(s) && Tidy(s) }

  // ---- every step keeps it ----

  // The worker in run and idle.
  lemma LoopPlaces(s: State, step: Step, f: nat)
    requires Inv(s) && Enabled(s, step)
    requires step.Dequeue? || step.Count? || step.CallFiber? || step.CallFunc? || step.Uncount? || step.GoIdle?
    ensures Places(Do(s, step), f) == One(f in Do(s, step).unfinished)
  {
    assert Places(s, f) == One(f in s.unfinished);
  }

  lemma SettlePlaces(s: State, f: nat)
    requires Inv(s) && Enabled(s, Settle)
    ensures Places(Settled(s), f) == One(f in Settled(s).unfinished)
  {
    assert Places(s, f) == One(f in s.unfinished);
    RightsPush(s.tasks, OfFiber(s.pc.f), f);
  }

  lemma IdlePlaces(s: State, step: Step, f: nat)
    requires Inv(s) && Enabled(s, step) && (step.Collect? || step.Deliver?)
    ensures Places(Do(s, step), f) == One(f in Do(s, step).unfinished)
  {
    assert Places(s, f) == One(f in s.unfinished);
    if step.Collect? {
      RightsPush(s.pc.carried, s.timers[step.i], f);
      RightsWithout(s.timers, step.i, f);
    } else {
      RightsConcat(s.tasks, s.pc.carried, f);
    }
  }

  // The running fiber.
  lemma ParkPlaces(s: State, step: Step, f: nat)
    requires Inv(s) && Enabled(s, step) && (step.ParkOnEvent? || step.ParkOnTimer? || step.ScheduleSleeper?)
    ensures Places(Do(s, step), f) == One(f in Do(s, step).unfinished)
  {
    assert Places(s, f) == One(f in s.unfinished);
    match step
    case ParkOnEvent => RightsPush(s.slots, OfFiber(s.pc.f), f);
    case ParkOnTimer => RightsPush(s.timers, OfFunc(Wake(s.pc.f)), f);
    case ScheduleSleeper => RightsPush(s.tasks, OfFiber(s.pc.phase.fiber), f);
  }

  lemma YieldPlaces(s: State, step: Step, f: nat)
    requires Inv(s) && Enabled(s, step) && (step.Yield? || step.YieldReady? || step.End?)
    ensures Places(Do(s, step), f) == One(f in Do(s, step).unfinished)
  {
    assert Places(s, f) == One(f in s.unfinished);
  }

  // Anyone.
  lemma AddPlaces(s: State, step: Step, f: nat)
    requires Inv(s) && Enabled(s, step) && (step.Schedule? || step.ScheduleFiber? || step.AddTimer? || step.AddWaiter?)
    ensures Places(Do(s, step), f) == One(f in Do(s, step).unfinished)
  {
    assert Places(s, f) == One(f in s.unfinished);
    match step
    case Schedule => RightsPush(s.tasks, OfFunc(UserFn), f);
    case ScheduleFiber(id) => RightsPush(s.tasks, OfFiber(id), f);
    case AddTimer => RightsPush(s.timers, OfFunc(UserFn), f);
    case AddWaiter => RightsPush(s.slots, OfFunc(UserFn), f);
  }

  lemma RemovePlaces(s: State, step: Step, f: nat)
    requires Inv(s) && Enabled(s, step) && (step.DropTimer? || step.DropWaiter? || step.Dispatch?)
    ensures Places(Do(s, step), f) == One(f in Do(s, step).unfinished)
  {
    assert Places(s, f) == One(f in s.unfinished);
    if step.DropTimer? {
      RightsWithout(s.timers, step.i, f);
    } else {
      RightsWithout(s.slots, step.i, f);
      RightsPush(s.tasks, s.slots[step.i], f);
    }
  }

  lemma StepPlaces(s: State, step: Step, f: nat)
    requires Inv(s) && Enabled(s, step)
    ensures Places(Do(s, step), f) == One(f in Do(s, step).unfinished)
  {
    match step
    case Dequeue => LoopPlaces(s, step, f);
    case Count => LoopPlaces(s, step, f);
    case CallFiber => LoopPlaces(s, step, f);
    case CallFunc(_) => LoopPlaces(s, step, f);
    case Uncount => LoopPlaces(s, step, f);
    case GoIdle => LoopPlaces(s, step, f);
    case Settle => SettlePlaces(s, f);
    case Collect(_, _) => IdlePlaces(s, step, f);
    case Deliver => IdlePlaces(s, step, f);
    case ParkOnEvent => ParkPlaces(s, step, f);
    case ParkOnTimer => ParkPlaces(s, step, f);
    case Yield => YieldPlaces(s, step, f);
    case YieldReady => YieldPlaces(s, step, f);
    case ScheduleSleeper => ParkPlaces(s, step, f);
    case End(_) => YieldPlaces(s, step, f);
    case Schedule => AddPlaces(s, step, f);
    case ScheduleFiber(_) => AddPlaces(s, step, f);
    case AddTimer => AddPlaces(s, step, f);
    case AddWaiter => AddPlaces(s, step, f);
    case _ => RemovePlaces(s, step, f);
  }

  // A right anywhere belongs to an unfinished fiber.
  lemma RightIsUnfinished(s: State, f: nat)
    requires Owned(s) && Places(s, f) > 0
    ensures f in s.unfinished
  {
    assert Places(s, f) == One(f in s.unfinished);
  }

  predicate IsLoopStep(step: Step) {
    step.Dequeue? || step.Count? || step.CallFiber? || step.CallFunc? || step.Uncount? || step.Settle? || step.GoIdle?
  }

  lemma LoopTidy(s: State, step: Step)
    requires Inv(s) && Enabled(s, step) && IsLoopStep(step)
    ensures Tidy(Do(s, step))
  {
    if step.CallFiber? {
      RightIsUnfinished(s, s.pc.task.fiber);
    }
  }

  lemma OtherTidy(s: State, step: Step)
    requires Inv(s) && Enabled(s, step) && !IsLoopStep(step)
    ensures Tidy(Do(s, step))
  {
  }

  lemma StepInv(s: State, step: Step)
    requires Inv(s) && Enabled(s, step)
    ensures Inv(Do(s, step))
  {
    if IsLoopStep(step) {
      LoopTidy(s, step);
    } else {
      OtherTidy(s, step);
    }
    forall f: nat ensures Places(Do(s, step), f) == One(f in Do(s, step).unfinished) {
      StepPlaces(s, step, f);
    }
  }

  lemma {:induction false} RunInv(s: State, run: seq<Step>)
    requires Inv(s) && Legal(s, run)
    ensures Inv(Final(s, run))
    decreases |run|
  {
    if run != [] {
      StepInv(s, run[0]);
      RunInv(Do(s, run[0]), run[1..]);
    }
  }

  // Single ownership, in every run: the rights to resume a fiber, summed over
  // the queue, the event slots, the timers and the worker's hands, are one if
  // its function has not ended and none otherwise; and m_active_threads is the
  // number of executing tasks.
  lemma SingleOwnership(s: State, run: seq<Step>, f: nat)
    requires Init(s) && Legal(s, run)
    ensures var t := Final(s, run);
      && Places(t, f) == (if f in t.unfinished then 1 else 0)
      && t.active == (if t.pc.Calling? || t.pc.Executing? || t.pc.Back? then 1 else 0)
  {
    RunInv(s, run);
  }

  ghost predicate Callable(s: State, f: nat) {
    f in s.states && s.states[f] != RUNNING && !IsDone(s.states[f])
  }

  // So the assertions of the run loop and of call never fail: a dequeued fiber
  // is not RUNNING and not done, and the function fiber is reset only when its
  // function has ended.
  lemma LoopAssertionsHold(s: State, run: seq<Step>)
    requires Init(s) && Legal(s, run)
    ensures var t := Final(s, run);
      && (t.pc.Fetch? && t.tasks != [] && t.tasks[0].OfFiber? ==> Callable(t, t.tasks[0].fiber))
      && (t.pc.Calling? && t.pc.task.OfFiber? ==> Callable(t, t.pc.task.fiber))
      && (t.pc.Calling? && t.pool.Some? ==> t.pool.value !in t.unfinished)
      && (t.pc.After? ==> t.pc.f in t.states && (IsDone(t.states[t.pc.f]) ==> t.pc.f !in t.unfinished))
  {
    RunInv(s, run);
    var t := Final(s, run);
    if t.pc.Fetch? && t.tasks != [] && t.tasks[0].OfFiber? {
      RightIsUnfinished(t, t.tasks[0].fiber);
    }
    if t.pc.Calling? && t.pc.task.OfFiber? {
      RightIsUnfinished(t, t.pc.task.fiber);
    }
  }

  lemma {:induction false} RightsOfMember(ts: seq<Task>, i: nat, f: nat)
    requires i < |ts| && Carries(ts[i], f)
    ensures Rights(ts, f) > 0
    decreases |ts|
  {
    if i > 0 {
      RightsOfMember(ts[1..], i - 1, f);
    }
  }

  // A queued fiber may be called exactly when it is not the one still executing.
  // With one worker that is so at every dequeue; a second worker could dequeue
  // in between.
  lemma QueuedIsCallableIff(s: State, run: seq<Step>, i: nat)
    requires Init(s) && Legal(s, run)
    requires i < |Final(s, run).tasks| && Final(s, run).tasks[i].OfFiber?
    ensures var t := Final(s, run); var f := t.tasks[i].fiber;
      Callable(t, f) <==> !(t.pc.Executing? && t.pc.f == f)
  {
    RunInv(s, run);
    var t := Final(s, run);
    RightsOfMember(t.tasks, i, t.tasks[i].fiber);
    RightIsUnfinished(t, t.tasks[i].fiber);
  }

  lemma Prepend(s: State, step: Step, rest: seq<Step>)
    requires Enabled(s, step) && Legal(Do(s, step), rest)
    ensures Legal(s, [step] + rest) && Final(s, [step] + rest) == Final(Do(s, step), rest)
  {
    assert ([step] + rest)[0] == step && ([step] + rest)[1..] == rest;
  }

  // The gap is real: a fiber registers on an event and, before it yields, is
  // woken; it is then in the queue while RUNNING.
  lemma QueuedWhileRunning(s: State) returns (run: seq<Step>)
    requires Init(s)
    ensures Legal(s, run)
    ensures var t := Final(s, run); t.tasks == [OfFiber(0)] && 0 in t.states && t.states[0] == RUNNING
  {
    var s1 := Do(s, Schedule);
    var s2 := Do(s1, Dequeue);
    var s3 := Do(s2, Count);
    var s4 := Do(s3, CallFunc(0));
    var s5 := Do(s4, ParkOnEvent);
    var s6 := Do(s5, Dispatch(0));
    run := [];
    Prepend(s5, Dispatch(0), run);
    run := [Dispatch(0)] + run;
    Prepend(s4, ParkOnEvent, run);
    run := [ParkOnEvent] + run;
    Prepend(s3, CallFunc(0), run);
    run := [CallFunc(0)] + run;
    Prepend(s2, Count, run);
    run := [Count] + run;
    Prepend(s1, Dequeue, run);
    run := [Dequeue] + run;
    Prepend(s, Schedule, run);
    run := [Schedule] + run;
    assert Final(s, run) == s6;
  }
}
