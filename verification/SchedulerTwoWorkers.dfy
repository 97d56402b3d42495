/**
 * Two workers: runs of the code in which shouldStop is true too early, and what
 * is left of it. The dequeue and ++m_active_threads are separate accesses
 * (src/scheduler.cpp:129-138), shouldStop looks at the timers first
 * (src/scheduler.cpp:215), and a done fiber in hand ends run when the idle fiber
 * has ended (src/scheduler.cpp:180-186).
 */
module SchedulerTwoWorkers {
  import opened Basics
  import opened Timers
  import opened SchedulerMachine
  import opened SchedulerHistory
  import opened SchedulerStop

  // What matters of a state here: no pipe, no clock, no counter of idle threads,
  // no history of schedule and call.
  datatype Core = Core(workers: seq<Worker>, tasks: seq<Task>, active: int, pending: nat, stopping: bool,
                       timers: set<Entry>, taken: seq<Task>, done: set<nat>, strayed: bool, late: bool)

  ghost function CoreOf(s: State): Core {
    Core(s.workers, s.tasks, s.active, s.pending, s.stopping, s.timers, s.taken, s.done, s.strayed, s.late)
  }

  // A one-shot timer.
  const E: Entry := Entry(5, 1, 5, false, 0)

  // The states of the runs below.
  ghost function S(i: nat): Core {
    match i
    // Both workers start.
    case 0 => Core([Worker(Fetch, false), Worker(Fetch, false)], [], 0, 0, false, {}, [], {}, false, false)
    case 1 => Core([Worker(EnteringIdle, false), Worker(Fetch, false)], [], 0, 0, false, {}, [], {}, false, false)
    case 2 => Core([Worker(StopCheck, false), Worker(Fetch, false)], [], 0, 0, false, {}, [], {}, false, false)
    case 3 => Core([Worker(StopCheck, false), Worker(Fetch, false)], [Fiber(7)], 0, 0, false, {}, [], {}, false, false)
    // Worker 0 is in idle when fiber 7 is scheduled and stop is called.
    case 4 => Core([Worker(StopCheck, false), Worker(Fetch, false)], [Fiber(7)], 0, 0, true, {}, [], {}, false, false)
    case 5 => Core([Worker(StopCheck, false), Worker(Counting(0, false), false)], [], 0, 0, true, {}, [Fiber(7)], {}, false, false)
    case 6 => Core([Worker(StopCheck2, false), Worker(Counting(0, false), false)], [], 0, 0, true, {}, [Fiber(7)], {}, false, false)
    // Worker 1 has taken the fiber, not counted it; worker 0's idle fiber ends.
    case 7 => Core([Worker(Leaving, true), Worker(Counting(0, false), false)], [], 0, 0, true, {}, [Fiber(7)], {}, false, false)
    case 8 => Core([Worker(Fetch, true), Worker(Counting(0, false), false)], [], 0, 0, true, {}, [Fiber(7)], {}, false, false)
    case 9 => Core([Worker(Fetch, true), Worker(Deciding(0), false)], [], 1, 0, true, {}, [Fiber(7)], {}, false, false)
    case 10 => Core([Worker(Fetch, true), Worker(Executing(0), false)], [], 1, 0, true, {}, [Fiber(7)], {}, false, false)
    case 11 => Core([Worker(Fetch, true), Worker(Executing(0), false)], [Func(1)], 1, 0, true, {}, [Fiber(7)], {}, false, false)
    // The fiber runs and schedules function 1, which worker 0 takes.
    case 12 => Core([Worker(Counting(1, false), true), Worker(Executing(0), false)], [], 1, 0, true, {}, [Fiber(7), Func(1)], {}, false, false)
    case 13 => Core([Worker(Counting(1, false), true), Worker(Back(None), false)], [], 1, 0, true, {}, [Fiber(7), Func(1)], {7}, false, false)
    case 14 => Core([Worker(Counting(1, false), true), Worker(Fetch, false)], [], 0, 0, true, {}, [Fiber(7), Func(1)], {7}, false, false)
    case 15 => Core([Worker(Counting(1, false), true), Worker(EnteringIdle, false)], [], 0, 0, true, {}, [Fiber(7), Func(1)], {7}, false, false)
    case 16 => Core([Worker(Counting(1, false), true), Worker(StopCheck, false)], [], 0, 0, true, {}, [Fiber(7), Func(1)], {7}, false, false)
    // The fiber has ended; worker 1 has seen no timers and holds m_mutex.
    case 17 => Core([Worker(Counting(1, false), true), Worker(StopCheck2, false)], [], 0, 0, true, {}, [Fiber(7), Func(1)], {7}, false, false)
    case 18 => Core([Worker(Counting(1, false), true), Worker(Leaving, true)], [], 0, 0, true, {}, [Fiber(7), Func(1)], {7}, false, false)
    case 19 => Core([Worker(Counting(1, false), true), Worker(Fetch, true)], [], 0, 0, true, {}, [Fiber(7), Func(1)], {7}, false, false)
    // Worker 1 returns from run.
    case 20 => Core([Worker(Counting(1, false), true), Worker(Exited, true)], [], 0, 0, true, {}, [Fiber(7), Func(1)], {7}, false, false)
    case 21 => Core([Worker(Deciding(1), true), Worker(Exited, true)], [], 1, 0, true, {}, [Fiber(7), Func(1)], {7}, false, false)
    // Worker 0 calls function 1.
    case 22 => Core([Worker(Executing(1), true), Worker(Exited, true)], [], 1, 0, true, {}, [Fiber(7), Func(1)], {7}, false, true)
    // First ending: it schedules the ended fiber and function 2,
    case 23 => Core([Worker(Executing(1), true), Worker(Exited, true)], [Fiber(7), Func(2)], 1, 0, true, {}, [Fiber(7), Func(1)], {7}, false, true)
    case 24 => Core([Worker(Back(None), true), Worker(Exited, true)], [Fiber(7), Func(2)], 1, 0, true, {}, [Fiber(7), Func(1)], {7}, false, true)
    case 25 => Core([Worker(Fetch, true), Worker(Exited, true)], [Fiber(7), Func(2)], 0, 0, true, {}, [Fiber(7), Func(1)], {7}, false, true)
    case 26 => Core([Worker(Counting(2, true), true), Worker(Exited, true)], [Func(2)], 0, 0, true, {}, [Fiber(7), Func(1), Fiber(7)], {7}, false, true)
    case 27 => Core([Worker(Offering(2), true), Worker(Exited, true)], [Func(2)], 1, 0, true, {}, [Fiber(7), Func(1), Fiber(7)], {7}, false, true)
    case 28 => Core([Worker(Deciding(2), true), Worker(Exited, true)], [Func(2)], 1, 0, true, {}, [Fiber(7), Func(1), Fiber(7)], {7}, false, true)
    // and worker 0 leaves with the ended fiber in hand. Function 2 is left.
    case 29 => Core([Worker(Exited, true), Worker(Exited, true)], [Func(2)], 1, 0, true, {}, [Fiber(7), Func(1), Fiber(7)], {7}, true, true)
    // Second ending: function 1 arms a timer and registers an event, then parks,
    case 30 => Core([Worker(Executing(1), true), Worker(Exited, true)], [], 1, 0, true, {E}, [Fiber(7), Func(1)], {7}, false, true)
    case 31 => Core([Worker(Executing(1), true), Worker(Exited, true)], [], 1, 1, true, {E}, [Fiber(7), Func(1)], {7}, false, true)
    case 32 => Core([Worker(Back(None), true), Worker(Exited, true)], [], 1, 1, true, {E}, [Fiber(7), Func(1)], {7}, false, true)
    case 33 => Core([Worker(Fetch, true), Worker(Exited, true)], [], 0, 1, true, {E}, [Fiber(7), Func(1)], {7}, false, true)
    // and worker 0 leaves. The timer and the event are left.
    case 34 => Core([Worker(Exited, true), Worker(Exited, true)], [], 0, 1, true, {E}, [Fiber(7), Func(1)], {7}, false, true)
    // Third ending, from state 17: worker 0 calls function 1, which arms a timer
    case 35 => Core([Worker(Deciding(1), true), Worker(StopCheck2, false)], [], 1, 0, true, {}, [Fiber(7), Func(1)], {7}, false, false)
    case 36 => Core([Worker(Executing(1), true), Worker(StopCheck2, false)], [], 1, 0, true, {}, [Fiber(7), Func(1)], {7}, false, true)
    case 37 => Core([Worker(Executing(1), true), Worker(StopCheck2, false)], [], 1, 0, true, {E}, [Fiber(7), Func(1)], {7}, false, true)
    case 38 => Core([Worker(Back(None), true), Worker(StopCheck2, false)], [], 1, 0, true, {E}, [Fiber(7), Func(1)], {7}, false, true)
    // and parks, before worker 1 goes on with shouldStop.
    case _ => Core([Worker(Fetch, true), Worker(StopCheck2, false)], [], 0, 0, true, {E}, [Fiber(7), Func(1)], {7}, false, true)
  }

  // The step into state i.
  ghost function Into(i: nat): Step {
    match i
    case 1 => Work(0, FindEmpty)
    case 2 => Work(0, EnterIdle)
    case 3 => Push([Fiber(7)])
    case 4 => Stop
    case 5 => Work(1, Take)
    case 6 => Work(0, SeeNoTimers)
    case 7 => Work(0, DecideStop)
    case 8 => Work(0, Leave)
    case 9 => Work(1, Count)
    case 10 => Work(1, Call)
    case 11 => Push([Func(1)])
    case 12 => Work(0, Take)
    case 13 => Work(1, ReturnDone)
    case 14 => Work(1, Uncount)
    case 15 => Work(1, FindEmpty)
    case 16 => Work(1, EnterIdle)
    case 17 => Work(1, SeeNoTimers)
    case 18 => Work(1, DecideStop)
    case 19 => Work(1, Leave)
    case 20 => Work(1, FindEmpty)
    case 21 => Work(0, Count)
    case 22 => Work(0, Call)
    case 23 => Push([Fiber(7), Func(2)])
    case 24 => Work(0, ReturnDone)
    case 25 => Work(0, Uncount)
    case 26 => Work(0, Take)
    case 27 => Work(0, Count)
    case 28 => Work(0, Offer)
    case 29 => Work(0, Skip)
    case 30 => Insert(E)
    case 31 => Register
    case 32 => Work(0, ReturnSuspended)
    case 33 => Work(0, Uncount)
    case 34 => Work(0, FindEmpty)
    case 35 => Work(0, Count)
    case 36 => Work(0, Call)
    case 37 => Insert(E)
    case 38 => Work(0, ReturnSuspended)
    case _ => Work(0, Uncount)
  }

  // The state before state i: the endings branch off at 22 and at 17.
  function Prev(i: nat): nat
    requires i > 0
  {
    if i == 30 then 22 else if i == 35 then 17 else i - 1
  }

  ghost predicate GoesTo(s: State, i: nat)
    requires i > 0
  {
    Enabled(s, Into(i)) && CoreOf(Do(s, Into(i))) == S(i)
  }

  lemma Steps1(i: nat, s: State)
    requires 1 <= i <= 3 && CoreOf(s) == S(Prev(i))
    ensures GoesTo(s, i)
  {
    match i
    case 1 =>
    case 2 =>
    case 3 =>
  }

  lemma Steps4(i: nat, s: State)
    requires 4 <= i <= 5 && CoreOf(s) == S(Prev(i))
    ensures GoesTo(s, i)
  {
    match i
    case 4 =>
    case 5 =>
  }

  lemma Steps6(i: nat, s: State)
    requires 6 <= i <= 7 && CoreOf(s) == S(Prev(i))
    ensures GoesTo(s, i)
  {
    match i
    case 6 =>
    case 7 =>
  }

  lemma Steps8(i: nat, s: State)
    requires 8 <= i <= 9 && CoreOf(s) == S(Prev(i))
    ensures GoesTo(s, i)
  {
    match i
    case 8 =>
    case 9 =>
  }

  lemma Steps10(i: nat, s: State)
    requires 10 <= i <= 12 && CoreOf(s) == S(Prev(i))
    ensures GoesTo(s, i)
  {
    match i
    case 10 =>
    case 11 => assert s.workers[1].pc.Executing?;
    case 12 =>
  }

  lemma Steps13(i: nat, s: State)
    requires 13 <= i <= 15 && CoreOf(s) == S(Prev(i))
    ensures GoesTo(s, i)
  {
    match i
    case 13 =>
    case 14 =>
    case 15 =>
  }

  lemma Steps16(i: nat, s: State)
    requires 16 <= i <= 18 && CoreOf(s) == S(Prev(i))
    ensures GoesTo(s, i)
  {
    match i
    case 16 =>
    case 17 =>
    case 18 =>
  }

  lemma Steps19(i: nat, s: State)
    requires 19 <= i <= 20 && CoreOf(s) == S(Prev(i))
    ensures GoesTo(s, i)
  {
    match i
    case 19 =>
    case 20 =>
  }

  lemma Steps21(i: nat, s: State)
    requires 21 <= i <= 22 && CoreOf(s) == S(Prev(i))
    ensures GoesTo(s, i)
  {
    match i
    case 21 =>
    case 22 =>
  }

  lemma Steps23(i: nat, s: State)
    requires 23 <= i <= 24 && CoreOf(s) == S(Prev(i))
    ensures GoesTo(s, i)
  {
    match i
    case 23 => assert s.workers[0].pc.Executing?;
    case 24 =>
  }

  lemma Steps25(i: nat, s: State)
    requires 25 <= i <= 26 && CoreOf(s) == S(Prev(i))
    ensures GoesTo(s, i)
  {
    match i
    case 25 =>
    case 26 =>
  }

  lemma Steps27(i: nat, s: State)
    requires 27 <= i <= 28 && CoreOf(s) == S(Prev(i))
    ensures GoesTo(s, i)
  {
    match i
    case 27 =>
    case 28 =>
  }

  lemma Steps29(i: nat, s: State)
    requires 29 <= i <= 31 && CoreOf(s) == S(Prev(i))
    ensures GoesTo(s, i)
  {
    match i
    case 29 =>
    case 30 => assert s.workers[0].pc.Executing?;
    case 31 => assert s.workers[0].pc.Executing?;
  }

  lemma Steps32(i: nat, s: State)
    requires 32 <= i <= 33 && CoreOf(s) == S(Prev(i))
    ensures GoesTo(s, i)
  {
    match i
    case 32 =>
    case 33 =>
  }

  lemma Steps34(i: nat, s: State)
    requires 34 <= i <= 35 && CoreOf(s) == S(Prev(i))
    ensures GoesTo(s, i)
  {
    match i
    case 34 =>
    case 35 =>
  }

  lemma Steps36(i: nat, s: State)
    requires 36 <= i <= 37 && CoreOf(s) == S(Prev(i))
    ensures GoesTo(s, i)
  {
    match i
    case 36 =>
    case 37 => assert s.workers[0].pc.Executing?;
  }

  lemma Steps38(i: nat, s: State)
    requires 38 <= i <= 39 && CoreOf(s) == S(Prev(i))
    ensures GoesTo(s, i)
  {
    match i
    case 38 =>
    case 39 =>
  }

  lemma Steps(i: nat, s: State)
    requires 0 < i <= 39 && CoreOf(s) == S(Prev(i))
    ensures GoesTo(s, i)
  {
    if i <= 3 {
      Steps1(i, s);
    } else if i <= 5 {
      Steps4(i, s);
    } else if i <= 7 {
      Steps6(i, s);
    } else if i <= 9 {
      Steps8(i, s);
    } else if i <= 12 {
      Steps10(i, s);
    } else if i <= 15 {
      Steps13(i, s);
    } else if i <= 18 {
      Steps16(i, s);
    } else if i <= 20 {
      Steps19(i, s);
    } else if i <= 22 {
      Steps21(i, s);
    } else if i <= 24 {
      Steps23(i, s);
    } else if i <= 26 {
      Steps25(i, s);
    } else if i <= 28 {
      Steps27(i, s);
    } else if i <= 31 {
      Steps29(i, s);
    } else if i <= 33 {
      Steps32(i, s);
    } else if i <= 35 {
      Steps34(i, s);
    } else if i <= 37 {
      Steps36(i, s);
    } else {
      Steps38(i, s);
    }
  }

  lemma {:induction false} RunThen(s: State, run: seq<Step>, step: Step)
    requires Legal(s, run) && Enabled(Final(s, run), step)
    ensures Legal(s, run + [step]) && Final(s, run + [step]) == Do(Final(s, run), step)
    decreases |run|
  {
    if run == [] {
      assert [step][1..] == [] && run + [step] == [step];
    } else {
      assert (run + [step])[0] == run[0] && (run + [step])[1..] == run[1..] + [step];
      RunThen(Do(s, run[0]), run[1..], step);
    }
  }

  ghost const START: State :=
    State(S(0).workers, [], 0, 0, 0, false, {}, false, 0, 0, 0, 0, [], [], [], {}, {}, false, false)

  // A run to state i.
  lemma {:induction false} Walk(i: nat) returns (run: seq<Step>)
    requires i <= 39
    ensures Legal(START, run) && CoreOf(Final(START, run)) == S(i)
  {
    if i == 0 {
      run := [];
    } else {
      var r := Walk(Prev(i));
      Steps(i, Final(START, r));
      RunThen(START, r, Into(i));
      run := r + [Into(i)];
    }
  }

  lemma TaskOverlooked(t: State)
    requires CoreOf(t) == S(6)
    ensures |t.workers| == 2 && ActEnabled(t, 0, DecideStop) && t.workers[1].pc == Counting(0, false) && t.taken == [Fiber(7)]
  {
    assert t.workers == [Worker(StopCheck2, false), Worker(Counting(0, false), false)];
  }

  // shouldStop is true while a task is in hand.
  lemma StopsWithWorkInHand() returns (run: seq<Step>)
    ensures Init(START) && Legal(START, run)
    ensures var t := Final(START, run);
      |t.workers| == 2 && ActEnabled(t, 0, DecideStop) && t.workers[1].pc == Counting(0, false) && t.taken == [Fiber(7)]
  {
    run := Walk(6);
    TaskOverlooked(Final(START, run));
  }

  lemma TimerOverlooked(t: State)
    requires CoreOf(t) == S(39)
    ensures |t.workers| == 2 && ActEnabled(t, 1, DecideStop) && t.timers == {E} && NoneOverlooked(t)
  {
    assert t.workers == [Worker(Fetch, true), Worker(StopCheck2, false)];
  }

  // shouldStop is true while a timer is armed, added after it looked.
  lemma StopsWithATimer() returns (run: seq<Step>)
    ensures Init(START) && Legal(START, run)
    ensures var t := Final(START, run);
      |t.workers| == 2 && ActEnabled(t, 1, DecideStop) && t.timers == {E} && NoneOverlooked(t)
  {
    run := Walk(39);
    TimerOverlooked(Final(START, run));
  }

  lemma Lost(t: State)
    requires CoreOf(t) == S(29)
    ensures AllExited(t) && t.tasks == [Func(2)] && t.strayed
  {
    assert t.workers == [Worker(Exited, true), Worker(Exited, true)];
  }

  // A scheduled function is left behind when all workers have returned.
  lemma LosesATask() returns (run: seq<Step>)
    ensures Init(START) && Legal(START, run)
    ensures var t := Final(START, run); AllExited(t) && t.tasks == [Func(2)] && t.strayed
  {
    run := Walk(29);
    Lost(Final(START, run));
  }

  lemma Abandoned(t: State)
    requires CoreOf(t) == S(34)
    ensures AllExited(t) && !t.strayed && t.late && t.timers == {E} && t.pending == 1
  {
    assert t.workers == [Worker(Exited, true), Worker(Exited, true)];
  }

  // No task is left behind, but a timer and a pending event are: a parked fiber
  // is abandoned.
  lemma AbandonsATimer() returns (run: seq<Step>)
    ensures Init(START) && Legal(START, run)
    ensures var t := Final(START, run); AllExited(t) && !t.strayed && t.late && t.timers == {E} && t.pending == 1
  {
    run := Walk(34);
    Abandoned(Final(START, run));
  }
}
