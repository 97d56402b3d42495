/**
 * Lock order (src/iomanager.cpp, src/iomanager.h, src/scheduler.h,
 * src/scheduler.cpp, src/timer.cpp, src/fd_manager.cpp, src/hook.cpp,
 * src/log.cpp). The operations that take locks are written down as the scopes
 * of their guards; threads run any of them in any order. No reachable state is a
 * deadlock.
 */
module Locks {
  import opened Basics

  datatype Lock =
    | TableLock             // IOManager::m_mutex
    | FdLock(fd: nat)       // FdContext::mtx
    | SchedulerLock         // Scheduler::m_mutex
    | TimerLock             // TimerManager::m_mutex
    | LoggerManagerLock     // LoggerManager::m_mtx
    | LoggerLock            // Logger::m_mtx
    | AppenderLock          // LogAppender::m_mtx
    | FdManagerLock         // FdManager::m_mutex

  datatype Mode = Shared | Exclusive

  function Rank(l: Lock): nat {
    match l
    case TableLock => 0
    case FdLock(_) => 1
    case SchedulerLock => 2
    case TimerLock => 3
    case LoggerManagerLock => 4
    case LoggerLock => 5
    case AppenderLock => 6
    case FdManagerLock => 7
  }

  // ---- operations as nested guard scopes ----

  datatype Code =
    | Done
    | Guard(lock: Lock, mode: Mode, body: Code, next: Code)
    | WaitThread(worker: nat, ended: bool, next: Code)   // until it has ended, or has started

  function Then(a: Code, b: Code): Code {
    match a
    case Done => b
    case Guard(l, m, body, next) => Guard(l, m, body, Then(next, b))
    case WaitThread(w, ended, next) => WaitThread(w, ended, Then(next, b))
  }

  function If(c: bool, code: Code): Code { if c then code else Done }

  function Scope(l: Lock, m: Mode, body: Code): Code { Guard(l, m, body, Done) }

  // A log line: Logger::log, its appender, and the hooked write below it.
  function LogLine(): Code {
    Scope(LoggerLock, Exclusive, Scope(AppenderLock, Exclusive, Scope(FdManagerLock, Shared, Done)))
  }

  // tickle: a log line and a hooked write, when some thread is idle.
  function Tickle(): Code { Then(LogLine(), Scope(FdManagerLock, Shared, Done)) }

  // close of an untracked descriptor.
  function HookedClose(): Code { Scope(FdManagerLock, Shared, Done) }

  function Schedule(tickles: bool): Code { Scope(SchedulerLock, Exclusive, If(tickles, Tickle())) }

  datatype Op =
    | AddEvent(fd: nat, grows: bool, logs: bool)
    | DelEvent(fd: nat)
    | CancelEvent(fd: nat, tickles: bool)
    | CancelAll(fd: nat, logs: bool, rd: bool, wr: bool, tickles: bool)
    | ScheduleEvent(fd: nat, logs: bool, rd: bool, wr: bool, tickles: bool)
    | ScheduleTask(tickles: bool)
    | DequeueTask
    | ShouldStop
    | AddTimer(first: bool)
    | CancelTimer
    | Refresh(first: bool)
    | NextTime
    | ExpiredFuncs
    | FdManagerGet(creates: bool)
    | FdManagerDel
    | WriteLog
    | GetLogger(creates: bool)
    | ChangeAppenders                // addLogAppender, delLogAppender, clearLogAppenders
    | FlushAppender
    | ReopenAppender
    | Start(workers: nat)
    | Stop(workers: nat)
    | DestroyScheduler

  // Dispatching READ and WRITE under the descriptor's lock.
  function DispatchBody(logs: bool, rd: bool, wr: bool, tickles: bool): Code {
    Then(If(logs, LogLine()), Then(If(rd, Schedule(tickles)), If(wr, Schedule(tickles))))
  }

  function Tickles(n: nat): Code { if n == 0 then Done else Then(Tickle(), Tickles(n - 1)) }

  // The constructors of the threads: each waits for its thread to start.
  function Awaits(n: nat): Code { if n == 0 then Done else Then(Awaits(n - 1), WaitThread(n - 1, false, Done)) }

  function Joins(n: nat): Code { if n == 0 then Done else Then(Joins(n - 1), WaitThread(n - 1, true, Done)) }

  function CodeOf(op: Op): Code {
    match op
    case AddEvent(fd, grows, logs) =>
      Guard(TableLock, Shared, Done,
        Guard(TableLock, if grows then Exclusive else Shared, Done, Scope(FdLock(fd), Exclusive, If(logs, LogLine()))))
    case DelEvent(fd) => Guard(TableLock, Shared, Done, Scope(FdLock(fd), Exclusive, Done))
    case CancelEvent(fd, tickles) => Guard(TableLock, Shared, Done, Scope(FdLock(fd), Exclusive, Schedule(tickles)))
    case CancelAll(fd, logs, rd, wr, tickles) =>
      Guard(TableLock, Shared, Done, Scope(FdLock(fd), Exclusive, DispatchBody(logs, rd, wr, tickles)))
    case ScheduleEvent(fd, logs, rd, wr, tickles) => Scope(FdLock(fd), Exclusive, DispatchBody(logs, rd, wr, tickles))
    case ScheduleTask(tickles) => Schedule(tickles)
    case DequeueTask => Scope(SchedulerLock, Exclusive, Done)
    case ShouldStop => Scope(SchedulerLock, Exclusive, Scope(TimerLock, Shared, Done))
    case AddTimer(first) => Guard(TimerLock, Exclusive, Done, If(first, Tickle()))
    case CancelTimer => Scope(TimerLock, Exclusive, Done)
    case Refresh(first) => Guard(TimerLock, Exclusive, Done, Guard(TimerLock, Exclusive, Done, If(first, Tickle())))
    case NextTime => Scope(TimerLock, Shared, Done)
    case ExpiredFuncs => Guard(TimerLock, Shared, Done, Scope(TimerLock, Exclusive, Done))
    case FdManagerGet(creates) => Guard(FdManagerLock, Shared, Done, If(creates, Scope(FdManagerLock, Exclusive, Done)))
    case FdManagerDel => Scope(FdManagerLock, Exclusive, Done)
    case WriteLog => LogLine()
    case GetLogger(creates) => Scope(LoggerManagerLock, Exclusive, If(creates, Scope(LoggerLock, Exclusive, Done)))
    case ChangeAppenders => Scope(LoggerLock, Exclusive, Done)
    case FlushAppender => Scope(AppenderLock, Exclusive, Done)
    case ReopenAppender => Scope(AppenderLock, Exclusive, HookedClose())
    case Start(n) => Scope(SchedulerLock, Exclusive, Awaits(n))
    case DestroyScheduler => Scope(SchedulerLock, Exclusive, Then(HookedClose(), Then(HookedClose(), HookedClose())))
    case Stop(n) =>
      Then(LogLine(), Guard(SchedulerLock, Exclusive, Done, Then(Tickles(n), Then(Joins(n), Scope(SchedulerLock, Exclusive, Done)))))
  }

  // All locks taken rank above `floor` (the locks already held), inner ones
  // above outer ones, and threads are joined with no lock held.
  predicate Disciplined(c: Code, floor: int) {
    match c
    case Done => true
    case Guard(l, _, body, next) => Rank(l) > floor && Disciplined(body, Rank(l)) && Disciplined(next, floor)
    case WaitThread(_, ended, next) => (ended ==> floor < 0) && Disciplined(next, floor)
  }

  lemma {:induction false} ThenDisciplined(a: Code, b: Code, floor: int)
    requires Disciplined(a, floor) && Disciplined(b, floor)
    ensures Disciplined(Then(a, b), floor)
  {
    match a
    case Done =>
    case Guard(_, _, _, next) => ThenDisciplined(next, b, floor);
    case WaitThread(_, _, next) => ThenDisciplined(next, b, floor);
  }

  lemma TickleDisciplined(floor: int)
    requires floor < 5
    ensures Disciplined(LogLine(), floor) && Disciplined(Tickle(), floor)
  {
    var write := Scope(FdManagerLock, Shared, Done);
    assert Disciplined(write, 6) && Disciplined(write, floor);
    assert Disciplined(Scope(AppenderLock, Exclusive, write), 5);
    ThenDisciplined(LogLine(), write, floor);
  }

  lemma ScheduleDisciplined(tickles: bool, floor: int)
    requires floor < 2
    ensures Disciplined(Schedule(tickles), floor)
  {
    TickleDisciplined(2);
  }

  lemma DispatchDisciplined(logs: bool, rd: bool, wr: bool, tickles: bool)
    ensures Disciplined(DispatchBody(logs, rd, wr, tickles), 1)
  {
    TickleDisciplined(1);
    ScheduleDisciplined(tickles, 1);
    ThenDisciplined(If(rd, Schedule(tickles)), If(wr, Schedule(tickles)), 1);
    ThenDisciplined(If(logs, LogLine()), Then(If(rd, Schedule(tickles)), If(wr, Schedule(tickles))), 1);
  }

  lemma {:induction false} TicklesDisciplined(n: nat)
    ensures Disciplined(Tickles(n), -1)
  {
    if n > 0 {
      TickleDisciplined(-1);
      TicklesDisciplined(n - 1);
      ThenDisciplined(Tickle(), Tickles(n - 1), -1);
    }
  }

  lemma {:induction false} JoinsDisciplined(n: nat)
    ensures Disciplined(Joins(n), -1)
  {
    if n > 0 {
      JoinsDisciplined(n - 1);
      ThenDisciplined(Joins(n - 1), WaitThread(n - 1, true, Done), -1);
    }
  }

  lemma {:induction false} AwaitsDisciplined(n: nat)
    ensures Disciplined(Awaits(n), 2)
  {
    if n > 0 {
      AwaitsDisciplined(n - 1);
      ThenDisciplined(Awaits(n - 1), WaitThread(n - 1, false, Done), 2);
    }
  }

  lemma StopDisciplined(n: nat)
    ensures Disciplined(CodeOf(Stop(n)), -1)
  {
    TickleDisciplined(-1);
    TicklesDisciplined(n);
    JoinsDisciplined(n);
    var last := Scope(SchedulerLock, Exclusive, Done);
    ThenDisciplined(Joins(n), last, -1);
    ThenDisciplined(Tickles(n), Then(Joins(n), last), -1);
    ThenDisciplined(LogLine(), Guard(SchedulerLock, Exclusive, Done, Then(Tickles(n), Then(Joins(n), last))), -1);
  }

  lemma ClosesDisciplined()
    ensures Disciplined(Then(HookedClose(), Then(HookedClose(), HookedClose())), 2)
  {
    var close := HookedClose();
    assert Disciplined(close, 2);
    ThenDisciplined(close, close, 2);
    ThenDisciplined(close, Then(close, close), 2);
  }

  lemma EventDisciplined(op: Op)
    requires op.AddEvent? || op.CancelEvent? || op.CancelAll? || op.ScheduleEvent?
    ensures Disciplined(CodeOf(op), -1)
  {
    match op
    case AddEvent(fd, grows, logs) =>
      TickleDisciplined(1);
      var locked := Scope(FdLock(fd), Exclusive, If(logs, LogLine()));
      assert Disciplined(locked, -1);
      assert Disciplined(Guard(TableLock, if grows then Exclusive else Shared, Done, locked), -1);
    case CancelEvent(_, tickles) => ScheduleDisciplined(tickles, 1);
    case CancelAll(_, logs, rd, wr, tickles) => DispatchDisciplined(logs, rd, wr, tickles);
    case ScheduleEvent(_, logs, rd, wr, tickles) => DispatchDisciplined(logs, rd, wr, tickles);
  }

  // Every operation respects the order: descriptor before scheduler before
  // timers before logging, the table lock released first.
  lemma EveryOpDisciplined(op: Op)
    ensures Disciplined(CodeOf(op), -1)
  {
    if op.AddEvent? || op.CancelEvent? || op.CancelAll? || op.ScheduleEvent? {
      EventDisciplined(op);
      return;
    }
    TickleDisciplined(-1);
    match op
    case DestroyScheduler => ClosesDisciplined();
    case ReopenAppender => assert Disciplined(HookedClose(), 6);
    case GetLogger(creates) => assert Disciplined(If(creates, Scope(LoggerLock, Exclusive, Done)), 4);
    case Refresh(first) => assert Disciplined(Guard(TimerLock, Exclusive, Done, If(first, Tickle())), -1);
    case ScheduleTask(tickles) => ScheduleDisciplined(tickles, -1);
    case Start(n) => AwaitsDisciplined(n);
    case Stop(n) => StopDisciplined(n);
    case _ =>
  }

  // ---- threads ----

  datatype Action = Acquire(lock: Lock, mode: Mode) | Release(lock: Lock) | Wait(worker: nat, ended: bool) | Notify

  // The actions of a piece of code, followed by `rest`.
  function Flat(c: Code, rest: seq<Action>): seq<Action> {
    match c
    case Done => rest
    case Guard(l, m, body, next) => [Acquire(l, m)] + Flat(body, [Release(l)] + Flat(next, rest))
    case WaitThread(w, ended, next) => [Wait(w, ended)] + Flat(next, rest)
  }

  function Program(ops: seq<Op>): seq<Action> {
    if ops == [] then [] else Flat(CodeOf(ops[0]), Program(ops[1..]))
  }

  datatype Thread = Thread(rest: seq<Action>, held: map<Lock, Mode>)

  predicate Compatible(held: map<Lock, Mode>, l: Lock, m: Mode) {
    l in held ==> held[l] == Shared && m == Shared
  }

  // A thread waits for a lock until nobody holds it in a conflicting mode, and for
  // another thread until that has ended or, to start it, has notified.
  predicate CanStep(ts: seq<Thread>, i: nat)
    requires i < |ts|
  {
    && ts[i].rest != []
    && match ts[i].rest[0]
       case Acquire(l, m) => forall j :: 0 <= j < |ts| && j != i ==> Compatible(ts[j].held, l, m)
       case Release(_) => true
       case Wait(w, ended) => w < |ts| && (ts[w].rest == [] || (!ended && !ts[w].rest[0].Notify?))
       case Notify => true
  }

  function Stepped(t: Thread): Thread
    requires t.rest != []
  {
    match t.rest[0]
    case Acquire(l, m) => Thread(t.rest[1..], t.held[l := m])
    case Release(l) => Thread(t.rest[1..], t.held - {l})
    case Wait(_, _) => Thread(t.rest[1..], t.held)
    case Notify => Thread(t.rest[1..], t.held)
  }

  ghost predicate Legal(ts: seq<Thread>, run: seq<nat>)
    decreases |run|
  {
    run == [] || (run[0] < |ts| && CanStep(ts, run[0]) && Legal(ts[run[0] := Stepped(ts[run[0]])], run[1..]))
  }

  ghost function Final(ts: seq<Thread>, run: seq<nat>): seq<Thread>
    requires Legal(ts, run)
    decreases |run|
  {
    if run == [] then ts else Final(ts[run[0] := Stepped(ts[run[0]])], run[1..])
  }

  // The rest of a program, run with `held` in hand, respects the order and
  // gives everything back.
  ghost predicate Ordered(held: set<Lock>, rest: seq<Action>)
    decreases |rest|
  {
    if rest == [] then held == {}
    else match rest[0]
      case Acquire(l, _) => (forall h :: h in held ==> Rank(h) < Rank(l)) && Ordered(held + {l}, rest[1..])
      case Release(l) => l in held && Ordered(held - {l}, rest[1..])
      case Wait(_, ended) => (ended ==> held == {}) && Ordered(held, rest[1..])
      case Notify => Ordered(held, rest[1..])
  }

  // Joins are for the first n threads, which join nobody themselves.
  ghost predicate JoinsBelow(rest: seq<Action>, n: nat) {
    forall k :: 0 <= k < |rest| && rest[k].Wait? ==> rest[k].worker < n
  }

  ghost predicate ThreadOk(t: Thread, isWorker: bool, n: nat) {
    Ordered(t.held.Keys, t.rest) && JoinsBelow(t.rest, n) && (isWorker ==> JoinsBelow(t.rest, 0))
  }

  ghost predicate Inv(ts: seq<Thread>, n: nat) {
    n <= |ts| && forall i :: 0 <= i < |ts| ==> ThreadOk(ts[i], i < n, n)
  }

  // Disciplined code is ordered wherever its floor allows it to run.
  lemma {:induction false} FlatOrdered(c: Code, held: set<Lock>, floor: int, rest: seq<Action>)
    requires Disciplined(c, floor) && (forall h :: h in held ==> Rank(h) <= floor) && Ordered(held, rest)
    ensures Ordered(held, Flat(c, rest))
    decreases c
  {
    match c
    case Done =>
    case Guard(l, m, body, next) =>
      FlatOrdered(next, held, floor, rest);
      var after := [Release(l)] + Flat(next, rest);
      assert l !in held && held + {l} - {l} == held;
      assert after[1..] == Flat(next, rest);
      assert Ordered(held + {l}, after);
      FlatOrdered(body, held + {l}, Rank(l), after);
      assert Flat(c, rest)[1..] == Flat(body, after);
    case WaitThread(w, ended, next) =>
      FlatOrdered(next, held, floor, rest);
      assert Flat(c, rest)[1..] == Flat(next, rest);
      assert ended ==> held == {};
  }

  lemma {:induction false} ProgramOrdered(ops: seq<Op>)
    ensures Ordered({}, Program(ops))
  {
    if ops != [] {
      ProgramOrdered(ops[1..]);
      EveryOpDisciplined(ops[0]);
      FlatOrdered(CodeOf(ops[0]), {}, -1, Program(ops[1..]));
    }
  }

  lemma StepInv(ts: seq<Thread>, n: nat, i: nat)
    requires Inv(ts, n) && i < |ts| && CanStep(ts, i)
    ensures Inv(ts[i := Stepped(ts[i])], n)
  {
    var t, u := ts[i], Stepped(ts[i]);
    assert ThreadOk(t, i < n, n);
    match t.rest[0]
    case Acquire(l, m) => assert u.held.Keys == t.held.Keys + {l};
    case Release(l) => assert u.held.Keys == t.held.Keys - {l};
    case Wait(_, _) => assert u.held == t.held;
    case Notify => assert u.held == t.held;
  }

  lemma {:induction false} RunInv(ts: seq<Thread>, n: nat, run: seq<nat>)
    requires Inv(ts, n) && Legal(ts, run)
    ensures Inv(Final(ts, run), n)
    decreases |run|
  {
    if run != [] {
      StepInv(ts, n, run[0]);
      RunInv(ts[run[0] := Stepped(ts[run[0]])], n, run[1..]);
    }
  }

  // ---- no deadlock ----

  // Thread i waits for a lock that thread j holds.
  ghost predicate WaitsFor(ts: seq<Thread>, i: nat, j: nat) {
    && i < |ts| && j < |ts| && i != j && ts[i].rest != [] && ts[i].rest[0].Acquire?
    && !Compatible(ts[j].held, ts[i].rest[0].lock, ts[i].rest[0].mode)
  }

  // Whoever holds a lock is not joining, and waits only for a higher one or for a
  // thread to start.
  lemma HolderIsHigher(ts: seq<Thread>, n: nat, i: nat, j: nat)
    requires Inv(ts, n) && WaitsFor(ts, i, j)
    ensures ts[j].rest != [] && !(ts[j].rest[0].Wait? && ts[j].rest[0].ended)
    ensures ts[j].rest[0].Acquire? ==> Rank(ts[i].rest[0].lock) < Rank(ts[j].rest[0].lock)
  {
    assert ThreadOk(ts[j], j < n, n);
    assert ts[i].rest[0].lock in ts[j].held.Keys;
  }

  // From a thread that waits for a lock, some thread that can go on is found by
  // following the holders up the ranks.
  lemma {:induction false} SomeoneCanStep(ts: seq<Thread>, n: nat, i: nat) returns (j: nat)
    requires Inv(ts, n) && i < |ts| && ts[i].rest != [] && !(ts[i].rest[0].Wait? && ts[i].rest[0].ended)
    ensures j < |ts| && CanStep(ts, j)
    decreases if ts[i].rest[0].Acquire? then 8 - Rank(ts[i].rest[0].lock) else 0
  {
    if CanStep(ts, i) {
      j := i;
    } else if ts[i].rest[0].Wait? {
      assert ThreadOk(ts[i], i < n, n);
      j := ts[i].rest[0].worker;
    } else {
      var k :| 0 <= k < |ts| && k != i && !Compatible(ts[k].held, ts[i].rest[0].lock, ts[i].rest[0].mode);
      assert WaitsFor(ts, i, k);
      HolderIsHigher(ts, n, i, k);
      j := SomeoneCanStep(ts, n, k);
    }
  }

  // Along any chain of waiting threads the ranks rise.
  lemma {:induction false} ChainRises(ts: seq<Thread>, n: nat, chain: seq<nat>)
    requires Inv(ts, n) && |chain| >= 2
    requires forall k :: 0 <= k < |chain| - 1 ==> WaitsFor(ts, chain[k], chain[k + 1])
    ensures WaitsFor(ts, chain[0], chain[1]) && chain[|chain| - 1] < |ts|
    ensures chain[0] != chain[|chain| - 1]
    ensures var z := chain[|chain| - 1];
      ts[z].rest != [] && (ts[z].rest[0].Acquire? ==> Rank(ts[chain[0]].rest[0].lock) < Rank(ts[z].rest[0].lock))
    decreases |chain|
  {
    var z := |chain| - 1;
    assert WaitsFor(ts, chain[z - 1], chain[z]);
    HolderIsHigher(ts, n, chain[z - 1], chain[z]);
    assert WaitsFor(ts, chain[0], chain[1]);
    if |chain| > 2 {
      var front := chain[..z];
      assert forall k :: 0 <= k < |front| ==> front[k] == chain[k];
      ChainRises(ts, n, front);
    }
  }

  // The workers are threads 0..n-1; the first thing a worker does is to notify
  // the constructor that waits for it.
  ghost function FirstActions(i: nat, n: nat, ops: seq<Op>): seq<Action> {
    if i < n then [Notify] + Program(ops) else Program(ops)
  }

  predicate IsStartStop(op: Op) { op.Start? || op.Stop? }

  // Threads run any operations; threads n and up may start and stop the
  // scheduler, that is wait for the workers.
  ghost predicate Starts(ts: seq<Thread>, n: nat, ops: seq<seq<Op>>) {
    && n <= |ts| == |ops|
    && (forall i :: 0 <= i < |ts| ==> ts[i] == Thread(FirstActions(i, n, ops[i]), map[]))
    && (forall i, k :: 0 <= i < |ops| && 0 <= k < |ops[i]| && IsStartStop(ops[i][k]) ==> n <= i && ops[i][k].workers <= n)
  }

  predicate CodeJoins(c: Code, n: nat) {
    match c
    case Done => true
    case Guard(_, _, body, next) => CodeJoins(body, n) && CodeJoins(next, n)
    case WaitThread(w, _, next) => w < n && CodeJoins(next, n)
  }

  lemma {:induction false} ThenJoins(a: Code, b: Code, n: nat)
    requires CodeJoins(a, n) && CodeJoins(b, n)
    ensures CodeJoins(Then(a, b), n)
  {
    match a
    case Done =>
    case Guard(_, _, _, next) => ThenJoins(next, b, n);
    case WaitThread(_, _, next) => ThenJoins(next, b, n);
  }

  lemma TickleJoins(n: nat)
    ensures CodeJoins(LogLine(), n) && CodeJoins(Tickle(), n)
  {
    var write := Scope(FdManagerLock, Shared, Done);
    assert CodeJoins(write, n);
    assert CodeJoins(Scope(AppenderLock, Exclusive, write), n);
    ThenJoins(LogLine(), write, n);
  }

  lemma {:induction false} LoopJoins(k: nat, n: nat)
    requires k <= n
    ensures CodeJoins(Tickles(k), n) && CodeJoins(Joins(k), n) && CodeJoins(Awaits(k), n)
  {
    if k > 0 {
      LoopJoins(k - 1, n);
      TickleJoins(n);
      ThenJoins(Tickle(), Tickles(k - 1), n);
      ThenJoins(Joins(k - 1), WaitThread(k - 1, true, Done), n);
      ThenJoins(Awaits(k - 1), WaitThread(k - 1, false, Done), n);
    }
  }

  // Only start and stop wait for threads.
  lemma OpJoins(op: Op, n: nat)
    requires IsStartStop(op) ==> op.workers <= n
    ensures CodeJoins(CodeOf(op), n)
  {
    TickleJoins(n);
    if op.CancelAll? || op.ScheduleEvent? {
      ThenJoins(If(op.rd, Schedule(op.tickles)), If(op.wr, Schedule(op.tickles)), n);
      ThenJoins(If(op.logs, LogLine()), Then(If(op.rd, Schedule(op.tickles)), If(op.wr, Schedule(op.tickles))), n);
    } else if op.CancelEvent? {
      assert CodeJoins(Schedule(op.tickles), n);
    } else if op.DestroyScheduler? {
      var close := HookedClose();
      assert CodeJoins(close, n);
      ThenJoins(close, close, n);
      ThenJoins(close, Then(close, close), n);
    } else if op.AddEvent? {
      var locked := Scope(FdLock(op.fd), Exclusive, If(op.logs, LogLine()));
      assert CodeJoins(locked, n);
      assert CodeJoins(Guard(TableLock, if op.grows then Exclusive else Shared, Done, locked), n);
    } else if op.Start? {
      LoopJoins(op.workers, n);
    } else if op.Stop? {
      LoopJoins(op.workers, n);
      var last := Scope(SchedulerLock, Exclusive, Done);
      ThenJoins(Joins(op.workers), last, n);
      ThenJoins(Tickles(op.workers), Then(Joins(op.workers), last), n);
      ThenJoins(LogLine(), Guard(SchedulerLock, Exclusive, Done, Then(Tickles(op.workers), Then(Joins(op.workers), last))), n);
    }
  }

  lemma {:induction false} FlatJoins(c: Code, rest: seq<Action>, n: nat)
    requires CodeJoins(c, n) && JoinsBelow(rest, n)
    ensures JoinsBelow(Flat(c, rest), n)
    decreases c
  {
    match c
    case Done =>
    case Guard(l, m, body, next) =>
      FlatJoins(next, rest, n);
      FlatJoins(body, [Release(l)] + Flat(next, rest), n);
    case WaitThread(_, _, next) => FlatJoins(next, rest, n);
  }

  lemma {:induction false} ProgramJoins(ops: seq<Op>, n: nat)
    requires forall k :: 0 <= k < |ops| && IsStartStop(ops[k]) ==> ops[k].workers <= n
    ensures JoinsBelow(Program(ops), n)
  {
    if ops != [] {
      OpJoins(ops[0], n);
      ProgramJoins(ops[1..], n);
      FlatJoins(CodeOf(ops[0]), Program(ops[1..]), n);
    }
  }

  lemma StartInv(ts: seq<Thread>, n: nat, ops: seq<seq<Op>>)
    requires Starts(ts, n, ops)
    ensures Inv(ts, n)
  {
    forall i | 0 <= i < |ts| ensures ThreadOk(ts[i], i < n, n) {
      assert ts[i].held.Keys == {};
      ProgramOrdered(ops[i]);
      ProgramJoins(ops[i], n);
      if i < n {
        ProgramJoins(ops[i], 0);
        assert ([Notify] + Program(ops[i]))[1..] == Program(ops[i]);
      }
    }
  }

  // No deadlock: whatever operations the threads were given and however they
  // have interleaved so far, if some thread has not finished, some thread can
  // go on.
  lemma NoDeadlock(ts: seq<Thread>, n: nat, ops: seq<seq<Op>>, run: seq<nat>, i: nat) returns (j: nat)
    requires Starts(ts, n, ops) && Legal(ts, run)
    requires i < |Final(ts, run)| && Final(ts, run)[i].rest != []
    ensures j < |Final(ts, run)| && CanStep(Final(ts, run), j)
  {
    StartInv(ts, n, ops);
    RunInv(ts, n, run);
    var us := Final(ts, run);
    if us[i].rest[0].Wait? && us[i].rest[0].ended {
      assert ThreadOk(us[i], i < n, n);
      var w := us[i].rest[0].worker;
      if us[w].rest == [] {
        j := i;
      } else {
        assert ThreadOk(us[w], true, n);
        j := SomeoneCanStep(us, n, w);
      }
    } else {
      j := SomeoneCanStep(us, n, i);
    }
  }

  // ---- mutual exclusion ----

  ghost predicate Exclusion(ts: seq<Thread>) {
    forall i, j, l :: 0 <= i < |ts| && 0 <= j < |ts| && i != j && l in ts[i].held && l in ts[j].held ==>
      ts[i].held[l] == Shared && ts[j].held[l] == Shared
  }

  lemma StepExclusion(ts: seq<Thread>, i: nat)
    requires Exclusion(ts) && i < |ts| && CanStep(ts, i)
    ensures Exclusion(ts[i := Stepped(ts[i])])
  {
    var us := ts[i := Stepped(ts[i])];
    forall j, k, l | 0 <= j < |us| && 0 <= k < |us| && j != k && l in us[j].held && l in us[k].held
      ensures us[j].held[l] == Shared && us[k].held[l] == Shared
    {
      if ts[i].rest[0].Acquire? && l == ts[i].rest[0].lock && (j == i || k == i) {
        assert Compatible(ts[if j == i then k else j].held, l, ts[i].rest[0].mode);
      }
    }
  }

  // In every run a lock that one thread holds exclusively no other thread holds.
  lemma {:induction false} MutualExclusion(ts: seq<Thread>, run: seq<nat>)
    requires Exclusion(ts) && Legal(ts, run)
    ensures Exclusion(Final(ts, run))
    decreases |run|
  {
    if run != [] {
      StepExclusion(ts, run[0]);
      MutualExclusion(ts[run[0] := Stepped(ts[run[0]])], run[1..]);
    }
  }

  predicate Touches(a: Action, l: Lock) { a == Release(l) || (a.Acquire? && a.lock == l) }

  // Thread i neither releases l nor takes it again in the run.
  ghost predicate Keeps(ts: seq<Thread>, run: seq<nat>, i: nat, l: Lock)
    requires Legal(ts, run)
    decreases |run|
  {
    run == [] || ((run[0] == i ==> !Touches(ts[i].rest[0], l)) && Keeps(ts[run[0] := Stepped(ts[run[0]])], run[1..], i, l))
  }

  // Once a thread has acquired a lock exclusively no other thread acquires it, in
  // either mode, before the release.
  lemma AcquiredIsExclusive(ts: seq<Thread>, i: nat, l: Lock, run: seq<nat>, j: nat)
    requires i < |ts| && CanStep(ts, i) && ts[i].rest[0] == Acquire(l, Exclusive)
    requires Legal(ts[i := Stepped(ts[i])], run) && Keeps(ts[i := Stepped(ts[i])], run, i, l)
    ensures var us := Final(ts[i := Stepped(ts[i])], run);
      j < |us| && j != i && us[j].rest != [] && us[j].rest[0].Acquire? && us[j].rest[0].lock == l ==> !CanStep(us, j)
  {
    StaysHeld(ts[i := Stepped(ts[i])], run, i, l);
  }

  lemma {:induction false} StaysHeld(ts: seq<Thread>, run: seq<nat>, i: nat, l: Lock)
    requires Legal(ts, run) && i < |ts| && l in ts[i].held && ts[i].held[l] == Exclusive && Keeps(ts, run, i, l)
    ensures |Final(ts, run)| == |ts| && l in Final(ts, run)[i].held && Final(ts, run)[i].held[l] == Exclusive
    decreases |run|
  {
    if run != [] {
      StaysHeld(ts[run[0] := Stepped(ts[run[0]])], run[1..], i, l);
    }
  }

  // Joins mean what they say: a thread passes a join only when the worker has ended,
  // and a wait for a worker to start only when it has notified.
  lemma JoinedHaveEnded(ts: seq<Thread>, i: nat, run: seq<nat>)
    requires i < |ts| && CanStep(ts, i) && ts[i].rest[0].Wait? && Legal(ts[i := Stepped(ts[i])], run)
    requires ts[i].rest[0].worker != i
    ensures var w := ts[i].rest[0].worker; var us := Final(ts[i := Stepped(ts[i])], run);
      && w < |us| && (ts[i].rest[0].ended ==> us[w].rest == [])
      && (!ts[i].rest[0].ended ==> ts[w].rest == [] || !ts[w].rest[0].Notify?)
  {
    EndedStays(ts[i := Stepped(ts[i])], run, ts[i].rest[0].worker);
  }

  lemma {:induction false} EndedStays(ts: seq<Thread>, run: seq<nat>, w: nat)
    requires Legal(ts, run) && w < |ts|
    ensures |Final(ts, run)| == |ts| && (ts[w].rest == [] ==> Final(ts, run)[w].rest == [])
    decreases |run|
  {
    if run != [] {
      EndedStays(ts[run[0] := Stepped(ts[run[0]])], run[1..], w);
    }
  }

  lemma {:induction false} NotYetRun(ts: seq<Thread>, run: seq<nat>, w: nat, i: nat)
    requires Legal(ts, run) && w < |ts| && w !in run && i < |ts|
    requires ts[w].rest != [] && ts[w].rest[0] == Notify
    ensures |Final(ts, run)| == |ts| && Final(ts, run)[w] == ts[w]
    ensures Final(ts, run)[i].rest != [] && Final(ts, run)[i].rest[0] == Wait(w, false) ==> !CanStep(Final(ts, run), i)
    decreases |run|
  {
    if run != [] {
      NotYetRun(ts[run[0] := Stepped(ts[run[0]])], run[1..], w, i);
    }
  }

  // In every run start does not get past the constructor of a thread that has not yet
  // taken a step.
  lemma StartWaitsForThreads(ts: seq<Thread>, n: nat, ops: seq<seq<Op>>, run: seq<nat>, w: nat, i: nat)
    requires Starts(ts, n, ops) && Legal(ts, run) && w < n && w !in run && i < |ts|
    ensures |Final(ts, run)| == |ts|
    ensures Final(ts, run)[i].rest != [] && Final(ts, run)[i].rest[0] == Wait(w, false) ==> !CanStep(Final(ts, run), i)
  {
    assert ts[w].rest == [Notify] + Program(ops[w]);
    NotYetRun(ts, run, w, i);
  }

  // And no reachable state has a cycle of lock waits.
  lemma NoWaitCycle(ts: seq<Thread>, n: nat, ops: seq<seq<Op>>, run: seq<nat>, chain: seq<nat>)
    requires Starts(ts, n, ops) && Legal(ts, run) && |chain| >= 2
    requires forall k :: 0 <= k < |chain| - 1 ==> WaitsFor(Final(ts, run), chain[k], chain[k + 1])
    ensures chain[0] != chain[|chain| - 1]
  {
    StartInv(ts, n, ops);
    RunInv(ts, n, run);
    ChainRises(Final(ts, run), n, chain);
  }

  // ---- the write guard ----

  predicate IsRw(l: Lock) { l.TableLock? || l.TimerLock? || l.FdManagerLock? }

  // The actions of a piece of code as MutexWriteGuard has them: it does not set
  // m_locked on construction, and its destructor releases the lock only if the
  // indeterminate value `locked` is true. The other guards are as in Flat.
  function FlatWith(c: Code, rest: seq<Action>, locked: bool): seq<Action> {
    match c
    case Done => rest
    case Guard(l, m, body, next) =>
      var after := FlatWith(next, rest, locked);
      [Acquire(l, m)] + FlatWith(body, if IsRw(l) && m.Exclusive? && !locked then after else [Release(l)] + after, locked)
    case WaitThread(w, ended, next) => [Wait(w, ended)] + FlatWith(next, rest, locked)
  }

  // The write guards on l in a piece of code.
  function WriteGuards(c: Code, l: Lock): nat {
    match c
    case Done => 0
    case Guard(k, m, body, next) => One(k == l && IsRw(l) && m.Exclusive?) + WriteGuards(body, l) + WriteGuards(next, l)
    case WaitThread(_, _, next) => WriteGuards(next, l)
  }

  // Acquisitions of l less its releases.
  function Net(rest: seq<Action>, l: Lock): int {
    if rest == [] then 0
    else (match rest[0] case Acquire(k, _) => One(k == l) case Release(k) => 0 - One(k == l) case Wait(_, _) => 0 case Notify => 0) + Net(rest[1..], l)
  }

  lemma {:induction false} OrderedBalances(held: set<Lock>, rest: seq<Action>, l: Lock)
    requires Ordered(held, rest)
    ensures One(l in held) + Net(rest, l) == 0
    decreases |rest|
  {
    if rest != [] {
      match rest[0]
      case Acquire(k, _) => OrderedBalances(held + {k}, rest[1..], l);
      case Release(k) => OrderedBalances(held - {k}, rest[1..], l);
      case Wait(_, _) => OrderedBalances(held, rest[1..], l);
      case Notify => OrderedBalances(held, rest[1..], l);
    }
  }

  lemma NetCons(a: Action, rest: seq<Action>, l: Lock)
    ensures Net([a] + rest, l) ==
      (match a case Acquire(k, _) => One(k == l) case Release(k) => 0 - One(k == l) case Wait(_, _) => 0 case Notify => 0) + Net(rest, l)
  {
    assert ([a] + rest)[1..] == rest;
  }

  lemma {:induction false} FlatNet(c: Code, rest: seq<Action>, l: Lock)
    ensures Net(FlatWith(c, rest, false), l) == Net(rest, l) + WriteGuards(c, l)
    decreases c
  {
    match c
    case Done =>
    case Guard(k, m, body, next) =>
      var after := FlatWith(next, rest, false);
      var tail := if IsRw(k) && m.Exclusive? then after else [Release(k)] + after;
      FlatNet(next, rest, l);
      FlatNet(body, tail, l);
      NetCons(Release(k), after, l);
      NetCons(Acquire(k, m), FlatWith(body, tail, false), l);
    case WaitThread(w, ended, next) =>
      FlatNet(next, rest, l);
      NetCons(Wait(w, ended), FlatWith(next, rest, false), l);
  }

  lemma {:induction false} FlatWithIsFlat(c: Code, rest: seq<Action>, locked: bool)
    requires locked || forall l :: WriteGuards(c, l) == 0
    ensures FlatWith(c, rest, locked) == Flat(c, rest)
    decreases c
  {
    match c
    case Done =>
    case Guard(k, m, body, next) =>
      assert WriteGuards(c, k) == One(IsRw(k) && m.Exclusive?) + WriteGuards(body, k) + WriteGuards(next, k);
      if !locked {
        forall l ensures WriteGuards(body, l) == 0 && WriteGuards(next, l) == 0 {
          assert WriteGuards(c, l) == 0;
        }
      }
      FlatWithIsFlat(next, rest, locked);
      FlatWithIsFlat(body, [Release(k)] + Flat(next, rest), locked);
    case WaitThread(w, _, next) =>
      if !locked {
        forall l ensures WriteGuards(next, l) == 0 {
          assert WriteGuards(c, l) == 0;
        }
      }
      FlatWithIsFlat(next, rest, locked);
  }

  // With the guards as written an operation keeps the order and gives back
  // every lock it takes exactly when the indeterminate flag is true or it uses
  // no write guard.
  lemma OpReleasesIff(op: Op, locked: bool)
    ensures Ordered({}, FlatWith(CodeOf(op), [], locked)) <==> locked || forall l :: WriteGuards(CodeOf(op), l) == 0
  {
    var c := CodeOf(op);
    if locked || forall l :: WriteGuards(c, l) == 0 {
      FlatWithIsFlat(c, [], locked);
      EveryOpDisciplined(op);
      FlatOrdered(c, {}, -1, []);
    } else {
      var l :| WriteGuards(c, l) != 0;
      FlatNet(c, [], l);
      if Ordered({}, FlatWith(c, [], locked)) {
        OrderedBalances({}, FlatWith(c, [], locked), l);
      }
    }
  }

  // A thread that ends with a lock in exclusive hold blocks for ever any thread
  // that waits for it.
  lemma {:induction false} LeakedLockBlocks(ts: seq<Thread>, run: seq<nat>, i: nat, j: nat, l: Lock)
    requires Legal(ts, run) && i < |ts| && j < |ts| && i != j
    requires ts[i].rest == [] && l in ts[i].held && ts[i].held[l] == Exclusive
    requires ts[j].rest != [] && ts[j].rest[0].Acquire? && ts[j].rest[0].lock == l
    ensures |Final(ts, run)| == |ts| && Final(ts, run)[j] == ts[j]
    decreases |run|
  {
    if run != [] {
      assert !Compatible(ts[i].held, l, ts[j].rest[0].mode);
      assert run[0] != i && run[0] != j;
      LeakedLockBlocks(ts[run[0] := Stepped(ts[run[0]])], run[1..], i, j, l);
    }
  }
}
