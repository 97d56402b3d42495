/**
 * The lock graph of the operations in Locks: which locks each takes, which lock is
 * taken under which, and which operations use the write guard.
 */
module LockGraph {
  import opened Basics
  import opened Locks

  // The code acquires l.
  predicate Takes(c: Code, l: Lock) {
    match c
    case Done => false
    case Guard(k, _, body, next) => k == l || Takes(body, l) || Takes(next, l)
    case WaitThread(_, _, next) => Takes(next, l)
  }

  // The code acquires `inner` while it holds `outer`.
  predicate Nests(c: Code, outer: Lock, inner: Lock) {
    match c
    case Done => false
    case Guard(k, _, body, next) => (k == outer && Takes(body, inner)) || Nests(body, outer, inner) || Nests(next, outer, inner)
    case WaitThread(_, _, next) => Nests(next, outer, inner)
  }

  lemma {:induction false} ThenTakes(a: Code, b: Code, l: Lock)
    ensures Takes(Then(a, b), l) <==> Takes(a, l) || Takes(b, l)
  {
    match a
    case Done =>
    case Guard(_, _, _, next) => ThenTakes(next, b, l);
    case WaitThread(_, _, next) => ThenTakes(next, b, l);
  }

  lemma {:induction false} ThenNests(a: Code, b: Code, outer: Lock, inner: Lock)
    ensures Nests(Then(a, b), outer, inner) <==> Nests(a, outer, inner) || Nests(b, outer, inner)
  {
    match a
    case Done =>
    case Guard(_, _, _, next) => ThenNests(next, b, outer, inner);
    case WaitThread(_, _, next) => ThenNests(next, b, outer, inner);
  }

  lemma OneScope(k: Lock, m: Mode, l: Lock, inner: Lock)
    ensures Takes(Scope(k, m, Done), l) <==> k == l
    ensures !Nests(Scope(k, m, Done), l, inner)
  {
  }

  lemma InScope(k: Lock, m: Mode, body: Code, l: Lock, inner: Lock)
    ensures Takes(Scope(k, m, body), l) <==> k == l || Takes(body, l)
    ensures Nests(Scope(k, m, body), l, inner) <==> (k == l && Takes(body, inner)) || Nests(body, l, inner)
  {
  }

  lemma Sequel(k: Lock, m: Mode, next: Code, l: Lock, inner: Lock)
    ensures Takes(Guard(k, m, Done, next), l) <==> k == l || Takes(next, l)
    ensures Nests(Guard(k, m, Done, next), l, inner) <==> Nests(next, l, inner)
  {
  }

  // The locks of a log line.
  predicate IsLogging(l: Lock) { l.LoggerLock? || l.AppenderLock? || l.FdManagerLock? }

  predicate InLogLine(outer: Lock, inner: Lock) {
    (outer.LoggerLock? && (inner.AppenderLock? || inner.FdManagerLock?)) || (outer.AppenderLock? && inner.FdManagerLock?)
  }

  lemma LogLineTakes(l: Lock)
    ensures Takes(LogLine(), l) <==> IsLogging(l)
    ensures Takes(Tickle(), l) <==> IsLogging(l)
  {
    var write := Scope(FdManagerLock, Shared, Done);
    assert Takes(write, l) <==> l.FdManagerLock?;
    assert Takes(Scope(AppenderLock, Exclusive, write), l) <==> l.AppenderLock? || l.FdManagerLock?;
    ThenTakes(LogLine(), write, l);
  }

  lemma LogLineNests(outer: Lock, inner: Lock)
    ensures Nests(LogLine(), outer, inner) <==> InLogLine(outer, inner)
    ensures Nests(Tickle(), outer, inner) <==> InLogLine(outer, inner)
  {
    var write := Scope(FdManagerLock, Shared, Done);
    assert Takes(write, inner) <==> inner.FdManagerLock?;
    assert Takes(Scope(AppenderLock, Exclusive, write), inner) <==> inner.AppenderLock? || inner.FdManagerLock?;
    OneScope(FdManagerLock, Shared, outer, inner);
    InScope(AppenderLock, Exclusive, write, outer, inner);
    InScope(LoggerLock, Exclusive, Scope(AppenderLock, Exclusive, write), outer, inner);
    ThenNests(LogLine(), write, outer, inner);
  }

  lemma ScheduleTakes(tickles: bool, l: Lock)
    ensures Takes(Schedule(tickles), l) <==> l.SchedulerLock? || (tickles && IsLogging(l))
  {
    LogLineTakes(l);
  }

  lemma ScheduleNests(tickles: bool, outer: Lock, inner: Lock)
    ensures Nests(Schedule(tickles), outer, inner) <==>
      tickles && ((outer.SchedulerLock? && IsLogging(inner)) || InLogLine(outer, inner))
  {
    LogLineTakes(inner);
    LogLineNests(outer, inner);
  }

  lemma DispatchTakes(logs: bool, rd: bool, wr: bool, tickles: bool, l: Lock)
    ensures Takes(DispatchBody(logs, rd, wr, tickles), l) <==>
      ((rd || wr) && l.SchedulerLock?) || ((logs || ((rd || wr) && tickles)) && IsLogging(l))
  {
    LogLineTakes(l);
    ScheduleTakes(tickles, l);
    ThenTakes(If(rd, Schedule(tickles)), If(wr, Schedule(tickles)), l);
    ThenTakes(If(logs, LogLine()), Then(If(rd, Schedule(tickles)), If(wr, Schedule(tickles))), l);
  }

  lemma DispatchNests(logs: bool, rd: bool, wr: bool, tickles: bool, outer: Lock, inner: Lock)
    ensures Nests(DispatchBody(logs, rd, wr, tickles), outer, inner) <==>
      || ((rd || wr) && tickles && outer.SchedulerLock? && IsLogging(inner))
      || ((logs || ((rd || wr) && tickles)) && InLogLine(outer, inner))
  {
    LogLineNests(outer, inner);
    ScheduleNests(tickles, outer, inner);
    ThenNests(If(rd, Schedule(tickles)), If(wr, Schedule(tickles)), outer, inner);
    ThenNests(If(logs, LogLine()), Then(If(rd, Schedule(tickles)), If(wr, Schedule(tickles))), outer, inner);
  }

  lemma {:induction false} LoopsTake(n: nat, l: Lock)
    ensures Takes(Tickles(n), l) <==> n > 0 && IsLogging(l)
    ensures !Takes(Joins(n), l) && !Takes(Awaits(n), l)
  {
    if n > 0 {
      LoopsTake(n - 1, l);
      LogLineTakes(l);
      ThenTakes(Tickle(), Tickles(n - 1), l);
      ThenTakes(Joins(n - 1), WaitThread(n - 1, true, Done), l);
      ThenTakes(Awaits(n - 1), WaitThread(n - 1, false, Done), l);
    }
  }

  lemma {:induction false} LoopsNest(n: nat, outer: Lock, inner: Lock)
    ensures Nests(Tickles(n), outer, inner) <==> n > 0 && InLogLine(outer, inner)
    ensures !Nests(Joins(n), outer, inner) && !Nests(Awaits(n), outer, inner)
  {
    if n > 0 {
      LoopsNest(n - 1, outer, inner);
      LogLineNests(outer, inner);
      ThenNests(Tickle(), Tickles(n - 1), outer, inner);
      ThenNests(Joins(n - 1), WaitThread(n - 1, true, Done), outer, inner);
      ThenNests(Awaits(n - 1), WaitThread(n - 1, false, Done), outer, inner);
    }
  }

  // The locks each operation takes.
  predicate TakenBy(op: Op, l: Lock) {
    match op
    case AddEvent(fd, _, logs) => l.TableLock? || l == FdLock(fd) || (logs && IsLogging(l))
    case DelEvent(fd) => l.TableLock? || l == FdLock(fd)
    case CancelEvent(fd, tickles) => l.TableLock? || l == FdLock(fd) || l.SchedulerLock? || (tickles && IsLogging(l))
    case CancelAll(fd, logs, rd, wr, tickles) =>
      l.TableLock? || l == FdLock(fd) || ((rd || wr) && l.SchedulerLock?) || ((logs || ((rd || wr) && tickles)) && IsLogging(l))
    case ScheduleEvent(fd, logs, rd, wr, tickles) =>
      l == FdLock(fd) || ((rd || wr) && l.SchedulerLock?) || ((logs || ((rd || wr) && tickles)) && IsLogging(l))
    case ScheduleTask(tickles) => l.SchedulerLock? || (tickles && IsLogging(l))
    case DequeueTask => l.SchedulerLock?
    case ShouldStop => l.SchedulerLock? || l.TimerLock?
    case AddTimer(first) => l.TimerLock? || (first && IsLogging(l))
    case CancelTimer => l.TimerLock?
    case Refresh(first) => l.TimerLock? || (first && IsLogging(l))
    case NextTime => l.TimerLock?
    case ExpiredFuncs => l.TimerLock?
    case FdManagerGet(_) => l.FdManagerLock?
    case FdManagerDel => l.FdManagerLock?
    case WriteLog => IsLogging(l)
    case GetLogger(creates) => l.LoggerManagerLock? || (creates && l.LoggerLock?)
    case ChangeAppenders => l.LoggerLock?
    case FlushAppender => l.AppenderLock?
    case ReopenAppender => l.AppenderLock? || l.FdManagerLock?
    case Start(_) => l.SchedulerLock?
    case Stop(_) => l.SchedulerLock? || IsLogging(l)
    case DestroyScheduler => l.SchedulerLock? || l.FdManagerLock?
  }

  lemma StopTakes(n: nat, l: Lock)
    ensures Takes(CodeOf(Stop(n)), l) <==> TakenBy(Stop(n), l)
  {
    LogLineTakes(l);
    LoopsTake(n, l);
    var last := Scope(SchedulerLock, Exclusive, Done);
    ThenTakes(Joins(n), last, l);
    ThenTakes(Tickles(n), Then(Joins(n), last), l);
    ThenTakes(LogLine(), Guard(SchedulerLock, Exclusive, Done, Then(Tickles(n), Then(Joins(n), last))), l);
  }

  lemma ClosesTake(l: Lock)
    ensures Takes(Then(HookedClose(), Then(HookedClose(), HookedClose())), l) <==> l.FdManagerLock?
  {
    var close := HookedClose();
    assert Takes(close, l) <==> l.FdManagerLock?;
    ThenTakes(close, close, l);
    ThenTakes(close, Then(close, close), l);
  }

  // Both questions, one level down, for an operation's own guards.
  lemma EventGuards(op: Op, l: Lock, inner: Lock)
    requires op.AddEvent? || op.DelEvent? || op.CancelEvent? || op.CancelAll? || op.ScheduleEvent?
    ensures Takes(CodeOf(op), l) <==> (!op.ScheduleEvent? && l.TableLock?) || l == FdLock(op.fd) || Takes(UnderFd(op), l)
    ensures Nests(CodeOf(op), l, inner) <==> (l == FdLock(op.fd) && Takes(UnderFd(op), inner)) || Nests(UnderFd(op), l, inner)
  {
    var locked := Scope(FdLock(op.fd), Exclusive, UnderFd(op));
    InScope(FdLock(op.fd), Exclusive, UnderFd(op), l, inner);
    if op.AddEvent? {
      var m := if op.grows then Exclusive else Shared;
      Sequel(TableLock, m, locked, l, inner);
      Sequel(TableLock, Shared, Guard(TableLock, m, Done, locked), l, inner);
    } else if !op.ScheduleEvent? {
      Sequel(TableLock, Shared, locked, l, inner);
    }
  }

  // What an operation does under the descriptor's lock.
  function UnderFd(op: Op): Code
    requires op.AddEvent? || op.DelEvent? || op.CancelEvent? || op.CancelAll? || op.ScheduleEvent?
  {
    match op
    case AddEvent(_, _, logs) => If(logs, LogLine())
    case DelEvent(_) => Done
    case CancelEvent(_, tickles) => Schedule(tickles)
    case CancelAll(_, logs, rd, wr, tickles) => DispatchBody(logs, rd, wr, tickles)
    case ScheduleEvent(_, logs, rd, wr, tickles) => DispatchBody(logs, rd, wr, tickles)
  }

  lemma EventTakes(op: Op, l: Lock)
    requires op.AddEvent? || op.DelEvent? || op.CancelEvent? || op.CancelAll? || op.ScheduleEvent?
    ensures Takes(CodeOf(op), l) <==> TakenBy(op, l)
  {
    EventGuards(op, l, l);
    LogLineTakes(l);
    if op.CancelEvent? {
      ScheduleTakes(op.tickles, l);
    } else if op.CancelAll? || op.ScheduleEvent? {
      DispatchTakes(op.logs, op.rd, op.wr, op.tickles, l);
    }
  }

  lemma TimerTakes(op: Op, l: Lock)
    requires op.ShouldStop? || op.AddTimer? || op.CancelTimer? || op.Refresh? || op.NextTime? || op.ExpiredFuncs?
    ensures Takes(CodeOf(op), l) <==> TakenBy(op, l)
  {
    LogLineTakes(l);
    match op
    case ShouldStop =>
      OneScope(TimerLock, Shared, l, l);
      InScope(SchedulerLock, Exclusive, Scope(TimerLock, Shared, Done), l, l);
    case AddTimer(first) => Sequel(TimerLock, Exclusive, If(first, Tickle()), l, l);
    case Refresh(first) =>
      Sequel(TimerLock, Exclusive, If(first, Tickle()), l, l);
      Sequel(TimerLock, Exclusive, Guard(TimerLock, Exclusive, Done, If(first, Tickle())), l, l);
    case ExpiredFuncs =>
      OneScope(TimerLock, Exclusive, l, l);
      Sequel(TimerLock, Shared, Scope(TimerLock, Exclusive, Done), l, l);
    case _ =>
  }

  // Each operation takes exactly the locks of this table.
  lemma TakesIff(op: Op, l: Lock)
    ensures Takes(CodeOf(op), l) <==> TakenBy(op, l)
  {
    if op.AddEvent? || op.DelEvent? || op.CancelEvent? || op.CancelAll? || op.ScheduleEvent? {
      EventTakes(op, l);
    } else if op.ShouldStop? || op.AddTimer? || op.CancelTimer? || op.Refresh? || op.NextTime? || op.ExpiredFuncs? {
      TimerTakes(op, l);
    } else {
      OtherTakes(op, l);
    }
  }

  lemma OtherTakes(op: Op, l: Lock)
    requires !op.AddEvent? && !op.DelEvent? && !op.CancelEvent? && !op.CancelAll? && !op.ScheduleEvent?
    requires !op.ShouldStop? && !op.AddTimer? && !op.CancelTimer? && !op.Refresh? && !op.NextTime? && !op.ExpiredFuncs?
    ensures Takes(CodeOf(op), l) <==> TakenBy(op, l)
  {
    match op
    case ScheduleTask(tickles) => ScheduleTakes(tickles, l);
    case FdManagerGet(creates) =>
      OneScope(FdManagerLock, Exclusive, l, l);
      Sequel(FdManagerLock, Shared, If(creates, Scope(FdManagerLock, Exclusive, Done)), l, l);
    case WriteLog => LogLineTakes(l);
    case GetLogger(creates) =>
      OneScope(LoggerLock, Exclusive, l, l);
      InScope(LoggerManagerLock, Exclusive, If(creates, Scope(LoggerLock, Exclusive, Done)), l, l);
    case ReopenAppender =>
      OneScope(FdManagerLock, Shared, l, l);
      InScope(AppenderLock, Exclusive, HookedClose(), l, l);
    case Start(n) => LoopsTake(n, l);
    case Stop(n) => StopTakes(n, l);
    case DestroyScheduler => ClosesTake(l);
    case _ =>
  }

  // Which lock is taken under which, over all operations.
  predicate InOrder(outer: Lock, inner: Lock) {
    match outer
    case TableLock => false
    case FdLock(_) => inner.SchedulerLock? || IsLogging(inner)
    case SchedulerLock => inner.TimerLock? || IsLogging(inner)
    case TimerLock => false
    case LoggerManagerLock => inner.LoggerLock?
    case LoggerLock => inner.AppenderLock? || inner.FdManagerLock?
    case AppenderLock => inner.FdManagerLock?
    case FdManagerLock => false
  }

  lemma StopNests(n: nat, outer: Lock, inner: Lock)
    ensures Nests(CodeOf(Stop(n)), outer, inner) ==> InOrder(outer, inner)
  {
    LogLineNests(outer, inner);
    LoopsNest(n, outer, inner);
    var last := Scope(SchedulerLock, Exclusive, Done);
    ThenNests(Joins(n), last, outer, inner);
    ThenNests(Tickles(n), Then(Joins(n), last), outer, inner);
    ThenNests(LogLine(), Guard(SchedulerLock, Exclusive, Done, Then(Tickles(n), Then(Joins(n), last))), outer, inner);
  }

  lemma ClosesNest(outer: Lock, inner: Lock)
    ensures !Nests(Then(HookedClose(), Then(HookedClose(), HookedClose())), outer, inner)
  {
    var close := HookedClose();
    assert !Nests(close, outer, inner);
    ThenNests(close, close, outer, inner);
    ThenNests(close, Then(close, close), outer, inner);
  }

  lemma EventNests(op: Op, outer: Lock, inner: Lock)
    requires op.AddEvent? || op.DelEvent? || op.CancelEvent? || op.CancelAll? || op.ScheduleEvent?
    ensures Nests(CodeOf(op), outer, inner) ==> InOrder(outer, inner)
  {
    EventGuards(op, outer, inner);
    LogLineTakes(inner);
    LogLineNests(outer, inner);
    if op.CancelEvent? {
      ScheduleTakes(op.tickles, inner);
      ScheduleNests(op.tickles, outer, inner);
    } else if op.CancelAll? || op.ScheduleEvent? {
      DispatchTakes(op.logs, op.rd, op.wr, op.tickles, inner);
      DispatchNests(op.logs, op.rd, op.wr, op.tickles, outer, inner);
    }
  }

  lemma TimerNests(op: Op, outer: Lock, inner: Lock)
    requires op.ShouldStop? || op.AddTimer? || op.CancelTimer? || op.Refresh? || op.NextTime? || op.ExpiredFuncs?
    ensures Nests(CodeOf(op), outer, inner) ==> InOrder(outer, inner)
  {
    LogLineNests(outer, inner);
    match op
    case ShouldStop =>
      OneScope(TimerLock, Shared, inner, inner);
      OneScope(TimerLock, Shared, outer, inner);
      InScope(SchedulerLock, Exclusive, Scope(TimerLock, Shared, Done), outer, inner);
    case AddTimer(first) => Sequel(TimerLock, Exclusive, If(first, Tickle()), outer, inner);
    case Refresh(first) =>
      Sequel(TimerLock, Exclusive, If(first, Tickle()), outer, inner);
      Sequel(TimerLock, Exclusive, Guard(TimerLock, Exclusive, Done, If(first, Tickle())), outer, inner);
    case ExpiredFuncs =>
      OneScope(TimerLock, Exclusive, outer, inner);
      Sequel(TimerLock, Shared, Scope(TimerLock, Exclusive, Done), outer, inner);
    case CancelTimer => OneScope(TimerLock, Exclusive, outer, inner);
    case NextTime => OneScope(TimerLock, Shared, outer, inner);
  }

  lemma OtherNests(op: Op, outer: Lock, inner: Lock)
    requires !op.AddEvent? && !op.DelEvent? && !op.CancelEvent? && !op.CancelAll? && !op.ScheduleEvent?
    requires !op.ShouldStop? && !op.AddTimer? && !op.CancelTimer? && !op.Refresh? && !op.NextTime? && !op.ExpiredFuncs?
    ensures Nests(CodeOf(op), outer, inner) ==> InOrder(outer, inner)
  {
    match op
    case ScheduleTask(tickles) => ScheduleNests(tickles, outer, inner);
    case FdManagerGet(creates) =>
      OneScope(FdManagerLock, Exclusive, outer, inner);
      Sequel(FdManagerLock, Shared, If(creates, Scope(FdManagerLock, Exclusive, Done)), outer, inner);
    case WriteLog => LogLineNests(outer, inner);
    case GetLogger(creates) =>
      OneScope(LoggerLock, Exclusive, inner, inner);
      OneScope(LoggerLock, Exclusive, outer, inner);
      InScope(LoggerManagerLock, Exclusive, If(creates, Scope(LoggerLock, Exclusive, Done)), outer, inner);
    case ReopenAppender =>
      OneScope(FdManagerLock, Shared, inner, inner);
      OneScope(FdManagerLock, Shared, outer, inner);
      InScope(AppenderLock, Exclusive, HookedClose(), outer, inner);
    case Start(n) =>
      LoopsTake(n, inner);
      LoopsNest(n, outer, inner);
    case Stop(n) => StopNests(n, outer, inner);
    case DestroyScheduler =>
      ClosesTake(inner);
      ClosesNest(outer, inner);
    case DequeueTask => OneScope(SchedulerLock, Exclusive, outer, inner);
    case FdManagerDel => OneScope(FdManagerLock, Exclusive, outer, inner);
    case ChangeAppenders => OneScope(LoggerLock, Exclusive, outer, inner);
    case FlushAppender => OneScope(AppenderLock, Exclusive, outer, inner);
  }

  lemma OpNests(op: Op, outer: Lock, inner: Lock)
    ensures Nests(CodeOf(op), outer, inner) ==> InOrder(outer, inner)
  {
    if op.AddEvent? || op.DelEvent? || op.CancelEvent? || op.CancelAll? || op.ScheduleEvent? {
      EventNests(op, outer, inner);
    } else if op.ShouldStop? || op.AddTimer? || op.CancelTimer? || op.Refresh? || op.NextTime? || op.ExpiredFuncs? {
      TimerNests(op, outer, inner);
    } else {
      OtherNests(op, outer, inner);
    }
  }

  // The operation that nests them.
  function Nesting(outer: Lock, inner: Lock): Op {
    match outer
    case FdLock(fd) => ScheduleEvent(fd, true, true, true, true)
    case SchedulerLock => if inner.TimerLock? then ShouldStop else ScheduleTask(true)
    case LoggerManagerLock => GetLogger(true)
    case _ => WriteLog
  }

  // The lock graph is exact: some operation takes `inner` while it holds `outer`
  // exactly along these edges.
  lemma LockGraphIff(outer: Lock, inner: Lock)
    ensures (exists op :: Nests(CodeOf(op), outer, inner)) <==> InOrder(outer, inner)
  {
    if op :| Nests(CodeOf(op), outer, inner) {
      OpNests(op, outer, inner);
    }
    if InOrder(outer, inner) {
      NestingNests(outer, inner);
    }
  }

  lemma NestingNests(outer: Lock, inner: Lock)
    requires InOrder(outer, inner)
    ensures Nests(CodeOf(Nesting(outer, inner)), outer, inner)
  {
    match outer
    case FdLock(fd) =>
      EventGuards(Nesting(outer, inner), outer, inner);
      DispatchTakes(true, true, true, true, inner);
    case SchedulerLock =>
      if inner.TimerLock? {
        OneScope(TimerLock, Shared, inner, inner);
        InScope(SchedulerLock, Exclusive, Scope(TimerLock, Shared, Done), outer, inner);
      } else {
        ScheduleNests(true, outer, inner);
      }
    case LoggerManagerLock =>
      OneScope(LoggerLock, Exclusive, inner, inner);
      InScope(LoggerManagerLock, Exclusive, Scope(LoggerLock, Exclusive, Done), outer, inner);
    case _ => LogLineNests(outer, inner);
  }

  // ---- locks taken twice ----

  // The code takes l, lets it go, and takes it again.
  predicate TakesTwice(c: Code, l: Lock) {
    match c
    case Done => false
    case Guard(k, _, body, next) =>
      ((k == l || Takes(body, l)) && Takes(next, l)) || TakesTwice(body, l) || TakesTwice(next, l)
    case WaitThread(_, _, next) => TakesTwice(next, l)
  }

  lemma {:induction false} NotEvenOnce(c: Code, l: Lock)
    requires !Takes(c, l)
    ensures !TakesTwice(c, l)
  {
    match c
    case Done =>
    case Guard(_, _, body, next) =>
      NotEvenOnce(body, l);
      NotEvenOnce(next, l);
    case WaitThread(_, _, next) => NotEvenOnce(next, l);
  }

  lemma OneSection(k: Lock, m: Mode, body: Code, next: Code, l: Lock)
    requires !Takes(body, l)
    ensures TakesTwice(Guard(k, m, body, next), l) <==> (k == l && Takes(next, l)) || TakesTwice(next, l)
  {
    NotEvenOnce(body, l);
  }

  // addEvent lets go of the table's lock between its look and its fetch, refresh and
  // getExpiredFuncs of the timers' lock between their two sections; every other
  // operation has these locks at most once.
  lemma RetakesIff(op: Op, l: Lock)
    requires l.TableLock? || l.TimerLock?
    ensures TakesTwice(CodeOf(op), l) <==> (l.TableLock? && op.AddEvent?) || (l.TimerLock? && (op.Refresh? || op.ExpiredFuncs?))
  {
    TakesIff(op, l);
    if !TakenBy(op, l) {
      NotEvenOnce(CodeOf(op), l);
    } else if l.TableLock? {
      TableRetakes(op);
    } else {
      TimerRetakes(op);
    }
  }

  lemma TableRetakes(op: Op)
    requires op.AddEvent? || op.DelEvent? || op.CancelEvent? || op.CancelAll?
    ensures TakesTwice(CodeOf(op), TableLock) <==> op.AddEvent?
  {
    var l := TableLock;
    LogLineTakes(l);
    if op.CancelEvent? {
      ScheduleTakes(op.tickles, l);
    } else if op.CancelAll? {
      DispatchTakes(op.logs, op.rd, op.wr, op.tickles, l);
    }
    var locked := Scope(FdLock(op.fd), Exclusive, UnderFd(op));
    InScope(FdLock(op.fd), Exclusive, UnderFd(op), l, l);
    NotEvenOnce(locked, l);
    if op.AddEvent? {
      var m := if op.grows then Exclusive else Shared;
      Sequel(TableLock, m, locked, l, l);
      OneSection(TableLock, Shared, Done, Guard(TableLock, m, Done, locked), l);
    } else {
      OneSection(TableLock, Shared, Done, locked, l);
    }
  }

  lemma TimerRetakes(op: Op)
    requires op.ShouldStop? || op.AddTimer? || op.CancelTimer? || op.Refresh? || op.NextTime? || op.ExpiredFuncs?
    ensures TakesTwice(CodeOf(op), TimerLock) <==> op.Refresh? || op.ExpiredFuncs?
  {
    var l := TimerLock;
    LogLineTakes(l);
    match op
    case ShouldStop =>
      OneSection(TimerLock, Shared, Done, Done, l);
      ScopeOnce(SchedulerLock, Exclusive, Scope(TimerLock, Shared, Done), l);
    case AddTimer(first) =>
      NotEvenOnce(If(first, Tickle()), l);
      OneSection(TimerLock, Exclusive, Done, If(first, Tickle()), l);
    case CancelTimer => OneSection(TimerLock, Exclusive, Done, Done, l);
    case NextTime => OneSection(TimerLock, Shared, Done, Done, l);
    case Refresh(first) =>
      Sequel(TimerLock, Exclusive, If(first, Tickle()), l, l);
      OneSection(TimerLock, Exclusive, Done, Guard(TimerLock, Exclusive, Done, If(first, Tickle())), l);
    case ExpiredFuncs =>
      OneScope(TimerLock, Exclusive, l, l);
      OneSection(TimerLock, Shared, Done, Scope(TimerLock, Exclusive, Done), l);
  }

  lemma ScopeOnce(k: Lock, m: Mode, body: Code, l: Lock)
    ensures TakesTwice(Scope(k, m, body), l) <==> TakesTwice(body, l)
  {
  }

  // ---- waits for threads ----

  // The code waits for thread w to start, or to end.
  predicate Awaited(c: Code, w: nat, ended: bool) {
    match c
    case Done => false
    case Guard(_, _, body, next) => Awaited(body, w, ended) || Awaited(next, w, ended)
    case WaitThread(v, e, next) => (v == w && e == ended) || Awaited(next, w, ended)
  }

  lemma {:induction false} ThenAwaited(a: Code, b: Code, w: nat, ended: bool)
    ensures Awaited(Then(a, b), w, ended) <==> Awaited(a, w, ended) || Awaited(b, w, ended)
  {
    match a
    case Done =>
    case Guard(_, _, _, next) => ThenAwaited(next, b, w, ended);
    case WaitThread(_, _, next) => ThenAwaited(next, b, w, ended);
  }

  lemma {:induction false} LoopsAwait(n: nat, w: nat, ended: bool)
    ensures !Awaited(LogLine(), w, ended) && !Awaited(Tickles(n), w, ended)
    ensures Awaited(Joins(n), w, ended) <==> w < n && ended
    ensures Awaited(Awaits(n), w, ended) <==> w < n && !ended
  {
    var write := Scope(FdManagerLock, Shared, Done);
    assert !Awaited(write, w, ended);
    assert !Awaited(Scope(AppenderLock, Exclusive, write), w, ended);
    if n > 0 {
      LoopsAwait(n - 1, w, ended);
      ThenAwaited(LogLine(), write, w, ended);
      ThenAwaited(Tickle(), Tickles(n - 1), w, ended);
      ThenAwaited(Joins(n - 1), WaitThread(n - 1, true, Done), w, ended);
      ThenAwaited(Awaits(n - 1), WaitThread(n - 1, false, Done), w, ended);
    }
  }

  // start waits for every one of its threads to start, with m_mutex held; stop waits
  // for every one to end.
  lemma StartAndStopWait(n: nat, w: nat, ended: bool)
    ensures CodeOf(Start(n)).Guard? && CodeOf(Start(n)).lock == SchedulerLock
    ensures Awaited(CodeOf(Start(n)).body, w, ended) <==> w < n && !ended
    ensures Awaited(CodeOf(Stop(n)), w, ended) <==> w < n && ended
  {
    LoopsAwait(n, w, ended);
    var last := Scope(SchedulerLock, Exclusive, Done);
    assert !Awaited(last, w, ended);
    ThenAwaited(Joins(n), last, w, ended);
    ThenAwaited(Tickles(n), Then(Joins(n), last), w, ended);
    var rest := Then(Tickles(n), Then(Joins(n), last));
    assert Awaited(Guard(SchedulerLock, Exclusive, Done, rest), w, ended) <==> Awaited(rest, w, ended);
    ThenAwaited(LogLine(), Guard(SchedulerLock, Exclusive, Done, rest), w, ended);
  }

  // ---- write guards ----

  // The code takes the read-write lock l through the write guard.
  predicate Writes(c: Code, l: Lock) {
    match c
    case Done => false
    case Guard(k, m, body, next) => (k == l && IsRw(l) && m.Exclusive?) || Writes(body, l) || Writes(next, l)
    case WaitThread(_, _, next) => Writes(next, l)
  }

  lemma {:induction false} WritesIsGuarded(c: Code, l: Lock)
    ensures WriteGuards(c, l) > 0 <==> Writes(c, l)
  {
    match c
    case Done =>
    case Guard(_, _, body, next) =>
      WritesIsGuarded(body, l);
      WritesIsGuarded(next, l);
    case WaitThread(_, _, next) => WritesIsGuarded(next, l);
  }

  lemma {:induction false} ThenWrites(a: Code, b: Code, l: Lock)
    ensures Writes(Then(a, b), l) <==> Writes(a, l) || Writes(b, l)
  {
    match a
    case Done =>
    case Guard(_, _, _, next) => ThenWrites(next, b, l);
    case WaitThread(_, _, next) => ThenWrites(next, b, l);
  }

  lemma OneWrite(k: Lock, m: Mode, l: Lock)
    ensures Writes(Scope(k, m, Done), l) <==> k == l && IsRw(l) && m.Exclusive?
  {
  }

  lemma ScopeWrites(k: Lock, m: Mode, body: Code, l: Lock)
    ensures Writes(Scope(k, m, body), l) <==> (k == l && IsRw(l) && m.Exclusive?) || Writes(body, l)
  {
  }

  lemma SequelWrites(k: Lock, m: Mode, next: Code, l: Lock)
    ensures Writes(Guard(k, m, Done, next), l) <==> (k == l && IsRw(l) && m.Exclusive?) || Writes(next, l)
  {
  }

  lemma LogLineWrites(l: Lock)
    ensures !Writes(LogLine(), l) && !Writes(Tickle(), l)
  {
    var write := Scope(FdManagerLock, Shared, Done);
    OneWrite(FdManagerLock, Shared, l);
    ScopeWrites(AppenderLock, Exclusive, write, l);
    ScopeWrites(LoggerLock, Exclusive, Scope(AppenderLock, Exclusive, write), l);
    ThenWrites(LogLine(), write, l);
  }

  lemma DispatchWrites(logs: bool, rd: bool, wr: bool, tickles: bool, l: Lock)
    ensures !Writes(DispatchBody(logs, rd, wr, tickles), l) && !Writes(Schedule(tickles), l)
  {
    LogLineWrites(l);
    ScopeWrites(SchedulerLock, Exclusive, If(tickles, Tickle()), l);
    ThenWrites(If(rd, Schedule(tickles)), If(wr, Schedule(tickles)), l);
    ThenWrites(If(logs, LogLine()), Then(If(rd, Schedule(tickles)), If(wr, Schedule(tickles))), l);
  }

  lemma {:induction false} LoopsWrite(n: nat, l: Lock)
    ensures !Writes(Tickles(n), l) && !Writes(Joins(n), l) && !Writes(Awaits(n), l)
  {
    if n > 0 {
      LoopsWrite(n - 1, l);
      LogLineWrites(l);
      ThenWrites(Tickle(), Tickles(n - 1), l);
      ThenWrites(Joins(n - 1), WaitThread(n - 1, true, Done), l);
      ThenWrites(Awaits(n - 1), WaitThread(n - 1, false, Done), l);
    }
  }

  // The operations that write-lock a read-write lock.
  predicate WritesUnder(op: Op, l: Lock) {
    || (op.AddEvent? && op.grows && l.TableLock?)
    || ((op.AddTimer? || op.CancelTimer? || op.Refresh? || op.ExpiredFuncs?) && l.TimerLock?)
    || (((op.FdManagerGet? && op.creates) || op.FdManagerDel?) && l.FdManagerLock?)
  }

  lemma EventWrites(op: Op, l: Lock)
    requires op.AddEvent? || op.DelEvent? || op.CancelEvent? || op.CancelAll? || op.ScheduleEvent?
    ensures Writes(CodeOf(op), l) <==> WritesUnder(op, l)
  {
    assert !Writes(UnderFd(op), l) by {
      match op
      case AddEvent(_, _, _) => LogLineWrites(l);
      case DelEvent(_) =>
      case CancelEvent(_, tickles) => DispatchWrites(false, false, false, tickles, l);
      case CancelAll(_, logs, rd, wr, tickles) => DispatchWrites(logs, rd, wr, tickles, l);
      case ScheduleEvent(_, logs, rd, wr, tickles) => DispatchWrites(logs, rd, wr, tickles, l);
    }
    var locked := Scope(FdLock(op.fd), Exclusive, UnderFd(op));
    ScopeWrites(FdLock(op.fd), Exclusive, UnderFd(op), l);
    if op.AddEvent? {
      var m := if op.grows then Exclusive else Shared;
      SequelWrites(TableLock, m, locked, l);
      SequelWrites(TableLock, Shared, Guard(TableLock, m, Done, locked), l);
    } else if !op.ScheduleEvent? {
      SequelWrites(TableLock, Shared, locked, l);
    }
  }

  lemma TimerWrites(op: Op, l: Lock)
    requires op.ShouldStop? || op.AddTimer? || op.CancelTimer? || op.Refresh? || op.NextTime? || op.ExpiredFuncs?
    ensures Writes(CodeOf(op), l) <==> WritesUnder(op, l)
  {
    LogLineWrites(l);
    match op
    case ShouldStop =>
      OneWrite(TimerLock, Shared, l);
      ScopeWrites(SchedulerLock, Exclusive, Scope(TimerLock, Shared, Done), l);
    case AddTimer(first) => SequelWrites(TimerLock, Exclusive, If(first, Tickle()), l);
    case Refresh(first) =>
      SequelWrites(TimerLock, Exclusive, If(first, Tickle()), l);
      SequelWrites(TimerLock, Exclusive, Guard(TimerLock, Exclusive, Done, If(first, Tickle())), l);
    case ExpiredFuncs =>
      OneWrite(TimerLock, Exclusive, l);
      SequelWrites(TimerLock, Shared, Scope(TimerLock, Exclusive, Done), l);
    case CancelTimer => OneWrite(TimerLock, Exclusive, l);
    case NextTime => OneWrite(TimerLock, Shared, l);
  }

  lemma StopWrites(n: nat, l: Lock)
    ensures !Writes(CodeOf(Stop(n)), l)
  {
    LogLineWrites(l);
    LoopsWrite(n, l);
    var last := Scope(SchedulerLock, Exclusive, Done);
    OneWrite(SchedulerLock, Exclusive, l);
    ThenWrites(Joins(n), last, l);
    ThenWrites(Tickles(n), Then(Joins(n), last), l);
    var rest := Then(Tickles(n), Then(Joins(n), last));
    SequelWrites(SchedulerLock, Exclusive, rest, l);
    ThenWrites(LogLine(), Guard(SchedulerLock, Exclusive, Done, rest), l);
  }

  lemma ClosesWrite(l: Lock)
    ensures !Writes(CodeOf(DestroyScheduler), l)
  {
    var close := HookedClose();
    OneWrite(FdManagerLock, Shared, l);
    ThenWrites(close, close, l);
    ThenWrites(close, Then(close, close), l);
    ScopeWrites(SchedulerLock, Exclusive, Then(close, Then(close, close)), l);
  }

  lemma OtherWrites(op: Op, l: Lock)
    requires !op.AddEvent? && !op.DelEvent? && !op.CancelEvent? && !op.CancelAll? && !op.ScheduleEvent?
    requires !op.ShouldStop? && !op.AddTimer? && !op.CancelTimer? && !op.Refresh? && !op.NextTime? && !op.ExpiredFuncs?
    ensures Writes(CodeOf(op), l) <==> WritesUnder(op, l)
  {
    match op
    case ScheduleTask(tickles) => DispatchWrites(false, false, false, tickles, l);
    case FdManagerGet(creates) =>
      OneWrite(FdManagerLock, Exclusive, l);
      SequelWrites(FdManagerLock, Shared, If(creates, Scope(FdManagerLock, Exclusive, Done)), l);
    case FdManagerDel => OneWrite(FdManagerLock, Exclusive, l);
    case WriteLog => LogLineWrites(l);
    case GetLogger(creates) =>
      OneWrite(LoggerLock, Exclusive, l);
      ScopeWrites(LoggerManagerLock, Exclusive, If(creates, Scope(LoggerLock, Exclusive, Done)), l);
    case ReopenAppender =>
      OneWrite(FdManagerLock, Shared, l);
      ScopeWrites(AppenderLock, Exclusive, HookedClose(), l);
    case Start(n) =>
      LoopsWrite(n, l);
      ScopeWrites(SchedulerLock, Exclusive, Awaits(n), l);
    case Stop(n) => StopWrites(n, l);
    case DestroyScheduler => ClosesWrite(l);
    case DequeueTask => OneWrite(SchedulerLock, Exclusive, l);
    case ChangeAppenders => OneWrite(LoggerLock, Exclusive, l);
    case FlushAppender => OneWrite(AppenderLock, Exclusive, l);
  }

  lemma WritesIff(op: Op, l: Lock)
    ensures Writes(CodeOf(op), l) <==> WritesUnder(op, l)
    ensures WriteGuards(CodeOf(op), l) > 0 <==> WritesUnder(op, l)
  {
    WritesIsGuarded(CodeOf(op), l);
    if op.AddEvent? || op.DelEvent? || op.CancelEvent? || op.CancelAll? || op.ScheduleEvent? {
      EventWrites(op, l);
    } else if op.ShouldStop? || op.AddTimer? || op.CancelTimer? || op.Refresh? || op.NextTime? || op.ExpiredFuncs? {
      TimerWrites(op, l);
    } else {
      OtherWrites(op, l);
    }
  }

  // So with the guards as written the operations that may keep a lock for ever are
  // addEvent when it grows the vector, everything that changes the timers, and
  // creating or deleting a tracked descriptor.
  lemma LeakingOpsIff(op: Op, locked: bool)
    ensures !Ordered({}, FlatWith(CodeOf(op), [], locked)) <==>
      !locked && ((op.AddEvent? && op.grows) || op.AddTimer? || op.CancelTimer? || op.Refresh? || op.ExpiredFuncs?
                  || (op.FdManagerGet? && op.creates) || op.FdManagerDel?)
  {
    OpReleasesIff(op, locked);
    WritesIff(op, TableLock);
    WritesIff(op, TimerLock);
    WritesIff(op, FdManagerLock);
    if !locked && exists l :: WriteGuards(CodeOf(op), l) != 0 {
      var l :| WriteGuards(CodeOf(op), l) != 0;
      WritesIff(op, l);
    }
  }
}
