/**
 * Scheduler as an object (src/scheduler.h, src/scheduler.cpp): the sections
 * under m_mutex and the tickle, in place. Each is proved to be a step, or a few
 * consecutive steps, of SchedulerMachine, which interleaves them.
 */
module Schedulers {
  import opened Basics
  import opened Timers
  import opened SchedulerMachine
  import opened SchedulerHistory
  import opened SchedulerStop

  // After t, which a thread reached from s: its write, if it is about to make one.
  ghost function Flushed(s: State, t: State): State {
    if t.writing > s.writing then Do(t, Write) else t
  }

  // n tickles, each with its write.
  ghost function Tickled(s: State, n: nat): State {
    if n == 0 then s else Flushed(Tickled(s, n - 1), SchedulerMachine.Tickle(Tickled(s, n - 1)))
  }

  // Nothing when no worker is idle, one byte and an edge each otherwise.
  lemma {:induction false} TickledWrites(s: State, n: nat)
    ensures Tickled(s, n) == if s.idle > 0 && n > 0 then s.(bytes := s.bytes + n, notified := true) else s
  {
    if n > 0 {
      TickledWrites(s, n - 1);
    }
  }

  lemma StopIsFlag(s: State)
    ensures Enabled(s, Stop) ==> Do(s, Stop) == s.(stopping := true)
  {
  }

  class Scheduler {
    const threadCount: nat
    var tasks: seq<Task>       // m_tasks
    var active: int            // m_active_threads
    var idle: int              // m_idle_threads
    var pending: nat           // m_pending_count
    var threads: nat           // m_threads.size()
    var stopped: bool
    var stopping: bool
    var autoStop: bool
    var bytes: nat             // in the tickle pipe
    ghost var notified: bool
    ghost var rest: State      // what else the machine knows: workers, timers, history

    ghost function View(): State
      reads this
    {
      rest.(tasks := tasks, active := active, idle := idle, pending := pending, stopping := stopping,
            bytes := bytes, notified := notified)
    }

    ghost predicate Valid()
      reads this
    {
      threadCount > 0 && |rest.workers| == threadCount && (stopping <==> autoStop)
    }

    // Before the first start no thread runs.
    constructor (threads: nat)
      requires threads > 0
      ensures Valid() && stopped && this.threads == 0 && !stopping && threadCount == threads
      ensures AllExited(View()) && Init(Restarted(View()))
    {
      threadCount, this.threads, tasks := threads, 0, [];
      active, idle, pending, bytes, notified := 0, 0, 0, 0, false;
      stopped, stopping, autoStop := true, false, false;
      rest := State(seq(threads, _ => Worker(Exited, true)), [], 0, 0, 0, false, {}, false, 0, 0, 0, 0,
                    [], [], [], {}, {}, false, false);
    }

    method Tickle()
      modifies this`bytes, this`notified
      ensures View() == Flushed(old(View()), SchedulerMachine.Tickle(old(View())))
      ensures if idle > 0 then bytes == old(bytes) + 1 && notified else bytes == old(bytes) && notified == old(notified)
    {
      if idle <= 0 {
        return;
      }
      bytes := bytes + 1;
      notified := true;
    }

    // schedule(begin, end): one lock, one tickle.
    method ScheduleAll(batch: seq<Task>)
      modifies this`tasks, this`bytes, this`notified, this`rest
      ensures View() == Flushed(old(View()), Scheduled(old(View()), batch))
      ensures tasks == old(tasks) + batch
      ensures if old(tasks) == [] && idle > 0 then bytes == old(bytes) + 1 && notified else bytes == old(bytes)
    {
      var needTickle := tasks == [];
      for i := 0 to |batch|
        invariant tasks == old(tasks) + batch[..i] && bytes == old(bytes) && notified == old(notified) && rest == old(rest)
      {
        assert batch[..i + 1] == batch[..i] + [batch[i]];
        tasks := tasks + [batch[i]];
      }
      assert batch[..|batch|] == batch;
      rest := rest.(pushed := rest.pushed + batch);
      if needTickle {
        Tickle();
      }
    }

    // schedule(f).
    method Schedule(t: Task)
      modifies this`tasks, this`bytes, this`notified, this`rest
      ensures View() == Flushed(old(View()), Scheduled(old(View()), [t]))
      ensures tasks == old(tasks) + [t]
      ensures if old(tasks) == [] && idle > 0 then bytes == old(bytes) + 1 && notified else bytes == old(bytes)
    {
      var needTickle := tasks == [];
      tasks := tasks + [t];
      rest := rest.(pushed := rest.pushed + [t]);
      if needTickle {
        Tickle();
      }
    }

    // The scan at the top of run by worker w, with unpinned tasks.
    method TakeTask(ghost w: nat) returns (t: Option<Task>, needTickle: bool)
      requires IsWorker(View(), w) && View().workers[w].pc == Fetch && MutexFree(View())
      modifies this`tasks, this`rest
      ensures View() == DoAct(old(View()), w, if old(tasks) == [] then FindEmpty else Take)
      ensures t.None? ==> !View().workers[w].pc.Counting?
      ensures t.Some? ==> View().taken == old(View()).taken + [t.value] && View().workers[w].pc == Counting(|old(View()).taken|, needTickle)
    {
      t := None;
      ghost var v := View();
      if tasks != [] {
        t := Some(tasks[0]);
        tasks := tasks[1..];
        rest := DoAct(v, w, Take);
      } else {
        rest := DoAct(v, w, FindEmpty);
      }
      needTickle := tasks != [];
    }

    // shouldStop by worker w: which of its acts comes next.
    method ShouldStop(ghost w: nat, hasTimers: bool) returns (r: bool)
      requires Valid() && IsWorker(View(), w) && (!hasTimers ==> View().workers[w].pc == StopCheck2)
      ensures hasTimers ==> !r
      ensures !hasTimers ==> ActEnabled(View(), w, if r then DecideStop else DecideGoOn)
    {
      r := !hasTimers && autoStop && stopping && tasks == [] && active == 0 && pending == 0;
    }

    // start; false stands for its failed assertion.
    method Start() returns (ok: bool)
      requires Valid() && (threads == 0 ==> AllExited(View()))
      modifies this
      ensures ok <==> old(stopping) || old(threads) == 0
      ensures old(stopping) ==> View() == old(View()) && threads == old(threads)
      ensures !old(stopping) && ok ==> Valid() && !stopped && threads == threadCount && View() == Restarted(old(View()))
    {
      if stopping {
        return true;
      }
      stopped := false;
      ok := threads == 0;
      if ok {
        threads := threadCount;
        rest := Restarted(View());
      }
    }

    // stop up to the joins: the flags, then one tickle per thread.
    method StopBegin()
      requires Valid()
      modifies this`stopping, this`autoStop, this`bytes, this`notified
      ensures Valid() && View() == Tickled(old(View()).(stopping := true), threadCount)
      ensures Enabled(old(View()), Stop) ==> View() == Tickled(Do(old(View()), Stop), threadCount)
      ensures stopping && tasks == old(tasks) && if idle > 0 then bytes == old(bytes) + threadCount && notified else bytes == old(bytes)
    {
      ghost var v := View().(stopping := true);
      StopIsFlag(View());
      stopping, autoStop := true, true;
      for i := 0 to threadCount
        invariant stopping && autoStop && View() == Tickled(v, i)
      {
        Tickle();
      }
      TickledWrites(v, threadCount);
    }

    // stop after the joins, which have waited for every worker to return, and
    // the next start: together the restart.
    method StopEnd()
      requires Valid() && AllExited(View())
      modifies this`threads, this`stopping, this`stopped, this`autoStop
      ensures Valid() && threads == 0 && stopped && View() == old(View()).(stopping := false)
    {
      threads, stopping, stopped, autoStop := 0, false, true, false;
    }

    method StopAndStartAgain() returns (ok: bool)
      requires Valid() && AllExited(View())
      modifies this
      ensures ok && Valid() && threads == threadCount && View() == Restarted(old(View()))
    {
      StopEnd();
      ok := Start();
    }
  }

  // The wait idle computes from getNextTimeMs.
  method EpollTimeout(next: nat) returns (timeout: nat)
    requires next < WORD
    ensures timeout <= 3000 && timeout <= next
    ensures timeout == 3000 || timeout == next
  {
    timeout := EPOLL_WAIT_TIMEOUT_MS;
    if next != WORD - 1 && next < EPOLL_WAIT_TIMEOUT_MS {
      timeout := next;
    }
  }

  // The minimum remaining time is that of the earliest deadline.
  lemma NextIsEarliest(timers: set<Entry>, now: nat, next: nat)
    requires timers != {}
    requires (forall e :: e in timers ==> next <= Remaining(e, now)) && exists e :: e in timers && next == Remaining(e, now)
    ensures var d := Earliest(timers).deadline; next == if d > now then d - now else 0
  {
    var b := Earliest(timers);
    var e :| e in timers && next == Remaining(e, now);
    var f :| f in timers && f.next == b.deadline;
    assert next <= Remaining(f, now) && b.deadline <= e.next;
  }

  // Asking the timer manager and limiting the answer gives the timeout the
  // machine waits with.
  method IdleTimeout(m: TimerManager, now: nat) returns (timeout: nat)
    requires m.Valid() && forall e :: e in m.Armed() ==> e.next < WORD
    ensures timeout == TimeoutFor(Earliest(m.Armed()), now)
    ensures m.Armed() == {} ==> timeout == 3000
    ensures forall e :: e in m.Armed() ==> timeout <= Remaining(e, now) && timeout <= 3000
    ensures timeout == 3000 || exists e :: e in m.Armed() && timeout == Remaining(e, now)
  {
    var next := m.GetNextTimeMs(now);
    if m.Armed() != {} {
      NextIsEarliest(m.Armed(), now, next);
    }
    timeout := EpollTimeout(next);
  }
}
