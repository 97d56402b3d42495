/**
 * Notices of new tasks, with any number of workers (src/scheduler.h:34-54,
 * src/scheduler.cpp:129-202): when schedule tickles, that no such tickle is lost
 * before the task is dequeued, and the gap before a worker is counted as idle.
 */
module SchedulerNotice {
  import opened Basics
  import opened Timers
  import opened SchedulerMachine
  import opened SchedulerHistory
  import opened SchedulerWake

  ghost predicate SomeIdle(ws: seq<Worker>) {
    exists w :: 0 <= w < |ws| && InIdle(ws[w].pc)
  }

  lemma {:induction false} IdleIsCounted(ws: seq<Worker>)
    ensures IdleCount(ws) > 0 <==> SomeIdle(ws)
    decreases |ws|
  {
    if SomeIdle(ws) {
      var w :| 0 <= w < |ws| && InIdle(ws[w].pc);
      CountPositive(ws, w);
    }
    if ws != [] && IdleCount(ws) > 0 {
      IdleIsCounted(ws[1..]);
      if !InIdle(ws[0].pc) {
        var v :| 0 <= v < |ws[1..]| && InIdle(ws[1..][v].pc);
        assert InIdle(ws[v + 1].pc);
      }
    }
  }

  // A notification is on its way: an edge with bytes behind it, or a thread about
  // to write.
  ghost predicate Signalled(s: State) {
    (s.notified && s.bytes > 0) || s.writing > 0
  }

  // schedule brings a notification on its way exactly when the list was empty and
  // some worker is in idle; dequeuing with tasks left, and stop, exactly when
  // some worker is in idle.
  lemma TicklesIff(s: State, batch: seq<Task>, w: nat)
    requires Base(s) && !Signalled(s)
    ensures Enabled(s, Push(batch)) ==> (Signalled(Do(s, Push(batch))) <==> s.tasks == [] && SomeIdle(s.workers))
    ensures IsWorker(s, w) && ActEnabled(s, w, Offer) ==> (Signalled(DoAct(s, w, Offer)) <==> SomeIdle(s.workers))
    ensures Enabled(s, StopTickle) ==> (Signalled(Do(s, StopTickle)) <==> SomeIdle(s.workers))
  {
    IdleIsCounted(s.workers);
  }

  // The worker goes to the queue without waiting.
  predicate Heading(pc: Pc) {
    pc.Woken? || pc.Carrying? || pc.Dispatching? || pc.Leaving? || pc.Fetch?
  }

  ghost predicate SomeHeading(ws: seq<Worker>) {
    exists w :: 0 <= w < |ws| && Heading(ws[w].pc)
  }

  // Somebody will look at the queue, or is about to be told to.
  ghost predicate Noticed(s: State) { Signalled(s) || SomeHeading(s.workers) }

  lemma SharedKeepsSignal(s: State, pc: Pc, a: Act)
    requires a.Take? ==> s.tasks != []
    requires a.ReturnDone? && pc.Executing? ==> pc.i < |s.taken|
    requires a.Fire? ==> s.pending > 0
    requires Signalled(s) && !a.WakeByPipe? && !a.Drain?
    ensures Signalled(Shared(s, pc, a))
  {
    ScheduledWrites(s, Batch(pc, a));
    var t := Shared(s, pc, a);
    assert t.notified == s.notified && t.bytes == s.bytes && t.writing >= s.writing;
  }

  // An act keeps a notification, or its worker took it.
  lemma ActKeepsSignal(s: State, w: nat, a: Act)
    requires IsWorker(s, w) && ActEnabled(s, w, a) && Signalled(s)
    ensures Signalled(DoAct(s, w, a)) || Heading(Moved(s, w, a).pc)
  {
    if !a.WakeByPipe? && !a.Drain? {
      SharedKeepsSignal(s, s.workers[w].pc, a);
    }
  }

  lemma ActKeepsHeading(s: State, w: nat, a: Act)
    requires IsWorker(s, w) && ActEnabled(s, w, a) && !a.Take? && s.tasks != [] && Heading(s.workers[w].pc)
    ensures Heading(Moved(s, w, a).pc)
  {
  }

  lemma ActNoticed(s: State, w: nat, a: Act)
    requires IsWorker(s, w) && ActEnabled(s, w, a) && !a.Take? && s.tasks != [] && Noticed(s)
    ensures Noticed(DoAct(s, w, a))
  {
    var t := DoAct(s, w, a);
    assert t.workers == s.workers[w := Moved(s, w, a)];
    if Signalled(s) {
      ActKeepsSignal(s, w, a);
      assert Heading(Moved(s, w, a).pc) ==> Heading(t.workers[w].pc);
    } else {
      var v :| 0 <= v < |s.workers| && Heading(s.workers[v].pc);
      if v == w {
        ActKeepsHeading(s, w, a);
      }
      assert Heading(t.workers[v].pc);
    }
  }

  lemma ActKeepsTasks(s: State, w: nat, a: Act)
    requires IsWorker(s, w) && ActEnabled(s, w, a) && !a.Take? && s.tasks != []
    ensures DoAct(s, w, a).tasks != []
  {
  }

  lemma OtherKeepsSignal(s: State, step: Step)
    requires Enabled(s, step) && !step.Work?
    ensures Signalled(s) ==> Signalled(Do(s, step))
  {
  }

  predicate IsTake(step: Step) { step.Work? && step.act.Take? }

  lemma StepNoticed(s: State, step: Step)
    requires Enabled(s, step) && !IsTake(step) && s.tasks != [] && Noticed(s)
    ensures Noticed(Do(s, step)) && Do(s, step).tasks != []
  {
    if step.Work? {
      ActNoticed(s, step.w, step.act);
      ActKeepsTasks(s, step.w, step.act);
    } else {
      OthersKeep(s, step);
      OthersPush(s, step);
      OtherKeepsSignal(s, step);
    }
  }

  ghost predicate NoTakes(run: seq<Step>) {
    forall i :: 0 <= i < |run| ==> !IsTake(run[i])
  }

  lemma {:induction false} RunNoticed(s: State, run: seq<Step>)
    requires Legal(s, run) && NoTakes(run) && s.tasks != [] && Noticed(s)
    ensures Noticed(Final(s, run))
    decreases |run|
  {
    if run != [] {
      StepNoticed(s, run[0]);
      RunNoticed(Do(s, run[0]), run[1..]);
    }
  }

  // No lost notice of a task: when a task comes to an empty queue while some worker
  // is in idle, then in every continuation, until a task is dequeued, the pipe is
  // notified or a thread is about to write to it, or some worker is on its way to
  // the queue and will not wait before it gets there.
  lemma NoLostTaskWakeup(s: State, batch: seq<Task>, run: seq<Step>)
    requires Base(s) && s.tasks == [] && batch != [] && SomeIdle(s.workers) && Enabled(s, Push(batch))
    requires Legal(Do(s, Push(batch)), run) && NoTakes(run)
    ensures Noticed(Final(Do(s, Push(batch)), run))
  {
    PushNotices(s, batch);
    RunNoticed(Do(s, Push(batch)), run);
  }

  // And that a worker is in idle, or on its way to the queue, is exactly what it
  // takes: a worker that has found the queue empty and is not yet counted as idle
  // is told nothing.
  lemma PushNoticedIff(s: State, batch: seq<Task>)
    requires Base(s) && s.tasks == [] && !Signalled(s) && Enabled(s, Push(batch))
    ensures Noticed(Do(s, Push(batch))) <==> SomeIdle(s.workers) || exists w :: 0 <= w < |s.workers| && s.workers[w].pc.Fetch?
  {
    TicklesIff(s, batch, 0);
    OthersKeep(s, Push(batch));
  }

  lemma PushNotices(s: State, batch: seq<Task>)
    requires Base(s) && s.tasks == [] && batch != [] && SomeIdle(s.workers) && Enabled(s, Push(batch))
    ensures Noticed(Do(s, Push(batch))) && Do(s, Push(batch)).tasks != []
  {
    IdleIsCounted(s.workers);
  }

  // ---- the gap ----

  lemma Prepend(s: State, step: Step, rest: seq<Step>)
    requires Enabled(s, step) && Legal(Do(s, step), rest)
    ensures Legal(s, [step] + rest) && Final(s, [step] + rest) == Final(Do(s, step), rest)
  {
    assert ([step] + rest)[0] == step && ([step] + rest)[1..] == rest;
  }

  // One worker, nothing to do but what is queued, and nobody to tell it.
  ghost predicate Alone(s: State, pc: Pc, tasks: seq<Task>) {
    && s.workers == [Worker(pc, false)] && s.tasks == tasks && s.timers == {} && !s.stopping
    && !s.notified && s.writing == 0 && s.inserting == 0
  }

  lemma FindsNothing(s: State, t: Task) returns (u: State, run: seq<Step>)
    requires Alone(s, Fetch, []) && s.idle == 0
    ensures Legal(s, run) && u == Final(s, run) && Alone(u, EnteringIdle, [t])
  {
    var s1 := Do(s, Work(0, FindEmpty));
    u := Do(s1, Push([t]));
    run := [Work(0, FindEmpty)] + ([Push([t])] + []);
    Prepend(s1, Push([t]), []);
    Prepend(s, Work(0, FindEmpty), [Push([t])] + []);
  }

  lemma ChecksStop(s: State, tasks: seq<Task>) returns (u: State, run: seq<Step>)
    requires Alone(s, EnteringIdle, tasks)
    ensures Legal(s, run) && u == Final(s, run) && Alone(u, StopCheck2, tasks)
  {
    var s1 := Do(s, Work(0, EnterIdle));
    u := Do(s1, Work(0, SeeNoTimers));
    run := [Work(0, EnterIdle)] + ([Work(0, SeeNoTimers)] + []);
    Prepend(s1, Work(0, SeeNoTimers), []);
    Prepend(s, Work(0, EnterIdle), [Work(0, SeeNoTimers)] + []);
  }

  lemma GoesOn(s: State, tasks: seq<Task>)
    requires Alone(s, StopCheck2, tasks)
    ensures Enabled(s, Work(0, DecideGoOn)) && Alone(Do(s, Work(0, DecideGoOn)), Computing, tasks)
  {
  }

  lemma Waits(s: State, tasks: seq<Task>) returns (u: State, run: seq<Step>)
    requires Alone(s, StopCheck2, tasks)
    ensures Legal(s, run) && u == Final(s, run) && exists at :: Alone(u, Blocked(Never, at, at), tasks)
  {
    GoesOn(s, tasks);
    var s1 := Do(s, Work(0, DecideGoOn));
    var rest;
    u, rest := Blocks(s1, tasks);
    run := [Work(0, DecideGoOn)] + rest;
    Prepend(s, Work(0, DecideGoOn), rest);
  }

  lemma Blocks(s: State, tasks: seq<Task>) returns (u: State, run: seq<Step>)
    requires Alone(s, Computing, tasks)
    ensures Legal(s, run) && u == Final(s, run) && Alone(u, Blocked(Never, s.now, s.now), tasks)
  {
    var s1 := Do(s, Work(0, Compute));
    u := Do(s1, Work(0, Block));
    run := [Work(0, Compute)] + ([Work(0, Block)] + []);
    Prepend(s1, Work(0, Block), []);
    Prepend(s, Work(0, Compute), [Work(0, Block)] + []);
  }

  lemma {:induction false} Compose(s: State, a: seq<Step>, b: seq<Step>)
    requires Legal(s, a) && Legal(Final(s, a), b)
    ensures Legal(s, a + b) && Final(s, a + b) == Final(Final(s, a), b)
    decreases |a|
  {
    if a == [] {
      assert a + b == b;
    } else {
      assert (a + b)[0] == a[0] && (a + b)[1..] == a[1..] + b;
      Compose(Do(s, a[0]), a[1..], b);
    }
  }

  // The only worker waits its full time with a task queued.
  ghost predicate Overslept(s: State, t: Task) {
    && s.tasks == [t] && !Noticed(s) && |s.workers| == 1 && s.workers[0].pc.Blocked?
    && TimeoutFor(s.workers[0].pc.basis, s.workers[0].pc.at) == 3000
  }

  lemma Oversleeps(s: State, t: Task) returns (u: State, run: seq<Step>)
    requires Alone(s, EnteringIdle, [t])
    ensures Legal(s, run) && u == Final(s, run) && Overslept(u, t)
  {
    var s1, a := ChecksStop(s, [t]);
    var b;
    u, b := Waits(s1, [t]);
    Compose(s, a, b);
    run := a + b;
    var at :| Alone(u, Blocked(Never, at, at), [t]);
  }

  // A run to such a state: the task came between the worker's look at the queue and
  // ++m_idle_threads.
  lemma TaskComesTooEarly(s: State, t: Task) returns (run: seq<Step>)
    requires Init(s) && |s.workers| == 1 && !s.notified && s.writing == 0 && s.inserting == 0
    ensures Legal(s, run) && Overslept(Final(s, run), t)
  {
    assert s.workers == [s.workers[0]];
    var s1, a := FindsNothing(s, t);
    var s2, b := Oversleeps(s1, t);
    Compose(s, a, b);
    run := a + b;
  }
}
