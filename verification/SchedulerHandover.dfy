/**
 * What the workers hand back to the queue (src/scheduler.cpp:153-178, 258-263):
 * the functions of expired timers, and fibers that yielded READY. Every run of any
 * number of workers conserves them from the moment a worker has them in hand to
 * their place in the queue.
 */
module SchedulerHandover {
  import opened Basics
  import opened Timers
  import opened SchedulerMachine
  import opened SchedulerHistory

  // What an act makes its worker owe to the queue: getExpiredFuncs the functions
  // of the timers it took, in their order; a task that yielded READY its fiber.
  ghost function Owed(s: State, w: nat, a: Act): seq<Task>
    requires IsWorker(s, w) && ActEnabled(s, w, a)
  {
    match a
    case Expire(_, due) => seq(|due|, i requires 0 <= i < |due| => Func(due[i].func))
    case ReturnReady(id) => var t := s.taken[s.workers[w].pc.i]; if t.Fiber? then [t] else [Fiber(id)]
    case _ => []
  }

  // Tasks that worker w came to owe, and where in the queue's history they are, once
  // they have been scheduled.
  datatype Debt = Debt(w: nat, tasks: seq<Task>, place: Option<nat>)

  ghost function Paid(debts: seq<Debt>, w: nat, place: nat): seq<Debt> {
    seq(|debts|, i requires 0 <= i < |debts| =>
      if debts[i].w == w && debts[i].place.None? then debts[i].(place := Some(place)) else debts[i])
  }

  ghost function Noted(debts: seq<Debt>, s: State, step: Step): seq<Debt>
    requires Enabled(s, step)
  {
    if !step.Work? then debts
    else if Owed(s, step.w, step.act) != [] then debts + [Debt(step.w, Owed(s, step.w, step.act), None)]
    else if step.act.Deliver? || step.act.Requeue? then Paid(debts, step.w, |s.pushed|)
    else debts
  }

  // The debts of a whole run, in the order in which they arose.
  ghost function Debts(debts: seq<Debt>, s: State, run: seq<Step>): seq<Debt>
    requires Legal(s, run)
    decreases |run|
  {
    if run == [] then debts else Debts(Noted(debts, s, run[0]), Do(s, run[0]), run[1..])
  }

  // What a worker has in hand for the queue.
  function Hand(pc: Pc): seq<Task> {
    match pc
    case Back(t) => if t.Some? then [t.value] else []
    case Requeueing(t) => [t]
    case Carrying(funcs, _) => funcs
    case _ => []
  }

  // An open debt is in its worker's hand; a paid one is in the queue's history, in
  // order and without gaps.
  ghost predicate DebtOk(s: State, d: Debt) {
    if d.place.None? then IsWorker(s, d.w) && Hand(s.workers[d.w].pc) == d.tasks != []
    else d.place.value + |d.tasks| <= |s.pushed| && s.pushed[d.place.value..d.place.value + |d.tasks|] == d.tasks
  }

  ghost predicate Apart(d: Debt, e: Debt) {
    && (d.place.None? && e.place.None? ==> d.w != e.w)
    && (d.place.Some? && e.place.Some? ==>
      d.place.value + |d.tasks| <= e.place.value || e.place.value + |e.tasks| <= d.place.value)
  }

  ghost predicate IsOpen(debts: seq<Debt>, i: int, w: int) {
    0 <= i < |debts| && debts[i].w == w && debts[i].place.None?
  }

  ghost predicate OwnsUp(s: State, debts: seq<Debt>, w: nat) {
    IsWorker(s, w) && Hand(s.workers[w].pc) != [] ==> exists i :: IsOpen(debts, i, w)
  }

  ghost predicate Tracked(s: State, debts: seq<Debt>) {
    && (forall i :: 0 <= i < |debts| ==> DebtOk(s, debts[i]))
    && (forall i, j :: 0 <= i < j < |debts| ==> Apart(debts[i], debts[j]))
    && (forall w: nat :: OwnsUp(s, debts, w))
  }

  // ---- one step ----

  predicate Pays(a: Act) { a.Deliver? || a.Requeue? }

  lemma MovedHand(s: State, w: nat, a: Act)
    requires IsWorker(s, w) && ActEnabled(s, w, a)
    ensures var before, after, owed := Hand(s.workers[w].pc), Hand(Moved(s, w, a).pc), Owed(s, w, a);
      && (owed != [] ==> before == [] && after == owed)
      && (Pays(a) ==> owed == [] && after == [])
      && (owed == [] && !Pays(a) ==> after == before)
  {
    if a.Expire? && a.due != [] {
      assert Hand(Moved(s, w, a).pc) == Owed(s, w, a);
    }
  }

  // What a step schedules: what its thread is given to schedule, or what its worker
  // has in hand.
  ghost function Given(s: State, step: Step): seq<Task>
    requires Enabled(s, step)
  {
    match step
    case Push(batch) => batch
    case CancelEvent(t) => [t]
    case Work(w, a) => if Pays(a) then Hand(s.workers[w].pc) else if a.Fire? then [a.task] else []
    case _ => []
  }

  lemma ActPushes(s: State, w: nat, a: Act)
    requires IsWorker(s, w) && ActEnabled(s, w, a)
    ensures DoAct(s, w, a).pushed == s.pushed + Given(s, Work(w, a))
  {
  }

  lemma OthersGive(s: State, step: Step)
    requires Enabled(s, step) && !step.Work?
    ensures Do(s, step).pushed == s.pushed + Given(s, step)
  {
  }

  // Nothing is owed or paid.
  lemma SameHands(s: State, t: State, debts: seq<Debt>)
    requires Tracked(s, debts) && |t.workers| == |s.workers| && s.pushed <= t.pushed
    requires forall v :: 0 <= v < |s.workers| ==> Hand(t.workers[v].pc) == Hand(s.workers[v].pc)
    ensures Tracked(t, debts)
  {
    forall i | 0 <= i < |debts| ensures DebtOk(t, debts[i]) {
      assert DebtOk(s, debts[i]);
    }
    forall w: nat ensures OwnsUp(t, debts, w) {
      assert OwnsUp(s, debts, w);
    }
  }

  lemma Owes(s: State, t: State, debts: seq<Debt>, w: nat, owed: seq<Task>)
    requires Tracked(s, debts) && IsWorker(s, w) && |t.workers| == |s.workers| && s.pushed <= t.pushed && owed != []
    requires Hand(s.workers[w].pc) == [] && Hand(t.workers[w].pc) == owed
    requires forall v :: 0 <= v < |s.workers| && v != w ==> t.workers[v] == s.workers[v]
    ensures Tracked(t, debts + [Debt(w, owed, None)])
  {
    var more := debts + [Debt(w, owed, None)];
    forall i | 0 <= i < |more| ensures DebtOk(t, more[i]) && (i < |debts| ==> Apart(more[i], more[|debts|])) {
      assert i < |debts| ==> DebtOk(s, debts[i]);
    }
    forall v: nat ensures OwnsUp(t, more, v) {
      assert OwnsUp(s, debts, v) && IsOpen(more, |debts|, w);
      if IsWorker(t, v) && v != w && Hand(t.workers[v].pc) != [] {
        var i :| IsOpen(debts, i, v);
        assert IsOpen(more, i, v);
      }
    }
  }

  lemma PaidOk(s: State, t: State, debts: seq<Debt>, w: nat, i: nat)
    requires Tracked(s, debts) && IsWorker(s, w) && |t.workers| == |s.workers| && i < |debts|
    requires t.pushed == s.pushed + Hand(s.workers[w].pc) && Hand(t.workers[w].pc) == []
    requires forall v :: 0 <= v < |s.workers| && v != w ==> t.workers[v] == s.workers[v]
    ensures DebtOk(t, Paid(debts, w, |s.pushed|)[i])
  {
    assert DebtOk(s, debts[i]);
  }

  lemma PaidApart(s: State, debts: seq<Debt>, w: nat, i: nat, j: nat)
    requires Tracked(s, debts) && i < j < |debts|
    ensures var paid := Paid(debts, w, |s.pushed|); Apart(paid[i], paid[j])
  {
    assert DebtOk(s, debts[i]) && DebtOk(s, debts[j]) && Apart(debts[i], debts[j]);
  }

  lemma Pay(s: State, t: State, debts: seq<Debt>, w: nat)
    requires Tracked(s, debts) && IsWorker(s, w) && |t.workers| == |s.workers|
    requires t.pushed == s.pushed + Hand(s.workers[w].pc) && Hand(t.workers[w].pc) == []
    requires forall v :: 0 <= v < |s.workers| && v != w ==> t.workers[v] == s.workers[v]
    ensures Tracked(t, Paid(debts, w, |s.pushed|))
  {
    var paid := Paid(debts, w, |s.pushed|);
    forall i | 0 <= i < |paid| ensures DebtOk(t, paid[i]) {
      PaidOk(s, t, debts, w, i);
    }
    forall i, j | 0 <= i < j < |paid| ensures Apart(paid[i], paid[j]) {
      PaidApart(s, debts, w, i, j);
    }
    forall v: nat ensures OwnsUp(t, paid, v) {
      assert OwnsUp(s, debts, v);
      if IsWorker(t, v) && v != w && Hand(t.workers[v].pc) != [] {
        var i :| IsOpen(debts, i, v);
        assert IsOpen(paid, i, v);
      }
    }
  }

  lemma StepTracked(s: State, debts: seq<Debt>, step: Step)
    requires Tracked(s, debts) && Enabled(s, step)
    ensures Tracked(Do(s, step), Noted(debts, s, step))
  {
    var t := Do(s, step);
    if step.Work? {
      var w, a := step.w, step.act;
      MovedHand(s, w, a);
      ActPushes(s, w, a);
      assert t.workers == s.workers[w := Moved(s, w, a)];
      if Owed(s, w, a) != [] {
        Owes(s, t, debts, w, Owed(s, w, a));
      } else if Pays(a) {
        Pay(s, t, debts, w);
      } else {
        SameHands(s, t, debts);
      }
    } else {
      OthersKeep(s, step);
      OthersGive(s, step);
      SameHands(s, t, debts);
    }
  }

  lemma {:induction false} RunTracked(s: State, debts: seq<Debt>, run: seq<Step>)
    requires Tracked(s, debts) && Legal(s, run)
    ensures Tracked(Final(s, run), Debts(debts, s, run))
    decreases |run|
  {
    if run != [] {
      StepTracked(s, debts, run[0]);
      RunTracked(Do(s, run[0]), Noted(debts, s, run[0]), run[1..]);
    }
  }

  // ---- whole runs ----

  ghost function AllGiven(s: State, run: seq<Step>): seq<Task>
    requires Legal(s, run)
    decreases |run|
  {
    if run == [] then [] else Given(s, run[0]) + AllGiven(Do(s, run[0]), run[1..])
  }

  lemma StepPushes(s: State, step: Step)
    requires Enabled(s, step)
    ensures Do(s, step).pushed == s.pushed + Given(s, step)
  {
    if step.Work? {
      ActPushes(s, step.w, step.act);
    } else {
      OthersGive(s, step);
    }
  }

  // In every run the queue's history is exactly what was scheduled, in order.
  lemma {:induction false} QueueIsWhatWasScheduled(s: State, run: seq<Step>)
    requires Legal(s, run)
    ensures Final(s, run).pushed == s.pushed + AllGiven(s, run)
    decreases |run|
  {
    if run != [] {
      StepPushes(s, run[0]);
      QueueIsWhatWasScheduled(Do(s, run[0]), run[1..]);
    }
  }

  // In every run, whatever a worker owes to the queue, the functions of the timers
  // it collected and the fiber that yielded READY, is either in that worker's hand
  // or was scheduled, as a whole, in order and at a place of its own.
  lemma DebtsArePaid(s: State, run: seq<Step>)
    requires Init(s) && Legal(s, run)
    ensures Tracked(Final(s, run), Debts([], s, run))
  {
    RunTracked(s, [], run);
  }

  // Task number i of the queue was called, or it is a fiber that was dropped as done,
  // or it is left.
  ghost predicate Settled(t: State, i: nat) {
    Called(t, i) || DroppedAsDone(t, i) || LeftQueued(t, i)
  }

  lemma PlacedTask(t: State, d: Debt, j: nat)
    requires DebtOk(t, d) && AllExited(t) && j < |d.tasks|
    ensures d.place.Some? && d.place.value + j < |t.pushed| && t.pushed[d.place.value + j] == d.tasks[j]
  {
    if d.place.Some? {
      var p := d.place.value;
      assert t.pushed[p + j] == t.pushed[p..p + |d.tasks|][j];
    }
  }

  // Once all workers have returned every debt is paid. The functions of the timers
  // have all been called, exactly once per collection, unless the last worker left
  // tasks in the queue.
  lemma CollectedFunctionsAreCalled(s: State, run: seq<Step>, i: nat, j: nat)
    requires Init(s) && Legal(s, run) && AllExited(Final(s, run))
    requires var ds := Debts([], s, run); i < |ds| && j < |ds[i].tasks|
    ensures var t, d := Final(s, run), Debts([], s, run)[i];
      && d.place.Some? && d.place.value + j < |t.pushed| && t.pushed[d.place.value + j] == d.tasks[j]
      && Settled(t, d.place.value + j)
      && (d.tasks[j].Func? && !t.strayed ==> Called(t, d.place.value + j))
      && (forall k, l :: 0 <= k < l < |t.calls| ==> t.calls[k] != t.calls[l])
  {
    DebtsArePaid(s, run);
    var t, d := Final(s, run), Debts([], s, run)[i];
    PlacedTask(t, d, j);
    NoTaskLostIff(s, run);
    TaskIsSettled(t, d.place.value + j);
  }

  lemma TaskIsSettled(t: State, n: nat)
    requires n < |t.pushed| && One(Called(t, n)) + One(DroppedAsDone(t, n)) + One(LeftQueued(t, n)) == 1
    requires t.pushed == t.taken + t.tasks && (t.tasks == [] <==> !t.strayed)
    ensures Settled(t, n) && (t.pushed[n].Func? && !t.strayed ==> Called(t, n))
  {
  }

  // ---- one round of idle ----

  // What getExpiredFuncs returns for a timer set kept in the order of v.
  lemma ExpireIsGetExpiredFuncs(s: State, w: nat, at: nat, due: seq<Entry>, v: seq<Entry>)
    requires IsWorker(s, w) && ActEnabled(s, w, Expire(at, due)) && Sorted(v) && Elems(v) == s.timers
    ensures Owed(s, w, Expire(at, due)) == seq(|Funcs(Filter(v, at))|, i requires 0 <= i < |Funcs(Filter(v, at))| => Func(Funcs(Filter(v, at))[i]))
    ensures DoAct(s, w, Expire(at, due)).timers == AfterPoll(s.timers, at)
  {
    FilterExact(v, at);
    SortedIsCanonical(due, Filter(v, at));
  }

  // What a poll leaves of a timer set.
  lemma AfterPollIs(timers: set<Entry>, at: nat, due: seq<Entry>)
    requires Elems(due) == Due(timers, at)
    ensures forall e :: e in due <==> e in timers && e.next <= at
    ensures forall e :: e in AfterPoll(timers, at) <==> (e in timers && e.next > at) || exists d :: d in due && d.recurring && e == Advance(d)
  {
    assert forall e :: e in due <==> e in Elems(due);
  }

  lemma ExpireCarries(s: State, w: nat, at: nat, due: seq<Entry>)
    requires IsWorker(s, w) && ActEnabled(s, w, Expire(at, due)) && due != [] && MutexFree(s)
    ensures var t := DoAct(s, w, Expire(at, due));
      && t.timers == AfterPoll(s.timers, at) && t.tasks == s.tasks && ActEnabled(t, w, Deliver)
      && Hand(t.workers[w].pc) == Owed(s, w, Expire(at, due))
  {
    MovedHand(s, w, Expire(at, due));
  }

  lemma DeliverQueues(s: State, w: nat)
    requires IsWorker(s, w) && ActEnabled(s, w, Deliver)
    ensures DoAct(s, w, Deliver).tasks == s.tasks + Hand(s.workers[w].pc) && DoAct(s, w, Deliver).timers == s.timers
  {
  }

  // A poll and the schedule after it, with nothing in between: the timers that are
  // due leave the set, the recurring ones come back later, and the functions are at
  // the end of the queue in deadline order.
  lemma ExpiredTimersAreQueued(s: State, w: nat, at: nat, due: seq<Entry>)
    requires IsWorker(s, w) && ActEnabled(s, w, Expire(at, due)) && due != [] && MutexFree(s)
    ensures var t := DoAct(s, w, Expire(at, due));
      && ActEnabled(t, w, Deliver)
      && var u := DoAct(t, w, Deliver);
        && |u.tasks| == |s.tasks| + |due| && s.tasks <= u.tasks
        && (forall i :: 0 <= i < |due| ==> u.tasks[|s.tasks| + i] == Func(due[i].func))
        && (forall e :: e in due <==> e in s.timers && e.next <= at)
        && (forall e :: e in u.timers <==> (e in s.timers && e.next > at) || exists d :: d in due && d.recurring && e == Advance(d))
  {
    ExpireCarries(s, w, at, due);
    DeliverQueues(DoAct(s, w, Expire(at, due)), w);
    AfterPollIs(s.timers, at, due);
  }
}
