/**
 * Hooked calls that wait (src/hook.cpp): do_io with its retry loop and its
 * timeout timer, connect_with_timeout, and the three sleeps. Any number of
 * calls, timer callbacks and other threads interleave freely, so the runs cover
 * any number of workers. The shared state is the timer set, the callbacks
 * collected from it, and the event slots.
 */
module HookCalls {
  import opened Basics
  import opened Timers

  datatype Key = Key(fd: nat, write: bool)

  // What woke a parked call: its event became ready, or anything else that
  // dispatches the key (cancelEvent, cancelAll, a stale report or callback).
  datatype Cause = Readiness | Other

  // Where a call is. A timer number goes along from arming to cancelling.
  datatype Pc =
    | Trying                                  // the system call, retried on EINTR
    | Arming                                  // EAGAIN or EINPROGRESS: addConditionTimer next
    | Adding(t: Option<nat>)                  // addEvent next
    | Parked(t: Option<nat>)                  // in Fiber::Yield, registered on its key
    | Woken(t: Option<nat>, cause: Cause)     // scheduled; timer->cancel() next
    | Checking(cause: Cause)                  // looks at tinfo->cancelled
    | Asleep(timer: nat)                      // a sleep, in Fiber::Yield
    | Finished(r: Result)

  // FromKernel: what the system call itself returned. Reported: what connect
  // makes of SO_ERROR after its wait, 0 being success.
  datatype Result = FromKernel | TimedOut | Slept | Reported(success: bool)
  datatype Kind = Io | Connect | Sleep

  // The kernel's side of a connection attempt.
  datatype Progress = InProgress | Established | Failed

  // What happened to a wait: `deaf` if its timeout had already come and gone when
  // it was registered, `unlisted` if delEvent removed its registration; and for
  // connect the attempt, and what had woken it and what it saw when it reported.
  datatype Story = Story(deaf: bool, unlisted: bool, progress: Progress, cause: Cause, seen: Progress)

  // `to` is the timeout (absent for (uint64_t)-1) or the time to sleep in ms;
  // `cancelled` is tinfo->cancelled; `first` is when its first timer was armed.
  datatype Call = Call(kind: Kind, key: Key, to: Option<nat>, pc: Pc, cancelled: bool, first: Option<nat>, story: Story)

  // A timeout callback between the flag and its cancelEvent.
  datatype Firing = Firing(call: nat, key: Key)

  // A timer some call made: its callback carries the call (weakly, through
  // winfo, for a timeout; the fiber itself for a sleep).
  datatype HookTimer = HookTimer(call: nat, armedAt: nat, next: nat)

  datatype State = State(
    now: nat,
    calls: seq<Call>,
    timers: map<nat, HookTimer>,   // armed
    due: map<nat, HookTimer>,      // collected, callback not yet run
    firing: map<nat, Firing>,      // timeout callbacks between the flag and cancelEvent
    slots: map<Key, nat>,          // the call waiting on a key
    made: nat,                     // timers made so far
    expired: set<nat>,             // calls one of whose timers was collected
    woken: seq<nat>)               // sleeping calls handed to schedule, in order

  datatype Step =
    | Begin(kind: Kind, key: Key, to: Option<nat>)
    | Succeed(c: nat)              // the system call returns anything but EAGAIN
    | Again(c: nat)                // EAGAIN, or EINPROGRESS for connect
    | Arm(c: nat)
    | Register(c: nat)             // addEvent
    | Settle(c: nat, ok: bool)     // the kernel ends a connection attempt
    | Ready(key: Key)              // readiness; of a connecting socket, once it is settled
    | Dispatch(key: Key)           // cancelEvent, close, or a stale report
    | Delete(key: Key)             // delEvent
    | CancelTimer(c: nat)
    | Check(c: nat)
    | Collect(t: nat)              // a poll takes the timer
    | SetFlag(t: nat)              // the timeout callback up to t->cancelled = ETIMEDOUT
    | Fire(t: nat)                 // its cancelEvent
    | WakeSleeper(t: nat)          // the sleep callback: schedule(fiber)
    | Tick(t: nat)

  ghost predicate Init(s: State) {
    s.calls == [] && s.timers == map[] && s.due == map[] && s.firing == map[] && s.slots == map[] && s.made == 0
    && s.expired == {} && s.woken == []
  }

  ghost predicate IsCall(s: State, c: nat) { c < |s.calls| }

  ghost predicate Enabled(s: State, step: Step) {
    match step
    case Begin(kind, _, to) => kind.Sleep? ==> to.Some?
    case Succeed(c) => IsCall(s, c) && s.calls[c].pc.Trying?
    case Again(c) => IsCall(s, c) && s.calls[c].pc.Trying?
    case Arm(c) => IsCall(s, c) && s.calls[c].pc.Arming? && s.calls[c].to.Some?
    case Register(c) => IsCall(s, c) && s.calls[c].pc.Adding? && s.calls[c].key !in s.slots
    case Settle(c, _) => IsCall(s, c) && s.calls[c].kind.Connect? && s.calls[c].story.progress.InProgress?
    case Ready(k) => k in s.slots && IsCall(s, s.slots[k]) &&
      (s.calls[s.slots[k]].kind.Connect? ==> !s.calls[s.slots[k]].story.progress.InProgress?)
    case Dispatch(k) => k in s.slots && IsCall(s, s.slots[k])
    case Delete(k) => k in s.slots
    case CancelTimer(c) => IsCall(s, c) && s.calls[c].pc.Woken?
    case Check(c) => IsCall(s, c) && s.calls[c].pc.Checking?
    case Collect(t) => t in s.timers && s.timers[t].next <= s.now
    case SetFlag(t) => t in s.due && IsCall(s, s.due[t].call) && !s.calls[s.due[t].call].kind.Sleep?
    case Fire(t) => t in s.firing
    case WakeSleeper(t) => t in s.due && IsCall(s, s.due[t].call) && s.calls[s.due[t].call].kind.Sleep?
    case Tick(t) => s.now <= t
  }

  ghost function Goto(s: State, c: nat, pc: Pc): State
    requires IsCall(s, c)
  {
    s.(calls := s.calls[c := s.calls[c].(pc := pc)])
  }

  // The waiter of a key is scheduled: it will run on from its Yield.
  ghost function Dispatched(s: State, k: Key, cause: Cause): State {
    if k !in s.slots || !IsCall(s, s.slots[k]) then s
    else
      var c := s.slots[k];
      var t := s.(slots := s.slots - {k});
      if s.calls[c].pc.Parked? then Goto(t, c, Woken(s.calls[c].pc.t, cause)) else t
  }

  // A cancelEvent of call c's own timeout is still to come.
  ghost predicate CancelComing(s: State, c: nat) {
    exists x :: x in s.firing && s.firing[x].call == c
  }

  ghost function Told(s: State, c: nat, story: Story): State
    requires IsCall(s, c)
  {
    s.(calls := s.calls[c := s.calls[c].(story := story)])
  }

  // After the wait: the flag first; connect reports SO_ERROR, which is 0 as long
  // as the attempt is in progress; do_io tries again.
  ghost function Checked(k: Call): Call
    requires k.pc.Checking?
  {
    if k.cancelled then k.(pc := Finished(TimedOut))
    else if k.kind.Connect? then
      k.(pc := Finished(Reported(!k.story.progress.Failed?)), story := k.story.(cause := k.pc.cause, seen := k.story.progress))
    else k.(pc := Trying)
  }

  ghost function Armed(s: State, c: nat): State
    requires IsCall(s, c) && s.calls[c].to.Some?
  {
    var k := s.calls[c];
    var first := if k.first.Some? then k.first else Some(s.now);
    var pc := if k.kind.Sleep? then Asleep(s.made) else Adding(Some(s.made));
    s.(calls := s.calls[c := k.(first := first, pc := pc)],
       timers := s.timers[s.made := HookTimer(c, s.now, Wrap(s.now + k.to.value))], made := s.made + 1)
  }

  ghost function Do(s: State, step: Step): State
    requires Enabled(s, step)
  {
    match step
    case Begin(kind, key, to) =>
      s.(calls := s.calls + [Call(kind, key, to, if kind.Sleep? then Arming else Trying, false, None,
                                  Story(false, false, InProgress, Other, InProgress))])
    case Succeed(c) => Goto(s, c, Finished(FromKernel))
    case Again(c) => Goto(s, c, if s.calls[c].to.Some? then Arming else Adding(None))
    case Arm(c) => Armed(s, c)
    case Register(c) =>
      var k := s.calls[c];
      var story := k.story.(deaf := k.cancelled && !CancelComing(s, c), unlisted := false);
      s.(calls := s.calls[c := k.(pc := Parked(k.pc.t), story := story)], slots := s.slots[k.key := c])
    case Settle(c, ok) => Told(s, c, s.calls[c].story.(progress := if ok then Established else Failed))
    case Ready(k) => Dispatched(s, k, Readiness)
    case Dispatch(k) => Dispatched(s, k, Other)
    case Delete(k) =>
      if IsCall(s, s.slots[k]) then Told(s, s.slots[k], s.calls[s.slots[k]].story.(unlisted := true)).(slots := s.slots - {k})
      else s.(slots := s.slots - {k})
    case CancelTimer(c) =>
      var t := s.calls[c].pc.t;
      Goto(s, c, Checking(s.calls[c].pc.cause)).(timers := if t.Some? then s.timers - {t.value} else s.timers)
    case Check(c) => s.(calls := s.calls[c := Checked(s.calls[c])])
    case Collect(t) =>
      s.(timers := s.timers - {t}, due := s.due[t := s.timers[t]], expired := s.expired + {s.timers[t].call})
    case SetFlag(t) =>
      var c := s.due[t].call;
      var u := s.(due := s.due - {t});
      if s.calls[c].pc.Finished? || s.calls[c].cancelled then u
      else u.(calls := s.calls[c := s.calls[c].(cancelled := true)], firing := s.firing[t := Firing(c, s.calls[c].key)])
    case Fire(t) => Dispatched(s, s.firing[t].key, Other).(firing := s.firing - {t})
    case WakeSleeper(t) =>
      var c := s.due[t].call;
      Goto(s, c, Finished(Slept)).(due := s.due - {t}, woken := s.woken + [c])
    case Tick(t) => s.(now := t)
  }

  ghost predicate Legal(s: State, run: seq<Step>)
    decreases |run|
  {
    run == [] || (Enabled(s, run[0]) && Legal(Do(s, run[0]), run[1..]))
  }

  ghost function Final(s: State, run: seq<Step>): State
    requires Legal(s, run)
    decreases |run|
  {
    if run == [] then s else Final(Do(s, run[0]), run[1..])
  }

  // ---- what every run keeps ----

  // The whole timeout has passed since the call's first timer was armed, unless
  // the deadline wrapped around.
  ghost predicate Ripe(k: Call, now: nat) {
    k.to.Some? && k.first.Some? && k.first.value <= now
    && (now + k.to.value < WORD ==> k.first.value + k.to.value <= now)
  }

  // A timer of call k, at time `now`.
  ghost predicate Fits(k: Call, t: nat, tm: HookTimer, now: nat) {
    && k.to.Some? && k.first.Some? && k.first.value <= tm.armedAt <= now
    && tm.next == Wrap(tm.armedAt + k.to.value)
    && (k.kind.Sleep? ==> k.pc == Asleep(t))
  }

  ghost predicate TimerOk(s: State, t: nat, tm: HookTimer) {
    t < s.made && IsCall(s, tm.call) && Fits(s.calls[tm.call], t, tm, s.now)
  }

  // Timer t, armed or collected, belongs to call c.
  ghost predicate Holds(s: State, t: nat, c: nat) {
    (t in s.timers && s.timers[t].call == c) || (t in s.due && s.due[t].call == c)
  }

  ghost predicate CallOk(s: State, c: nat)
    requires IsCall(s, c)
  {
    var k := s.calls[c];
    && (k.first.Some? ==> k.first.value <= s.now)
    && (k.cancelled ==> Ripe(k, s.now) && c in s.expired && !k.kind.Sleep?)
    && (k.pc == Finished(TimedOut) ==> k.cancelled)
    && (k.pc == Finished(Slept) ==> Ripe(k, s.now) && k.kind.Sleep?)
    && (k.pc.Asleep? ==> k.kind.Sleep? && Holds(s, k.pc.timer, c))
    && (k.kind.Sleep? ==> k.pc.Arming? || k.pc.Asleep? || k.pc == Finished(Slept))
    && (c in s.woken <==> k.pc == Finished(Slept))
    && (Handle(k.pc).Some? ==> Handle(k.pc).value < s.made && OwnTimer(s, Handle(k.pc).value, c))
  }

  // The timer a waiting call will cancel.
  function Handle(pc: Pc): Option<nat> {
    match pc
    case Adding(t) => t
    case Parked(t) => t
    case Woken(t, _) => t
    case _ => None
  }

  ghost predicate OwnTimer(s: State, t: nat, c: nat) {
    t in s.timers ==> s.timers[t].call == c
  }

  ghost predicate TimersInv(s: State) {
    && (forall t :: t in s.timers ==> TimerOk(s, t, s.timers[t]) && t !in s.due)
    && (forall t :: t in s.due ==> TimerOk(s, t, s.due[t]) && s.due[t].next <= s.now && s.due[t].call in s.expired)
  }

  ghost predicate CallsInv(s: State) {
    && (forall c :: 0 <= c < |s.calls| ==> CallOk(s, c))
    && (forall c :: c in s.woken ==> c < |s.calls|)
    && (forall i, j :: 0 <= i < j < |s.woken| ==> s.woken[i] != s.woken[j])
  }

  ghost predicate Inv(s: State) { TimersInv(s) && CallsInv(s) }

  // ---- steps ----

  // Timers and callbacks that stay keep their facts when the call records
  // change only in where the call is and in its flag.
  ghost predicate SameCalls(s: State, t: State) {
    && |s.calls| <= |t.calls| && s.made <= t.made && s.now <= t.now && s.expired <= t.expired
    && forall c :: 0 <= c < |s.calls| ==>
      var k, l := s.calls[c], t.calls[c];
      && l.kind == k.kind && l.key == k.key && l.to == k.to && (k.first.Some? ==> l.first == k.first)
      && (k.kind.Sleep? ==> l.pc == k.pc)
  }

  lemma TimersStay(s: State, t: State)
    requires TimersInv(s) && SameCalls(s, t)
    requires forall x :: x in t.timers ==> x in s.timers && t.timers[x] == s.timers[x]
    requires forall x :: x in t.due ==> x in s.due && t.due[x] == s.due[x]
    ensures TimersInv(t)
  {
    forall x | x in t.timers ensures TimerOk(t, x, t.timers[x]) && x !in t.due {
      assert TimerOk(s, x, s.timers[x]);
    }
    forall x | x in t.due ensures TimerOk(t, x, t.due[x]) {
      assert TimerOk(s, x, s.due[x]);
    }
  }

  // A waiting call, not a sleep, moves on; it may drop its own timer.
  lemma MoveInv(s: State, t: State, c: nat, l: Call)
    requires Inv(s) && IsCall(s, c) && !s.calls[c].kind.Sleep?
    requires t.calls == s.calls[c := l] && l == s.calls[c].(pc := l.pc, story := l.story)
    requires !l.pc.Asleep? && l.pc != Finished(Slept) && (l.pc == Finished(TimedOut) ==> l.cancelled)
    requires Handle(l.pc).Some? ==> Handle(l.pc) == Handle(s.calls[c].pc)
    requires t.timers == s.timers || (Handle(s.calls[c].pc).Some? && t.timers == s.timers - {Handle(s.calls[c].pc).value})
    requires t.due == s.due && t.made == s.made && t.now == s.now && t.expired == s.expired && t.woken == s.woken
    ensures Inv(t)
  {
    assert CallOk(s, c);
    assert forall x :: x in s.timers && s.calls[s.timers[x].call].kind.Sleep? ==> x in t.timers;
    TimersStay(s, t);
    forall d | 0 <= d < |t.calls| ensures CallOk(t, d) {
      assert CallOk(s, d);
    }
  }

  lemma DispatchedInv(s: State, k: Key, cause: Cause)
    requires Inv(s)
    ensures Inv(Dispatched(s, k, cause))
  {
    if k in s.slots && IsCall(s, s.slots[k]) && s.calls[s.slots[k]].pc.Parked? {
      var c := s.slots[k];
      assert CallOk(s, c);
      MoveInv(s, Dispatched(s, k, cause), c, s.calls[c].(pc := Woken(s.calls[c].pc.t, cause)));
    } else {
      SlotsDoNotMatter(s, Dispatched(s, k, cause));
    }
  }

  lemma SlotsDoNotMatter(s: State, t: State)
    requires Inv(s) && t == s.(slots := t.slots, firing := t.firing)
    ensures Inv(t)
  {
    TimersStay(s, t);
    forall d | 0 <= d < |t.calls| ensures CallOk(t, d) {
      assert CallOk(s, d);
    }
  }

  lemma ToldInv(s: State, c: nat, story: Story, slots: map<Key, nat>)
    requires Inv(s) && IsCall(s, c)
    ensures Inv(Told(s, c, story).(slots := slots))
  {
    var t := Told(s, c, story).(slots := slots);
    TimersStay(s, t);
    forall d | 0 <= d < |t.calls| ensures CallOk(t, d) {
      assert CallOk(s, d);
    }
  }

  lemma WaitStepInv(s: State, step: Step)
    requires Inv(s) && Enabled(s, step)
    requires step.Succeed? || step.Again? || step.Register? || step.CancelTimer? || step.Check?
    ensures Inv(Do(s, step))
  {
    assert CallOk(s, step.c);
    MoveInv(s, Do(s, step), step.c, Do(s, step).calls[step.c]);
  }

  lemma BeginInv(s: State, step: Step)
    requires Inv(s) && Enabled(s, step) && step.Begin?
    ensures Inv(Do(s, step))
  {
    var t := Do(s, step);
    TimersStay(s, t);
    forall d | 0 <= d < |t.calls| ensures CallOk(t, d) {
      assert d < |s.calls| ==> CallOk(s, d);
    }
  }

  lemma TickInv(s: State, now: nat)
    requires Inv(s) && s.now <= now
    ensures Inv(s.(now := now))
  {
    var t := s.(now := now);
    TimersStay(s, t);
    forall d | 0 <= d < |t.calls| ensures CallOk(t, d) {
      assert CallOk(s, d);
    }
  }

  lemma ArmTimers(s: State, c: nat)
    requires Inv(s) && Enabled(s, Arm(c))
    ensures TimersInv(Armed(s, c))
  {
    var t := Armed(s, c);
    assert CallOk(s, c);
    assert Fits(t.calls[c], s.made, t.timers[s.made], t.now);
    forall x | x in s.timers ensures TimerOk(t, x, s.timers[x]) && x != s.made {
      assert TimerOk(s, x, s.timers[x]);
    }
    forall x | x in s.due ensures TimerOk(t, x, s.due[x]) && x != s.made {
      assert TimerOk(s, x, s.due[x]);
    }
  }

  lemma ArmCall(s: State, c: nat, d: nat)
    requires Inv(s) && Enabled(s, Arm(c)) && IsCall(s, d)
    ensures CallOk(Armed(s, c), d)
  {
    assert CallOk(s, d) && CallOk(s, c);
    assert s.made !in s.timers by {
      assert s.made in s.timers ==> TimerOk(s, s.made, s.timers[s.made]);
    }
  }

  lemma ArmInv(s: State, c: nat)
    requires Inv(s) && Enabled(s, Arm(c))
    ensures Inv(Armed(s, c))
  {
    var t := Armed(s, c);
    ArmTimers(s, c);
    forall d | 0 <= d < |t.calls| ensures CallOk(t, d) {
      ArmCall(s, c, d);
    }
  }

  lemma CollectInv(s: State, x: nat)
    requires Inv(s) && Enabled(s, Collect(x))
    ensures Inv(Do(s, Collect(x)))
  {
    var t := Do(s, Collect(x));
    forall y | y in t.timers ensures TimerOk(t, y, t.timers[y]) && y !in t.due {
      assert TimerOk(s, y, s.timers[y]);
    }
    forall y | y in t.due ensures TimerOk(t, y, t.due[y]) && t.due[y].next <= t.now && t.due[y].call in t.expired {
      assert TimerOk(s, y, if y == x then s.timers[y] else s.due[y]);
    }
    forall d | 0 <= d < |t.calls| ensures CallOk(t, d) {
      assert CallOk(s, d);
    }
  }

  // A collected timer has run its full time.
  lemma DueIsRipe(s: State, x: nat)
    requires Inv(s) && x in s.due
    ensures IsCall(s, s.due[x].call) && Ripe(s.calls[s.due[x].call], s.now)
  {
    assert TimerOk(s, x, s.due[x]);
  }

  lemma DropDue(s: State, x: nat)
    requires Inv(s) && x in s.due && !s.calls[s.due[x].call].kind.Sleep?
    ensures Inv(s.(due := s.due - {x}))
  {
    var t := s.(due := s.due - {x});
    TimersStay(s, t);
    forall d | 0 <= d < |t.calls| ensures CallOk(t, d) {
      assert CallOk(s, d);
    }
  }

  lemma FlagInv(s: State, c: nat, firing: map<nat, Firing>)
    requires Inv(s) && IsCall(s, c) && !s.calls[c].kind.Sleep? && Ripe(s.calls[c], s.now) && c in s.expired
    ensures Inv(s.(calls := s.calls[c := s.calls[c].(cancelled := true)], firing := firing))
  {
    var t := s.(calls := s.calls[c := s.calls[c].(cancelled := true)], firing := firing);
    TimersStay(s, t);
    forall d | 0 <= d < |t.calls| ensures CallOk(t, d) {
      assert CallOk(s, d);
    }
  }

  lemma SetFlagInv(s: State, x: nat)
    requires Inv(s) && Enabled(s, SetFlag(x))
    ensures Inv(Do(s, SetFlag(x)))
  {
    var c := s.due[x].call;
    DueIsRipe(s, x);
    DropDue(s, x);
    if !s.calls[c].pc.Finished? && !s.calls[c].cancelled {
      FlagInv(s.(due := s.due - {x}), c, s.firing[x := Firing(c, s.calls[c].key)]);
    }
  }

  // No other timer belongs to the sleeping call.
  lemma SleeperTimers(s: State, x: nat)
    requires Inv(s) && Enabled(s, WakeSleeper(x))
    ensures TimersInv(Do(s, WakeSleeper(x)))
  {
    var t := Do(s, WakeSleeper(x));
    assert TimerOk(s, x, s.due[x]);
    forall y | y in t.timers ensures TimerOk(t, y, t.timers[y]) && y !in t.due {
      assert TimerOk(s, y, s.timers[y]);
    }
    forall y | y in t.due ensures TimerOk(t, y, t.due[y]) {
      assert TimerOk(s, y, s.due[y]);
    }
  }

  lemma WakeSleeperInv(s: State, x: nat)
    requires Inv(s) && Enabled(s, WakeSleeper(x))
    ensures Inv(Do(s, WakeSleeper(x)))
  {
    var t := Do(s, WakeSleeper(x));
    var c := s.due[x].call;
    SleeperTimers(s, x);
    DueIsRipe(s, x);
    assert TimerOk(s, x, s.due[x]) && CallOk(s, c);
    forall d | 0 <= d < |t.calls| ensures CallOk(t, d) {
      assert CallOk(s, d);
    }
  }

  lemma StepInv(s: State, step: Step)
    requires Inv(s) && Enabled(s, step)
    ensures Inv(Do(s, step))
  {
    match step
    case Begin(_, _, _) => BeginInv(s, step);
    case Arm(c) => ArmInv(s, c);
    case Settle(c, ok) => ToldInv(s, c, s.calls[c].story.(progress := if ok then Established else Failed), s.slots);
    case Ready(k) => DispatchedInv(s, k, Readiness);
    case Dispatch(k) => DispatchedInv(s, k, Other);
    case Delete(k) =>
      if IsCall(s, s.slots[k]) {
        ToldInv(s, s.slots[k], s.calls[s.slots[k]].story.(unlisted := true), s.slots - {k});
      } else {
        SlotsDoNotMatter(s, Do(s, step));
      }
    case Collect(x) => CollectInv(s, x);
    case SetFlag(x) => SetFlagInv(s, x);
    case Fire(x) =>
      DispatchedInv(s, s.firing[x].key, Other);
      SlotsDoNotMatter(Dispatched(s, s.firing[x].key, Other), Do(s, step));
    case WakeSleeper(x) => WakeSleeperInv(s, x);
    case Tick(now) => TickInv(s, now);
    case _ => WaitStepInv(s, step);
  }

  lemma {:induction false} RunInv(s: State, run: seq<Step>)
    requires Inv(s) && Legal(s, run)
    ensures Inv(Final(s, run))
    decreases |run|
  {
    if run != [] {
      StepInv(s, run[0]);
      RunInv(Do(s, run[0]), run[1..]);
    }
  }

  // ---- honest timeouts ----

  // Over all retries and interleavings, a call reports its own ETIMEDOUT only
  // if a timer made by that same call expired, and not before its whole timeout
  // has passed since it first waited.
  lemma HonestTimeouts(s: State, run: seq<Step>, c: nat)
    requires Init(s) && Legal(s, run)
    requires IsCall(Final(s, run), c) && Final(s, run).calls[c].pc == Finished(TimedOut)
    ensures var t := Final(s, run); var k := t.calls[c];
      && c in t.expired && k.to.Some? && k.first.Some?
      && (t.now + k.to.value < WORD ==> k.first.value + k.to.value <= t.now)
  {
    RunInv(s, run);
    assert CallOk(Final(s, run), c);
  }

  // Another call's timeout callback never sets this call's flag: at worst it
  // wakes the call, as something else than readiness.
  lemma ForeignCallbackOnlyWakes(s: State, step: Step, d: nat)
    requires Enabled(s, step) && IsCall(s, d)
    requires step.Fire? || (step.SetFlag? && (s.due[step.t].call != d || s.calls[d].pc.Finished?))
    ensures var k, l := s.calls[d], Do(s, step).calls[d];
      l == k || (k.pc.Parked? && l == k.(pc := Woken(k.pc.t, Other)))
  {
  }

  // What a woken call without the flag set then does: do_io goes back to its
  // system call, connect reports.
  lemma WokenWithoutFlag(s: State, c: nat)
    requires Enabled(s, CancelTimer(c)) && !s.calls[c].cancelled
    ensures var t := Do(s, CancelTimer(c));
      && Enabled(t, Check(c))
      && var k, l := s.calls[c], Do(t, Check(c)).calls[c];
        && (k.kind.Connect? ==> l.pc == Finished(Reported(!k.story.progress.Failed?)))
        && (!k.kind.Connect? ==> l == k.(pc := Trying))
  {
  }

  // ---- sleep ----

  // A sleeping fiber is scheduled exactly once: until then its timer, or that
  // timer's collected callback, is there; it is not scheduled twice, and not
  // before the time asked for has passed.
  lemma SleepsOnceAndLongEnough(s: State, run: seq<Step>, c: nat)
    requires Init(s) && Legal(s, run) && IsCall(Final(s, run), c) && Final(s, run).calls[c].kind.Sleep?
    ensures var t := Final(s, run); var k := t.calls[c];
      && (k.pc.Asleep? ==> c !in t.woken && (k.pc.timer in t.timers) != (k.pc.timer in t.due) && Holds(t, k.pc.timer, c))
      && (!k.pc.Asleep? && !k.pc.Arming? ==> c in t.woken)
      && (forall i, j :: 0 <= i < j < |t.woken| ==> t.woken[i] != t.woken[j])
      && (c in t.woken ==> Ripe(k, t.now))
  {
    RunInv(s, run);
    assert CallOk(Final(s, run), c);
  }

  const UINT: nat := 0x1_0000_0000

  // sleep: seconds * 1000 as unsigned int.
  function SleepMs(seconds: nat): nat { (seconds * 1000) % UINT }

  // usleep: whole milliseconds.
  function UsleepMs(usec: nat): nat { usec / 1000 }

  // nanosleep: the sum narrowed to int, then widened to uint64_t.
  function NanosleepMs(sec: nat, nsec: nat): nat {
    var low := (sec * 1000 + nsec / 1000000) % UINT;
    if low < UINT / 2 then low else WORD - UINT + low
  }

  // A sleep asked for at `now` is not shortened exactly when the product fits
  // 32 bits.
  lemma SleepIsLongEnoughIff(now: nat, seconds: nat)
    requires now + seconds * 1000 < WORD
    ensures now + seconds * 1000 <= Wrap(now + SleepMs(seconds)) <==> seconds * 1000 < 4294967296
  {
  }

  // usleep loses less than a millisecond.
  lemma UsleepIsLongEnough(now: nat, usec: nat)
    requires now + usec < WORD
    ensures usec - 1000 < (Wrap(now + UsleepMs(usec)) - now) * 1000 <= usec
  {
  }

  // A nanosleep is not shortened exactly when its milliseconds fit a signed int;
  // beyond that it can even come out negative and expire at once.
  lemma NanosleepIsLongEnoughIff(now: nat, sec: nat, nsec: nat)
    requires nsec < 1000000000 && UINT <= now && now + sec * 1000 + 1000 < WORD
    ensures var ms := sec * 1000 + nsec / 1000000;
      now + ms <= Wrap(now + NanosleepMs(sec, nsec)) <==> ms < 2147483648
  {
    var ms := sec * 1000 + nsec / 1000000;
    var low := ms % UINT;
    if low >= UINT / 2 {
      assert now + NanosleepMs(sec, nsec) == WORD + (now - (UINT - low));
    }
  }

  // The example: 2147484 s is over by 352 ms, comes out as a negative int, and
  // the deadline lies in the past.
  lemma NanosleepExpiresAtOnce(now: nat)
    requires UINT <= now && now + UINT < WORD
    ensures Wrap(now + NanosleepMs(2147484, 0)) < now
  {
    assert NanosleepMs(2147484, 0) == WORD - UINT + 2147484000;
    assert now + NanosleepMs(2147484, 0) == WORD + (now - (UINT - 2147484000));
  }
}
