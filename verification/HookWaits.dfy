/**
 * The waits of the hooked calls (src/hook.cpp:93-127, 229-272): parked calls and
 * their registrations, the timeouts still on their way to them, and what connect
 * makes of being woken.
 */
module HookWaits {
  import opened Basics
  import opened Timers
  import opened HookCalls

  // ---- connect ----

  // Readiness comes only once the attempt is settled, and connect reports from
  // what it saw.
  ghost predicate ConnectOk(k: Call) {
    && (k.kind.Connect? && (k.pc.Woken? || k.pc.Checking?) && k.pc.cause.Readiness? ==> !k.story.progress.InProgress?)
    && (k.pc.Finished? && k.pc.r.Reported? ==>
      && k.kind.Connect?
      && k.pc.r.success == !k.story.seen.Failed?
      && (k.story.cause.Readiness? ==> !k.story.seen.InProgress?))
  }

  ghost predicate ConnectsOk(s: State) {
    forall c :: 0 <= c < |s.calls| ==> ConnectOk(s.calls[c])
  }

  lemma CallConnects(s: State, step: Step, c: nat)
    requires Enabled(s, step) && IsCall(s, c) && ConnectOk(s.calls[c])
    ensures IsCall(Do(s, step), c) && ConnectOk(Do(s, step).calls[c])
  {
  }

  lemma StepConnects(s: State, step: Step)
    requires ConnectsOk(s) && Enabled(s, step)
    ensures ConnectsOk(Do(s, step))
  {
    var t := Do(s, step);
    forall c | 0 <= c < |t.calls| ensures ConnectOk(t.calls[c]) {
      if c < |s.calls| {
        CallConnects(s, step, c);
      }
    }
  }

  lemma {:induction false} RunConnects(s: State, run: seq<Step>)
    requires ConnectsOk(s) && Legal(s, run)
    ensures ConnectsOk(Final(s, run))
    decreases |run|
  {
    if run != [] {
      StepConnects(s, run[0]);
      RunConnects(Do(s, run[0]), run[1..]);
    }
  }

  // What connect reports after a wait, in every run: an error is always a failed
  // attempt, and a success after readiness an established connection. Woken by
  // anything else, connect may also report success while the attempt is still in
  // progress, because the kernel then says 0.
  lemma ConnectReports(s: State, run: seq<Step>, c: nat)
    requires Init(s) && Legal(s, run) && IsCall(Final(s, run), c)
    requires var k := Final(s, run).calls[c]; k.pc.Finished? && k.pc.r.Reported?
    ensures var k := Final(s, run).calls[c];
      && k.kind.Connect?
      && (!k.pc.r.success ==> k.story.seen == Failed)
      && (k.pc.r.success && k.story.cause == Readiness ==> k.story.seen == Established)
  {
    RunConnects(s, run);
  }

  // A step wakes a connect while its attempt is in progress; it is not readiness.
  ghost predicate Disturbs(s: State, step: Step, c: nat)
    requires Enabled(s, step)
  {
    && IsCall(s, c) && IsCall(Do(s, step), c)
    && s.calls[c].kind.Connect? && s.calls[c].story.progress.InProgress?
    && s.calls[c].pc.Parked? && Do(s, step).calls[c].pc.Woken?
  }

  ghost predicate Undisturbed(s: State, run: seq<Step>, c: nat)
    requires Legal(s, run)
    decreases |run|
  {
    run == [] || (!Disturbs(s, run[0], c) && Undisturbed(Do(s, run[0]), run[1..], c))
  }

  // Nothing but readiness has woken connect c while its attempt was in progress.
  ghost predicate Genuine(s: State, c: nat) {
    IsCall(s, c) ==> var k := s.calls[c];
      && (k.kind.Connect? && (k.pc.Woken? || k.pc.Checking?) ==> !k.story.progress.InProgress?)
      && (k.pc == Finished(Reported(true)) ==> k.story.seen == Established)
  }

  lemma StepGenuine(s: State, step: Step, c: nat)
    requires Genuine(s, c) && Enabled(s, step) && !Disturbs(s, step, c)
    ensures Genuine(Do(s, step), c)
  {
  }

  // Its success is then genuine.
  lemma {:induction false} UndisturbedIsGenuine(s: State, run: seq<Step>, c: nat)
    requires Genuine(s, c) && Legal(s, run) && Undisturbed(s, run, c)
    ensures Genuine(Final(s, run), c)
    decreases |run|
  {
    if run != [] {
      StepGenuine(s, run[0], c);
      UndisturbedIsGenuine(Do(s, run[0]), run[1..], c);
    }
  }

  // And every step that disturbs it can end in a false success: nothing more is
  // needed than that connect goes on before the attempt is settled.
  lemma DisturbedIsFooled(s: State, step: Step, c: nat)
    requires Enabled(s, step) && Disturbs(s, step, c) && !s.calls[c].cancelled
    ensures var run := [step, CancelTimer(c), Check(c)];
      Legal(s, run) && IsCall(Final(s, run), c) && Fooled(Final(s, run).calls[c])
      && |Final(s, run).calls| == |s.calls|
  {
    var s1 := Do(s, step);
    WokenByOne(s, step, c);
    var s2 := Do(s1, CancelTimer(c));
    var s3 := Do(s2, Check(c));
    assert s2.calls[c] == s1.calls[c].(pc := Checking(s1.calls[c].pc.cause));
    Prepend(s2, Check(c), []);
    Prepend(s1, CancelTimer(c), [Check(c)] + []);
    Prepend(s, step, [CancelTimer(c)] + ([Check(c)] + []));
    assert [step, CancelTimer(c), Check(c)] == [step] + ([CancelTimer(c)] + ([Check(c)] + []));
  }

  predicate IsWake(step: Step) { step.Ready? || step.Dispatch? || step.Fire? }

  lemma OnlyWakesWake(s: State, step: Step, c: nat)
    requires Enabled(s, step) && IsCall(s, c) && s.calls[c].pc.Parked? && !IsWake(step)
    ensures IsCall(Do(s, step), c) && !Do(s, step).calls[c].pc.Woken?
  {
  }

  lemma WokenByOne(s: State, step: Step, c: nat)
    requires Enabled(s, step) && Disturbs(s, step, c)
    ensures |Do(s, step).calls| == |s.calls| && Do(s, step).calls[c] == s.calls[c].(pc := Do(s, step).calls[c].pc)
  {
    if !IsWake(step) {
      OnlyWakesWake(s, step, c);
    }
  }

  // ---- registrations and timeouts ----

  ghost predicate SlotOk(s: State, k: Key) {
    k in s.slots ==> IsCall(s, s.slots[k]) && var l := s.calls[s.slots[k]]; l.pc.Parked? && l.key == k && !l.story.unlisted
  }

  ghost predicate FireOk(s: State, x: nat) {
    x in s.firing ==>
      && x < s.made && x !in s.timers && x !in s.due
      && var f := s.firing[x]; IsCall(s, f.call) && s.calls[f.call].cancelled && f.key == s.calls[f.call].key
  }

  ghost predicate Listed(s: State, c: nat)
    requires IsCall(s, c)
  {
    s.calls[c].key in s.slots && s.slots[s.calls[c].key] == c
  }

  // A parked call is registered; a call on its way to park, or parked, whose flag
  // is clear still has its timer or the collected callback; and the flag of a
  // parked call is set only with the cancelEvent still to come, or it is deaf.
  ghost predicate WaitOk(s: State, c: nat)
    requires IsCall(s, c)
  {
    var k := s.calls[c];
    && (k.pc.Parked? && !k.story.unlisted ==> Listed(s, c))
    && ((k.pc.Adding? || k.pc.Parked?) && k.pc.t.Some? && !k.cancelled ==> Holds(s, k.pc.t.value, c))
    && (k.pc.Parked? && !k.cancelled ==> !k.story.deaf)
    && (k.pc.Parked? && k.cancelled && !k.story.unlisted ==> (k.story.deaf <==> !CancelComing(s, c)))
  }

  ghost predicate Waits(s: State) {
    && (forall k :: SlotOk(s, k))
    && (forall x :: FireOk(s, x))
    && (forall x, y :: x in s.firing && y in s.firing && s.firing[x].call == s.firing[y].call ==> x == y)
    && (forall c :: 0 <= c < |s.calls| ==> WaitOk(s, c))
  }

  // ---- every step keeps it ----

  // A call that is not parked moves on and does not park; the others keep their
  // timers.
  lemma MoveWaits(s: State, t: State, c: nat, l: Call)
    requires Waits(s) && IsCall(s, c) && t.calls == s.calls[c := l] && t.slots == s.slots && t.firing == s.firing
    requires !s.calls[c].pc.Parked? && !l.pc.Parked? && l.cancelled == s.calls[c].cancelled && l.key == s.calls[c].key
    requires l.pc.Adding? && l.pc.t.Some? && !l.cancelled ==> Holds(t, l.pc.t.value, c)
    requires forall d: nat, x: nat :: d != c && Holds(s, x, d) ==> Holds(t, x, d)
    requires s.made <= t.made && forall x :: x in t.timers || x in t.due ==> x in s.timers || x in s.due || x >= s.made
    ensures Waits(t)
  {
    forall k ensures SlotOk(t, k) {
      assert SlotOk(s, k);
    }
    forall x ensures FireOk(t, x) {
      assert FireOk(s, x);
    }
    forall d | 0 <= d < |t.calls| ensures WaitOk(t, d) {
      assert WaitOk(s, d);
      assert CancelComing(t, d) == CancelComing(s, d);
    }
  }

  lemma MoveStepWaits(s: State, step: Step)
    requires Inv(s) && Waits(s) && Enabled(s, step)
    requires step.Succeed? || step.Again? || step.CancelTimer? || step.Check?
    ensures Waits(Do(s, step))
  {
    assert CallOk(s, step.c);
    MoveWaits(s, Do(s, step), step.c, Do(s, step).calls[step.c]);
  }

  lemma ArmWaits(s: State, c: nat)
    requires Inv(s) && Waits(s) && Enabled(s, Arm(c))
    ensures Waits(Armed(s, c))
  {
    assert s.made !in s.timers by {
      assert s.made in s.timers ==> TimerOk(s, s.made, s.timers[s.made]);
    }
    MoveWaits(s, Armed(s, c), c, Armed(s, c).calls[c]);
  }

  lemma WakeSleeperWaits(s: State, x: nat)
    requires Inv(s) && Waits(s) && Enabled(s, WakeSleeper(x))
    ensures Waits(Do(s, WakeSleeper(x)))
  {
    var c := s.due[x].call;
    assert TimerOk(s, x, s.due[x]);
    MoveWaits(s, Do(s, WakeSleeper(x)), c, s.calls[c].(pc := Finished(Slept)));
  }

  lemma RegisterWaits(s: State, c: nat)
    requires Waits(s) && Enabled(s, Register(c))
    ensures Waits(Do(s, Register(c)))
  {
    var t := Do(s, Register(c));
    assert WaitOk(s, c);
    forall k ensures SlotOk(t, k) {
      assert SlotOk(s, k);
    }
    forall x ensures FireOk(t, x) {
      assert FireOk(s, x);
    }
    forall d | 0 <= d < |t.calls| ensures WaitOk(t, d) {
      assert WaitOk(s, d);
      assert CancelComing(t, d) == CancelComing(s, d);
    }
  }

  // Dispatching a key wakes its call and no other.
  lemma DispatchedWaits(s: State, k: Key, cause: Cause)
    requires Waits(s)
    ensures Waits(Dispatched(s, k, cause))
    ensures forall c :: 0 <= c < |s.calls| && s.calls[c].key == k && !s.calls[c].story.unlisted ==> !Dispatched(s, k, cause).calls[c].pc.Parked?
  {
    var t := Dispatched(s, k, cause);
    assert SlotOk(s, k);
    forall j ensures SlotOk(t, j) {
      assert SlotOk(s, j);
    }
    forall x ensures FireOk(t, x) {
      assert FireOk(s, x);
    }
    forall d | 0 <= d < |t.calls| ensures WaitOk(t, d) {
      assert WaitOk(s, d);
      assert CancelComing(t, d) == CancelComing(s, d);
    }
    forall c | 0 <= c < |s.calls| && s.calls[c].key == k && !s.calls[c].story.unlisted ensures !t.calls[c].pc.Parked? {
      assert WaitOk(s, c);
    }
  }

  lemma DropFiring(s: State, x: nat)
    requires Waits(s) && x in s.firing && IsCall(s, s.firing[x].call)
    requires var k := s.calls[s.firing[x].call]; k.pc.Parked? ==> k.story.unlisted
    ensures Waits(s.(firing := s.firing - {x}))
  {
    var t := s.(firing := s.firing - {x});
    forall j ensures SlotOk(t, j) {
      assert SlotOk(s, j);
    }
    forall y ensures FireOk(t, y) {
      assert FireOk(s, y);
    }
    forall d | 0 <= d < |t.calls| ensures WaitOk(t, d) {
      assert WaitOk(s, d);
      if d != s.firing[x].call && CancelComing(s, d) {
        var y :| y in s.firing && s.firing[y].call == d;
        assert y in t.firing;
      }
    }
  }

  // The cancelEvent of a timeout callback is done: its own call, if parked and
  // registered, is awake now.
  lemma FireWaits(s: State, x: nat)
    requires Waits(s) && Enabled(s, Fire(x))
    ensures Waits(Do(s, Fire(x)))
  {
    assert FireOk(s, x);
    var f := s.firing[x];
    DispatchedWaits(s, f.key, Other);
    DropFiring(Dispatched(s, f.key, Other), x);
  }

  lemma DeleteWaits(s: State, k: Key)
    requires Waits(s) && Enabled(s, Delete(k))
    ensures Waits(Do(s, Delete(k)))
  {
    var t := Do(s, Delete(k));
    assert SlotOk(s, k);
    forall j ensures SlotOk(t, j) {
      assert SlotOk(s, j);
    }
    forall x ensures FireOk(t, x) {
      assert FireOk(s, x);
    }
    forall d | 0 <= d < |t.calls| ensures WaitOk(t, d) {
      assert WaitOk(s, d);
      assert CancelComing(t, d) == CancelComing(s, d);
    }
  }

  lemma DropDueWaits(s: State, x: nat)
    requires Waits(s) && x in s.due
    requires IsCall(s, s.due[x].call) && (s.calls[s.due[x].call].cancelled || s.calls[s.due[x].call].pc.Finished?)
    ensures Waits(s.(due := s.due - {x}))
  {
    var t := s.(due := s.due - {x});
    forall j ensures SlotOk(t, j) {
      assert SlotOk(s, j);
    }
    forall y ensures FireOk(t, y) {
      assert FireOk(s, y);
    }
    forall d | 0 <= d < |t.calls| ensures WaitOk(t, d) {
      assert WaitOk(s, d);
      assert CancelComing(t, d) == CancelComing(s, d);
    }
  }

  lemma FlagFires(s: State, x: nat, y: nat)
    requires Inv(s) && Waits(s) && Enabled(s, SetFlag(x)) && !s.calls[s.due[x].call].pc.Finished? && !s.calls[s.due[x].call].cancelled
    ensures FireOk(Do(s, SetFlag(x)), y)
    ensures y in s.firing ==> y != x && s.firing[y].call != s.due[x].call
  {
    assert FireOk(s, y) && FireOk(s, x) && TimerOk(s, x, s.due[x]);
  }

  lemma SetFlagWaits(s: State, x: nat)
    requires Inv(s) && Waits(s) && Enabled(s, SetFlag(x))
    ensures Waits(Do(s, SetFlag(x)))
  {
    var t := Do(s, SetFlag(x));
    var c := s.due[x].call;
    if s.calls[c].pc.Finished? || s.calls[c].cancelled {
      DropDueWaits(s, x);
    } else {
      forall j ensures SlotOk(t, j) {
        assert SlotOk(s, j);
      }
      forall y ensures FireOk(t, y) {
        FlagFires(s, x, y);
      }
      forall y, z | y in t.firing && z in t.firing && t.firing[y].call == t.firing[z].call ensures y == z {
        FlagFires(s, x, y);
        FlagFires(s, x, z);
      }
      forall d | 0 <= d < |t.calls| ensures WaitOk(t, d) {
        SetFlagWait(s, x, d);
      }
    }
  }

  lemma SetFlagWait(s: State, x: nat, d: nat)
    requires Inv(s) && Waits(s) && Enabled(s, SetFlag(x)) && IsCall(s, d)
    requires !s.calls[s.due[x].call].pc.Finished? && !s.calls[s.due[x].call].cancelled
    ensures WaitOk(Do(s, SetFlag(x)), d)
  {
    var t := Do(s, SetFlag(x));
    assert WaitOk(s, d);
    FlagFires(s, x, x);
    if d == s.due[x].call {
      assert x in t.firing && t.firing[x].call == d;
    } else {
      assert forall y :: y in t.firing && t.firing[y].call == d <==> y in s.firing && s.firing[y].call == d;
      assert CancelComing(t, d) == CancelComing(s, d);
    }
  }

  lemma CollectWaits(s: State, x: nat)
    requires Inv(s) && Waits(s) && Enabled(s, Collect(x))
    ensures Waits(Do(s, Collect(x)))
  {
    var t := Do(s, Collect(x));
    forall j ensures SlotOk(t, j) {
      assert SlotOk(s, j);
    }
    forall y ensures FireOk(t, y) {
      assert FireOk(s, y);
    }
    forall d | 0 <= d < |t.calls| ensures WaitOk(t, d) {
      assert WaitOk(s, d);
      assert CancelComing(t, d) == CancelComing(s, d);
    }
  }

  lemma OtherWaits(s: State, step: Step)
    requires Waits(s) && Enabled(s, step) && (step.Begin? || step.Settle? || step.Tick?)
    ensures Waits(Do(s, step))
  {
    var t := Do(s, step);
    forall j ensures SlotOk(t, j) {
      assert SlotOk(s, j);
    }
    forall y ensures FireOk(t, y) {
      assert FireOk(s, y);
    }
    forall d | 0 <= d < |t.calls| ensures WaitOk(t, d) {
      assert d < |s.calls| ==> WaitOk(s, d);
      assert CancelComing(t, d) == CancelComing(s, d);
    }
  }

  lemma StepWaits(s: State, step: Step)
    requires Inv(s) && Waits(s) && Enabled(s, step)
    ensures Waits(Do(s, step))
  {
    match step
    case Arm(c) => ArmWaits(s, c);
    case Register(c) => RegisterWaits(s, c);
    case Ready(k) => DispatchedWaits(s, k, Readiness);
    case Dispatch(k) => DispatchedWaits(s, k, Other);
    case Delete(k) => DeleteWaits(s, k);
    case Collect(x) => CollectWaits(s, x);
    case SetFlag(x) => SetFlagWaits(s, x);
    case Fire(x) => FireWaits(s, x);
    case WakeSleeper(x) => WakeSleeperWaits(s, x);
    case Begin(_, _, _) => OtherWaits(s, step);
    case Settle(_, _) => OtherWaits(s, step);
    case Tick(_) => OtherWaits(s, step);
    case _ => MoveStepWaits(s, step);
  }

  lemma {:induction false} RunWaits(s: State, run: seq<Step>)
    requires Inv(s) && Waits(s) && Legal(s, run)
    ensures Inv(Final(s, run)) && Waits(Final(s, run))
    decreases |run|
  {
    if run != [] {
      StepInv(s, run[0]);
      StepWaits(s, run[0]);
      RunWaits(Do(s, run[0]), run[1..]);
    }
  }

  // The disturbing steps, to be checked before they are made: a dispatch of the
  // key other than readiness, or a timeout callback's cancelEvent on the key,
  // while the connect is parked on it and in progress.
  lemma DisturbsIff(s: State, step: Step, c: nat)
    requires Waits(s) && Enabled(s, step) && IsCall(s, c)
    ensures Disturbs(s, step, c) <==> var k := s.calls[c];
      && k.kind.Connect? && k.story.progress.InProgress? && k.pc.Parked? && !k.story.unlisted
      && (step == Dispatch(k.key) || (step.Fire? && s.firing[step.t].key == k.key))
  {
    assert WaitOk(s, c) && SlotOk(s, s.calls[c].key);
    if IsWake(step) {
      assert SlotOk(s, if step.Fire? then s.firing[step.t].key else step.key);
    } else if s.calls[c].pc.Parked? {
      OnlyWakesWake(s, step, c);
    }
  }

  // ---- timeouts that reach their call ----

  // A timeout is still on its way to a call: its timer or collected callback
  // while the flag is clear, its cancelEvent once it is set.
  ghost predicate TimeoutComing(s: State, c: nat, t: nat)
    requires IsCall(s, c)
  {
    if s.calls[c].cancelled then CancelComing(s, c) else Holds(s, t, c)
  }

  // Registrations and waits match in every run: a key is held by a call parked on
  // it, and a parked call holds its key unless delEvent took it away. And a call
  // parked with a timeout still has that timeout coming exactly unless the flag
  // was set and its cancelEvent over when the call registered.
  lemma TimeoutReachesIff(s: State, run: seq<Step>, c: nat)
    requires Init(s) && Legal(s, run) && IsCall(Final(s, run), c)
    requires var k := Final(s, run).calls[c]; k.pc.Parked? && !k.story.unlisted
    ensures var t := Final(s, run); var k := t.calls[c];
      && Listed(t, c)
      && (k.pc.t.Some? ==> (TimeoutComing(t, c, k.pc.t.value) <==> !k.story.deaf))
  {
    RunWaits(s, run);
    assert WaitOk(Final(s, run), c);
  }

  // ---- two runs ----

  lemma Prepend(s: State, step: Step, rest: seq<Step>)
    requires Enabled(s, step) && Legal(Do(s, step), rest)
    ensures Legal(s, [step] + rest) && Final(s, [step] + rest) == Final(Do(s, step), rest)
  {
    assert ([step] + rest)[0] == step && ([step] + rest)[1..] == rest;
  }

  const K: Key := Key(3, true)

  ghost predicate Deaf(s: State) {
    && |s.calls| == 1 && s.calls[0].pc == Parked(Some(0)) && s.calls[0].cancelled && !s.calls[0].story.unlisted
    && s.timers == map[] && s.due == map[] && s.firing == map[]
  }

  // The flag is set and its cancelEvent over between addConditionTimer and
  // addEvent: the call parks, and no timeout will wake it.
  lemma TimeoutComesTooEarly(s: State) returns (run: seq<Step>)
    requires Init(s) && s.now < WORD
    ensures Legal(s, run) && Deaf(Final(s, run))
  {
    var s1 := Do(s, Begin(Io, K, Some(0)));
    var s2 := Do(s1, Again(0));
    var s3 := Do(s2, Arm(0));
    var rest := EarlyEnds(s3);
    Prepend(s2, Arm(0), rest);
    Prepend(s1, Again(0), [Arm(0)] + rest);
    Prepend(s, Begin(Io, K, Some(0)), [Again(0)] + ([Arm(0)] + rest));
    run := [Begin(Io, K, Some(0))] + ([Again(0)] + ([Arm(0)] + rest));
  }

  lemma EarlyEnds(s: State) returns (run: seq<Step>)
    requires |s.calls| == 1 && s.calls[0].pc == Adding(Some(0)) && !s.calls[0].cancelled && s.calls[0].kind.Io?
    requires s.timers.Keys == {0} && s.timers[0].call == 0 && s.timers[0].next <= s.now
    requires s.due == map[] && s.firing == map[] && s.slots == map[]
    ensures Legal(s, run) && Deaf(Final(s, run))
  {
    var s1 := Do(s, Collect(0));
    var s2 := Do(s1, SetFlag(0));
    var s3 := Do(s2, Fire(0));
    assert s1.timers == map[] && s2.due == map[] && s3.firing == map[];
    var s4 := Do(s3, Register(0));
    Prepend(s3, Register(0), []);
    Prepend(s2, Fire(0), [Register(0)] + []);
    Prepend(s1, SetFlag(0), [Fire(0)] + ([Register(0)] + []));
    Prepend(s, Collect(0), [SetFlag(0)] + ([Fire(0)] + ([Register(0)] + [])));
    run := [Collect(0)] + ([SetFlag(0)] + ([Fire(0)] + ([Register(0)] + [])));
  }

  // connect has reported success for an attempt still in progress.
  ghost predicate Fooled(k: Call) {
    k.kind.Connect? && k.pc == Finished(Reported(true)) && k.story.seen == InProgress && k.story.progress == InProgress && !k.cancelled
  }

  // A do_io on the key was woken as its timer expired, went on, and finished
  // after its callback had set the flag; the callback's cancelEvent then hits a
  // connect waiting on the same key.
  lemma ConnectIsFooled(s: State) returns (run: seq<Step>)
    requires Init(s) && s.now < WORD
    ensures Legal(s, run) && |Final(s, run).calls| == 2 && Fooled(Final(s, run).calls[1])
  {
    var s1 := Do(s, Begin(Io, K, Some(0)));
    var s2 := Do(s1, Again(0));
    var s3 := Do(s2, Arm(0));
    var s4 := Do(s3, Register(0));
    var rest := OldCallEnds(s4);
    Prepend(s3, Register(0), rest);
    Prepend(s2, Arm(0), [Register(0)] + rest);
    Prepend(s1, Again(0), [Arm(0)] + ([Register(0)] + rest));
    Prepend(s, Begin(Io, K, Some(0)), [Again(0)] + ([Arm(0)] + ([Register(0)] + rest)));
    run := [Begin(Io, K, Some(0))] + ([Again(0)] + ([Arm(0)] + ([Register(0)] + rest)));
  }

  lemma OldCallEnds(s: State) returns (run: seq<Step>)
    requires |s.calls| == 1 && s.calls[0].pc == Parked(Some(0)) && !s.calls[0].cancelled && s.calls[0].kind.Io? && s.calls[0].key == K
    requires s.timers.Keys == {0} && s.timers[0].call == 0 && s.timers[0].next <= s.now
    requires s.due == map[] && s.firing == map[] && s.slots == map[K := 0]
    ensures Legal(s, run) && |Final(s, run).calls| == 2 && Fooled(Final(s, run).calls[1])
  {
    var s1 := Do(s, Collect(0));
    var s2 := Do(s1, Dispatch(K));
    var s3 := Do(s2, CancelTimer(0));
    var s4 := Do(s3, Check(0));
    assert s2.slots == map[] && s4.calls[0].pc == Trying;
    var rest := OldCallbackFires(s4);
    Prepend(s3, Check(0), rest);
    Prepend(s2, CancelTimer(0), [Check(0)] + rest);
    Prepend(s1, Dispatch(K), [CancelTimer(0)] + ([Check(0)] + rest));
    Prepend(s, Collect(0), [Dispatch(K)] + ([CancelTimer(0)] + ([Check(0)] + rest)));
    run := [Collect(0)] + ([Dispatch(K)] + ([CancelTimer(0)] + ([Check(0)] + rest)));
  }

  lemma OldCallbackFires(s: State) returns (run: seq<Step>)
    requires |s.calls| == 1 && s.calls[0].pc == Trying && !s.calls[0].cancelled && s.calls[0].kind.Io? && s.calls[0].key == K
    requires s.due.Keys == {0} && s.due[0].call == 0 && s.firing == map[] && s.slots == map[]
    ensures Legal(s, run) && |Final(s, run).calls| == 2 && Fooled(Final(s, run).calls[1])
  {
    var s1 := Do(s, SetFlag(0));
    var s2 := Do(s1, Succeed(0));
    var s3 := Do(s2, Begin(Connect, K, None));
    var s4 := Do(s3, Again(1));
    var rest := ConnectEnds(s4);
    Prepend(s3, Again(1), rest);
    Prepend(s2, Begin(Connect, K, None), [Again(1)] + rest);
    Prepend(s1, Succeed(0), [Begin(Connect, K, None)] + ([Again(1)] + rest));
    Prepend(s, SetFlag(0), [Succeed(0)] + ([Begin(Connect, K, None)] + ([Again(1)] + rest)));
    run := [SetFlag(0)] + ([Succeed(0)] + ([Begin(Connect, K, None)] + ([Again(1)] + rest)));
  }

  lemma ConnectEnds(s: State) returns (run: seq<Step>)
    requires |s.calls| == 2 && s.firing == map[0 := Firing(0, K)] && s.slots == map[]
    requires var k := s.calls[1]; k.kind.Connect? && k.key == K && k.pc == Adding(None) && !k.cancelled && k.story.progress == InProgress
    ensures Legal(s, run) && |Final(s, run).calls| == 2 && Fooled(Final(s, run).calls[1])
  {
    var s1 := Do(s, Register(1));
    assert s1.calls[1].pc == Parked(None) && s1.slots == map[K := 1];
    var s2 := Do(s1, Fire(0));
    DisturbedIsFooled(s1, Fire(0), 1);
    Prepend(s, Register(1), [Fire(0), CancelTimer(1), Check(1)]);
    run := [Register(1)] + [Fire(0), CancelTimer(1), Check(1)];
  }
}
