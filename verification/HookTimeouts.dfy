/**
 * What a hooked call reports (src/hook.cpp:118-127, 245-272): a set flag ends the
 * wait in ETIMEDOUT, an unanswered call does time out, a sleeper wakes, connect
 * reports how its attempt ended, and no wait leaves its timer behind.
 */
module HookTimeouts {
  import opened Basics
  import opened Timers
  import opened HookCalls
  import opened HookWaits

  // ---- the flag ----

  // A call whose flag is set while it is on its way into or out of a wait, or
  // which has reported so.
  ghost predicate Doomed(k: Call) {
    k.cancelled && (k.pc.Adding? || k.pc.Parked? || k.pc.Woken? || k.pc.Checking? || k.pc == Finished(TimedOut))
  }

  lemma FlagStays(s: State, step: Step, c: nat)
    requires Enabled(s, step) && IsCall(s, c) && s.calls[c].cancelled
    ensures IsCall(Do(s, step), c) && Do(s, step).calls[c].cancelled
  {
  }

  lemma StepDoomed(s: State, step: Step, c: nat)
    requires Inv(s) && Enabled(s, step) && IsCall(s, c) && Doomed(s.calls[c])
    ensures IsCall(Do(s, step), c) && Doomed(Do(s, step).calls[c])
  {
    assert CallOk(s, c);
    FlagStays(s, step, c);
  }

  // Whatever happens, from then on it is still waiting or has reported
  // ETIMEDOUT: it does not return to its system call and reports nothing else.
  lemma {:induction false} FlaggedWaitTimesOut(s: State, run: seq<Step>, c: nat)
    requires Inv(s) && Legal(s, run) && IsCall(s, c) && Doomed(s.calls[c])
    ensures IsCall(Final(s, run), c) && Doomed(Final(s, run).calls[c])
    decreases |run|
  {
    if run != [] {
      StepInv(s, run[0]);
      StepDoomed(s, run[0], c);
      FlaggedWaitTimesOut(Do(s, run[0]), run[1..], c);
    }
  }

  // How a call ends: with the system call's own result, with its timeout, with
  // what connect makes of SO_ERROR, or as a sleep whose callback ran.
  lemma EndsIff(s: State, step: Step, c: nat)
    requires Enabled(s, step) && IsCall(s, c) && !s.calls[c].pc.Finished?
    ensures var k, l := s.calls[c], Do(s, step).calls[c];
      && (l.pc == Finished(FromKernel) <==> step == Succeed(c))
      && (l.pc == Finished(TimedOut) <==> step == Check(c) && k.cancelled)
      && (l.pc.Finished? && l.pc.r.Reported? <==> step == Check(c) && !k.cancelled && k.kind.Connect?)
      && (l.pc == Finished(Slept) <==> step.WakeSleeper? && s.due[step.t].call == c)
  {
  }

  // A report is final.
  lemma {:induction false} ReportIsFinal(s: State, run: seq<Step>, c: nat)
    requires Inv(s) && Legal(s, run) && IsCall(s, c) && s.calls[c].pc.Finished?
    ensures IsCall(Final(s, run), c) && Final(s, run).calls[c].pc == s.calls[c].pc
    decreases |run|
  {
    if run != [] {
      StepInv(s, run[0]);
      StepReported(s, run[0], c);
      ReportIsFinal(Do(s, run[0]), run[1..], c);
    }
  }

  lemma StepReported(s: State, step: Step, c: nat)
    requires Inv(s) && Enabled(s, step) && IsCall(s, c) && s.calls[c].pc.Finished?
    ensures IsCall(Do(s, step), c) && Do(s, step).calls[c].pc == s.calls[c].pc
  {
    assert CallOk(s, c);
    if step.WakeSleeper? {
      assert TimerOk(s, step.t, s.due[step.t]);
    }
  }

  // ---- steps in a row ----

  lemma {:induction false} Compose(s: State, a: seq<Step>, b: seq<Step>)
    requires Legal(s, a) && Legal(Final(s, a), b)
    ensures Legal(s, a + b) && Final(s, a + b) == Final(Final(s, a), b)
    decreases |a|
  {
    if a == [] {
      assert a + b == b;
    } else {
      assert (a + b)[0] == a[0] && (a + b)[1..] == a[1..] + b;
      Compose(Do(s, a[0]), a[1..], b);
    }
  }

  lemma TwoSteps(s: State, a: Step, b: Step)
    requires Enabled(s, a) && Enabled(Do(s, a), b)
    ensures Legal(s, [a, b]) && Final(s, [a, b]) == Do(Do(s, a), b)
  {
    Prepend(Do(s, a), b, []);
    Prepend(s, a, [b] + []);
    assert [a, b] == [a] + ([b] + []);
  }

  lemma ThreeSteps(s: State, a: Step, b: Step, c: Step)
    requires Enabled(s, a) && Enabled(Do(s, a), b) && Enabled(Do(Do(s, a), b), c)
    ensures Legal(s, [a, b, c]) && Final(s, [a, b, c]) == Do(Do(Do(s, a), b), c)
  {
    TwoSteps(Do(s, a), b, c);
    Prepend(s, a, [b, c]);
    assert [a, b, c] == [a] + [b, c];
  }

  // ---- timeouts ----

  // The callback x has set the flag of the parked call c, its cancelEvent is next.
  ghost predicate AboutToEnd(s: State, c: nat, x: nat) {
    && IsCall(s, c) && s.calls[c].pc.Parked? && Listed(s, c) && s.calls[c].cancelled
    && x in s.firing && s.firing[x] == Firing(c, s.calls[c].key)
  }

  lemma CancelEventEnds(s: State, c: nat, x: nat)
    requires AboutToEnd(s, c, x)
    ensures var run := [Fire(x), CancelTimer(c), Check(c)];
      Legal(s, run) && IsCall(Final(s, run), c) && Final(s, run).calls[c].pc == Finished(TimedOut)
  {
    var s1 := Do(s, Fire(x));
    assert s1.calls[c] == s.calls[c].(pc := Woken(s.calls[c].pc.t, Other));
    ThreeSteps(s, Fire(x), CancelTimer(c), Check(c));
  }

  // In every run, once the callback has set the flag of a parked call that is
  // still registered, its cancelEvent ends the wait and the call reports
  // ETIMEDOUT.
  lemma OwnTimeoutEnds(s: State, run: seq<Step>, x: nat, c: nat)
    requires Init(s) && Legal(s, run)
    requires var t := Final(s, run); IsCall(t, c) && t.calls[c].pc.Parked? && !t.calls[c].story.unlisted && x in t.firing && t.firing[x].call == c
    ensures var t := Final(s, run); var end := [Fire(x), CancelTimer(c), Check(c)];
      Legal(t, end) && IsCall(Final(t, end), c) && Final(t, end).calls[c].pc == Finished(TimedOut)
  {
    RunWaits(s, run);
    assert FireOk(Final(s, run), x) && WaitOk(Final(s, run), c);
    CancelEventEnds(Final(s, run), c, x);
  }

  // The call parks with its timer.
  lemma ParksWithTimer(s: State, c: nat)
    requires IsCall(s, c) && s.calls[c].pc.Trying? && s.calls[c].to.Some? && !s.calls[c].kind.Sleep? && s.calls[c].key !in s.slots
    ensures var run := [Again(c), Arm(c), Register(c)];
      && Legal(s, run)
      && var u := Final(s, run);
        && IsCall(u, c) && u.calls[c].pc == Parked(Some(s.made)) && Listed(u, c) && u.now == s.now
        && u.calls[c].kind == s.calls[c].kind && u.calls[c].cancelled == s.calls[c].cancelled
        && s.made in u.timers && u.timers[s.made] == HookTimer(c, s.now, Wrap(s.now + s.calls[c].to.value))
  {
    ThreeSteps(s, Again(c), Arm(c), Register(c));
  }

  // The timer expires and its callback sets the flag.
  lemma TimerExpires(s: State, c: nat, x: nat, now: nat)
    requires IsCall(s, c) && s.calls[c].pc.Parked? && Listed(s, c) && !s.calls[c].cancelled && !s.calls[c].kind.Sleep?
    requires x in s.timers && s.timers[x].call == c && s.now <= now && s.timers[x].next <= now
    ensures var run := [Tick(now), Collect(x), SetFlag(x)];
      && Legal(s, run)
      && AboutToEnd(Final(s, run), c, x)
  {
    ThreeSteps(s, Tick(now), Collect(x), SetFlag(x));
  }

  // The steps call c takes itself, those of its timer x, and the clock up to `now`.
  predicate IsByClock(step: Step, c: nat, x: nat, now: nat) {
    || step == Again(c) || step == Arm(c) || step == Register(c) || step == CancelTimer(c) || step == Check(c)
    || step == Tick(now) || step == Collect(x) || step == SetFlag(x) || step == Fire(x)
  }

  ghost predicate ByClock(run: seq<Step>, c: nat, x: nat, now: nat) {
    forall i :: 0 <= i < |run| ==> IsByClock(run[i], c, x, now)
  }

  // In any state, a do_io or connect with a timeout whose system call would block
  // and whose key is free reports ETIMEDOUT, as soon as its time has passed, when
  // nothing but the clock answers.
  lemma UnansweredTimesOut(s: State, c: nat) returns (run: seq<Step>)
    requires IsCall(s, c) && s.calls[c].pc.Trying? && !s.calls[c].kind.Sleep? && s.calls[c].to.Some? && !s.calls[c].cancelled
    requires s.calls[c].key !in s.slots
    ensures ByClock(run, c, s.made, s.now + s.calls[c].to.value) && Legal(s, run)
    ensures IsCall(Final(s, run), c) && Final(s, run).calls[c].pc == Finished(TimedOut)
  {
    var now := s.now + s.calls[c].to.value;
    var park := [Again(c), Arm(c), Register(c)];
    ParksWithTimer(s, c);
    WrapIsLess(now);
    var rest := ParkedTimesOut(Final(s, park), c, s.made, now);
    Compose(s, park, rest);
    run := park + rest;
  }

  lemma ParkedTimesOut(s: State, c: nat, x: nat, now: nat) returns (run: seq<Step>)
    requires IsCall(s, c) && s.calls[c].pc.Parked? && Listed(s, c) && !s.calls[c].cancelled && !s.calls[c].kind.Sleep?
    requires x in s.timers && s.timers[x].call == c && s.now <= now && s.timers[x].next <= now
    ensures Legal(s, run) && ByClock(run, c, x, now)
    ensures IsCall(Final(s, run), c) && Final(s, run).calls[c].pc == Finished(TimedOut)
  {
    var expire := [Tick(now), Collect(x), SetFlag(x)];
    TimerExpires(s, c, x, now);
    CancelEventEnds(Final(s, expire), c, x);
    Compose(s, expire, [Fire(x), CancelTimer(c), Check(c)]);
    run := expire + [Fire(x), CancelTimer(c), Check(c)];
  }

  lemma WrapIsLess(n: nat)
    ensures Wrap(n) <= n
  {
  }

  // A new call starts with its system call, or for a sleep with its timer.
  lemma Begins(s: State, kind: Kind, key: Key, to: Option<nat>)
    requires kind.Sleep? ==> to.Some?
    ensures var t := Do(s, Begin(kind, key, to)); var k := t.calls[|s.calls|];
      && |t.calls| == |s.calls| + 1 && k.kind == kind && k.key == key && k.to == to && !k.cancelled
      && k.pc == (if kind.Sleep? then Arming else Trying)
  {
  }

  // ---- sleeps ----

  // In any state, a sleep for `ms` is over when the clock has moved by that much
  // and the timer has been polled and its callback run.
  lemma SleeperWakes(s: State, key: Key, ms: nat)
    requires Inv(s)
    ensures var c := |s.calls|; var run := [Begin(Sleep, key, Some(ms)), Arm(c)] + [Tick(s.now + ms), Collect(s.made), WakeSleeper(s.made)];
      && Legal(s, run) && IsCall(Final(s, run), c)
      && Final(s, run).calls[c].pc == Finished(Slept) && Final(s, run).woken == s.woken + [c]
  {
    var c, x := |s.calls|, s.made;
    var begin := Begin(Sleep, key, Some(ms));
    TwoSteps(s, begin, Arm(c));
    var u := Final(s, [begin, Arm(c)]);
    assert u.timers[x] == HookTimer(c, s.now, Wrap(s.now + ms)) && u.calls[c].kind.Sleep? && u.woken == s.woken;
    WrapIsLess(s.now + ms);
    ThreeSteps(u, Tick(s.now + ms), Collect(x), WakeSleeper(x));
    Compose(s, [begin, Arm(c)], [Tick(s.now + ms), Collect(x), WakeSleeper(x)]);
  }

  // ---- connect ----

  // A call is woken as ready exactly by readiness of its key.
  lemma ReadinessIsNoted(s: State, step: Step, c: nat)
    requires Waits(s) && Enabled(s, step) && IsCall(s, c) && s.calls[c].pc.Parked? && Do(s, step).calls[c].pc.Woken?
    ensures Do(s, step).calls[c].pc.cause == Readiness <==> step == Ready(s.calls[c].key)
  {
    if IsWake(step) {
      assert SlotOk(s, if step.Fire? then s.firing[step.t].key else step.key);
    } else {
      OnlyWakesWake(s, step, c);
    }
  }

  // A connect in progress that is woken once its attempt is settled reports how
  // it ended.
  lemma ConnectReportsOutcome(s: State, c: nat, ok: bool)
    requires IsCall(s, c) && s.calls[c].kind.Connect? && s.calls[c].pc.Parked? && Listed(s, c) && !s.calls[c].cancelled
    requires s.calls[c].story.progress.InProgress?
    ensures var run := [Settle(c, ok), Ready(s.calls[c].key)] + [CancelTimer(c), Check(c)];
      Legal(s, run) && IsCall(Final(s, run), c) && Final(s, run).calls[c].pc == Finished(Reported(ok))
  {
    var key := s.calls[c].key;
    TwoSteps(s, Settle(c, ok), Ready(key));
    var u := Final(s, [Settle(c, ok), Ready(key)]);
    TwoSteps(u, CancelTimer(c), Check(c));
    Compose(s, [Settle(c, ok), Ready(key)], [CancelTimer(c), Check(c)]);
  }

  // ---- timers left behind ----

  // An armed timer that is no sleep's is the one its call is about to cancel.
  ghost predicate HandleOk(s: State, x: nat) {
    x in s.timers && IsCall(s, s.timers[x].call) && !s.calls[s.timers[x].call].kind.Sleep? ==>
      Handle(s.calls[s.timers[x].call].pc) == Some(x)
  }

  ghost predicate NoneLeft(s: State) {
    forall x :: HandleOk(s, x)
  }

  // Only arming and cancelling change what a call will cancel.
  lemma HandleStays(s: State, step: Step, c: nat)
    requires Enabled(s, step) && IsCall(s, c) && !s.calls[c].kind.Sleep? && step != Arm(c) && step != CancelTimer(c)
    ensures IsCall(Do(s, step), c) && Handle(Do(s, step).calls[c].pc) == Handle(s.calls[c].pc)
  {
  }

  lemma TimersShrink(s: State, step: Step, x: nat)
    requires Enabled(s, step) && !step.Arm? && x in Do(s, step).timers
    ensures x in s.timers && Do(s, step).timers[x] == s.timers[x]
    ensures step.CancelTimer? ==> s.calls[step.c].pc.t != Some(x)
  {
  }

  lemma KindStays(s: State, step: Step, c: nat)
    requires Enabled(s, step) && IsCall(s, c)
    ensures IsCall(Do(s, step), c) && Do(s, step).calls[c].kind == s.calls[c].kind
  {
  }

  lemma StepHandle(s: State, step: Step, x: nat)
    requires Inv(s) && NoneLeft(s) && Enabled(s, step)
    ensures HandleOk(Do(s, step), x)
  {
    if step.Arm? {
      ArmHandle(s, step.c, x);
    } else if x in Do(s, step).timers {
      TimersShrink(s, step, x);
      assert TimerOk(s, x, s.timers[x]) && HandleOk(s, x);
      var c := s.timers[x].call;
      KindStays(s, step, c);
      if !s.calls[c].kind.Sleep? && step != CancelTimer(c) {
        HandleStays(s, step, c);
      }
    }
  }

  lemma ArmHandle(s: State, c: nat, x: nat)
    requires Inv(s) && NoneLeft(s) && Enabled(s, Arm(c))
    ensures HandleOk(Armed(s, c), x)
  {
    assert HandleOk(s, x);
    if x in s.timers {
      assert TimerOk(s, x, s.timers[x]);
    }
  }

  lemma {:induction false} RunHandles(s: State, run: seq<Step>)
    requires Inv(s) && NoneLeft(s) && Legal(s, run)
    ensures NoneLeft(Final(s, run)) && Inv(Final(s, run))
    decreases |run|
  {
    if run != [] {
      StepInv(s, run[0]);
      forall x ensures HandleOk(Do(s, run[0]), x) {
        StepHandle(s, run[0], x);
      }
      RunHandles(Do(s, run[0]), run[1..]);
    }
  }

  // In every run a call has at most one armed timer, and none once it is past its
  // wait: retrying, checking its flag or finished.
  lemma NoTimerLeftBehind(s: State, run: seq<Step>, x: nat, y: nat)
    requires Init(s) && Legal(s, run)
    requires var t := Final(s, run); x in t.timers && y in t.timers && t.timers[x].call == t.timers[y].call
    ensures var t := Final(s, run); var c := t.timers[x].call;
      && x == y && IsCall(t, c)
      && (t.calls[c].pc.Adding? || t.calls[c].pc.Parked? || t.calls[c].pc.Woken? || t.calls[c].pc.Asleep?)
  {
    RunHandles(s, run);
    var t := Final(s, run);
    assert HandleOk(t, x) && HandleOk(t, y) && TimerOk(t, x, t.timers[x]) && TimerOk(t, y, t.timers[y]);
  }
}
