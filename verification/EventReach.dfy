/**
 * What the kernel watches and what the vector finds, over the runs of EventRuns:
 * when the table and the kernel agree, which resizes put registrations out of
 * reach, when a step fails, and the race of two growers.
 */
module EventReach {
  import opened Events
  import opened EventRuns

  // ---- the kernel ----

  lemma StepWatches(s: State, step: Step)
    requires Good(s) && Watching(s.t) && Enabled(s, step) && Do(s, step).Went? && !step.Close?
    ensures Watching(Do(s, step).s.t)
  {
    match step
    case Look(_) =>
    case Fetch(_) =>
    case Resize(fd) => ResizeWatches(s.t, s.clears, NewSize(fd));
    case Register(c, ev, isFunc) => AddWatches(s.t, s.clears, c, ev, Waiter(|s.regs|, isFunc));
    case Delete(fd, ev) =>
      if fd < |s.t.vec| {
        DelWatches(s.t, s.clears, s.t.vec[fd], ev);
      }
    case Cancel(fd, ev) =>
      if fd < |s.t.vec| {
        CancelWatches(s.t, s.clears, s.t.vec[fd], ev);
      }
    case CancelEvents(fd) =>
      if fd < |s.t.vec| {
        CancelAllWatches(s.t, s.clears, s.t.vec[fd]);
      }
    case Signal(c, r) => ReadyWatches(s.t, s.clears, c, r);
  }

  // Every close of the run is of a descriptor the kernel does not watch.
  ghost predicate CleanCloses(s: State, run: seq<Step>)
    requires Survives(s, run)
    decreases |run|
  {
    run == [] || ((run[0].Close? ==> run[0].fd !in s.t.epoll) && CleanCloses(Do(s, run[0]).s, run[1..]))
  }

  ghost predicate AlwaysWatching(s: State, run: seq<Step>)
    requires Survives(s, run)
    decreases |run|
  {
    Watching(s.t) && (run == [] || AlwaysWatching(Do(s, run[0]).s, run[1..]))
  }

  // All along a run, with any resizes, the kernel watches exactly the mask of
  // every context, if and only if every close is clean.
  lemma {:induction false} WatchingIff(s: State, run: seq<Step>)
    requires Good(s) && Watching(s.t) && Survives(s, run)
    ensures AlwaysWatching(s, run) <==> CleanCloses(s, run)
    ensures CleanCloses(s, run) ==> Inv(Final(s, run).t, Final(s, run).clears)
    decreases |run|
  {
    if run != [] {
      StepGood(s, run[0]);
      if run[0].Close? {
        CloseKeepsIff(s.t, s.clears, run[0].fd);
      } else {
        StepWatches(s, run[0]);
      }
      if Watching(Do(s, run[0]).s.t) {
        WatchingIff(Do(s, run[0]).s, run[1..]);
      }
    }
  }

  lemma TableStaysConsistent(clears: bool, run: seq<Step>)
    requires Survives(Init(clears), run)
    ensures AlwaysWatching(Init(clears), run) <==> CleanCloses(Init(clears), run)
    ensures CleanCloses(Init(clears), run) ==> Inv(Final(Init(clears), run).t, clears)
  {
    InitGood(clears);
    WatchingIff(Init(clears), run);
    ClearsIsFixed(Init(clears), run);
  }

  lemma {:induction false} ClearsIsFixed(s: State, run: seq<Step>)
    requires Survives(s, run)
    ensures Final(s, run).clears == s.clears
    decreases |run|
  {
    if run != [] {
      ClearsIsFixed(Do(s, run[0]).s, run[1..]);
    }
  }

  // ---- the vector ----

  // A context that a registration or an addEvent under way needs.
  ghost predicate Needed(s: State, c: nat) {
    c < |s.t.ctxs| && (!s.t.ctxs[c].events.Empty() || s.adding[c] > 0)
  }

  // The vector finds every needed context and has every descriptor about to be
  // fetched.
  ghost predicate InReach(s: State) {
    && (forall c: nat :: Needed(s, c) ==> InVector(s.t, c))
    && (forall fd :: fd in s.fetching ==> fd < |s.t.vec|)
  }

  // A resize to n cuts none of them off.
  ghost predicate Fits(s: State, n: nat) {
    && (forall c: nat :: Needed(s, c) ==> s.t.ctxs[c].fd < n)
    && (forall fd :: fd in s.fetching ==> fd < n)
  }

  // The guard the code does not check is exact.
  lemma ResizeFitsIff(s: State, fd: nat)
    requires Good(s) && InReach(s) && Enabled(s, Resize(fd))
    ensures Do(s, Resize(fd)).Went?
    ensures InReach(Do(s, Resize(fd)).s) <==> Fits(s, NewSize(fd))
  {
    ResizeGood(s, fd);
    if Fits(s, NewSize(fd)) {
      FittingReach(s, fd);
    }
    if InReach(Do(s, Resize(fd)).s) {
      ReachFits(s, fd);
    }
  }

  lemma FittingReach(s: State, fd: nat)
    requires Good(s) && InReach(s) && Enabled(s, Resize(fd)) && Do(s, Resize(fd)).Went? && Fits(s, NewSize(fd))
    ensures InReach(Do(s, Resize(fd)).s)
  {
    var v := Do(s, Resize(fd)).s;
    ResizeEffect(s.t, s.clears, NewSize(fd));
    forall c: nat | Needed(v, c) ensures InVector(v.t, c) {
      NeededAfterResize(s, fd, c);
      assert Needed(s, c) ==> InVector(s.t, c) && s.t.ctxs[c].fd < NewSize(fd);
    }
  }

  lemma ReachFits(s: State, fd: nat)
    requires Good(s) && Enabled(s, Resize(fd)) && Do(s, Resize(fd)).Went? && InReach(Do(s, Resize(fd)).s)
    ensures Fits(s, NewSize(fd))
  {
    var v := Do(s, Resize(fd)).s;
    ResizeEffect(s.t, s.clears, NewSize(fd));
    forall c: nat | Needed(s, c) ensures s.t.ctxs[c].fd < NewSize(fd) {
      assert v.t.ctxs[c] == s.t.ctxs[c] && Needed(v, c);
    }
  }

  lemma NeededAfterResize(s: State, fd: nat, c: nat)
    requires Good(s) && Enabled(s, Resize(fd)) && Do(s, Resize(fd)).Went? && Needed(Do(s, Resize(fd)).s, c)
    ensures Needed(s, c) || InVector(Do(s, Resize(fd)).s.t, c)
  {
    var v := Do(s, Resize(fd)).s;
    ResizeEffect(s.t, s.clears, NewSize(fd));
    if c >= |s.t.ctxs| {
      assert Registered(s.t, c, Read) == Free && Registered(s.t, c, Write) == Free;
      assert SlotsOk(v.t.ctxs[c], s.clears);
    }
    if c == v.t.vec[fd] {
      assert v.t.ctxs[c].fd == fd;
    }
  }

  lemma FewerNeeded(s: State, v: State)
    requires InReach(s) && |v.t.ctxs| == |s.t.ctxs| && v.t.vec == s.t.vec && v.fetching == s.fetching
    requires forall c :: 0 <= c < |s.t.ctxs| ==> v.t.ctxs[c].fd == s.t.ctxs[c].fd
    requires forall c: nat :: Needed(v, c) ==> Needed(s, c) || InVector(v.t, c)
    ensures InReach(v)
  {
    forall c: nat | Needed(v, c) ensures InVector(v.t, c) {
      assert Needed(s, c) ==> InVector(s.t, c);
    }
  }

  // What leaves the table leaves no new need.
  lemma LeavesNeeds(s: State, u: Table, c: nat, m: Mask)
    requires Good(s) && Tally(u, s.clears) && Leaves(s.t, u, c, m)
    ensures forall d: nat :: Needed(s.(t := u), d) ==> Needed(s, d)
  {
    forall d: nat | Needed(s.(t := u), d) ensures Needed(s, d) {
      assert SlotsOk(u.ctxs[d], s.clears);
      assert Registered(u, d, Read).Held? ==> Registered(s.t, d, Read).Held?;
      assert Registered(u, d, Write).Held? ==> Registered(s.t, d, Write).Held?;
    }
  }

  lemma RegisterReach(s: State, c: nat, ev: Event, isFunc: bool)
    requires Good(s) && InReach(s) && Enabled(s, Register(c, ev, isFunc)) && Do(s, Register(c, ev, isFunc)).Went?
    ensures InReach(Do(s, Register(c, ev, isFunc)).s)
  {
    var v := Do(s, Register(c, ev, isFunc)).s;
    assert Needed(s, c);
    FewerNeeded(s, v);
  }

  lemma SignalReach(s: State, c: nat, r: Report)
    requires Good(s) && InReach(s) && Enabled(s, Signal(c, r)) && Do(s, Signal(c, r)).Went?
    ensures InReach(Do(s, Signal(c, r)).s)
  {
    var v := Do(s, Signal(c, r)).s;
    ReadyEffect(s.t, s.clears, c, r);
    if v.t != s.t {
      LeavesNeeds(s, v.t, c, Triggered(s.t.ctxs[c], r));
    }
    FewerNeeded(s, v);
  }

  // One of the operations by descriptor took the events `m` of context c, or
  // nothing.
  lemma TakenReach(s: State, v: State, c: nat, m: Mask)
    requires Good(s) && InReach(s) && v.adding == s.adding && v.fetching == s.fetching && Tally(v.t, s.clears)
    requires v.t == s.t || Leaves(s.t, v.t, c, m)
    ensures InReach(v)
  {
    if v.t != s.t {
      LeavesNeeds(s, v.t, c, m);
    }
    forall d: nat | Needed(v, d) ensures Needed(s, d) {
      assert v.t != s.t ==> Needed(s.(t := v.t), d);
    }
    FewerNeeded(s, v);
  }

  lemma LeaveStepReach(s: State, step: Step)
    requires Good(s) && InReach(s) && Enabled(s, step) && Do(s, step).Went?
    requires step.Delete? || step.Cancel? || step.CancelEvents?
    ensures InReach(Do(s, step).s)
  {
    if step.fd < |s.t.vec| {
      var c := s.t.vec[step.fd];
      if step.Delete? {
        DelEffect(s.t, s.clears, c, step.ev);
        TakenReach(s, Do(s, step).s, c, Single(step.ev));
      } else if step.Cancel? {
        CancelEffect(s.t, s.clears, c, step.ev);
        TakenReach(s, Do(s, step).s, c, Single(step.ev));
      } else {
        CancelAllEffect(s.t, s.clears, c);
        TakenReach(s, Do(s, step).s, c, s.t.ctxs[c].events);
      }
    }
  }

  lemma StepReach(s: State, step: Step)
    requires Good(s) && InReach(s) && Enabled(s, step) && Do(s, step).Went? && (step.Resize? ==> Fits(s, NewSize(step.fd)))
    ensures InReach(Do(s, step).s)
  {
    if step.Resize? {
      ResizeFitsIff(s, step.fd);
    } else if step.Register? {
      RegisterReach(s, step.ctx, step.ev, step.isFunc);
    } else if step.Signal? {
      SignalReach(s, step.ctx, step.report);
    } else if step.Delete? || step.Cancel? || step.CancelEvents? {
      LeaveStepReach(s, step);
    } else {
      var v := Do(s, step).s;
      forall c: nat | Needed(v, c) ensures InVector(v.t, c) {
        assert Needed(s, c) ==> InVector(s.t, c);
      }
    }
  }

  ghost predicate AllFit(s: State, run: seq<Step>)
    requires Survives(s, run)
    decreases |run|
  {
    run == [] || ((run[0].Resize? ==> Fits(s, NewSize(run[0].fd))) && AllFit(Do(s, run[0]).s, run[1..]))
  }

  ghost predicate AlwaysInReach(s: State, run: seq<Step>)
    requires Survives(s, run)
    decreases |run|
  {
    InReach(s) && (run == [] || AlwaysInReach(Do(s, run[0]).s, run[1..]))
  }

  // All along a run every needed context is in the vector, so that delEvent,
  // cancelEvent and cancelAll reach every registration, if and only if every
  // resize of it fits.
  lemma {:induction false} InReachIff(s: State, run: seq<Step>)
    requires Good(s) && InReach(s) && Survives(s, run)
    ensures AlwaysInReach(s, run) <==> AllFit(s, run)
    ensures AllFit(s, run) ==> InReach(Final(s, run))
    decreases |run|
  {
    if run != [] {
      StepGood(s, run[0]);
      var fits := run[0].Resize? ==> Fits(s, NewSize(run[0].fd));
      if run[0].Resize? {
        ResizeFitsIff(s, run[0].fd);
      }
      if fits {
        StepReach(s, run[0]);
        InReachIff(Do(s, run[0]).s, run[1..]);
      }
    }
  }

  // Then the hooked close, cancelAll and the kernel's close, is clean.
  lemma HookedCloseIsClean(s: State, fd: nat)
    requires Good(s) && Watching(s.t) && InReach(s)
    ensures var r := Do(s, CancelEvents(fd)); r.Went? && fd !in r.s.t.epoll
  {
    CloseKeepsIff(s.t, s.clears, fd);
    if fd in s.t.epoll {
      assert Watched(s.t, s.t.epoll[fd].ctx) == s.t.ctxs[s.t.epoll[fd].ctx].events;
      assert Needed(s, s.t.epoll[fd].ctx);
    }
  }

  // ---- when a step fails ----

  // The kernel watches for another context of the same descriptor.
  ghost predicate HasRival(t: Table, c: nat)
    requires c < |t.ctxs|
  {
    t.ctxs[c].fd in t.epoll && t.epoll[t.ctxs[c].fd].ctx != c
  }

  // With emptied slots and a watched table an assertion fails exactly on a double
  // registration, on a registration whose descriptor is watched for another
  // context, and on a partly stale report; a lookup goes beyond the vector exactly
  // when a descriptor was cut off between the look and the fetch.
  lemma FailsExactlyWhen(s: State, step: Step)
    requires Good(s) && Watching(s.t) && s.clears && Enabled(s, step)
    ensures Do(s, step).Died? <==>
      || (step.Register? && (Registered(s.t, step.ctx, step.ev).Held? || HasRival(s.t, step.ctx)))
      || (step.Signal? &&
          var f := s.t.ctxs[step.ctx]; var m := step.report.ready;
          !step.report.broken && !m.And(f.events).Empty() && !Subset(m, f.events))
    ensures Do(s, step).OutOfRange? <==> step.Fetch? && |s.t.vec| <= step.fd
  {
    match step
    case Look(_) =>
    case Fetch(_) =>
    case Close(_) =>
    case Resize(fd) => ResizeGood(s, fd);
    case Register(c, ev, isFunc) =>
      AddEffect(s.t, s.clears, c, ev, Waiter(|s.regs|, isFunc));
      AddWatches(s.t, s.clears, c, ev, Waiter(|s.regs|, isFunc));
    case Delete(fd, ev) =>
      if fd < |s.t.vec| {
        DelWatches(s.t, s.clears, s.t.vec[fd], ev);
      }
    case Cancel(fd, ev) =>
      if fd < |s.t.vec| {
        CancelWatches(s.t, s.clears, s.t.vec[fd], ev);
      }
    case CancelEvents(fd) =>
      if fd < |s.t.vec| {
        CancelAllWatches(s.t, s.clears, s.t.vec[fd]);
      }
    case Signal(c, r) =>
      ReadyEffect(s.t, s.clears, c, r);
      assert Watched(s.t, c) == s.t.ctxs[c].events;
  }

  ghost predicate Used(s: State, c: nat, ev: Event) {
    exists i :: 0 <= i < |s.regs| && s.regs[i].ctx == c && s.regs[i].ev == ev
  }

  // As written the code never empties a slot: it is occupied from the first
  // registration on.
  ghost predicate Sticky(s: State) {
    && !s.clears && (forall i :: 0 <= i < |s.regs| ==> s.regs[i].ctx < |s.t.ctxs|)
    && forall c: nat, ev: Event :: c < |s.t.ctxs| ==> (s.t.ctxs[c].At(ev).Held? <==> Used(s, c, ev))
  }

  lemma StickyRegister(s: State, step: Step)
    requires Sticky(s) && step.Register? && Enabled(s, step) && Do(s, step).Went?
    ensures Sticky(Do(s, step).s)
  {
    var v := Do(s, step).s;
    var n := |s.regs|;
    forall c: nat, ev: Event | c < |v.t.ctxs| ensures v.t.ctxs[c].At(ev).Held? <==> Used(v, c, ev) {
      assert Used(s, c, ev) <==> s.t.ctxs[c].At(ev).Held?;
      assert v.regs[n] == Reg(step.ctx, step.ev, step.isFunc);
      if Used(s, c, ev) {
        var i :| 0 <= i < |s.regs| && s.regs[i].ctx == c && s.regs[i].ev == ev;
        assert v.regs[i] == s.regs[i];
      }
    }
  }

  lemma StickyResize(s: State, fd: nat)
    requires Sticky(s) && Enabled(s, Resize(fd)) && Do(s, Resize(fd)).Went?
    ensures Sticky(Do(s, Resize(fd)).s)
  {
    var v := Do(s, Resize(fd)).s;
    forall c: nat, ev: Event | c < |v.t.ctxs| ensures v.t.ctxs[c].At(ev).Held? <==> Used(v, c, ev) {
      if c < |s.t.ctxs| {
        assert Used(v, c, ev) <==> Used(s, c, ev);
      } else {
        assert v.t.ctxs[c] == NewContexts(|s.t.vec|, NewSize(fd) - |s.t.vec|)[c - |s.t.ctxs|];
      }
    }
  }

  // Without clearing, no other step touches a slot.
  lemma SlotsStay(s: State, step: Step)
    requires !s.clears && Enabled(s, step) && Do(s, step).Went? && !step.Register? && !step.Resize?
    ensures var v := Do(s, step).s;
      |v.t.ctxs| == |s.t.ctxs| && forall i, ev :: 0 <= i < |s.t.ctxs| ==> v.t.ctxs[i].At(ev) == s.t.ctxs[i].At(ev)
  {
  }

  lemma StickyStep(s: State, step: Step)
    requires Sticky(s) && Enabled(s, step) && Do(s, step).Went?
    ensures Sticky(Do(s, step).s)
  {
    if step.Register? {
      StickyRegister(s, step);
    } else if step.Resize? {
      StickyResize(s, step.fd);
    } else {
      var v := Do(s, step).s;
      SlotsStay(s, step);
      assert forall c: nat, ev: Event :: Used(v, c, ev) <==> Used(s, c, ev);
    }
  }

  lemma {:induction false} RunSticky(s: State, run: seq<Step>)
    requires Sticky(s) && Survives(s, run)
    ensures Sticky(Final(s, run))
    decreases |run|
  {
    if run != [] {
      StickyStep(s, run[0]);
      RunSticky(Do(s, run[0]).s, run[1..]);
    }
  }

  // So in the code as written the second registration of an event on a context
  // aborts, whatever happened to the first; and, while the table is watched, only
  // that and a descriptor watched for another context do.
  lemma SlotsServeOnce(run: seq<Step>, c: nat, ev: Event, isFunc: bool)
    requires Survives(Init(false), run) && CleanCloses(Init(false), run)
    requires Enabled(Final(Init(false), run), Register(c, ev, isFunc))
    ensures var s := Final(Init(false), run);
      Do(s, Register(c, ev, isFunc)).Died? <==> Used(s, c, ev) || HasRival(s.t, c)
  {
    TableStaysConsistent(false, run);
    RunSticky(Init(false), run);
    var s := Final(Init(false), run);
    ClearsIsFixed(Init(false), run);
    AddEffect(s.t, s.clears, c, ev, Waiter(|s.regs|, isFunc));
    AddWatches(s.t, s.clears, c, ev, Waiter(|s.regs|, isFunc));
    assert Used(s, c, ev) <==> s.t.ctxs[c].At(ev).Held?;
  }

  // ---- two growers race ----

  lemma Prepend(s: State, step: Step, rest: seq<Step>)
    requires Enabled(s, step) && Do(s, step).Went? && Survives(Do(s, step).s, rest)
    ensures Survives(s, [step] + rest) && Final(s, [step] + rest) == Final(Do(s, step).s, rest)
  {
    assert ([step] + rest)[0] == step && ([step] + rest)[1..] == rest;
  }

  // The table in which addEvent finds its context.
  ghost function Grown(t: Table, fd: nat): Table {
    if |t.vec| <= fd then Resized(t, NewSize(fd)) else t
  }

  ghost function Prelude(s: State, fd: nat): seq<Step> {
    [Look(fd), if |s.t.vec| <= fd then Resize(fd) else Fetch(fd)]
  }

  lemma TwoSteps(s: State, a: Step, b: Step)
    requires Enabled(s, a) && Do(s, a).Went? && Enabled(Do(s, a).s, b) && Do(Do(s, a).s, b).Went?
    ensures Survives(s, [a, b]) && Final(s, [a, b]) == Do(Do(s, a).s, b).s
  {
    Prepend(Do(s, a).s, b, []);
    Prepend(s, a, [b] + []);
    assert [a, b] == [a] + ([b] + []);
  }

  lemma Looked(s: State, fd: nat)
    requires VecOk(s.t)
    ensures |s.t.vec| <= fd ==> Do(s, Look(fd)) == Went(s.(growing := s.growing + multiset{fd}))
    ensures fd < |s.t.vec| ==> Do(s, Look(fd)) == Went(s.(fetching := s.fetching + multiset{fd}))
    ensures s.growing + multiset{fd} - multiset{fd} == s.growing && s.fetching + multiset{fd} - multiset{fd} == s.fetching
  {
  }

  lemma LookAndFetch(s: State, fd: nat)
    requires Good(s)
    ensures var g := Grown(s.t, fd);
      && Tally(g, s.clears) && fd < |g.vec| && Survives(s, Prelude(s, fd))
      && Final(s, Prelude(s, fd)) == s.(t := g, adding := s.adding + multiset{g.vec[fd]})
  {
    Looked(s, fd);
    var s1 := Do(s, Look(fd)).s;
    if |s.t.vec| <= fd {
      ResizeEffect(s.t, s.clears, NewSize(fd));
      TwoSteps(s, Look(fd), Resize(fd));
    } else {
      TwoSteps(s, Look(fd), Fetch(fd));
    }
  }

  // addEvent without interruption is three steps: the look, the resize or the
  // fetch, and the commit on the context the vector then has.
  lemma AddEventIsRun(s: State, fd: nat, ev: Event, isFunc: bool)
    requires Good(s)
    ensures Survives(s, Prelude(s, fd))
    ensures var o := AddEvent(s.t, fd, ev, Waiter(|s.regs|, isFunc)); var u := Final(s, Prelude(s, fd));
      && fd < |u.t.vec| && Enabled(u, Register(u.t.vec[fd], ev, isFunc))
      && var n := Do(u, Register(u.t.vec[fd], ev, isFunc));
        && (o.Abort? <==> n.Died?)
        && (o.Done? ==> n == Went(s.(t := o.t, regs := s.regs + [Reg(u.t.vec[fd], ev, isFunc)])))
  {
    LookAndFetch(s, fd);
    var u := Final(s, Prelude(s, fd));
    var c := u.t.vec[fd];
    assert u.adding - multiset{c} == s.adding;
    assert SlotsOk(u.t.ctxs[c], s.clears);
  }

  // Growers for descriptors 40 and 100 have looked, the one for 100 has resized.
  ghost predicate Raced(s: State) {
    && VecOk(s.t) && |s.t.vec| == 150 && s.t.vec[100] == 100 && |s.t.ctxs| == 150 && s.t.ctxs[100] == Fresh(100)
    && s.adding[100] > 0 && s.growing[40] > 0
    && s.t.epoll == map[] && s.t.pending == 0 && s.t.tasks == [] && s.regs == [] && s.deleted == {}
  }

  lemma Race(clears: bool) returns (s: State, run: seq<Step>)
    ensures Survives(Init(clears), run) && Final(Init(clears), run) == s && Raced(s) && s.clears == clears
  {
    RaceLooks(clears);
    var looks := [Look(40), Look(100)];
    var s2 := Final(Init(clears), looks);
    RaceResizes(s2);
    s := Do(s2, Resize(100)).s;
    Prepend(s2, Resize(100), []);
    Compose(Init(clears), looks, [Resize(100)] + []);
    run := looks + ([Resize(100)] + []);
  }

  lemma RaceLooks(clears: bool)
    ensures var s, looks := Init(clears), [Look(40), Look(100)];
      Survives(s, looks) && Final(s, looks) == s.(growing := multiset{40, 100})
  {
    StartInv(clears);
    var s := Init(clears);
    var s1 := s.(growing := multiset{40});
    Looked(s, 40);
    Looked(s1, 100);
    assert multiset{} + multiset{40} == multiset{40} && multiset{40} + multiset{100} == multiset{40, 100};
    TwoSteps(s, Look(40), Look(100));
  }

  lemma RaceResizes(s: State)
    requires s.t == START && s.growing == multiset{40, 100} && s.regs == [] && s.deleted == {}
    ensures Enabled(s, Resize(100)) && Do(s, Resize(100)).Went? && Raced(Do(s, Resize(100)).s)
  {
    StartInv(s.clears);
    ResizeEffect(s.t, s.clears, 150);
    assert Resized(s.t, 150).ctxs[100] == NewContexts(32, 118)[68];
  }

  // The registration of context 100 is pending and out of the vector's reach.
  ghost predicate CutOff(s: State) {
    && |s.regs| == 1 && s.regs[0] == Reg(100, Read, false) && IsPending(s, 0)
    && VecOk(s.t) && |s.t.vec| == 60 && 100 < |s.t.ctxs| && s.t.ctxs[100] == Ctx(100, Single(Read), Held(Waiter(0, false)), Free)
  }

  // The one for 100 registers; the one for 40 cuts the vector to 60.
  lemma RaceCuts(s: State)
    requires Raced(s)
    ensures var run := [Register(100, Read, false), Resize(40)];
      Survives(s, run) && CutOff(Final(s, run)) && 100 in Final(s, run).t.epoll && Final(s, run).clears == s.clears
  {
    var register := Register(100, Read, false);
    var s1 := Do(s, register).s;
    var s2 := Do(s1, Resize(40)).s;
    Prepend(s1, Resize(40), []);
    Prepend(s, register, [Resize(40)] + []);
    assert [register, Resize(40)] == [register] + ([Resize(40)] + []);
  }

  // Readiness still finds it, cancelEvent, delEvent and cancelAll do not.
  lemma CutOffStillWakes(s: State)
    requires CutOff(s) && 100 in s.t.epoll
    ensures var r := Ready(s.t, s.clears, 100, Report(Single(Read), false));
      r.Done? && r.ok && r.t.tasks == s.t.tasks + [Waiter(0, false)] && r.t.pending == s.t.pending - 1
    ensures CancelEvent(s.t, s.clears, 100, Read) == Done(false, s.t) && DelEvent(s.t, s.clears, 100, Read) == Done(false, s.t)
    ensures CancelAll(s.t, s.clears, 100) == Done(false, s.t)
  {
  }

  // Now the descriptor is closed as the hook does it: cancelAll finds nothing, and
  // the kernel forgets the descriptor. Until it knows it again no report wakes the
  // waiter.
  ghost predicate Lost(s: State) {
    && CutOff(s) && 100 !in s.t.epoll
    && (forall r :: Ready(s.t, s.clears, 100, r) == Done(false, s.t))
    && CancelEvent(s.t, s.clears, 100, Read) == Done(false, s.t) && CancelAll(s.t, s.clears, 100) == Done(false, s.t)
  }

  lemma CloseLoses(s: State)
    requires CutOff(s)
    ensures var run := [CancelEvents(100), Close(100)]; Survives(s, run) && Lost(Final(s, run))
  {
    var s1 := Do(s, CancelEvents(100)).s;
    assert s1 == s;
    var s2 := Do(s1, Close(100)).s;
    Prepend(s1, Close(100), []);
    Prepend(s, CancelEvents(100), [Close(100)] + []);
    assert [CancelEvents(100), Close(100)] == [CancelEvents(100)] + ([Close(100)] + []);
  }

  lemma {:induction false} Compose(s: State, a: seq<Step>, b: seq<Step>)
    requires Survives(s, a) && Survives(Final(s, a), b)
    ensures Survives(s, a + b) && Final(s, a + b) == Final(Final(s, a), b)
    decreases |a|
  {
    if a == [] {
      assert a + b == b;
    } else {
      assert (a + b)[0] == a[0] && (a + b)[1..] == a[1..] + b;
      Compose(Do(s, a[0]).s, a[1..], b);
    }
  }

  // Two racing growers and a close lose a waiter: its registration stays pending
  // where no operation finds it and no report wakes it.
  lemma RacingGrowersLose(clears: bool) returns (cut: seq<Step>, lost: seq<Step>)
    ensures Survives(Init(clears), cut) && CutOff(Final(Init(clears), cut)) && 100 in Final(Init(clears), cut).t.epoll
    ensures Survives(Init(clears), lost) && Lost(Final(Init(clears), lost))
  {
    var s, r := Race(clears);
    RaceCuts(s);
    Compose(Init(clears), r, [Register(100, Read, false), Resize(40)]);
    cut := r + [Register(100, Read, false), Resize(40)];
    var t := Final(Init(clears), cut);
    CloseLoses(t);
    Compose(Init(clears), cut, [CancelEvents(100), Close(100)]);
    lost := cut + [CancelEvents(100), Close(100)];
  }

  // An addEvent for 100 that looked before the cut fetches beyond the vector.
  lemma RacingGrowersOverrun(clears: bool) returns (run: seq<Step>)
    ensures Survives(Init(clears), run)
    ensures var s := Final(Init(clears), run); Enabled(s, Fetch(100)) && Do(s, Fetch(100)).OutOfRange?
  {
    var s, r := Race(clears);
    var s1 := Do(s, Look(100)).s;
    var s2 := Do(s1, Resize(40)).s;
    Prepend(s1, Resize(40), []);
    Prepend(s, Look(100), [Resize(40)] + []);
    Compose(Init(clears), r, [Look(100)] + ([Resize(40)] + []));
    run := r + ([Look(100)] + ([Resize(40)] + []));
  }
}
