/**
 * Every interleaving of registration, deletion, cancellation, close, growth and
 * readiness on the event table (src/iomanager.cpp). One step is one section
 * under the table's lock or a context's lock, taken by any thread; readiness
 * reports may be stale. A run ends at a failed assertion, or when a descriptor
 * is looked up beyond the vector.
 *
 * addEvent looks at the size; then it resizes, or fetches its context in a
 * section of its own; then it commits. The resize does not look again.
 */
module EventRuns {
  import opened Events

  // A registration that addEvent made; its number is its index.
  datatype Reg = Reg(ctx: nat, ev: Event, isFunc: bool)

  datatype State = State(
    t: Table,
    clears: bool,
    regs: seq<Reg>,            // every successful addEvent
    deleted: set<nat>,         // numbers of those delEvent removed
    growing: multiset<nat>,    // addEvents that found the vector too small for their descriptor
    fetching: multiset<nat>,   // addEvents that found it large enough, context not yet fetched
    adding: multiset<nat>)     // contexts addEvents have fetched

  datatype Step =
    | Look(fd: nat)
    | Resize(fd: nat)
    | Fetch(fd: nat)
    | Register(ctx: nat, ev: Event, isFunc: bool)
    | Delete(fd: nat, ev: Event)
    | Cancel(fd: nat, ev: Event)
    | CancelEvents(fd: nat)
    | Signal(ctx: nat, report: Report)
    | Close(fd: nat)           // the kernel's close

  datatype Next = Went(s: State) | Died | OutOfRange

  ghost function Init(clears: bool): State {
    State(START, clears, [], {}, multiset{}, multiset{}, multiset{})
  }

  ghost predicate Enabled(s: State, step: Step) {
    VecOk(s.t) &&
    match step
    case Resize(fd) => s.growing[fd] > 0
    case Fetch(fd) => s.fetching[fd] > 0
    case Register(c, _, _) => s.adding[c] > 0 && c < |s.t.ctxs|
    case Signal(c, _) => c < |s.t.ctxs|
    case _ => true
  }

  ghost function Follow(s: State, o: Outcome): Next {
    if o.Abort? then Died else Went(s.(t := o.t))
  }

  // m_fd_contexts[fd] on the vector of u.
  ghost function Fetched(s: State, u: Table, fd: nat): Next {
    if |u.vec| <= fd then OutOfRange else Went(s.(t := u, adding := s.adding + multiset{u.vec[fd]}))
  }

  ghost function Do(s: State, step: Step): Next
    requires Enabled(s, step)
  {
    match step
    case Look(fd) =>
      if |s.t.vec| <= fd then Went(s.(growing := s.growing + multiset{fd})) else Went(s.(fetching := s.fetching + multiset{fd}))
    case Resize(fd) => Fetched(s.(growing := s.growing - multiset{fd}), Resized(s.t, NewSize(fd)), fd)
    case Fetch(fd) => Fetched(s.(fetching := s.fetching - multiset{fd}), s.t, fd)
    case Register(c, ev, isFunc) =>
      var o := AddLocked(s.t, c, ev, Waiter(|s.regs|, isFunc));
      if o.Abort? then Died
      else Went(s.(t := o.t, regs := s.regs + [Reg(c, ev, isFunc)], adding := s.adding - multiset{c}))
    case Delete(fd, ev) =>
      var o := DelEvent(s.t, s.clears, fd, ev);
      if o.Abort? then Died
      else if o.ok && fd < |s.t.vec| && Registered(s.t, s.t.vec[fd], ev).Held? then
        Went(s.(t := o.t, deleted := s.deleted + {Registered(s.t, s.t.vec[fd], ev).waiter.id}))
      else Went(s.(t := o.t))
    case Cancel(fd, ev) => Follow(s, CancelEvent(s.t, s.clears, fd, ev))
    case CancelEvents(fd) => Follow(s, CancelAll(s.t, s.clears, fd))
    case Signal(c, r) => Follow(s, Ready(s.t, s.clears, c, r))
    case Close(fd) => Went(s.(t := s.t.(epoll := s.t.epoll - {fd})))
  }

  // ---- the invariant ----

  ghost predicate IsPending(s: State, i: nat)
    requires i < |s.regs|
  {
    Registered(s.t, s.regs[i].ctx, s.regs[i].ev) == Held(Waiter(i, s.regs[i].isFunc))
  }

  ghost predicate IsEnqueued(t: Table, i: nat) {
    exists k :: 0 <= k < |t.tasks| && t.tasks[k].id == i
  }

  // A waiter in the table is the registration it was made for, and is in no
  // other place.
  ghost predicate LiveOk(s: State, c: nat, ev: Event) {
    var r := Registered(s.t, c, ev);
    r.Held? ==>
      && r.waiter.id < |s.regs| && s.regs[r.waiter.id] == Reg(c, ev, r.waiter.isFunc)
      && !IsEnqueued(s.t, r.waiter.id) && r.waiter.id !in s.deleted
  }

  ghost predicate TaskOk(s: State, w: Waiter) {
    w.id < |s.regs| && s.regs[w.id].isFunc == w.isFunc && w.id !in s.deleted
  }

  ghost predicate OnceEach(t: Table) {
    forall i, j :: 0 <= i < j < |t.tasks| ==> t.tasks[i].id != t.tasks[j].id
  }

  ghost predicate Placed(s: State) {
    forall i :: 0 <= i < |s.regs| ==> IsPending(s, i) || IsEnqueued(s.t, i) || i in s.deleted
  }

  ghost predicate UnderWay(s: State) {
    && (forall c :: c in s.adding ==> c < |s.t.ctxs|)
    && (forall fd :: fd in s.growing ==> fd >= 32)
    && |s.t.vec| >= 32
  }

  ghost predicate History(s: State) {
    && (forall c, ev :: LiveOk(s, c, ev))
    && (forall k :: 0 <= k < |s.t.tasks| ==> TaskOk(s, s.t.tasks[k]))
    && OnceEach(s.t)
    && (forall i :: i in s.deleted ==> 0 <= i < |s.regs|)
    && Placed(s)
    && |s.regs| == s.t.pending + |s.t.tasks| + |s.deleted|
  }

  ghost predicate Good(s: State) {
    Tally(s.t, s.clears) && UnderWay(s) && History(s)
  }

  lemma InitGood(clears: bool)
    ensures Good(Init(clears)) && Watching(Init(clears).t)
  {
    StartInv(clears);
  }

  // ---- registrations leave the table by waking their waiters ----

  // From `t` to `u` the events `m` of context c, all registered, were dispatched.
  ghost predicate Wakes(t: Table, u: Table, c: nat, m: Mask) {
    c < |t.ctxs| && Subset(m, t.ctxs[c].events) && Leaves(t, u, c, m) && u.tasks == t.tasks + Woken(t, c, m)
  }

  lemma WokenTask(s: State, u: Table, c: nat, m: Mask, k: nat)
    requires Good(s) && Wakes(s.t, u, c, m) && |s.t.tasks| <= k < |u.tasks|
    ensures TaskOk(s, u.tasks[k]) && !IsEnqueued(s.t, u.tasks[k].id)
    ensures exists ev :: m.Has(ev) && Registered(s.t, c, ev) == Held(u.tasks[k])
  {
    var w := u.tasks[k];
    assert w == Woken(s.t, c, m)[k - |s.t.tasks|];
    assert LiveOk(s, c, Read) && LiveOk(s, c, Write) && SlotsOk(s.t.ctxs[c], s.clears);
    var ev := if m.read && s.t.ctxs[c].read == Held(w) then Read else Write;
    assert m.Has(ev) && Registered(s.t, c, ev) == Held(w);
  }

  lemma WokenIs(s: State, u: Table, c: nat, m: Mask, ev: Event)
    requires Good(s) && Wakes(s.t, u, c, m) && m.Has(ev)
    ensures Registered(s.t, c, ev).Held? && IsEnqueued(u, Registered(s.t, c, ev).waiter.id)
  {
    assert SlotsOk(s.t.ctxs[c], s.clears);
    var n := |s.t.tasks|;
    var k := if ev.Write? && m.read then n + 1 else n;
    assert u.tasks[k] == Registered(s.t, c, ev).waiter;
  }

  lemma WakesOnce(s: State, u: Table, c: nat, m: Mask)
    requires Good(s) && Wakes(s.t, u, c, m)
    ensures OnceEach(u) && |u.tasks| == |s.t.tasks| + BitsOf(m)
  {
    assert SlotsOk(s.t.ctxs[c], s.clears);
    assert LiveOk(s, c, Read) && LiveOk(s, c, Write);
    forall i, j | 0 <= i < j < |u.tasks| ensures u.tasks[i].id != u.tasks[j].id {
      if j >= |s.t.tasks| {
        WokenTask(s, u, c, m, j);
        assert i < |s.t.tasks| ==> u.tasks[i] == s.t.tasks[i];
      }
    }
  }

  lemma WakesLive(s: State, u: Table, c: nat, m: Mask, d: nat, ev: Event)
    requires Good(s) && Wakes(s.t, u, c, m)
    ensures LiveOk(s.(t := u), d, ev)
  {
    assert LiveOk(s, d, ev) && LiveOk(s, c, Read) && LiveOk(s, c, Write);
    var r := Registered(u, d, ev);
    if r.Held? && IsEnqueued(u, r.waiter.id) {
      var k :| 0 <= k < |u.tasks| && u.tasks[k].id == r.waiter.id;
      assert k >= |s.t.tasks|;
      WokenTask(s, u, c, m, k);
    }
  }

  lemma WakesPlaced(s: State, u: Table, c: nat, m: Mask)
    requires Good(s) && Wakes(s.t, u, c, m)
    ensures Placed(s.(t := u))
  {
    var v := s.(t := u);
    forall i | 0 <= i < |s.regs| ensures IsPending(v, i) || IsEnqueued(u, i) || i in s.deleted {
      if IsEnqueued(s.t, i) {
        var k :| 0 <= k < |s.t.tasks| && s.t.tasks[k].id == i;
        assert u.tasks[k].id == i;
      } else if i !in s.deleted {
        assert IsPending(s, i);
        if !IsPending(v, i) {
          WokenIs(s, u, c, m, s.regs[i].ev);
        }
      }
    }
  }

  lemma WakesGood(s: State, u: Table, c: nat, m: Mask)
    requires Good(s) && Wakes(s.t, u, c, m) && Tally(u, s.clears)
    ensures Good(s.(t := u))
  {
    var v := s.(t := u);
    forall d, e ensures LiveOk(v, d, e) {
      WakesLive(s, u, c, m, d, e);
    }
    forall k | 0 <= k < |u.tasks| ensures TaskOk(v, u.tasks[k]) {
      if k >= |s.t.tasks| {
        WokenTask(s, u, c, m, k);
      }
    }
    WakesOnce(s, u, c, m);
    WakesPlaced(s, u, c, m);
  }

  lemma CancelGood(s: State, fd: nat, ev: Event)
    requires Good(s) && Do(s, Cancel(fd, ev)).Went?
    ensures Good(Do(s, Cancel(fd, ev)).s)
  {
    if fd < |s.t.vec| {
      var c := s.t.vec[fd];
      CancelEffect(s.t, s.clears, c, ev);
      if Registered(s.t, c, ev).Held? {
        WakesGood(s, Do(s, Cancel(fd, ev)).s.t, c, Single(ev));
      }
    }
  }

  lemma CancelEventsGood(s: State, fd: nat)
    requires Good(s)
    ensures Do(s, CancelEvents(fd)).Went? && Good(Do(s, CancelEvents(fd)).s)
  {
    if fd < |s.t.vec| {
      var c := s.t.vec[fd];
      CancelAllEffect(s.t, s.clears, c);
      if CancelAllAt(s.t, s.clears, c).ok {
        WakesGood(s, Do(s, CancelEvents(fd)).s.t, c, s.t.ctxs[c].events);
      }
    }
  }

  lemma SignalGood(s: State, c: nat, r: Report)
    requires Good(s) && Enabled(s, Signal(c, r)) && Do(s, Signal(c, r)).Went?
    ensures Good(Do(s, Signal(c, r)).s)
  {
    ReadyEffect(s.t, s.clears, c, r);
    if Ready(s.t, s.clears, c, r).ok {
      WakesGood(s, Do(s, Signal(c, r)).s.t, c, Triggered(s.t.ctxs[c], r));
    }
  }

  // ---- the other steps ----

  // Nothing registered or scheduled changes.
  lemma SameHistory(s: State, v: State)
    requires History(s) && v.regs == s.regs && v.deleted == s.deleted && v.t.tasks == s.t.tasks && v.t.pending == s.t.pending
    requires forall c, e :: Registered(v.t, c, e) == Registered(s.t, c, e)
    ensures History(v)
  {
    forall c, e ensures LiveOk(v, c, e) {
      assert LiveOk(s, c, e);
    }
    forall k | 0 <= k < |v.t.tasks| ensures TaskOk(v, v.t.tasks[k]) {
      assert TaskOk(s, s.t.tasks[k]);
    }
    forall i | 0 <= i < |v.regs| ensures IsPending(v, i) || IsEnqueued(v.t, i) || i in v.deleted {
      assert IsPending(v, i) == IsPending(s, i) && IsEnqueued(v.t, i) == IsEnqueued(s.t, i);
    }
  }

  lemma RegisterGood(s: State, c: nat, ev: Event, isFunc: bool)
    requires Good(s) && Enabled(s, Register(c, ev, isFunc)) && Do(s, Register(c, ev, isFunc)).Went?
    ensures Good(Do(s, Register(c, ev, isFunc)).s)
  {
    var n := |s.regs|;
    var v := Do(s, Register(c, ev, isFunc)).s;
    AddEffect(s.t, s.clears, c, ev, Waiter(n, isFunc));
    forall d, e ensures LiveOk(v, d, e) {
      assert LiveOk(s, d, e);
      if d == c && e == ev {
        assert !IsEnqueued(s.t, n);
      }
    }
    forall k | 0 <= k < |v.t.tasks| ensures TaskOk(v, v.t.tasks[k]) {
      assert TaskOk(s, s.t.tasks[k]);
    }
    forall i | 0 <= i < |v.regs| ensures IsPending(v, i) || IsEnqueued(v.t, i) || i in v.deleted {
      if i < n && IsPending(s, i) {
        assert s.regs[i].ctx != c || s.regs[i].ev != ev;
      } else if i < n && IsEnqueued(s.t, i) {
        var k :| 0 <= k < |s.t.tasks| && s.t.tasks[k].id == i;
        assert v.t.tasks[k].id == i;
      }
    }
  }

  lemma DeletedHistory(s: State, v: State, c: nat, ev: Event)
    requires Good(s) && Registered(s.t, c, ev).Held? && Leaves(s.t, v.t, c, Single(ev)) && v.t.tasks == s.t.tasks
    requires v.regs == s.regs && v.deleted == s.deleted + {Registered(s.t, c, ev).waiter.id}
    ensures History(v)
  {
    assert LiveOk(s, c, ev);
    forall d, e ensures LiveOk(v, d, e) {
      assert LiveOk(s, d, e);
    }
    forall k | 0 <= k < |v.t.tasks| ensures TaskOk(v, v.t.tasks[k]) {
      assert TaskOk(s, s.t.tasks[k]);
    }
    forall i | 0 <= i < |v.regs| ensures IsPending(v, i) || IsEnqueued(v.t, i) || i in v.deleted {
      assert IsEnqueued(v.t, i) == IsEnqueued(s.t, i);
    }
  }

  lemma DeleteGood(s: State, fd: nat, ev: Event)
    requires Good(s) && Do(s, Delete(fd, ev)).Went?
    ensures Good(Do(s, Delete(fd, ev)).s)
  {
    if fd < |s.t.vec| {
      var c := s.t.vec[fd];
      DelEffect(s.t, s.clears, c, ev);
      if Registered(s.t, c, ev).Held? {
        DeletedHistory(s, Do(s, Delete(fd, ev)).s, c, ev);
      }
    }
  }

  lemma ResizeGood(s: State, fd: nat)
    requires Good(s) && Enabled(s, Resize(fd))
    ensures Do(s, Resize(fd)).Went? && Good(Do(s, Resize(fd)).s)
  {
    ResizeEffect(s.t, s.clears, NewSize(fd));
    SameHistory(s, Do(s, Resize(fd)).s);
  }

  lemma StepGood(s: State, step: Step)
    requires Good(s) && Enabled(s, step) && Do(s, step).Went?
    ensures Good(Do(s, step).s)
  {
    match step
    case Look(_) => SameHistory(s, Do(s, step).s);
    case Fetch(_) => SameHistory(s, Do(s, step).s);
    case Close(_) => SameHistory(s, Do(s, step).s);
    case Resize(fd) => ResizeGood(s, fd);
    case Register(c, ev, isFunc) => RegisterGood(s, c, ev, isFunc);
    case Delete(fd, ev) => DeleteGood(s, fd, ev);
    case Cancel(fd, ev) => CancelGood(s, fd, ev);
    case CancelEvents(fd) => CancelEventsGood(s, fd);
    case Signal(c, r) => SignalGood(s, c, r);
  }

  // ---- whole runs ----

  ghost predicate Survives(s: State, run: seq<Step>)
    decreases |run|
  {
    run == [] || (Enabled(s, run[0]) && Do(s, run[0]).Went? && Survives(Do(s, run[0]).s, run[1..]))
  }

  ghost function Final(s: State, run: seq<Step>): State
    requires Survives(s, run)
    decreases |run|
  {
    if run == [] then s else Final(Do(s, run[0]).s, run[1..])
  }

  lemma {:induction false} RunGood(s: State, run: seq<Step>)
    requires Good(s) && Survives(s, run)
    ensures Good(Final(s, run))
    decreases |run|
  {
    if run != [] {
      StepGood(s, run[0]);
      RunGood(Do(s, run[0]).s, run[1..]);
    }
  }

  // Exactly once, in every run, whatever is resized or closed: registrations made
  // = pending + enqueued + deleted, no registration is enqueued twice, each is in
  // exactly one of the three places, and what is enqueued is what was registered.
  lemma ExactlyOnceWake(clears: bool, run: seq<Step>)
    requires Survives(Init(clears), run)
    ensures var s := Final(Init(clears), run);
      && |s.regs| == s.t.pending + |s.t.tasks| + |s.deleted|
      && OnceEach(s.t)
      && (forall k :: 0 <= k < |s.t.tasks| ==> TaskOk(s, s.t.tasks[k]))
      && (forall i :: 0 <= i < |s.regs| ==>
        && (IsPending(s, i) || IsEnqueued(s.t, i) || i in s.deleted)
        && !(IsPending(s, i) && IsEnqueued(s.t, i)) && !(IsPending(s, i) && i in s.deleted)
        && !(IsEnqueued(s.t, i) && i in s.deleted))
  {
    InitGood(clears);
    RunGood(Init(clears), run);
    var s := Final(Init(clears), run);
    forall i | 0 <= i < |s.regs|
      ensures !(IsPending(s, i) && IsEnqueued(s.t, i)) && !(IsPending(s, i) && i in s.deleted)
      ensures !(IsEnqueued(s.t, i) && i in s.deleted)
    {
      assert LiveOk(s, s.regs[i].ctx, s.regs[i].ev);
    }
  }
}
