/**
 * The event table of src/iomanager.h and src/iomanager.cpp: contexts with an
 * event mask and a waiter slot per event, the vector that finds the context of a
 * descriptor, the interest table of epoll, which keeps a pointer to the context
 * it reports, and the pending counter. A context that a resize cuts from the
 * vector is not deleted.
 *
 * Each locked section is defined on a `Table`; IOManagers runs the same sections
 * in place. A failed ASSERT ends the process and is the outcome `Abort`.
 *
 * `clears` says whether a slot is emptied when its event is deleted or
 * dispatched. The code works on a copy of the slot (iomanager.h, lines 46 and
 * 55), which is clears == false; clears == true is what the code is after.
 */
module Events {
  import opened Basics

  datatype Event = Read | Write

  datatype Mask = Mask(read: bool, write: bool) {
    predicate Has(ev: Event) { if ev.Read? then read else write }
    predicate Empty() { !read && !write }
    function With(ev: Event): Mask { if ev.Read? then this.(read := true) else this.(write := true) }
    function Without(ev: Event): Mask { if ev.Read? then this.(read := false) else this.(write := false) }
    function Minus(m: Mask): Mask { Mask(read && !m.read, write && !m.write) }
    function And(m: Mask): Mask { Mask(read && m.read, write && m.write) }
  }

  const NONE: Mask := Mask(false, false)

  // Who is woken: a fiber or a function, told apart by a registration number.
  datatype Waiter = Waiter(id: nat, isFunc: bool)
  datatype Slot = Free | Held(waiter: Waiter)

  datatype Ctx = Ctx(fd: nat, events: Mask, read: Slot, write: Slot) {
    function At(ev: Event): Slot { if ev.Read? then read else write }
    function Put(ev: Event, s: Slot): Ctx { if ev.Read? then this.(read := s) else this.(write := s) }
  }

  function Fresh(fd: nat): Ctx { Ctx(fd, NONE, Free, Free) }

  // The kernel's interest in a descriptor: a mask, and the context in data.ptr.
  datatype Watch = Watch(mask: Mask, ctx: nat)

  datatype Table = Table(
    ctxs: seq<Ctx>,          // every FdContext made; its number stands for its address
    vec: seq<nat>,           // m_fd_contexts
    epoll: map<nat, Watch>,  // the kernel's interest table, by descriptor
    pending: int,            // m_pending_count
    tasks: seq<Waiter>)      // everything handed to Scheduler::schedule, in order

  datatype Outcome = Done(ok: bool, t: Table) | Abort

  datatype EpollOp = Add | Mod | Del
  datatype Interest = Accepted(table: map<nat, Watch>) | Refused

  // epoll_ctl: ADD of a known descriptor and MOD or DEL of an unknown one fail.
  function EpollCtl(epoll: map<nat, Watch>, op: EpollOp, fd: nat, w: Watch): Interest {
    match op
    case Add => if fd in epoll then Refused else Accepted(epoll[fd := w])
    case Mod => if fd in epoll then Accepted(epoll[fd := w]) else Refused
    case Del => if fd in epoll then Accepted(epoll - {fd}) else Refused
  }

  function OpFor(left: Mask): EpollOp { if left.Empty() then Del else Mod }

  function Numbers(from: nat, k: nat): (r: seq<nat>)
    ensures |r| == k && forall i :: 0 <= i < k ==> r[i] == from + i
  {
    seq(k, i requires 0 <= i < k => from + i)
  }

  function NewContexts(from: nat, k: nat): (r: seq<Ctx>)
    ensures |r| == k && forall i :: 0 <= i < k ==> r[i] == Fresh(from + i)
  {
    seq(k, i requires 0 <= i < k => Fresh(from + i))
  }

  // resizeContexts: std::vector::resize, then a new context for every null entry.
  function Resized(t: Table, size: nat): Table {
    if size <= |t.vec| then t.(vec := t.vec[..size])
    else
      var k := size - |t.vec|;
      t.(vec := t.vec + Numbers(|t.ctxs|, k), ctxs := t.ctxs + NewContexts(|t.vec|, k))
  }

  // Padding one by one.
  lemma ResizedStep(t: Table, k: nat)
    requires |t.vec| <= k
    ensures Resized(Resized(t, k), k + 1) == Resized(t, k + 1)
  {
    var u := Resized(t, k);
    assert u.vec + Numbers(|u.ctxs|, 1) == t.vec + Numbers(|t.ctxs|, k + 1 - |t.vec|);
    assert u.ctxs + NewContexts(k, 1) == t.ctxs + NewContexts(|t.vec|, k + 1 - |t.vec|);
  }

  // The size addEvent asks for.
  function NewSize(fd: nat): nat { 3 * fd / 2 }

  // FdContext::scheduleEvent, under the context's lock.
  function Dispatch(t: Table, clears: bool, c: nat, ev: Event): Outcome
    requires c < |t.ctxs|
  {
    var f := t.ctxs[c];
    if !f.events.Has(ev) || f.At(ev).Free? then Abort
    else Done(true, t.(ctxs := t.ctxs[c := Dropped(f, clears, ev)], tasks := t.tasks + [f.At(ev).waiter]))
  }

  function Dropped(f: Ctx, clears: bool, ev: Event): Ctx {
    var g := f.(events := f.events.Without(ev));
    if clears then g.Put(ev, Free) else g
  }

  // The part of addEvent under the context's lock. The test for an event that is
  // already there is made before the lock is taken.
  function AddLocked(t: Table, c: nat, ev: Event, w: Waiter): Outcome
    requires c < |t.ctxs|
  {
    var f := t.ctxs[c];
    var m := f.events.With(ev);
    var e := EpollCtl(t.epoll, if f.events.Empty() then Add else Mod, f.fd, Watch(m, c));
    if e.Refused? || f.At(ev).Held? then Abort
    else Done(true, t.(ctxs := t.ctxs[c := f.(events := m).Put(ev, Held(w))], epoll := e.table, pending := t.pending + 1))
  }

  predicate VecOk(t: Table) {
    forall i :: 0 <= i < |t.vec| ==> t.vec[i] < |t.ctxs| && t.ctxs[t.vec[i]].fd == i
  }

  // addEvent without interruption.
  function AddEvent(t: Table, fd: nat, ev: Event, w: Waiter): Outcome
    requires VecOk(t) && |t.vec| >= 2
  {
    var g := if |t.vec| <= fd then Resized(t, NewSize(fd)) else t;
    if g.ctxs[g.vec[fd]].events.Has(ev) then Abort else AddLocked(g, g.vec[fd], ev, w)
  }

  function DelAt(t: Table, clears: bool, c: nat, ev: Event): Outcome
    requires c < |t.ctxs|
  {
    var f := t.ctxs[c];
    if !f.events.Has(ev) then Done(false, t)
    else
      var left := f.events.Without(ev);
      var e := EpollCtl(t.epoll, OpFor(left), f.fd, Watch(left, c));
      if e.Refused? then Abort
      else Done(true, t.(ctxs := t.ctxs[c := Dropped(f, clears, ev)], epoll := e.table, pending := t.pending - 1))
  }

  function CancelAt(t: Table, clears: bool, c: nat, ev: Event): Outcome
    requires c < |t.ctxs|
  {
    var f := t.ctxs[c];
    if !f.events.Has(ev) then Done(false, t)
    else
      var left := f.events.Without(ev);
      var e := EpollCtl(t.epoll, OpFor(left), f.fd, Watch(left, c));
      if e.Refused? then Abort
      else Dispatch(t.(epoll := e.table, pending := t.pending - 1), clears, c, ev)
  }

  function DispatchIf(t: Table, clears: bool, c: nat, ev: Event, on: bool): Outcome
    requires c < |t.ctxs|
  {
    if !on then Done(true, t)
    else
      var a := Dispatch(t, clears, c, ev);
      if a.Abort? then Abort else Done(true, a.t.(pending := a.t.pending - 1))
  }

  // READ, then WRITE, for the events in `m`.
  function DispatchAll(t: Table, clears: bool, c: nat, m: Mask): Outcome
    requires c < |t.ctxs|
  {
    var a := DispatchIf(t, clears, c, Read, m.read);
    if a.Abort? then Abort else DispatchIf(a.t, clears, c, Write, m.write)
  }

  function CancelAllAt(t: Table, clears: bool, c: nat): Outcome
    requires c < |t.ctxs|
  {
    var f := t.ctxs[c];
    if f.events.Empty() then Done(false, t)
    else
      var e := EpollCtl(t.epoll, Del, f.fd, Watch(NONE, c));
      if e.Refused? then Done(false, t)
      else DispatchAll(t.(epoll := e.table), clears, c, f.events)
  }

  // The public operations look the context up by descriptor.
  function DelEvent(t: Table, clears: bool, fd: nat, ev: Event): Outcome
    requires VecOk(t)
  {
    if |t.vec| <= fd then Done(false, t) else DelAt(t, clears, t.vec[fd], ev)
  }

  function CancelEvent(t: Table, clears: bool, fd: nat, ev: Event): Outcome
    requires VecOk(t)
  {
    if |t.vec| <= fd then Done(false, t) else CancelAt(t, clears, t.vec[fd], ev)
  }

  function CancelAll(t: Table, clears: bool, fd: nat): Outcome
    requires VecOk(t)
  {
    if |t.vec| <= fd then Done(false, t) else CancelAllAt(t, clears, t.vec[fd])
  }

  // What epoll_wait reports: EPOLLIN, EPOLLOUT, and EPOLLHUP or EPOLLERR.
  datatype Report = Report(ready: Mask, broken: bool)

  function Triggered(f: Ctx, r: Report): Mask {
    if r.broken then f.events else r.ready
  }

  // IOManager::scheduleEvent on the context in data.ptr. The triggered events are
  // dispatched as reported, without masking them with the registered ones.
  function Ready(t: Table, clears: bool, c: nat, r: Report): Outcome
    requires c < |t.ctxs|
  {
    var f := t.ctxs[c];
    var trig := Triggered(f, r);
    if f.events.And(trig).Empty() then Done(false, t)
    else
      var left := f.events.Minus(trig);
      var e := EpollCtl(t.epoll, OpFor(left), f.fd, Watch(left, c));
      if e.Refused? then Done(false, t)
      else DispatchAll(t.(epoll := e.table), clears, c, trig)
  }

  // ---- the table invariants ----

  function BitsOf(m: Mask): nat { One(m.read) + One(m.write) }

  // Number of set bits over all contexts.
  function Bits(ctxs: seq<Ctx>): nat {
    if ctxs == [] then 0 else Bits(ctxs[..|ctxs| - 1]) + BitsOf(ctxs[|ctxs| - 1].events)
  }

  lemma {:induction false} BitsUpdate(ctxs: seq<Ctx>, i: nat, f: Ctx)
    requires i < |ctxs|
    ensures Bits(ctxs[i := f]) == Bits(ctxs) - BitsOf(ctxs[i].events) + BitsOf(f.events)
  {
    var n := |ctxs| - 1;
    if i == n {
      assert ctxs[i := f][..n] == ctxs[..n];
    } else {
      assert ctxs[i := f][..n] == ctxs[..n][i := f];
      BitsUpdate(ctxs[..n], i, f);
    }
  }

  lemma {:induction false} BitsAppend(a: seq<Ctx>, b: seq<Ctx>)
    ensures Bits(a + b) == Bits(a) + Bits(b)
  {
    if b == [] {
      assert a + b == a;
    } else {
      var n := |b| - 1;
      assert (a + b)[..|a| + n] == a + b[..n];
      BitsAppend(a, b[..n]);
    }
  }

  lemma {:induction false} NoBits(ctxs: seq<Ctx>)
    requires forall i :: 0 <= i < |ctxs| ==> ctxs[i].events == NONE
    ensures Bits(ctxs) == 0
  {
    if ctxs != [] {
      NoBits(ctxs[..|ctxs| - 1]);
    }
  }

  // The registration a context and event hold: the waiter in the slot, if the bit
  // is set.
  ghost function Registered(t: Table, c: nat, ev: Event): Slot {
    if c < |t.ctxs| && t.ctxs[c].events.Has(ev) then t.ctxs[c].At(ev) else Free
  }

  ghost predicate SlotOk(bit: bool, slot: Slot, clears: bool) {
    (bit ==> slot.Held?) && (clears && slot.Held? ==> bit)
  }

  ghost predicate SlotsOk(f: Ctx, clears: bool) {
    SlotOk(f.events.read, f.read, clears) && SlotOk(f.events.write, f.write, clears)
  }

  // A set bit has a waiter, the vector and the kernel point to contexts of their
  // descriptor, and the counter is the number of set bits.
  ghost predicate Tally(t: Table, clears: bool) {
    && (forall c :: 0 <= c < |t.ctxs| ==> SlotsOk(t.ctxs[c], clears))
    && VecOk(t)
    && (forall fd :: fd in t.epoll ==> t.epoll[fd].ctx < |t.ctxs| && t.ctxs[t.epoll[fd].ctx].fd == fd)
    && t.pending == Bits(t.ctxs)
  }

  // What the kernel watches for on behalf of a context.
  ghost function Watched(t: Table, c: nat): Mask
    requires c < |t.ctxs|
  {
    var fd := t.ctxs[c].fd;
    if fd in t.epoll && t.epoll[fd].ctx == c then t.epoll[fd].mask else NONE
  }

  // The kernel watches exactly the mask of every context.
  ghost predicate Watching(t: Table) {
    && (forall c :: 0 <= c < |t.ctxs| ==> Watched(t, c) == t.ctxs[c].events)
    && (forall fd :: fd in t.epoll ==> !t.epoll[fd].mask.Empty())
  }

  ghost predicate Inv(t: Table, clears: bool) { Tally(t, clears) && Watching(t) }

  // `u` differs from `t` in context c and in the interest in its descriptor.
  ghost predicate OnlyCtx(t: Table, u: Table, c: nat) {
    && c < |t.ctxs| && |u.ctxs| == |t.ctxs| && u.vec == t.vec
    && u.ctxs == t.ctxs[c := u.ctxs[c]] && u.ctxs[c].fd == t.ctxs[c].fd
    && (forall fd :: fd != t.ctxs[c].fd ==> (fd in u.epoll <==> fd in t.epoll) && (fd in t.epoll ==> u.epoll[fd] == t.epoll[fd]))
  }

  lemma TallyFromOne(t: Table, u: Table, clears: bool, c: nat)
    requires Tally(t, clears) && OnlyCtx(t, u, c) && SlotsOk(u.ctxs[c], clears)
    requires var fd := t.ctxs[c].fd; fd in u.epoll ==> u.epoll[fd].ctx == c || (fd in t.epoll && u.epoll[fd] == t.epoll[fd])
    requires u.pending - t.pending == BitsOf(u.ctxs[c].events) - BitsOf(t.ctxs[c].events)
    ensures Tally(u, clears)
  {
    BitsUpdate(t.ctxs, c, u.ctxs[c]);
  }

  // While the kernel watches for context c or for nobody, changing both together
  // keeps them equal.
  lemma WatchingFromOne(t: Table, u: Table, c: nat)
    requires Watching(t) && OnlyCtx(t, u, c) && Watched(u, c) == u.ctxs[c].events
    requires var fd := t.ctxs[c].fd;
      && (fd in t.epoll ==> t.epoll[fd].ctx == c)
      && (fd in u.epoll ==> u.epoll[fd].ctx == c && !u.epoll[fd].mask.Empty())
    ensures Watching(u)
  {
    forall d | 0 <= d < |u.ctxs| ensures Watched(u, d) == u.ctxs[d].events {
      assert Watched(t, d) == t.ctxs[d].events;
    }
  }

  // ---- what each section does ----

  // The kernel refuses addEvent's request.
  ghost predicate AddRefused(t: Table, c: nat)
    requires c < |t.ctxs|
  {
    t.ctxs[c].events.Empty() <==> t.ctxs[c].fd in t.epoll
  }

  // addEvent: a new registration, or an abort, exactly when the slot is occupied
  // or the kernel refuses. In a watched table it refuses exactly when it already
  // watches for another context of the descriptor.
  lemma AddEffect(t: Table, clears: bool, c: nat, ev: Event, w: Waiter)
    requires Tally(t, clears) && c < |t.ctxs|
    ensures var r := AddLocked(t, c, ev, w);
      && (r.Abort? <==> t.ctxs[c].At(ev).Held? || AddRefused(t, c))
      && (clears ==> (r.Abort? <==> Registered(t, c, ev).Held? || AddRefused(t, c)))
      && (r.Done? ==>
        && Tally(r.t, clears) && r.t.tasks == t.tasks && r.t.vec == t.vec && |r.t.ctxs| == |t.ctxs| && r.t.ctxs[c].fd == t.ctxs[c].fd
        && Registered(t, c, ev) == Free && Registered(r.t, c, ev) == Held(w) && r.t.pending == t.pending + 1
        && (forall d, e :: d != c || e != ev ==> Registered(r.t, d, e) == Registered(t, d, e)))
  {
    var r := AddLocked(t, c, ev, w);
    if r.Done? {
      TallyFromOne(t, r.t, clears, c);
    }
  }

  lemma AddWatches(t: Table, clears: bool, c: nat, ev: Event, w: Waiter)
    requires Inv(t, clears) && c < |t.ctxs|
    ensures AddRefused(t, c) <==> t.ctxs[c].fd in t.epoll && t.epoll[t.ctxs[c].fd].ctx != c
    ensures AddLocked(t, c, ev, w).Done? ==> Watching(AddLocked(t, c, ev, w).t)
  {
    assert Watched(t, c) == t.ctxs[c].events;
    var r := AddLocked(t, c, ev, w);
    if r.Done? {
      WatchingFromOne(t, r.t, c);
    }
  }

  // From `t` to `u` the registrations `m` of context c, and no others, left.
  ghost predicate Leaves(t: Table, u: Table, c: nat, m: Mask) {
    && |u.ctxs| == |t.ctxs| && u.vec == t.vec && (forall d :: 0 <= d < |t.ctxs| ==> u.ctxs[d].fd == t.ctxs[d].fd)
    && u.pending == t.pending - BitsOf(m)
    && (forall d, e :: Registered(u, d, e) == if d == c && m.Has(e) then Free else Registered(t, d, e))
  }

  // The waiters of the events in `m`, READ first.
  ghost function Woken(t: Table, c: nat, m: Mask): seq<Waiter>
    requires c < |t.ctxs|
  {
    var f := t.ctxs[c];
    (if m.read && f.read.Held? then [f.read.waiter] else []) + (if m.write && f.write.Held? then [f.write.waiter] else [])
  }

  ghost predicate Subset(m: Mask, n: Mask) { m.Minus(n).Empty() }

  function Single(ev: Event): Mask { NONE.With(ev) }

  // What dispatching the events `m`, all registered, leaves of a context.
  ghost function DroppedAll(f: Ctx, clears: bool, m: Mask): Ctx {
    var g := if m.read then Dropped(f, clears, Read) else f;
    if m.write then Dropped(g, clears, Write) else g
  }

  lemma LeavesFromDrop(t: Table, u: Table, clears: bool, c: nat, m: Mask)
    requires Tally(t, clears) && OnlyCtx(t, u, c) && Subset(m, t.ctxs[c].events) && u.ctxs[c] == DroppedAll(t.ctxs[c], clears, m)
    requires u.pending == t.pending - BitsOf(m)
    requires var fd := t.ctxs[c].fd; fd in u.epoll ==> u.epoll[fd].ctx == c || (fd in t.epoll && u.epoll[fd] == t.epoll[fd])
    ensures Tally(u, clears) && Leaves(t, u, c, m)
  {
    assert SlotsOk(t.ctxs[c], clears);
    TallyFromOne(t, u, clears, c);
  }

  // delEvent on a context: the registration leaves without being woken.
  lemma DelEffect(t: Table, clears: bool, c: nat, ev: Event)
    requires Tally(t, clears) && c < |t.ctxs|
    ensures var r := DelAt(t, clears, c, ev); var has := Registered(t, c, ev).Held?;
      && (r.Abort? <==> has && t.ctxs[c].fd !in t.epoll)
      && (r.Done? ==>
        && r.ok == has && Tally(r.t, clears) && r.t.tasks == t.tasks && (!r.ok ==> r.t == t)
        && (r.ok ==> Leaves(t, r.t, c, Single(ev))))
  {
    assert SlotsOk(t.ctxs[c], clears);
    var r := DelAt(t, clears, c, ev);
    if r.Done? && r.ok {
      LeavesFromDrop(t, r.t, clears, c, Single(ev));
    }
  }

  lemma DelWatches(t: Table, clears: bool, c: nat, ev: Event)
    requires Inv(t, clears) && c < |t.ctxs|
    ensures var r := DelAt(t, clears, c, ev); r.Done? && Watching(r.t)
  {
    assert Watched(t, c) == t.ctxs[c].events && SlotsOk(t.ctxs[c], clears);
    var r := DelAt(t, clears, c, ev);
    if r.Done? && r.ok {
      WatchingFromOne(t, r.t, c);
    }
  }

  // cancelEvent on a context: the waiter is scheduled, or nothing changes.
  lemma CancelEffect(t: Table, clears: bool, c: nat, ev: Event)
    requires Tally(t, clears) && c < |t.ctxs|
    ensures var r := CancelAt(t, clears, c, ev); var has := Registered(t, c, ev).Held?;
      && (r.Abort? <==> has && t.ctxs[c].fd !in t.epoll)
      && (r.Done? ==>
        && r.ok == has && Tally(r.t, clears) && (!r.ok ==> r.t == t)
        && (r.ok ==> Leaves(t, r.t, c, Single(ev)) && r.t.tasks == t.tasks + Woken(t, c, Single(ev))))
  {
    assert SlotsOk(t.ctxs[c], clears);
    var r := CancelAt(t, clears, c, ev);
    if r.Done? && r.ok {
      LeavesFromDrop(t, r.t, clears, c, Single(ev));
    }
  }

  lemma CancelWatches(t: Table, clears: bool, c: nat, ev: Event)
    requires Inv(t, clears) && c < |t.ctxs|
    ensures var r := CancelAt(t, clears, c, ev); r.Done? && Watching(r.t)
  {
    assert Watched(t, c) == t.ctxs[c].events && SlotsOk(t.ctxs[c], clears);
    var r := CancelAt(t, clears, c, ev);
    if r.Done? && r.ok {
      WatchingFromOne(t, r.t, c);
    }
  }

  lemma DispatchAllForm(t: Table, clears: bool, c: nat, m: Mask)
    requires c < |t.ctxs| && SlotsOk(t.ctxs[c], clears)
    ensures var r := DispatchAll(t, clears, c, m);
      && (r.Abort? <==> !Subset(m, t.ctxs[c].events))
      && (r.Done? ==> r == Done(true, t.(ctxs := t.ctxs[c := DroppedAll(t.ctxs[c], clears, m)],
                                         tasks := t.tasks + Woken(t, c, m), pending := t.pending - BitsOf(m))))
  {
  }

  lemma DispatchAllEffect(t: Table, clears: bool, c: nat, m: Mask, epoll: map<nat, Watch>)
    requires Tally(t, clears) && c < |t.ctxs|
    requires var fd := t.ctxs[c].fd; epoll == t.epoll - {fd} || (exists w: Watch :: w.ctx == c && epoll == t.epoll[fd := w])
    ensures var r := DispatchAll(t.(epoll := epoll), clears, c, m);
      && (r.Abort? <==> !Subset(m, t.ctxs[c].events))
      && (r.Done? ==> r.ok && Tally(r.t, clears) && Leaves(t, r.t, c, m) && r.t.tasks == t.tasks + Woken(t, c, m))
  {
    var s := t.(epoll := epoll);
    DispatchAllForm(s, clears, c, m);
    var r := DispatchAll(s, clears, c, m);
    if r.Done? {
      LeavesFromDrop(t, r.t, clears, c, m);
    }
  }

  // cancelAll on a context: every waiter is scheduled, unless there is none or
  // the kernel does not know the descriptor.
  lemma CancelAllEffect(t: Table, clears: bool, c: nat)
    requires Tally(t, clears) && c < |t.ctxs|
    ensures var r := CancelAllAt(t, clears, c);
      && r.Done? && (r.ok <==> !t.ctxs[c].events.Empty() && t.ctxs[c].fd in t.epoll)
      && Tally(r.t, clears) && (!r.ok ==> r.t == t)
      && (r.ok ==> Leaves(t, r.t, c, t.ctxs[c].events) && r.t.tasks == t.tasks + Woken(t, c, t.ctxs[c].events)
                   && t.ctxs[c].fd !in r.t.epoll)
  {
    var f := t.ctxs[c];
    if !f.events.Empty() && f.fd in t.epoll {
      DispatchAllEffect(t, clears, c, f.events, t.epoll - {f.fd});
      DispatchAllForm(t.(epoll := t.epoll - {f.fd}), clears, c, f.events);
    }
  }

  lemma CancelAllWatches(t: Table, clears: bool, c: nat)
    requires Inv(t, clears) && c < |t.ctxs|
    ensures var r := CancelAllAt(t, clears, c); r.Done? && Watching(r.t) && (r.ok <==> !t.ctxs[c].events.Empty())
  {
    assert Watched(t, c) == t.ctxs[c].events && SlotsOk(t.ctxs[c], clears);
    var f := t.ctxs[c];
    CancelAllEffect(t, clears, c);
    if !f.events.Empty() {
      DispatchAllForm(t.(epoll := t.epoll - {f.fd}), clears, c, f.events);
      WatchingFromOne(t, CancelAllAt(t, clears, c).t, c);
    }
  }

  // Readiness: exactly the waiters of the triggered events are scheduled; after a
  // hangup or an error those are all the registered ones. It aborts exactly when the kernel knows the descriptor and the report names a
  // registered event together with one that is not.
  lemma ReadyEffect(t: Table, clears: bool, c: nat, rep: Report)
    requires Tally(t, clears) && c < |t.ctxs|
    ensures var f := t.ctxs[c]; var m := if rep.broken then f.events else rep.ready; var r := Ready(t, clears, c, rep);
      var hits := !m.And(f.events).Empty() && f.fd in t.epoll;
      && (r.Abort? <==> hits && !Subset(m, f.events))
      && (r.Done? ==>
        && r.ok == hits && Tally(r.t, clears) && (!r.ok ==> r.t == t)
        && (r.ok ==> Subset(m, f.events) && Leaves(t, r.t, c, m) && r.t.tasks == t.tasks + Woken(t, c, m)))
  {
    var f := t.ctxs[c];
    var m := Triggered(f, rep);
    if !f.events.And(m).Empty() && f.fd in t.epoll {
      var left := f.events.Minus(m);
      var epoll := if left.Empty() then t.epoll - {f.fd} else t.epoll[f.fd := Watch(left, c)];
      DispatchAllEffect(t, clears, c, m, epoll);
    }
  }

  // A hangup or an error wakes every waiter of the context and never aborts,
  // whatever else is reported.
  lemma HangupWakesAll(t: Table, clears: bool, c: nat, rep: Report)
    requires Tally(t, clears) && c < |t.ctxs| && rep.broken && t.ctxs[c].fd in t.epoll
    requires Registered(t, c, Read).Held? || Registered(t, c, Write).Held?
    ensures var r := Ready(t, clears, c, rep); var f := t.ctxs[c];
      && r.Done? && r.ok
      && (forall d, e :: Registered(r.t, d, e) == if d == c then Free else Registered(t, d, e))
      && r.t.pending == t.pending - One(f.events.read) - One(f.events.write)
      && r.t.tasks == t.tasks + (if f.events.read then [f.read.waiter] else []) + (if f.events.write then [f.write.waiter] else [])
  {
    assert SlotsOk(t.ctxs[c], clears);
    ReadyEffect(t, clears, c, rep);
    var r := Ready(t, clears, c, rep);
    forall d, e ensures Registered(r.t, d, e) == if d == c then Free else Registered(t, d, e) {
      assert t.ctxs[c].events.Has(e) || Registered(t, c, e) == Free;
    }
  }

  lemma ReadyWatches(t: Table, clears: bool, c: nat, rep: Report)
    requires Inv(t, clears) && c < |t.ctxs| && Ready(t, clears, c, rep).Done?
    ensures Watching(Ready(t, clears, c, rep).t)
  {
    assert Watched(t, c) == t.ctxs[c].events && SlotsOk(t.ctxs[c], clears);
    var f := t.ctxs[c];
    var m := Triggered(f, rep);
    ReadyEffect(t, clears, c, rep);
    if !f.events.And(m).Empty() {
      var left := f.events.Minus(m);
      var epoll := if left.Empty() then t.epoll - {f.fd} else t.epoll[f.fd := Watch(left, c)];
      DispatchAllForm(t.(epoll := epoll), clears, c, m);
      WatchingFromOne(t, Ready(t, clears, c, rep).t, c);
    }
  }

  // ---- resizes, and what they put out of reach ----

  // The vector finds the context.
  ghost predicate InVector(t: Table, c: nat) {
    c < |t.ctxs| && t.ctxs[c].fd < |t.vec| && t.vec[t.ctxs[c].fd] == c
  }

  lemma ResizeVecOk(t: Table, n: nat)
    requires VecOk(t)
    ensures VecOk(Resized(t, n))
  {
    var u := Resized(t, n);
    forall i | 0 <= i < |u.vec| ensures u.vec[i] < |u.ctxs| && u.ctxs[u.vec[i]].fd == i {
      if i >= |t.vec| {
        assert u.ctxs[u.vec[i]] == NewContexts(|t.vec|, n - |t.vec|)[i - |t.vec|];
      }
    }
  }

  lemma ResizeTally(t: Table, clears: bool, n: nat)
    requires Tally(t, clears)
    ensures Tally(Resized(t, n), clears)
  {
    ResizeVecOk(t, n);
    if n > |t.vec| {
      var more := NewContexts(|t.vec|, n - |t.vec|);
      NoBits(more);
      BitsAppend(t.ctxs, more);
      assert forall i :: 0 <= i < |more| ==> SlotsOk(more[i], clears);
    }
  }

  // A resize, up or down, changes no registration and no context; a context stays
  // in the vector exactly when its descriptor is below the new size.
  lemma ResizeEffect(t: Table, clears: bool, n: nat)
    requires Tally(t, clears)
    ensures var u := Resized(t, n);
      && Tally(u, clears) && u.pending == t.pending && u.tasks == t.tasks && u.epoll == t.epoll
      && |u.vec| == n && |t.ctxs| <= |u.ctxs|
      && (forall c :: 0 <= c < |t.ctxs| ==> u.ctxs[c] == t.ctxs[c] && (InVector(u, c) <==> InVector(t, c) && t.ctxs[c].fd < n))
      && (forall c, e :: Registered(u, c, e) == Registered(t, c, e))
  {
    ResizeTally(t, clears, n);
    var u := Resized(t, n);
    forall c | |t.ctxs| <= c < |u.ctxs| ensures u.ctxs[c].events == NONE {
      assert u.ctxs[c] == NewContexts(|t.vec|, n - |t.vec|)[c - |t.ctxs|];
    }
  }

  lemma ResizeWatches(t: Table, clears: bool, n: nat)
    requires Inv(t, clears)
    ensures Watching(Resized(t, n))
  {
    var u := Resized(t, n);
    forall c | 0 <= c < |u.ctxs| ensures Watched(u, c) == u.ctxs[c].events {
      if c < |t.ctxs| {
        assert Watched(t, c) == t.ctxs[c].events;
      } else {
        assert u.ctxs[c] == NewContexts(|t.vec|, n - |t.vec|)[c - |t.ctxs|];
      }
    }
  }

  // addEvent without interruption. It registers the waiter for the event on the
  // context the vector then has for the descriptor, which is a new one exactly
  // when the vector was too small, and touches nothing else. It aborts exactly
  // when the slot is occupied or the kernel refuses.
  lemma AddEventEffect(t: Table, clears: bool, fd: nat, ev: Event, w: Waiter)
    requires Tally(t, clears) && |t.vec| >= 2
    ensures var r := AddEvent(t, fd, ev, w);
      && (fd < |t.vec| ==> var f := t.ctxs[t.vec[fd]]; r.Abort? <==> f.At(ev).Held? || (f.events == NONE <==> fd in t.epoll))
      && (fd >= |t.vec| ==> (r.Abort? <==> fd in t.epoll))
      && (r.Done? ==>
        && r.ok && Tally(r.t, clears) && fd < |r.t.vec| && (forall i :: 0 <= i < |t.vec| ==> r.t.vec[i] == t.vec[i])
        && Added(t, r.t, r.t.vec[fd], ev, w)
        && r.t.ctxs[r.t.vec[fd]].fd == fd && (fd >= |t.vec| <==> r.t.vec[fd] >= |t.ctxs|))
  {
    if |t.vec| <= fd {
      ResizeEffect(t, clears, NewSize(fd));
      var g := Resized(t, NewSize(fd));
      var c := g.vec[fd];
      assert g.ctxs[c] == NewContexts(|t.vec|, NewSize(fd) - |t.vec|)[fd - |t.vec|];
      AddEffect(g, clears, c, ev, w);
    } else {
      assert SlotsOk(t.ctxs[t.vec[fd]], clears);
      AddEffect(t, clears, t.vec[fd], ev, w);
    }
  }

  // From `t` to `u` one registration was made, of w for ev on context c.
  ghost predicate Added(t: Table, u: Table, c: nat, ev: Event, w: Waiter) {
    && Registered(t, c, ev) == Free && Registered(u, c, ev) == Held(w)
    && (forall d, e :: d != c || e != ev ==> Registered(u, d, e) == Registered(t, d, e))
    && u.pending == t.pending + 1 && u.tasks == t.tasks
  }

  // And it keeps the kernel's interest equal to the masks, so the kernel watches
  // for the event afterwards.
  lemma AddEventWatches(t: Table, clears: bool, fd: nat, ev: Event, w: Waiter)
    requires Inv(t, clears) && |t.vec| >= 2 && AddEvent(t, fd, ev, w).Done?
    ensures var u := AddEvent(t, fd, ev, w).t;
      Inv(u, clears) && fd in u.epoll && u.epoll[fd].ctx == u.vec[fd] && u.epoll[fd].mask.Has(ev)
  {
    AddEventEffect(t, clears, fd, ev, w);
    var g := if |t.vec| <= fd then Resized(t, NewSize(fd)) else t;
    if |t.vec| <= fd {
      ResizeEffect(t, clears, NewSize(fd));
      ResizeWatches(t, clears, NewSize(fd));
    }
    AddWatches(g, clears, g.vec[fd], ev, w);
  }

  // delEvent, cancelEvent and cancelAll by descriptor: with no context in the
  // vector nothing happens; otherwise exactly the registration asked for leaves,
  // woken or not, and every other stays.
  lemma DelEventEffect(t: Table, clears: bool, fd: nat, ev: Event)
    requires Tally(t, clears)
    ensures var r := DelEvent(t, clears, fd, ev);
      if fd >= |t.vec| then r == Done(false, t)
      else
        var c := t.vec[fd]; var has := Registered(t, c, ev).Held?;
        && (r.Abort? <==> has && fd !in t.epoll)
        && (r.Done? ==> r.ok == has && Tally(r.t, clears) && (!has ==> r.t == t))
        && (r.Done? && has ==> Gone(t, r.t, c, ev) && r.t.tasks == t.tasks)
  {
    if fd < |t.vec| {
      DelEffect(t, clears, t.vec[fd], ev);
    }
  }

  ghost predicate Gone(t: Table, u: Table, c: nat, ev: Event) {
    && u.pending == t.pending - 1 && u.vec == t.vec
    && (forall d, e :: Registered(u, d, e) == if d == c && e == ev then Free else Registered(t, d, e))
  }

  lemma CancelEventEffect(t: Table, clears: bool, fd: nat, ev: Event)
    requires Tally(t, clears)
    ensures var r := CancelEvent(t, clears, fd, ev);
      if fd >= |t.vec| then r == Done(false, t)
      else
        var c := t.vec[fd]; var has := Registered(t, c, ev).Held?;
        && (r.Abort? <==> has && fd !in t.epoll)
        && (r.Done? ==> r.ok == has && Tally(r.t, clears) && (!has ==> r.t == t))
        && (r.Done? && has ==> Gone(t, r.t, c, ev) && r.t.tasks == t.tasks + [Registered(t, c, ev).waiter])
  {
    if fd < |t.vec| {
      CancelEffect(t, clears, t.vec[fd], ev);
    }
  }

  lemma CancelAllByFdEffect(t: Table, clears: bool, fd: nat)
    requires Tally(t, clears)
    ensures var r := CancelAll(t, clears, fd);
      if fd >= |t.vec| then r == Done(false, t)
      else
        var c := t.vec[fd]; var f := t.ctxs[c];
        && r.Done? && (r.ok <==> f.events != NONE && fd in t.epoll) && Tally(r.t, clears) && (!r.ok ==> r.t == t)
        && (r.ok ==>
          && (forall d, e :: Registered(r.t, d, e) == if d == c then Free else Registered(t, d, e))
          && r.t.pending == t.pending - One(f.events.read) - One(f.events.write)
          && r.t.tasks == t.tasks + (if f.events.read then [f.read.waiter] else []) + (if f.events.write then [f.write.waiter] else []))
  {
    if fd < |t.vec| {
      var c := t.vec[fd];
      assert SlotsOk(t.ctxs[c], clears);
      CancelAllEffect(t, clears, c);
      var r := CancelAll(t, clears, fd);
      if r.ok {
        forall d, e ensures Registered(r.t, d, e) == if d == c then Free else Registered(t, d, e) {
          assert t.ctxs[c].events.Has(e) || Registered(t, c, e) == Free;
        }
      }
    }
  }

  // The operation took the registration if and only if the vector finds it.
  ghost predicate Reaches(t: Table, r: Outcome, c: nat, ev: Event) {
    r.Done? && (Registered(r.t, c, ev) == Free <==> InVector(t, c))
  }

  // delEvent, cancelEvent and cancelAll by descriptor reach a live registration
  // exactly when its context is still the vector's entry.
  lemma ReachIff(t: Table, clears: bool, c: nat, ev: Event)
    requires Inv(t, clears) && Registered(t, c, ev).Held?
    ensures var fd := t.ctxs[c].fd;
      && Reaches(t, DelEvent(t, clears, fd, ev), c, ev) && Reaches(t, CancelEvent(t, clears, fd, ev), c, ev)
      && Reaches(t, CancelAll(t, clears, fd), c, ev)
  {
    var fd := t.ctxs[c].fd;
    if fd < |t.vec| {
      var d := t.vec[fd];
      DelWatches(t, clears, d, ev);
      DelEffect(t, clears, d, ev);
      CancelWatches(t, clears, d, ev);
      CancelEffect(t, clears, d, ev);
      CancelAllWatches(t, clears, d);
      CancelAllEffect(t, clears, d);
      assert t.ctxs[c].events.Has(ev);
    }
  }

  // Closing a descriptor makes the kernel forget it. The table stays watched
  // exactly when the kernel did not know the descriptor; after the cancelAll of
  // the hooked close that is so exactly when the context it watched for, if any,
  // was in the vector.
  lemma CloseKeepsIff(t: Table, clears: bool, fd: nat)
    requires Inv(t, clears)
    ensures Watching(t.(epoll := t.epoll - {fd})) <==> fd !in t.epoll
    ensures var r := CancelAll(t, clears, fd);
      r.Done? && Inv(r.t, clears) && (fd !in r.t.epoll <==> (fd in t.epoll ==> InVector(t, t.epoll[fd].ctx)))
  {
    var v := t.(epoll := t.epoll - {fd});
    if fd in t.epoll {
      var c := t.epoll[fd].ctx;
      assert Watched(t, c) == t.ctxs[c].events;
      assert Watched(v, c) == NONE;
    } else {
      assert v == t;
    }
    if fd < |t.vec| {
      CancelAllEffect(t, clears, t.vec[fd]);
      CancelAllWatches(t, clears, t.vec[fd]);
      assert Watched(t, t.vec[fd]) == t.ctxs[t.vec[fd]].events;
    }
  }

  // FdContext leaves its mask uninitialised (iomanager.h, line 71). A table of
  // new contexts is consistent exactly when every mask happens to be empty.
  lemma NewContextsConsistentIff(ctxs: seq<Ctx>, clears: bool)
    requires forall i :: 0 <= i < |ctxs| ==> ctxs[i].read == Free && ctxs[i].write == Free && ctxs[i].fd == i
    ensures Inv(Table(ctxs, seq(|ctxs|, i => i), map[], 0, []), clears) <==> forall i :: 0 <= i < |ctxs| ==> ctxs[i].events == NONE
  {
    var t := Table(ctxs, seq(|ctxs|, i => i), map[], 0, []);
    if Inv(t, clears) {
      forall i | 0 <= i < |ctxs| ensures ctxs[i].events == NONE {
        assert SlotsOk(t.ctxs[i], clears);
      }
    }
    if forall i :: 0 <= i < |ctxs| ==> ctxs[i].events == NONE {
      NoBits(ctxs);
    }
  }

  // The table of a new IOManager.
  ghost const START: Table := Table(NewContexts(0, 32), Numbers(0, 32), map[], 0, [])

  lemma StartIsResized()
    ensures Resized(Table([], [], map[], 0, []), 32) == START
  {
  }

  lemma StartInv(clears: bool)
    ensures Inv(START, clears)
  {
    NoBits(START.ctxs);
  }
}
