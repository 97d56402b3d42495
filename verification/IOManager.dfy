/**
 * IOManager and its descriptor contexts as objects (src/iomanager.h,
 * src/iomanager.cpp), each operation run in place and proved to produce the
 * table that Events defines for it.
 */
module IOManagers {
  import opened Events

  datatype Verdict = Returned(ok: bool) | Aborted

  ghost predicate Agrees(v: Verdict, t: Table, o: Outcome) {
    (o.Abort? ==> v.Aborted?) && (o.Done? ==> v == Returned(o.ok) && t == o.t)
  }

  class FdContext {
    const fd: nat
    const id: nat        // stands for the object's address
    var events: Mask
    var read: Slot
    var write: Slot

    constructor (fd: nat, id: nat)
      ensures Value() == Fresh(fd) && this.fd == fd && this.id == id
    {
      this.fd := fd;
      this.id := id;
      events, read, write := NONE, Free, Free;
    }

    function Value(): Ctx
      reads this
    {
      Ctx(fd, events, read, write)
    }

    method SetContext(ev: Event, s: Slot)
      modifies this
      ensures Value() == old(Value()).Put(ev, s)
    {
      match ev
      case Read => read := s;
      case Write => write := s;
    }

    // Drop the event from the mask and, if slots are cleared, its waiter.
    method Drop(clears: bool, ev: Event)
      modifies this
      ensures Value() == Dropped(old(Value()), clears, ev)
    {
      events := events.Without(ev);
      if clears {
        SetContext(ev, Free);
      }
    }
  }

  ghost function Values(cs: seq<FdContext>): (r: seq<Ctx>)
    reads cs
    ensures |r| == |cs|
    ensures forall i :: 0 <= i < |cs| ==> r[i] == cs[i].Value()
  {
    seq(|cs|, i requires 0 <= i < |cs| reads cs => cs[i].Value())
  }

  ghost function Ids(cs: seq<FdContext>): (r: seq<nat>)
    ensures |r| == |cs|
    ensures forall i :: 0 <= i < |cs| ==> r[i] == cs[i].id
  {
    seq(|cs|, i requires 0 <= i < |cs| => cs[i].id)
  }

  class IOManager {
    const clears: bool
    var contexts: seq<FdContext>      // m_fd_contexts
    var epoll: map<nat, Watch>        // the kernel's interest table
    var pending: int                  // m_pending_count
    var tasks: seq<Waiter>
    var made: nat                     // contexts made so far
    ghost var all: seq<FdContext>     // all of them, in the vector or not

    ghost predicate Owns(c: FdContext)
      reads this
    {
      c.id < |all| && all[c.id] == c
    }

    ghost predicate Valid()
      reads this
    {
      |contexts| >= 2 && Linked()
    }

    ghost function View(): Table
      reads this, all
    {
      Table(Values(all), Ids(contexts), epoll, pending, tasks)
    }

    constructor (clears: bool)
      ensures Valid() && (forall c :: c in all ==> fresh(c)) && this.clears == clears
      ensures View() == START
    {
      this.clears := clears;
      contexts, epoll, pending, tasks, made, all := [], map[], 0, [], 0, [];
      new;
      assert View() == Table([], [], map[], 0, []);
      ResizeContexts(32);
      StartIsResized();
    }

    // The vector and the contexts belong together.
    ghost predicate Linked()
      reads this
    {
      && made == |all|
      && (forall i :: 0 <= i < |all| ==> all[i].id == i)
      && (forall i :: 0 <= i < |contexts| ==> Owns(contexts[i]) && contexts[i].fd == i)
    }

    // One new context at the end of the vector.
    method PushContext()
      requires Linked()
      modifies this`contexts, this`made, this`all
      ensures Linked() && |contexts| == old(|contexts|) + 1
      ensures forall c :: c in all ==> c in old(all) || fresh(c)
      ensures View() == Resized(old(View()), |contexts|)
    {
      ghost var v, was := Values(all), Ids(contexts);
      var c := new FdContext(|contexts|, made);
      contexts := contexts + [c];
      made := made + 1;
      all := all + [c];
      assert Values(all) == v + NewContexts(|was|, 1);
      assert Ids(contexts) == was + Numbers(|v|, 1);
    }

    // resizeContexts: cut, or pad with new contexts.
    method ResizeContexts(size: nat)
      requires Linked()
      modifies this`contexts, this`made, this`all
      ensures Linked() && forall c :: c in all ==> c in old(all) || fresh(c)
      ensures View() == Resized(old(View()), size)
    {
      ghost var t := View();
      if size < |contexts| {
        contexts := contexts[..size];
        assert Ids(contexts) == t.vec[..size];
        return;
      }
      assert t == Resized(t, |contexts|);
      while |contexts| < size
        invariant Linked() && |t.vec| <= |contexts| <= size
        invariant forall c :: c in all ==> c in old(all) || fresh(c)
        invariant View() == Resized(t, |contexts|)
        decreases size - |contexts|
      {
        ResizedStep(t, |contexts|);
        PushContext();
      }
    }

    // Changing one context is an update of the table at its number.
    twostate lemma OneChanged(c: FdContext)
      requires old(Valid()) && all == old(all) && old(Owns(c))
      requires forall d :: d in all && d != c ==> d.Value() == old(d.Value())
      ensures Values(all) == old(Values(all))[c.id := c.Value()]
    {
    }

    // FdContext::scheduleEvent; false stands for a failed assertion.
    method Dispatch(c: FdContext, ev: Event) returns (ok: bool)
      requires Valid() && Owns(c)
      modifies this`tasks, c
      ensures ok <==> Events.Dispatch(old(View()), clears, c.id, ev).Done?
      ensures ok ==> View() == Events.Dispatch(old(View()), clears, c.id, ev).t
    {
      var slot := c.Value().At(ev);
      ok := c.events.Has(ev) && slot.Held?;
      if ok {
        c.Drop(clears, ev);
        tasks := tasks + [slot.waiter];
        OneChanged(c);
      }
    }

    // addEvent: look, resize if too small, fetch the context, commit.
    method AddEvent(fd: nat, ev: Event, w: Waiter) returns (v: Verdict)
      requires Valid()
      modifies this, all
      ensures Valid() && forall c :: c in all ==> c in old(all) || fresh(c)
      ensures Agrees(v, View(), Events.AddEvent(old(View()), fd, ev, w))
    {
      ghost var t := View();
      if |contexts| <= fd {
        ResizeContexts(NewSize(fd));
      }
      var c := contexts[fd];
      assert View().vec[fd] == c.id && View().ctxs[c.id] == c.Value();
      if c.events.Has(ev) {
        return Aborted;
      }
      assert c in all;
      v := AddLocked(c, ev, w);
    }

    method AddLocked(c: FdContext, ev: Event, w: Waiter) returns (v: Verdict)
      requires Valid() && Owns(c)
      modifies this`epoll, this`pending, c
      ensures Agrees(v, View(), Events.AddLocked(old(View()), c.id, ev, w))
    {
      var op := if c.events.Empty() then Add else Mod;
      var e := EpollCtl(epoll, op, c.fd, Watch(c.events.With(ev), c.id));
      if e.Refused? {
        return Aborted;
      }
      epoll := e.table;
      c.events := c.events.With(ev);
      pending := pending + 1;
      if c.Value().At(ev).Held? {
        return Aborted;
      }
      c.SetContext(ev, Held(w));
      OneChanged(c);
      v := Returned(true);
    }

    method DelEvent(fd: nat, ev: Event) returns (v: Verdict)
      requires Valid()
      modifies this`epoll, this`pending, all
      ensures Agrees(v, View(), Events.DelEvent(old(View()), clears, fd, ev))
    {
      if |contexts| <= fd {
        return Returned(false);
      }
      var c := contexts[fd];
      if !c.events.Has(ev) {
        return Returned(false);
      }
      var left := c.events.Without(ev);
      var e := EpollCtl(epoll, OpFor(left), c.fd, Watch(left, c.id));
      if e.Refused? {
        return Aborted;
      }
      epoll := e.table;
      pending := pending - 1;
      assert c in all;
      c.Drop(clears, ev);
      OneChanged(c);
      v := Returned(true);
    }

    method CancelEvent(fd: nat, ev: Event) returns (v: Verdict)
      requires Valid()
      modifies this`epoll, this`pending, this`tasks, all
      ensures Agrees(v, View(), Events.CancelEvent(old(View()), clears, fd, ev))
    {
      if |contexts| <= fd {
        return Returned(false);
      }
      var c := contexts[fd];
      if !c.events.Has(ev) {
        return Returned(false);
      }
      var left := c.events.Without(ev);
      var e := EpollCtl(epoll, OpFor(left), c.fd, Watch(left, c.id));
      if e.Refused? {
        return Aborted;
      }
      epoll := e.table;
      pending := pending - 1;
      assert c in all;
      var ok := Dispatch(c, ev);
      v := if ok then Returned(true) else Aborted;
    }

    method DispatchIf(c: FdContext, ev: Event, on: bool) returns (ok: bool)
      requires Valid() && Owns(c)
      modifies this`tasks, this`pending, c
      ensures ok <==> Events.DispatchIf(old(View()), clears, c.id, ev, on).Done?
      ensures ok ==> View() == Events.DispatchIf(old(View()), clears, c.id, ev, on).t
    {
      ok := true;
      if on {
        ok := Dispatch(c, ev);
        pending := pending - 1;
      }
    }

    // READ, then WRITE: the tail of cancelAll and of scheduleEvent.
    method DispatchAll(c: FdContext, m: Mask) returns (v: Verdict)
      requires Valid() && Owns(c)
      modifies this`tasks, this`pending, c
      ensures Agrees(v, View(), Events.DispatchAll(old(View()), clears, c.id, m))
    {
      var ok := DispatchIf(c, Read, m.read);
      if ok {
        ok := DispatchIf(c, Write, m.write);
      }
      v := if ok then Returned(true) else Aborted;
    }

    method CancelAll(fd: nat) returns (v: Verdict)
      requires Valid()
      modifies this`epoll, this`pending, this`tasks, all
      ensures Agrees(v, View(), Events.CancelAll(old(View()), clears, fd))
    {
      if |contexts| <= fd {
        return Returned(false);
      }
      var c := contexts[fd];
      if c.events.Empty() {
        return Returned(false);
      }
      var e := EpollCtl(epoll, Del, c.fd, Watch(NONE, c.id));
      if e.Refused? {
        return Returned(false);
      }
      epoll := e.table;
      assert c in all;
      v := DispatchAll(c, c.events);
    }

    // IOManager::scheduleEvent on one report of epoll_wait: c is in data.ptr.
    method ScheduleEvent(c: FdContext, r: Report) returns (v: Verdict)
      requires Valid() && Owns(c)
      modifies this`epoll, this`pending, this`tasks, c
      ensures Agrees(v, View(), Ready(old(View()), clears, c.id, r))
    {
      var trig := if r.broken then c.events else r.ready;
      if c.events.And(trig).Empty() {
        return Returned(false);
      }
      var left := c.events.Minus(trig);
      var e := EpollCtl(epoll, OpFor(left), c.fd, Watch(left, c.id));
      if e.Refused? {
        return Returned(false);
      }
      epoll := e.table;
      v := DispatchAll(c, trig);
    }
  }
}
