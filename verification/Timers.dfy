/**
 * The ordered timer set of src/timer.h and src/timer.cpp.
 *
 * `Entry` is the value of a timer object; `Timer` is the object, whose deadline
 * `next` is at once a mutable field and the first half of its sort key.
 * Times are uint64_t milliseconds: additions wrap at WORD.
 */
module Timers {
  const WORD: nat := 0x1_0000_0000_0000_0000

  datatype Entry = Entry(next: nat, addr: nat, period: nat, recurring: bool, func: nat)

  function Wrap(n: nat): (r: nat)
    ensures r < WORD
    ensures n < WORD ==> r == n
  {
    n % WORD
  }

  // Timer::cmp on two non-null pointers: deadline first, then address.
  predicate Before(a: Entry, b: Entry) {
    a.next < b.next || (a.next == b.next && a.addr < b.addr)
  }

  ghost predicate Sorted(s: seq<Entry>) {
    forall i, j :: 0 <= i < j < |s| ==> Before(s[i], s[j])
  }

  // Live objects have different addresses.
  ghost predicate Distinct(s: set<Entry>) {
    forall a, b :: a in s && b in s && a.addr == b.addr ==> a == b
  }

  ghost function Elems(s: seq<Entry>): set<Entry> {
    set e | e in s
  }

  ghost predicate IsDue(e: Entry, now: nat) {
    e.next <= now
  }

  // What one expiry does to a recurring timer.
  function Advance(e: Entry): Entry {
    e.(next := Wrap(e.next + e.period))
  }

  ghost function Due(s: set<Entry>, now: nat): set<Entry> {
    set e | e in s && IsDue(e, now)
  }

  ghost function Rearmed(s: set<Entry>): set<Entry> {
    set e | e in s && e.recurring :: Advance(e)
  }

  // The set an expiry at `now` leaves behind.
  ghost function AfterPoll(s: set<Entry>, now: nat): set<Entry> {
    (s - Due(s, now)) + Rearmed(Due(s, now))
  }

  function Remaining(e: Entry, now: nat): nat {
    if e.next > now then e.next - now else 0
  }

  // A sorted sequence is determined by its elements, so the set is the whole
  // abstract state of the container.
  lemma {:induction false} SortedIsCanonical(a: seq<Entry>, b: seq<Entry>)
    requires Sorted(a) && Sorted(b) && Elems(a) == Elems(b)
    ensures a == b
  {
    if a == [] {
      assert forall i :: 0 <= i < |b| ==> b[i] in Elems(a);
    } else {
      assert a[0] in Elems(b);
      assert b[0] in Elems(a);
      assert a[0] == b[0];
      forall e ensures e in Elems(a[1..]) <==> e in Elems(b[1..]) {
        assert e in Elems(a[1..]) <==> e in Elems(a) && e != a[0];
        assert e in Elems(b[1..]) <==> e in Elems(b) && e != b[0];
      }
      SortedIsCanonical(a[1..], b[1..]);
      assert a == [a[0]] + a[1..] && b == [b[0]] + b[1..];
    }
  }

  // The simple form of an expiry: keep the due entries, in order.
  ghost function Filter(s: seq<Entry>, now: nat): seq<Entry> {
    if s == [] then []
    else if IsDue(s[0], now) then [s[0]] + Filter(s[1..], now)
    else Filter(s[1..], now)
  }

  ghost function Keep(s: seq<Entry>, now: nat): seq<Entry> {
    if s == [] then []
    else if IsDue(s[0], now) then Keep(s[1..], now)
    else [s[0]] + Keep(s[1..], now)
  }

  // Filter yields exactly the due entries, once each, in deadline order, and
  // Keep exactly the others.
  lemma {:induction false} FilterExact(s: seq<Entry>, now: nat)
    requires Sorted(s)
    ensures Sorted(Filter(s, now)) && Sorted(Keep(s, now))
    ensures Elems(Filter(s, now)) == Due(Elems(s), now)
    ensures Elems(Keep(s, now)) == Elems(s) - Due(Elems(s), now)
  {
    if s != [] {
      var head, tail := s[0], s[1..];
      FilterExact(tail, now);
      forall e | e in Elems(Filter(tail, now)) || e in Elems(Keep(tail, now)) ensures Before(head, e) {
        assert e in tail;
      }
      assert Elems(s) == {head} + Elems(tail);
      assert forall t: seq<Entry> :: Elems([head] + t) == {head} + Elems(t);
      assert head !in tail;
    }
  }

  // The collecting loop's state: `out` already taken out, the iterator at w[i].
  ghost predicate Split(v: seq<Entry>, out: seq<Entry>, w: seq<Entry>, i: nat, now: nat) {
    && i <= |w|
    && Filter(v, now) == out + Filter(w[i..], now)
    && Keep(v, now) == w[..i] + Keep(w[i..], now)
  }

  lemma SplitStep(v: seq<Entry>, out: seq<Entry>, w: seq<Entry>, i: nat, now: nat)
    requires Split(v, out, w, i, now) && i < |w|
    ensures IsDue(w[i], now) ==> Split(v, out + [w[i]], w[..i] + w[i + 1..], i, now)
    ensures !IsDue(w[i], now) ==> Split(v, out, w, i + 1, now)
  {
    var r := w[..i] + w[i + 1..];
    assert r[..i] == w[..i] && r[i..] == w[i + 1..];
    assert w[i..][1..] == w[i + 1..];
    assert w[..i + 1] == w[..i] + [w[i]];
  }

  lemma SplitEnd(v: seq<Entry>, out: seq<Entry>, w: seq<Entry>, now: nat)
    requires Split(v, out, w, |w|, now)
    ensures out == Filter(v, now) && w == Keep(v, now)
  {
  }

  ghost function Funcs(s: seq<Entry>): seq<nat> {
    seq(|s|, i requires 0 <= i < |s| => s[i].func)
  }

  class Timer {
    const addr: nat
    const period: nat
    const recurring: bool
    const func: nat
    var next: nat

    constructor (addr: nat, period: nat, func: nat, recurring: bool, now: nat)
      ensures Value() == Entry(Wrap(now + period), addr, period, recurring, func)
    {
      this.addr := addr;
      this.period := period;
      this.recurring := recurring;
      this.func := func;
      this.next := Wrap(now + period);
    }

    function Value(): Entry
      reads this
    {
      Entry(next, addr, period, recurring, func)
    }
  }

  ghost function Values(ts: seq<Timer>): (r: seq<Entry>)
    reads ts
    ensures |r| == |ts|
    ensures forall i :: 0 <= i < |ts| ==> r[i] == ts[i].Value()
  {
    seq(|ts|, i requires 0 <= i < |ts| reads ts => ts[i].Value())
  }

  lemma ValuesErase(ts: seq<Timer>, i: nat)
    requires i < |ts|
    ensures Values(ts[..i] + ts[i + 1..]) == Values(ts)[..i] + Values(ts)[i + 1..]
  {
  }

  lemma ValuesInsert(ts: seq<Timer>, p: nat, t: Timer)
    requires p <= |ts|
    ensures Values(ts[..p] + [t] + ts[p..]) == Values(ts)[..p] + [t.Value()] + Values(ts)[p..]
    ensures forall u :: u in ts[..p] + [t] + ts[p..] <==> u == t || u in ts
  {
    assert ts == ts[..p] + ts[p..];
  }

  lemma ValuesPush(ts: seq<Timer>, t: Timer, funcs: seq<nat>)
    ensures Values(ts + [t]) == Values(ts) + [t.Value()]
    ensures funcs + Funcs(Values(ts + [t])) == funcs + Funcs(Values(ts)) + [t.func]
  {
  }

  class TimerManager {
    var timers: seq<Timer>

    ghost predicate Valid()
      reads this, timers
    {
      Sorted(Values(timers)) && Distinct(Elems(Values(timers)))
    }

    ghost function Armed(): set<Entry>
      reads this, timers
    {
      Elems(Values(timers))
    }

    // `t` is an object of its own or one of the armed ones.
    ghost predicate Owns(t: Timer)
      reads this, timers
    {
      forall u :: u in timers && u.addr == t.addr ==> u == t
    }

    constructor ()
      ensures Valid() && timers == []
    {
      timers := [];
    }

    // The search every std::set operation starts with: binary, by cmp alone.
    method LowerBound(t: Timer) returns (p: nat)
      requires Valid()
      ensures p <= |timers|
      ensures forall i :: 0 <= i < p ==> Before(timers[i].Value(), t.Value())
      ensures forall i :: p <= i < |timers| ==> !Before(timers[i].Value(), t.Value())
    {
      ghost var v := Values(timers);
      var lo, hi := 0, |timers|;
      while lo < hi
        invariant 0 <= lo <= hi <= |timers|
        invariant forall i :: 0 <= i < lo ==> Before(v[i], t.Value())
        invariant forall i :: hi <= i < |timers| ==> !Before(v[i], t.Value())
      {
        var mid := (lo + hi) / 2;
        assert timers[mid].Value() == v[mid];
        if Before(timers[mid].Value(), t.Value()) {
          lo := mid + 1;
        } else {
          hi := mid;
        }
      }
      p := lo;
      assert forall i :: 0 <= i < |timers| ==> timers[i].Value() == v[i];
    }

    // std::set::erase(key): finds the object exactly when it is armed.
    method Erase(t: Timer) returns (erased: bool)
      requires Valid() && Owns(t)
      modifies this`timers
      ensures Valid()
      ensures erased <==> t in old(timers)
      ensures erased ==> t !in timers && Armed() == old(Armed()) - {t.Value()}
      ensures forall u :: u in timers ==> u in old(timers)
      ensures !erased ==> timers == old(timers)
    {
      var p := LowerBound(t);
      ghost var v := Values(timers);
      erased := p < |timers| && !Before(t.Value(), timers[p].Value());
      if erased {
        assert timers[p] == t;
        timers := timers[..p] + timers[p + 1..];
        assert Values(timers) == v[..p] + v[p + 1..];
        RemoveAt(v, p);
      }
    }

    // std::set::insert: returns whether the entry is now the first one.
    method Insert(t: Timer) returns (first: bool)
      requires Valid() && Owns(t)
      modifies this`timers
      ensures Valid()
      ensures t in timers && forall u :: u in timers <==> u == t || u in old(timers)
      ensures Armed() == old(Armed()) + {t.Value()}
      ensures first <==> IsFirst(t.Value(), Armed())
    {
      var p := LowerBound(t);
      assert BoundAt(Values(timers), p, t.Value());
      BoundIsFirst(Values(timers), p, t.Value());
      if p == |timers| || Before(t.Value(), timers[p].Value()) {
        InsertAt(Values(timers), p, t.Value());
        ValuesInsert(timers, p, t);
        timers := timers[..p] + [t] + timers[p..];
      }
      first := p == 0;
    }

    // Timer::cancel.
    method Cancel(t: Timer) returns (ok: bool)
      requires Valid() && Owns(t)
      modifies this`timers
      ensures Valid()
      ensures ok <==> t in old(timers)
      ensures t !in timers
      ensures Armed() == if ok then old(Armed()) - {t.Value()} else old(Armed())
    {
      ok := Erase(t);
    }

    // The public addTimer; `addr` is where the allocator puts the object. The
    // second result says whether onFirstTimerChanged is called.
    method AddTimer(addr: nat, period: nat, func: nat, recurring: bool, now: nat)
      returns (t: Timer, changed: bool)
      requires Valid()
      requires forall e :: e in Armed() ==> e.addr != addr
      modifies this`timers
      ensures Valid() && fresh(t) && t in timers
      ensures t.Value() == Entry((now + period) % 0x1_0000_0000_0000_0000, addr, period, recurring, func)
      ensures Armed() == old(Armed()) + {t.Value()}
      ensures changed <==> forall e :: e in old(Armed()) ==> t.next < e.next || (t.next == e.next && addr < e.addr)
      ensures changed <==> IsFirst(t.Value(), Armed())
    {
      t := new Timer(addr, period, func, recurring, now);
      forall u | u in timers ensures u.addr != t.addr {
        assert u.Value() in Armed();
      }
      changed := Insert(t);
    }

    // Timer::refresh, first locked section: take the timer out and give it a
    // new deadline. Only then may the key change.
    method RefreshErase(t: Timer, now: nat) returns (ok: bool)
      requires Valid() && Owns(t)
      modifies this`timers, t`next
      ensures Valid()
      ensures ok <==> t in old(timers)
      ensures t !in timers
      ensures Armed() == if ok then old(Armed()) - {old(t.Value())} else old(Armed())
      ensures t.next == if ok then Wrap(now + t.period) else old(t.next)
      ensures forall u :: u in timers ==> u in old(timers)
    {
      ok := Erase(t);
      if ok {
        ghost var v := Values(timers);
        t.next := Wrap(now + t.period);
        assert Values(timers) == v;
      }
    }

    // Timer::refresh run without interruption.
    method Refresh(t: Timer, now: nat) returns (ok: bool, changed: bool)
      requires Valid() && Owns(t)
      modifies this`timers, t`next
      ensures Valid()
      ensures ok <==> t in old(timers)
      ensures ok ==> t.Value() == old(t.Value()).(next := Wrap(now + t.period))
      ensures ok ==> Armed() == old(Armed()) - {old(t.Value())} + {t.Value()}
      ensures !ok ==> Armed() == old(Armed()) && t.Value() == old(t.Value()) && !changed
      ensures ok ==> (changed <==> IsFirst(t.Value(), Armed()))
    {
      changed := false;
      ok := RefreshErase(t, now);
      if ok {
        changed := Insert(t);
      }
    }

    method HasTimers() returns (r: bool)
      ensures r <==> Armed() != {}
    {
      r := |timers| > 0;
      assert r ==> Values(timers)[0] in Armed();
    }

    // Time to the earliest deadline; the all-ones word when nothing is armed.
    method GetNextTimeMs(now: nat) returns (r: nat)
      requires Valid()
      ensures Armed() == {} ==> r == 0xFFFF_FFFF_FFFF_FFFF
      ensures forall e :: e in Armed() ==> r <= Remaining(e, now)
      ensures Armed() != {} ==> exists e :: e in Armed() && r == Remaining(e, now) == if e.next > now then e.next - now else 0
    {
      if |timers| == 0 {
        return WORD - 1;
      }
      r := Remaining(timers[0].Value(), now);
      assert Values(timers)[0] in Armed();
    }

    // First loop of getExpiredFuncs: take every due timer out of the set.
    method CollectDue(now: nat, funcs: seq<nat>) returns (all: seq<nat>, expired: seq<Timer>)
      requires Valid()
      modifies this`timers
      ensures Valid()
      ensures Values(expired) == Filter(old(Values(timers)), now)
      ensures Values(timers) == Keep(old(Values(timers)), now)
      ensures all == funcs + Funcs(Values(expired))
      ensures forall t :: t in expired || t in timers ==> t in old(timers)
    {
      all, expired := funcs, [];
      ghost var v := Values(timers);
      var i := 0;
      while i < |timers|
        invariant Split(v, Values(expired), Values(timers), i, now)
        invariant all == funcs + Funcs(Values(expired))
        invariant forall t :: t in expired || t in timers ==> t in old(timers)
        decreases |timers| - i
      {
        SplitStep(v, Values(expired), Values(timers), i, now);
        var timer := timers[i];
        if timer.next <= now {
          ValuesErase(timers, i);
          ValuesPush(expired, timer, funcs);
          all := all + [timer.func];
          expired := expired + [timer];
          timers := timers[..i] + timers[i + 1..];
        } else {
          i := i + 1;
        }
      }
      SplitEnd(v, Values(expired), Values(timers), now);
      FilterExact(v, now);
    }

    // Body of the second loop of getExpiredFuncs.
    method RearmOne(timer: Timer)
      requires Valid() && forall u :: u in timers ==> u.addr != timer.addr
      modifies this`timers, timer`next
      ensures Valid()
      ensures Armed() == old(Armed()) + Rearmed({old(timer.Value())})
      ensures forall u :: u in timers ==> u == timer || u in old(timers)
    {
      ghost var e := timer.Value();
      assert Rearmed({e}) == if e.recurring then {Advance(e)} else {};
      if timer.recurring {
        ghost var w := Values(timers);
        timer.next := Wrap(timer.next + timer.period);
        assert Values(timers) == w;
        var _ := Insert(timer);
      }
    }

    // Second loop of getExpiredFuncs: advance and re-insert the recurring ones.
    method Rearm(expired: seq<Timer>)
      requires Valid() && forall i, j :: 0 <= i < j < |expired| ==> expired[i].addr != expired[j].addr
      requires forall t, u :: t in expired && u in timers ==> t.addr != u.addr
      modifies this`timers, expired
      ensures Valid()
      ensures Armed() == old(Armed()) + Rearmed(old(Elems(Values(expired))))
    {
      ghost var v := Values(expired);
      for j := 0 to |expired|
        invariant Valid()
        invariant forall i :: j <= i < |expired| ==> expired[i].Value() == v[i]
        invariant forall i, u :: j <= i < |expired| && u in timers ==> v[i].addr != u.addr
        invariant Armed() == old(Armed()) + Rearmed(Elems(v[..j]))
      {
        RearmedAdd(v, j);
        RearmOne(expired[j]);
      }
      assert v[..|expired|] == v;
    }

    // getExpiredFuncs: the callbacks appended are those of the filter, and the
    // set left behind is the unexpired entries plus the advanced recurring ones.
    method GetExpiredFuncs(now: nat, funcs: seq<nat>) returns (all: seq<nat>)
      requires Valid()
      modifies this`timers, timers
      ensures Valid()
      ensures all == funcs + Funcs(Filter(old(Values(timers)), now))
      ensures Armed() == AfterPoll(old(Armed()), now)
    {
      if |timers| == 0 {
        assert Armed() == {};
        return funcs;
      }
      ghost var v := Values(timers);
      FilterExact(v, now);
      var expired;
      all, expired := CollectDue(now, funcs);
      forall t, u | t in expired && u in timers ensures t.addr != u.addr {
        assert t.Value() in Elems(Values(expired)) && u.Value() in Elems(Values(timers));
      }
      ghost var w := Values(expired);
      forall i, j | 0 <= i < j < |expired| ensures expired[i].addr != expired[j].addr {
        assert w[i] in Elems(w) && w[j] in Elems(w) && Before(w[i], w[j]);
      }
      Rearm(expired);
    }
  }

  lemma RemoveAt(v: seq<Entry>, p: nat)
    requires Sorted(v) && p < |v|
    ensures Sorted(v[..p] + v[p + 1..])
    ensures Elems(v[..p] + v[p + 1..]) == Elems(v) - {v[p]}
  {
    var r := v[..p] + v[p + 1..];
    forall e ensures e in r <==> e in v && e != v[p] {
      if e in v && e != v[p] {
        var i :| 0 <= i < |v| && v[i] == e;
        assert r[if i < p then i else i - 1] == e;
      }
    }
  }

  ghost predicate IsFirst(e: Entry, s: set<Entry>) {
    forall x :: x in s && x != e ==> Before(e, x)
  }

  // `p` is the lower bound of `e` in `v`, which holds no other timer at e's address.
  ghost predicate BoundAt(v: seq<Entry>, p: nat, e: Entry) {
    && Sorted(v) && p <= |v|
    && (forall i :: 0 <= i < |v| && v[i].addr == e.addr ==> v[i] == e)
    && (forall i :: 0 <= i < p ==> Before(v[i], e))
    && (forall i :: p <= i < |v| ==> !Before(v[i], e))
  }

  lemma InsertAt(v: seq<Entry>, p: nat, e: Entry)
    requires BoundAt(v, p, e) && (p == |v| || Before(e, v[p]))
    ensures Sorted(v[..p] + [e] + v[p..])
    ensures Elems(v[..p] + [e] + v[p..]) == Elems(v) + {e}
  {
    var r := v[..p] + [e] + v[p..];
    forall i, j | 0 <= i < j < |r| ensures Before(r[i], r[j]) {
      assert r[i] == if i < p then v[i] else if i == p then e else v[i - 1];
      assert r[j] == if j < p then v[j] else if j == p then e else v[j - 1];
    }
    forall x ensures x in r <==> x in v || x == e {
      assert v == v[..p] + v[p..];
      assert x in r <==> x in v[..p] || x == e || x in v[p..];
    }
  }

  lemma BoundIsFirst(v: seq<Entry>, p: nat, e: Entry)
    requires BoundAt(v, p, e) && Distinct(Elems(v))
    ensures p == 0 <==> IsFirst(e, Elems(v) + {e})
    ensures Distinct(Elems(v) + {e})
    ensures p < |v| && !Before(e, v[p]) ==> v[p] == e && Elems(v) + {e} == Elems(v)
  {
    assert p > 0 ==> v[0] in Elems(v);
    assert p < |v| ==> v[p] in Elems(v);
  }

  lemma RearmedAdd(v: seq<Entry>, j: nat)
    requires j < |v|
    ensures Rearmed(Elems(v[..j + 1])) == Rearmed(Elems(v[..j])) + Rearmed({v[j]})
  {
    assert Elems(v[..j + 1]) == Elems(v[..j]) + {v[j]};
  }
}
