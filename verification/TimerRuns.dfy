/**
 * Every interleaving of the locked sections of src/timer.cpp. A step is one
 * critical section; `refresh` is two of them with a window in between. The
 * steps use the same set operations the methods of Timers.TimerManager are
 * proved against.
 */
module TimerRuns {
  import opened Basics
  import opened Timers

  // A timer object together with its history.
  datatype Cell = Cell(
    entry: Entry,
    collected: nat,  // polls that took its callback
    cancelled: nat,  // successful cancels
    base: nat,       // clock value it was last armed from
    laps: nat)       // polls that took it since then

  datatype State = State(
    armed: set<Entry>,        // m_timers
    timers: map<nat, Cell>,   // every timer ever made, by address (a recycled address counts as new)
    window: multiset<nat>,    // refreshes between erase and re-insertion
    top: nat)                 // latest clock value read

  datatype Step =
    | Add(addr: nat, period: nat, recurring: bool, func: nat, now: nat)
    | Cancel(addr: nat)
    | RefreshErase(addr: nat, now: nat)
    | RefreshInsert(addr: nat)
    | Poll(now: nat)

  ghost const Init: State := State({}, map[], multiset{}, 0)

  ghost function Max(a: nat, b: nat): nat { if a < b then b else a }

  // The comparator finds the timer exactly when its current key is in the set.
  ghost predicate Finds(s: State, a: nat) {
    a in s.timers && s.timers[a].entry in s.armed
  }

  ghost predicate Enabled(s: State, step: Step) {
    match step
    case Add(a, _, _, _, _) => a !in s.timers
    case Cancel(a) => a in s.timers
    case RefreshErase(a, _) => a in s.timers
    case RefreshInsert(a) => a in s.timers && s.window[a] > 0
    case Poll(_) => true
  }

  ghost function PollCell(c: Cell, armed: set<Entry>, now: nat): Cell {
    if c.entry in Due(armed, now) then
      c.(entry := if c.entry.recurring then Advance(c.entry) else c.entry,
         collected := c.collected + 1, laps := c.laps + 1)
    else c
  }

  ghost function Do(s: State, step: Step): State
    requires Enabled(s, step)
  {
    match step
    case Add(a, period, recurring, func, now) =>
      var e := Entry(Wrap(now + period), a, period, recurring, func);
      s.(armed := s.armed + {e}, timers := s.timers[a := Cell(e, 0, 0, now, 0)], top := Max(s.top, now))
    case Cancel(a) =>
      var c := s.timers[a];
      if !Finds(s, a) then s
      else s.(armed := s.armed - {c.entry}, timers := s.timers[a := c.(cancelled := c.cancelled + 1)])
    case RefreshErase(a, now) =>
      var c := s.timers[a];
      if !Finds(s, a) then s
      else s.(armed := s.armed - {c.entry}, window := s.window + multiset{a}, top := Max(s.top, now),
              timers := s.timers[a := c.(entry := c.entry.(next := Wrap(now + c.entry.period)), base := now, laps := 0)])
    case RefreshInsert(a) =>
      s.(armed := s.armed + {s.timers[a].entry}, window := s.window - multiset{a})
    case Poll(now) =>
      s.(armed := AfterPoll(s.armed, now), top := Max(s.top, now),
         timers := map a | a in s.timers :: PollCell(s.timers[a], s.armed, now))
  }

  ghost predicate Legal(s: State, run: seq<Step>)
    decreases |run|
  {
    run == [] || (Enabled(s, run[0]) && Legal(Do(s, run[0]), run[1..]))
  }

  ghost function Final(s: State, run: seq<Step>): State
    requires Legal(s, run)
    decreases |run|
  {
    if run == [] then s else Final(Do(s, run[0]), run[1..])
  }

  // Where a timer is: armed, in a refresh window, cancelled or (one-shot) collected.
  ghost function Places(s: State, a: nat): nat
    requires a in s.timers
  {
    var c := s.timers[a];
    One(c.entry in s.armed) + s.window[a] + c.cancelled + (if c.entry.recurring then 0 else c.collected)
  }

  ghost predicate Keyed(s: State) {
    && (forall e :: e in s.armed ==> e.addr in s.timers && s.timers[e.addr].entry == e)
    && (forall a :: a in s.timers ==> s.timers[a].entry.addr == a)
    && (forall a :: a in s.window ==> a in s.timers)
  }

  ghost predicate Inv(s: State) {
    Keyed(s) && forall a :: a in s.timers ==> Places(s, a) == 1
  }

  // Polling moves each due timer to its place and leaves the rest alone.
  lemma PollPlaces(s: State, now: nat, a: nat)
    requires Inv(s) && a in s.timers
    ensures var t := Do(s, Poll(now));
      t.timers[a].entry in t.armed <==> Finds(s, a) && (s.timers[a].entry.next > now || s.timers[a].entry.recurring)
  {
    var e := s.timers[a].entry;
    var f := PollCell(s.timers[a], s.armed, now).entry;
    assert f.addr == a;
    if f in Rearmed(Due(s.armed, now)) {
      var g :| g in Due(s.armed, now) && g.recurring && f == Advance(g);
      assert g.addr == a && g == e;
    }
  }

  lemma PollKeyed(s: State, now: nat)
    requires Inv(s)
    ensures Keyed(Do(s, Poll(now)))
  {
    var t := Do(s, Poll(now));
    forall e | e in t.armed ensures e.addr in t.timers && t.timers[e.addr].entry == e {
      if e in Rearmed(Due(s.armed, now)) {
        var g :| g in Due(s.armed, now) && g.recurring && e == Advance(g);
        assert g.addr == e.addr;
      }
    }
  }

  // The other steps touch one timer only.
  lemma OthersStay(s: State, step: Step, a: nat)
    requires Inv(s) && Enabled(s, step) && !step.Poll? && a in s.timers && a != step.addr
    ensures var t := Do(s, step); a in t.timers && t.timers[a] == s.timers[a] && Places(t, a) == 1
  {
    assert Places(s, a) == 1;
    assert s.timers[a].entry.addr == a;
    assert step.addr in s.timers ==> s.timers[step.addr].entry.addr == step.addr;
  }

  lemma OwnPlace(s: State, step: Step)
    requires Inv(s) && Enabled(s, step) && !step.Poll?
    ensures var t := Do(s, step); step.addr in t.timers && Places(t, step.addr) == 1
  {
    if step.Add? {
      assert step.addr !in s.window;
    } else {
      assert Places(s, step.addr) == 1;
    }
  }

  lemma StepKeyed(s: State, step: Step)
    requires Inv(s) && Enabled(s, step) && !step.Poll?
    ensures Keyed(Do(s, step))
  {
    if step.addr in s.timers {
      assert Places(s, step.addr) == 1;
    }
  }

  lemma StepKeepsInv(s: State, step: Step)
    requires Inv(s) && Enabled(s, step)
    ensures Inv(Do(s, step))
  {
    var t := Do(s, step);
    if step.Poll? {
      PollKeyed(s, step.now);
      forall a | a in t.timers ensures Places(t, a) == 1 {
        assert Places(s, a) == 1;
        PollPlaces(s, step.now, a);
      }
    } else {
      StepKeyed(s, step);
      forall a | a in t.timers ensures Places(t, a) == 1 {
        if a == step.addr {
          OwnPlace(s, step);
        } else {
          OthersStay(s, step, a);
        }
      }
    }
  }

  // Conservation in every run: a timer is in exactly one place, so a one-shot
  // timer is collected once or cancelled once, never both, and the key under
  // which an armed timer is stored is always its current key.
  lemma {:induction false} RunsConserve(s: State, run: seq<Step>)
    requires Inv(s) && Legal(s, run)
    ensures Inv(Final(s, run))
    decreases |run|
  {
    if run != [] {
      StepKeepsInv(s, run[0]);
      RunsConserve(Do(s, run[0]), run[1..]);
    }
  }

  lemma OneShotOnce(run: seq<Step>, a: nat)
    requires Legal(Init, run) && a in Final(Init, run).timers
    ensures var c := Final(Init, run).timers[a];
      c.cancelled <= 1 && (!c.entry.recurring ==> c.collected + c.cancelled <= 1)
  {
    RunsConserve(Init, run);
    assert Places(Final(Init, run), a) == 1;
  }

  // A new timer is armed with what it was made with, and the others stay.
  lemma AddArms(s: State, a: nat, period: nat, recurring: bool, func: nat, now: nat)
    requires Keyed(s) && Enabled(s, Add(a, period, recurring, func, now))
    ensures var t := Do(s, Add(a, period, recurring, func, now));
      && Finds(t, a) && t.timers[a].entry == Entry((now + period) % WORD, a, period, recurring, func)
      && (forall b :: b in s.timers ==> t.timers[b] == s.timers[b] && (Finds(t, b) <==> Finds(s, b)))
  {
  }

  // cancel succeeds exactly on an armed timer, which is then not armed; the others
  // stay.
  lemma CancelDisarmsIff(s: State, a: nat)
    requires Keyed(s) && Enabled(s, Cancel(a))
    ensures var t := Do(s, Cancel(a));
      && !Finds(t, a) && t.timers[a].cancelled == s.timers[a].cancelled + One(Finds(s, a))
      && (forall b :: b in s.timers && b != a ==> t.timers[b] == s.timers[b] && (Finds(t, b) <==> Finds(s, b)))
  {
  }

  // A refresh without interruption restarts an armed timer at `now`, and changes
  // nothing otherwise.
  lemma RefreshRestartsIff(s: State, a: nat, now: nat)
    requires Inv(s) && Enabled(s, RefreshErase(a, now))
    ensures var t := Do(s, RefreshErase(a, now));
      if !Finds(s, a) then t == s
      else
        && Enabled(t, RefreshInsert(a)) && !Finds(t, a)
        && var u := Do(t, RefreshInsert(a));
          && Finds(u, a) && u.timers[a].entry == s.timers[a].entry.(next := (now + s.timers[a].entry.period) % WORD)
          && u.timers[a].base == now && u.timers[a].laps == 0 && u.window == s.window
  {
    assert Places(s, a) == 1;
    var t := Do(s, RefreshErase(a, now));
    assert forall e :: e in t.armed ==> e in s.armed && e.addr in s.timers && s.timers[e.addr].entry == e;
  }

  // After a successful cancel nothing touches the timer again: no poll collects
  // it, no second cancel succeeds, and refresh does not find it.
  lemma {:induction false} CancelIsFinal(s: State, a: nat, run: seq<Step>)
    requires Inv(s) && a in s.timers && s.timers[a].cancelled > 0 && Legal(s, run)
    ensures a in Final(s, run).timers && Final(s, run).timers[a] == s.timers[a]
    ensures !Finds(Final(s, run), a)
    decreases |run|
  {
    assert Places(s, a) == 1;
    if run != [] {
      StepKeepsInv(s, run[0]);
      assert run[0].RefreshInsert? ==> run[0].addr != a;
      assert Do(s, run[0]).timers[a] == s.timers[a];
      CancelIsFinal(Do(s, run[0]), a, run[1..]);
    }
  }

  // The k-th deadline of a timer armed at `base`, before it is cut to 64 bits.
  ghost function Beat(base: nat, period: nat, k: nat): nat { base + k * period }

  lemma BeatNext(base: nat, period: nat, k: nat)
    ensures Beat(base, period, k + 1) == Beat(base, period, k) + period
  {
  }

  // A pending timer's deadline is its next beat modulo 2^64, and no beat that
  // fits 64 bits was taken before its time.
  ghost predicate OnBeat(c: Cell, top: nat) {
    && c.entry.next == Wrap(Beat(c.base, c.entry.period, c.laps + 1))
    && (Beat(c.base, c.entry.period, c.laps) < WORD ==> Beat(c.base, c.entry.period, c.laps) <= top)
  }

  ghost predicate Steady(s: State) {
    forall a :: a in s.timers && (Finds(s, a) || s.window[a] > 0) ==> OnBeat(s.timers[a], s.top)
  }

  lemma WrapAdd(x: nat, p: nat)
    ensures Wrap(Wrap(x) + p) == Wrap(x + p)
  {
  }

  lemma NextBeat(c: Cell, now: nat, top: nat)
    requires OnBeat(c, top) && c.entry.next <= now <= top
    ensures OnBeat(c.(entry := Advance(c.entry), laps := c.laps + 1), top)
  {
    BeatNext(c.base, c.entry.period, c.laps + 1);
    WrapAdd(Beat(c.base, c.entry.period, c.laps + 1), c.entry.period);
  }

  lemma PollBeat(s: State, now: nat, a: nat)
    requires Inv(s) && Steady(s) && a in s.timers
    ensures var t := Do(s, Poll(now)); Finds(t, a) || t.window[a] > 0 ==> OnBeat(t.timers[a], t.top)
  {
    PollPlaces(s, now, a);
    assert Places(s, a) == 1;
    var c := s.timers[a];
    if c.entry in Due(s.armed, now) && OnBeat(c, s.top) {
      NextBeat(c, now, Max(s.top, now));
    }
  }

  lemma OwnBeat(s: State, step: Step)
    requires Inv(s) && Steady(s) && Enabled(s, step) && !step.Poll?
    ensures var t := Do(s, step); var a := step.addr;
      a in t.timers && (Finds(t, a) || t.window[a] > 0 ==> OnBeat(t.timers[a], t.top))
  {
    if step.Add? {
      BeatNext(step.now, step.period, 0);
    } else if step.RefreshErase? {
      BeatNext(step.now, s.timers[step.addr].entry.period, 0);
    }
  }

  lemma StepKeepsSteady(s: State, step: Step)
    requires Inv(s) && Steady(s) && Enabled(s, step)
    ensures Steady(Do(s, step))
  {
    var t := Do(s, step);
    forall a | a in t.timers && (Finds(t, a) || t.window[a] > 0) ensures OnBeat(t.timers[a], t.top) {
      if step.Poll? {
        PollBeat(s, step.now, a);
      } else if a == step.addr {
        OwnBeat(s, step);
      } else {
        OthersStay(s, step, a);
        OthersArmed(s, step, a);
      }
    }
  }

  lemma OthersArmed(s: State, step: Step, a: nat)
    requires Inv(s) && Enabled(s, step) && !step.Poll? && a in s.timers && a != step.addr
    ensures var t := Do(s, step); (Finds(t, a) ==> Finds(s, a)) && t.window[a] == s.window[a] && s.top <= t.top
  {
    OthersStay(s, step, a);
    assert s.timers[a].entry.addr == a;
    assert step.addr in s.timers ==> s.timers[step.addr].entry.addr == step.addr;
  }

  lemma {:induction false} RunsSteady(s: State, run: seq<Step>)
    requires Inv(s) && Steady(s) && Legal(s, run)
    ensures Inv(Final(s, run)) && Steady(Final(s, run))
    decreases |run|
  {
    if run != [] {
      StepKeepsInv(s, run[0]);
      StepKeepsSteady(s, run[0]);
      RunsSteady(Do(s, run[0]), run[1..]);
    }
  }

  lemma BeatMeans(c: Cell, top: nat)
    requires OnBeat(c, top)
    ensures var sum := c.base + (c.laps + 1) * c.entry.period;
      && c.entry.next == sum % WORD
      && (c.entry.next == sum <==> sum < WORD)
      && (sum < WORD && c.entry.period > 0 ==> c.base <= top && c.laps <= (top - c.base) / c.entry.period)
  {
    BeatNext(c.base, c.entry.period, c.laps);
    if Beat(c.base, c.entry.period, c.laps + 1) < WORD && c.entry.period > 0 {
      WholePeriods(c.laps, c.entry.period, top - c.base);
    }
  }

  // No drift, in every run: an armed timer that fired k times since it was armed
  // at `base` is due next at base + (k+1) * period modulo 2^64. That is
  // base + (k+1) * period itself exactly when the sum fits 64 bits, and then k
  // does not exceed the number of whole periods the clock has covered.
  lemma NoDrift(run: seq<Step>, a: nat)
    requires Legal(Init, run) && Finds(Final(Init, run), a)
    ensures var t := Final(Init, run); var c := t.timers[a]; var sum := c.base + (c.laps + 1) * c.entry.period;
      && c.entry.next == sum % WORD
      && (c.entry.next == sum <==> sum < WORD)
      && (sum < WORD && c.entry.period > 0 ==> c.base <= t.top && c.laps <= (t.top - c.base) / c.entry.period)
  {
    RunsSteady(Init, run);
    BeatMeans(Final(Init, run).timers[a], Final(Init, run).top);
  }

  lemma Scale(a: nat, b: nat, p: nat)
    requires a <= b
    ensures a * p <= b * p
  {
  }

  lemma WholePeriods(k: nat, p: nat, d: nat)
    requires p > 0
    ensures k * p <= d <==> k <= d / p
  {
    var q := d / p;
    assert q * p <= d < (q + 1) * p;
    if k <= q {
      Scale(k, q, p);
    } else {
      Scale(q + 1, k, p);
    }
  }

  // n polls at one clock value.
  ghost function Polls(n: nat, now: nat): seq<Step> {
    seq(n, _ => Poll(now))
  }

  lemma PollsHead(s: State, n: nat, now: nat)
    requires n > 0 && Legal(s, Polls(n, now))
    ensures Legal(Do(s, Poll(now)), Polls(n - 1, now))
    ensures Final(s, Polls(n, now)) == Final(Do(s, Poll(now)), Polls(n - 1, now))
  {
    assert Polls(n, now)[1..] == Polls(n - 1, now) && Polls(n, now)[0] == Poll(now);
  }

  // One poll of an armed recurring timer.
  lemma PollRecurring(s: State, a: nat, now: nat)
    requires Inv(s) && Finds(s, a) && s.timers[a].entry.recurring
    ensures var t := Do(s, Poll(now)); var c := s.timers[a];
      && Inv(t) && Finds(t, a) && t.timers[a].base == c.base && t.timers[a].entry.recurring
      && t.timers[a].entry.period == c.entry.period
      && (if c.entry.next <= now then t.timers[a].laps == c.laps + 1 && t.timers[a].collected == c.collected + 1
          else t.timers[a] == c)
      && (c.entry.period == 0 && c.entry.next < WORD ==> t.timers[a].entry == c.entry)
  {
    StepKeepsInv(s, Poll(now));
    PollPlaces(s, now, a);
  }

  // The whole periods between arming and `now`.
  ghost function Periods(base: nat, period: nat, now: nat): nat
    requires period > 0
  {
    if base <= now then (now - base) / period else 0
  }

  lemma DueUntilCaughtUp(c: Cell, top: nat, now: nat)
    requires OnBeat(c, top) && top <= now && c.entry.period > 0 && Beat(c.base, c.entry.period, c.laps) < WORD && now + c.entry.period < WORD
    ensures c.laps <= Periods(c.base, c.entry.period, now)
    ensures c.entry.next <= now <==> c.laps < Periods(c.base, c.entry.period, now)
    ensures c.entry.next <= now ==> Beat(c.base, c.entry.period, c.laps + 1) < WORD
  {
    BeatNext(c.base, c.entry.period, c.laps);
    WholePeriods(c.laps, c.entry.period, now - c.base);
    WholePeriods(c.laps + 1, c.entry.period, now - c.base);
  }

  // A recurring timer whose deadlines up to `now` do not wrap around.
  ghost predicate Tracks(c: Cell, now: nat) {
    && c.entry.recurring && c.entry.period > 0
    && Beat(c.base, c.entry.period, c.laps) < WORD && now + c.entry.period < WORD
  }

  ghost function Goal(c: Cell, now: nat): nat
    requires c.entry.period > 0
  {
    Periods(c.base, c.entry.period, now)
  }

  lemma CatchUpStep(s: State, a: nat, now: nat)
    requires Inv(s) && Steady(s) && Finds(s, a) && s.top <= now && Tracks(s.timers[a], now)
    ensures var t := Do(s, Poll(now)); var c := s.timers[a];
      && c.laps <= Goal(c, now)
      && Inv(t) && Steady(t) && Finds(t, a) && t.top <= now && Tracks(t.timers[a], now)
      && Goal(t.timers[a], now) == Goal(c, now)
      && t.timers[a].laps - c.laps == t.timers[a].collected - c.collected == One(c.laps < Goal(c, now))
  {
    DueUntilCaughtUp(s.timers[a], s.top, now);
    PollRecurring(s, a, now);
    StepKeepsSteady(s, Poll(now));
  }

  // How often a timer has fired after n more polls.
  ghost function LapsAfter(laps: nat, goal: nat, n: nat): nat
    requires laps <= goal
  {
    if n <= goal - laps then laps + n else goal
  }

  lemma LapsStep(laps: nat, goal: nat, n: nat)
    requires laps <= goal && n > 0
    ensures LapsAfter(laps + One(laps < goal), goal, n - 1) == LapsAfter(laps, goal, n)
  {
  }

  lemma {:induction false} PollsReach(s: State, a: nat, now: nat, n: nat, goal: nat)
    requires Inv(s) && Steady(s) && Finds(s, a) && s.top <= now && Tracks(s.timers[a], now) && Legal(s, Polls(n, now))
    requires goal == Goal(s.timers[a], now)
    ensures s.timers[a].laps <= goal
    ensures var c := s.timers[a]; var d := Final(s, Polls(n, now)).timers;
      a in d && d[a].laps == LapsAfter(c.laps, goal, n) && d[a].collected - c.collected == d[a].laps - c.laps
    decreases n
  {
    CatchUpStep(s, a, now);
    if n > 0 {
      PollsHead(s, n, now);
      LapsStep(s.timers[a].laps, goal, n);
      PollsReach(Do(s, Poll(now)), a, now, n - 1, goal);
    }
  }

  // Repeated polls at a fixed time T fire such a timer once each until it has
  // fired floor((T - base) / period) times since arming, then no more.
  lemma PollsCatchUp(s: State, a: nat, now: nat, n: nat)
    requires Inv(s) && Steady(s) && Finds(s, a) && s.top <= now && Tracks(s.timers[a], now) && Legal(s, Polls(n, now))
    ensures var c := s.timers[a]; var d := Final(s, Polls(n, now)).timers;
      && c.laps <= Goal(c, now)
      && a in d && d[a].laps == (if n <= Goal(c, now) - c.laps then c.laps + n else Goal(c, now))
      && d[a].collected - c.collected == d[a].laps - c.laps
  {
    PollsReach(s, a, now, n, Goal(s.timers[a], now));
  }

  // A recurring timer of period zero never catches up: it fires on every poll.
  lemma {:induction false} ZeroPeriodFiresForever(s: State, a: nat, now: nat, n: nat)
    requires Inv(s) && Finds(s, a) && Legal(s, Polls(n, now))
    requires s.timers[a].entry.recurring && s.timers[a].entry.period == 0
    requires s.timers[a].entry.next <= now < WORD
    ensures a in Final(s, Polls(n, now)).timers
    ensures Final(s, Polls(n, now)).timers[a].collected == s.timers[a].collected + n
    decreases n
  {
    if n > 0 {
      PollsHead(s, n, now);
      PollRecurring(s, a, now);
      ZeroPeriodFiresForever(Do(s, Poll(now)), a, now, n - 1);
    }
  }
}
