/**
 * Fibers on one thread (src/fiber.h, src/fiber.cpp): the per-thread current
 * fiber and the states of the fibers, changed around context swaps. Fiber 0 is
 * the thread's main fiber.
 */
module Fibers {
  datatype FiberState = READY | SUSPEND | RUNNING | TERM | EXCEPT

  predicate IsDone(st: FiberState) { st == TERM || st == EXCEPT }

  // Control enters a fiber by call and leaves it in some state.
  datatype Event = Entered(f: nat) | Left(f: nat, st: FiberState)

  datatype Control = Control(
    current: nat,                  // t_fiber
    states: map<nat, FiberState>,  // m_state of every fiber made
    log: seq<Event>)               // the context swaps so far

  const START: Control := Control(0, map[0 := RUNNING], [])

  // What call asserts of its fiber.
  predicate CallAsserts(c: Control, f: nat) {
    f in c.states && c.states[f] != RUNNING && c.states[f] != TERM
  }

  function Called(c: Control, f: nat): Control {
    Control(f, c.states[f := RUNNING], c.log + [Entered(f)])
  }

  // Yield, YieldReady and the end of MainFunc: back to the main fiber with the
  // current fiber in state `st`; nothing when the main fiber is current.
  function Switched(c: Control, st: FiberState): Control {
    if c.current == 0 then c
    else Control(0, c.states[c.current := st], c.log + [Left(c.current, st)])
  }

  class FiberThread {
    var current: nat
    var states: map<nat, FiberState>
    ghost var log: seq<Event>

    ghost function View(): Control
      reads this
    {
      Control(current, states, log)
    }

    constructor ()
      ensures View() == START
    {
      current, states, log := 0, map[0 := RUNNING], [];
    }

    // A new fiber starts READY.
    method Create(f: nat)
      requires f !in states
      modifies this
      ensures View() == Do(old(View()), Step.Create(f)) && current == old(current) && states == old(states)[f := READY]
    {
      states := states[f := READY];
    }

    // call; false stands for its failed assertion.
    method Call(f: nat) returns (ok: bool)
      requires f in states
      modifies this
      ensures f == 0 && old(current) == 0 ==> ok && View() == old(View())
      ensures !(f == 0 && old(current) == 0) ==> (ok <==> CallAsserts(old(View()), f))
      ensures !(f == 0 && old(current) == 0) && ok ==>
        View() == Do(old(View()), Step.Call(f)) && current == f && states == old(states)[f := RUNNING]
    {
      if f == 0 && current == 0 {
        return true;
      }
      current := f;
      ok := states[f] != RUNNING && states[f] != TERM;
      if ok {
        states := states[f := RUNNING];
        log := log + [Entered(f)];
      }
    }

    // The swap back to the main fiber.
    method SwitchToMain(st: FiberState)
      modifies this
      ensures View() == Switched(old(View()), st)
    {
      if current == 0 {
        return;
      }
      states := states[current := st];
      log := log + [Left(current, st)];
      current := 0;
    }

    method Yield()
      modifies this
      ensures View() == Do(old(View()), Step.Yield)
      ensures old(current) == 0 ==> View() == old(View())
      ensures old(current) != 0 ==> current == 0 && states == old(states)[old(current) := SUSPEND]
    {
      SwitchToMain(SUSPEND);
    }

    method YieldReady()
      modifies this
      ensures View() == Do(old(View()), Step.YieldReady)
      ensures old(current) == 0 ==> View() == old(View())
      ensures old(current) != 0 ==> current == 0 && states == old(states)[old(current) := READY]
    {
      SwitchToMain(READY);
    }

    // The end of MainFunc: TERM, or EXCEPT if the function threw.
    method Finish(threw: bool)
      modifies this
      ensures View() == Do(old(View()), Step.Finish(threw))
      ensures old(current) == 0 ==> View() == old(View())
      ensures old(current) != 0 && !threw ==> current == 0 && states == old(states)[old(current) := TERM]
      ensures old(current) != 0 && threw ==> current == 0 && states == old(states)[old(current) := EXCEPT]
    {
      SwitchToMain(if threw then EXCEPT else TERM);
    }

    method Reset(f: nat)
      requires f in states
      modifies this
      ensures View() == Do(old(View()), Step.Reset(f)) && current == old(current) && states == old(states)[f := READY]
    {
      states := states[f := READY];
    }
  }

  // ---- all sequences of operations on one thread ----

  datatype Step = Create(f: nat) | Call(f: nat) | Yield | YieldReady | Finish(threw: bool) | Reset(f: nat)

  // The callers' part: fibers are called and reset from the main fiber, and a
  // called fiber is not done.
  predicate Enabled(c: Control, step: Step) {
    match step
    case Create(f) => f !in c.states
    case Call(f) => c.current == 0 && f != 0 && f in c.states && !IsDone(c.states[f])
    case Reset(f) => c.current == 0 && f != 0 && f in c.states
    case _ => true
  }

  function Do(c: Control, step: Step): Control {
    match step
    case Create(f) => c.(states := c.states[f := READY])
    case Call(f) => Called(c, f)
    case Yield => Switched(c, SUSPEND)
    case YieldReady => Switched(c, READY)
    case Finish(threw) => Switched(c, if threw then EXCEPT else TERM)
    case Reset(f) => c.(states := c.states[f := READY])
  }

  ghost predicate Legal(c: Control, run: seq<Step>)
    decreases |run|
  {
    run == [] || (Enabled(c, run[0]) && Legal(Do(c, run[0]), run[1..]))
  }

  ghost function Final(c: Control, run: seq<Step>): Control
    requires Legal(c, run)
    decreases |run|
  {
    if run == [] then c else Final(Do(c, run[0]), run[1..])
  }

  // The swaps alternate: into a fiber, out of that same fiber, with the fiber
  // no longer RUNNING.
  ghost predicate InTurn(log: seq<Event>, i: nat)
    requires i < |log|
  {
    if i % 2 == 0 then log[i].Entered? && log[i].f != 0
    else log[i].Left? && log[i].f == log[i - 1].f && log[i].st != RUNNING
  }

  ghost predicate Alternates(log: seq<Event>) {
    forall i :: 0 <= i < |log| ==> InTurn(log, i)
  }

  ghost predicate Inv(c: Control) {
    && c.current in c.states && 0 in c.states && c.states[0] == RUNNING
    && (forall f :: f in c.states && f != 0 ==> (c.states[f] == RUNNING <==> f == c.current))
    && Alternates(c.log)
    && (if c.current == 0 then |c.log| % 2 == 0 else |c.log| % 2 == 1 && c.log[|c.log| - 1] == Entered(c.current))
  }

  lemma StepInv(c: Control, step: Step)
    requires Inv(c) && Enabled(c, step)
    ensures Inv(Do(c, step))
  {
    var d := Do(c, step);
    forall i | 0 <= i < |d.log| ensures InTurn(d.log, i) {
      assert i < |c.log| ==> InTurn(c.log, i);
    }
  }

  lemma {:induction false} RunInv(c: Control, run: seq<Step>)
    requires Inv(c) && Legal(c, run)
    ensures Inv(Final(c, run))
    decreases |run|
  {
    if run != [] {
      StepInv(c, run[0]);
      RunInv(Do(c, run[0]), run[1..]);
    }
  }

  // Fiber discipline: whatever the fibers do, at most one task fiber is RUNNING
  // and it is the current one; every call comes back to the main fiber, with the
  // callee out of RUNNING; and the assertion in call never fails.
  lemma FiberDiscipline(run: seq<Step>)
    requires Legal(START, run)
    ensures var c := Final(START, run);
      && (forall f :: f in c.states && f != 0 ==> (c.states[f] == RUNNING <==> f == c.current))
      && Alternates(c.log)
      && (c.current == 0 <==> |c.log| % 2 == 0)
      && (forall f :: Enabled(c, Call(f)) ==> CallAsserts(c, f))
  {
    RunInv(START, run);
  }

  // The state fiber f is in after the swaps in `log`, from state st.
  ghost function StateAfter(log: seq<Event>, f: nat, st: FiberState): FiberState {
    if log == [] then st
    else
      var e := log[|log| - 1];
      if e.f != f then StateAfter(log[..|log| - 1], f, st)
      else if e.Entered? then RUNNING
      else e.st
  }

  lemma {:induction false} SwapsAppend(a: seq<Event>, b: seq<Event>, f: nat, st: FiberState)
    ensures StateAfter(a + b, f, st) == StateAfter(b, f, StateAfter(a, f, st))
    decreases |b|
  {
    if b == [] {
      assert a + b == a;
    } else {
      var n := |b| - 1;
      assert (a + b)[..|a| + n] == a + b[..n];
      SwapsAppend(a, b[..n], f, st);
    }
  }

  // The one swap a step makes: control leaves the current fiber in the state that
  // Yield, YieldReady or its end asks for, or enters the fiber called.
  ghost function Swap(c: Control, step: Step): seq<Event> {
    match step
    case Call(f) => [Entered(f)]
    case Yield => if c.current == 0 then [] else [Left(c.current, SUSPEND)]
    case YieldReady => if c.current == 0 then [] else [Left(c.current, READY)]
    case Finish(threw) => if c.current == 0 then [] else if threw then [Left(c.current, EXCEPT)] else [Left(c.current, TERM)]
    case Create(_) => []
    case Reset(_) => []
  }

  ghost function Swaps(c: Control, run: seq<Step>): seq<Event>
    requires Legal(c, run)
    decreases |run|
  {
    if run == [] then [] else Swap(c, run[0]) + Swaps(Do(c, run[0]), run[1..])
  }

  lemma StepAsLeft(c: Control, step: Step, f: nat)
    requires Inv(c) && Enabled(c, step) && f in c.states && step != Reset(f)
    ensures var d, e := Do(c, step), Swap(c, step);
      d.log == c.log + e && f in d.states && d.states[f] == StateAfter(e, f, c.states[f])
  {
    var e := Swap(c, step);
    assert e != [] ==> e[..|e| - 1] == [];
  }

  // Over any operations every fiber that is not reset is in the state in which
  // control last left it: SUSPEND after Yield, READY after YieldReady, TERM or
  // EXCEPT after its end; with no swap since, in the state it had.
  lemma {:induction false} StatesAreAsLeft(c: Control, run: seq<Step>, f: nat)
    requires Inv(c) && Legal(c, run) && f in c.states && Reset(f) !in run
    ensures var d := Final(c, run);
      && d.log == c.log + Swaps(c, run)
      && f in d.states && d.states[f] == StateAfter(Swaps(c, run), f, c.states[f])
    decreases |run|
  {
    if run != [] {
      var d, e := Do(c, run[0]), Swap(c, run[0]);
      StepInv(c, run[0]);
      StepAsLeft(c, run[0], f);
      StatesAreAsLeft(d, run[1..], f);
      SwapsAppend(e, Swaps(d, run[1..]), f, c.states[f]);
    }
  }

  // A done fiber changes state only by reset.
  lemma {:induction false} DoneStays(c: Control, run: seq<Step>, f: nat)
    requires Inv(c) && Legal(c, run) && f in c.states && IsDone(c.states[f]) && Reset(f) !in run
    ensures f in Final(c, run).states && Final(c, run).states[f] == c.states[f]
    decreases |run|
  {
    if run != [] {
      StepInv(c, run[0]);
      assert f != c.current && f != 0;
      DoneStays(Do(c, run[0]), run[1..], f);
    }
  }

  // call's own assertion lets a fiber pass that ended by an exception: it is
  // weaker than "not done" by exactly that state.
  lemma CallAssertionGap(c: Control, f: nat)
    requires Inv(c) && f in c.states && f != 0 && c.current == 0
    ensures CallAsserts(c, f) <==> !IsDone(c.states[f]) || c.states[f] == EXCEPT
  {
  }
}
