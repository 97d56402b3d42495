/**
 * Racing calls of FdManager::get with auto_create (src/fd_manager.cpp:75-108).
 * It looks under the read lock and, if it found nothing, creates under the write
 * lock without looking again.
 */
module FdRaces {
  // A context that get has given to a caller, until the descriptor is deleted.
  datatype Given = Given(fd: nat, ctx: nat)

  datatype State = State(
    entries: map<nat, nat>,     // m_datas: descriptor to context
    made: nat,                  // contexts made so far
    creating: multiset<nat>,    // gets that found nothing and have not yet created
    given: set<Given>)

  datatype Step = Look(fd: nat) | Create(fd: nat) | Del(fd: nat)

  ghost const INIT: State := State(map[], 0, multiset{}, {})

  ghost predicate Enabled(s: State, step: Step) {
    step.Create? ==> s.creating[step.fd] > 0
  }

  ghost function Do(s: State, step: Step): State
    requires Enabled(s, step)
  {
    match step
    case Look(fd) =>
      if fd in s.entries then s.(given := s.given + {Given(fd, s.entries[fd])})
      else s.(creating := s.creating + multiset{fd})
    case Create(fd) =>
      State(s.entries[fd := s.made], s.made + 1, s.creating - multiset{fd}, s.given + {Given(fd, s.made)})
    case Del(fd) =>
      s.(entries := s.entries - {fd}, given := set g | g in s.given && g.fd != fd)
  }

  ghost predicate Legal(s: State, run: seq<Step>)
    decreases |run|
  {
    run == [] || (Enabled(s, run[0]) && Legal(Do(s, run[0]), run[1..]))
  }

  ghost function Final(s: State, run: seq<Step>): State
    requires Legal(s, run)
    decreases |run|
  {
    if run == [] then s else Final(Do(s, run[0]), run[1..])
  }

  // What the three sections do to the table and to their caller: the look gives the
  // entry if there is one, the creation gives and enters a new context, del removes
  // the entry; other descriptors are left alone.
  lemma SectionsAre(s: State, step: Step, fd: nat)
    requires Enabled(s, step)
    ensures var t := Do(s, step);
      && (step == Look(fd) && fd in s.entries ==> t.entries == s.entries && Given(fd, s.entries[fd]) in t.given && t.creating == s.creating)
      && (step == Look(fd) && fd !in s.entries ==> t.entries == s.entries && t.creating[fd] == s.creating[fd] + 1)
      && (step == Create(fd) ==> fd in t.entries && t.entries[fd] == s.made && Given(fd, s.made) in t.given && t.made == s.made + 1)
      && (step == Del(fd) ==> fd !in t.entries)
      && (step.fd != fd ==> (fd in t.entries <==> fd in s.entries) && (fd in s.entries ==> t.entries[fd] == s.entries[fd]))
  {
  }

  // Every entry was given to the caller that made it; numbers are used once.
  ghost predicate Known(s: State) {
    && (forall fd :: fd in s.entries ==> Given(fd, s.entries[fd]) in s.given)
    && (forall g :: g in s.given ==> g.ctx < s.made)
  }

  // Every caller has the context the table has.
  ghost predicate Agree(s: State) {
    forall g :: g in s.given ==> g.fd in s.entries && s.entries[g.fd] == g.ctx
  }

  ghost predicate AlwaysAgree(s: State, run: seq<Step>)
    requires Legal(s, run)
    decreases |run|
  {
    Agree(s) && (run == [] || AlwaysAgree(Do(s, run[0]), run[1..]))
  }

  // Every creation finds the entry still empty, as a second look would show.
  ghost predicate StillEmpty(s: State, run: seq<Step>)
    requires Legal(s, run)
    decreases |run|
  {
    run == [] || ((run[0].Create? ==> run[0].fd !in s.entries) && StillEmpty(Do(s, run[0]), run[1..]))
  }

  lemma StepAgreesIff(s: State, step: Step)
    requires Known(s) && Agree(s) && Enabled(s, step)
    ensures Known(Do(s, step))
    ensures Agree(Do(s, step)) <==> (step.Create? ==> step.fd !in s.entries)
  {
    if step.Create? && step.fd in s.entries {
      assert Given(step.fd, s.entries[step.fd]) in Do(s, step).given;
    }
  }

  // All along a run every caller has the table's context if and only if every
  // creation finds the entry still empty.
  lemma {:induction false} CallersAgreeIff(s: State, run: seq<Step>)
    requires Known(s) && Agree(s) && Legal(s, run)
    ensures AlwaysAgree(s, run) <==> StillEmpty(s, run)
    decreases |run|
  {
    if run != [] {
      StepAgreesIff(s, run[0]);
      if Agree(Do(s, run[0])) {
        CallersAgreeIff(Do(s, run[0]), run[1..]);
      }
    }
  }

  // Two racing gets: the first caller keeps a context the table does not have.
  lemma RacingGetsDisagree() returns (run: seq<Step>)
    ensures Known(INIT) && Agree(INIT) && Legal(INIT, run)
    ensures var s := Final(INIT, run); Given(5, 0) in s.given && 5 in s.entries && s.entries[5] == 1
  {
    run := [Look(5), Look(5), Create(5), Create(5)];
    var s1 := Do(INIT, Look(5));
    var s2 := Do(s1, Look(5));
    var s3 := Do(s2, Create(5));
    var s4 := Do(s3, Create(5));
    assert run[1..] == [Look(5), Create(5), Create(5)];
    assert run[1..][1..] == [Create(5), Create(5)];
    assert run[1..][1..][1..] == [Create(5)];
    assert run[1..][1..][1..][1..] == [];
    assert Legal(s3, [Create(5)]) && Final(s3, [Create(5)]) == s4;
    assert Legal(s2, run[1..][1..]) && Final(s2, run[1..][1..]) == s4;
    assert Legal(s1, run[1..]) && Final(s1, run[1..]) == s4;
  }
}
