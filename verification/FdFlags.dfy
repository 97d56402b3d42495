/**
 * Tracked descriptors and their virtual O_NONBLOCK flag (src/fd_manager.cpp;
 * fcntl and ioctl in src/hook.cpp). A tracked socket is non-blocking in the
 * kernel, while the user sees the flag as on a plain descriptor.
 */
module FdFlags {
  // A flag word as the set of its bits.
  type Word = set<nat>

  // Bit of O_NONBLOCK (0x800).
  const NONBLOCK: nat := 11

  // The bits F_SETFL can change on Linux: O_APPEND, O_NONBLOCK, O_ASYNC,
  // O_DIRECT and O_NOATIME.
  const SETTABLE: Word := {10, NONBLOCK, 13, 14, 18}

  predicate IsNonblock(flags: Word) { NONBLOCK in flags }

  function WithNonblock(flags: Word, on: bool): Word {
    if on then flags + {NONBLOCK} else flags - {NONBLOCK}
  }

  // The kernel's F_SETFL.
  function SetFlags(flags: Word, arg: Word): Word {
    (flags - SETTABLE) + (arg * SETTABLE)
  }

  // On Linux those are bits 10, 11, 13, 14 and 18 of the word, bit 11 being
  // O_NONBLOCK: they come from the argument, all others stay.
  lemma SetFlagsBits(flags: Word, arg: Word, on: bool, b: nat)
    ensures b in SetFlags(flags, arg) <==> if b in {10, 11, 13, 14, 18} then b in arg else b in flags
    ensures b in WithNonblock(flags, on) <==> if b == 11 then on else b in flags
  {
  }

  // A tracked socket: the kernel's flags and the flag shown to the user.
  datatype Socket = Socket(kernel: Word, user: bool)

  // What F_GETFL returns.
  function Shown(s: Socket): Word { WithNonblock(s.kernel, s.user) }

  // An operation and whether the kernel accepts it.
  datatype Op =
    | SetFl(arg: Word, ok: bool)   // fcntl(F_SETFL)
    | Nbio(on: bool, ok: bool)     // ioctl(FIONBIO)

  // The O_NONBLOCK bit an operation asks for.
  predicate Wanted(op: Op) { if op.SetFl? then IsNonblock(op.arg) else op.on }

  // FdCtx::init on a socket with these flags.
  function Tracked(flags: Word): Socket { Socket(flags + {NONBLOCK}, false) }

  // The hooked operation: the shown flag first, then the kernel call.
  function Hooked(s: Socket, op: Op): Socket {
    match op
    case SetFl(arg, ok) => Socket(if ok then SetFlags(s.kernel, arg + {NONBLOCK}) else s.kernel, IsNonblock(arg))
    case Nbio(on, ok) => Socket(if ok then WithNonblock(s.kernel, on) else s.kernel, on)
  }

  // The same operation on a plain descriptor.
  function Plain(flags: Word, op: Op): Word {
    match op
    case SetFl(arg, ok) => if ok then SetFlags(flags, arg) else flags
    case Nbio(on, ok) => if ok then WithNonblock(flags, on) else flags
  }

  function HookedAll(s: Socket, ops: seq<Op>): Socket {
    if ops == [] then s else Hooked(HookedAll(s, ops[..|ops| - 1]), ops[|ops| - 1])
  }

  function PlainAll(flags: Word, ops: seq<Op>): Word {
    if ops == [] then flags else Plain(PlainAll(flags, ops[..|ops| - 1]), ops[|ops| - 1])
  }

  // Same flags as the plain descriptor but for the kernel's O_NONBLOCK bit.
  predicate SameBut(s: Socket, p: Word) { s.kernel + {NONBLOCK} == p + {NONBLOCK} }

  lemma ShownAgreesIff(s: Socket, p: Word)
    requires SameBut(s, p)
    ensures Shown(s) == p <==> s.user == IsNonblock(p)
  {
    assert forall b :: b != NONBLOCK ==> (b in s.kernel <==> b in s.kernel + {NONBLOCK}) && (b in p <==> b in p + {NONBLOCK});
  }

  lemma OneStep(s: Socket, p: Word, op: Op)
    requires SameBut(s, p)
    ensures SameBut(Hooked(s, op), Plain(p, op))
    ensures op.ok ==> Hooked(s, op).user == IsNonblock(Plain(p, op))
  {
    assert forall b :: b != NONBLOCK ==> (b in s.kernel <==> b in s.kernel + {NONBLOCK}) && (b in p <==> b in p + {NONBLOCK});
  }

  lemma {:induction false} BitsAgree(flags: Word, ops: seq<Op>)
    ensures SameBut(HookedAll(Tracked(flags), ops), PlainAll(flags, ops))
  {
    if ops != [] {
      var n := |ops| - 1;
      BitsAgree(flags, ops[..n]);
      OneStep(HookedAll(Tracked(flags), ops[..n]), PlainAll(flags, ops[..n]), ops[n]);
    }
  }

  // The shown flag is the one last asked for.
  ghost predicate LastWish(ops: seq<Op>) {
    ops != [] && Wanted(ops[|ops| - 1])
  }

  lemma ShownFlag(flags: Word, ops: seq<Op>)
    ensures HookedAll(Tracked(flags), ops).user == LastWish(ops)
  {
  }

  // The plain flag is the one last granted, or the one the socket came with.
  ghost predicate LastGrant(flags: Word, ops: seq<Op>) {
    if ops == [] then IsNonblock(flags)
    else if ops[|ops| - 1].ok then Wanted(ops[|ops| - 1])
    else LastGrant(flags, ops[..|ops| - 1])
  }

  lemma {:induction false} PlainFlag(flags: Word, ops: seq<Op>)
    ensures IsNonblock(PlainAll(flags, ops)) == LastGrant(flags, ops)
  {
    if ops != [] {
      PlainFlag(flags, ops[..|ops| - 1]);
    }
  }

  // Virtual flag, for every sequence of operations: F_GETFL shows exactly what
  // a plain descriptor would if and only if the flag last asked for is the one
  // last granted.
  lemma ShownAsPlainIff(flags: Word, ops: seq<Op>)
    ensures Shown(HookedAll(Tracked(flags), ops)) == PlainAll(flags, ops) <==> LastWish(ops) == LastGrant(flags, ops)
  {
    BitsAgree(flags, ops);
    ShownFlag(flags, ops);
    PlainFlag(flags, ops);
    ShownAgreesIff(HookedAll(Tracked(flags), ops), PlainAll(flags, ops));
  }

  // When the kernel accepts the operations, that is so except while nothing has
  // been asked for yet on a socket created non-blocking.
  lemma FlagsShownAsPlain(flags: Word, ops: seq<Op>)
    requires forall i :: 0 <= i < |ops| ==> ops[i].ok
    ensures Shown(HookedAll(Tracked(flags), ops)) == PlainAll(flags, ops) <==> ops != [] || !IsNonblock(flags)
  {
    ShownAsPlainIff(flags, ops);
  }

  // A refused operation has already changed the shown flag: from agreement it
  // keeps agreement exactly when it asked for the flag that was there.
  lemma RefusedIff(s: Socket, p: Word, op: Op)
    requires SameBut(s, p) && Shown(s) == p && !op.ok
    ensures Shown(Hooked(s, op)) == Plain(p, op) <==> Wanted(op) == IsNonblock(p)
  {
    ShownAgreesIff(Hooked(s, op), p);
  }

  // An ioctl has cleared the kernel's flag and nothing accepted has followed.
  ghost predicate Unblocked(ops: seq<Op>) {
    exists i :: 0 <= i < |ops| && ops[i] == Nbio(false, true) && forall j :: i < j < |ops| ==> !ops[j].ok
  }

  lemma UnblockedStep(ops: seq<Op>, n: nat)
    requires n + 1 == |ops|
    ensures Unblocked(ops) <==> if ops[n].ok then ops[n] == Nbio(false, true) else Unblocked(ops[..n])
  {
    if Unblocked(ops[..n]) && !ops[n].ok {
      var i :| 0 <= i < n && ops[..n][i] == Nbio(false, true) && forall j :: i < j < n ==> !ops[..n][j].ok;
      forall j | i < j < |ops| ensures !ops[j].ok {
        assert j < n ==> ops[..n][j] == ops[j];
      }
      assert ops[i] == Nbio(false, true);
    }
    if Unblocked(ops) && !ops[n].ok {
      var i :| 0 <= i < |ops| && ops[i] == Nbio(false, true) && forall j :: i < j < |ops| ==> !ops[j].ok;
      assert ops[..n][i] == Nbio(false, true);
    }
  }

  // The kernel flag stays non-blocking, so do_io never blocks a worker in the
  // kernel, exactly until an accepted FIONBIO clears it and no accepted
  // operation has followed.
  lemma {:induction false} KernelNonblockIff(flags: Word, ops: seq<Op>)
    ensures IsNonblock(HookedAll(Tracked(flags), ops).kernel) <==> !Unblocked(ops)
  {
    if ops != [] {
      var n := |ops| - 1;
      KernelNonblockIff(flags, ops[..n]);
      UnblockedStep(ops, n);
    }
  }
}
