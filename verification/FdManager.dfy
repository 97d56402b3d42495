/**
 * FdCtx and FdManager as objects (src/fd_manager.h, src/fd_manager.cpp), with
 * the F_SETFL, F_GETFL and FIONBIO branches of src/hook.cpp on top. The kernel's
 * flag words are a field beside the table.
 */
module FdManagers {
  import opened Basics
  import opened FdFlags

  // What fstat says about a descriptor.
  datatype Stat = Fails | IsSocket | IsOther

  const NO_TIMEOUT: nat := 0xFFFF_FFFF_FFFF_FFFF

  class FdCtx {
    const fd: nat
    const isInit: bool
    const isSocket: bool
    const sysNonblock: bool
    var userNonblock: bool
    var recvTimeout: nat
    var sendTimeout: nat

    // The fields init sets; the kernel call it makes is in FdManager.Get.
    constructor (fd: nat, stat: Stat)
      ensures this.fd == fd && isInit == !stat.Fails? && isSocket == sysNonblock == stat.IsSocket?
      ensures !userNonblock && recvTimeout == sendTimeout == 0xFFFF_FFFF_FFFF_FFFF
    {
      this.fd := fd;
      isInit := !stat.Fails?;
      isSocket := stat.IsSocket?;
      sysNonblock := stat.IsSocket?;
      userNonblock, recvTimeout, sendTimeout := false, NO_TIMEOUT, NO_TIMEOUT;
    }

    method SetTimeout(receiving: bool, ms: nat)
      modifies this
      ensures GetTimeout(receiving) == ms && GetTimeout(!receiving) == old(GetTimeout(!receiving))
      ensures if receiving then recvTimeout == ms && sendTimeout == old(sendTimeout) else sendTimeout == ms && recvTimeout == old(recvTimeout)
      ensures userNonblock == old(userNonblock)
    {
      if receiving {
        recvTimeout := ms;
      } else {
        sendTimeout := ms;
      }
    }

    function GetTimeout(receiving: bool): nat
      reads this
    {
      if receiving then recvTimeout else sendTimeout
    }
  }

  class FdManager {
    var datas: seq<FdCtx?>
    var kernel: map<nat, Word>

    ghost predicate Valid()
      reads this, datas
    {
      && |datas| >= 2
      && forall i :: 0 <= i < |datas| && datas[i] != null ==> datas[i].fd == i && datas[i].isSocket == datas[i].sysNonblock
    }

    ghost function Entry(fd: int): FdCtx?
      reads this
    {
      if 0 <= fd < |datas| then datas[fd] else null
    }

    // The tracked socket behind a descriptor.
    ghost function SocketAt(fd: nat): Option<Socket>
      reads this, datas
    {
      if Entry(fd) != null && Entry(fd).isSocket && fd in kernel then Some(Socket(kernel[fd], Entry(fd).userNonblock)) else None
    }

    constructor (kernel: map<nat, Word>)
      ensures Valid() && this.kernel == kernel && forall fd :: Entry(fd) == null
    {
      datas := seq(64, _ => null);
      this.kernel := kernel;
    }

    // get: the entry, or a new context that makes a socket non-blocking in the
    // kernel. A context made after del starts afresh.
    method Get(fd: int, autoCreate: bool, stat: Stat) returns (ctx: FdCtx?)
      requires Valid() && fd >= -1 && (stat.IsSocket? ==> fd in kernel)
      modifies this
      ensures Valid() && ctx == Entry(fd)
      ensures old(Entry(fd)) != null || !autoCreate || fd == -1 ==> ctx == old(Entry(fd)) && kernel == old(kernel)
      ensures old(Entry(fd)) == null && autoCreate && fd != -1 ==>
        && ctx != null && fresh(ctx) && ctx.isSocket == stat.IsSocket?
        && ctx.recvTimeout == NO_TIMEOUT && ctx.sendTimeout == NO_TIMEOUT && !ctx.userNonblock
        && (if stat.IsSocket? then SocketAt(fd) == Some(Tracked(old(kernel)[fd])) && kernel == old(kernel)[fd := kernel[fd]]
            else kernel == old(kernel))
      ensures forall i :: i != fd ==> Entry(i) == old(Entry(i))
    {
      if fd == -1 {
        return null;
      }
      if |datas| <= fd {
        if !autoCreate {
          return null;
        }
      } else if datas[fd] != null || !autoCreate {
        return datas[fd];
      }
      ctx := new FdCtx(fd, stat);
      if stat.IsSocket? && !IsNonblock(kernel[fd]) {
        kernel := kernel[fd := kernel[fd] + {NONBLOCK}];
      }
      if fd >= |datas| {
        datas := datas + seq(3 * fd / 2 - |datas|, _ => null);
      }
      datas := datas[fd := ctx];
      assert stat.IsSocket? ==> old(kernel)[fd] + {NONBLOCK} == kernel[fd];
    }

    method Del(fd: nat)
      requires Valid()
      modifies this`datas
      ensures Valid() && Entry(fd) == null && forall i :: i != fd ==> Entry(i) == old(Entry(i))
    {
      if |datas| <= fd {
        return;
      }
      datas := datas[fd := null];
    }

    // fcntl(F_SETFL): `ok` is the kernel's answer.
    method FcntlSetFl(fd: nat, arg: Word, ok: bool)
      requires Valid() && (ok ==> fd in kernel)
      modifies this`kernel, Entry(fd)
      ensures Valid() && forall i :: i != fd ==> SocketAt(i) == old(SocketAt(i))
      ensures old(SocketAt(fd)).Some? ==> SocketAt(fd) == Some(Hooked(old(SocketAt(fd)).value, SetFl(arg, ok)))
      ensures old(SocketAt(fd)).None? && ok && (Entry(fd) == null || !Entry(fd).isSocket) ==>
        kernel == old(kernel)[fd := Plain(old(kernel)[fd], SetFl(arg, ok))]
    {
      var ctx := Lookup(fd);
      var word := arg;
      if ctx != null && ctx.isSocket {
        ctx.userNonblock := IsNonblock(arg);
        word := WithNonblock(arg, ctx.sysNonblock);
      }
      if ok {
        kernel := kernel[fd := SetFlags(kernel[fd], word)];
      }
    }

    function Lookup(fd: nat): FdCtx?
      reads this
    {
      if fd < |datas| then datas[fd] else null
    }

    // fcntl(F_GETFL) on an open descriptor.
    method FcntlGetFl(fd: nat) returns (flags: Word)
      requires Valid() && fd in kernel
      ensures flags == if SocketAt(fd).Some? then Shown(SocketAt(fd).value) else kernel[fd]
    {
      var ctx := Lookup(fd);
      if ctx == null || !ctx.isSocket {
        return kernel[fd];
      }
      flags := WithNonblock(kernel[fd], ctx.userNonblock);
    }

    // ioctl(FIONBIO): the request also reaches the kernel, whose answer is `ok`.
    method IoctlNbio(fd: nat, on: bool, ok: bool)
      requires Valid() && (ok ==> fd in kernel)
      modifies this`kernel, Entry(fd)
      ensures Valid() && forall i :: i != fd ==> SocketAt(i) == old(SocketAt(i))
      ensures old(SocketAt(fd)).Some? ==> SocketAt(fd) == Some(Hooked(old(SocketAt(fd)).value, Nbio(on, ok)))
      ensures old(SocketAt(fd)).None? && ok && (Entry(fd) == null || !Entry(fd).isSocket) ==>
        kernel == old(kernel)[fd := Plain(old(kernel)[fd], Nbio(on, ok))]
    {
      var ctx := Lookup(fd);
      if ctx != null && ctx.isSocket {
        ctx.userNonblock := on;
      }
      if ok {
        kernel := kernel[fd := WithNonblock(kernel[fd], on)];
      }
    }
  }
}
