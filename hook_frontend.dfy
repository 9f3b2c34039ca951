/** `cyanide::memory::DetourFrontend<SourceT, CallbackT>`: the same job as
    the hook wrapper over a backend it does not own (`backend_`, possibly
    null), with the thunk of `make_thunk` in place of the relay code.  The
    object's own address is the constant `addr` and the source type's
    calling convention the constant `conv`. */
module Frontends {
  import opened Base
  import opened FunctionTraits
  import opened X86
  import opened Relay
  import opened RelayGen
  import opened Backends
  import opened CodeGen

  class DetourFrontend {
    const addr: nat
    const conv: CallingConv
    var backend: Backend?
    var source: nat
    var callback: Callback
    var codeGen: CodeGenerator?
    var thunk: nat

    /** The thunk the object holds, if any, is in the buffer it owns. */
    predicate ThunkOwned()
      reads this
    {
      thunk != 0 ==> codeGen != null && thunk == codeGen.address
    }

    /** The thunk the object holds, if any, is in the buffer it owns and was
        built for this object. */
    predicate ThunkCurrent()
      reads this, codeGen
    {
      thunk != 0 ==> codeGen != null && thunk == codeGen.address && codeGen.code == ThunkProgram(conv, addr)
    }

    /** The constructor keeps the backend pointer it is given and creates an
        empty code buffer.  `SourceT` must be a function pointer with a
        `ThunkWrapper` specialisation, that is, one of the four convention
        keywords. */
    constructor (addr: nat, backend: Backend?, sourceType: FnType, source: nat, callback: Callback,
                 codeAddress: PosAddr)
      requires IsFunctionPtr(sourceType) && sourceType.Ptr?
      ensures this.addr == addr && FunctionConvention(sourceType) == Some(conv)
      ensures this.backend == backend && this.source == source && this.callback == callback
      ensures fresh(codeGen) && codeGen.code == [] && codeGen.address == codeAddress
      ensures thunk == 0 && ThunkOwned() && ThunkCurrent()
    {
      this.addr := addr;
      conv := ConvOf(sourceType.keyword);
      this.backend := backend;
      this.source := source;
      this.callback := callback;
      codeGen := new CodeGenerator(codeAddress);
      thunk := 0;
    }

    /** The destructor uninstalls only when there is a backend, so a
        moved-from frontend does nothing. */
    method Destroy()
      modifies backend
      ensures backend != null ==> backend.log == old(backend.log) + [UninstallCall]
    {
      if backend != null {
        backend.Uninstall();
      }
    }

    /** Move construction into the object at `addr`: all five members are
        taken, and `other` is left with no backend, source, buffer or
        thunk.  The thunk moves with the buffer, so it still pushes the
        address of `other`, which no longer has a backend. */
    constructor Move(addr: nat, other: DetourFrontend)
      modifies other
      ensures this.addr == addr && conv == other.conv
      ensures backend == old(other.backend) && source == old(other.source)
      ensures callback == old(other.callback) && codeGen == old(other.codeGen)
      ensures thunk == old(other.thunk)
      ensures other.backend == null && other.source == 0 && other.codeGen == null && other.thunk == 0
      ensures ThunkOwned() == old(other.ThunkOwned()) && other.ThunkOwned()
      ensures old(other.ThunkCurrent()) && thunk != 0 ==> codeGen.code == ThunkProgram(conv, other.addr)
      ensures old(other.ThunkCurrent()) && thunk != 0 && addr != other.addr ==> !ThunkCurrent()
    {
      this.addr := addr;
      conv := other.conv;
      backend := other.backend;
      source := other.source;
      callback := other.callback;
      codeGen := other.codeGen;
      thunk := other.thunk;
      new;
      other.backend := null;
      other.source := 0;
      other.codeGen := null;
      other.thunk := 0;
      if addr != other.addr {
        ThunkProgramNamesHook(conv, addr, other.addr);
      }
    }

    /** Move construction as evidently intended: the members are taken as
        by `Move`, and a thunk that moved along is rebuilt for the new
        object's address. */
    constructor MoveIntended(addr: nat, other: DetourFrontend)
      modifies other, other.codeGen
      ensures this.addr == addr && conv == other.conv
      ensures backend == old(other.backend) && source == old(other.source)
      ensures callback == old(other.callback) && codeGen == old(other.codeGen)
      ensures thunk == old(other.thunk)
      ensures other.backend == null && other.source == 0 && other.codeGen == null && other.thunk == 0
      ensures old(other.ThunkOwned()) ==> ThunkCurrent()
    {
      this.addr := addr;
      conv := other.conv;
      backend := other.backend;
      source := other.source;
      callback := other.callback;
      codeGen := other.codeGen;
      thunk := other.thunk;
      new;
      other.backend := null;
      other.source := 0;
      other.codeGen := null;
      other.thunk := 0;
      if thunk != 0 && codeGen != null {
        var p := MakeThunk(codeGen, conv, addr);
      }
    }

    /** The friend `swap`: exchanges all five members. */
    static method Swap(lhs: DetourFrontend, rhs: DetourFrontend)
      requires lhs.conv == rhs.conv
      modifies lhs, rhs
      ensures lhs.backend == old(rhs.backend) && rhs.backend == old(lhs.backend)
      ensures lhs.source == old(rhs.source) && rhs.source == old(lhs.source)
      ensures lhs.callback == old(rhs.callback) && rhs.callback == old(lhs.callback)
      ensures lhs.codeGen == old(rhs.codeGen) && rhs.codeGen == old(lhs.codeGen)
      ensures lhs.thunk == old(rhs.thunk) && rhs.thunk == old(lhs.thunk)
      ensures lhs.ThunkOwned() == old(rhs.ThunkOwned()) && rhs.ThunkOwned() == old(lhs.ThunkOwned())
    {
      lhs.backend, rhs.backend := rhs.backend, lhs.backend;
      lhs.source, rhs.source := rhs.source, lhs.source;
      lhs.callback, rhs.callback := rhs.callback, lhs.callback;
      lhs.codeGen, rhs.codeGen := rhs.codeGen, lhs.codeGen;
      lhs.thunk, rhs.thunk := rhs.thunk, lhs.thunk;
    }

    /** Move assignment: `other` moves into a temporary at `scratch`, which
        is swapped with this object and destroyed, so the backend this
        object held (if any) is uninstalled.  Moving an object into itself
        leaves it as it was. */
    method MoveAssign(other: DetourFrontend, scratch: nat)
      requires conv == other.conv
      modifies this, other, backend
      ensures backend == old(other.backend) && source == old(other.source)
      ensures callback == old(other.callback) && codeGen == old(other.codeGen)
      ensures thunk == old(other.thunk) && ThunkOwned() == old(other.ThunkOwned())
      ensures other != this ==>
        other.backend == null && other.source == 0 && other.codeGen == null && other.thunk == 0
      ensures other != this && old(backend) != null ==>
        old(backend).log == old(backend.log) + [UninstallCall]
      ensures other == this ==> old(backend) == null || unchanged(old(backend))
      ensures other != this && old(other.ThunkCurrent()) && thunk != 0 ==>
        codeGen.code == ThunkProgram(conv, other.addr)
    {
      var tmp := new DetourFrontend.Move(scratch, other);
      Swap(tmp, this);
      tmp.Destroy();
    }

    /** `install`: builds the thunk only while there is none, then hands the
        backend the source and the thunk. */
    method Install()
      requires backend != null && (thunk == 0 ==> codeGen != null)
      modifies this, backend, codeGen
      ensures backend == old(backend) && codeGen == old(codeGen)
      ensures source == old(source) && callback == old(callback)
      ensures old(thunk) == 0 ==>
        codeGen != null && thunk == codeGen.address && codeGen.code == ThunkProgram(conv, addr)
      ensures old(thunk) != 0 ==>
        thunk == old(thunk) && (codeGen != null ==> codeGen.code == old(codeGen.code))
      ensures ThunkOwned() == (old(thunk) == 0 || old(ThunkOwned()))
      ensures ThunkCurrent() == (old(thunk) == 0 || old(ThunkCurrent()))
      ensures backend.log == old(backend.log) + [InstallCall(source, thunk)]
    {
      if thunk == 0 {
        thunk := MakeThunk(codeGen, conv, addr);
      }
      backend.Install(source, thunk);
    }

    /** `uninstall`: forwarded to the backend. */
    method Uninstall()
      requires backend != null
      modifies backend
      ensures backend.log == old(backend.log) + [UninstallCall]
    {
      backend.Uninstall();
    }
  }

  /** Installing a frontend and moving it: the thunk the new object holds
      still pushes the moved-from object, which has no backend. */
  method MovedFrontendThunksToMovedFrom() returns (moved: DetourFrontend, target: DetourFrontend)
    ensures target.thunk != 0 && moved.backend == null && target.backend != null
    ensures target.codeGen != null && target.codeGen.code == ThunkProgram(StdCall, moved.addr)
    ensures !target.ThunkCurrent()
  {
    var b := new Backend(0x5000);
    moved := new DetourFrontend(0x1000, b, Ptr(KwStdcall, Sig(Void, [])), 0x4000, ArgsOnly(_ => 0), 0x2000);
    moved.Install();
    target := new DetourFrontend.Move(0x1100, moved);
  }
}
