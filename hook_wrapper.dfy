/** `cyanide::hook_wrapper<HookT, SourceT, CallbackT>`: owns a backend
    (`hook_impl_`) and a code buffer (`code_gen_`), builds the relay code
    into the buffer the first time it is installed, and hands the backend
    the source function and the relay code.  The object's own address
    (`this`, which the relay code embeds) is the constant `addr`; the
    source type's calling convention and whether its result goes through a
    hidden pointer are the constants `conv` and `hidden`.  The destructor
    becomes `Destroy`, move construction the constructor `Move`, the friend
    `swap` the static method `Swap`. */
module HookWrappers {
  import opened Base
  import opened FunctionTraits
  import opened X86
  import opened Relay
  import opened RelayGen
  import opened Backends

  class HookWrapper {
    const addr: nat
    const conv: CallingConv
    const hidden: bool
    var source: nat
    var relayJump: nat
    var callback: Callback
    var hookImpl: Backend?
    var codeGen: CodeGenerator?

    /** The relay code the object holds, if any, is in the buffer it owns. */
    predicate RelayOwned()
      reads this
    {
      relayJump != 0 ==> codeGen != null && relayJump == codeGen.address
    }

    /** The relay code the object holds, if any, is in the buffer it owns
        and was built for this object: it pushes this object's address. */
    predicate RelayCurrent()
      reads this, codeGen
    {
      relayJump != 0 ==>
        codeGen != null && relayJump == codeGen.address && codeGen.code == RelayProgram(conv, hidden, addr)
    }

    /** The constructor: a fresh backend built from the hook arguments (here
        the trampoline it will report) and a fresh, empty code buffer.  Only
        a pointer with one of the four convention keywords has a relay
        function, so no other source type builds. */
    constructor (addr: nat, sourceType: FnType, source: nat, callback: Callback, trampoline: nat,
                 codeAddress: PosAddr)
      requires sourceType.Ptr?
      ensures this.addr == addr
      ensures FunctionConvention(sourceType) == Some(conv) && hidden == HiddenParamReturn(sourceType)
      ensures this.source == source && relayJump == 0 && this.callback == callback
      ensures fresh(hookImpl) && hookImpl.log == [] && hookImpl.trampoline == trampoline
      ensures fresh(codeGen) && codeGen.code == [] && codeGen.address == codeAddress
      ensures RelayCurrent()
    {
      this.addr := addr;
      conv := ConvOf(sourceType.keyword);
      hidden := HiddenParamReturn(sourceType);
      this.source := source;
      relayJump := 0;
      this.callback := callback;
      hookImpl := new Backend(trampoline);
      codeGen := new CodeGenerator(codeAddress);
    }

    /** `make_relay_jump`: resets the buffer and emits the relay code one
        instruction at a time. */
    method MakeRelayJump() returns (p: PosAddr)
      requires codeGen != null
      modifies codeGen
      ensures codeGen.code == RelayProgram(conv, hidden, addr)
      ensures p == codeGen.address
    {
      var gen := codeGen;
      gen.Reset();
      EmitPrologue(gen, conv, hidden);
      EmitPushParams(gen, conv, hidden, addr);
      EmitEpilogue(gen, conv, hidden);
      p := gen.GetCode();
    }

    /** `install`: builds the relay code only while there is none, then
        hands the backend the source and the relay code. */
    method Install()
      requires hookImpl != null && (relayJump == 0 ==> codeGen != null)
      modifies this, hookImpl, codeGen
      ensures hookImpl == old(hookImpl) && codeGen == old(codeGen)
      ensures source == old(source) && callback == old(callback)
      ensures old(relayJump) == 0 ==>
        codeGen != null && relayJump == codeGen.address && codeGen.code == RelayProgram(conv, hidden, addr)
      ensures old(relayJump) != 0 ==>
        relayJump == old(relayJump) && (codeGen != null ==> codeGen.code == old(codeGen.code))
      ensures RelayOwned() == (old(relayJump) == 0 || old(RelayOwned()))
      ensures RelayCurrent() == (old(relayJump) == 0 || old(RelayCurrent()))
      ensures hookImpl.log == old(hookImpl.log) + [InstallCall(source, relayJump)]
    {
      if relayJump == 0 {
        relayJump := MakeRelayJump();
      }
      hookImpl.Install(source, relayJump);
    }

    /** `uninstall`: forwarded to the backend. */
    method Uninstall()
      requires hookImpl != null
      modifies hookImpl
      ensures hookImpl.log == old(hookImpl.log) + [UninstallCall]
    {
      hookImpl.Uninstall();
    }

    /** `get_trampoline`: the backend's trampoline. */
    method GetTrampoline() returns (t: nat)
      requires hookImpl != null
      ensures t == hookImpl.trampoline
    {
      t := hookImpl.GetTrampoline();
    }

    /** The destructor uninstalls through the backend without checking that
        there still is one, so it cannot run on a moved-from object. */
    method Destroy()
      requires hookImpl != null
      modifies hookImpl
      ensures hookImpl.log == old(hookImpl.log) + [UninstallCall]
    {
      hookImpl.Uninstall();
    }

    /** Move construction into the object at `addr`: every member is taken;
        `other` keeps no source, no relay code, no backend and no buffer.
        The relay code moves with the buffer, so it still pushes the
        address of `other`, whose backend is now gone: the relay function
        can no longer run on it (`RelayToDeadHookStops`). */
    constructor Move(addr: nat, other: HookWrapper)
      modifies other
      ensures this.addr == addr && conv == other.conv && hidden == other.hidden
      ensures source == old(other.source) && relayJump == old(other.relayJump)
      ensures callback == old(other.callback)
      ensures hookImpl == old(other.hookImpl) && codeGen == old(other.codeGen)
      ensures other.source == 0 && other.relayJump == 0
      ensures other.hookImpl == null && other.codeGen == null
      ensures RelayOwned() == old(other.RelayOwned()) && other.RelayOwned()
      ensures old(other.RelayCurrent()) && relayJump != 0 ==>
        codeGen.code == RelayProgram(conv, hidden, other.addr)
      ensures old(other.RelayCurrent()) && relayJump != 0 && addr != other.addr ==> !RelayCurrent()
    {
      this.addr := addr;
      conv := other.conv;
      hidden := other.hidden;
      source := other.source;
      relayJump := other.relayJump;
      callback := other.callback;
      hookImpl := other.hookImpl;
      codeGen := other.codeGen;
      new;
      other.source := 0;
      other.relayJump := 0;
      other.hookImpl := null;
      other.codeGen := null;
      if addr != other.addr {
        RelayProgramNamesHook(conv, hidden, addr, other.addr);
      }
    }

    /** Rebuilds the relay code the object holds, if any, for its own
        address. */
    method RefreshRelay()
      modifies codeGen
      ensures RelayOwned() ==> RelayCurrent()
      ensures relayJump == 0 && codeGen != null ==> unchanged(codeGen)
    {
      if relayJump != 0 && codeGen != null {
        var p := MakeRelayJump();
      }
    }

    /** Move construction as evidently intended: the members are taken as
        by `Move`, and relay code that moved along is rebuilt for the new
        object's address. */
    constructor MoveIntended(addr: nat, other: HookWrapper)
      modifies other, other.codeGen
      ensures this.addr == addr && conv == other.conv && hidden == other.hidden
      ensures source == old(other.source) && relayJump == old(other.relayJump)
      ensures callback == old(other.callback)
      ensures hookImpl == old(other.hookImpl) && codeGen == old(other.codeGen)
      ensures other.source == 0 && other.relayJump == 0
      ensures other.hookImpl == null && other.codeGen == null
      ensures old(other.RelayOwned()) ==> RelayCurrent()
    {
      this.addr := addr;
      conv := other.conv;
      hidden := other.hidden;
      source := other.source;
      relayJump := other.relayJump;
      callback := other.callback;
      hookImpl := other.hookImpl;
      codeGen := other.codeGen;
      new;
      other.source := 0;
      other.relayJump := 0;
      other.hookImpl := null;
      other.codeGen := null;
      RefreshRelay();
    }

    /** The friend `swap` as written: the line meant for the relay code
        swaps a member of `lhs` with itself, so `relayJump` stays with each
        object while the buffers change hands. */
    static method Swap(lhs: HookWrapper, rhs: HookWrapper)
      requires lhs.conv == rhs.conv && lhs.hidden == rhs.hidden
      modifies lhs, rhs
      ensures lhs.source == old(rhs.source) && rhs.source == old(lhs.source)
      ensures lhs.relayJump == old(lhs.relayJump) && rhs.relayJump == old(rhs.relayJump)
      ensures lhs.callback == old(rhs.callback) && rhs.callback == old(lhs.callback)
      ensures lhs.hookImpl == old(rhs.hookImpl) && rhs.hookImpl == old(lhs.hookImpl)
      ensures lhs.codeGen == old(rhs.codeGen) && rhs.codeGen == old(lhs.codeGen)
    {
      lhs.source, rhs.source := rhs.source, lhs.source;
      lhs.callback, rhs.callback := rhs.callback, lhs.callback;
      lhs.hookImpl, rhs.hookImpl := rhs.hookImpl, lhs.hookImpl;
      lhs.codeGen, rhs.codeGen := rhs.codeGen, lhs.codeGen;
    }

    /** Move assignment: `other` moves into a temporary at `scratch`, which
        is swapped with this object and destroyed, uninstalling the backend
        this object held.  Moving an object into itself would destroy a
        temporary without a backend. */
    method MoveAssign(other: HookWrapper, scratch: nat)
      requires other != this && conv == other.conv && hidden == other.hidden
      requires hookImpl != null
      modifies this, other, hookImpl
      ensures source == old(other.source) && callback == old(other.callback)
      ensures hookImpl == old(other.hookImpl) && codeGen == old(other.codeGen)
      ensures relayJump == old(relayJump)
      ensures other.source == 0 && other.relayJump == 0
      ensures other.hookImpl == null && other.codeGen == null
      ensures old(hookImpl).log == old(hookImpl.log) + [UninstallCall]
    {
      var tmp := new HookWrapper.Move(scratch, other);
      Swap(tmp, this);
      tmp.Destroy();
    }

    /** The destructor as the detour frontend writes it: uninstall only
        when there is a backend, so that a moved-from object can be
        destroyed. */
    method DestroyGuarded()
      modifies hookImpl
      ensures hookImpl != null ==> hookImpl.log == old(hookImpl.log) + [UninstallCall]
    {
      if hookImpl != null {
        hookImpl.Uninstall();
      }
    }

    /** `swap` as evidently intended: the relay code is exchanged with the
        buffer that holds it, and each object's relay code is rebuilt for
        its own address.  Two objects never share a buffer. */
    static method SwapIntended(lhs: HookWrapper, rhs: HookWrapper)
      requires lhs.conv == rhs.conv && lhs.hidden == rhs.hidden
      requires lhs != rhs && lhs.codeGen != null ==> lhs.codeGen != rhs.codeGen
      modifies lhs, rhs, lhs.codeGen, rhs.codeGen
      ensures lhs.source == old(rhs.source) && rhs.source == old(lhs.source)
      ensures lhs.relayJump == old(rhs.relayJump) && rhs.relayJump == old(lhs.relayJump)
      ensures lhs.callback == old(rhs.callback) && rhs.callback == old(lhs.callback)
      ensures lhs.hookImpl == old(rhs.hookImpl) && rhs.hookImpl == old(lhs.hookImpl)
      ensures lhs.codeGen == old(rhs.codeGen) && rhs.codeGen == old(lhs.codeGen)
      ensures lhs.RelayOwned() == old(rhs.RelayOwned()) && rhs.RelayOwned() == old(lhs.RelayOwned())
      ensures old(rhs.RelayOwned()) ==> lhs.RelayCurrent()
      ensures old(lhs.RelayOwned()) ==> rhs.RelayCurrent()
    {
      lhs.source, rhs.source := rhs.source, lhs.source;
      lhs.relayJump, rhs.relayJump := rhs.relayJump, lhs.relayJump;
      lhs.callback, rhs.callback := rhs.callback, lhs.callback;
      lhs.hookImpl, rhs.hookImpl := rhs.hookImpl, lhs.hookImpl;
      lhs.codeGen, rhs.codeGen := rhs.codeGen, lhs.codeGen;
      lhs.RefreshRelay();
      rhs.RefreshRelay();
    }

    /** Move assignment over the intended move and `swap`: this object ends
        up with the buffer of `other`, holding relay code built for this
        object. */
    method MoveAssignIntended(other: HookWrapper, scratch: nat)
      requires other != this && conv == other.conv && hidden == other.hidden
      requires hookImpl != null
      requires other.codeGen != null ==> other.codeGen != codeGen
      modifies this, other, hookImpl, codeGen, other.codeGen
      ensures source == old(other.source) && callback == old(other.callback)
      ensures hookImpl == old(other.hookImpl) && codeGen == old(other.codeGen)
      ensures relayJump == old(other.relayJump) && RelayOwned() == old(other.RelayOwned())
      ensures old(other.RelayOwned()) ==> RelayCurrent()
      ensures other.source == 0 && other.relayJump == 0
      ensures other.hookImpl == null && other.codeGen == null
      ensures old(hookImpl).log == old(hookImpl.log) + [UninstallCall]
    {
      var tmp := new HookWrapper.MoveIntended(scratch, other);
      SwapIntended(tmp, this);
      tmp.Destroy();
    }
  }

  /** Installing a hook and then move-assigning another, not yet installed
      hook over it leaves the target with relay code that lies outside the
      buffer it now owns (in the one the destroyed temporary took). */
  method MoveAssignKeepsStaleRelay() returns (w: HookWrapper)
    ensures w.relayJump != 0 && !w.RelayOwned()
  {
    var t := Ptr(KwStdcall, Sig(Void, []));
    w := new HookWrapper(0x1000, t, 0x4000, ArgsOnly(_ => 0), 0x5000, 0x2000);
    var other := new HookWrapper(0x1100, t, 0x4100, ArgsOnly(_ => 0), 0x5100, 0x3000);
    w.Install();
    w.MoveAssign(other, 0x1200);
  }

  /** Installing a hook and moving it: the relay code the new object holds
      still pushes the moved-from object, which has no backend, so every
      call through it stops in the relay function (`RelayToDeadHookStops`). */
  method MovedHookRelaysToMovedFrom() returns (moved: HookWrapper, target: HookWrapper)
    ensures target.relayJump != 0 && moved.hookImpl == null
    ensures target.codeGen != null && target.codeGen.code == RelayProgram(StdCall, false, moved.addr)
    ensures !target.RelayCurrent()
  {
    var t := Ptr(KwStdcall, Sig(Void, []));
    moved := new HookWrapper(0x1000, t, 0x4000, ArgsOnly(_ => 0), 0x5000, 0x2000);
    moved.Install();
    target := new HookWrapper.Move(0x1100, moved);
  }

  /** The same with the intended move: the new object's relay code pushes
      the new object. */
  method MovedHookRelaysToItself() returns (moved: HookWrapper, target: HookWrapper)
    ensures target.relayJump != 0 && moved.hookImpl == null && target.hookImpl != null
    ensures target.codeGen != null && target.codeGen.code == RelayProgram(StdCall, false, target.addr)
  {
    var t := Ptr(KwStdcall, Sig(Void, []));
    moved := new HookWrapper(0x1000, t, 0x4000, ArgsOnly(_ => 0), 0x5000, 0x2000);
    moved.Install();
    target := new HookWrapper.MoveIntended(0x1100, moved);
  }

  /** A moved-from hook has no backend left, which the destructor as
      written dereferences. */
  method MovedFromHookHasNoBackend() returns (moved: HookWrapper, target: HookWrapper)
    ensures moved.hookImpl == null && target.hookImpl != null
  {
    var t := Ptr(KwCdecl, Sig(Void, []));
    moved := new HookWrapper(0x1000, t, 0x4000, ArgsOnly(_ => 0), 0x5000, 0x2000);
    target := new HookWrapper.Move(0x1100, moved);
  }

  /** With the guarded destructor, destroying the moved-from hook leaves
      the backend, now owned by the target, untouched. */
  method MovedFromHookDestroysQuietly() returns (moved: HookWrapper, target: HookWrapper)
    ensures target.hookImpl != null && target.hookImpl.log == []
  {
    var t := Ptr(KwCdecl, Sig(Void, []));
    moved := new HookWrapper(0x1000, t, 0x4000, ArgsOnly(_ => 0), 0x5000, 0x2000);
    target := new HookWrapper.Move(0x1100, moved);
    moved.DestroyGuarded();
  }

  // The three parts of `make_relay_jump`, emitted one instruction at a time.

  method EmitPrologue(gen: CodeGenerator, conv: CallingConv, hidden: bool)
    modifies gen
    ensures gen.code == old(gen.code) + Prologue(conv, hidden)
  {
    if conv == Cdecl {
      if hidden {
        gen.Emit(PopEax);
        gen.Emit(PopEdx);
        gen.Emit(PushEax);
      }
    } else {
      gen.Emit(PopEax);
      if hidden {
        gen.Emit(PopEdx);
      }
    }
  }

  method EmitPushParams(gen: CodeGenerator, conv: CallingConv, hidden: bool, self: nat)
    modifies gen
    ensures gen.code == old(gen.code) + PushParams(conv, hidden, self)
  {
    if conv == ThisCall {
      gen.Emit(PushEcx);
    }
    gen.Emit(PushImm(self));
    if hidden {
      gen.Emit(PushEdx);
    }
  }

  method EmitEpilogue(gen: CodeGenerator, conv: CallingConv, hidden: bool)
    modifies gen
    ensures gen.code == old(gen.code) + Epilogue(conv, hidden)
  {
    if conv == Cdecl {
      gen.Emit(CallRelay);
      EmitCdeclTail(gen, hidden);
      gen.Emit(Ret);
      assert Epilogue(conv, hidden) == [CallRelay] + CdeclTail(hidden) + [Ret];
    } else {
      gen.Emit(PushEax);
      gen.Emit(JmpRelay);
    }
  }

  /** The cdecl code between the call and the `ret`. */
  method EmitCdeclTail(gen: CodeGenerator, hidden: bool)
    modifies gen
    ensures gen.code == old(gen.code) + CdeclTail(hidden)
  {
    if hidden {
      gen.Emit(PopEax);
      gen.Emit(AddEsp4);
      gen.Emit(PopEdx);
      gen.Emit(PushEax);
      gen.Emit(PushEdx);
    } else {
      gen.Emit(AddEsp4);
    }
  }

}
