/** The earlier `cyanide::Hooks::Detour` of `include/detour.hpp`: the same
    shape as the later one, but `install` and `uninstall` ignore what
    subhook reports, and there is no `thunk_wrapper` for fastcall. */
module LegacyDetours {
  import opened Base
  import opened FunctionTraits
  import opened X86
  import opened Relay
  import opened RelayGen
  import opened Backends
  import opened CodeGen

  class LegacyDetour {
    const addr: nat
    const conv: CallingConv
    var source: nat
    var callback: Callback
    const codeGen: CodeGenerator
    var thunk: nat
    const actualHook: SubHook

    predicate ThunkOwned()
      reads this
    {
      thunk != 0 ==> thunk == codeGen.address
    }

    /** Any pointer with a convention keyword constructs; the missing
        fastcall `thunk_wrapper` only matters once `install` builds the
        thunk. */
    constructor (addr: nat, sourceType: FnType, source: nat, callback: Callback, codeAddress: PosAddr,
                 trampoline: nat, installOk: bool, removeOk: bool)
      requires IsFunctionPtr(sourceType) && sourceType.Ptr?
      ensures this.addr == addr && FunctionConvention(sourceType) == Some(conv)
      ensures this.source == source && this.callback == callback && thunk == 0 && ThunkOwned()
      ensures fresh(codeGen) && codeGen.code == [] && codeGen.address == codeAddress
      ensures fresh(actualHook) && actualHook.log == [] && actualHook.trampoline == trampoline
      ensures actualHook.installOk == installOk && actualHook.removeOk == removeOk
    {
      this.addr := addr;
      conv := ConvOf(sourceType.keyword);
      this.source := source;
      this.callback := callback;
      codeGen := new CodeGenerator(codeAddress);
      thunk := 0;
      actualHook := new SubHook(trampoline, installOk, removeOk);
    }

    /** `install`: builds the thunk only while there is none and hands
        subhook the source and the thunk; a refusal goes unnoticed.  Only a
        cdecl, stdcall or thiscall pointer has a `thunk_wrapper`, so a
        fastcall detour does not build its `install`. */
    method Install()
      requires conv != FastCall
      modifies this, codeGen, actualHook
      ensures source == old(source) && callback == old(callback)
      ensures old(thunk) == 0 ==> thunk == codeGen.address && codeGen.code == ThunkProgram(conv, addr)
      ensures old(thunk) != 0 ==> thunk == old(thunk) && codeGen.code == old(codeGen.code)
      ensures ThunkOwned() == (old(thunk) == 0 || old(ThunkOwned()))
      ensures actualHook.log == old(actualHook.log) + [InstallCall(source, thunk)]
    {
      if thunk == 0 {
        thunk := MakeThunk(codeGen, conv, addr);
      }
      var _ := actualHook.Install(source, thunk);
    }

    /** `uninstall`: `Remove`, whatever it reports. */
    method Uninstall()
      modifies actualHook
      ensures actualHook.log == old(actualHook.log) + [UninstallCall]
    {
      var _ := actualHook.Remove();
    }
  }
}
