/** `cyanide::Hooks::Detour<SourceT, CallbackT>`: a hook over a
    `subhook::Hook` member (`actual_hook_`) and a code buffer member, which
    builds the thunk of `make_thunk` the first time it is installed and
    turns a failed `Install` or `Remove` into a `runtime_error`.  It has no
    destructor and no move operations of its own.  The object's own address
    is the constant `addr`. */
module Detours {
  import opened Base
  import opened FunctionTraits
  import opened X86
  import opened Relay
  import opened RelayGen
  import opened Backends
  import opened CodeGen

  class Detour {
    const addr: nat
    const conv: CallingConv
    var source: nat
    var callback: Callback
    const codeGen: CodeGenerator
    var thunk: nat
    const actualHook: SubHook

    /** The thunk, once built, is in the object's buffer. */
    predicate ThunkOwned()
      reads this
    {
      thunk != 0 ==> thunk == codeGen.address
    }

    /** `SourceT` must be a function pointer with a `thunk_wrapper`
        specialisation, that is, one of the four convention keywords; the
        subhook object answers as `installOk` and `removeOk` say. */
    constructor (addr: nat, sourceType: FnType, source: nat, callback: Callback, codeAddress: PosAddr,
                 trampoline: nat, installOk: bool, removeOk: bool)
      requires IsFunctionPtr(sourceType) && sourceType.Ptr?
      ensures this.addr == addr && FunctionConvention(sourceType) == Some(conv)
      ensures this.source == source && this.callback == callback && thunk == 0 && ThunkOwned()
      ensures fresh(codeGen) && codeGen.code == [] && codeGen.address == codeAddress
      ensures fresh(actualHook) && actualHook.log == [] && actualHook.trampoline == trampoline
      ensures actualHook.installOk == installOk && actualHook.removeOk == removeOk
    {
      this.addr := addr;
      conv := ConvOf(sourceType.keyword);
      this.source := source;
      this.callback := callback;
      codeGen := new CodeGenerator(codeAddress);
      thunk := 0;
      actualHook := new SubHook(trampoline, installOk, removeOk);
    }

    /** `install`: builds the thunk only while there is none (it stays
        built when subhook then refuses), hands subhook the source and the
        thunk, and throws `runtime_error` if `Install` fails. */
    method Install() returns (r: Result<()>)
      modifies this, codeGen, actualHook
      ensures source == old(source) && callback == old(callback)
      ensures old(thunk) == 0 ==> thunk == codeGen.address && codeGen.code == ThunkProgram(conv, addr)
      ensures old(thunk) != 0 ==> thunk == old(thunk) && codeGen.code == old(codeGen.code)
      ensures ThunkOwned() == (old(thunk) == 0 || old(ThunkOwned()))
      ensures actualHook.log == old(actualHook.log) + [InstallCall(source, thunk)]
      ensures r == if actualHook.installOk then Success(()) else Failure(RuntimeError)
    {
      if thunk == 0 {
        thunk := MakeThunk(codeGen, conv, addr);
      }
      var ok := actualHook.Install(source, thunk);
      if !ok {
        return Failure(RuntimeError);
      }
      return Success(());
    }

    /** `uninstall`: throws `runtime_error` if `Remove` fails. */
    method Uninstall() returns (r: Result<()>)
      modifies actualHook
      ensures actualHook.log == old(actualHook.log) + [UninstallCall]
      ensures r == if actualHook.removeOk then Success(()) else Failure(RuntimeError)
    {
      var ok := actualHook.Remove();
      if !ok {
        return Failure(RuntimeError);
      }
      return Success(());
    }
  }
}
