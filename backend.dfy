/** The hooking backends the hook objects forward to, and the code buffer
    they emit their relay code into.  The backends themselves (subhook,
    PolyHook, a user's `DetourBackendInterface`) are outside the model: each
    is a stand-in object that records the calls it receives and answers
    with fixed values. */
module Backends {
  import opened X86

  /** A call a hook object makes on its backend. */
  datatype BackendCall = InstallCall(source: nat, destination: nat) | UninstallCall

  /** A non-null address. */
  type PosAddr = n: nat | n != 0 witness 1

  /** A backend with the shape of `DetourBackendInterface` (and of the
      `HookConcept` the hook wrapper requires): `install(source,
      destination)`, `uninstall()` and `get_trampoline()`, none of which
      reports failure. */
  class Backend {
    var log: seq<BackendCall>
    const trampoline: nat

    constructor (trampoline: nat)
      ensures log == [] && this.trampoline == trampoline
    {
      log := [];
      this.trampoline := trampoline;
    }

    method Install(source: nat, destination: nat)
      modifies this
      ensures log == old(log) + [InstallCall(source, destination)]
    {
      log := log + [InstallCall(source, destination)];
    }

    method Uninstall()
      modifies this
      ensures log == old(log) + [UninstallCall]
    {
      log := log + [UninstallCall];
    }

    method GetTrampoline() returns (t: nat)
      ensures t == trampoline
    {
      t := trampoline;
    }
  }

  /** `subhook::Hook`, whose `Install` and `Remove` report success as a
      boolean; `installOk` and `removeOk` are the answers the library
      gives. */
  class SubHook {
    var log: seq<BackendCall>
    const trampoline: nat
    const installOk: bool
    const removeOk: bool

    constructor (trampoline: nat, installOk: bool, removeOk: bool)
      ensures log == [] && this.trampoline == trampoline
      ensures this.installOk == installOk && this.removeOk == removeOk
    {
      log := [];
      this.trampoline := trampoline;
      this.installOk := installOk;
      this.removeOk := removeOk;
    }

    method Install(source: nat, destination: nat) returns (ok: bool)
      modifies this
      ensures ok == installOk
      ensures log == old(log) + [InstallCall(source, destination)]
    {
      log := log + [InstallCall(source, destination)];
      ok := installOk;
    }

    method Remove() returns (ok: bool)
      modifies this
      ensures ok == removeOk
      ensures log == old(log) + [UninstallCall]
    {
      log := log + [UninstallCall];
      ok := removeOk;
    }
  }

  /** `Xbyak::CodeGenerator`: an executable buffer at a fixed address and
      the instructions emitted into it so far. */
  class CodeGenerator {
    const address: PosAddr
    var code: seq<Instr>

    constructor (address: PosAddr)
      ensures this.address == address && code == []
    {
      this.address := address;
      code := [];
    }

    method Reset()
      modifies this
      ensures code == []
    {
      code := [];
    }

    method Emit(i: Instr)
      modifies this
      ensures code == old(code) + [i]
    {
      code := code + [i];
    }

    /** `getCode()`: the start of the buffer. */
    method GetCode() returns (p: PosAddr)
      ensures p == address
    {
      p := address;
    }
  }
}
