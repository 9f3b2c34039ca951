/** The relay functions (`relay<Hook, SourceT>::func` in the hook wrapper,
    `ThunkWrapper<...>::func` in the detour frontend, and
    `thunk_wrapper<...>::func` in both detour classes): the C++ functions the
    generated code enters.  Each declares a parameter list, so it reads a
    fixed frame off the stack; it then fetches the original function from the
    hook's backend and hands the original, the callback and the arguments to
    the callback dispatcher.

    The model assumes every argument is one 32-bit word.  `nStack` is the
    number of argument words the caller pushed; thiscall's `this` (in ecx)
    and fastcall's register arguments (ecx, edx) are not among them. */
module Relay {
  import opened Base
  import opened FunctionTraits
  import opened X86

  /** A user callback of either accepted shape: `(SourceT, Args...)`, taking
      the original as its leading argument, or `(Args...)`.  An argument or
      result is a word. */
  datatype Callback =
    | WithOriginal(withOriginal: (nat, seq<nat>) -> nat)
    | ArgsOnly(argsOnly: seq<nat> -> nat)

  /** `callback_dispatcher` / `callback_wrapper`: overload resolution on the
      callback's type picks whether the original is prepended. */
  function Dispatch(source: nat, callback: Callback, args: seq<nat>): nat {
    match callback
    case WithOriginal(f) => f(source, args)
    case ArgsOnly(g) => g(args)
  }

  /** What a relay function reaches through its hook pointer: the backend's
      trampoline (the callable original) and the stored callback.  ecx and
      edx are scratch registers in all four conventions, so the compiled
      relay function may leave anything in them: `scratch` gives, for each
      argument list, the values it leaves there. */
  datatype HookView = HookView(trampoline: nat, callback: Callback, scratch: seq<nat> -> (nat, nat))

  /** The parameters a relay function reads from its frame: the hook
      pointer, the hidden result pointer if the result uses one, and the
      source function's arguments `Args...` in order. */
  datatype Request = Request(hook: nat, hidden: Option<nat>, args: seq<nat>)

  /** One instantiation of a relay function: the source's convention,
      whether its result goes through a hidden pointer, and its number of
      stack argument words. */
  datatype RelayFunc = RelayFunc(conv: CallingConv, hidden: bool, nStack: nat)

  function HiddenSlot(h: Option<nat>): seq<nat> {
    if h.Some? then [h.value] else []
  }

  /** The one extra parameter after the hook pointer: cdecl's ignored
      `return_addr`, or thiscall's `this` (the first of `Args...`). */
  predicate HasExtraWord(conv: CallingConv) {
    conv == Cdecl || conv == ThisCall
  }

  /** The stack a relay function's parameter list declares at its entry, top
      first: its return address, the hidden result pointer, the hook pointer
      (fastcall: a by-value `StackArg` holding it), then cdecl's
      `return_addr` or thiscall's `this`, then the stack arguments. */
  function Frame(conv: CallingConv, retTo: nat, hidden: Option<nat>, hook: nat,
                 returnAddr: nat, thisPtr: nat, args: seq<nat>): seq<nat>
  {
    [retTo] + HiddenSlot(hidden) + [hook]
    + (if conv == Cdecl then [returnAddr] else [])
    + (if conv == ThisCall then [thisPtr] else [])
    + args
  }

  function FrameWords(f: RelayFunc): nat {
    1 + (if f.hidden then 1 else 0) + 1 + (if HasExtraWord(f.conv) then 1 else 0) + f.nStack
  }

  /** Words the relay function pops below its return address when it
      returns: none for the cdecl one (the caller cleans up); the whole
      declared frame for the `__stdcall` ones (stdcall and thiscall sources)
      and the `__fastcall` one. */
  function Cleanup(f: RelayFunc): nat {
    if f.conv == Cdecl then 0 else FrameWords(f) - 1
  }

  /** How the relay function reads its parameters off the stack it is
      entered with. */
  function Decode(f: RelayFunc, view: Machine): Option<Request> {
    if |view.stack| < FrameWords(f) then None
    else
      var h := if f.hidden then 1 else 0;
      var a := 2 + h + (if HasExtraWord(f.conv) then 1 else 0);
      Some(Request(
        view.stack[1 + h],
        if f.hidden then Some(view.stack[1]) else None,
        (if f.conv == ThisCall then [view.stack[2 + h]] else []) + view.stack[a .. a + f.nStack]))
  }

  /** The relay function called in state `view`: it follows the hook pointer
      (`hooks` maps the address of each live hook object to what the relay
      reads there), asks the backend for the trampoline, dispatches, and
      returns with the result in eax (the hidden pointer when the result
      went through one) after popping its return address and its
      `Cleanup`; ecx and edx hold whatever the compiled code left there. */
  function Invoke(f: RelayFunc, hooks: map<nat, HookView>, view: Machine): Option<Machine> {
    match Decode(f, view)
    case None => None
    case Some(req) =>
      if req.hook !in hooks then None
      else
        var hv := hooks[req.hook];
        var result := Dispatch(hv.trampoline, hv.callback, req.args);
        var (ecx, edx) := hv.scratch(req.args);
        Some(Machine(if f.hidden then req.hidden.value else result, ecx, edx,
                     view.stack[1 + Cleanup(f)..]))
  }

  // ---------------------------------------------------------------------
  // Properties

  /** Reading the declared frame back yields the hook pointer, the hidden
      pointer and the arguments unchanged and in order; cdecl's
      `return_addr` word is skipped, thiscall's `this` comes first. */
  lemma DecodeFrame(f: RelayFunc, m: Machine, retTo: nat, hidden: Option<nat>, hook: nat,
                    returnAddr: nat, thisPtr: nat, args: seq<nat>, rest: seq<nat>)
    requires f.hidden == hidden.Some? && |args| == f.nStack
    requires m.stack == Frame(f.conv, retTo, hidden, hook, returnAddr, thisPtr, args) + rest
    ensures Decode(f, m) == Some(Request(hook, hidden,
                                         (if f.conv == ThisCall then [thisPtr] else []) + args))
  {
    var h := if f.hidden then 1 else 0;
    var e := if HasExtraWord(f.conv) then 1 else 0;
    var fr := Frame(f.conv, retTo, hidden, hook, returnAddr, thisPtr, args);
    assert |fr| == FrameWords(f);
    assert m.stack[1 + h] == hook;
    assert f.hidden ==> m.stack[1] == hidden.value;
    assert f.conv == ThisCall ==> m.stack[2 + h] == thisPtr;
    assert m.stack[2 + h + e .. 2 + h + e + f.nStack] == args by {
      assert fr == ([retTo] + HiddenSlot(hidden) + [hook]
                    + (if f.conv == Cdecl then [returnAddr] else [])
                    + (if f.conv == ThisCall then [thisPtr] else [])) + args;
    }
  }

  /** A relay function entered on its declared frame forwards to the
      dispatcher the trampoline and callback of the hook the frame names,
      returns the dispatcher's result unchanged (or the hidden pointer), and
      leaves the stack as its convention requires: cdecl pops nothing but its
      return address, the others pop the whole frame. */
  lemma InvokeOnFrame(f: RelayFunc, hooks: map<nat, HookView>, m: Machine, retTo: nat,
                      hidden: Option<nat>, hook: nat, returnAddr: nat, thisPtr: nat,
                      args: seq<nat>, rest: seq<nat>)
    requires f.hidden == hidden.Some? && |args| == f.nStack
    requires m.stack == Frame(f.conv, retTo, hidden, hook, returnAddr, thisPtr, args) + rest
    requires hook in hooks
    ensures Invoke(f, hooks, m).Some?
    ensures Invoke(f, hooks, m).value.eax ==
      if hidden.Some? then hidden.value
      else Dispatch(hooks[hook].trampoline, hooks[hook].callback,
                    (if f.conv == ThisCall then [thisPtr] else []) + args)
    ensures Invoke(f, hooks, m).value.stack ==
      if f.conv == Cdecl then Frame(f.conv, retTo, hidden, hook, returnAddr, thisPtr, args)[1..] + rest
      else rest
  {
    DecodeFrame(f, m, retTo, hidden, hook, returnAddr, thisPtr, args, rest);
    var fr := Frame(f.conv, retTo, hidden, hook, returnAddr, thisPtr, args);
    assert |fr| == FrameWords(f);
    assert m.stack[1 + Cleanup(f)..] == (if f.conv == Cdecl then fr[1..] + rest else rest);
  }

  /** A hook pointer that names no live hook object stops the relay
      function: it cannot fetch a trampoline or a callback. */
  lemma InvokeNeedsLiveHook(f: RelayFunc, hooks: map<nat, HookView>, m: Machine)
    requires Decode(f, m).Some? && Decode(f, m).value.hook !in hooks
    ensures Invoke(f, hooks, m) == None
  {
  }

  /** The dispatcher prepends the original only for a callback that takes
      it; an arguments-only callback sees the arguments alone, whatever the
      original is. */
  lemma DispatchOverloads(source: nat, other: nat, f: (nat, seq<nat>) -> nat,
                          g: seq<nat> -> nat, args: seq<nat>)
    ensures Dispatch(source, WithOriginal(f), args) == f(source, args)
    ensures Dispatch(source, ArgsOnly(g), args) == g(args)
    ensures Dispatch(source, ArgsOnly(g), args) == Dispatch(other, ArgsOnly(g), args)
  {
  }
}
