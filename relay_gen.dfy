/** The relay code generators: `make_relay_jump` of the hook wrapper and
    `make_thunk` of the detour frontend and of both detour classes, as pure
    functions from the source's calling convention (and, for the hook
    wrapper, whether the result goes through a hidden pointer) to the
    instructions emitted; and the proof that running that code on any call
    hands the relay function exactly the frame it declares and returns to the
    caller as the hooked function would have. */
module RelayGen {
  import opened Base
  import opened FunctionTraits
  import opened X86
  import opened Relay

  /** First part of `make_relay_jump`: cdecl with a hidden result swaps the
      return address below the hidden pointer; the callee-cleanup
      conventions pop the return address (and the hidden pointer). */
  function Prologue(conv: CallingConv, hidden: bool): seq<Instr> {
    if conv == Cdecl then (if hidden then [PopEax, PopEdx, PushEax] else [])
    else [PopEax] + (if hidden then [PopEdx] else [])
  }

  /** Second part: `this` from ecx for thiscall, the hook's own address as an
      immediate, then the hidden pointer back on top. */
  function PushParams(conv: CallingConv, hidden: bool, self: nat): seq<Instr> {
    (if conv == ThisCall then [PushEcx] else [])
    + [PushImm(self)]
    + (if hidden then [PushEdx] else [])
  }

  /** Last part: cdecl calls the relay function and afterwards drops the
      hook pointer (restoring the hidden pointer and return address order)
      and returns; the others put the return address back and tail-jump. */
  function Epilogue(conv: CallingConv, hidden: bool): seq<Instr> {
    if conv == Cdecl then
      [CallRelay]
      + (if hidden then [PopEax, AddEsp4, PopEdx, PushEax, PushEdx] else [AddEsp4])
      + [Ret]
    else [PushEax, JmpRelay]
  }

  /** The code `make_relay_jump` emits into the hook wrapper's buffer. */
  function RelayProgram(conv: CallingConv, hidden: bool, self: nat): seq<Instr> {
    Prologue(conv, hidden) + PushParams(conv, hidden, self) + Epilogue(conv, hidden)
  }

  /** The code `make_thunk` emits in the detour frontend and both detour
      classes, which know nothing of hidden result pointers. */
  function ThunkProgram(conv: CallingConv, self: nat): seq<Instr> {
    (if conv != Cdecl then [PopEax] else [])
    + (if conv == ThisCall then [PushEcx] else [])
    + [PushImm(self)]
    + (if conv == Cdecl then [CallRelay, AddEsp4, Ret] else [PushEax, JmpRelay])
  }

  /** A call of the hooked function as the caller makes it: the return
      address, the hidden result pointer if any, the stack arguments, and
      whatever the caller keeps below them; the registers on entry. */
  datatype CallSite = CallSite(ret: nat, hidden: Option<nat>, eax: nat, ecx: nat, edx: nat,
                               args: seq<nat>, rest: seq<nat>)

  function Entry(site: CallSite): Machine {
    Machine(site.eax, site.ecx, site.edx, [site.ret] + HiddenSlot(site.hidden) + site.args + site.rest)
  }

  /** The source function's `Args...` as the caller passes them: thiscall's
      `this` in ecx, then the stack arguments. */
  function SourceArgs(conv: CallingConv, site: CallSite): seq<nat> {
    (if conv == ThisCall then [site.ecx] else []) + site.args
  }

  /** The caller's stack once the hooked function has returned, as its
      convention prescribes: a cdecl callee leaves everything but the return
      address; the others also pop the hidden pointer and the arguments. */
  function CallerStackAfter(conv: CallingConv, site: CallSite): seq<nat> {
    if conv == Cdecl then HiddenSlot(site.hidden) + site.args + site.rest else site.rest
  }

  /** The relay function instantiated for this source and call. */
  function RelayFor(conv: CallingConv, site: CallSite): RelayFunc {
    RelayFunc(conv, site.hidden.Some?, |site.args|)
  }

  /** The frame the relay function should find when entered for this call. */
  function ExpectedFrame(conv: CallingConv, site: CallSite, self: nat, resume: nat): seq<nat> {
    Frame(conv, if conv == Cdecl then resume else site.ret, site.hidden, self, site.ret, site.ecx, site.args)
  }

  function RunRelay(code: seq<Instr>, conv: CallingConv, site: CallSite,
                    hooks: map<nat, HookView>, resume: nat): Option<Outcome>
  {
    Run(code, Entry(site), v => Invoke(RelayFor(conv, site), hooks, v), resume, None)
  }

  // ---------------------------------------------------------------------
  // Executing the pieces

  function ThisSlot(conv: CallingConv, ecx: nat): seq<nat> {
    if conv == ThisCall then [ecx] else []
  }

  lemma ExecOne(i: Instr, m: Machine)
    requires IsData(i)
    ensures AllData([i])
    ensures Exec([i], m) == Step(i, m)
  {
    assert [i][1..] == [];
  }

  /** The callee-cleanup prologue takes the return address into eax and the
      hidden pointer, if any, into edx. */
  lemma ExecCalleePrologue(conv: CallingConv, h: Option<nat>, m: Machine, ret: nat, s: seq<nat>)
    requires conv != Cdecl
    requires m.stack == [ret] + HiddenSlot(h) + s
    ensures AllData(Prologue(conv, h.Some?))
    ensures Exec(Prologue(conv, h.Some?), m) ==
      Some(m.(eax := ret, edx := if h.Some? then h.value else m.edx, stack := s))
  {
    var m1 := m.(eax := ret, stack := HiddenSlot(h) + s);
    ExecOne(PopEax, m);
    assert m.stack[0] == ret && m.stack[1..] == HiddenSlot(h) + s;
    if h.Some? {
      ExecOne(PopEdx, m1);
      assert m1.stack == [h.value] + s;
      ExecAppend([PopEax], [PopEdx], m);
    }
  }

  /** The cdecl prologue swaps the return address below the hidden pointer
      (and is empty without one). */
  lemma ExecCdeclPrologue(h: Option<nat>, m: Machine, ret: nat, s: seq<nat>)
    requires m.stack == [ret] + HiddenSlot(h) + s
    ensures AllData(Prologue(Cdecl, h.Some?))
    ensures Exec(Prologue(Cdecl, h.Some?), m) ==
      if h.Some? then Some(m.(eax := ret, edx := h.value, stack := [ret] + s)) else Some(m)
  {
    if h.Some? {
      var m1 := m.(eax := ret, stack := [h.value] + s);
      var m2 := m1.(edx := h.value, stack := s);
      ExecOne(PopEax, m);
      ExecOne(PopEdx, m1);
      ExecOne(PushEax, m2);
      ExecAppend([PopEax], [PopEdx], m);
      ExecAppend([PopEax, PopEdx], [PushEax], m);
      assert [PopEax, PopEdx] + [PushEax] == [PopEax, PopEdx, PushEax];
    }
  }

  /** The parameter pushes: `this` (thiscall), the hook's address, then the
      hidden pointer from edx. */
  lemma ExecPushParams(conv: CallingConv, hidden: bool, self: nat, m: Machine)
    ensures AllData(PushParams(conv, hidden, self))
    ensures Exec(PushParams(conv, hidden, self), m) ==
      Some(m.(stack := (if hidden then [m.edx] else []) + ([self] + (ThisSlot(conv, m.ecx) + m.stack))))
  {
    var a: seq<Instr> := if conv == ThisCall then [PushEcx] else [];
    var b: seq<Instr> := if hidden then [PushEdx] else [];
    var m1 := m.(stack := ThisSlot(conv, m.ecx) + m.stack);
    var m2 := m1.(stack := [self] + m1.stack);
    var m3 := m2.(stack := (if hidden then [m.edx] else []) + m2.stack);
    assert AllData(a) && Exec(a, m) == Some(m1) by {
      if conv == ThisCall { ExecOne(PushEcx, m); } else { assert m1 == m; }
    }
    ExecOne(PushImm(self), m1);
    assert AllData(b) && Exec(b, m2) == Some(m3) by {
      if hidden { ExecOne(PushEdx, m2); } else { assert m3 == m2; }
    }
    ExecChain(a, [PushImm(self)], b, m, m1, m2, m3);
  }

  /** What the cdecl code does once the relay function has returned with a
      hidden pointer: drop the hook pointer and put the return address back
      above the hidden pointer. */
  lemma ExecCdeclHiddenTail(m: Machine, h: nat, self: nat, ret: nat, s: seq<nat>)
    requires m.stack == [h, self, ret] + s
    ensures AllData([PopEax, AddEsp4, PopEdx, PushEax, PushEdx])
    ensures Exec([PopEax, AddEsp4, PopEdx, PushEax, PushEdx], m) ==
      Some(m.(eax := h, edx := ret, stack := [ret, h] + s))
  {
    var m2 := m.(eax := h, stack := [ret] + s);
    ExecDropHook(m, h, self, ret, s);
    ExecRestoreReturn(m2, h, ret, s);
    ExecAppend([PopEax, AddEsp4], [PopEdx, PushEax, PushEdx], m);
    assert [PopEax, AddEsp4] + [PopEdx, PushEax, PushEdx] == [PopEax, AddEsp4, PopEdx, PushEax, PushEdx];
  }

  /** `pop eax; add esp, 4`: the hidden pointer into eax, the hook pointer
      dropped. */
  lemma ExecDropHook(m: Machine, h: nat, self: nat, ret: nat, s: seq<nat>)
    requires m.stack == [h, self, ret] + s
    ensures AllData([PopEax, AddEsp4])
    ensures Exec([PopEax, AddEsp4], m) == Some(m.(eax := h, stack := [ret] + s))
  {
    var m1 := m.(eax := h, stack := [self, ret] + s);
    var m2 := m1.(stack := [ret] + s);
    assert Step(PopEax, m) == Some(m1) by { assert m.stack[1..] == m1.stack; }
    assert Step(AddEsp4, m1) == Some(m2) by { assert m1.stack[1..] == m2.stack; }
    ExecOne(AddEsp4, m1);
    ExecCons(PopEax, [AddEsp4], m, m1);
  }

  /** `pop edx; push eax; push edx`: the return address goes back above the
      pointer held in eax. */
  lemma ExecRestoreReturn(m: Machine, h: nat, ret: nat, s: seq<nat>)
    requires m.stack == [ret] + s && m.eax == h
    ensures AllData([PopEdx, PushEax, PushEdx])
    ensures Exec([PopEdx, PushEax, PushEdx], m) == Some(m.(edx := ret, stack := [ret, h] + s))
  {
    var m3 := m.(edx := ret, stack := s);
    var m4 := m3.(stack := [h] + s);
    var m5 := m4.(stack := [ret, h] + s);
    assert Step(PopEdx, m) == Some(m3) by { assert m.stack[1..] == s; }
    assert Step(PushEdx, m4) == Some(m5) by { assert [ret] + m4.stack == m5.stack; }
    ExecOne(PushEdx, m4);
    ExecCons(PushEax, [PushEdx], m3, m4);
    ExecCons(PopEdx, [PushEax, PushEdx], m, m3);
  }

  // ---------------------------------------------------------------------
  // The generated code forwards the call

  /** A run of generated code for the hook at `self` behaves as the hooked
      function should: the relay function is entered on exactly its declared
      frame, so it reads the hook pointer, the hidden pointer and the
      source's arguments in order; ecx (thiscall's `this`, fastcall's first
      register argument) reaches it untouched, and so does edx wherever it
      may carry an argument (fastcall's second register argument) and
      wherever no hidden pointer passed through it; control goes back to the
      caller's return address with the stack its convention prescribes and
      the result (the dispatcher's, or the hidden pointer) in eax.  ecx and
      edx after the return are scratch in every convention. */
  predicate ForwardsCall(o: Option<Outcome>, conv: CallingConv, site: CallSite, self: nat,
                         resume: nat, hooks: map<nat, HookView>)
    requires self in hooks
  {
    && o.Some?
    && o.value.view.stack == ExpectedFrame(conv, site, self, resume) + site.rest
    && Decode(RelayFor(conv, site), o.value.view) == Some(Request(self, site.hidden, SourceArgs(conv, site)))
    && o.value.view.ecx == site.ecx
    && (site.hidden.None? || conv == FastCall ==> o.value.view.edx == site.edx)
    && o.value.exit.target == site.ret
    && o.value.exit.state.stack == CallerStackAfter(conv, site)
    && o.value.exit.state.eax ==
         if site.hidden.Some? then site.hidden.value
         else Dispatch(hooks[self].trampoline, hooks[self].callback, SourceArgs(conv, site))
  }

  /** The data part of the callee-cleanup relay code: everything before
      the tail jump. */
  function CalleeData(conv: CallingConv, hidden: bool, self: nat): seq<Instr> {
    Prologue(conv, hidden) + PushParams(conv, hidden, self) + [PushEax]
  }

  /** Before its jump, the callee-cleanup code has rebuilt the stack into
      the relay function's frame, with the caller's return address as the
      relay's own. */
  lemma CalleeDataBuildsFrame(conv: CallingConv, site: CallSite, self: nat)
    requires conv != Cdecl
    ensures AllData(CalleeData(conv, site.hidden.Some?, self))
    ensures Exec(CalleeData(conv, site.hidden.Some?, self), Entry(site)) ==
      Some(Machine(site.ret, site.ecx, if site.hidden.Some? then site.hidden.value else site.edx,
                   Frame(conv, site.ret, site.hidden, self, site.ret, site.ecx, site.args) + site.rest))
  {
    var h := site.hidden;
    var m0 := Entry(site);
    var s := site.args + site.rest;
    assert m0.stack == [site.ret] + HiddenSlot(h) + s;
    CalleeSetup(conv, h, self, m0, site.ret, s);
    assert [site.ret] + (HiddenSlot(h) + [self] + ThisSlot(conv, site.ecx) + s) ==
      Frame(conv, site.ret, h, self, site.ret, site.ecx, site.args) + site.rest by {
      CalleeFrame(conv, site.ret, h, self, site.ret, site.ecx, site.args, site.rest);
    }
  }

  /** The callee-cleanup code before its jump, on any stack holding the
      return address and the hidden pointer above the rest. */
  lemma CalleeSetup(conv: CallingConv, h: Option<nat>, self: nat, m0: Machine, ret: nat, s: seq<nat>)
    requires conv != Cdecl
    requires m0.stack == [ret] + HiddenSlot(h) + s
    ensures AllData(CalleeData(conv, h.Some?, self))
    ensures Exec(CalleeData(conv, h.Some?, self), m0) ==
      Some(m0.(eax := ret, edx := if h.Some? then h.value else m0.edx,
               stack := [ret] + (HiddenSlot(h) + [self] + ThisSlot(conv, m0.ecx) + s)))
  {
    var hidden := h.Some?;
    var m1 := m0.(eax := ret, edx := if hidden then h.value else m0.edx, stack := s);
    var m2 := m1.(stack := HiddenSlot(h) + [self] + ThisSlot(conv, m0.ecx) + s);
    var m3 := m2.(stack := [ret] + m2.stack);
    ExecCalleePrologue(conv, h, m0, ret, s);
    PushHookFrame(conv, h, self, m1);
    ExecOne(PushEax, m2);
    ExecChain(Prologue(conv, hidden), PushParams(conv, hidden, self), [PushEax], m0, m1, m2, m3);
  }

  /** With the hidden pointer, if any, in edx, the pushes lay out the
      relay function's parameters above the stack. */
  lemma PushHookFrame(conv: CallingConv, h: Option<nat>, self: nat, m: Machine)
    requires h.Some? ==> m.edx == h.value
    ensures AllData(PushParams(conv, h.Some?, self))
    ensures Exec(PushParams(conv, h.Some?, self), m) ==
      Some(m.(stack := HiddenSlot(h) + [self] + ThisSlot(conv, m.ecx) + m.stack))
  {
    ExecPushParams(conv, h.Some?, self, m);
    assert (if h.Some? then [m.edx] else []) == HiddenSlot(h);
    assert HiddenSlot(h) + ([self] + (ThisSlot(conv, m.ecx) + m.stack)) ==
      HiddenSlot(h) + [self] + ThisSlot(conv, m.ecx) + m.stack;
  }

  lemma CalleeFrame(conv: CallingConv, retTo: nat, hidden: Option<nat>, hook: nat,
                    returnAddr: nat, thisPtr: nat, args: seq<nat>, rest: seq<nat>)
    requires conv != Cdecl
    ensures Frame(conv, retTo, hidden, hook, returnAddr, thisPtr, args) + rest ==
      [retTo] + (HiddenSlot(hidden) + [hook] + ThisSlot(conv, thisPtr) + args + rest)
  {
  }

  /** What the stdcall, thiscall and fastcall relay code does on any call:
      it jumps to the relay function on the frame `CalleeDataBuildsFrame`
      builds, with edx holding the hidden pointer if there is one, and
      returns to the caller with whatever the relay function leaves. */
  lemma CalleeCleanupRun(conv: CallingConv, site: CallSite, self: nat, resume: nat,
                         hooks: map<nat, HookView>)
    requires conv != Cdecl && self in hooks
    ensures var m3 := Machine(site.ret, site.ecx, if site.hidden.Some? then site.hidden.value else site.edx,
                              Frame(conv, site.ret, site.hidden, self, site.ret, site.ecx, site.args) + site.rest);
      && Invoke(RelayFor(conv, site), hooks, m3).Some?
      && RunRelay(RelayProgram(conv, site.hidden.Some?, self), conv, site, hooks, resume) ==
         Some(Outcome(m3, Exit(site.ret, Invoke(RelayFor(conv, site), hooks, m3).value)))
  {
    var h := site.hidden;
    var hidden := h.Some?;
    var f := RelayFor(conv, site);
    var relay := v => Invoke(f, hooks, v);
    var fr := Frame(conv, site.ret, h, self, site.ret, site.ecx, site.args);
    var m3 := Machine(site.ret, site.ecx, if hidden then h.value else site.edx, fr + site.rest);
    CalleeDataBuildsFrame(conv, site, self);
    RunAfterData(CalleeData(conv, hidden, self), [JmpRelay], Entry(site), relay, resume, None);
    assert RelayProgram(conv, hidden, self) == CalleeData(conv, hidden, self) + [JmpRelay];
    InvokeOnFrame(f, hooks, m3, site.ret, h, self, site.ret, site.ecx, site.args, site.rest);
    var back := Invoke(f, hooks, m3).value;
    assert fr[0] == site.ret;
    RunJmp(m3, relay, resume, None, back);
  }

  /** `make_relay_jump` for a stdcall or thiscall source, and for a fastcall
      source whose result comes back in registers. */
  lemma CalleeCleanupRelay(conv: CallingConv, site: CallSite, self: nat, resume: nat,
                           hooks: map<nat, HookView>)
    requires conv != Cdecl && self in hooks
    requires conv == FastCall ==> site.hidden.None?
    ensures ForwardsCall(RunRelay(RelayProgram(conv, site.hidden.Some?, self), conv, site, hooks, resume),
                         conv, site, self, resume, hooks)
  {
    var h := site.hidden;
    var f := RelayFor(conv, site);
    var fr := Frame(conv, site.ret, h, self, site.ret, site.ecx, site.args);
    var m3 := Machine(site.ret, site.ecx, if h.Some? then h.value else site.edx, fr + site.rest);
    CalleeCleanupRun(conv, site, self, resume, hooks);
    InvokeOnFrame(f, hooks, m3, site.ret, h, self, site.ret, site.ecx, site.args, site.rest);
    DecodeFrame(f, m3, site.ret, h, self, site.ret, site.ecx, site.args, site.rest);
  }

  /** For a fastcall source whose result goes through a hidden pointer, the
      relay code pops that pointer into edx, so the relay function finds it
      where the caller's second register argument should be. */
  lemma FastcallHiddenClobbersEdx(site: CallSite, self: nat, resume: nat, hooks: map<nat, HookView>)
    requires site.hidden.Some? && self in hooks
    ensures var o := RunRelay(RelayProgram(FastCall, true, self), FastCall, site, hooks, resume);
      o.Some? && o.value.view.edx == site.hidden.value
    ensures site.hidden.value != site.edx ==>
      !ForwardsCall(RunRelay(RelayProgram(FastCall, true, self), FastCall, site, hooks, resume),
                    FastCall, site, self, resume, hooks)
  {
    CalleeCleanupRun(FastCall, site, self, resume, hooks);
  }

  /** Before its call, the cdecl code has pushed the hook pointer above
      the caller's return address (and the hidden pointer above both). */
  lemma CdeclDataPushesHook(site: CallSite, self: nat)
    ensures AllData(Prologue(Cdecl, site.hidden.Some?) + PushParams(Cdecl, site.hidden.Some?, self))
    ensures Exec(Prologue(Cdecl, site.hidden.Some?) + PushParams(Cdecl, site.hidden.Some?, self), Entry(site)) ==
      Some(Machine(if site.hidden.Some? then site.ret else site.eax, site.ecx,
                   if site.hidden.Some? then site.hidden.value else site.edx,
                   HiddenSlot(site.hidden) + [self, site.ret] + site.args + site.rest))
  {
    var h := site.hidden;
    var hidden := h.Some?;
    var m0 := Entry(site);
    var s := site.args + site.rest;
    assert m0.stack == [site.ret] + HiddenSlot(h) + s;
    ExecCdeclPrologue(h, m0, site.ret, s);
    var m1 := if hidden then m0.(eax := site.ret, edx := h.value, stack := [site.ret] + s) else m0;
    assert m1.stack == [site.ret] + s;
    ExecPushParams(Cdecl, hidden, self, m1);
    assert (if hidden then [m1.edx] else []) + ([self] + (ThisSlot(Cdecl, m1.ecx) + m1.stack))
        == HiddenSlot(site.hidden) + [self, site.ret] + site.args + site.rest;
    ExecAppend(Prologue(Cdecl, hidden), PushParams(Cdecl, hidden, self), m0);
  }

  /** After the relay function returns, the cdecl code drops the hook
      pointer and returns with the hidden pointer and the arguments still on
      the stack for the caller to clean. */
  lemma CdeclAfterCall(back: Machine, site: CallSite, self: nat, relay: Machine -> Option<Machine>,
                       resume: nat, entry: Machine)
    requires back.stack == HiddenSlot(site.hidden) + [self, site.ret] + site.args + site.rest
    requires site.hidden.Some? ==> back.eax == site.hidden.value
    ensures Run(Epilogue(Cdecl, site.hidden.Some?)[1..], back, relay, resume, Some(entry)) ==
      Some(Outcome(entry, Exit(site.ret, back.(stack := CallerStackAfter(Cdecl, site),
                                              edx := if site.hidden.Some? then site.ret else back.edx))))
  {
    var hidden := site.hidden.Some?;
    var tail := CdeclTail(hidden);
    assert Epilogue(Cdecl, hidden)[1..] == tail + [Ret];
    var after := CallerStackAfter(Cdecl, site);
    var m4 := back.(stack := [site.ret] + after, edx := if hidden then site.ret else back.edx);
    ExecCdeclTail(back, site, self);
    RunAfterData(tail, [Ret], back, relay, resume, Some(entry));
    RunRet(m4, relay, resume, entry);
    assert m4.stack[1..] == after;
  }

  /** The cdecl code between the call and the `ret`. */
  function CdeclTail(hidden: bool): seq<Instr> {
    if hidden then [PopEax, AddEsp4, PopEdx, PushEax, PushEdx] else [AddEsp4]
  }

  lemma ExecCdeclTail(back: Machine, site: CallSite, self: nat)
    requires back.stack == HiddenSlot(site.hidden) + [self, site.ret] + site.args + site.rest
    requires site.hidden.Some? ==> back.eax == site.hidden.value
    ensures AllData(CdeclTail(site.hidden.Some?))
    ensures Exec(CdeclTail(site.hidden.Some?), back) ==
      Some(back.(stack := [site.ret] + CallerStackAfter(Cdecl, site),
                 edx := if site.hidden.Some? then site.ret else back.edx))
  {
    if site.hidden.Some? {
      ExecCdeclTailHidden(back, site, self);
    } else {
      ExecCdeclTailPlain(back, site, self);
    }
  }

  /** The cdecl tail with a hidden pointer: the pointer goes back under the
      return address. */
  lemma ExecCdeclTailHidden(back: Machine, site: CallSite, self: nat)
    requires site.hidden.Some?
    requires back.stack == [site.hidden.value, self, site.ret] + site.args + site.rest
    requires back.eax == site.hidden.value
    ensures AllData(CdeclTail(true))
    ensures Exec(CdeclTail(true), back) ==
      Some(back.(stack := [site.ret] + CallerStackAfter(Cdecl, site), edx := site.ret))
  {
    var h := site.hidden.value;
    var s := site.args + site.rest;
    assert back.stack == [h, self, site.ret] + s;
    ExecCdeclHiddenTail(back, h, self, site.ret, s);
    assert CallerStackAfter(Cdecl, site) == [h] + s;
    assert [site.ret, h] + s == [site.ret] + ([h] + s);
  }

  /** The cdecl tail without a hidden pointer only drops the hook pointer. */
  lemma ExecCdeclTailPlain(back: Machine, site: CallSite, self: nat)
    requires site.hidden.None?
    requires back.stack == [self, site.ret] + site.args + site.rest
    ensures AllData(CdeclTail(false))
    ensures Exec(CdeclTail(false), back) ==
      Some(back.(stack := [site.ret] + CallerStackAfter(Cdecl, site)))
  {
    ExecOne(AddEsp4, back);
    assert back.stack[1..] == [site.ret] + CallerStackAfter(Cdecl, site);
  }

  /** The state in which the cdecl code enters the relay function. */
  function CdeclEntry(site: CallSite, self: nat, resume: nat): Machine {
    Machine(if site.hidden.Some? then site.ret else site.eax, site.ecx,
            if site.hidden.Some? then site.hidden.value else site.edx,
            [resume] + HiddenSlot(site.hidden) + [self, site.ret] + site.args + site.rest)
  }

  /** The cdecl code calls the relay function in `CdeclEntry` and, whatever
      the relay function computes, returns to the caller once it comes back
      with the hook pointer still on the stack. */
  lemma CdeclRun(site: CallSite, self: nat, resume: nat, relay: Machine -> Option<Machine>,
                 back: Machine)
    requires relay(CdeclEntry(site, self, resume)) == Some(back)
    requires back.stack == HiddenSlot(site.hidden) + [self, site.ret] + site.args + site.rest
    requires site.hidden.Some? ==> back.eax == site.hidden.value
    ensures Run(RelayProgram(Cdecl, site.hidden.Some?, self), Entry(site), relay, resume, None) ==
      Some(Outcome(CdeclEntry(site, self, resume),
                   Exit(site.ret, back.(stack := CallerStackAfter(Cdecl, site),
                                        edx := if site.hidden.Some? then site.ret else back.edx))))
  {
    var hidden := site.hidden.Some?;
    var pre := Prologue(Cdecl, hidden) + PushParams(Cdecl, hidden, self);
    var epi := Epilogue(Cdecl, hidden);
    var m2 := Machine(if hidden then site.ret else site.eax, site.ecx,
                      if hidden then site.hidden.value else site.edx,
                      HiddenSlot(site.hidden) + [self, site.ret] + site.args + site.rest);
    CdeclDataPushesHook(site, self);
    RunAfterData(pre, epi, Entry(site), relay, resume, None);
    assert epi == [CallRelay] + epi[1..];
    assert m2.(stack := [resume] + m2.stack) == CdeclEntry(site, self, resume);
    RunCall(epi[1..], m2, relay, resume, None, back);
    CdeclAfterCall(back, site, self, relay, resume, CdeclEntry(site, self, resume));
  }

  /** `make_relay_jump` for a cdecl source. */
  lemma CdeclRelay(site: CallSite, self: nat, resume: nat, hooks: map<nat, HookView>)
    requires self in hooks
    ensures ForwardsCall(RunRelay(RelayProgram(Cdecl, site.hidden.Some?, self), Cdecl, site, hooks, resume),
                         Cdecl, site, self, resume, hooks)
  {
    var h := site.hidden;
    var f := RelayFor(Cdecl, site);
    var entry := CdeclEntry(site, self, resume);
    var fr := Frame(Cdecl, resume, h, self, site.ret, site.ecx, site.args);
    assert entry.stack == fr + site.rest;
    InvokeOnFrame(f, hooks, entry, resume, h, self, site.ret, site.ecx, site.args, site.rest);
    DecodeFrame(f, entry, resume, h, self, site.ret, site.ecx, site.args, site.rest);
    var back := Invoke(f, hooks, entry).value;
    assert fr[1..] + site.rest == back.stack;
    CdeclRun(site, self, resume, v => Invoke(f, hooks, v), back);
  }

  /** Whatever the convention and the result type, except a fastcall source
      with a hidden result pointer, the code `make_relay_jump` emits
      forwards the call. */
  lemma RelayForwardsCall(conv: CallingConv, site: CallSite, self: nat, resume: nat,
                          hooks: map<nat, HookView>)
    requires self in hooks
    requires conv == FastCall ==> site.hidden.None?
    ensures ForwardsCall(RunRelay(RelayProgram(conv, site.hidden.Some?, self), conv, site, hooks, resume),
                         conv, site, self, resume, hooks)
  {
    if conv == Cdecl {
      CdeclRelay(site, self, resume, hooks);
    } else {
      CalleeCleanupRelay(conv, site, self, resume, hooks);
    }
  }

  /** The relay code embeds the address of the hook object it was built
      for, right after the prologue (and thiscall's `push ecx`), so code
      built for two objects differs. */
  lemma RelayProgramNamesHook(conv: CallingConv, hidden: bool, a: nat, b: nat)
    requires a != b
    ensures RelayProgram(conv, hidden, a) != RelayProgram(conv, hidden, b)
  {
    var k := |Prologue(conv, hidden)| + (if conv == ThisCall then 1 else 0);
    assert RelayProgram(conv, hidden, a)[k] == PushImm(a);
    assert RelayProgram(conv, hidden, b)[k] == PushImm(b);
  }

  /** The same for the thunk of the detour frontend. */
  lemma ThunkProgramNamesHook(conv: CallingConv, a: nat, b: nat)
    requires a != b
    ensures ThunkProgram(conv, a) != ThunkProgram(conv, b)
  {
    ThunkIsRelayWithoutHidden(conv, a);
    ThunkIsRelayWithoutHidden(conv, b);
    RelayProgramNamesHook(conv, false, a, b);
  }

  /** Relay code built for an object that no longer has a backend stops at
      the relay function, whatever the call.  `hooks` is read from the
      objects' state: an object's address is a key exactly while its
      `hookImpl` (a frontend's `backend`) is non-null, since the relay
      function fetches the trampoline through that pointer; a moved-from
      object, whose pointer `Move` sets to null, is therefore absent. */
  lemma RelayToDeadHookStops(conv: CallingConv, site: CallSite, self: nat, resume: nat,
                             hooks: map<nat, HookView>)
    requires self !in hooks
    ensures RunRelay(RelayProgram(conv, site.hidden.Some?, self), conv, site, hooks, resume) == None
  {
    if conv == Cdecl {
      CdeclToDeadHookStops(site, self, resume, hooks);
    } else {
      CalleeToDeadHookStops(conv, site, self, resume, hooks);
    }
  }

  lemma CdeclToDeadHookStops(site: CallSite, self: nat, resume: nat, hooks: map<nat, HookView>)
    requires self !in hooks
    ensures RunRelay(RelayProgram(Cdecl, site.hidden.Some?, self), Cdecl, site, hooks, resume) == None
  {
    var hidden := site.hidden.Some?;
    var f := RelayFor(Cdecl, site);
    var relay := v => Invoke(f, hooks, v);
    var pre := Prologue(Cdecl, hidden) + PushParams(Cdecl, hidden, self);
    var epi := Epilogue(Cdecl, hidden);
    var entry := CdeclEntry(site, self, resume);
    DecodeFrame(f, entry, resume, site.hidden, self, site.ret, site.ecx, site.args, site.rest);
    InvokeNeedsLiveHook(f, hooks, entry);
    CdeclDataPushesHook(site, self);
    RunAfterData(pre, epi, Entry(site), relay, resume, None);
    assert epi[0] == CallRelay;
  }

  lemma CalleeToDeadHookStops(conv: CallingConv, site: CallSite, self: nat, resume: nat,
                              hooks: map<nat, HookView>)
    requires conv != Cdecl && self !in hooks
    ensures RunRelay(RelayProgram(conv, site.hidden.Some?, self), conv, site, hooks, resume) == None
  {
    var h := site.hidden;
    var hidden := h.Some?;
    var f := RelayFor(conv, site);
    var relay := v => Invoke(f, hooks, v);
    var m3 := Machine(site.ret, site.ecx, if hidden then h.value else site.edx,
                      Frame(conv, site.ret, h, self, site.ret, site.ecx, site.args) + site.rest);
    DecodeFrame(f, m3, site.ret, h, self, site.ret, site.ecx, site.args, site.rest);
    InvokeNeedsLiveHook(f, hooks, m3);
    CalleeDataBuildsFrame(conv, site, self);
    RunAfterData(CalleeData(conv, hidden, self), [JmpRelay], Entry(site), relay, resume, None);
    assert RelayProgram(conv, hidden, self) == CalleeData(conv, hidden, self) + [JmpRelay];
  }

  /** The fastcall code with a hidden result pointer as it should be: the
      hook's address goes under the hidden pointer through eax alone
      (`push self; pop eax; xchg eax, [esp+4]; xchg eax, [esp]; push eax`),
      so ecx and edx keep the register arguments. */
  function FastcallHiddenData(self: nat): seq<Instr> {
    [PushImm(self), PopEax, XchgEax(1), XchgEax(0), PushEax]
  }

  /** `make_relay_jump` with the fastcall case corrected. */
  function RelayProgramIntended(conv: CallingConv, hidden: bool, self: nat): seq<Instr> {
    if conv == FastCall && hidden then FastcallHiddenData(self) + [JmpRelay]
    else RelayProgram(conv, hidden, self)
  }

  /** `push self; pop eax` loads the hook's address into eax. */
  lemma LoadSelf(m: Machine, self: nat)
    ensures AllData([PushImm(self), PopEax])
    ensures Exec([PushImm(self), PopEax], m) == Some(m.(eax := self))
  {
    var m1 := m.(stack := [self] + m.stack);
    assert Step(PopEax, m1) == Some(m.(eax := self)) by { assert m1.stack[1..] == m.stack; }
    ExecOne(PopEax, m1);
    ExecCons(PushImm(self), [PopEax], m, m1);
  }

  /** The two exchanges put eax under the top two words and bring the top
      word into eax. */
  lemma RotateUnder(m: Machine, ret: nat, h: nat, s: seq<nat>)
    requires m.stack == [ret, h] + s
    ensures AllData([XchgEax(1), XchgEax(0)])
    ensures Exec([XchgEax(1), XchgEax(0)], m) == Some(m.(eax := ret, stack := [h, m.eax] + s))
  {
    var m3 := m.(eax := h, stack := [ret, m.eax] + s);
    var m4 := m.(eax := ret, stack := [h, m.eax] + s);
    assert Step(XchgEax(1), m) == Some(m3) by { assert m.stack[1 := m.eax] == m3.stack; }
    assert Step(XchgEax(0), m3) == Some(m4) by { assert m3.stack[0 := h] == m4.stack; }
    ExecOne(XchgEax(0), m3);
    ExecCons(XchgEax(1), [XchgEax(0)], m, m3);
  }

  /** The corrected fastcall code builds the relay function's frame and
      leaves every register but eax alone. */
  lemma FastcallHiddenSteps(m: Machine, ret: nat, h: nat, self: nat, s: seq<nat>)
    requires m.stack == [ret, h] + s
    ensures AllData(FastcallHiddenData(self))
    ensures Exec(FastcallHiddenData(self), m) == Some(m.(eax := ret, stack := [ret, h, self] + s))
  {
    var m2 := m.(eax := self);
    var m4 := m.(eax := ret, stack := [h, self] + s);
    var m5 := m4.(stack := [ret, h, self] + s);
    LoadSelf(m, self);
    RotateUnder(m2, ret, h, s);
    assert Step(PushEax, m4) == Some(m5) by { assert [ret] + m4.stack == m5.stack; }
    ExecOne(PushEax, m4);
    ExecChain([PushImm(self), PopEax], [XchgEax(1), XchgEax(0)], [PushEax], m, m2, m4, m5);
    assert FastcallHiddenData(self) == [PushImm(self), PopEax] + [XchgEax(1), XchgEax(0)] + [PushEax];
  }

  /** The corrected fastcall code with a hidden result pointer forwards
      every call, edx included. */
  lemma FastcallHiddenRelay(site: CallSite, self: nat, resume: nat, hooks: map<nat, HookView>)
    requires site.hidden.Some? && self in hooks
    ensures ForwardsCall(RunRelay(RelayProgramIntended(FastCall, true, self), FastCall, site, hooks, resume),
                         FastCall, site, self, resume, hooks)
  {
    var h := site.hidden;
    var f := RelayFor(FastCall, site);
    var relay := v => Invoke(f, hooks, v);
    var s := site.args + site.rest;
    var m0 := Entry(site);
    var fr := Frame(FastCall, site.ret, h, self, site.ret, site.ecx, site.args);
    var m5 := Machine(site.ret, site.ecx, site.edx, fr + site.rest);
    assert m0.stack == [site.ret, h.value] + s;
    FastcallHiddenSteps(m0, site.ret, h.value, self, s);
    assert m0.(eax := site.ret, stack := [site.ret, h.value, self] + s) == m5;
    RunAfterData(FastcallHiddenData(self), [JmpRelay], m0, relay, resume, None);
    InvokeOnFrame(f, hooks, m5, site.ret, h, self, site.ret, site.ecx, site.args, site.rest);
    DecodeFrame(f, m5, site.ret, h, self, site.ret, site.ecx, site.args, site.rest);
    var back := Invoke(f, hooks, m5).value;
    RunJmp(m5, relay, resume, None, back);
  }

  /** With the fastcall case corrected, the relay code forwards the call for
      every convention and result type. */
  lemma RelayIntendedForwardsCall(conv: CallingConv, site: CallSite, self: nat, resume: nat,
                                  hooks: map<nat, HookView>)
    requires self in hooks
    ensures ForwardsCall(RunRelay(RelayProgramIntended(conv, site.hidden.Some?, self), conv, site, hooks, resume),
                         conv, site, self, resume, hooks)
  {
    if conv == FastCall && site.hidden.Some? {
      FastcallHiddenRelay(site, self, resume, hooks);
    } else {
      RelayForwardsCall(conv, site, self, resume, hooks);
    }
  }

  // ---------------------------------------------------------------------
  // The thunks of the detour frontend and the detour classes

  /** The thunk is the relay code with no hidden result pointer. */
  lemma ThunkIsRelayWithoutHidden(conv: CallingConv, self: nat)
    ensures ThunkProgram(conv, self) == RelayProgram(conv, false, self)
  {
    if conv == Cdecl {
      assert RelayProgram(conv, false, self) == [PushImm(self)] + [CallRelay, AddEsp4, Ret];
    } else {
      assert RelayProgram(conv, false, self)
          == [PopEax] + ThunkPushes(conv, self) + [PushEax, JmpRelay];
      assert ThunkProgram(conv, self) == [PopEax] + ThunkPushes(conv, self) + [PushEax, JmpRelay];
    }
  }

  function ThunkPushes(conv: CallingConv, self: nat): seq<Instr> {
    (if conv == ThisCall then [PushEcx] else []) + [PushImm(self)]
  }

  /** For a source whose result comes back in registers, the thunk forwards
      every call exactly as the hook wrapper's relay code does. */
  lemma ThunkForwardsCall(conv: CallingConv, site: CallSite, self: nat, resume: nat,
                          hooks: map<nat, HookView>)
    requires self in hooks && site.hidden.None?
    ensures ForwardsCall(RunRelay(ThunkProgram(conv, self), conv, site, hooks, resume),
                         conv, site, self, resume, hooks)
  {
    ThunkIsRelayWithoutHidden(conv, self);
    RelayForwardsCall(conv, site, self, resume, hooks);
  }

  /** The same call seen as one without a hidden pointer, whose first stack
      argument happens to be the hidden pointer. */
  function AsPlainCall(site: CallSite): CallSite
    requires site.hidden.Some?
  {
    site.(hidden := None, args := [site.hidden.value] + site.args)
  }

  /** When the result goes through a hidden pointer, whatever the relay
      function does, the thunk enters it with the hook's own address in the
      slot where the relay function expects that pointer. */
  lemma ThunkPutsHookInHiddenSlot(conv: CallingConv, site: CallSite, self: nat,
                                  relay: Machine -> Option<Machine>, resume: nat)
    requires site.hidden.Some?
    ensures var o := Run(ThunkProgram(conv, self), Entry(site), relay, resume, None);
      o.Some? ==> |o.value.view.stack| > 1 && o.value.view.stack[1] == self
  {
    var plain := AsPlainCall(site);
    assert Entry(plain) == Entry(site);
    ThunkIsRelayWithoutHidden(conv, self);
    var o := Run(ThunkProgram(conv, self), Entry(site), relay, resume, None);
    if conv == Cdecl {
      CdeclThunkView(plain, self, relay, resume);
      assert o.Some? ==> o.value.view.stack == [resume, self] + Entry(site).stack;
    } else {
      CalleeThunkView(conv, plain, self, relay, resume);
      assert o.Some? ==>
        o.value.view.stack == [site.ret, self] + ThisSlot(conv, site.ecx) + plain.args + site.rest;
    }
  }

  /** The cdecl thunk enters the relay function with the hook pointer
      right below the return address it pushed. */
  lemma CdeclThunkView(site: CallSite, self: nat, relay: Machine -> Option<Machine>, resume: nat)
    requires site.hidden.None?
    ensures var o := Run(RelayProgram(Cdecl, false, self), Entry(site), relay, resume, None);
      o.Some? ==> o.value.view.stack == [resume, self] + Entry(site).stack
  {
    var pre := Prologue(Cdecl, false) + PushParams(Cdecl, false, self);
    var epi := Epilogue(Cdecl, false);
    CdeclDataPushesHook(site, self);
    RunAfterData(pre, epi, Entry(site), relay, resume, None);
    var m2 := Machine(site.eax, site.ecx, site.edx, [self, site.ret] + site.args + site.rest);
    var entry := m2.(stack := [resume] + m2.stack);
    assert entry.stack == [resume, self] + Entry(site).stack;
    assert epi == [CallRelay] + [AddEsp4, Ret];
    match relay(entry)
    case None =>
    case Some(back) =>
      RunCall([AddEsp4, Ret], m2, relay, resume, None, back);
      ExecOne(AddEsp4, back);
      RunAfterData([AddEsp4], [Ret], back, relay, resume, Some(entry));
  }

  /** The other thunks jump to the relay function with the hook pointer
      right below the caller's return address. */
  lemma CalleeThunkView(conv: CallingConv, site: CallSite, self: nat,
                        relay: Machine -> Option<Machine>, resume: nat)
    requires conv != Cdecl && site.hidden.None?
    ensures var o := Run(RelayProgram(conv, false, self), Entry(site), relay, resume, None);
      o.Some? ==> o.value.view.stack == [site.ret, self] + ThisSlot(conv, site.ecx) + site.args + site.rest
  {
    var f := Frame(conv, site.ret, None, self, site.ret, site.ecx, site.args);
    var m3 := Machine(site.ret, site.ecx, site.edx, f + site.rest);
    CalleeDataBuildsFrame(conv, site, self);
    RunAfterData(CalleeData(conv, false, self), [JmpRelay], Entry(site), relay, resume, None);
    assert RelayProgram(conv, false, self) == CalleeData(conv, false, self) + [JmpRelay];
    CalleeFrame(conv, site.ret, None, self, site.ret, site.ecx, site.args, site.rest);
    match relay(m3)
    case None =>
    case Some(back) =>
      RunJmp(m3, relay, resume, None, back);
  }

  /** So the thunk does not forward such a call: the relay function would
      take the hook object for the caller's result buffer (and hand the
      caller back the hook's address), unless the caller happened to pass
      the hook's own address as its buffer. */
  lemma ThunkBreaksHiddenReturn(conv: CallingConv, site: CallSite, self: nat, resume: nat,
                                hooks: map<nat, HookView>)
    requires self in hooks && site.hidden.Some? && site.hidden.value != self
    ensures !ForwardsCall(RunRelay(ThunkProgram(conv, self), conv, site, hooks, resume),
                          conv, site, self, resume, hooks)
  {
    ThunkPutsHookInHiddenSlot(conv, site, self, v => Invoke(RelayFor(conv, site), hooks, v), resume);
  }
}
