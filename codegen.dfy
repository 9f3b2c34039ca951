/** `make_thunk`, which the detour frontend and both detour classes share
    word for word: it resets the code buffer and emits the thunk one
    instruction at a time. */
module CodeGen {
  import opened FunctionTraits
  import opened X86
  import opened RelayGen
  import opened Backends

  /** Emits the thunk for a source of convention `conv` whose hook object
      lives at `self`, and returns the buffer's address. */
  method MakeThunk(gen: CodeGenerator, conv: CallingConv, self: nat) returns (thunk: PosAddr)
    modifies gen
    ensures gen.code == ThunkProgram(conv, self)
    ensures thunk == gen.address
  {
    gen.Reset();
    if conv != Cdecl {
      gen.Emit(PopEax);
    }
    if conv == ThisCall {
      gen.Emit(PushEcx);
    }
    gen.Emit(PushImm(self));
    if conv == Cdecl {
      gen.Emit(CallRelay);
      gen.Emit(AddEsp4);
      gen.Emit(Ret);
    } else {
      gen.Emit(PushEax);
      gen.Emit(JmpRelay);
    }
    thunk := gen.GetCode();
  }
}
