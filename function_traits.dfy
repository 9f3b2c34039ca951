/** The calling-convention model: compile-time classification of a C++
    function type into a calling convention and a return/argument
    decomposition.  The C++ library does this with partial template
    specialisations; here a type is a value of `FnType` and each trait is a
    function that is `None` exactly where the C++ trait has no member (which
    is a build error in C++, never a run-time one).

    The same specialisations appear in three headers of the library (an
    older `func_traits.hpp`, `types/function_traits.hpp` and
    `function_traits.hpp`); they agree on every trait they share, so they are
    modelled once. */
module FunctionTraits {
  import opened Base

  /** `calling_conv` / `CallingConv`, in declaration order. */
  datatype CallingConv = ThisCall | Cdecl | StdCall | FastCall

  /** The convention keyword written in a function pointer type. */
  datatype Keyword = KwCdecl | KwStdcall | KwThiscall | KwFastcall

  /** An object type, known by name and `sizeof`; `void` has no size. */
  datatype Ty = Void | Object(name: string, size: nat)

  /** A function signature `Ret(Args...)`. */
  datatype Sig = Sig(ret: Ty, args: seq<Ty>)

  /** The C++ types the traits are applied to. */
  datatype FnType =
    | Ptr(keyword: Keyword, sig: Sig)                  // Ret(__kw *)(Args...)
    | Fn(sig: Sig)                                     // the function type Ret(Args...)
    | MemberPtr(cls: string, sig: Sig, isConst: bool)  // Ret (Class::*)(Args...) [const]
    | Functor(cls: string, call: Sig, isConst: bool)   // a class with operator()
    | Other(ty: Ty)                                    // any other type

  /** `get_type_size<T>()`: `sizeof(T)`, and 0 for `void`. */
  function TypeSize(t: Ty): nat {
    match t
    case Void => 0
    case Object(_, size) => size
  }

  /** The enumerator a keyword's specialisation yields. */
  function ConvOf(kw: Keyword): CallingConv {
    match kw
    case KwCdecl => Cdecl
    case KwStdcall => StdCall
    case KwThiscall => ThisCall
    case KwFastcall => FastCall
  }

  /** The keyword whose specialisation yields a given enumerator. */
  function KeywordOf(c: CallingConv): Keyword {
    match c
    case Cdecl => KwCdecl
    case StdCall => KwStdcall
    case ThisCall => KwThiscall
    case FastCall => KwFastcall
  }

  /** `function_convention_v<T>`: `None` where no specialisation matches. */
  function FunctionConvention(t: FnType): Option<CallingConv> {
    match t
    case Ptr(kw, _) => Some(ConvOf(kw))
    case MemberPtr(_, _, isConst) => if isConst then None else Some(ThisCall)
    case _ => None
  }

  /** `method_to_func_t<T>`: only a non-const member pointer has one. */
  function MethodToFunc(t: FnType): Option<FnType> {
    match t
    case MemberPtr(_, sig, isConst) => if isConst then None else Some(Fn(sig))
    case _ => None
  }

  /** `function_decompose<T>`: its `return_type` and `arguments`, as a
      signature.  The free-pointer specialisation is written `Ret (*)(Args...)`,
      which on the 32-bit target means a `__cdecl` pointer. */
  function FunctionDecompose(t: FnType): Option<Sig>
    decreases DerivationDepth(t)
  {
    match t
    case Ptr(kw, sig) => if kw == KwCdecl then Some(sig) else None
    case MemberPtr(_, sig, _) => FunctionDecompose(Ptr(KwCdecl, sig))
    case Functor(cls, call, isConst) => FunctionDecompose(MemberPtr(cls, call, isConst))
    case _ => None
  }

  /** How many specialisations `function_decompose<T>` inherits through
      before it reaches the free-pointer one. */
  function DerivationDepth(t: FnType): nat {
    match t
    case MemberPtr(_, _, _) => 1
    case Functor(_, _, _) => 2
    case _ => 0
  }

  /** The `FunctionPtr` concept: the type with one pointer removed is a
      function type. */
  predicate IsFunctionPtr(t: FnType) {
    t.Ptr? || t.Fn?
  }

  /** `result_type_t<T>`: the result type `std::function`'s deduction guide
      finds for `T` (none for member pointers and non-callables). */
  function ResultType(t: FnType): Option<Ty> {
    match t
    case Ptr(_, sig) => Some(sig.ret)
    case Fn(sig) => Some(sig.ret)
    case Functor(_, call, _) => Some(call.ret)
    case _ => None
  }

  /** Whether the result is returned through a hidden out-pointer: its size
      exceeds the 8 bytes edx:eax can hold. */
  predicate HiddenParamReturn(t: FnType)
    requires ResultType(t).Some?
  {
    TypeSize(ResultType(t).value) > 8
  }

  // ---------------------------------------------------------------------
  // Properties

  /** Each annotated pointer maps to the enumerator of its keyword. */
  lemma ConventionOfPointer(sig: Sig)
    ensures FunctionConvention(Ptr(KwCdecl, sig)) == Some(Cdecl)
    ensures FunctionConvention(Ptr(KwStdcall, sig)) == Some(StdCall)
    ensures FunctionConvention(Ptr(KwThiscall, sig)) == Some(ThisCall)
    ensures FunctionConvention(Ptr(KwFastcall, sig)) == Some(FastCall)
  {
  }

  /** The keyword-to-convention map is a bijection: each enumerator is
      produced by exactly one keyword. */
  lemma KeywordRoundTrip(kw: Keyword, c: CallingConv)
    ensures ConvOf(KeywordOf(c)) == c
    ensures KeywordOf(ConvOf(kw)) == kw
    ensures ConvOf(kw) == c <==> kw == KeywordOf(c)
  {
  }

  /** Every non-const member pointer is thiscall, whatever its class and
      signature. */
  lemma MemberPointerIsThiscall(cls: string, sig: Sig)
    ensures FunctionConvention(MemberPtr(cls, sig, false)) == Some(ThisCall)
  {
  }

  /** Exactly the annotated pointers and the non-const member pointers are
      classified; a const member pointer, a function type, a functor or any
      other type has no `value`. */
  lemma ClassifiedExactly(t: FnType)
    ensures FunctionConvention(t).Some? <==> t.Ptr? || (t.MemberPtr? && !t.isConst)
  {
  }

  /** `method_to_func` drops the class and keeps the return type and the
      argument list in order; nothing else has a `type`. */
  lemma MethodToFuncKeepsSignature(t: FnType)
    ensures MethodToFunc(t).Some? <==> t.MemberPtr? && !t.isConst
    ensures MethodToFunc(t).Some? ==>
      && MethodToFunc(t).value.Fn?
      && MethodToFunc(t).value.sig.ret == t.sig.ret
      && MethodToFunc(t).value.sig.args == t.sig.args
  {
  }

  /** A member pointer, const or not, decomposes exactly like the free
      pointer with the same signature. */
  lemma MemberDecomposesAsFreePointer(cls: string, sig: Sig, isConst: bool)
    ensures FunctionDecompose(MemberPtr(cls, sig, isConst)) == Some(sig)
    ensures FunctionDecompose(MemberPtr(cls, sig, isConst)) == FunctionDecompose(Ptr(KwCdecl, sig))
  {
  }

  /** A functor decomposes as its `operator()`, yielding the call operator's
      return type and arguments. */
  lemma FunctorDecomposesAsCallOperator(cls: string, call: Sig, isConst: bool)
    ensures FunctionDecompose(Functor(cls, call, isConst)) == FunctionDecompose(MemberPtr(cls, call, isConst))
    ensures FunctionDecompose(Functor(cls, call, isConst)) == Some(call)
  {
  }

  /** What `function_decompose` yields is always the type's own signature,
      and it is defined exactly for cdecl pointers, member pointers and
      functors. */
  lemma DecomposeDefinedExactly(t: FnType)
    ensures FunctionDecompose(t).Some? <==>
      (t.Ptr? && t.keyword == KwCdecl) || t.MemberPtr? || t.Functor?
    ensures t.Ptr? && FunctionDecompose(t).Some? ==> FunctionDecompose(t).value == t.sig
    ensures t.Functor? ==> FunctionDecompose(t) == Some(t.call)
  {
    if t.Functor? {
      FunctorDecomposesAsCallOperator(t.cls, t.call, t.isConst);
    }
  }

  /** Whatever satisfies `FunctionPtr` has its own return type as its
      result type, and a calling convention exactly when it is a pointer
      (a bare function type has none). */
  lemma FunctionPtrExactly(t: FnType)
    ensures IsFunctionPtr(t) ==> ResultType(t) == Some(t.sig.ret)
    ensures IsFunctionPtr(t) ==> (FunctionConvention(t).Some? <==> t.Ptr?)
  {
  }

  /** A `void` result never uses the hidden out-pointer, and whether a
      result does depends on the signature alone, not on the convention
      keyword. */
  lemma HiddenReturnThreshold(kw: Keyword, sig: Sig)
    ensures sig.ret == Void ==> !HiddenParamReturn(Ptr(kw, sig))
    ensures HiddenParamReturn(Ptr(kw, sig)) == HiddenParamReturn(Ptr(KwCdecl, sig))
  {
  }
}
