# cyanide, modelled in Dafny

cyanide is a 32-bit x86 hooking library. This project models its core and proves properties of that model:

- **Calling-convention traits.** These turn a C++ function type into a calling convention, a result type and an argument list.
- **Relay code generators.** `make_relay_jump` of `hook_wrapper` and `make_thunk` of `DetourFrontend` and of both `Detour` classes emit a few x86 instructions. These bridge a call of the hooked function into a C++ relay function.
- **Relay functions.** `relay<...>::func`, `ThunkWrapper<...>::func` and `thunk_wrapper<...>::func` read the hook object and the arguments from the frame their parameter lists declare. They then call the callback through `callback_dispatcher` / `callback_wrapper`.
- **Hook objects.** These are `hook_wrapper`, `DetourFrontend` and the two `Detour` classes: install, uninstall, destructor, move construction, `swap`, move assignment.
- **Byte patch and protection guard.** These are `patch<Container>`, `make_static_patch` and `memory_protection`.
- **Signature scanner.** This is `WinAPISignatureScanner::scan`, a wildcard pattern search over a module image.

## How the model is built

Each module follows one part of the library:

- `Base`: `Option`, and `Result` for an operation that may throw `runtime_error` or `logic_error`.
- `FunctionTraits`: the type traits over a datatype of C++ function types. Where a trait has no specialisation the function returns `None`; in C++ that is a build error.
- `X86`:
  - the instructions the generators emit (and the `xchg` the corrected fastcall code uses), as a datatype;
  - an interpreter over eax, ecx, edx and the stack;
  - `Run`, which takes the relay function as a parameter. Given the state the relay function is entered in, it returns the state it returns in.
- `Relay`:
  - the relay functions, as the frame each one declares (`Frame`);
  - how each reads that frame (`Decode`);
  - how each returns (`Invoke`). The cdecl relay function pops only its return address. The `__stdcall` and `__fastcall` ones pop their whole frame. The result is in eax, or the hidden result pointer is there. ecx and edx are scratch registers: what the compiled relay function leaves in them is a parameter of the model.
- `RelayGen`: the generators as functions from the convention (and the hidden-pointer flag) to instruction sequences. It holds the proof that running the relay code on any call forwards it (`ForwardsCall`), except for a fastcall source whose result goes through a hidden pointer (see Findings):
  - the relay function reads the hook, the hidden pointer and the arguments in order;
  - control returns to the caller's return address with the stack its convention prescribes;
  - the result is in eax.
- `Backends`:
  - stand-ins for the backends: the `DetourBackendInterface` shape, and `subhook::Hook` with its boolean results. Each records the calls it receives;
  - `Xbyak::CodeGenerator`, as a buffer at a fixed address holding the instructions emitted so far.
- `CodeGen`: the one `make_thunk` the three thunk-emitting classes share.
- `HookWrappers`, `Frontends`, `Detours` and `LegacyDetours`: one class each. The C++ destructor is the method `Destroy`, move construction the constructor `Move`, the friend `swap` the static method `Swap`. Each object's own address (`this`, which the generated code embeds) is the constant `addr`.
- `Memory`: process memory as a byte array, and page protection as a map from mapped address to flag. `VirtualProtect` fails when any address of the range is unmapped. Otherwise it sets the whole range and reports the flag the first address had.
- `Protection` and `Patches`: the guard and the patch as classes over that memory. A throwing constructor returns `Failure`; a throw out of a destructor, which terminates the program, is the result `terminated`.
- `Scanning`: the scanner over an image given as a byte sequence at a non-null base.

Two facts of the scanner's code the model keeps:

- `scan` never adds `Signature.offset` to its result.
- A pattern/mask length mismatch throws `std::logic_error`. There is no dedicated error type.

## Model

| member | source | states |
|---|---|---|
| FunctionTraits.ConventionOfPointer | include/cyanide/function_traits.hpp:27-50 | each convention keyword of a function pointer classifies as its own enumerator (the copies in `types/function_traits.hpp` and `func_traits.hpp` classify the same way) |
| FunctionTraits.KeywordRoundTrip | include/cyanide/function_traits.hpp:22-50 | keywords and enumerators correspond one to one |
| FunctionTraits.MemberPointerIsThiscall | include/cyanide/function_traits.hpp:42-45 | every non-const member-function pointer classifies as thiscall |
| FunctionTraits.ClassifiedExactly | include/cyanide/function_traits.hpp:24-54 | only the four annotated pointers and non-const member pointers have a convention; every other type is rejected at build time |
| FunctionTraits.MethodToFuncKeepsSignature | include/cyanide/function_traits.hpp:58-67 | `method_to_func` exists exactly for non-const member pointers and yields the same return type and argument list without the class (the same in `func_traits.hpp`) |
| FunctionTraits.MemberDecomposesAsFreePointer | include/cyanide/function_traits.hpp:82-95 | const and non-const member pointers decompose exactly as the free pointer with the same signature |
| FunctionTraits.FunctorDecomposesAsCallOperator | include/cyanide/function_traits.hpp:97-98 | a functor decomposes as its `operator()` |
| FunctionTraits.DecomposeDefinedExactly | include/cyanide/types/function_traits.hpp:68-86 | `function_decompose` is defined exactly for plain pointers, member pointers and functors, and yields the type's own signature |
| FunctionTraits.FunctionPtrExactly | include/cyanide/function_traits.hpp:11-12 | whatever satisfies `FunctionPtr` has its own return type as its result type, and has a calling convention exactly when it is a pointer |
| FunctionTraits.HiddenReturnThreshold | include/cyanide/hook_wrapper.hpp:156-159 | a `void` result never goes through a hidden pointer, and whether a result does depends on the signature, not on the convention keyword |
| Relay.DecodeFrame | include/cyanide/detail/relay.hpp:16-19 | a relay function entered on its declared frame reads the hook pointer, the hidden pointer and the arguments unchanged and in order, skipping cdecl's `return_addr` |
| Relay.InvokeOnFrame | include/cyanide/detail/relay.hpp:12-87 | entered on its frame, each relay function passes the trampoline, the callback and the arguments to the dispatcher and returns its result unchanged (or the hidden pointer); cdecl pops nothing, the others pop their whole frame (`ThunkWrapper` and both `thunk_wrapper` templates behave the same way) |
| Relay.InvokeNeedsLiveHook | include/cyanide/detail/relay.hpp:24-25 | a hook pointer naming no live hook stops the relay function |
| Relay.DispatchOverloads | include/cyanide/hook_wrapper.hpp:246-262 | a `(SourceT, Args...)` callback gets the original prepended; an `(Args...)` callback gets the arguments alone and does not depend on the original (`callback_wrapper` in `hook_frontend.hpp` and both `detour.hpp` files dispatch the same way) |
| X86.RunAfterData | include/cyanide/hook_wrapper.hpp:189-241 | straight-line code at the head of generated code runs first and alone |
| X86.ExecAppend | include/cyanide/hook_wrapper.hpp:189-241 | two straight runs of emitted code execute one after the other |
| RelayGen.ExecCalleePrologue | include/cyanide/hook_wrapper.hpp:199-205 | the callee-cleanup prologue takes the return address into eax and the hidden pointer into edx |
| RelayGen.ExecCdeclPrologue | include/cyanide/hook_wrapper.hpp:189-198 | the cdecl prologue moves the return address above the hidden pointer and keeps the pointer in edx |
| RelayGen.ExecPushParams | include/cyanide/hook_wrapper.hpp:207-214 | the pushes put thiscall's ecx, the hook's own address and the hidden pointer on the stack in that order |
| RelayGen.ExecCdeclHiddenTail | include/cyanide/hook_wrapper.hpp:220-229 | after the call, the cdecl hidden-result code drops the hook pointer and puts the return address back above the hidden pointer, which stays in eax |
| RelayGen.CalleeDataBuildsFrame | include/cyanide/hook_wrapper.hpp:199-239 | before its jump, the callee-cleanup relay code has turned the caller's stack into the relay function's declared frame |
| RelayGen.CalleeCleanupRun | include/cyanide/hook_wrapper.hpp:199-241 | for stdcall, thiscall and fastcall, the relay code jumps to the relay function on its declared frame, with edx holding the hidden pointer if there is one, and returns to the caller with what the relay function leaves |
| RelayGen.CalleeCleanupRelay | include/cyanide/hook_wrapper.hpp:199-241 | for stdcall and thiscall, and for fastcall with the result in registers, the relay code forwards every call |
| RelayGen.FastcallHiddenClobbersEdx | include/cyanide/hook_wrapper.hpp:199-214 | for fastcall with a hidden result pointer, the relay function is entered with that pointer in edx, so a caller's second register argument that differs from it is lost and the call is not forwarded |
| RelayGen.CdeclDataPushesHook | include/cyanide/hook_wrapper.hpp:189-214 | before its call, the cdecl relay code has pushed the hook pointer above the caller's return address (and the hidden pointer above both) |
| RelayGen.CdeclAfterCall | include/cyanide/hook_wrapper.hpp:216-235 | after the relay function returns, the cdecl code returns to the caller with its stack as on entry minus the return address |
| RelayGen.ExecCdeclTail | include/cyanide/hook_wrapper.hpp:220-233 | the code between the cdecl call and `ret` leaves the return address on top of the caller's stack |
| RelayGen.CalleeSetup | include/cyanide/hook_wrapper.hpp:199-239 | on any stack, the callee-cleanup code before the jump puts the return address, the hidden pointer, the hook pointer and thiscall's `this` above the arguments |
| RelayGen.CdeclRun | include/cyanide/hook_wrapper.hpp:189-235 | whatever the relay function computes, the cdecl code enters it in the state `CdeclEntry` and returns to the caller as the cdecl convention requires |
| RelayGen.CdeclRelay | include/cyanide/hook_wrapper.hpp:189-235 | for cdecl, with or without a hidden pointer, the relay code forwards every call |
| RelayGen.RelayForwardsCall | include/cyanide/hook_wrapper.hpp:149-244 | for every convention and result type except fastcall with a hidden result pointer, the code `make_relay_jump` emits forwards the call: the relay function gets its declared frame and the hook's own address, and the caller gets the result and the stack its convention prescribes |
| RelayGen.FastcallHiddenSteps | include/cyanide/hook_wrapper.hpp:199-214 | the corrected fastcall code builds the relay function's frame with the hidden pointer and the hook's address and leaves ecx and edx alone |
| RelayGen.FastcallHiddenRelay | include/cyanide/hook_wrapper.hpp:199-241 | the corrected fastcall code with a hidden result pointer forwards every call, both register arguments included |
| RelayGen.RelayIntendedForwardsCall | include/cyanide/hook_wrapper.hpp:149-244 | with the fastcall case corrected, the relay code forwards the call for every convention and result type |
| RelayGen.RelayProgramNamesHook | include/cyanide/hook_wrapper.hpp:211 | relay code built for two different objects differs: it pushes the address of the object it was built for |
| RelayGen.ThunkProgramNamesHook | include/cyanide/memory/hook_frontend.hpp:152-171 | the same for the thunk |
| RelayGen.RelayToDeadHookStops | include/cyanide/detail/relay.hpp:16-25 | relay code built for an object that has no backend stops in the relay function on every call (the cases are `CdeclToDeadHookStops` and `CalleeToDeadHookStops`) |
| RelayGen.ThunkIsRelayWithoutHidden | include/cyanide/memory/hook_frontend.hpp:152-171 | the thunk is exactly the relay code for a result without a hidden pointer |
| RelayGen.ThunkForwardsCall | include/cyanide/detour.hpp:179-198 | for a result returned in registers, the thunk forwards every call |
| RelayGen.CdeclThunkView | include/detour.hpp:118-129 | the cdecl thunk enters its relay function with its own return address, then the hook pointer, above the caller's stack |
| RelayGen.CalleeThunkView | include/detour.hpp:115-133 | the other thunks jump to the relay function with the hook pointer right below the caller's return address |
| RelayGen.ThunkPutsHookInHiddenSlot | include/cyanide/memory/hook_frontend.hpp:152-171 | for a result that goes through a hidden pointer, the thunk puts the hook's address where the relay function reads that pointer |
| RelayGen.ThunkBreaksHiddenReturn | include/cyanide/memory/hook_frontend.hpp:152-171 | so for such a result the thunk does not forward the call |
| Backends.Backend.Install | include/cyanide/memory/hook_backend_interface.hpp:15 | `install(source, destination)` is recorded |
| Backends.Backend.Uninstall | include/cyanide/memory/hook_backend_interface.hpp:16 | `uninstall()` is recorded |
| Backends.Backend.GetTrampoline | include/cyanide/memory/hook_backend_interface.hpp:17 | `get_trampoline()` returns the backend's trampoline |
| Backends.SubHook.Install | include/cyanide/detour.hpp:122 | `Install` is recorded and reports the library's answer |
| Backends.SubHook.Remove | include/cyanide/detour.hpp:130 | `Remove` is recorded and reports the library's answer |
| CodeGen.MakeThunk | include/cyanide/memory/hook_frontend.hpp:117-174 | `make_thunk` leaves exactly the thunk in the buffer and returns the buffer's address |
| HookWrappers.HookWrapper.constructor | include/cyanide/hook_wrapper.hpp:47-59 | the convention and hidden flag come from the source type; a fresh backend and an empty buffer are created; there is no relay code yet, so `RelayCurrent` holds |
| HookWrappers.HookWrapper.MakeRelayJump | include/cyanide/hook_wrapper.hpp:149-244 | the buffer holds exactly the relay code for the convention, the hidden flag and this object's address |
| HookWrappers.EmitPrologue | include/cyanide/hook_wrapper.hpp:189-205 | the first part of the relay code is emitted |
| HookWrappers.EmitPushParams | include/cyanide/hook_wrapper.hpp:207-214 | the pushes are emitted |
| HookWrappers.EmitEpilogue | include/cyanide/hook_wrapper.hpp:216-241 | the call or jump part is emitted |
| HookWrappers.EmitCdeclTail | include/cyanide/hook_wrapper.hpp:220-233 | the cdecl code between the call and `ret` is emitted, with or without the hidden pointer |
| HookWrappers.HookWrapper.Install | include/cyanide/hook_wrapper.hpp:104-110 | the relay code is built only when there is none, at most once, and `(source, relay)` goes to the backend; afterwards the relay code is in the object's buffer and built for its address (`RelayCurrent`) whenever it was before or there was none |
| HookWrappers.HookWrapper.Uninstall | include/cyanide/hook_wrapper.hpp:112-115 | uninstall is forwarded to the backend |
| HookWrappers.HookWrapper.GetTrampoline | include/cyanide/hook_wrapper.hpp:117-120 | the backend's trampoline is returned |
| HookWrappers.HookWrapper.Destroy | include/cyanide/hook_wrapper.hpp:61-64 | the destructor always uninstalls through the backend, which must exist |
| HookWrappers.HookWrapper.Move | include/cyanide/hook_wrapper.hpp:69-75 | every member is taken; the source keeps no source, relay, backend or buffer; moved relay code still pushes the moved-from object's address, so `RelayCurrent` no longer holds |
| HookWrappers.MovedHookRelaysToMovedFrom | include/cyanide/hook_wrapper.hpp:69-75 | after installing a hook and moving it, the new object's relay code pushes the moved-from object, which has no backend |
| HookWrappers.HookWrapper.RefreshRelay | include/cyanide/hook_wrapper.hpp:149-244 | rebuilding the relay code an object holds in the buffer it owns makes it current |
| HookWrappers.HookWrapper.MoveIntended | include/cyanide/hook_wrapper.hpp:69-75 | a move that rebuilds moved relay code leaves it current for the new object |
| HookWrappers.MovedHookRelaysToItself | include/cyanide/hook_wrapper.hpp:69-75 | with that move, the new object's relay code pushes the new object |
| HookWrappers.HookWrapper.Swap | include/cyanide/hook_wrapper.hpp:93-102 | source, callback, backend and buffer are exchanged; the relay code pointer is not |
| HookWrappers.HookWrapper.MoveAssign | include/cyanide/hook_wrapper.hpp:77-91 | the target takes `other`'s members but keeps its own relay code pointer; `other` is emptied; the target's old backend is uninstalled |
| HookWrappers.MoveAssignKeepsStaleRelay | include/cyanide/hook_wrapper.hpp:98 | move-assigning over an installed hook leaves it holding relay code outside the buffer it owns |
| HookWrappers.HookWrapper.SwapIntended | include/cyanide/hook_wrapper.hpp:93-102 | with the relay code pointer exchanged too, each object's relay code stays in the buffer it owns and is rebuilt for its own address |
| HookWrappers.HookWrapper.MoveAssignIntended | include/cyanide/hook_wrapper.hpp:77-91 | with the intended move and swap, the target ends up with `other`'s buffer, holding relay code built for the target |
| HookWrappers.MovedFromHookHasNoBackend | include/cyanide/hook_wrapper.hpp:61-75 | after a move the source object has no backend for its destructor to call |
| HookWrappers.HookWrapper.DestroyGuarded | include/cyanide/memory/hook_frontend.hpp:44-48 | a destructor that checks for a backend uninstalls only when there is one |
| HookWrappers.MovedFromHookDestroysQuietly | include/cyanide/hook_wrapper.hpp:61-75 | with the guarded destructor, destroying a moved-from hook leaves the moved backend untouched |
| Frontends.DetourFrontend.constructor | include/cyanide/memory/hook_frontend.hpp:27-42 | the backend pointer is kept, an empty buffer is created, there is no thunk yet, so `ThunkCurrent` holds |
| Frontends.DetourFrontend.Destroy | include/cyanide/memory/hook_frontend.hpp:44-48 | the destructor uninstalls only when there is a backend |
| Frontends.DetourFrontend.Move | include/cyanide/memory/hook_frontend.hpp:53-59 | all five members are taken; the source is left with no backend, source, buffer or thunk; a moved thunk still pushes the moved-from object's address, so `ThunkCurrent` no longer holds |
| Frontends.DetourFrontend.MoveIntended | include/cyanide/memory/hook_frontend.hpp:53-59 | a move that rebuilds a moved thunk leaves it current for the new object |
| Frontends.MovedFrontendThunksToMovedFrom | include/cyanide/memory/hook_frontend.hpp:53-59 | after installing a frontend and moving it, the new object's thunk pushes the moved-from object, which has no backend |
| Frontends.DetourFrontend.Swap | include/cyanide/memory/hook_frontend.hpp:77-86 | all five members are exchanged, and each thunk stays with its buffer |
| Frontends.DetourFrontend.MoveAssign | include/cyanide/memory/hook_frontend.hpp:61-75 | the target takes `other`'s members, `other` is emptied, the target's old backend (if any) is uninstalled; self-assignment changes nothing; a thunk `other` held still pushes `other`'s address |
| Frontends.DetourFrontend.Install | include/cyanide/memory/hook_frontend.hpp:88-94 | the thunk is built only when there is none, and `(source, thunk)` goes to the backend; afterwards `ThunkCurrent` holds whenever it did before or there was no thunk |
| Frontends.DetourFrontend.Uninstall | include/cyanide/memory/hook_frontend.hpp:96-99 | uninstall is forwarded to the backend |
| Detours.Detour.constructor | include/cyanide/detour.hpp:106-115 | only annotated function pointers build; there is no thunk yet |
| Detours.Detour.Install | include/cyanide/detour.hpp:117-126 | the thunk is built at most once (it stays built after a refusal); a failed `Install` throws `runtime_error` |
| Detours.Detour.Uninstall | include/cyanide/detour.hpp:128-134 | a failed `Remove` throws `runtime_error` |
| LegacyDetours.LegacyDetour.constructor | include/detour.hpp:79-84 | any annotated function pointer constructs; there is no thunk yet |
| LegacyDetours.LegacyDetour.Install | include/detour.hpp:86-92 | only cdecl, stdcall and thiscall pointers have a thunk wrapper; the thunk is built at most once and `Install` is called whatever it reports |
| LegacyDetours.LegacyDetour.Uninstall | include/detour.hpp:93-96 | `Remove` is called whatever it reports |
| Memory.Overwrite | include/cyanide/patch.hpp:132 | a copy of `n` bytes changes exactly the range it writes |
| Memory.SetRange | src/memory_protection.cpp:37 | a protection change sets exactly the requested range and keeps the mapped addresses |
| Memory.AddressSpace.VirtualProtect | src/memory_protection.cpp:37-44 | it fails and changes nothing when part of the range is unmapped; otherwise it reports the first address's old flag and sets the range |
| Memory.AddressSpace.Read | include/cyanide/patch.hpp:126-129 | `copy_n` yields the `n` bytes at the address |
| Memory.AddressSpace.Write | include/cyanide/patch.hpp:132 | `memcpy` overwrites exactly the range |
| Memory.OverwriteRoundTrip | include/cyanide/patch.hpp:126-147 | writing back the saved bytes restores the memory image |
| Memory.RestoreIffUniform | src/memory_protection.cpp:37-59 | reapplying the first address's old flag restores the protection map exactly when the range had a single flag |
| Protection.PageFlags | src/memory_protection.cpp:26-35 | `read_write` requests `PAGE_READWRITE` (0x04), `read_write_execute` requests `PAGE_EXECUTE_READWRITE` (0x40) |
| Protection.AcquireRelease | src/memory_protection.cpp:37-59 | a guard taken and released leaves the range with its first address's old flag and everything else as it was |
| Protection.MemoryProtection.Acquire | src/memory_protection.cpp:16-47 | on success the guard records the old flag and the range has the requested flag; on failure `runtime_error` is thrown and nothing changes |
| Protection.MemoryProtection.Destroy | src/memory_protection.cpp:49-60 | a moved-from guard does nothing; otherwise the recorded flag is reapplied to the range, and a failure is ignored |
| Protection.MemoryProtection.Move | src/memory_protection.cpp:62-66 | all three fields are taken and the source is reset to (null, 0, 0) |
| Protection.MemoryProtection.Swap | src/memory_protection.cpp:79-86 | exactly the three fields are exchanged |
| Protection.MemoryProtection.MoveAssign | src/memory_protection.cpp:68-77 | the target takes `other`'s fields and the range it held before gets its old flag back |
| Protection.GuardRestoresUniformRange | src/memory_protection.cpp:37-59 | a guard restores every flag exactly when the range had a single protection |
| Patches.Saved | include/cyanide/patch.hpp:114-129 | the saved container holds the replaced bytes first; a fixed array is zero-padded |
| Patches.Patch.Create | include/cyanide/patch.hpp:96-133 | with a guard, failing to take it throws before any byte is read or written; otherwise the replaced bytes are saved, the patch bytes are written, nothing else changes, and the guard is released |
| Patches.Patch.Destroy | include/cyanide/patch.hpp:135-148 | the saved bytes are written back inside a guard if requested; a failing guard terminates |
| Patches.Patch.Move | include/cyanide/patch.hpp:150-155 | the source gets a null address and no guard; a vector source is emptied, a fixed array keeps its bytes |
| Patches.Patch.Swap | include/cyanide/patch.hpp:168-176 | exactly address, saved bytes and flag are exchanged |
| Patches.Patch.MoveAssign | include/cyanide/patch.hpp:157-166 | the target takes `other`'s patch and the patch it held before is reverted: its bytes are written back and, with `unprotect`, its range gets its first address's old flag back; a failing guard terminates with nothing changed |
| Patches.MakeStaticPatch | include/cyanide/patch.hpp:78-90 | at least one byte; on success a valid patch at `address` with the default `unprotect`, a fixed array of exactly that many saved bytes holding exactly the replaced bytes, and the range's protection acquired and released; an unmapped range throws `runtime_error` and changes nothing |
| Patches.ExactFixedSavesReplaced | include/cyanide/patch.hpp:118-129 | a fixed array holds exactly the replaced bytes iff it has their length; a vector always does |
| Patches.ScopedPatch | include/cyanide/patch.hpp:96-148 | a patch created and then destroyed restores every byte; its destructor cannot fail then; protection is restored unless the guarded range was mixed |
| Patches.MoveLeavesStaticPatchAtNull | include/cyanide/patch.hpp:147-155 | a moved-from fixed-array patch keeps its bytes at a null address, so the destructor as written cannot run on it |
| Patches.Patch.DestroyIntended | src/memory_protection.cpp:51-53 | with the null check the guard has, a moved-from patch restores nothing; any other patch is restored, bytes and protection, as by the destructor |
| Scanning.FirstMatchFrom | src/memory/signature_scanner_win.cpp:46-65 | the leftmost start at or after `from` where the pattern fits and every non-wildcard byte matches, or none exactly when no such start exists |
| Scanning.ScanResult | src/memory/signature_scanner_win.cpp:34-68 | `logic_error` exactly on a length mismatch; otherwise a non-null result lies in the image, matches there, has no match before it, and null means no start matches |
| Scanning.SignatureScanner.Scan | src/memory/signature_scanner_win.cpp:34-68 | the nested loops compute `ScanResult` and change nothing |
| Scanning.ScanIgnoresOffset | src/memory/signature_scanner_win.cpp:64 | the signature's offset never changes the result |

## Left out

- Instruction encodings, the executable buffer's allocation and `getCode()`'s memory are not modelled. Instructions are abstract, and the buffer is a fixed non-null address holding the instructions emitted.
- Relay functions:
  - Every argument, and the result, is one 32-bit word. Struct layout and wider arguments are not modelled.
  - How a relay function pops its frame and where it leaves its result are taken as given, as the convention the C++ compiler applies.
  - Fastcall's register arguments are only checked to reach the relay function in ecx and edx, unchanged except for a hidden result pointer (see Findings). Their register-to-parameter mapping is not modelled.
  - A caller's hidden result pointer is placed on the stack under the return address for every convention, as `make_relay_jump` expects. Compilers that pass a fastcall hidden pointer in ecx instead (MSVC-compatible ones) are not modelled.
- Backends:
  - subhook, PolyHook and user backends are stand-ins that record calls.
  - `subhook::Hook`'s answers are the constants `installOk` and `removeOk`. They do not depend on its history.
  - `SubhookDetourBackend` and `polyhook_implementation` are not part of this model.
- Memory and protection:
  - Protection is per address, not per page.
  - Writes do not consult protection.
  - `VirtualQuery`, the PE header read in the scanner's constructor and `safe_pun` are not part of this model. The scanner is given its image directly.
- Integer widths: addresses are unbounded naturals. 32-bit pointer wrap-around in `base + size` is not modelled.
- Concurrency: threads calling a hooked function while it is installed or uninstalled are not modelled.
- Patches.Patch.MoveAssign requires `other != this` and a matching storage type. Self-move-assignment is not modelled.
- HookWrappers.HookWrapper.MoveAssign requires `other != this`. As written, a self-move-assignment destroys a temporary without a backend.
- HookWrappers.HookWrapper.Swap models line 98 as leaving `relay_jump_` alone. The line names `relay_`, which is not a member, so as written any use of move assignment fails to build; the model reads the line as a no-op.
- RelayGen.RelayForwardsCall and RelayGen.CalleeCleanupRelay exclude a fastcall source with a hidden result pointer, for which the code as written loses edx (`FastcallHiddenClobbersEdx`); `RelayIntendedForwardsCall` covers every case for the corrected code.
- HookWrappers.HookWrapper.SwapIntended requires that two distinct objects do not share a buffer, which `std::unique_ptr` ownership guarantees.
- LegacyDetours.LegacyDetour.Install requires a non-fastcall source: there is no fastcall `thunk_wrapper`, so that `install` does not build.
- The test files and the demo program are not part of this model.

## Findings

| source | as written | input that shows it | evidently intended | confidence | as-written member | corrected member |
|---|---|---|---|---|---|---|
| include/cyanide/memory/hook_frontend.hpp:152-171 (also include/cyanide/detour.hpp:179-198, include/detour.hpp:115-134) | `make_thunk` ignores hidden result pointers | any source whose result is larger than 8 bytes: the relay function reads the hook object as the caller's result buffer | handle the hidden pointer as `make_relay_jump` does | medium, not executed | RelayGen.ThunkBreaksHiddenReturn | RelayGen.RelayIntendedForwardsCall |
| include/cyanide/hook_wrapper.hpp:98 | `swap` names `relay_`, which is not a member, so move assignment does not build; read as a no-op, the line never exchanges `relay_jump_` | with the line read as a no-op: install a hook, then move-assign another hook over it; the target's relay pointer points into the buffer the destroyed temporary took | `swap(lhs.relay_jump_, rhs.relay_jump_)` | medium, not executed | HookWrappers.MoveAssignKeepsStaleRelay | HookWrappers.HookWrapper.MoveAssignIntended |
| include/cyanide/hook_wrapper.hpp:61-64 | the destructor calls `hook_impl_->uninstall()` unconditionally | destroy a moved-from `hook_wrapper`: `hook_impl_` is null | check `hook_impl_` first, as `DetourFrontend` checks `backend_` | high, not executed | HookWrappers.MovedFromHookHasNoBackend | HookWrappers.MovedFromHookDestroysQuietly |
| include/cyanide/patch.hpp:147-155 | the destructor copies the saved bytes whatever the address | destroy a moved-from `make_static_patch` result: `N` bytes go to address 0 | skip a moved-from patch, as `memory_protection` does | medium, not executed | Patches.MoveLeavesStaticPatchAtNull | Patches.Patch.DestroyIntended |
| include/cyanide/hook_wrapper.hpp:199-214 | for a fastcall source with a hidden result pointer, `pop edx` takes the hidden pointer into edx and `push edx` leaves it there | call a fastcall hook whose result is wider than 8 bytes with a second register argument different from the result buffer's address: the relay function reads the buffer's address as that argument | place the hook's address without using edx | medium, not executed | RelayGen.FastcallHiddenClobbersEdx | RelayGen.RelayIntendedForwardsCall |
| include/cyanide/hook_wrapper.hpp:69-75 | move construction takes the buffer, whose relay code pushes the moved-from object | install a hook, move-construct another from it, call the hooked function: the relay function reads `hook_impl_` of the moved-from object, which is null | rebuild the relay code for the new object | high, not executed | HookWrappers.MovedHookRelaysToMovedFrom | HookWrappers.HookWrapper.MoveIntended |
| include/cyanide/memory/hook_frontend.hpp:53-59 | move construction takes the buffer, whose thunk pushes the moved-from object | install a frontend, move-construct another from it, call the hooked function: the relay function reads the moved-from object, which has no backend | rebuild the thunk for the new object | high, not executed | Frontends.MovedFrontendThunksToMovedFrom | Frontends.DetourFrontend.MoveIntended |
