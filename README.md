# rmem allocation-interception shim, modelled in Dafny

This project models `inc/rmem_entry.h` of rmem, the MTuner SDK header that wraps the C allocator so that each allocation can be reported to the MTuner recorder. The header has three parts:

- **Overhead arithmetic.** `mallocGetOverhead` returns the allocator's usable size of a block minus the requested size. The subtraction is done in `size_t`, modelled at the width of a 64-bit target, and the result is returned as `uint32_t` (module `Accounting`, with the machine arithmetic in `Sizes`).
- **Wrapped entry points.** `__wrap_malloc`, `__wrap_realloc`, `__wrap_calloc`, `__wrap_free`, `__wrap__expand`, `__wrap_memalign` and `__wrap_reallocalign` are bound by the linker's `--wrap`. Each one calls the real primitive once, reports one event on heap 0 and returns the real result untouched. `free(NULL)` does nothing, and any other `free` reports before it frees.
  - Module `Interception` models the wrappers as methods of class `Shim`. The class state is a trace that records, in order, each call that reached the real allocator and each event that reached the recorder.
  - Module `Recording` gives the same behaviour as values: the steps of one wrapped call (`Wrap`) and of a whole session (`Run`). It proves what the recorder and the allocator see.
  - The class invariant `Shim.Valid()` ties the object to `Run`.
- **Platform selector and lifecycle wiring.** This is the build-time table (module `Selector`). It decides:
  - which `RMEM_NO_*` flags a GNU build defines per platform;
  - which wrapper groups those flags switch off;
  - whether recording starts from priority constructor/destructor functions or from a wrapper around `_malloc_init`;
  - what `RMEM_ENTRY_CONSOLE` and `RMEM_ENTRY_WINDOWED` expand to, per compiler and platform.

The foreign allocator is a value of type `RealAllocator`. It holds two total functions that the model leaves unconstrained:
- `respond` gives the answer to a call;
- `usableSize` is the `malloc_usable_size` / `_msize` / `dlmalloc_usable_size` query.

Both may depend on every call the allocator has received before. Nothing else is assumed about the allocator.

Three properties of the code are worth stating up front:
- `mallocGetOverhead` does not clamp a usable size below the request to 0. The difference wraps in `size_t` and is then truncated to 32 bits (`Accounting.MallocGetOverhead`, `Accounting.OverheadZeroOnlyWhenCongruent`).
- The non-GNU Windows entry hooks the allocator and starts the CRT, and never unhooks (`Selector.EntryFunctionOrder`).
- `inc/rmem_entry.h:55-58` defines `RMEM_NO_EXPAND` for PS3 as well as PS4. Only a GNU build for Xbox 360, or for a platform the table does not name, wraps all seven primitives (`Selector.WrappedPerPlatform`).

A wrapper hands back what the real allocator returns for the calls it has actually received. Those are the program's calls minus every `free(NULL)`. It is the result the allocator would give the program directly whenever `free(NULL)` has no effect on the allocator, as the C standard requires (`Recording.PassThrough`).

## Model

| member | source | states |
|---|---|---|
| `Sizes.SizeSub` | inc/rmem_entry.h:83-84 | `size_t` subtraction is the exact difference when the minuend is not smaller, and otherwise wraps to 2^64 plus the difference |
| `Sizes.SizeMul` | inc/rmem_entry.h:161 | the `size_t` product `numElements*elementSize` is exact when it fits in 64 bits and is always congruent to the true product modulo 2^64 |
| `Sizes.TruncateToUint32` | inc/rmem_entry.h:81-84 | returning a `size_t` as `uint32_t` keeps values below 2^32 and is congruent to the input modulo 2^32 |
| `Accounting.MallocGetOverhead` | inc/rmem_entry.h:81-85 | the overhead is `usable - requested` when that difference lies in [0, 2^32); a usable size short of the request by less than 2^32 gives `2^32 + usable - requested`, not 0, and one short by exactly 2^32 gives 0; in every case the result is congruent to `usable - requested` modulo 2^32 |
| `Accounting.OverheadZeroOnlyWhenCongruent` | inc/rmem_entry.h:81-85 | the overhead is 0 if and only if usable and requested size agree modulo 2^32, so nothing is clamped to 0 |
| `Accounting.OverheadIsResidue` | inc/rmem_entry.h:81-85 | the overhead is the residue of the mathematical difference `usable - requested` modulo 2^32, so the 2^64 wrap of the `size_t` subtraction does not show in it |
| `Accounting.OverheadExample` | inc/rmem_entry.h:81-85 | usable 112 against a 100-byte request gives 12; against 113 it gives 2^32 - 1 |
| `Recording.ReportedEvent` | inc/rmem_entry.h:142-216 | every event is on heap 0; allocating wrappers report the real result as the address and compute the overhead against the reported size; calloc reports the `size_t` product; realloc, `_expand` and reallocalign report realloc-kind events whose previous address is the input pointer; memalign and reallocalign carry the caller's alignment; free reports the freed pointer |
| `Recording.Wrap` | inc/rmem_entry.h:166-174 | a wrapped call performs no step at all exactly when it is `free(NULL)` |
| `Recording.WrapForwardsAndReportsOnce` | inc/rmem_entry.h:142-216 | each wrapped call other than `free(NULL)` passes its own arguments to the real primitive exactly once and reports exactly one event, on heap 0; `free(NULL)` does neither |
| `Recording.WrapOrder` | inc/rmem_entry.h:142-174 | allocating wrappers call the real primitive first and then report its result; `free` of a non-null pointer reports `{heap 0, pointer}` before the real free |
| `Recording.RunForwardsExactly` | inc/rmem_entry.h:139-220 | over a whole session the real allocator receives exactly the program's calls, in order, minus `free(NULL)` |
| `Recording.PassThrough` | inc/rmem_entry.h:139-220 | for an allocator on which `free(NULL)` has no effect, each wrapped call after any session gets back the result the allocator gives after receiving every call of the program itself, and performs the same steps as if no `free(NULL)` had been absorbed |
| `Recording.PassThroughNeedsNullFreeIsNoOp` | inc/rmem_entry.h:166-170 | an allocator that answers 0 before its first call and 1 afterwards answers `malloc(1)` after `free(NULL)` with 0 through the wrappers and 1 on its own, so the condition of `PassThrough` cannot be dropped |
| `Recording.RunReportsEachForwardedCall` | inc/rmem_entry.h:139-220 | over a whole session the recorder receives one event per forwarded call, in the same order; the i-th event is built from the real result of the i-th forwarded call |
| `Recording.RunEventsWellFormed` | inc/rmem_entry.h:139-220 | every event of a session is on heap 0, and no event frees the null pointer |
| `Recording.ScenarioShape` | inc/rmem_entry.h:141-174 | any session of two allocating calls, a free of a non-null pointer and `free(NULL)` makes exactly the first three calls on the real allocator and reports exactly three events, each built from the history before its call |
| `Recording.MallocReallocFreeScenario` | inc/rmem_entry.h:142-174 | malloc(100) at 0x1000 (usable 112), realloc to 200 at 0x2000 (usable 208), free, free(NULL) yields exactly the events {0x1000, 100, 12}, {0x2000, 200, 8, previous 0x1000}, {free 0x2000} and three real calls |
| `Recording.CallocSizeWraps` | inc/rmem_entry.h:161-162 | a `calloc` of 2^32 elements of 2^32 bytes is reported with size 0, and one of 2^32 + 1 elements with size 2^32 |
| `Selector.GroupEmittedIffFlagUnset` | inc/rmem_entry.h:177-220 | `RMEM_GCC_ENTRY_WRAP_1` is always emitted; wrap groups 2, 3 and 4 are emitted exactly when `RMEM_NO_EXPAND`, `RMEM_NO_MEMALIGN` and `RMEM_NO_REALLOCALIGN` respectively are not defined |
| `Selector.GccWrappedFollowsFlags` | inc/rmem_entry.h:238-252 | on GNU targets other than Windows, malloc, realloc, calloc and free are always wrapped, and each of `_expand`, memalign and reallocalign is wrapped exactly when its platform flag is unset |
| `Selector.WrappedPerPlatform` | inc/rmem_entry.h:33-254 | Linux wraps only malloc/realloc/calloc/free; Android adds memalign; PS3 and PS4 wrap everything except `_expand`; Xbox 360 under GCC wraps all seven; GCC on Windows and non-GNU compilers wrap nothing at link time |
| `Selector.GccInitFollowsFlag` | inc/rmem_entry.h:88-137 | a GNU build uses the priority constructor/destructor pair exactly when `RMEM_NO_MALLOC_INIT` is defined, which is on Windows, Linux, PS4 and Android |
| `Selector.UnsupportedExactly` | inc/rmem_entry.h:228-309 | the entry macros stop the build with "Unsupported compiler!" exactly for a non-GNU compiler on a platform other than Windows and Xbox 360; GNU builds always expand to the init code plus the wrappers |
| `Selector.MallocInitOrder` | inc/rmem_entry.h:125-137 | the `_malloc_init` wrapper runs `rmemInit(0)`, then registers `rmemShutDown` with `atexit`, then calls the real `_malloc_init`, and nothing else |
| `Selector.PriorityHooksPaired` | inc/rmem_entry.h:88-123 | constructor(101) hooks allocations and destructor(1001) unhooks them on Windows; elsewhere they run `rmemInit(0)` and `rmemShutDown()` |
| `Selector.EntryFunctionOrder` | inc/rmem_entry.h:256-303 | a replacement entry exists only for non-GNU Windows and Xbox 360; it hooks allocations before starting the CRT (mainCRTStartup for console programs, WinMainCRTStartup for windowed ones on Windows); on Xbox 360 it registers the unhook with `atexit` after the CRT start; on Windows it never unhooks |
| `Interception.Shim.constructor` | inc/rmem_entry.h:228-254 | a fresh shim has an empty trace and exactly the wrappers the build's entry macro defines |
| `Interception.Shim.CallReal` | inc/rmem_entry.h:144 | a `__real_*` call appends one call to the trace and returns the allocator's answer given the calls it received before |
| `Interception.Shim.Record` | inc/rmem_entry.h:145 | a report appends one event to the trace and reaches the allocator with nothing |
| `Interception.Shim.WrapMalloc` | inc/rmem_entry.h:141-147 | `__wrap_malloc` returns the real result and appends exactly the real call and then `{heap 0, result, size, overhead(result, size)}`; the invariant `Valid()` is kept; when `free(NULL)` has no effect on the allocator, the result is the allocator's answer after all of the program's earlier calls; the recorder's log `Events()` grows by exactly the reported event |
| `Interception.Shim.WrapRealloc` | inc/rmem_entry.h:149-155 | `__wrap_realloc` returns the real result and appends the real call and then a realloc event whose previous address is the input pointer; when `free(NULL)` has no effect on the allocator, the result is the allocator's answer after all of the program's earlier calls; the recorder's log `Events()` grows by exactly the reported event |
| `Interception.Shim.WrapCalloc` | inc/rmem_entry.h:157-164 | `__wrap_calloc` returns the real result and reports the `size_t` product as the size, with the overhead computed against that product; when `free(NULL)` has no effect on the allocator, the result is the allocator's answer after all of the program's earlier calls; the recorder's log `Events()` grows by exactly the reported event |
| `Interception.Shim.WrapFree` | inc/rmem_entry.h:166-174 | `__wrap_free(NULL)` leaves the trace unchanged; any other pointer appends `{heap 0, pointer}` and then the real free; the recorder's log `Events()` grows by exactly the reported event |
| `Interception.Shim.WrapExpand` | inc/rmem_entry.h:180-186 | `__wrap__expand` returns the real result and is reported as a realloc event of the input pointer; when `free(NULL)` has no effect on the allocator, the result is the allocator's answer after all of the program's earlier calls; the recorder's log `Events()` grows by exactly the reported event |
| `Interception.Shim.WrapMemalign` | inc/rmem_entry.h:195-201 | `__wrap_memalign` returns the real result and reports an aligned allocation carrying the caller's alignment; when `free(NULL)` has no effect on the allocator, the result is the allocator's answer after all of the program's earlier calls; the recorder's log `Events()` grows by exactly the reported event |
| `Interception.Shim.WrapReallocAlign` | inc/rmem_entry.h:210-216 | `__wrap_reallocalign` returns the real result and reports an aligned realloc carrying the input pointer and the caller's alignment; when `free(NULL)` has no effect on the allocator, the result is the allocator's answer after all of the program's earlier calls; the recorder's log `Events()` grows by exactly the reported event |

## Left out

- The recording subsystem (`rmemAlloc`, `rmemRealloc`, `rmemFree`, `rmemInit`, `rmemShutDown`, `rmemHookAllocs`, `rmemUnhookAllocs`) is declared in `rmem.h`, which is not part of this model. A report is modelled as an appended event and a lifecycle call as an action in a list. The model assumes the report functions take the size and alignment as full `size_t` values and the address as a pointer; `Recording.CallocSizeWraps`' size 2^32 rests on that. It also assumes the heap argument is the `0` the wrappers pass. The argument of `rmemInit(0)` is kept as a plain number, because its meaning is not part of this model.
- The process-wide installed/uninstalled interception state lives in the runtime hooking of `rmemHookAllocs`, which is not part of this model. The only trace of it here is which wrappers a build defines.
- The real allocator is abstract: `malloc`, `_msize`, `malloc_usable_size` and `dlmalloc_usable_size` are the unconstrained functions of `RealAllocator`.
- Linker `--wrap` binding, constructor/destructor priorities, `atexit` scheduling and the CRT entry points are process-startup machinery. They appear only as the order of actions in a list. The model does not say when the registered handlers run.
- `__wrap__malloc_init` is modelled as its action list (`Selector.MallocInitOrder`), not as a method of `Shim`. It reports no event, and its result passes through untouched in the source.
- Thread safety and cross-thread ordering are not modelled. The code has none of its own, and each wrapper is a sequential procedure here.
- Platform headers and the `extern "C"` linkage macros have no behaviour.
- Interception.Shim.Valid: the model assumes the program calls the allocator only through wrappers the build defines (`Valid()` and each `Wrap*` method's requires). In the source a primitive whose wrapper is switched off is still callable. On Linux, for example, `memalign`, `reallocalign` and `_expand` are not wrapped (`inc/rmem_entry.h:49-51`, `189`, `204`, `219`). Such a call reaches the real allocator directly and reports nothing. The model therefore does not show those direct calls in the allocator's history, nor the later `__wrap_free` that reports an address never reported as allocated (`inc/rmem_entry.h:172`). `Recording.RunReportsEachForwardedCall` covers wrapped calls only.
- Sizes.SizeMul: `size_t` and pointers are modelled 64 bits wide. On the 32-bit targets the selector also covers (Xbox 360, PS3, 32-bit Android and MinGW), the calloc product at `inc/rmem_entry.h:161` wraps modulo 2^32 instead. There `calloc(0x10000, 0x10000)` is reported with size 0, where the model reports 2^32. The overhead does not depend on the width (`Accounting.OverheadIsResidue`).
