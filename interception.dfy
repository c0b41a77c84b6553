/**
 * The wrapped entry points as straight-line procedures. A `Shim` holds the
 * foreign allocator, the set of primitives whose wrappers the build defines,
 * and the trace of everything the wrappers have done so far: each call that
 * reached the real allocator and each event handed to the recorder, in the
 * order they happened. Each `Wrap*` method mirrors one `__wrap_*` function:
 * it calls the real primitive, reports one event on heap 0 and returns the
 * real result untouched; `WrapFree` returns early on a null pointer and
 * otherwise reports before it frees.
 */
module Interception {
  import opened Sizes
  import opened Accounting
  import opened Recording
  import opened Selector

  class Shim {
    /** The real allocator the `__real_*` symbols reach. */
    const allocator: RealAllocator
    /** The primitives whose `__wrap_*` functions exist in this build. */
    const wrapped: set<Primitive>
    /** Calls that reached the real allocator and events that reached the recorder, in order. */
    var trace: seq<Step>
    /** The calls the program made to the wrappers, in order. */
    ghost var calls: seq<RealCall>

    /**
     * The trace is exactly what the wrappers do for the program's calls,
     * and the program only ever called wrappers that exist.
     */
    ghost predicate Valid()
      reads this
    {
      && trace == Run(allocator, calls)
      && forall c <- calls :: PrimitiveOf(c) in wrapped
    }

    /** The events the recorder has received. */
    function Events(): seq<Event>
      reads this
    {
      Log(trace)
    }

    /** The calls the real allocator has received. */
    function RealCalls(): seq<RealCall>
      reads this
    {
      History(trace)
    }

    /** The shim as a build for compiler `c`, platform `p` and program kind `kind` links it, before any call. */
    constructor (allocator: RealAllocator, c: Compiler, p: Platform, kind: AppKind)
      ensures Valid()
      ensures this.allocator == allocator && wrapped == WrappedPrimitives(c, p, kind)
      ensures trace == [] && calls == []
    {
      this.allocator := allocator;
      wrapped := WrappedPrimitives(c, p, kind);
      trace := [];
      calls := [];
    }

    /**
     * A `__real_*` call: the allocator answers from the calls it has received
     * so far. It is one step inside a wrapper and on its own does not keep
     * `Valid()`; only the `Wrap*` methods call it.
     */
    method CallReal(c: RealCall) returns (result: Ptr)
      modifies this`trace
      ensures result == allocator.respond(old(RealCalls()), c)
      ensures trace == old(trace) + [Call(c)]
      ensures RealCalls() == old(RealCalls()) + [c]
      ensures Events() == old(Events())
    {
      result := allocator.respond(History(trace), c);
      HistoryConcat(trace, [Call(c)]);
      LogConcat(trace, [Call(c)]);
      trace := trace + [Call(c)];
    }

    /**
     * A report to the recorder (`rmemAlloc`, `rmemRealloc`, `rmemFree`, ...).
     * It is one step inside a wrapper and on its own does not keep `Valid()`;
     * only the `Wrap*` methods call it.
     */
    method Record(e: Event)
      modifies this`trace
      ensures trace == old(trace) + [Report(e)]
      ensures RealCalls() == old(RealCalls())
      ensures Events() == old(Events()) + [e]
    {
      HistoryConcat(trace, [Report(e)]);
      LogConcat(trace, [Report(e)]);
      trace := trace + [Report(e)];
    }

    /**
     * Records that the program's call `c` has been carried out, once the
     * trace has grown by exactly the wrapper's steps for it.
     */
    ghost method Complete(c: RealCall)
      requires forall c' <- calls :: PrimitiveOf(c') in wrapped
      requires PrimitiveOf(c) in wrapped
      requires trace == Run(allocator, calls) + Wrap(allocator, History(Run(allocator, calls)), c)
      modifies this`calls
      ensures Valid() && calls == old(calls) + [c]
    {
      RunSnoc(allocator, calls, c);
      calls := calls + [c];
    }

    /** `__wrap_malloc`. */
    method WrapMalloc(size: SizeT) returns (result: Ptr)
      requires Valid() && Malloc in wrapped
      modifies this
      ensures Valid() && calls == old(calls) + [RealMalloc(size)]
      ensures result == allocator.respond(old(RealCalls()), RealMalloc(size))
      ensures NullFreeIsNoOp(allocator) ==> result == allocator.respond(old(calls), RealMalloc(size))
      ensures Events() == old(Events()) + [
        Allocated(DEFAULT_HEAP, result, size,
          MallocGetOverhead(allocator.usableSize(old(RealCalls()) + [RealMalloc(size)]), result, size))]
      ensures trace == old(trace) + [
        Call(RealMalloc(size)),
        Report(Allocated(DEFAULT_HEAP, result, size,
          MallocGetOverhead(allocator.usableSize(old(RealCalls()) + [RealMalloc(size)]), result, size)))]
    {
      var c := RealMalloc(size);
      ghost var before := RealCalls();
      if NullFreeIsNoOp(allocator) {
        PassThrough(allocator, calls, c);
      }
      result := CallReal(c);
      Record(Allocated(DEFAULT_HEAP, result, size, MallocGetOverhead(allocator.usableSize(RealCalls()), result, size)));
      assert trace == old(trace) + Wrap(allocator, before, c);
      Complete(c);
    }

    /** `__wrap_realloc`. */
    method WrapRealloc(ptr: Ptr, size: SizeT) returns (result: Ptr)
      requires Valid() && Realloc in wrapped
      modifies this
      ensures Valid() && calls == old(calls) + [RealRealloc(ptr, size)]
      ensures result == allocator.respond(old(RealCalls()), RealRealloc(ptr, size))
      ensures NullFreeIsNoOp(allocator) ==> result == allocator.respond(old(calls), RealRealloc(ptr, size))
      ensures Events() == old(Events()) + [
        Reallocated(DEFAULT_HEAP, result, size,
          MallocGetOverhead(allocator.usableSize(old(RealCalls()) + [RealRealloc(ptr, size)]), result, size), ptr)]
      ensures trace == old(trace) + [
        Call(RealRealloc(ptr, size)),
        Report(Reallocated(DEFAULT_HEAP, result, size,
          MallocGetOverhead(allocator.usableSize(old(RealCalls()) + [RealRealloc(ptr, size)]), result, size), ptr))]
    {
      var c := RealRealloc(ptr, size);
      ghost var before := RealCalls();
      if NullFreeIsNoOp(allocator) {
        PassThrough(allocator, calls, c);
      }
      result := CallReal(c);
      Record(Reallocated(DEFAULT_HEAP, result, size, MallocGetOverhead(allocator.usableSize(RealCalls()), result, size), ptr));
      assert trace == old(trace) + Wrap(allocator, before, c);
      Complete(c);
    }

    /** `__wrap_calloc`: the reported size is the `size_t` product of the two arguments. */
    method WrapCalloc(count: SizeT, elementSize: SizeT) returns (result: Ptr)
      requires Valid() && Calloc in wrapped
      modifies this
      ensures Valid() && calls == old(calls) + [RealCalloc(count, elementSize)]
      ensures result == allocator.respond(old(RealCalls()), RealCalloc(count, elementSize))
      ensures NullFreeIsNoOp(allocator) ==> result == allocator.respond(old(calls), RealCalloc(count, elementSize))
      ensures Events() == old(Events()) + [
        Allocated(DEFAULT_HEAP, result, SizeMul(count, elementSize),
          MallocGetOverhead(allocator.usableSize(old(RealCalls()) + [RealCalloc(count, elementSize)]), result,
            SizeMul(count, elementSize)))]
      ensures trace == old(trace) + [
        Call(RealCalloc(count, elementSize)),
        Report(Allocated(DEFAULT_HEAP, result, SizeMul(count, elementSize),
          MallocGetOverhead(allocator.usableSize(old(RealCalls()) + [RealCalloc(count, elementSize)]), result,
            SizeMul(count, elementSize))))]
    {
      var c := RealCalloc(count, elementSize);
      ghost var before := RealCalls();
      if NullFreeIsNoOp(allocator) {
        PassThrough(allocator, calls, c);
      }
      result := CallReal(c);
      var totalSize := SizeMul(count, elementSize);
      Record(Allocated(DEFAULT_HEAP, result, totalSize, MallocGetOverhead(allocator.usableSize(RealCalls()), result, totalSize)));
      assert trace == old(trace) + Wrap(allocator, before, c);
      Complete(c);
    }

    /** `__wrap_free`: nothing at all for a null pointer; otherwise the report comes before the real free. */
    method WrapFree(ptr: Ptr)
      requires Valid() && Free in wrapped
      modifies this
      ensures Valid() && calls == old(calls) + [RealFree(ptr)]
      ensures ptr == NULL ==> trace == old(trace)
      ensures ptr != NULL ==> trace == old(trace) + [Report(Freed(DEFAULT_HEAP, ptr)), Call(RealFree(ptr))]
      ensures ptr != NULL ==> Events() == old(Events()) + [Freed(DEFAULT_HEAP, ptr)]
    {
      var c := RealFree(ptr);
      if ptr == NULL {
        Complete(c);
        return;
      }
      ghost var before := RealCalls();
      Record(Freed(DEFAULT_HEAP, ptr));
      var _ := CallReal(c);
      assert trace == old(trace) + Wrap(allocator, before, c);
      Complete(c);
    }

    /** `__wrap__expand`: reported as a reallocation of `ptr`. */
    method WrapExpand(ptr: Ptr, size: SizeT) returns (result: Ptr)
      requires Valid() && Expand in wrapped
      modifies this
      ensures Valid() && calls == old(calls) + [RealExpand(ptr, size)]
      ensures result == allocator.respond(old(RealCalls()), RealExpand(ptr, size))
      ensures NullFreeIsNoOp(allocator) ==> result == allocator.respond(old(calls), RealExpand(ptr, size))
      ensures Events() == old(Events()) + [
        Reallocated(DEFAULT_HEAP, result, size,
          MallocGetOverhead(allocator.usableSize(old(RealCalls()) + [RealExpand(ptr, size)]), result, size), ptr)]
      ensures trace == old(trace) + [
        Call(RealExpand(ptr, size)),
        Report(Reallocated(DEFAULT_HEAP, result, size,
          MallocGetOverhead(allocator.usableSize(old(RealCalls()) + [RealExpand(ptr, size)]), result, size), ptr))]
    {
      var c := RealExpand(ptr, size);
      ghost var before := RealCalls();
      if NullFreeIsNoOp(allocator) {
        PassThrough(allocator, calls, c);
      }
      result := CallReal(c);
      Record(Reallocated(DEFAULT_HEAP, result, size, MallocGetOverhead(allocator.usableSize(RealCalls()), result, size), ptr));
      assert trace == old(trace) + Wrap(allocator, before, c);
      Complete(c);
    }

    /** `__wrap_memalign`. */
    method WrapMemalign(alignment: SizeT, size: SizeT) returns (result: Ptr)
      requires Valid() && Memalign in wrapped
      modifies this
      ensures Valid() && calls == old(calls) + [RealMemalign(alignment, size)]
      ensures result == allocator.respond(old(RealCalls()), RealMemalign(alignment, size))
      ensures NullFreeIsNoOp(allocator) ==> result == allocator.respond(old(calls), RealMemalign(alignment, size))
      ensures Events() == old(Events()) + [
        AllocatedAligned(DEFAULT_HEAP, result, size,
          MallocGetOverhead(allocator.usableSize(old(RealCalls()) + [RealMemalign(alignment, size)]), result, size),
          alignment)]
      ensures trace == old(trace) + [
        Call(RealMemalign(alignment, size)),
        Report(AllocatedAligned(DEFAULT_HEAP, result, size,
          MallocGetOverhead(allocator.usableSize(old(RealCalls()) + [RealMemalign(alignment, size)]), result, size),
          alignment))]
    {
      var c := RealMemalign(alignment, size);
      ghost var before := RealCalls();
      if NullFreeIsNoOp(allocator) {
        PassThrough(allocator, calls, c);
      }
      result := CallReal(c);
      Record(AllocatedAligned(DEFAULT_HEAP, result, size, MallocGetOverhead(allocator.usableSize(RealCalls()), result, size), alignment));
      assert trace == old(trace) + Wrap(allocator, before, c);
      Complete(c);
    }

    /** `__wrap_reallocalign`. */
    method WrapReallocAlign(ptr: Ptr, size: SizeT, alignment: SizeT) returns (result: Ptr)
      requires Valid() && ReallocAlign in wrapped
      modifies this
      ensures Valid() && calls == old(calls) + [RealReallocAlign(ptr, size, alignment)]
      ensures result == allocator.respond(old(RealCalls()), RealReallocAlign(ptr, size, alignment))
      ensures NullFreeIsNoOp(allocator) ==> result == allocator.respond(old(calls), RealReallocAlign(ptr, size, alignment))
      ensures Events() == old(Events()) + [
        ReallocatedAligned(DEFAULT_HEAP, result, size,
          MallocGetOverhead(allocator.usableSize(old(RealCalls()) + [RealReallocAlign(ptr, size, alignment)]), result, size),
          ptr, alignment)]
      ensures trace == old(trace) + [
        Call(RealReallocAlign(ptr, size, alignment)),
        Report(ReallocatedAligned(DEFAULT_HEAP, result, size,
          MallocGetOverhead(allocator.usableSize(old(RealCalls()) + [RealReallocAlign(ptr, size, alignment)]), result, size),
          ptr, alignment))]
    {
      var c := RealReallocAlign(ptr, size, alignment);
      ghost var before := RealCalls();
      if NullFreeIsNoOp(allocator) {
        PassThrough(allocator, calls, c);
      }
      result := CallReal(c);
      Record(ReallocatedAligned(DEFAULT_HEAP, result, size, MallocGetOverhead(allocator.usableSize(RealCalls()), result, size), ptr, alignment));
      assert trace == old(trace) + Wrap(allocator, before, c);
      Complete(c);
    }
  }
}
