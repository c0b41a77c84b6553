/**
 * What one wrapped entry point does, as values: the call it forwards to the
 * real allocator, the event it reports to the recording subsystem, and the
 * order of the two. A whole session of calls is the concatenation of those
 * per-call step lists, and the lemmas at the end state what the recording
 * subsystem and the real allocator see over a session.
 */
module Recording {
  import opened Sizes
  import opened Accounting

  /** The heap identifier passed to the recorder. */
  type HeapId = nat

  /** Every event of the wrappers is reported against heap 0. */
  const DEFAULT_HEAP: HeapId := 0

  /** The allocator primitives the shim can wrap. */
  datatype Primitive = Malloc | Realloc | Calloc | Free | Expand | Memalign | ReallocAlign

  /**
   * A call to a real allocator primitive, with its arguments. A wrapper
   * receives exactly these arguments from the program and forwards them
   * unchanged, so the same value also stands for the program's call to the
   * wrapper.
   */
  datatype RealCall =
    | RealMalloc(size: SizeT)
    | RealRealloc(ptr: Ptr, size: SizeT)
    | RealCalloc(count: SizeT, elementSize: SizeT)
    | RealFree(ptr: Ptr)
    | RealExpand(ptr: Ptr, size: SizeT)
    | RealMemalign(alignment: SizeT, size: SizeT)
    | RealReallocAlign(ptr: Ptr, size: SizeT, alignment: SizeT)

  /** The primitive a call goes to. */
  function PrimitiveOf(c: RealCall): Primitive
  {
    match c
    case RealMalloc(_) => Malloc
    case RealRealloc(_, _) => Realloc
    case RealCalloc(_, _) => Calloc
    case RealFree(_) => Free
    case RealExpand(_, _) => Expand
    case RealMemalign(_, _) => Memalign
    case RealReallocAlign(_, _, _) => ReallocAlign
  }

  /** `free(NULL)`: the one call a wrapper absorbs. */
  predicate IsNullFree(c: RealCall)
  {
    c.RealFree? && c.ptr == NULL
  }

  /**
   * The foreign allocator, known only through its answers. Whatever it
   * returns for a call, and the usable size it reports for a block, may
   * depend on every call it has received before; nothing else is assumed.
   */
  datatype RealAllocator = RealAllocator(
    respond: (seq<RealCall>, RealCall) -> Ptr,
    usableSize: seq<RealCall> -> Ptr -> SizeT)

  /** An event handed to the recording subsystem: one constructor per reporting entry of the recorder. */
  datatype Event =
    | Allocated(heap: HeapId, address: Ptr, size: SizeT, overhead: Uint32)
    | AllocatedAligned(heap: HeapId, address: Ptr, size: SizeT, overhead: Uint32, alignment: SizeT)
    | Reallocated(heap: HeapId, address: Ptr, size: SizeT, overhead: Uint32, previous: Ptr)
    | ReallocatedAligned(heap: HeapId, address: Ptr, size: SizeT, overhead: Uint32, previous: Ptr, alignment: SizeT)
    | Freed(heap: HeapId, address: Ptr)

  /** One observable effect of a wrapper: a call reaching the real allocator, or an event reaching the recorder. */
  datatype Step = Call(call: RealCall) | Report(event: Event)

  /** The calls that reached the real allocator, in order. */
  function History(steps: seq<Step>): seq<RealCall>
  {
    if steps == [] then []
    else (if steps[0].Call? then [steps[0].call] else []) + History(steps[1..])
  }

  /** The events that reached the recorder, in order. */
  function Log(steps: seq<Step>): seq<Event>
  {
    if steps == [] then []
    else (if steps[0].Report? then [steps[0].event] else []) + Log(steps[1..])
  }

  /**
   * The event a wrapper reports for call `c` once the real primitive has
   * returned `result`; `usableSize` is the allocator's usable-size query at
   * that moment.
   */
  function ReportedEvent(c: RealCall, result: Ptr, usableSize: Ptr -> SizeT): (e: Event)
    ensures e.heap == DEFAULT_HEAP
    ensures c.RealFree? <==> e.Freed?
    ensures !c.RealFree? ==> e.address == result && e.overhead == MallocGetOverhead(usableSize, result, e.size)
    ensures c.RealFree? ==> e.address == c.ptr
    ensures (c.RealMalloc? || c.RealRealloc? || c.RealExpand? || c.RealMemalign? || c.RealReallocAlign?) ==> e.size == c.size
    ensures c.RealCalloc? ==> e.Allocated? && e.size == SizeMul(c.count, c.elementSize)
    ensures (c.RealRealloc? || c.RealExpand? || c.RealReallocAlign?) <==> (e.Reallocated? || e.ReallocatedAligned?)
    ensures (c.RealRealloc? || c.RealExpand? || c.RealReallocAlign?) ==> e.previous == c.ptr
    ensures (c.RealMemalign? || c.RealReallocAlign?) <==> (e.AllocatedAligned? || e.ReallocatedAligned?)
    ensures (c.RealMemalign? || c.RealReallocAlign?) ==> e.alignment == c.alignment
  {
    match c
    case RealMalloc(size) =>
      Allocated(DEFAULT_HEAP, result, size, MallocGetOverhead(usableSize, result, size))
    case RealRealloc(ptr, size) =>
      Reallocated(DEFAULT_HEAP, result, size, MallocGetOverhead(usableSize, result, size), ptr)
    case RealCalloc(count, elementSize) =>
      var totalSize := SizeMul(count, elementSize);
      Allocated(DEFAULT_HEAP, result, totalSize, MallocGetOverhead(usableSize, result, totalSize))
    case RealFree(ptr) =>
      Freed(DEFAULT_HEAP, ptr)
    case RealExpand(ptr, size) =>
      Reallocated(DEFAULT_HEAP, result, size, MallocGetOverhead(usableSize, result, size), ptr)
    case RealMemalign(alignment, size) =>
      AllocatedAligned(DEFAULT_HEAP, result, size, MallocGetOverhead(usableSize, result, size), alignment)
    case RealReallocAlign(ptr, size, alignment) =>
      ReallocatedAligned(DEFAULT_HEAP, result, size, MallocGetOverhead(usableSize, result, size), ptr, alignment)
  }

  /** The result the real allocator returns for `c` after the calls in `history`. */
  function RealResult(allocator: RealAllocator, history: seq<RealCall>, c: RealCall): Ptr
  {
    allocator.respond(history, c)
  }

  /** The event reported for `c` when the real allocator had received `history` before it. */
  function EventFor(allocator: RealAllocator, history: seq<RealCall>, c: RealCall): Event
  {
    ReportedEvent(c, RealResult(allocator, history, c), allocator.usableSize(history + [c]))
  }

  /**
   * The steps one wrapped call performs. `free` returns early on a null
   * pointer and otherwise reports before it frees; every other wrapper calls
   * the real primitive first and then reports what it returned.
   */
  function Wrap(allocator: RealAllocator, history: seq<RealCall>, c: RealCall): (steps: seq<Step>)
    ensures IsNullFree(c) <==> steps == []
  {
    if IsNullFree(c) then []
    else if c.RealFree? then [Report(EventFor(allocator, history, c)), Call(c)]
    else [Call(c), Report(EventFor(allocator, history, c))]
  }

  /** The calls of a session that a wrapper forwards: all of them except `free(NULL)`. */
  function Forwarded(cs: seq<RealCall>): seq<RealCall>
  {
    if cs == [] then []
    else Forwarded(cs[..|cs| - 1]) + (if IsNullFree(cs[|cs| - 1]) then [] else [cs[|cs| - 1]])
  }

  /** Everything the wrappers do, in order, when the program makes the calls `cs` one after another. */
  function Run(allocator: RealAllocator, cs: seq<RealCall>): seq<Step>
  {
    if cs == [] then []
    else
      var before := Run(allocator, cs[..|cs| - 1]);
      before + Wrap(allocator, History(before), cs[|cs| - 1])
  }

  lemma {:induction false} HistoryConcat(a: seq<Step>, b: seq<Step>)
    ensures History(a + b) == History(a) + History(b)
  {
    if a != [] {
      assert (a + b)[1..] == a[1..] + b;
      HistoryConcat(a[1..], b);
    } else {
      assert a + b == b;
    }
  }

  lemma {:induction false} LogConcat(a: seq<Step>, b: seq<Step>)
    ensures Log(a + b) == Log(a) + Log(b)
  {
    if a != [] {
      assert (a + b)[1..] == a[1..] + b;
      LogConcat(a[1..], b);
    } else {
      assert a + b == b;
    }
  }

  /**
   * One wrapped call reaches the real allocator exactly once with the
   * program's own arguments, and reports exactly one event, on heap 0;
   * `free(NULL)` does neither.
   */
  lemma WrapForwardsAndReportsOnce(allocator: RealAllocator, history: seq<RealCall>, c: RealCall)
    ensures History(Wrap(allocator, history, c)) == if IsNullFree(c) then [] else [c]
    ensures Log(Wrap(allocator, history, c)) == if IsNullFree(c) then [] else [EventFor(allocator, history, c)]
    ensures forall e <- Log(Wrap(allocator, history, c)) :: e.heap == DEFAULT_HEAP
  {
    var steps := Wrap(allocator, history, c);
    if !IsNullFree(c) {
      assert steps[1..][1..] == [];
      assert History(steps[1..][1..]) == [] && Log(steps[1..][1..]) == [];
    }
  }

  /**
   * The order of a wrapped call: every allocating wrapper reports after the
   * real call returned, and its event carries the real result; `free` of a
   * non-null pointer reports before the real free.
   */
  lemma WrapOrder(allocator: RealAllocator, history: seq<RealCall>, c: RealCall)
    ensures !c.RealFree? ==>
              && |Wrap(allocator, history, c)| == 2
              && Wrap(allocator, history, c)[0] == Call(c)
              && Wrap(allocator, history, c)[1].Report?
              && Wrap(allocator, history, c)[1].event.address == allocator.respond(history, c)
    ensures c.RealFree? && c.ptr != NULL ==> Wrap(allocator, history, c) == [Report(Freed(DEFAULT_HEAP, c.ptr)), Call(c)]
  {
  }

  lemma RunSnoc(allocator: RealAllocator, cs: seq<RealCall>, c: RealCall)
    ensures Run(allocator, cs + [c]) == Run(allocator, cs) + Wrap(allocator, History(Run(allocator, cs)), c)
  {
    assert (cs + [c])[..|cs|] == cs;
  }

  /**
   * Pass-through of a whole session: the real allocator receives exactly the
   * program's calls, in the program's order, with only `free(NULL)` left
   * out (what the program gets back from such an allocator is stated by
   * `PassThrough`).
   */
  lemma {:induction false} RunForwardsExactly(allocator: RealAllocator, cs: seq<RealCall>)
    ensures History(Run(allocator, cs)) == Forwarded(cs)
    decreases |cs|
  {
    if cs != [] {
      var init, c := cs[..|cs| - 1], cs[|cs| - 1];
      var before := Run(allocator, init);
      RunForwardsExactly(allocator, init);
      HistoryConcat(before, Wrap(allocator, History(before), c));
      WrapForwardsAndReportsOnce(allocator, History(before), c);
    }
  }

  /**
   * An allocator on which `free(NULL)` has no effect, as the C standard
   * requires of `free`: its answers and usable sizes are the same whether or
   * not the null frees of a history reached it.
   */
  ghost predicate NullFreeIsNoOp(allocator: RealAllocator)
  {
    && (forall h, c :: allocator.respond(h, c) == allocator.respond(Forwarded(h), c))
    && (forall h :: allocator.usableSize(h) == allocator.usableSize(Forwarded(h)))
  }

  /**
   * Pass-through correctness: once the program has made the calls `cs`
   * through the wrappers, the next wrapped call `c` gets back the result the
   * real allocator would give after receiving all of `cs` itself, and the
   * wrapper performs the very steps it would perform if no `free(NULL)` had
   * been absorbed, provided `free(NULL)` has no effect on the allocator.
   */
  lemma PassThrough(allocator: RealAllocator, cs: seq<RealCall>, c: RealCall)
    requires NullFreeIsNoOp(allocator)
    ensures RealResult(allocator, History(Run(allocator, cs)), c) == allocator.respond(cs, c)
    ensures Wrap(allocator, History(Run(allocator, cs)), c) == Wrap(allocator, cs, c)
  {
    RunForwardsExactly(allocator, cs);
    if !IsNullFree(c) {
      assert (cs + [c])[..|cs|] == cs;
      assert Forwarded(cs + [c]) == Forwarded(cs) + [c];
      assert allocator.usableSize(cs + [c]) == allocator.usableSize(Forwarded(cs) + [c]);
    }
  }

  /**
   * Pass-through needs `NullFreeIsNoOp`: an allocator whose answer tells
   * whether it has seen any call at all gives `malloc(1)` after a `free(NULL)` a
   * different result through the wrappers than on its own.
   */
  lemma PassThroughNeedsNullFreeIsNoOp()
    ensures var counting := RealAllocator((h: seq<RealCall>, c: RealCall) => if h == [] then 0 else 1, h => p => 0);
      && !NullFreeIsNoOp(counting)
      && RealResult(counting, History(Run(counting, [RealFree(NULL)])), RealMalloc(1)) == 0
      && counting.respond([RealFree(NULL)], RealMalloc(1)) == 1
  {
    var counting := RealAllocator((h: seq<RealCall>, c: RealCall) => if h == [] then 0 else 1, h => p => 0);
    var cs := [RealFree(NULL)];
    assert cs[..0] == [];
    assert Forwarded(cs) == [];
    RunForwardsExactly(counting, cs);
    assert counting.respond(cs, RealMalloc(1)) != counting.respond(Forwarded(cs), RealMalloc(1));
  }

  /**
   * Full coverage and order of a whole session: the recorder receives one
   * event per forwarded call, in the same order, and the i-th event is the
   * one for the i-th forwarded call, computed from the result the real
   * allocator gave that call.
   */
  lemma {:induction false} RunReportsEachForwardedCall(allocator: RealAllocator, cs: seq<RealCall>)
    ensures |Log(Run(allocator, cs))| == |Forwarded(cs)|
    ensures forall i :: 0 <= i < |Forwarded(cs)| ==>
      Log(Run(allocator, cs))[i] == EventFor(allocator, Forwarded(cs)[..i], Forwarded(cs)[i])
    decreases |cs|
  {
    if cs != [] {
      var init, c := cs[..|cs| - 1], cs[|cs| - 1];
      var before := Run(allocator, init);
      RunReportsEachForwardedCall(allocator, init);
      RunForwardsExactly(allocator, init);
      LogConcat(before, Wrap(allocator, History(before), c));
      WrapForwardsAndReportsOnce(allocator, History(before), c);
      EventsFollowCallsExtend(allocator, Log(before), Forwarded(init), Log(Wrap(allocator, History(before), c)),
        if IsNullFree(c) then [] else [c]);
    }
  }

  /** Extending matched events and calls by the events and calls of one more wrapped call keeps them matched. */
  lemma EventsFollowCallsExtend(allocator: RealAllocator, events: seq<Event>, fs: seq<RealCall>, more: seq<Event>, next: seq<RealCall>)
    requires |events| == |fs|
    requires forall i :: 0 <= i < |fs| ==> events[i] == EventFor(allocator, fs[..i], fs[i])
    requires |next| <= 1 && |more| == |next|
    requires |next| == 1 ==> more[0] == EventFor(allocator, fs, next[0])
    ensures |events + more| == |fs + next|
    ensures forall i :: 0 <= i < |fs + next| ==> (events + more)[i] == EventFor(allocator, (fs + next)[..i], (fs + next)[i])
  {
    forall i | 0 <= i < |fs + next|
      ensures (events + more)[i] == EventFor(allocator, (fs + next)[..i], (fs + next)[i])
    {
      if i < |fs| {
        assert (fs + next)[..i] == fs[..i];
      } else {
        assert (fs + next)[..i] == fs;
      }
    }
  }

  /** No event of a session is a free of the null pointer, and every event is on heap 0. */
  lemma {:induction false} RunEventsWellFormed(allocator: RealAllocator, cs: seq<RealCall>)
    ensures forall e <- Log(Run(allocator, cs)) :: e.heap == DEFAULT_HEAP
    ensures forall e <- Log(Run(allocator, cs)) :: e.Freed? ==> e.address != NULL
  {
    RunReportsEachForwardedCall(allocator, cs);
    var fs := Forwarded(cs);
    ForwardedHasNoNullFree(cs);
    forall e <- Log(Run(allocator, cs))
      ensures e.heap == DEFAULT_HEAP && (e.Freed? ==> e.address != NULL)
    {
      var i :| 0 <= i < |fs| && Log(Run(allocator, cs))[i] == e;
      assert !IsNullFree(fs[i]);
    }
  }

  lemma {:induction false} ForwardedHasNoNullFree(cs: seq<RealCall>)
    ensures forall i :: 0 <= i < |Forwarded(cs)| ==> !IsNullFree(Forwarded(cs)[i])
    decreases |cs|
  {
    if cs != [] {
      ForwardedHasNoNullFree(cs[..|cs| - 1]);
    }
  }

  /**
   * A session of two allocating calls, a free of a non-null pointer and a
   * `free(NULL)` reaches the allocator as its first three calls and the
   * recorder as three events, one per forwarded call.
   */
  lemma ScenarioShape(allocator: RealAllocator, c1: RealCall, c2: RealCall, c3: RealCall, c4: RealCall)
    requires !c1.RealFree? && !c2.RealFree? && c3.RealFree? && c3.ptr != NULL && IsNullFree(c4)
    ensures History(Run(allocator, [c1, c2, c3, c4])) == [c1, c2, c3]
    ensures Log(Run(allocator, [c1, c2, c3, c4]))
      == [EventFor(allocator, [], c1), EventFor(allocator, [c1], c2), EventFor(allocator, [c1, c2], c3)]
  {
    var cs := [c1, c2, c3, c4];
    assert Forwarded(cs) == [c1, c2, c3] by {
      assert cs[..3] == [c1, c2, c3] && [c1, c2, c3][..2] == [c1, c2] && [c1, c2][..1] == [c1] && [c1][..0] == [];
      assert Forwarded([c1]) == [c1];
      assert Forwarded([c1, c2]) == [c1, c2];
      assert Forwarded([c1, c2, c3]) == [c1, c2, c3];
    }
    RunForwardsExactly(allocator, cs);
    RunReportsEachForwardedCall(allocator, cs);
    assert [c1, c2, c3][..1] == [c1] && [c1, c2, c3][..2] == [c1, c2];
  }

  /**
   * A worked example, for any allocator that serves
   * `malloc(100)` at 0x1000 with a 112-byte block and then moves the block
   * to 0x2000, 208 bytes usable, on `realloc(0x1000, 200)`: the session
   * malloc, realloc, free, `free(NULL)` reports three events and makes three
   * real calls.
   */
  lemma MallocReallocFreeScenario(allocator: RealAllocator)
    requires allocator.respond([], RealMalloc(100)) == 0x1000
    requires allocator.usableSize([RealMalloc(100)])(0x1000) == 112
    requires allocator.respond([RealMalloc(100)], RealRealloc(0x1000, 200)) == 0x2000
    requires allocator.usableSize([RealMalloc(100), RealRealloc(0x1000, 200)])(0x2000) == 208
    ensures Log(Run(allocator, [RealMalloc(100), RealRealloc(0x1000, 200), RealFree(0x2000), RealFree(NULL)])) == [
      Allocated(DEFAULT_HEAP, 0x1000, 100, 12),
      Reallocated(DEFAULT_HEAP, 0x2000, 200, 8, 0x1000),
      Freed(DEFAULT_HEAP, 0x2000)]
    ensures History(Run(allocator, [RealMalloc(100), RealRealloc(0x1000, 200), RealFree(0x2000), RealFree(NULL)]))
      == [RealMalloc(100), RealRealloc(0x1000, 200), RealFree(0x2000)]
  {
    var c1, c2, c3 := RealMalloc(100), RealRealloc(0x1000, 200), RealFree(0x2000);
    ScenarioShape(allocator, c1, c2, c3, RealFree(NULL));
    assert allocator.usableSize([] + [c1])(0x1000) == 112 by {
      assert [] + [c1] == [c1];
    }
    assert EventFor(allocator, [], c1) == Allocated(DEFAULT_HEAP, 0x1000, 100, 12);
    assert allocator.usableSize([c1] + [c2])(0x2000) == 208 by {
      assert [c1] + [c2] == [c1, c2];
    }
    assert EventFor(allocator, [c1], c2) == Reallocated(DEFAULT_HEAP, 0x2000, 200, 8, 0x1000);
  }

  /**
   * A `calloc` whose element count times element size overflows `size_t` is
   * reported with the wrapped product as its size.
   */
  lemma CallocSizeWraps(result: Ptr, usableSize: Ptr -> SizeT)
    ensures ReportedEvent(RealCalloc(UINT32_MODULUS, UINT32_MODULUS), result, usableSize).size == 0
    ensures ReportedEvent(RealCalloc(UINT32_MODULUS + 1, UINT32_MODULUS), result, usableSize).size == UINT32_MODULUS
  {
  }
}
