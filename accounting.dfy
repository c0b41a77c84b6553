/**
 * The accounting helper: the bookkeeping overhead of a block is the
 * allocator's usable size of the block minus the size that was requested.
 * The usable-size query (`malloc_usable_size`, `_msize` or
 * `dlmalloc_usable_size`, depending on the platform) belongs to the foreign
 * allocator, so it is a parameter here and nothing is assumed about it.
 */
module Accounting {
  import opened Sizes

  /**
   * `mallocGetOverhead(p, size)`: the usable size of `p` minus `size`,
   * computed in `size_t` and returned as `uint32_t`. The pointer is queried
   * even when it is null, and a usable size smaller than the request is not
   * clamped: the difference wraps.
   */
  function MallocGetOverhead(usableSize: Ptr -> SizeT, p: Ptr, size: SizeT): (r: Uint32)
    ensures size <= usableSize(p) && usableSize(p) - size < UINT32_MODULUS ==> r == usableSize(p) - size
    ensures usableSize(p) < size && size - usableSize(p) <= UINT32_MODULUS ==> r == UINT32_MODULUS + usableSize(p) - size
    ensures (r - (usableSize(p) - size)) % UINT32_MODULUS == 0
  {
    var difference := SizeSub(usableSize(p), size);
    TruncateToUint32(difference)
  }

  /**
   * The overhead is zero only when the usable size and the request agree
   * modulo 2^32: in particular a block whose usable size falls short of the
   * request by less than 4 GiB is reported with a large positive overhead,
   * never with 0.
   */
  lemma OverheadZeroOnlyWhenCongruent(usableSize: Ptr -> SizeT, p: Ptr, size: SizeT)
    ensures MallocGetOverhead(usableSize, p, size) == 0 <==> (usableSize(p) - size) % UINT32_MODULUS == 0
  {
    var r := MallocGetOverhead(usableSize, p, size);
    SameResidue(r, usableSize(p) - size);
  }

  /**
   * The overhead is the residue of `usable - requested` modulo 2^32. It does
   * not depend on the width of `size_t`, since 2^32 divides both a 32-bit and a 64-bit
   * target's modulus.
   */
  lemma OverheadIsResidue(usableSize: Ptr -> SizeT, p: Ptr, size: SizeT)
    ensures MallocGetOverhead(usableSize, p, size) == (usableSize(p) - size) % UINT32_MODULUS
  {
    var r := MallocGetOverhead(usableSize, p, size);
    SameResidue(r, usableSize(p) - size);
    assert r % UINT32_MODULUS == r;
  }

  lemma SameResidue(x: int, y: int)
    requires (x - y) % UINT32_MODULUS == 0
    ensures x % UINT32_MODULUS == y % UINT32_MODULUS
  {
    var k := (x - y) / UINT32_MODULUS;
    assert x == y + k * UINT32_MODULUS;
    var q := y / UINT32_MODULUS;
    assert y == q * UINT32_MODULUS + y % UINT32_MODULUS;
    assert x == (q + k) * UINT32_MODULUS + y % UINT32_MODULUS;
  }

  /** A worked example: a 100-byte request served by a 112-byte block has 12 bytes of overhead. */
  lemma OverheadExample(usableSize: Ptr -> SizeT, p: Ptr)
    requires usableSize(p) == 112
    ensures MallocGetOverhead(usableSize, p, 100) == 12
    ensures MallocGetOverhead(usableSize, p, 113) == UINT32_MODULUS - 1
  {
  }
}
