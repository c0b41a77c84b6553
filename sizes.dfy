/**
 * Machine integers used by the allocation shim: the `size_t` of the wrapped
 * primitives, modelled as a 64-bit target's, the `uint32_t` that
 * `mallocGetOverhead` returns, and addresses, where 0 is the null pointer.
 * C's unsigned arithmetic wraps, so every operation below reduces its result
 * explicitly.
 */
module Sizes {

  const SIZE_T_MODULUS: int := 0x1_0000_0000_0000_0000
  const UINT32_MODULUS: int := 0x1_0000_0000

  /** A `size_t` of a 64-bit target. */
  type SizeT = x: int | 0 <= x < SIZE_T_MODULUS

  /** A `uint32_t`. */
  type Uint32 = x: int | 0 <= x < UINT32_MODULUS

  /** A `void*`, as the integer value of the address. */
  type Ptr = SizeT

  const NULL: Ptr := 0

  /** `a - b` in `size_t`: the mathematical difference when it is not negative, otherwise it wraps past 2^64. */
  function SizeSub(a: SizeT, b: SizeT): (r: SizeT)
    ensures b <= a ==> r == a - b
    ensures a < b ==> r == SIZE_T_MODULUS + a - b
  {
    (a - b) % SIZE_T_MODULUS
  }

  /** `a * b` in `size_t`: exact when the product fits in 64 bits, otherwise reduced modulo 2^64. */
  function SizeMul(a: SizeT, b: SizeT): (r: SizeT)
    ensures a * b < SIZE_T_MODULUS ==> r == a * b
    ensures (a * b - r) % SIZE_T_MODULUS == 0
  {
    (a * b) % SIZE_T_MODULUS
  }

  /** The conversion of a `size_t` to `uint32_t`: keeps the low 32 bits. */
  function TruncateToUint32(x: SizeT): (r: Uint32)
    ensures x < UINT32_MODULUS ==> r == x
    ensures (x - r) % UINT32_MODULUS == 0
  {
    x % UINT32_MODULUS
  }
}
