/** 32-bit register words and the kernel's BIT()/GENMASK() helpers. */
module Bits {
  /** Bit k of w is set. */
  predicate BitSet(w: bv32, k: bv32)
    requires k < 32
  {
    (w >> k) & 1 == 1
  }

  /** BIT(n) */
  function Bit(n: bv32): (r: bv32)
    requires n < 32
    ensures forall k: bv32 {:trigger BitSet(r, k)} :: k < 32 ==> (BitSet(r, k) <==> k == n)
  {
    1 << n
  }

  /** GENMASK(h, l): the contiguous bits l..h. */
  function GenMask(h: bv32, l: bv32): (r: bv32)
    requires l <= h < 32
    ensures forall k: bv32 {:trigger BitSet(r, k)} :: k < 32 ==> (BitSet(r, k) <==> l <= k <= h)
  {
    (0xFFFF_FFFF >> (31 - h)) & (0xFFFF_FFFF << l)
  }

  /** The bits of w outside mask, that is `w & ~mask`. The complement is
      written as an exclusive or with all ones. */
  function Outside(w: bv32, mask: bv32): bv32 {
    w & (mask ^ 0xFFFF_FFFF)
  }

  /** The word a read-modify-write `(old & ~mask) | val` leaves behind. */
  function Masked(word: bv32, mask: bv32, val: bv32): bv32 {
    Outside(word, mask) | val
  }

  /** A read-modify-write keeps the bits that lie outside both its mask and
      its value. */
  lemma MaskedKeeps(word: bv32, mask: bv32, val: bv32, bits: bv32)
    requires bits & mask == 0 && bits & val == 0
    ensures Masked(word, mask, val) & bits == word & bits
  {
  }

  /** Under its mask a read-modify-write leaves its value. */
  lemma MaskedSets(word: bv32, mask: bv32, val: bv32, bits: bv32)
    requires bits & mask == bits
    ensures Masked(word, mask, val) & bits == val & bits
  {
  }
}
