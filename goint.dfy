/**
 * Go's unsigned fixed-width integers as the bitboard engine uses them.
 *
 * A `uint64` is a 64-bit vector and a `uint8` an 8-bit vector, so that `+`,
 * `*` and `<<` wrap around exactly as Go's do (`col*7+5` is computed modulo
 * 256). Go defines `x << k` and `x >> k` for every shift count, yielding 0 once
 * `k` reaches the width of `x`; Dafny only allows counts up to the width, so
 * the two shifts are written out here.
 */
module GoInt {

  type uint8 = bv8
  type uint64 = bv64

  /** Go's `x << k` on a uint64 with a uint8 shift count. */
  function Shl(x: uint64, k: uint8): uint64 {
    if k >= 64 then 0 else x << k
  }

  /** Go's `x >> k` on a uint64 with a uint8 shift count. */
  function Shr(x: uint64, k: uint8): uint64 {
    if k >= 64 then 0 else x >> k
  }

  /** Bit `i` of `x`. */
  predicate Bit(x: uint64, i: uint8)
    requires i < 64
  {
    (x >> i) & 1 == 1
  }

  /** Go's conversion `uint8(v)` of an int: the low 8 bits of its two's-complement form. */
  function Uint8Of(v: int): uint8 {
    if 0 <= v < 0x100 then v as uint8 else (v % 0x100) as uint8
  }

  /** Go's conversion `uint64(v)` of an int: the low 64 bits of its two's-complement form. */
  function Uint64Of(v: int): uint64 {
    if 0 <= v < 0x1_0000_0000_0000_0000 then v as uint64 else (v % 0x1_0000_0000_0000_0000) as uint64
  }

  /** A bit position below 64 survives the round trip through uint8. */
  lemma Round(j: nat)
    requires j < 64
    ensures (j as uint8) as nat == j
  {
    if j < 32 {
      if j < 16 {
        if j < 8 {} else {}
      } else {
        if j < 24 {} else {}
      }
    } else {
      if j < 48 {
        if j < 40 {} else {}
      } else {
        if j < 56 {} else {}
      }
    }
  }
}
