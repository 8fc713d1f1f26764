/**
 The machine integers the sources compute with.  They are subset types of `int`, so every
 assignment to one of them is a proof that the machine operation does not wrap.
 */
module Integers {
  type byte = x: int | 0 <= x < 0x100
  type u16 = x: int | 0 <= x < 0x1_0000
  type u32 = x: int | 0 <= x < 0x1_0000_0000
  type u64 = x: int | 0 <= x < 0x1_0000_0000_0000_0000
  type u128 = x: int | 0 <= x < 0x1_0000_0000_0000_0000_0000_0000_0000_0000

  function Min(a: int, b: int): int {
    if a <= b then a else b
  }

  function Max(a: int, b: int): int {
    if a >= b then a else b
  }

  /** Rust's `saturating_sub` on an unsigned type. */
  function SaturatingSub(a: nat, b: nat): nat {
    if a >= b then a - b else 0
  }
}
