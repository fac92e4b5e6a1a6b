/** The fixed-width Rust integers the model needs, and the `as` casts between them. */
module Ints {

  type u16 = x: int | 0 <= x < 0x1_0000
  type u32 = x: int | 0 <= x < 0x1_0000_0000
  type i32 = x: int | -0x8000_0000 <= x < 0x8000_0000

  /** `x as u16` on an `i32`: keeps the low 16 bits (two's-complement truncation). */
  function I32AsU16(x: i32): (r: u16)
    ensures 0 <= x < 0x1_0000 ==> r == x
    ensures (r - x) % 0x1_0000 == 0
  {
    x % 0x1_0000
  }

  /** `x as u32` on an `i32`: negative values wrap to the top half. */
  function I32AsU32(x: i32): (r: u32)
    ensures x >= 0 ==> r == x
    ensures x < 0 ==> r == x + 0x1_0000_0000
  {
    x % 0x1_0000_0000
  }

  /** `x as i32` on a `u16`: always lossless. */
  function U16AsI32(x: u16): (r: i32)
    ensures r == x
    ensures I32AsU16(r) == x
  {
    x
  }
}
