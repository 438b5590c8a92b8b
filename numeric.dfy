// The fixed-width integer types of the Rust code, as subsets of `int`.
module Numeric {
  type U32 = x: int | 0 <= x < 0x1_0000_0000
  type I32 = x: int | -0x8000_0000 <= x < 0x8000_0000

  /** `u as i32` for a `u32`: the bit pattern is reinterpreted. */
  function AsI32(u: U32): (r: I32)
    ensures u < 0x8000_0000 ==> r == u
    ensures r < 0 <==> u >= 0x8000_0000
  {
    if u < 0x8000_0000 then u else u - 0x1_0000_0000
  }
}
