// Audio sample values and the integer widths around them.
module Samples {
  const U32_MAX: int := 0xFFFF_FFFF

  type u32 = x: int | 0 <= x <= U32_MAX

  type i16 = x: int | -0x8000 <= x < 0x8000

  const I16_MIN: i16 := -0x8000
  const I16_MAX: i16 := 0x7FFF

  // To the nearest integer, halves away from zero.
  function Round(x: real): int {
    if x >= 0.0 then (x + 0.5).Floor else -(0.5 - x).Floor
  }
}
