/** The integer widths of the source, and the largest integer its records carry. */
module Integers {
  const MAX_U32 := 0xffff_ffff
  const MAX_U64 := 0xffff_ffff_ffff_ffff
  const MAX_SAFE_INTEGER := 9_007_199_254_740_991

  type u32 = x: int | 0 <= x <= MAX_U32
  type u64 = x: int | 0 <= x <= MAX_U64
}
