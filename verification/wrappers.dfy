/** Small shared helpers: an optional value, and the machine integer widths the
    Rust source uses. */
module Wrappers {

  /** An optional value, standing in for Rust's `Option`. */
  datatype Option<+T> = None | Some(value: T)

  const I32_MIN: int := -0x8000_0000
  const I32_MAX: int := 0x7fff_ffff
  const U32_LIMIT: int := 0x1_0000_0000
  /** `usize` is taken to be 64 bits wide. */
  const USIZE_LIMIT: int := 0x1_0000_0000_0000_0000

  type byte = b: int | 0 <= b < 256
  type i32 = x: int | I32_MIN <= x <= I32_MAX
  type u32 = x: int | 0 <= x < U32_LIMIT
}
