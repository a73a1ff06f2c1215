/** Types shared by every module: an optional value and Rust's unsigned integer widths. */
module Wrappers {
  datatype Option<+T> = None | Some(value: T)

  const U32_MAX: nat := 0xFFFF_FFFF
  const U64_MAX: nat := 0xFFFF_FFFF_FFFF_FFFF

  type U32 = n: nat | n <= U32_MAX
  type U64 = n: nat | n <= U64_MAX

  function SaturatingIncrement(n: U64): U64 {
    if n == U64_MAX then n else n + 1
  }

  function Min(a: int, b: int): int {
    if a <= b then a else b
  }
}
