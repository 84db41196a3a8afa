/** Vocabulary shared by every component: options, outcomes and 64-bit words. */
module Common {

  const TWO64: nat := 0x1_0000_0000_0000_0000
  const U64_MAX: nat := 0xFFFF_FFFF_FFFF_FFFF

  /** An unsigned 64-bit word. */
  type U64 = x: nat | x <= U64_MAX

  datatype Option<+T> = None | Some(value: T)

  datatype Result<+T, +E> = Ok(value: T) | Err(error: E)

  /** Addition of two words as the machine does it: modulo 2^64. */
  function WrapAdd(a: U64, b: U64): (r: U64)
    ensures r < a <==> a + b > U64_MAX
    ensures a + b <= U64_MAX ==> r == a + b
  {
    if a + b <= U64_MAX then a + b else a + b - TWO64
  }

  /** Addition that stops at the largest word. */
  function SaturatingAdd(a: U64, b: U64): (r: U64)
  {
    if a > U64_MAX - b then U64_MAX else a + b
  }

  function Max(a: int, b: int): int {
    if a < b then b else a
  }

  function Min(a: int, b: int): int {
    if a < b then a else b
  }
}
