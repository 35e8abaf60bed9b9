/** Fixed-width unsigned integers of the contract's Rust source, as subsets of
    Dafny's unbounded `int`, and the one width-sensitive operation it uses. */
module BoundedInts {

  const UINT8_MAX: int := 0xFF
  const UINT16_MAX: int := 0xFFFF
  const UINT32_MAX: int := 0xFFFF_FFFF
  const UINT128_MAX: int := 0xFFFF_FFFF_FFFF_FFFF_FFFF_FFFF_FFFF_FFFF

  type uint8 = x: int | 0 <= x <= UINT8_MAX
  type uint16 = x: int | 0 <= x <= UINT16_MAX
  type uint32 = x: int | 0 <= x <= UINT32_MAX
  type uint128 = x: int | 0 <= x <= UINT128_MAX

  /** Rust's `u32::saturating_add`: the exact sum when it fits, otherwise the
      type's maximum instead of wrapping around. */
  function SaturatingAdd32(a: uint32, b: uint32): (r: uint32)
    ensures a <= r && b <= r
    ensures a + b <= UINT32_MAX ==> r == a + b
    ensures a + b > UINT32_MAX ==> r == UINT32_MAX
  {
    if a + b > UINT32_MAX then UINT32_MAX else a + b
  }
}
