/**
  Fixed-width integers of the C++ source and the narrowing conversion
  `gsl::narrow_cast`, which is a plain `static_cast`: it keeps the low bits
  of the value and reads them back in two's complement.
 */
module MachineInt {

  const TWO_32: int := 0x1_0000_0000
  const TWO_63: int := 0x8000_0000_0000_0000
  const TWO_64: int := 0x1_0000_0000_0000_0000

  const INT32_MIN: int := -0x8000_0000
  const INT32_MAX: int := 0x7fff_ffff
  const INT64_MIN: int := -0x8000_0000_0000_0000
  const INT64_MAX: int := 0x7fff_ffff_ffff_ffff
  const UINT64_MAX: int := 0xffff_ffff_ffff_ffff

  type Int32 = x: int | -0x8000_0000 <= x <= 0x7fff_ffff
  type Int64 = x: int | -0x8000_0000_0000_0000 <= x <= 0x7fff_ffff_ffff_ffff
  /** `std::size_t` on the 64-bit targets the code generator runs on. */
  type UInt64 = x: int | 0 <= x <= 0xffff_ffff_ffff_ffff

  predicate InInt32(x: int) {
    INT32_MIN <= x <= INT32_MAX
  }

  predicate InInt64(x: int) {
    INT64_MIN <= x <= INT64_MAX
  }

  /** `narrow_cast<int64_t>(x)`: the unique int64 congruent to `x` modulo 2^64. */
  function ToInt64(x: int): (r: Int64)
    ensures (x - r) % TWO_64 == 0
    ensures InInt64(x) ==> r == x
  {
    var m := x % TWO_64;
    assert x == TWO_64 * (x / TWO_64) + m;
    if m < TWO_63 then
      assert x - m == TWO_64 * (x / TWO_64);
      m
    else
      assert x - (m - TWO_64) == TWO_64 * (x / TWO_64 + 1);
      m - TWO_64
  }

  /** `narrow_cast<int32_t>(x)`: the unique int32 congruent to `x` modulo 2^32. */
  function ToInt32(x: int): (r: Int32)
    ensures (x - r) % TWO_32 == 0
    ensures InInt32(x) ==> r == x
  {
    var m := x % TWO_32;
    assert x == TWO_32 * (x / TWO_32) + m;
    if m < TWO_32 / 2 then
      assert x - m == TWO_32 * (x / TWO_32);
      m
    else
      assert x - (m - TWO_32) == TWO_32 * (x / TWO_32 + 1);
      m - TWO_32
  }
}
