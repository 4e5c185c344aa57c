/** Java's fixed-width two's-complement integers and its narrowing conversions. */
module JavaInts {

  newtype Int8 = x: int | -0x80 <= x < 0x80
  newtype Int16 = x: int | -0x8000 <= x < 0x8000
  newtype Int32 = x: int | -0x8000_0000 <= x < 0x8000_0000
  newtype Int64 = x: int | -0x8000_0000_0000_0000 <= x < 0x8000_0000_0000_0000

  const INT32_MIN: int := -0x8000_0000
  const INT32_MAX: int := 0x7FFF_FFFF
  const INT64_MIN: int := -0x8000_0000_0000_0000
  const INT64_MAX: int := 0x7FFF_FFFF_FFFF_FFFF

  /** `(int) n`: keeps the low 32 bits of `n` as a signed value. */
  function ToInt32(n: int): (r: Int32)
    ensures (r as int - n) % 0x1_0000_0000 == 0
    ensures INT32_MIN <= n <= INT32_MAX ==> r as int == n
  {
    var u := n % 0x1_0000_0000;
    if u < 0x8000_0000 then u as Int32 else (u - 0x1_0000_0000) as Int32
  }

  /** `(long) n`: keeps the low 64 bits of `n` as a signed value. */
  function ToInt64(n: int): (r: Int64)
    ensures (r as int - n) % 0x1_0000_0000_0000_0000 == 0
    ensures INT64_MIN <= n <= INT64_MAX ==> r as int == n
  {
    var u := n % 0x1_0000_0000_0000_0000;
    if u < 0x8000_0000_0000_0000 then u as Int64 else (u - 0x1_0000_0000_0000_0000) as Int64
  }

  /** `b & 0xFF`: a byte read as unsigned. */
  function Unsigned(b: Int8): (r: nat)
    ensures r < 256
    ensures r as int == (if b < 0 then b as int + 256 else b as int)
  {
    if b < 0 then b as int + 256 else b as int
  }

  /** `(byte) u` for an unsigned byte value. */
  function Signed(u: nat): (b: Int8)
    requires u < 256
    ensures Unsigned(b) == u
  {
    if u < 128 then u as Int8 else (u - 256) as Int8
  }
}
