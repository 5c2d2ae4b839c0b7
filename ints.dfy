/** Go's fixed-width integer types and the narrowing conversions the model needs. */
module Ints {

  newtype uint8 = x: int | 0 <= x < 0x100
  newtype uint16 = x: int | 0 <= x < 0x1_0000
  newtype uint32 = x: int | 0 <= x < 0x1_0000_0000
  newtype uint64 = x: int | 0 <= x < 0x1_0000_0000_0000_0000
  newtype int32 = x: int | -0x8000_0000 <= x < 0x8000_0000
  newtype int64 = x: int | -0x8000_0000_0000_0000 <= x < 0x8000_0000_0000_0000

  /** A Go byte slice. */
  type Bytes = seq<uint8>

  /** Go's `int64(x)` for an unsigned 64-bit `x`: the same bits read as two's complement. */
  function ToInt64(x: uint64): (r: int64)
    ensures (r as int - x as int) % 0x1_0000_0000_0000_0000 == 0
    ensures x < 0x8000_0000_0000_0000 ==> r as int == x as int
  {
    if x < 0x8000_0000_0000_0000 then x as int as int64
    else (x as int - 0x1_0000_0000_0000_0000) as int64
  }

  /** Go's `int32(x)` for an unsigned 64-bit `x`: the low 32 bits read as two's complement. */
  function ToInt32(x: uint64): (r: int32)
    ensures (r as int - x as int) % 0x1_0000_0000 == 0
    ensures x < 0x8000_0000 ==> r as int == x as int
  {
    var low := x as int % 0x1_0000_0000;
    if low < 0x8000_0000 then low as int32 else (low - 0x1_0000_0000) as int32
  }
}
