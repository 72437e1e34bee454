/** Fixed-width unsigned and signed integers of the target microcontroller,
    with the wrap-around of C's unsigned arithmetic written out. */
module Words {

  const U8_LIMIT: int := 0x100
  const U32_LIMIT: int := 0x1_0000_0000
  const U64_LIMIT: int := 0x1_0000_0000_0000_0000

  type U8 = x: int | 0 <= x < 0x100
  type U32 = x: int | 0 <= x < 0x1_0000_0000
  type U64 = x: int | 0 <= x < 0x1_0000_0000_0000_0000

  /** `uint32_t` increment: one more, or back to zero after the largest value. */
  function Inc32(x: U32): (y: U32)
    ensures x < U32_LIMIT - 1 ==> y == x + 1
    ensures x == U32_LIMIT - 1 ==> y == 0
  {
    (x + 1) % U32_LIMIT
  }

  /** `uint64_t` subtraction `a - b`: the true difference when `a >= b`,
      otherwise the difference wrapped once around 2^64. */
  function Sub64(a: U64, b: U64): (d: U64)
    ensures a >= b ==> d == a - b
    ensures a < b ==> d == a - b + U64_LIMIT
  {
    (a - b) % U64_LIMIT
  }

  /** Conversion of an `int` to `int8_t`, which the compiler for this target
      performs modulo 2^8 into the range [-128, 127]. */
  function ToInt8(v: int): (r: int)
    ensures -128 <= r < 128
    ensures (v - r) % U8_LIMIT == 0
    ensures -128 <= v < 128 ==> r == v
  {
    var m := v % U8_LIMIT;
    if m < 128 then m else m - U8_LIMIT
  }
}
