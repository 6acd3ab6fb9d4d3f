/** Fixed-width unsigned integers of the target platform (8-bit AVR):
    `uint16_t` and `unsigned int` are 16 bits wide, `unsigned long` 32 bits. */
module Uint {

  const U16Limit: int := 0x1_0000

  newtype u16 = x: int | 0 <= x < 0x1_0000

  newtype u32 = x: int | 0 <= x < 0x1_0000_0000

  /** Narrowing an `int` to `uint16_t`: the value modulo 2^16. */
  function Trunc16(n: int): (r: u16)
    ensures r as int % U16Limit == n % U16Limit
    ensures 0 <= n < U16Limit ==> r as int == n
    ensures U16Limit <= n < 2 * U16Limit ==> r as int == n - U16Limit
  {
    (n % U16Limit) as u16
  }

  /** Unsigned 16-bit addition, wrapping around on overflow. */
  function Add16(a: u16, b: u16): (r: u16)
    ensures a as int + b as int < U16Limit ==> r as int == a as int + b as int
    ensures a as int + b as int >= U16Limit ==> r as int == a as int + b as int - U16Limit
  {
    Trunc16(a as int + b as int)
  }
}
