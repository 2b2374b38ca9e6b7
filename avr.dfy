/** The machine words and pin levels of the AVR Arduino target: `uint8_t`,
    `uint16_t`, the 32-bit `unsigned long` that millis() returns, and the two
    levels a digital pin reads. */
module Avr {

  const Modulus8: int := 0x100
  const Modulus16: int := 0x1_0000
  const Modulus32: int := 0x1_0000_0000

  type U8 = x: int | 0 <= x < 0x100
  type U16 = x: int | 0 <= x < 0x1_0000
  type U32 = x: int | 0 <= x < 0x1_0000_0000

  /** The level digitalRead() reports for a pin (LOW is 0, HIGH is 1). */
  datatype Level = Low | High

  function Bit(l: Level): (b: int)
    ensures b == 0 || b == 1
    ensures b == 1 <==> l == High
  {
    match l
    case Low => 0
    case High => 1
  }

  /** Conversion of a C++ int to uint8_t: the value modulo 256. */
  function ToU8(x: int): (r: U8)
    ensures (x - r) % Modulus8 == 0
    ensures 0 <= x < Modulus8 ==> r == x
    ensures -Modulus8 <= x < 0 ==> r == x + Modulus8
  {
    x % Modulus8
  }

  /** `++` on a uint8_t: 255 wraps to 0. */
  function Inc8(c: U8): (r: U8)
    ensures r == ToU8(c + 1)
  {
    if c == Modulus8 - 1 then 0 else c + 1
  }

  /** Incrementing a uint8_t wraps like incrementing the int it came from. */
  lemma Inc8Wraps(x: int, c: U8)
    requires c == ToU8(x)
    ensures Inc8(c) == ToU8(x + 1)
  {
  }

  /** Conversion of a C++ int to uint16_t: the value modulo 65536. */
  function ToU16(x: int): (r: U16)
    ensures (x - r) % Modulus16 == 0
    ensures 0 <= x < Modulus16 ==> r == x
  {
    x % Modulus16
  }

  /** `a + b` on unsigned long. */
  function Add32(a: U32, b: U32): (r: U32)
    ensures r == (a + b) % Modulus32
  {
    if a + b < Modulus32 then a + b else a + b - Modulus32
  }

  /** `now - since` on unsigned long: the milliseconds elapsed since `since`,
      correct across one wrap-around of the clock. */
  function Elapsed(now: U32, since: U32): (d: U32)
    ensures Add32(since, d) == now
    ensures d == (now - since) % Modulus32
  {
    if since <= now then now - since else Modulus32 - since + now
  }

  /** The elapsed time is the only duration that takes `since` to `now`. */
  lemma ElapsedIsUnique(now: U32, since: U32, d: U32)
    requires Add32(since, d) == now
    ensures d == Elapsed(now, since)
  {
  }
}
