/** Machine words shared by the register models. */
module Words {

  /** A 32-bit register value or bus address. */
  type u32 = x: int | 0 <= x < 0x1_0000_0000

  /** A 16-bit value, such as a display dimension. */
  type u16 = x: int | 0 <= x < 0x1_0000

  const TwoTo32: int := 0x1_0000_0000

  /** Truncation to 32 bits, as a C `u32` assignment performs it. */
  function U32(x: int): (r: u32)
    ensures 0 <= x < TwoTo32 ==> r == x
    ensures (r - x) % TwoTo32 == 0
  {
    x % TwoTo32
  }
}
