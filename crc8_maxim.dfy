/**
 * The reference definition of CRC-8/MAXIM (the Dallas/Maxim 1-Wire CRC,
 * polynomial x^8 + x^5 + x^4 + 1), computed bit by bit in its reflected
 * form as Maxim Application Note 27 describes it: the register starts at 0,
 * each message byte is xored into it, and the register is then shifted right
 * eight times, xoring in 0x8C whenever a 1 bit falls out.
 *
 * Both ends of the protocol compute this checksum through a 256-entry lookup
 * table; this module is the independent definition the tables are checked
 * against.
 */
module Crc8Maxim {
  import opened Bytes

  /**
   * One bit step of the reflected shift register. 0x8C is x^8 + x^5 + x^4 + 1
   * with its bits reversed and the x^8 term dropped.
   */
  function Shift(c: bv8): bv8
  {
    if c & 1 == 1 then (c >> 1) ^ 0x8C else c >> 1
  }

  /** The eight bit steps that consume one byte. */
  function Rounds8(c: bv8): bv8
  {
    Shift(Shift(Shift(Shift(Shift(Shift(Shift(Shift(c))))))))
  }

  /** CRC-8/MAXIM of `data`, bit by bit, processing the bytes in order. */
  function Bitwise(data: seq<byte>): (r: byte)
    ensures |data| == 0 ==> r == 0
    ensures |data| > 0 && data[|data| - 1] == Bitwise(data[..|data| - 1]) ==> r == 0
  {
    if |data| == 0 then 0
    else Rounds8((Bitwise(data[..|data| - 1]) as bv8) ^ (data[|data| - 1] as bv8)) as int
  }
}
