/** Machine-level value types shared by the host driver and the firmware model. */
module Bytes {

  /** An unsigned 8-bit value: a Python `bytes` element, a C `uint8_t`. */
  type byte = b: int | 0 <= b < 256

  /** A C `uint32_t`, as used by the firmware's log counters. */
  type uint32 = n: int | 0 <= n < 0x1_0000_0000

  /** Bitwise exclusive or of two bytes (`crc ^ byte` in both sources). */
  function Xor(a: byte, b: byte): byte
  {
    ((a as bv8) ^ (b as bv8)) as int
  }

  /** `counter++` on a `uint32_t`: wraps to 0 after 0xFFFF_FFFF. */
  function Inc32(n: uint32): (r: uint32)
    ensures n < 0xFFFF_FFFF ==> r == n + 1
    ensures n == 0xFFFF_FFFF ==> r == 0
  {
    (n + 1) % 0x1_0000_0000
  }
}
