/**
 * The battery display: the supply is sampled against the internal reference
 * and printed as the raw reading times eleven. On the 8-bit target an `int`
 * is 16 bits wide, so the product of the 16-bit unsigned reading and 11 is
 * computed modulo 2^16 and then printed with a signed conversion.
 */
module Voltage {

  const MAX_READING: int := 1023

  /** The 16-bit unsigned product of two 16-bit unsigned operands. */
  function MulU16(a: int, b: int): (r: int)
    requires 0 <= a < 0x1_0000 && 0 <= b < 0x1_0000
    ensures 0 <= r < 0x1_0000
    ensures a * b < 0x1_0000 ==> r == a * b
  {
    (a * b) % 0x1_0000
  }

  /** A 16-bit word read back as a signed 16-bit integer, as the signed
    * conversion of the printing routine does. */
  function AsInt16(u: int): (r: int)
    requires 0 <= u < 0x1_0000
    ensures -0x8000 <= r < 0x8000
    ensures (r - u) % 0x1_0000 == 0
  {
    if u < 0x8000 then u else u - 0x1_0000
  }

  /** The figure printed for a supply reading: for every 10-bit reading it
    * is exactly eleven times the reading, never wrapped and never negative. */
  function Shown(reading: int): (mv: int)
    requires 0 <= reading <= MAX_READING
    ensures mv == 11 * reading
    ensures 0 <= mv <= 11253
  {
    AsInt16(MulU16(reading, 11))
  }

  /** The display is strictly increasing in the reading. */
  lemma ShownMonotonic(a: int, b: int)
    requires 0 <= a < b <= MAX_READING
    ensures Shown(a) < Shown(b)
  {
  }
}
