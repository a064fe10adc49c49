/** The bytes of messages and of text. */
module Bytes {
  type byte = b: int | 0 <= b < 256

  lemma CountUp(b: bv8)
    requires b < 255
    ensures (b + 1) as int == b as int + 1
  {}

  /** The bits of a number, found by counting up to it. */
  function Bits(c: byte): (b: bv8)
    ensures b as int == c
  {
    if c == 0 then 0 else CountUp(Bits(c - 1)); Bits(c - 1) + 1
  }

  lemma BitsAreUnique(b: bv8, c: byte)
    requires b as int == c
    ensures c as bv8 == b
  {}

  /** The conversion to bits loses nothing. */
  lemma BitsOfByte(c: byte)
    ensures (c as bv8) as int == c
  {
    BitsAreUnique(Bits(c), c);
  }
}
