/** Single bits, as both backends store them in integer cells. */
module Bits {

  /** A 0/1 entry (the stabilizer tableau keeps these in `int8` cells). */
  type Bit = b: int | 0 <= b <= 1

  function Xor(a: Bit, b: Bit): Bit { if a == b then 0 else 1 }

  function And(a: Bit, b: Bit): Bit { if a == 1 && b == 1 then 1 else 0 }
}
