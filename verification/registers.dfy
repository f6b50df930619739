/**
 Bit-level view of the MSP430FR4133 peripheral registers the demo touches.

 GPIO port registers (PxOUT, PxDIR, PxIE, PxIFG, ...) are 8 bits wide and are
 modelled as `bv8`. The C `unsigned int` of this target is 16 bits wide and
 `unsigned char` is 8 bits wide; both are modelled as bounded integers, and every
 increment that can overflow is written out with its wrap-around.
 */
module Registers {

  type uint8 = x: int | 0 <= x < 0x100
  type uint16 = x: int | 0 <= x < 0x1_0000

  const BIT0: bv8 := 0x01
  const BIT1: bv8 := 0x02
  const BIT2: bv8 := 0x04
  const BIT3: bv8 := 0x08
  const BIT5: bv8 := 0x20
  const BIT6: bv8 := 0x40
  const BIT7: bv8 := 0x80

  /** `reg |= mask`: the masked bits become one, the others keep their value. */
  function Set(reg: bv8, mask: bv8): (r: bv8)
    ensures r & mask == mask
    ensures r & !mask == reg & !mask
  {
    reg | mask
  }

  /** `reg &= ~mask`: the masked bits become zero, the others keep their value. */
  function Clear(reg: bv8, mask: bv8): (r: bv8)
    ensures r & mask == 0
    ensures r & !mask == reg & !mask
  {
    reg & !mask
  }

  /** True when some bit of `mask` is one in `reg` (for a one-bit mask: that bit is on). */
  predicate IsSet(reg: bv8, mask: bv8) {
    reg & mask != 0
  }

  /** The two register values agree on every bit outside `mask`. */
  predicate SameOutside(a: bv8, b: bv8, mask: bv8) {
    a & !mask == b & !mask
  }

  /**
   Drive the single-bit `pin` of `reg` to the given level (`reg |= pin` or
   `reg &= ~pin`), leaving every other bit.
   */
  function Drive(reg: bv8, pin: bv8, high: bool): (r: bv8)
    requires pin != 0
    ensures IsSet(r, pin) == high
    ensures SameOutside(r, reg, pin)
  {
    (reg & !pin) | (if high then pin else 0)
  }

  /** `x++` on a 16-bit `unsigned int`. */
  function Inc16(x: uint16): (r: uint16)
    ensures r == x + 1 || (x == 0xFFFF && r == 0)
  {
    (x + 1) % 0x1_0000
  }

  /** `x++` on an 8-bit `unsigned char`. */
  function Inc8(x: uint8): (r: uint8)
    ensures r == x + 1 || (x == 0xFF && r == 0)
  {
    (x + 1) % 0x100
  }

}
