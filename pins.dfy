/**
 * The constants of the pad driver's header: the twelve button bits of the
 * 16-bit `Buttons` mask, the six DB-9 input lines as bits of GPIOA->IDR, and
 * what the SELECT and LED macros, which write the GPIO bit set/reset
 * register (BSRR), do to the output pins.
 */
module Pins {

  // SEGA_<button>_Pos: the bit of `Buttons` that holds each button.
  const MaskA: bv16 := 0x0800      // 1 << 11
  const MaskB: bv16 := 0x0400      // 1 << 10
  const MaskC: bv16 := 0x0200      // 1 << 9
  const MaskX: bv16 := 0x0100      // 1 << 8
  const MaskY: bv16 := 0x0080      // 1 << 7
  const MaskZ: bv16 := 0x0040      // 1 << 6
  const MaskStart: bv16 := 0x0020  // 1 << 5
  const MaskMode: bv16 := 0x0010   // 1 << 4
  const MaskUp: bv16 := 0x0008     // 1 << 3
  const MaskDown: bv16 := 0x0004   // 1 << 2
  const MaskLeft: bv16 := 0x0002   // 1 << 1
  const MaskRight: bv16 := 0x0001  // 1 << 0

  /** The twelve button masks, in the header's order. */
  const ButtonMasks: seq<bv16> :=
    [MaskA, MaskB, MaskC, MaskX, MaskY, MaskZ, MaskStart, MaskMode,
     MaskUp, MaskDown, MaskLeft, MaskRight]

  /** Bits 0-11: all buttons. */
  const AllButtons: bv16 := 0x0FFF
  /** Bits 0-3: the four directions. */
  const Directions: bv16 := 0x000F
  /** Bits 12-15: never used. */
  const Unused: bv16 := 0xF000

  predicate SingleBit(m: bv16) {
    m != 0 && m & (m - 1) == 0
  }

  /** Each button mask is a single bit, and no two buttons share one. */
  lemma ButtonMasksAreDistinctBits()
    ensures |ButtonMasks| == 12
    ensures forall i | 0 <= i < 12 :: SingleBit(ButtonMasks[i])
    ensures forall i, j | 0 <= i < j < 12 :: ButtonMasks[i] & ButtonMasks[j] == 0
  {
  }

  /** Together the twelve masks are exactly bits 0-11. */
  lemma ButtonMasksCoverLow12()
    ensures MaskA | MaskB | MaskC | MaskX | MaskY | MaskZ | MaskStart | MaskMode |
            MaskUp | MaskDown | MaskLeft | MaskRight == AllButtons
    ensures AllButtons & Unused == 0 && AllButtons | Unused == 0xFFFF
  {
  }

  /** UP, DOWN, LEFT and RIGHT are exactly bits 3..0, so `>> 4` drops precisely them. */
  lemma DirectionsAreLowNibble()
    ensures MaskUp | MaskDown | MaskLeft | MaskRight == Directions
    ensures (MaskA | MaskB | MaskC | MaskX | MaskY | MaskZ | MaskStart | MaskMode) & Directions == 0
  {
  }

  /** READ_BIT(Buttons, mask) != 0 */
  predicate Pressed(m: bv16, mask: bv16) {
    m & mask != 0
  }

  /** The twelve buttons as flags: the meaning of bits 0-11 of `Buttons`. */
  datatype ButtonSet = ButtonSet(
    a: bool, b: bool, c: bool, x: bool, y: bool, z: bool,
    start: bool, mode: bool, up: bool, down: bool, left: bool, right: bool)

  predicate AnyPressed(p: ButtonSet) {
    p.a || p.b || p.c || p.x || p.y || p.z || p.start || p.mode || p.up || p.down || p.left || p.right
  }

  /** Reads every button's bit of the mask. */
  function Decode(m: bv16): (r: ButtonSet)
    ensures AnyPressed(r) <==> m & AllButtons != 0
  {
    ButtonSet(
      Pressed(m, MaskA), Pressed(m, MaskB), Pressed(m, MaskC), Pressed(m, MaskX),
      Pressed(m, MaskY), Pressed(m, MaskZ), Pressed(m, MaskStart), Pressed(m, MaskMode),
      Pressed(m, MaskUp), Pressed(m, MaskDown), Pressed(m, MaskLeft), Pressed(m, MaskRight))
  }


  /** The flags and the unused top nibble together determine the mask: Decode loses nothing else. */
  lemma DecodeInjective(m1: bv16, m2: bv16)
    requires Decode(m1) == Decode(m2) && m1 & Unused == m2 & Unused
    ensures m1 == m2
  {
  }

  /** With the top nibble clear, the mask is nonzero exactly when some button is pressed. */
  lemma NonzeroIffAnyPressed(m: bv16)
    requires m & Unused == 0
    ensures m != 0 <==> AnyPressed(Decode(m))
  {
  }

  /**
   * SET_BIT(Buttons, mask) when the sampled level is high, CLEAR_BIT(Buttons,
   * mask) when it is low.
   */
  function Write(m: bv16, mask: bv16, level: bool): bv16 {
    (m & !mask) | (if level then mask else 0)
  }

  /** Writing one button's bit leaves that bit at the sampled level and every other bit as it was. */
  lemma WriteSetsOnlyItsBit(m: bv16, mask: bv16, level: bool)
    requires SingleBit(mask)
    ensures Pressed(Write(m, mask, level), mask) == level
    ensures Write(m, mask, level) & !mask == m & !mask
  {
  }

  // SEGA_PIN<n>: the GPIO_IDR_IDR<k> bit of port A that carries DB-9 pin n.
  const Pin1: bv16 := 0x0001  // IDR0
  const Pin2: bv16 := 0x0002  // IDR1
  const Pin3: bv16 := 0x0004  // IDR2
  const Pin4: bv16 := 0x0008  // IDR3
  const Pin6: bv16 := 0x0010  // IDR4
  const Pin9: bv16 := 0x0020  // IDR5

  const Lines: seq<bv16> := [Pin1, Pin2, Pin3, Pin4, Pin6, Pin9]

  /** The six input lines are distinct single bits among IDR bits 0..5. */
  lemma LinesAreDistinctLowBits()
    ensures |Lines| == 6
    ensures forall i | 0 <= i < 6 :: SingleBit(Lines[i]) && Lines[i] & !0x003F == 0
    ensures forall i, j | 0 <= i < j < 6 :: Lines[i] & Lines[j] == 0
  {
  }

  /** READ_BIT(GPIOA->IDR, pin) != 0: the line reads high. */
  predicate Level(idr: bv16, pin: bv16) {
    idr & pin != 0
  }

  /** The levels of the six input lines, as one read of the input data register shows them. */
  datatype LineLevels = LineLevels(p1: bool, p2: bool, p3: bool, p4: bool, p6: bool, p9: bool)

  function ReadLines(idr: bv16): LineLevels {
    LineLevels(Level(idr, Pin1), Level(idr, Pin2), Level(idr, Pin3), Level(idr, Pin4), Level(idr, Pin6), Level(idr, Pin9))
  }

  /** Two reads of the input register give the same line levels exactly when they agree on IDR bits 0..5. */
  lemma ReadLinesSeesExactlyTheLines(idr1: bv16, idr2: bv16)
    ensures ReadLines(idr1) == ReadLines(idr2) <==> idr1 & 0x003F == idr2 & 0x003F
  {
  }

  /**
   * A word written to a port's 32-bit BSRR, split into its two halves:
   * bits 0-15 set pins, bits 16-31 reset them.
   */
  datatype BsrrWord = BsrrWord(setHalf: bv16, resetHalf: bv16)

  /** Output data register bit of PA6, which drives DB-9 pin 7 (SELECT). */
  const SelectBit: bv16 := 0x0040
  /** Output data register bit of PC13, which drives the LED. */
  const LedBit: bv16 := 0x2000

  /** SEGA_SELECT_ON writes GPIO_BSRR_BS6. */
  const SelectOn: BsrrWord := BsrrWord(SelectBit, 0)
  /** SEGA_SELECT_OFF writes GPIO_BSRR_BR6. */
  const SelectOff: BsrrWord := BsrrWord(0, SelectBit)
  /** SEGA_LED_ON writes GPIO_BSRR_BR13. */
  const LedOn: BsrrWord := BsrrWord(0, LedBit)
  /** SEGA_LED_OFF writes GPIO_BSRR_BS13. */
  const LedOff: BsrrWord := BsrrWord(LedBit, 0)

  /**
   * The effect of a BSRR write on the port's output data register; a set
   * wins over a reset of the same pin (section 9.2.5 of the STM32F10x
   * reference manual, RM0008).
   */
  function ApplyBsrr(odr: bv16, w: BsrrWord): bv16 {
    (odr & !w.resetHalf) | w.setHalf
  }

  /** Pin by pin: a set bit drives the pin high, a reset bit without a set drives it low, and a pin named in neither half keeps its level. */
  lemma ApplyBsrrPerPin(odr: bv16, w: BsrrWord, pin: bv16)
    requires SingleBit(pin)
    ensures w.setHalf & pin != 0 ==> ApplyBsrr(odr, w) & pin != 0
    ensures w.setHalf & pin == 0 && w.resetHalf & pin != 0 ==> ApplyBsrr(odr, w) & pin == 0
    ensures w.setHalf & pin == 0 && w.resetHalf & pin == 0 ==> ApplyBsrr(odr, w) & pin == odr & pin
  {
  }

  /** The word the odd-step code writes for a select level: SEGA_SELECT_ON or SEGA_SELECT_OFF. */
  function SelectWord(level: bool): (r: BsrrWord)
    ensures r.setHalf | r.resetHalf == SelectBit
    ensures (r.setHalf == SelectBit) == level && (r.resetHalf == SelectBit) == !level
  {
    if level then SelectOn else SelectOff
  }

  /** The word the finaliser writes for a mask: SEGA_LED_ON if `Buttons` is nonzero, else SEGA_LED_OFF. */
  function LedWord(m: bv16): (r: BsrrWord)
    ensures r.setHalf | r.resetHalf == LedBit
    ensures (r.resetHalf == LedBit) == (m != 0) && (r.setHalf == LedBit) == (m == 0)
  {
    if m != 0 then LedOn else LedOff
  }

  predicate SelectHigh(odrA: bv16) {
    odrA & SelectBit != 0
  }

  /** The LED sinks current into PC13: it is lit while the pin is low. */
  predicate LedLit(odrC: bv16) {
    odrC & LedBit == 0
  }

  /** SEGA_SELECT_ON drives SELECT high and moves no other pin of port A. */
  lemma SelectOnDrivesHigh(odr: bv16)
    ensures SelectHigh(ApplyBsrr(odr, SelectOn))
    ensures ApplyBsrr(odr, SelectOn) & !SelectBit == odr & !SelectBit
  {
  }

  /** SEGA_SELECT_OFF drives SELECT low and moves no other pin of port A. */
  lemma SelectOffDrivesLow(odr: bv16)
    ensures !SelectHigh(ApplyBsrr(odr, SelectOff))
    ensures ApplyBsrr(odr, SelectOff) & !SelectBit == odr & !SelectBit
  {
  }

  /** The LED is active-low: SEGA_LED_ON resets PC13, which lights it. */
  lemma LedOnLights(odr: bv16)
    ensures LedLit(ApplyBsrr(odr, LedOn))
    ensures ApplyBsrr(odr, LedOn) & !LedBit == odr & !LedBit
  {
  }

  /** SEGA_LED_OFF sets PC13, which darkens the LED. */
  lemma LedOffDarkens(odr: bv16)
    ensures !LedLit(ApplyBsrr(odr, LedOff))
    ensures ApplyBsrr(odr, LedOff) & !LedBit == odr & !LedBit
  {
  }

  /** After the odd-step write, SELECT reads the select level and the rest of port A is as before. */
  lemma SelectFollowsLevel(odr: bv16, level: bool)
    ensures SelectHigh(ApplyBsrr(odr, SelectWord(level))) == level
    ensures ApplyBsrr(odr, SelectWord(level)) & !SelectBit == odr & !SelectBit
  {
    if level {
      SelectOnDrivesHigh(odr);
    } else {
      SelectOffDrivesLow(odr);
    }
  }

  /**
   * After the finaliser's write, the LED is lit exactly when some button's
   * bit is set (bits 12-15 being clear), and the rest of port C is as before.
   */
  lemma LedShowsAnyPressed(odr: bv16, m: bv16)
    requires m & Unused == 0
    ensures LedLit(ApplyBsrr(odr, LedWord(m))) == AnyPressed(Decode(m))
    ensures ApplyBsrr(odr, LedWord(m)) & !LedBit == odr & !LedBit
  {
    NonzeroIffAnyPressed(m);
    if m != 0 {
      LedOnLights(odr);
    } else {
      LedOffDarkens(odr);
    }
  }
}
