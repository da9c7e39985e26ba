/**
 * The 3-byte USB HID report (the packed struct USB_Custom_HID_Gamepad) and
 * the finaliser of TIM3_IRQHandler that derives it from the button mask.
 */
module Report {
  import opened Pins

  newtype int8 = i: int | -128 <= i < 128

  /** int8_t x, int8_t y, uint8_t buttons, in that order. */
  datatype GamepadReport = GamepadReport(x: int8, y: int8, buttons: bv8)

  /** `Gamepad_data` before any report has been built (a zero-initialised global). */
  const NoReport: GamepadReport := GamepadReport(0, 0, 0)

  /**
   * One axis from its two direction buttons, following the finaliser's
   * if/else-if chain: -128 for the negative direction alone, 127 for the
   * positive one alone, 0 for both and for neither.
   */
  function Axis(negative: bool, positive: bool): (r: int8)
    ensures r == -128 <==> negative && !positive
    ensures r == 127 <==> positive && !negative
    ensures r == 0 <==> negative == positive
  {
    if negative && !positive then -128
    else if positive && !negative then 127
    else if negative && positive then 0
    else 0
  }

  /** `Buttons >> 4` stored into the uint8_t field, which keeps the low 8 bits. */
  function ButtonsByte(m: bv16): (r: bv8)
    ensures r == ByteOf(Decode(m))
  {
    ((m >> 4) & 0xFF) as bv8
  }

  /**
   * The report the finaliser fills in from the mask; it is the report of
   * the decoded button flags.
   */
  function Finalise(m: bv16): (r: GamepadReport)
    ensures r == ReportOf(Decode(m))
  {
    GamepadReport(
      x := Axis(Pressed(m, MaskLeft), Pressed(m, MaskRight)),
      y := Axis(Pressed(m, MaskUp), Pressed(m, MaskDown)),
      buttons := ButtonsByte(m))
  }

  /** The y axis truth table: UP alone gives -128, DOWN alone 127, both or neither 0. */
  lemma AxisYTruthTable(m: bv16)
    ensures Finalise(m).y == -128 <==> Pressed(m, MaskUp) && !Pressed(m, MaskDown)
    ensures Finalise(m).y == 127 <==> Pressed(m, MaskDown) && !Pressed(m, MaskUp)
    ensures Finalise(m).y == 0 <==> Pressed(m, MaskUp) == Pressed(m, MaskDown)
  {
  }

  /** The x axis truth table: LEFT alone gives -128, RIGHT alone 127, both or neither 0. */
  lemma AxisXTruthTable(m: bv16)
    ensures Finalise(m).x == -128 <==> Pressed(m, MaskLeft) && !Pressed(m, MaskRight)
    ensures Finalise(m).x == 127 <==> Pressed(m, MaskRight) && !Pressed(m, MaskLeft)
    ensures Finalise(m).x == 0 <==> Pressed(m, MaskLeft) == Pressed(m, MaskRight)
  {
  }

  // Bits of the report's buttons byte.
  const ReportA: bv8 := 0x80
  const ReportB: bv8 := 0x40
  const ReportC: bv8 := 0x20
  const ReportX: bv8 := 0x10
  const ReportY: bv8 := 0x08
  const ReportZ: bv8 := 0x04
  const ReportStart: bv8 := 0x02
  const ReportMode: bv8 := 0x01

  /** The upper four buttons of the byte: A is bit 7, B bit 6, C bit 5, X bit 4. */
  lemma ReportByteHighNibble(m: bv16)
    ensures (Finalise(m).buttons & ReportA != 0) == Pressed(m, MaskA)
    ensures (Finalise(m).buttons & ReportB != 0) == Pressed(m, MaskB)
    ensures (Finalise(m).buttons & ReportC != 0) == Pressed(m, MaskC)
    ensures (Finalise(m).buttons & ReportX != 0) == Pressed(m, MaskX)
  {
  }

  /** The lower four buttons of the byte: Y is bit 3, Z bit 2, START bit 1, MODE bit 0. */
  lemma ReportByteLowNibble(m: bv16)
    ensures (Finalise(m).buttons & ReportY != 0) == Pressed(m, MaskY)
    ensures (Finalise(m).buttons & ReportZ != 0) == Pressed(m, MaskZ)
    ensures (Finalise(m).buttons & ReportStart != 0) == Pressed(m, MaskStart)
    ensures (Finalise(m).buttons & ReportMode != 0) == Pressed(m, MaskMode)
  {
  }

  /** The buttons byte does not depend on the four direction bits. */
  lemma ButtonsByteIgnoresDirections(m1: bv16, m2: bv16)
    requires m1 & !Directions == m2 & !Directions
    ensures Finalise(m1).buttons == Finalise(m2).buttons
  {
  }

  /** The whole report depends only on bits 0-11 of the mask. */
  lemma ReportDependsOnButtonsOnly(m1: bv16, m2: bv16)
    requires m1 & AllButtons == m2 & AllButtons
    ensures Finalise(m1) == Finalise(m2)
  {
  }

  /**
   * The buttons byte built from the flags, one bit per button in the order
   * that `Buttons >> 4` leaves them.
   */
  function ByteOf(p: ButtonSet): (r: bv8)
    ensures (r & ReportA != 0) == p.a && (r & ReportB != 0) == p.b
    ensures (r & ReportC != 0) == p.c && (r & ReportX != 0) == p.x
    ensures (r & ReportY != 0) == p.y && (r & ReportZ != 0) == p.z
    ensures (r & ReportStart != 0) == p.start && (r & ReportMode != 0) == p.mode
  {
    (if p.a then ReportA else 0) | (if p.b then ReportB else 0) |
    (if p.c then ReportC else 0) | (if p.x then ReportX else 0) |
    (if p.y then ReportY else 0) | (if p.z then ReportZ else 0) |
    (if p.start then ReportStart else 0) | (if p.mode then ReportMode else 0)
  }

  /** The finaliser stated on the flags rather than on the mask. */
  function ReportOf(p: ButtonSet): GamepadReport {
    GamepadReport(Axis(p.left, p.right), Axis(p.up, p.down), ByteOf(p))
  }
}
