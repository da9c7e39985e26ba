/**
 * The pad driver's interrupt handlers over its global state. TIM2_IRQHandler
 * (BeginCycle) arms a strobe cycle; every TIM3_IRQHandler update (Tick)
 * toggles SELECT on odd steps, samples the input lines into `Buttons` on
 * even ones, and after step 16 stops the tick timer, sets the LED and sends
 * the report. Each method is proved against the pure sequencer of `Strobe`
 * through `Core()`, so the cycle lemmas there describe these methods.
 */
module Driver {
  import opened Pins
  import opened Report
  import opened Strobe

  class Gamepad {
    /** `Buttons`: bits 0-11 hold the twelve buttons. */
    var buttons: bv16
    /** `flag_SELECT`. */
    var flagSelect: bool
    /** `Counter`: the strobe step. */
    var counter: nat
    /** The CEN bit of TIM3->CR1: whether ticks arrive. */
    var tickEnabled: bool
    /** GPIOA->ODR, whose bit 6 drives SELECT. */
    var portA: bv16
    /** GPIOC->ODR, whose bit 13 drives the LED. */
    var portC: bv16
    /** `Gamepad_data`: the last report built. */
    var report: GamepadReport
    /** The reports handed to USBD_CUSTOM_HID_SendReport, in order. */
    ghost var sent: seq<GamepadReport>

    /** The counter stays in 0..16 and bits 12-15 of `Buttons` stay clear. */
    predicate Valid()
      reads this
    {
      counter <= 16 && buttons & Unused == 0
    }

    /** The sequencer state these fields represent. */
    function Core(): Sequencer
      reads this
    {
      Sequencer(Decode(buttons), flagSelect, counter)
    }

    /**
     * The zero-initialised globals at reset, with the tick timer stopped;
     * the output registers hold whatever bring-up left in them.
     */
    constructor (odrA: bv16, odrC: bv16)
      ensures Valid()
      ensures buttons == 0 && !flagSelect && counter == 0 && !tickEnabled
      ensures portA == odrA && portC == odrC && report == NoReport && sent == []
    {
      buttons := 0;
      flagSelect := false;
      counter := 0;
      tickEnabled := false;
      portA := odrA;
      portC := odrC;
      report := NoReport;
      sent := [];
    }

    /**
     * TIM2_IRQHandler: set `flag_SELECT` and enable the tick timer. The
     * counter, the mask and the pins are left as they are; in particular
     * the SELECT pin is not driven here.
     */
    method BeginCycle()
      requires Valid()
      modifies this
      ensures Valid()
      ensures Core() == Arm(old(Core())) && tickEnabled
      ensures buttons == old(buttons) && portA == old(portA) && portC == old(portC)
      ensures report == old(report) && sent == old(sent)
    {
      flagSelect := true;
      tickEnabled := true;
    }

    /** Cases 0, 4 and 8: UP, DOWN, LEFT, RIGHT, B, C from PIN1, PIN2, PIN3, PIN4, PIN6, PIN9. */
    method SampleDirections(idr: bv16)
      requires counter == 0 || counter == 4 || counter == 8
      modifies this`buttons
      ensures Decode(buttons) == Sample(Decode(old(buttons)), counter, ReadLines(idr))
      ensures buttons & Unused == old(buttons) & Unused
    {
      buttons := Write(buttons, MaskUp, Level(idr, Pin1));
      buttons := Write(buttons, MaskDown, Level(idr, Pin2));
      buttons := Write(buttons, MaskLeft, Level(idr, Pin3));
      buttons := Write(buttons, MaskRight, Level(idr, Pin4));
      buttons := Write(buttons, MaskB, Level(idr, Pin6));
      buttons := Write(buttons, MaskC, Level(idr, Pin9));
    }

    /** Cases 2 and 6: UP, DOWN, A, START from PIN1, PIN2, PIN6, PIN9. */
    method SampleUpDownStart(idr: bv16)
      requires counter == 2 || counter == 6
      modifies this`buttons
      ensures Decode(buttons) == Sample(Decode(old(buttons)), counter, ReadLines(idr))
      ensures buttons & Unused == old(buttons) & Unused
    {
      buttons := Write(buttons, MaskUp, Level(idr, Pin1));
      buttons := Write(buttons, MaskDown, Level(idr, Pin2));
      buttons := Write(buttons, MaskA, Level(idr, Pin6));
      buttons := Write(buttons, MaskStart, Level(idr, Pin9));
    }

    /** Cases 10 and 14: A, START from PIN6, PIN9. */
    method SampleStart(idr: bv16)
      requires counter == 10 || counter == 14
      modifies this`buttons
      ensures Decode(buttons) == Sample(Decode(old(buttons)), counter, ReadLines(idr))
      ensures buttons & Unused == old(buttons) & Unused
    {
      buttons := Write(buttons, MaskA, Level(idr, Pin6));
      buttons := Write(buttons, MaskStart, Level(idr, Pin9));
    }

    /** Case 12: Z, Y, X, MODE, B, C from PIN1, PIN2, PIN3, PIN4, PIN6, PIN9. */
    method SampleExtended(idr: bv16)
      requires counter == 12
      modifies this`buttons
      ensures Decode(buttons) == Sample(Decode(old(buttons)), counter, ReadLines(idr))
      ensures buttons & Unused == old(buttons) & Unused
    {
      buttons := Write(buttons, MaskZ, Level(idr, Pin1));
      buttons := Write(buttons, MaskY, Level(idr, Pin2));
      buttons := Write(buttons, MaskX, Level(idr, Pin3));
      buttons := Write(buttons, MaskMode, Level(idr, Pin4));
      buttons := Write(buttons, MaskB, Level(idr, Pin6));
      buttons := Write(buttons, MaskC, Level(idr, Pin9));
    }

    /**
     * The `switch (Counter)`: each case copies its lines into its button
     * bits, SET_BIT for a high line and CLEAR_BIT for a low one; the odd
     * steps and step 16 have no case.
     */
    method SampleLines(idr: bv16)
      modifies this`buttons
      ensures Decode(buttons) == Sample(Decode(old(buttons)), counter, ReadLines(idr))
      ensures buttons & Unused == old(buttons) & Unused
      ensures counter == old(counter) && flagSelect == old(flagSelect) && tickEnabled == old(tickEnabled)
      ensures portA == old(portA) && portC == old(portC) && report == old(report) && sent == old(sent)
    {
      if counter == 0 || counter == 4 || counter == 8 {
        SampleDirections(idr);
      } else if counter == 2 || counter == 6 {
        SampleUpDownStart(idr);
      } else if counter == 10 || counter == 14 {
        SampleStart(idr);
      } else if counter == 12 {
        SampleExtended(idr);
      }
    }

    /** SEGA_gamepad.c, lines 137-146: on an odd step, toggle `flag_SELECT` and drive SELECT to its new value. */
    method StrobeSelect()
      modifies this`flagSelect, this`portA
      ensures flagSelect == (old(flagSelect) != (counter % 2 == 1))
      ensures portA == if counter % 2 == 1 then ApplyBsrr(old(portA), SelectWord(flagSelect)) else old(portA)
      ensures buttons == old(buttons) && counter == old(counter) && tickEnabled == old(tickEnabled)
      ensures portC == old(portC) && report == old(report) && sent == old(sent)
    {
      if counter % 2 != 0 {
        flagSelect := !flagSelect;
        if flagSelect {
          portA := ApplyBsrr(portA, SelectOn);
        } else {
          portA := ApplyBsrr(portA, SelectOff);
        }
      }
    }

    /**
     * SEGA_gamepad.c, lines 419-459: advance the counter; once it passes 16, reset it, stop
     * the tick timer, set the LED from `Buttons != 0`, build the report and
     * send it.
     */
    method Advance()
      requires counter <= 16
      modifies this`counter, this`tickEnabled, this`portC, this`report, this`sent
      ensures counter == (old(counter) + 1) % 17
      ensures tickEnabled == (old(tickEnabled) && old(counter) != 16)
      ensures portC == if old(counter) == 16 then ApplyBsrr(old(portC), LedWord(buttons)) else old(portC)
      ensures report == if old(counter) == 16 then Finalise(buttons) else old(report)
      ensures sent == if old(counter) == 16 then old(sent) + [ReportOf(Decode(buttons))] else old(sent)
      ensures buttons == old(buttons) && flagSelect == old(flagSelect) && portA == old(portA)
    {
      counter := counter + 1;
      if counter > 16 {
        counter := 0;
        tickEnabled := false;
        if buttons != 0 {
          portC := ApplyBsrr(portC, LedOn);
        } else {
          portC := ApplyBsrr(portC, LedOff);
        }
        report := Finalise(buttons);
        sent := sent + [report];
      }
    }

    /**
     * TIM3_IRQHandler on an update event, with `idr` the value GPIOA->IDR
     * reads during it. The sequencer state moves by one `Next` and the sent
     * reports by its `Emit`; on an odd step SELECT is driven to the new
     * select level; the tick from step 16 stops the timer, sets the LED from
     * the final mask and keeps the report it built in `Gamepad_data`.
     */
    method Tick(idr: bv16)
      requires Valid()
      modifies this
      ensures Valid()
      ensures Core() == Next(old(Core()), ReadLines(idr))
      ensures sent == old(sent) + Emit(old(Core()), ReadLines(idr))
      ensures portA == if old(counter) % 2 == 1 then ApplyBsrr(old(portA), SelectWord(flagSelect)) else old(portA)
      ensures tickEnabled == (old(tickEnabled) && old(counter) != 16)
      ensures portC == if old(counter) == 16 then ApplyBsrr(old(portC), LedWord(buttons)) else old(portC)
      ensures report == if old(counter) == 16 then Finalise(buttons) else old(report)
    {
      StrobeSelect();
      SampleLines(idr);
      Advance();
    }
  }
}
