# SEGA Mega Drive 6-button pad decoder, modelled in Dafny

This project models the firmware that reads a SEGA Mega Drive 6-button pad over its DB-9 connector on an STM32F103 and reports it as a USB HID gamepad. It covers the two interrupt handlers of `SEGA_gamepad.c`.

`TIM3_IRQHandler` runs at 100 kHz and steps a 17-step strobe sequence (`Counter` 0..16):
- On odd steps it toggles `flag_SELECT` and drives the SELECT line (DB-9 pin 7).
- On even steps a `switch` copies the six input lines (pins 1, 2, 3, 4, 6, 9) into bits of the 16-bit `Buttons` mask.
- When the counter passes 16, the finaliser runs:
  - it resets the counter and stops the timer;
  - it sets the LED from `Buttons != 0`;
  - it derives the signed `x`/`y` axes from the four direction bits and packs `Buttons >> 4` into the report's `buttons` byte;
  - it sends the 3-byte report.

`TIM2_IRQHandler` runs at 240 Hz and arms a cycle: it sets `flag_SELECT` and enables TIM3.

The project has four modules:
- `Pins` holds the header's constants:
  - the twelve `SEGA_*_Pos` masks and the six `SEGA_PIN*` input bits;
  - the SELECT/LED macros, as writes to the GPIO bit set/reset register;
  - `Decode`, which reads the mask as twelve button flags (`ButtonSet`);
  - `ReadLines`, which reads the input register as six line levels.
- `Report` holds:
  - the report struct;
  - the finaliser as a pure function on the mask (`Finalise`) and on the flags (`ReportOf`);
  - the contract of `Finalise` that ties the two, and lemmas for the truth tables and the byte layout.
- `Strobe` is the state machine as pure functions:
  - `Sample` is the `switch`, `Next` is one tick and `Arm` is TIM2;
  - `Run`/`Reports` cover a sequence of ticks;
  - lemmas describe a full 17-tick cycle.
- `Driver` holds the class `Gamepad`. Its fields are the firmware's globals and output registers. `Tick` and `BeginCycle` follow the handlers statement by statement. They are proved against `Strobe.Next` and `Strobe.Arm` through `Core()`, so the cycle lemmas of `Strobe` describe runs of `Tick`.

Four facts about the code shape what the model proves:
- Steps 2 and 6 write UP and DOWN from PIN1 and PIN2 as well as A and START from PIN6 and PIN9. Steps 10 and 14 write only A and START.
- There is no `case 16`, so step 16 samples nothing. The final UP, DOWN, LEFT and RIGHT come from step 8 (`Strobe.FullCycle`).
- `TIM2_IRQHandler` sets `flag_SELECT` whatever `Counter` is. Arming at steps 2 or 3 (mod 4) puts the select level out of phase with the counter (`Strobe.ArmMidCycleBreaksPhase`).
- The tick from step 16 leaves `flag_SELECT` as it is. It is high then, after eight toggles (`Strobe.NextKeepsPhase`, `Strobe.FullCycle`).

## Model

| member | source | states |
|---|---|---|
| Pins.ButtonMasksAreDistinctBits | SEGA_USB_GamePad/Core/Inc/SEGA_gamepad.h:78-89 | each of the twelve button masks is a single bit and no two share one |
| Pins.ButtonMasksCoverLow12 | SEGA_USB_GamePad/Core/Inc/SEGA_gamepad.h:78-89 | the twelve masks together are exactly bits 0-11; bits 12-15 are unused |
| Pins.DirectionsAreLowNibble | SEGA_USB_GamePad/Core/Inc/SEGA_gamepad.h:86-89 | UP, DOWN, LEFT, RIGHT are exactly bits 3..0 and no other button lies there, so `>> 4` drops precisely the directions |
| Pins.LinesAreDistinctLowBits | SEGA_USB_GamePad/Core/Inc/SEGA_gamepad.h:71-76 | the six input lines are distinct single bits among IDR bits 0..5 |
| Pins.Decode | SEGA_USB_GamePad/Core/Src/SEGA_gamepad.c:424 | reading the twelve button bits as flags: some flag is set exactly when some bit of 0-11 is set |
| Pins.WriteSetsOnlyItsBit | SEGA_USB_GamePad/Core/Src/SEGA_gamepad.c:150-157 | a SET_BIT/CLEAR_BIT pair on a button mask (`Pins.Write`) leaves that bit at the sampled level and every other bit of `Buttons` as it was |
| Pins.ReadLinesSeesExactlyTheLines | SEGA_USB_GamePad/Core/Inc/SEGA_gamepad.h:71-76 | the six `READ_BIT(GPIOA->IDR, SEGA_PIN*)` levels (`Pins.Level`, `Pins.ReadLines`) agree for two register values exactly when they agree on IDR bits 0..5 |
| Pins.DecodeInjective | SEGA_USB_GamePad/Core/Src/SEGA_gamepad.c:70 | the twelve flags plus the top nibble determine the 16-bit mask, so the flag view of `Buttons` loses nothing |
| Pins.NonzeroIffAnyPressed | SEGA_USB_GamePad/Core/Src/SEGA_gamepad.c:424 | with bits 12-15 clear, `Buttons != 0` exactly when some button flag is set |
| Pins.ApplyBsrrPerPin | SEGA_USB_GamePad/Core/Inc/SEGA_gamepad.h:91-94 | a BSRR write drives each pin in its set half high, each pin only in its reset half low, and leaves every other pin of the port as it was |
| Pins.SelectWord | SEGA_USB_GamePad/Core/Src/SEGA_gamepad.c:140-145 | the odd-step write touches only the SELECT bit, setting it when the flag is high and resetting it when low |
| Pins.LedWord | SEGA_USB_GamePad/Core/Src/SEGA_gamepad.c:424-429 | the finaliser's LED write touches only PC13, resetting it when `Buttons` is nonzero and setting it when zero |
| Pins.SelectOnDrivesHigh | SEGA_USB_GamePad/Core/Inc/SEGA_gamepad.h:91 | SEGA_SELECT_ON drives SELECT high and moves no other pin of port A |
| Pins.SelectOffDrivesLow | SEGA_USB_GamePad/Core/Inc/SEGA_gamepad.h:92 | SEGA_SELECT_OFF drives SELECT low and moves no other pin of port A |
| Pins.LedOnLights | SEGA_USB_GamePad/Core/Inc/SEGA_gamepad.h:93 | SEGA_LED_ON resets PC13, which lights the active-low LED, and moves no other pin |
| Pins.LedOffDarkens | SEGA_USB_GamePad/Core/Inc/SEGA_gamepad.h:94 | SEGA_LED_OFF sets PC13, which darkens the LED, and moves no other pin |
| Pins.SelectFollowsLevel | SEGA_USB_GamePad/Core/Src/SEGA_gamepad.c:139-145 | after the odd-step write, SELECT reads exactly the new select level |
| Pins.LedShowsAnyPressed | SEGA_USB_GamePad/Core/Src/SEGA_gamepad.c:424-429 | after the finaliser's LED write, the LED is lit exactly when some button is pressed |
| Report.Axis | SEGA_USB_GamePad/Core/Src/SEGA_gamepad.c:431-457 | an axis is -128 exactly when only its negative button is set, 127 exactly when only its positive one is, 0 exactly when both or neither are |
| Report.AxisYTruthTable | SEGA_USB_GamePad/Core/Src/SEGA_gamepad.c:431-443 | y is -128 for UP alone, 127 for DOWN alone, 0 for both or neither |
| Report.AxisXTruthTable | SEGA_USB_GamePad/Core/Src/SEGA_gamepad.c:445-457 | x is -128 for LEFT alone, 127 for RIGHT alone, 0 for both or neither |
| Report.ReportByteHighNibble | SEGA_USB_GamePad/Core/Src/SEGA_gamepad.c:458 | after `Buttons >> 4`, A is bit 7, B bit 6, C bit 5, X bit 4 of the report byte |
| Report.ReportByteLowNibble | SEGA_USB_GamePad/Core/Src/SEGA_gamepad.c:458 | after `Buttons >> 4`, Y is bit 3, Z bit 2, START bit 1, MODE bit 0 |
| Report.ButtonsByteIgnoresDirections | SEGA_USB_GamePad/Core/Src/SEGA_gamepad.c:458 | the report byte does not depend on bits 0-3 |
| Report.ReportDependsOnButtonsOnly | SEGA_USB_GamePad/Core/Src/SEGA_gamepad.c:431-458 | the whole report depends only on bits 0-11 of the mask |
| Report.ByteOf | SEGA_USB_GamePad/Core/Inc/main.h:15 | each bit of the report byte is the flag of its button, in the order `>> 4` leaves them |
| Report.ButtonsByte | SEGA_USB_GamePad/Core/Src/SEGA_gamepad.c:458 | `Buttons >> 4` stored into the `uint8_t` field is the byte with one bit per decoded button flag (`ByteOf`) |
| Report.Finalise | SEGA_USB_GamePad/Core/Src/SEGA_gamepad.c:431-458 | the report the finaliser builds from the mask is the report of the decoded flags (`ReportOf`: both axes by `Axis`, the byte by `ByteOf`) |
| Strobe.Sample | SEGA_USB_GamePad/Core/Src/SEGA_gamepad.c:148-417 | for each button, the steps that write it and the line it is read from; every other button keeps its value |
| Strobe.NoCaseNoChange | SEGA_USB_GamePad/Core/Src/SEGA_gamepad.c:148-417 | odd steps and step 16 change no button |
| Strobe.Next | SEGA_USB_GamePad/Core/Src/SEGA_gamepad.c:137-146 | a tick advances the counter modulo 17 and flips the select level exactly on odd steps |
| Strobe.Emit | SEGA_USB_GamePad/Core/Src/SEGA_gamepad.c:419-459 | a tick sends at most one report, exactly when the counter passes 16, and that report is the one of the flags after the tick |
| Strobe.Arm | SEGA_USB_GamePad/Core/Src/SEGA_gamepad.c:115-122 | TIM2 sets the select level high and leaves the counter and the flags alone |
| Strobe.OddStepOnlyToggles | SEGA_USB_GamePad/Core/Src/SEGA_gamepad.c:137-146 | on an odd step a tick toggles the select level, keeps the flags and sends nothing |
| Strobe.LastStep | SEGA_USB_GamePad/Core/Src/SEGA_gamepad.c:419-459 | the tick from step 16 keeps flags and select level, resets the counter to 0 and sends exactly the report of the final flags |
| Strobe.RunAppend | SEGA_USB_GamePad/Core/Src/SEGA_gamepad.c:134-463 | ticking over two sample sequences in turn equals ticking over their concatenation, for state and reports |
| Strobe.RunWithinCycle | SEGA_USB_GamePad/Core/Src/SEGA_gamepad.c:419-459 | within a cycle the counter advances by one per tick and wraps to 0 after step 16; only that tick sends a report |
| Strobe.RunKeepsDirections | SEGA_USB_GamePad/Core/Src/SEGA_gamepad.c:341-416 | no step after 8 writes a direction |
| Strobe.RunKeepsExtended | SEGA_USB_GamePad/Core/Src/SEGA_gamepad.c:401-416 | no step after 12 writes Z, Y, X, MODE, B or C |
| Strobe.RunKeepsAStart | SEGA_USB_GamePad/Core/Src/SEGA_gamepad.c:148-417 | no step after 14 writes A or START |
| Strobe.SplitAt | SEGA_USB_GamePad/Core/Src/SEGA_gamepad.c:419-422 | a cycle reaches step k after k ticks and decomposes at its k-th tick |
| Strobe.DirectionsFromStep8 | SEGA_USB_GamePad/Core/Src/SEGA_gamepad.c:297-340 | after a cycle UP, DOWN, LEFT, RIGHT hold what step 8 read |
| Strobe.ExtendedFromStep12 | SEGA_USB_GamePad/Core/Src/SEGA_gamepad.c:357-400 | after a cycle Z, Y, X, MODE, B, C hold what step 12 read |
| Strobe.AStartFromStep14 | SEGA_USB_GamePad/Core/Src/SEGA_gamepad.c:401-416 | after a cycle A and START hold what step 14 read |
| Strobe.FullCycle | SEGA_USB_GamePad/Core/Src/SEGA_gamepad.c:134-463 | a cycle from select high and counter 0 ends with the flags decoded from the step-8, -12 and -14 samples, select high, counter 0, and exactly one report of those flags |
| Strobe.SelectAtEvenSteps | SEGA_USB_GamePad/Core/Src/SEGA_gamepad.c:118-146 | from the start of a cycle, the select level at even step k is high exactly when k is a multiple of 4 |
| Strobe.CycleForgetsPriorFlags | SEGA_USB_GamePad/Core/Src/SEGA_gamepad.c:148-417 | the state and report after a cycle do not depend on the flags before it |
| Strobe.CycleRepeatable | SEGA_USB_GamePad/Core/Src/SEGA_gamepad.c:115-463 | re-arming and repeating a cycle over the same samples reproduces the same state and report |
| Strobe.FinaliserOncePer17Ticks | SEGA_USB_GamePad/Core/Src/SEGA_gamepad.c:419-459 | from any step, 17 ticks send exactly one report and bring the counter back |
| Strobe.NextKeepsPhase | SEGA_USB_GamePad/Core/Src/SEGA_gamepad.c:137-146 | a tick keeps the select level in phase with the counter, including the wrap from 16 to 0 |
| Strobe.RunKeepsPhase | SEGA_USB_GamePad/Core/Src/SEGA_gamepad.c:137-146 | any run of ticks keeps the select level in phase and the counter in 0..16 |
| Strobe.ArmWhenIdle | SEGA_USB_GamePad/Core/Src/SEGA_gamepad.c:115-122 | arming at counter 0 gives the regular cycle start, in phase |
| Strobe.ArmMidCycleBreaksPhase | SEGA_USB_GamePad/Core/Src/SEGA_gamepad.c:118 | arming at steps 2 or 3 (mod 4) keeps counter and flags but puts the select level out of phase |
| Strobe.IdleLinesScenario | SEGA_USB_GamePad/Core/Src/SEGA_gamepad.c:134-463 | no line high at steps 8, 12 and 14: no flag set and the report is (0, 0, 0) |
| Strobe.UpOnlyScenario | SEGA_USB_GamePad/Core/Src/SEGA_gamepad.c:134-463 | only PIN1 high at step 8: only UP is set and the report is (0, -128, 0) |
| Strobe.SixAndNineScenario | SEGA_USB_GamePad/Core/Src/SEGA_gamepad.c:134-463 | PIN6 and PIN9 high at steps 8, 12, 14: A, B, C, START are set and the report byte holds exactly those |
| Driver.Gamepad.constructor | SEGA_USB_GamePad/Core/Src/SEGA_gamepad.c:70-72 | the globals start at zero with the tick timer stopped and nothing sent |
| Driver.Gamepad.BeginCycle | SEGA_USB_GamePad/Core/Src/SEGA_gamepad.c:115-122 | TIM2 sets the select flag and enables ticking; the counter, the mask and the pins are unchanged |
| Driver.Gamepad.SampleDirections | SEGA_USB_GamePad/Core/Src/SEGA_gamepad.c:149-192 | cases 0, 4 and 8 copy the lines into the mask as `Sample` says; bits 12-15 are unchanged |
| Driver.Gamepad.SampleUpDownStart | SEGA_USB_GamePad/Core/Src/SEGA_gamepad.c:193-222 | cases 2 and 6 copy the lines into the mask as `Sample` says; bits 12-15 are unchanged |
| Driver.Gamepad.SampleStart | SEGA_USB_GamePad/Core/Src/SEGA_gamepad.c:341-356 | cases 10 and 14 copy the lines into the mask as `Sample` says; bits 12-15 are unchanged |
| Driver.Gamepad.SampleExtended | SEGA_USB_GamePad/Core/Src/SEGA_gamepad.c:357-400 | case 12 copies the lines into the mask as `Sample` says; bits 12-15 are unchanged |
| Driver.Gamepad.SampleLines | SEGA_USB_GamePad/Core/Src/SEGA_gamepad.c:148-417 | the switch changes the decoded mask exactly as `Sample` at the current step, and no other field |
| Driver.Gamepad.StrobeSelect | SEGA_USB_GamePad/Core/Src/SEGA_gamepad.c:137-146 | on odd steps the flag toggles and SELECT is written with the new level; on even steps nothing changes |
| Driver.Gamepad.Advance | SEGA_USB_GamePad/Core/Src/SEGA_gamepad.c:419-459 | the counter advances modulo 17; after step 16 the timer stops, the LED is written from the mask, and the report is built and sent |
| Driver.Gamepad.Tick | SEGA_USB_GamePad/Core/Src/SEGA_gamepad.c:134-463 | one TIM3 update moves the state by `Strobe.Next` and the sent reports by `Strobe.Emit`, keeps the counter in 0..16 and bits 12-15 clear, and writes SELECT, LED and the report as the handler does |

## Left out

- `SEGA_GPIO_Init` (pin configuration) and the timer, clock and USB bring-up in `main.c` are register set-up with no logic. The constructor takes the output registers' contents as parameters.
- `USBD_CUSTOM_HID_SendReport` is a call into the USB stack. It is modelled by appending the report to the ghost sequence `sent`.
- The `TIM_SR_UIF` tests and clears are left out. A call to `Tick` or `BeginCycle` stands for an interrupt that fired with its update flag set.
- Enabling and disabling TIM3 is modelled only as the `tickEnabled` flag. Nothing in the model stops `Tick` from being called while it is false.
- Real timing is left out: the 100 kHz and 240 Hz rates, settling between strobe edges, and preemption or interleaving of the two handlers. The handlers are atomic, sequential method calls.
- Electrical levels are left out. A line reading high sets its bit, as `READ_BIT` does.
- The input register is a parameter of `Tick` (`idr`), standing for the value `GPIOA->IDR` reads during that tick. The model takes the whole register value as read once per tick. In the code each line is read by its own `READ_BIT`.
- BSRR writes are modelled with the 32-bit word split into its set half and its reset half (`BsrrWord`). Their effect on the output data register follows section 9.2.5 of the STM32F10x reference manual (RM0008).
- `Counter` is a `uint8_t` in the code and a `nat` in the model. `Valid()` keeps it in 0..16, so 8-bit wrap-around is never reached.
- `Driver.Gamepad.Tick`: states the LED and SELECT results as the register words written (`LedWord`, `SelectWord` through `ApplyBsrr`). Their meaning as pin levels is in the separate lemmas `Pins.SelectFollowsLevel` and `Pins.LedShowsAnyPressed`.
- `Strobe.SelectAtEvenSteps`: states the select level only for cycles that start from the regular start (select high, counter 0). Other starting points are covered only by `Strobe.ArmMidCycleBreaksPhase`.
