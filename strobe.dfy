/**
 * The strobe/sample state machine of TIM3_IRQHandler as pure functions over
 * the button flags: one sampling step keyed by the counter (`Sample`), one
 * tick (`Next`), the arming done by TIM2_IRQHandler (`Arm`), and runs of
 * ticks over a sequence of sampled line levels. The lemmas say what one
 * tick and one full 17-tick cycle do to the flags, the select level, the
 * counter and the reports sent.
 */
module Strobe {
  import opened Pins
  import opened Report

  /** Steps 0, 4 and 8: the rows that read all four directions. */
  predicate DirectionStep(step: nat) {
    step == 0 || step == 4 || step == 8
  }

  /** The steps whose row reads UP from PIN1 and DOWN from PIN2. */
  predicate ReadsUpDown(step: nat) {
    step == 0 || step == 2 || step == 4 || step == 6 || step == 8
  }

  /** The steps whose row reads B from PIN6 and C from PIN9. */
  predicate ReadsBC(step: nat) {
    step == 0 || step == 4 || step == 8 || step == 12
  }

  /** The steps whose row reads A from PIN6 and START from PIN9. */
  predicate ReadsAStart(step: nat) {
    step == 2 || step == 6 || step == 10 || step == 14
  }

  /**
   * The `switch (Counter)` of TIM3_IRQHandler: steps 0, 4 and 8 read UP,
   * DOWN, LEFT, RIGHT, B and C; steps 2 and 6 read UP, DOWN, A and START;
   * steps 10 and 14 read A and START; step 12 reads Z, Y, X, MODE, B and C;
   * every other step has no case and reads nothing. The ensures give the
   * same table column by column: for each button, the steps that write it
   * and the line it is read from.
   */
  function Sample(p: ButtonSet, step: nat, l: LineLevels): (r: ButtonSet)
    ensures r.up == (if ReadsUpDown(step) then l.p1 else p.up)
    ensures r.down == (if ReadsUpDown(step) then l.p2 else p.down)
    ensures r.left == (if DirectionStep(step) then l.p3 else p.left)
    ensures r.right == (if DirectionStep(step) then l.p4 else p.right)
    ensures r.b == (if ReadsBC(step) then l.p6 else p.b)
    ensures r.c == (if ReadsBC(step) then l.p9 else p.c)
    ensures r.a == (if ReadsAStart(step) then l.p6 else p.a)
    ensures r.start == (if ReadsAStart(step) then l.p9 else p.start)
    ensures r.z == (if step == 12 then l.p1 else p.z)
    ensures r.y == (if step == 12 then l.p2 else p.y)
    ensures r.x == (if step == 12 then l.p3 else p.x)
    ensures r.mode == (if step == 12 then l.p4 else p.mode)
  {
    if step == 0 || step == 4 || step == 8 then
      p.(up := l.p1, down := l.p2, left := l.p3, right := l.p4, b := l.p6, c := l.p9)
    else if step == 2 || step == 6 then
      p.(up := l.p1, down := l.p2, a := l.p6, start := l.p9)
    else if step == 10 || step == 14 then
      p.(a := l.p6, start := l.p9)
    else if step == 12 then
      p.(z := l.p1, y := l.p2, x := l.p3, mode := l.p4, b := l.p6, c := l.p9)
    else
      p
  }

  /** Odd steps and step 16 have no case: sampling changes nothing. */
  lemma NoCaseNoChange(p: ButtonSet, step: nat, l: LineLevels)
    requires step % 2 == 1 || step >= 15
    ensures Sample(p, step, l) == p
  {
  }

  /** The state TIM3_IRQHandler keeps between ticks: `Buttons`, `flag_SELECT`, `Counter`. */
  datatype Sequencer = Sequencer(buttons: ButtonSet, select: bool, counter: nat)

  /**
   * One tick: on an odd counter toggle the select level; sample the lines
   * for the current step; advance the counter, back to 0 past 16.
   */
  function Next(s: Sequencer, l: LineLevels): (r: Sequencer)
    ensures s.counter <= 16 ==> r.counter == (s.counter + 1) % 17
    ensures r.select == (s.select != (s.counter % 2 == 1))
  {
    Sequencer(
      Sample(s.buttons, s.counter, l),
      if s.counter % 2 != 0 then !s.select else s.select,
      if s.counter + 1 > 16 then 0 else s.counter + 1)
  }

  /** The tick whose incremented counter passes 16 runs the finaliser and sends its report; other ticks send nothing. */
  function Emit(s: Sequencer, l: LineLevels): (r: seq<GamepadReport>)
    ensures |r| <= 1
    ensures |r| == 1 <==> s.counter >= 16
    ensures |r| == 1 ==> r[0] == ReportOf(Next(s, l).buttons)
  {
    if s.counter + 1 > 16 then [ReportOf(Next(s, l).buttons)] else []
  }

  /** TIM2_IRQHandler: `flag_SELECT = 1`, whatever the counter. */
  function Arm(s: Sequencer): (r: Sequencer)
    ensures r.select
    ensures r.buttons == s.buttons && r.counter == s.counter
  {
    s.(select := true)
  }

  /** The state from which a regular cycle runs: select high, counter 0. */
  function CycleStart(p: ButtonSet): Sequencer {
    Sequencer(p, true, 0)
  }

  /** On an odd step a tick only toggles the select level. */
  lemma OddStepOnlyToggles(s: Sequencer, l: LineLevels)
    requires s.counter % 2 == 1 && s.counter <= 16
    ensures Next(s, l) == Sequencer(s.buttons, !s.select, s.counter + 1)
    ensures Emit(s, l) == []
  {
  }

  /**
   * The tick from step 16 samples nothing, keeps the select level, resets
   * the counter and sends exactly one report, built from the final flags.
   */
  lemma LastStep(s: Sequencer, l: LineLevels)
    requires s.counter == 16
    ensures Next(s, l) == Sequencer(s.buttons, s.select, 0)
    ensures Emit(s, l) == [ReportOf(s.buttons)]
  {
  }

  /** The state after ticking from `s` over the sampled line levels, in order. */
  function Run(s: Sequencer, samples: seq<LineLevels>): Sequencer
    decreases |samples|
  {
    if samples == [] then s else Run(Next(s, samples[0]), samples[1..])
  }

  /** The reports those ticks send, in order. */
  function Reports(s: Sequencer, samples: seq<LineLevels>): seq<GamepadReport>
    decreases |samples|
  {
    if samples == [] then [] else Emit(s, samples[0]) + Reports(Next(s, samples[0]), samples[1..])
  }

  lemma {:induction false} RunAppend(s: Sequencer, xs: seq<LineLevels>, ys: seq<LineLevels>)
    ensures Run(s, xs + ys) == Run(Run(s, xs), ys)
    ensures Reports(s, xs + ys) == Reports(s, xs) + Reports(Run(s, xs), ys)
    decreases |xs|
  {
    if xs == [] {
      assert xs + ys == ys;
    } else {
      assert (xs + ys)[0] == xs[0];
      assert (xs + ys)[1..] == xs[1..] + ys;
      RunAppend(Next(s, xs[0]), xs[1..], ys);
    }
  }

  /**
   * Ticks that stay inside one cycle (from step k <= 16, at most up to the
   * tick from 16): the counter advances by one per tick and is 0 after the
   * tick from 16; a report is sent only by that tick, of the flags at the
   * end.
   */
  lemma {:induction false} RunWithinCycle(s: Sequencer, samples: seq<LineLevels>)
    requires s.counter <= 16 && s.counter + |samples| <= 17
    ensures Run(s, samples).counter == if s.counter + |samples| == 17 then 0 else s.counter + |samples|
    ensures Reports(s, samples) == if s.counter + |samples| == 17 then [ReportOf(Run(s, samples).buttons)] else []
    decreases |samples|
  {
    if samples != [] {
      var t := Next(s, samples[0]);
      if s.counter == 16 {
        assert samples[1..] == [];
      } else {
        RunWithinCycle(t, samples[1..]);
      }
    }
  }

  /**
   * Where each flag stands after a cycle: UP, DOWN, LEFT and RIGHT as read
   * at step 8; Z, Y, X, MODE, B and C as read at step 12; A and START as
   * read at step 14.
   */
  function Decoded(at8: LineLevels, at12: LineLevels, at14: LineLevels): ButtonSet {
    ButtonSet(
      a := at14.p6, b := at12.p6, c := at12.p9, x := at12.p3, y := at12.p2, z := at12.p1,
      start := at14.p9, mode := at12.p4, up := at8.p1, down := at8.p2, left := at8.p3, right := at8.p4)
  }

  /** UP, DOWN, LEFT and RIGHT agree. */
  predicate SameDirections(p: ButtonSet, q: ButtonSet) {
    p.up == q.up && p.down == q.down && p.left == q.left && p.right == q.right
  }

  /** Z, Y, X, MODE, B and C agree. */
  predicate SameExtended(p: ButtonSet, q: ButtonSet) {
    p.z == q.z && p.y == q.y && p.x == q.x && p.mode == q.mode && p.b == q.b && p.c == q.c
  }

  /** A and START agree. */
  predicate SameAStart(p: ButtonSet, q: ButtonSet) {
    p.a == q.a && p.start == q.start
  }

  /** No step after 8 writes a direction. */
  lemma {:induction false} RunKeepsDirections(s: Sequencer, samples: seq<LineLevels>)
    requires 9 <= s.counter <= 16 && s.counter + |samples| <= 17
    ensures SameDirections(Run(s, samples).buttons, s.buttons)
    decreases |samples|
  {
    if samples != [] && s.counter < 16 {
      RunKeepsDirections(Next(s, samples[0]), samples[1..]);
    } else if samples != [] {
      assert samples[1..] == [];
    }
  }

  /** No step after 12 writes Z, Y, X, MODE, B or C. */
  lemma {:induction false} RunKeepsExtended(s: Sequencer, samples: seq<LineLevels>)
    requires 13 <= s.counter <= 16 && s.counter + |samples| <= 17
    ensures SameExtended(Run(s, samples).buttons, s.buttons)
    decreases |samples|
  {
    if samples != [] && s.counter < 16 {
      RunKeepsExtended(Next(s, samples[0]), samples[1..]);
    } else if samples != [] {
      assert samples[1..] == [];
    }
  }

  /** No step after 14 writes A or START. */
  lemma {:induction false} RunKeepsAStart(s: Sequencer, samples: seq<LineLevels>)
    requires 15 <= s.counter <= 16 && s.counter + |samples| <= 17
    ensures SameAStart(Run(s, samples).buttons, s.buttons)
    decreases |samples|
  {
    if samples != [] && s.counter < 16 {
      RunKeepsAStart(Next(s, samples[0]), samples[1..]);
    } else if samples != [] {
      assert samples[1..] == [];
    }
  }

  /** A cycle split at its tick k: the ticks before it, tick k from step k, and the ticks after it. */
  lemma SplitAt(p: ButtonSet, samples: seq<LineLevels>, k: nat)
    requires |samples| == 17 && k < 16
    ensures Run(CycleStart(p), samples[..k]).counter == k
    ensures Run(CycleStart(p), samples) == Run(Next(Run(CycleStart(p), samples[..k]), samples[k]), samples[k + 1..])
  {
    assert samples == samples[..k] + ([samples[k]] + samples[k + 1..]);
    RunAppend(CycleStart(p), samples[..k], [samples[k]] + samples[k + 1..]);
    RunWithinCycle(CycleStart(p), samples[..k]);
    var t := Run(CycleStart(p), samples[..k]);
    assert ([samples[k]] + samples[k + 1..])[1..] == samples[k + 1..];
  }

  /** After a cycle, UP, DOWN, LEFT and RIGHT hold what step 8 read. */
  lemma DirectionsFromStep8(p: ButtonSet, samples: seq<LineLevels>)
    requires |samples| == 17
    ensures SameDirections(Run(CycleStart(p), samples).buttons, Decoded(samples[8], samples[12], samples[14]))
  {
    SplitAt(p, samples, 8);
    RunKeepsDirections(Next(Run(CycleStart(p), samples[..8]), samples[8]), samples[9..]);
  }

  /** After a cycle, Z, Y, X, MODE, B and C hold what step 12 read. */
  lemma ExtendedFromStep12(p: ButtonSet, samples: seq<LineLevels>)
    requires |samples| == 17
    ensures SameExtended(Run(CycleStart(p), samples).buttons, Decoded(samples[8], samples[12], samples[14]))
  {
    SplitAt(p, samples, 12);
    RunKeepsExtended(Next(Run(CycleStart(p), samples[..12]), samples[12]), samples[13..]);
  }

  /** After a cycle, A and START hold what step 14 read. */
  lemma AStartFromStep14(p: ButtonSet, samples: seq<LineLevels>)
    requires |samples| == 17
    ensures SameAStart(Run(CycleStart(p), samples).buttons, Decoded(samples[8], samples[12], samples[14]))
  {
    SplitAt(p, samples, 14);
    RunKeepsAStart(Next(Run(CycleStart(p), samples[..14]), samples[14]), samples[15..]);
  }

  /**
   * A full cycle from CycleStart: the flags are Decoded(step-8, step-12,
   * step-14 samples), whatever they were before; the select level is high
   * and the counter 0 again; exactly one report is sent, of those flags.
   */
  lemma FullCycle(p: ButtonSet, samples: seq<LineLevels>)
    requires |samples| == 17
    ensures Run(CycleStart(p), samples) == Sequencer(Decoded(samples[8], samples[12], samples[14]), true, 0)
    ensures Reports(CycleStart(p), samples) == [ReportOf(Decoded(samples[8], samples[12], samples[14]))]
  {
    var r := Run(CycleStart(p), samples);
    var d := Decoded(samples[8], samples[12], samples[14]);
    DirectionsFromStep8(p, samples);
    ExtendedFromStep12(p, samples);
    AStartFromStep14(p, samples);
    assert r.buttons == d;
    RunWithinCycle(CycleStart(p), samples);
    RunKeepsPhase(CycleStart(p), samples);
  }

  /**
   * Started from CycleStart, the select level at every even step k is high
   * exactly when k is a multiple of 4: `flag_SELECT` is high at steps 0, 4,
   * 8, 12 and 16 and low at steps 2, 6, 10 and 14. (This is the flag; the
   * SELECT pin is written from it only on odd steps, so at step 0 of the
   * first cycle after reset the pin is still low.)
   */
  lemma SelectAtEvenSteps(p: ButtonSet, samples: seq<LineLevels>, k: nat)
    requires k <= 16 && k % 2 == 0 && k <= |samples|
    ensures Run(CycleStart(p), samples[..k]).counter == k
    ensures Run(CycleStart(p), samples[..k]).select == (k % 4 == 0)
  {
    RunWithinCycle(CycleStart(p), samples[..k]);
    RunKeepsPhase(CycleStart(p), samples[..k]);
  }

  /** The flags and the report after a cycle do not depend on the flags before it. */
  lemma CycleForgetsPriorFlags(p1: ButtonSet, p2: ButtonSet, samples: seq<LineLevels>)
    requires |samples| == 17
    ensures Run(CycleStart(p1), samples) == Run(CycleStart(p2), samples)
    ensures Reports(CycleStart(p1), samples) == Reports(CycleStart(p2), samples)
  {
    FullCycle(p1, samples);
    FullCycle(p2, samples);
  }

  /** A second cycle over the same samples, armed again, reproduces the same state and the same report. */
  lemma CycleRepeatable(p: ButtonSet, samples: seq<LineLevels>)
    requires |samples| == 17
    ensures Run(Arm(Run(CycleStart(p), samples)), samples) == Run(CycleStart(p), samples)
    ensures Reports(Arm(Run(CycleStart(p), samples)), samples) == Reports(CycleStart(p), samples)
  {
    var first := Run(CycleStart(p), samples);
    FullCycle(p, samples);
    assert Arm(first) == CycleStart(first.buttons);
    FullCycle(first.buttons, samples);
  }

  /**
   * From any step of a cycle, 17 ticks bring the counter back where it
   * was and send exactly one report.
   */
  lemma FinaliserOncePer17Ticks(s: Sequencer, samples: seq<LineLevels>)
    requires s.counter <= 16 && |samples| == 17
    ensures Run(s, samples).counter == s.counter
    ensures |Reports(s, samples)| == 1
  {
    var a := 16 - s.counter;
    var xs, x, ys := samples[..a], samples[a], samples[a + 1..];
    assert samples == xs + [x] + ys;
    RunAppend(s, xs + [x], ys);
    RunAppend(s, xs, [x]);
    RunWithinCycle(s, xs);
    var s16 := Run(s, xs);
    LastStep(s16, x);
    var s0 := Run(s16, [x]);
    assert s0 == Next(s16, x) && Reports(s16, [x]) == Emit(s16, x);
    RunWithinCycle(s0, ys);
  }

  /**
   * The select level is in phase with the counter when it has been toggled
   * once for every odd step already passed, starting high at step 0.
   */
  predicate InPhase(s: Sequencer) {
    s.select == ((s.counter / 2) % 2 == 0)
  }

  /** Every tick keeps the select level in phase, the wrap from 16 to 0 included. */
  lemma NextKeepsPhase(s: Sequencer, l: LineLevels)
    requires InPhase(s) && s.counter <= 16
    ensures InPhase(Next(s, l))
  {
  }

  /** So does every run of ticks. */
  lemma {:induction false} RunKeepsPhase(s: Sequencer, samples: seq<LineLevels>)
    requires InPhase(s) && s.counter <= 16
    ensures InPhase(Run(s, samples)) && Run(s, samples).counter <= 16
    decreases |samples|
  {
    if samples != [] {
      NextKeepsPhase(s, samples[0]);
      RunKeepsPhase(Next(s, samples[0]), samples[1..]);
    }
  }

  /** Arming at step 0, where every finished cycle leaves the counter, starts a regular cycle. */
  lemma ArmWhenIdle(s: Sequencer)
    requires s.counter == 0
    ensures Arm(s) == CycleStart(s.buttons)
    ensures InPhase(Arm(s))
  {
  }

  /**
   * TIM2_IRQHandler has no idle guard: arming while the counter is at step
   * 2 or 3 (mod 4) of a cycle puts the select level out of phase, and the
   * steps still to come read their lines with the wrong select level.
   */
  lemma ArmMidCycleBreaksPhase(s: Sequencer)
    requires s.counter % 4 == 2 || s.counter % 4 == 3
    ensures Arm(s).counter == s.counter && Arm(s).buttons == s.buttons
    ensures !InPhase(Arm(s))
  {
  }

  const NoneHigh: LineLevels := LineLevels(false, false, false, false, false, false)
  const NonePressed: ButtonSet := ButtonSet(false, false, false, false, false, false, false, false, false, false, false, false)

  /** No line high at the sampling steps that count: no flag set, an all-zero report. */
  lemma IdleLinesScenario(p: ButtonSet, samples: seq<LineLevels>)
    requires |samples| == 17 && samples[8] == NoneHigh && samples[12] == NoneHigh && samples[14] == NoneHigh
    ensures Run(CycleStart(p), samples).buttons == NonePressed
    ensures Reports(CycleStart(p), samples) == [NoReport]
  {
    FullCycle(p, samples);
  }

  /** Only PIN1 high at step 8: UP alone is set and the report is (0, -128, 0). */
  lemma UpOnlyScenario(p: ButtonSet, samples: seq<LineLevels>)
    requires |samples| == 17 && samples[8] == ReadLines(Pin1) && samples[12] == NoneHigh && samples[14] == NoneHigh
    ensures Run(CycleStart(p), samples).buttons == NonePressed.(up := true)
    ensures Reports(CycleStart(p), samples) == [GamepadReport(0, -128, 0)]
  {
    FullCycle(p, samples);
  }

  /**
   * PIN6 and PIN9 high at steps 8, 12 and 14: A, B, C and START are set and
   * the report's buttons byte holds exactly those four.
   */
  lemma SixAndNineScenario(p: ButtonSet, samples: seq<LineLevels>)
    requires |samples| == 17
    requires samples[8] == ReadLines(Pin6 | Pin9) && samples[12] == ReadLines(Pin6 | Pin9)
    requires samples[14] == ReadLines(Pin6 | Pin9)
    ensures Run(CycleStart(p), samples).buttons == NonePressed.(a := true, b := true, c := true, start := true)
    ensures Reports(CycleStart(p), samples) == [GamepadReport(0, 0, ReportA | ReportB | ReportC | ReportStart)]
  {
    FullCycle(p, samples);
  }
}
