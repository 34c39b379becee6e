/** The animation phase sequencer of the attitude display. Two integers carry the
    animation from frame to frame: the current phase (a `u8`: 0 pitch only, 1 roll
    only, 2 both) and the frame counter within the phase (a `u32`). At the top of a
    frame a match on the phase picks the phase's duration and the attitude sample;
    after the frame is drawn the counter is incremented and, when it reaches the
    duration, the phase advances cyclically and the counter restarts at 0. */
module Sequencer {

  type u8 = x: nat | x < 0x100
  type u32 = x: nat | x < 0x1_0000_0000

  const PitchOnlyFrames: u32 := 300
  const RollOnlyFrames: u32 := 300
  const BothFrames: u32 := 400
  /** Frames in one full pitch-roll-both cycle. */
  const CycleFrames: nat := PitchOnlyFrames + RollOnlyFrames + BothFrames

  /** An attitude angle in degrees. The floating-point waveforms are kept as
      unevaluated terms; only an angle that is exactly 0.0 is a known value. */
  datatype Wave =
    | Zero                    // exactly 0.0
    | PitchSweep(frame: u32)  // MAX_PITCH_DEG * sinf(2 pi * frame / 300), frame > 0
    | RollSweep(frame: u32)   // MAX_ROLL_DEG * sinf(2 pi * frame / 300), frame > 0
    | PitchBoth(frame: u32)   // MAX_PITCH_DEG * sinf(frame * 0.02), frame > 0
    | RollBoth(frame: u32)    // MAX_ROLL_DEG * cosf(frame * 0.015)

  /** A sine waveform sampled at frame c. At c = 0 its argument is 0.0 (the product
      of a constant with 0.0), sinf(0.0) is 0.0 and so is the amplitude times it. */
  function SineSample(c: u32, w: Wave): Wave
  {
    if c == 0 then Zero else w
  }

  /** The state the frame loop starts in. */
  const PowerOn: PhaseState := PhaseState(0, 0)

  /** The pitch and roll sampled for one frame. */
  datatype Attitude = Attitude(pitch: Wave, roll: Wave)

  /** The animation state kept across frames: `current_phase` and `phase_frame_counter`. */
  datatype PhaseState = PhaseState(phase: u8, counter: u32)

  /** What the match at the top of a frame settles: the phase's duration, the state
      the frame runs in (after the defensive reset, if it fired) and the sample. */
  datatype Selection = Selection(duration: u32, state: PhaseState, attitude: Attitude)

  /** The duration of each of the three phases. */
  function PhaseDuration(phase: nat): (d: nat)
    requires phase < 3
    ensures d > 0
  {
    if phase == 0 then PitchOnlyFrames else if phase == 1 then RollOnlyFrames else BothFrames
  }

  /** The invariant of the sequencer: one of the three phases, and a counter inside it. */
  predicate Steady(s: PhaseState)
  {
    s.phase < 3 && s.counter < PhaseDuration(s.phase)
  }

  /** The match on `current_phase` at the top of each frame. Phases 0 to 2 keep the
      state and sample their waveforms; any other value is reset to phase 0 with
      counter 0, the first phase's duration, and pitch and roll left at 0.0. In the
      pitch-only phase the roll is exactly 0.0, and in the roll-only phase the pitch. */
  function Select(s: PhaseState): (sel: Selection)
    ensures sel.state.phase < 3 && sel.duration == PhaseDuration(sel.state.phase)
    ensures s.phase < 3 ==> sel.state == s
    ensures s.phase >= 3 ==> sel.state == PhaseState(0, 0) && sel.attitude == Attitude(Zero, Zero)
    ensures sel.state.phase == 0 ==> sel.attitude.roll == Zero
    ensures sel.state.phase == 1 ==> sel.attitude.pitch == Zero
  {
    match s.phase
    case 0 => Selection(PitchOnlyFrames, s, Attitude(SineSample(s.counter, PitchSweep(s.counter)), Zero))
    case 1 => Selection(RollOnlyFrames, s, Attitude(Zero, SineSample(s.counter, RollSweep(s.counter))))
    case 2 => Selection(BothFrames, s, Attitude(SineSample(s.counter, PitchBoth(s.counter)), RollBoth(s.counter)))
    case _ => Selection(PitchOnlyFrames, PhaseState(0, 0), Attitude(Zero, Zero))
  }

  /** The update after the draws: `phase_frame_counter += 1` (a `u32`, wrapping from
      0xFFFF_FFFF to 0 as a release build does) and,
      once it reaches the duration, `current_phase = (current_phase + 1) % 3` with
      the counter back at 0. Whatever the selection, the result is steady. */
  function Increment(sel: Selection): (next: PhaseState)
    requires sel.state.phase < 3 && sel.duration == PhaseDuration(sel.state.phase)
    ensures Steady(next)
    ensures next.phase == sel.state.phase || (next.phase == (sel.state.phase + 1) % 3 && next.counter == 0)
  {
    var counter := if sel.state.counter == 0xFFFF_FFFF then 0 else sel.state.counter + 1;
    if counter >= sel.duration then PhaseState((sel.state.phase + 1) % 3, 0)
    else PhaseState(sel.state.phase, counter)
  }

  /** The state carried into the next frame after a frame that drew completely. */
  function Advance(s: PhaseState): (next: PhaseState)
    ensures Steady(next)
  {
    Increment(Select(s))
  }

  /** The state after n completed frames: one more frame advances the state after n - 1. */
  function Iterate(s: PhaseState, n: nat): PhaseState
    decreases n
  {
    if n == 0 then s else Advance(Iterate(s, n - 1))
  }

  /** Where the sequencer is k frames into a cycle that starts at phase 0, counter 0:
      300 frames of phase 0, then 300 of phase 1, then 400 of phase 2. */
  function CyclePosition(k: nat): (s: PhaseState)
    requires k < CycleFrames
    ensures Steady(s)
  {
    if k < PitchOnlyFrames then PhaseState(0, k)
    else if k < PitchOnlyFrames + RollOnlyFrames then PhaseState(1, k - PitchOnlyFrames)
    else PhaseState(2, k - PitchOnlyFrames - RollOnlyFrames)
  }

  /** Every sine waveform starts at 0.0: the pitch is 0.0 on the first frame of every
      phase, and the first frame of the pitch-only and of the roll-only phase (the
      power-on frame among them) is level. Only the combined phase starts banked, at
      the cosine's 30.0 degrees. */
  lemma PhaseStartSample(s: PhaseState)
    ensures Select(s).state.counter == 0 ==> Select(s).attitude.pitch == Zero
    ensures Select(s).state.counter == 0 && Select(s).state.phase < 2 ==> Select(s).attitude == Attitude(Zero, Zero)
    ensures Select(s).state.phase == 2 ==> Select(s).attitude.roll != Zero
  {
  }

  /** Inside a phase, a frame only counts: the phase stays and the counter grows by one. */
  lemma AdvanceWithinPhase(s: PhaseState)
    requires Steady(s) && s.counter + 1 < PhaseDuration(s.phase)
    ensures Advance(s) == PhaseState(s.phase, s.counter + 1)
  {
  }

  /** On the last frame of a phase, the next phase starts at counter 0. */
  lemma AdvanceAtPhaseEnd(s: PhaseState)
    requires Steady(s) && s.counter + 1 == PhaseDuration(s.phase)
    ensures Advance(s) == PhaseState((s.phase + 1) % 3, 0)
  {
  }

  /** An out-of-range phase is reset before drawing, and the increment still runs
      afterwards, so the frame ends in phase 0 with counter 1, not 0. */
  lemma AdvanceFromCorruptPhase(s: PhaseState)
    requires s.phase >= 3
    ensures Advance(s) == PhaseState(0, 1)
  {
  }

  /** Running a + b frames is running a frames and then b more. */
  lemma {:induction false} IterateAdd(s: PhaseState, a: nat, b: nat)
    ensures Iterate(s, a + b) == Iterate(Iterate(s, a), b)
    decreases b
  {
    if b == 0 {
      assert a + b == a;
    } else {
      IterateAdd(s, a, b - 1);
      assert a + (b - 1) == a + b - 1;
      assert Iterate(s, a + b) == Advance(Iterate(s, a + b - 1));
    }
  }

  /** n frames inside one phase only add n to the counter. */
  lemma {:induction false} IterateWithinPhase(s: PhaseState, n: nat)
    requires Steady(s) && s.counter + n < PhaseDuration(s.phase)
    ensures Iterate(s, n) == PhaseState(s.phase, s.counter + n)
    decreases n
  {
    if n > 0 {
      IterateWithinPhase(s, n - 1);
      AdvanceWithinPhase(PhaseState(s.phase, s.counter + n - 1));
    }
  }

  /** A phase entered at counter 0 stays active for exactly its duration: it holds
      for the first PhaseDuration frames and then hands over to the next phase. */
  lemma PhaseLifetime(s: PhaseState, n: nat)
    requires s.phase < 3 && s.counter == 0
    ensures n < PhaseDuration(s.phase) ==> Iterate(s, n).phase == s.phase
    ensures Iterate(s, PhaseDuration(s.phase)) == PhaseState((s.phase + 1) % 3, 0)
  {
    var d := PhaseDuration(s.phase);
    if n < d {
      IterateWithinPhase(s, n);
    }
    IterateWithinPhase(s, d - 1);
    AdvanceAtPhaseEnd(PhaseState(s.phase, d - 1));
  }

  /** One frame moves the cycle position forward by one, wrapping after 1000. */
  lemma CycleStep(k: nat)
    requires k < CycleFrames
    ensures Advance(CyclePosition(k)) == CyclePosition((k + 1) % CycleFrames)
  {
    var s := CyclePosition(k);
    if k + 1 == CycleFrames {
      assert (k + 1) % CycleFrames == 0;
      AdvanceAtPhaseEnd(s);
    } else {
      assert (k + 1) % CycleFrames == k + 1;
      if s.counter + 1 < PhaseDuration(s.phase) {
        AdvanceWithinPhase(s);
      } else {
        AdvanceAtPhaseEnd(s);
      }
    }
  }

  /** The whole schedule from power-on: after n frames the state is the position n
      mod 1000 within the cycle. */
  lemma {:induction false} Schedule(n: nat)
    ensures Iterate(PowerOn, n) == CyclePosition(n % CycleFrames)
    decreases n
  {
    if n > 0 {
      var k := (n - 1) % CycleFrames;
      Schedule(n - 1);
      CycleStep(k);
      CycleWrap(n);
    }
  }

  /** Counting frames modulo 1000 one at a time: kept apart from the schedule so that
      the modular arithmetic is proved without the state functions in view. */
  lemma CycleWrap(n: nat)
    requires n > 0
    ensures ((n - 1) % CycleFrames + 1) % CycleFrames == n % CycleFrames
  {
  }

  /** The roll-only phase begins 300 frames into the cycle and the combined phase 600
      frames in; the last frame of the cycle is frame 399 of the combined phase. */
  lemma PhaseStarts()
    ensures CyclePosition(PitchOnlyFrames) == PhaseState(1, 0)
    ensures CyclePosition(PitchOnlyFrames + RollOnlyFrames) == PhaseState(2, 0)
    ensures CyclePosition(CycleFrames - 1) == PhaseState(2, BothFrames - 1)
  {
  }

  /** The animation is periodic with period exactly 1000 frames: every state recurs
      1000 frames later, and no state of the cycle recurs sooner. */
  lemma Period(n: nat)
    ensures Iterate(PowerOn, n + CycleFrames) == Iterate(PowerOn, n)
    ensures forall j, k :: 0 <= j < k < CycleFrames ==> CyclePosition(j) != CyclePosition(k)
  {
    Schedule(n);
    Schedule(n + CycleFrames);
    CycleSkip(n);
  }

  lemma CycleSkip(n: nat)
    ensures (n + CycleFrames) % CycleFrames == n % CycleFrames
  {
  }
}
