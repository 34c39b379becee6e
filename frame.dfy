/** The frame loop of the attitude display: each frame selects the phase's sample,
    issues the seven draws in order and, only if all of them succeed, updates the
    phase state. A draw error is propagated out of the loop at once: the remaining
    draws of that frame and the state update are skipped, and no further frame runs.

    The display is modelled by what the loop can observe of it: whether a draw
    succeeds, and the primitives it has accepted. Which draws fail is fixed when the
    surface is made, as the set of attempt numbers (counted from 0) that the
    display refuses. */
module FrameDriver {
  import opened Sequencer
  import opened Horizon

  /** How a frame, or the loop, ended: with every draw done, or with the error of the
      named draw. */
  datatype Outcome = Completed | Failed(at: Label)

  /** How many of n draws, starting with attempt number `start`, the display accepts
      before the first one it refuses: all n when it refuses none of them. */
  function Accepted(failing: set<nat>, start: nat, n: nat): (k: nat)
    ensures k <= n
    ensures forall i :: start <= i < start + k ==> i !in failing
    ensures k < n ==> start + k in failing
    decreases n
  {
    if n == 0 || start in failing then 0 else 1 + Accepted(failing, start + 1, n - 1)
  }

  /** The primitives of a run of draw steps, in order. */
  function Shapes(steps: seq<DrawStep>): (ps: seq<Primitive>)
    ensures |ps| == |steps|
  {
    seq(|steps|, i requires 0 <= i < |steps| => steps[i].primitive)
  }

  /** How a frame with the given plan fails, the draw attempts counted from `start`:
      the display accepts k draws and refuses the next, the error names that draw, k + 1
      attempts are made, and the k accepted primitives are recorded after `before`. */
  predicate FrameFailed(plan: seq<DrawStep>, failing: set<nat>, start: nat, before: seq<Primitive>,
                        drawn: seq<Primitive>, attempts: nat, outcome: Outcome)
  {
    var k := Accepted(failing, start, |plan|);
    && k < |plan|
    && outcome == Failed(plan[k].name)
    && attempts == start + k + 1
    && drawn == before + Shapes(plan[..k])
  }

  /** How the frame started in state s fails, with the draw attempts counted from
      `start` and the accepted primitives recorded after `before`. */
  predicate FrameFailedAt(s: PhaseState, failing: set<nat>, start: nat, before: seq<Primitive>,
                          drawn: seq<Primitive>, attempts: nat, outcome: Outcome)
  {
    FrameFailed(FramePlan(Select(s).attitude), failing, start, before, drawn, attempts, outcome)
  }

  /** The primitives a frame started in state s draws when every draw succeeds. */
  function FrameShapes(s: PhaseState): (ps: seq<Primitive>)
    ensures |ps| == 7
  {
    var plan := FramePlan(Select(s).attitude);
    Shapes(plan)
  }

  /** The primitives n completed frames from state s draw, frame after frame. */
  function RunDrawn(s: PhaseState, n: nat): seq<Primitive>
    decreases n
  {
    if n == 0 then [] else RunDrawn(s, n - 1) + FrameShapes(Iterate(s, n - 1))
  }

  /** Every completed frame draws seven primitives. */
  lemma {:induction false} RunDrawnLength(s: PhaseState, n: nat)
    ensures |RunDrawn(s, n)| == 7 * n
    decreases n
  {
    if n > 0 {
      RunDrawnLength(s, n - 1);
    }
  }

  /** One more completed frame appends its primitives to what the run recorded. */
  lemma RunDrawnNext(s: PhaseState, n: nat, start: seq<Primitive>, before: seq<Primitive>, after: seq<Primitive>)
    requires before == start + RunDrawn(s, n)
    requires after == before + FrameShapes(Iterate(s, n))
    ensures after == start + RunDrawn(s, n + 1)
  {
  }

  lemma ShapesNext(steps: seq<DrawStep>, i: nat)
    requires i < |steps|
    ensures Shapes(steps[..i + 1]) == Shapes(steps[..i]) + [steps[i].primitive]
  {
  }

  /** The draw target. `drawn` records, in order, the primitives whose draw calls
      succeeded. */
  class Surface {
    const failing: set<nat>
    var attempts: nat
    var drawn: seq<Primitive>

    constructor(failing: set<nat>)
      ensures this.failing == failing && attempts == 0 && drawn == []
    {
      this.failing := failing;
      attempts := 0;
      drawn := [];
    }

    /** `.draw(&mut display)` of one styled primitive: succeeds unless the display
        refuses this attempt; only a successful draw is recorded. */
    method Draw(p: Primitive) returns (ok: bool)
      modifies this
      ensures ok <==> old(attempts) !in failing
      ensures attempts == old(attempts) + 1
      ensures drawn == if ok then old(drawn) + [p] else old(drawn)
    {
      ok := attempts !in failing;
      attempts := attempts + 1;
      if ok {
        drawn := drawn + [p];
      }
    }

    /** The draws of one frame, in plan order, each propagating its error with `?`:
        the first refused draw ends the frame with that draw's error. */
    method DrawPlan(plan: seq<DrawStep>) returns (outcome: Outcome)
      modifies this
      ensures outcome == Completed <==> Accepted(failing, old(attempts), |plan|) == |plan|
      ensures outcome == Completed ==> drawn == old(drawn) + Shapes(plan) && attempts == old(attempts) + |plan|
      ensures outcome.Failed? ==> FrameFailed(plan, failing, old(attempts), old(drawn), drawn, attempts, outcome)
    {
      ghost var k := Accepted(failing, attempts, |plan|);
      var i := 0;
      while i < |plan|
        invariant i <= k
        invariant attempts == old(attempts) + i
        invariant drawn == old(drawn) + Shapes(plan[..i])
      {
        var ok := Draw(plan[i].primitive);
        if !ok {
          return Failed(plan[i].name);
        }
        ShapesNext(plan, i);
        i := i + 1;
      }
      assert plan[..i] == plan;
      outcome := Completed;
    }
  }

  /** The two animation variables of the frame loop. */
  class Animation {
    var phase: u8
    var counter: u32

    /** `current_phase = 0` and `phase_frame_counter = 0` before the loop starts. */
    constructor()
      ensures State() == PowerOn
    {
      phase := 0;
      counter := 0;
    }

    function State(): PhaseState
      reads this
    {
      PhaseState(phase, counter)
    }

    /** One pass of the loop body. The defensive reset takes effect before anything
        is drawn; the draws run in plan order until the first error; the counter and
        phase change only when all seven succeed. Exactly the draws the display
        accepts are recorded, in order, and the draw that fails names the error. */
    method Step(surface: Surface) returns (outcome: Outcome)
      modifies this, surface
      ensures var sel := Select(old(State()));
              var plan := FramePlan(sel.attitude);
        && (outcome == Completed <==> Accepted(surface.failing, old(surface.attempts), |plan|) == |plan|)
        && (outcome == Completed ==>
              surface.drawn == old(surface.drawn) + FrameShapes(old(State())) &&
              surface.attempts == old(surface.attempts) + 7 &&
              State() == Advance(old(State())))
        && (outcome.Failed? ==>
              FrameFailedAt(old(State()), surface.failing, old(surface.attempts), old(surface.drawn),
                            surface.drawn, surface.attempts, outcome) &&
              State() == sel.state)
    {
      var sel := Select(State());
      phase, counter := sel.state.phase, sel.state.counter;
      outcome := surface.DrawPlan(FramePlan(sel.attitude));
      if outcome == Completed {
        var next := Increment(sel);
        phase, counter := next.phase, next.counter;
      }
    }

    /** The endless frame loop, run for at most `frames` frames: it stops early at the
        first frame with a draw error, leaving the state that frame selected. Every
        completed frame records its seven primitives; the failing frame records the
        draws before the refused one, and the error names the refused draw. */
    method Run(surface: Surface, frames: nat) returns (outcome: Outcome, completed: nat)
      modifies this, surface
      ensures completed <= frames
      ensures outcome == Completed ==>
                completed == frames && State() == Iterate(old(State()), frames) &&
                surface.attempts == old(surface.attempts) + 7 * frames &&
                surface.drawn == old(surface.drawn) + RunDrawn(old(State()), frames)
      ensures outcome.Failed? ==>
                var s := Iterate(old(State()), completed);
                && completed < frames
                && State() == Select(s).state
                && FrameFailedAt(s, surface.failing, old(surface.attempts) + 7 * completed,
                                 old(surface.drawn) + RunDrawn(old(State()), completed), surface.drawn,
                                 surface.attempts, outcome)
    {
      completed := 0;
      outcome := Completed;
      while completed < frames
        invariant completed <= frames && outcome == Completed
        invariant State() == Iterate(old(State()), completed)
        invariant surface.attempts == old(surface.attempts) + 7 * completed
        invariant surface.drawn == old(surface.drawn) + RunDrawn(old(State()), completed)
      {
        ghost var before := surface.drawn;
        outcome := Step(surface);
        if outcome.Failed? {
          return;
        }
        RunDrawnNext(old(State()), completed, old(surface.drawn), before, surface.drawn);
        completed := completed + 1;
      }
    }
  }
}
