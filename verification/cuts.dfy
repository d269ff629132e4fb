/** The hard-cut family: `Cut`, `JumpCut`, `SmashCut` and `FreezeTocut`. Each is the
    per-frame parameter computation of the transition, with the drawing left out; the
    scene switches are frame thresholds, each proved equal to a phase-table lookup. */
module Cuts {
  import opened Canvas
  import opened Timeline
  import opened Interpolation
  import opened Spring
  import opened Rng

  // ---------------------------------------------------------------- Cut

  /** `Cut`: Scene B from frame 45 on, Scene A before; never both. */
  function Cut(frame: nat): Scene {
    if frame >= 45 then SceneB else SceneA
  }

  const CutTable: seq<Phase<Scene>> := [Phase(0, SceneA), Phase(45, SceneB)]

  /** The cut is the two-phase table "A from 0, B from 45", on every frame. */
  lemma CutPhases(frame: nat)
    ensures WellFormed(CutTable)
    ensures Cut(frame) == PhaseAt(CutTable, frame)
  {
    assert WellFormed(CutTable);
    if frame >= 45 {
      PhaseIndexIs(CutTable, frame, 1);
    } else {
      PhaseIndexIs(CutTable, frame, 0);
    }
  }

  // ---------------------------------------------------------------- JumpCut

  /** The per-frame parameters of `JumpCut`: the segment, the frame inside it, the two
      characters' horizontal positions and whether the "JUMP CUT" label shows. */
  datatype JumpCutFrame = JumpCutFrame(segment: nat, localFrame: nat, akaneX: int, aoiX: int, showCutLabel: bool)

  /** Akane's base position in each segment, right to left. */
  const AkaneBaseX: seq<int> := [1500, 900, 300]

  /** Aoi's base position in each segment, left to right. */
  const AoiBaseX: seq<int> := [100, 700, 1300]

  /** `JumpCut` at `frame`. The base positions are read at index `segment`, which is
      always in bounds. */
  function JumpCut(frame: nat): (j: JumpCutFrame)
    ensures j.segment < |AkaneBaseX| && j.segment < |AoiBaseX|
  {
    var segment := if frame < 30 then 0 else if frame < 60 then 1 else 2;
    var localFrame := if frame < 30 then frame else if frame < 60 then frame - 30 else frame - 60;
    JumpCutFrame(segment, localFrame,
                 AkaneBaseX[segment] - localFrame * 7,
                 AoiBaseX[segment] + localFrame * 7,
                 (30 <= frame <= 35) || (60 <= frame <= 65))
  }

  const SegmentTable: seq<Phase<nat>> := [Phase(0, 0), Phase(30, 1), Phase(60, 2)]

  /** Within the composition's 90 frames the segment is `frame / 30` and the local frame
      `frame % 30`. */
  lemma JumpCutSegments(frame: nat)
    requires frame < DefaultDuration
    ensures JumpCut(frame).segment == frame / 30
    ensures JumpCut(frame).localFrame == frame % 30
  {
  }

  /** On every frame the segment is the phase-table lookup and the local frame counts
      from that segment's start. */
  lemma JumpCutPhases(frame: nat)
    ensures WellFormed(SegmentTable)
    ensures JumpCut(frame).segment == PhaseAt(SegmentTable, frame)
    ensures JumpCut(frame).localFrame + SegmentTable[JumpCut(frame).segment].start == frame
  {
    assert WellFormed(SegmentTable);
    if frame < 30 {
      PhaseIndexIs(SegmentTable, frame, 0);
    } else if frame < 60 {
      PhaseIndexIs(SegmentTable, frame, 1);
    } else {
      PhaseIndexIs(SegmentTable, frame, 2);
    }
  }

  /** The label shows exactly on the first six frames after each of the two cuts. */
  lemma JumpCutLabel(frame: nat)
    ensures JumpCut(frame).showCutLabel <==> JumpCut(frame).segment >= 1 && JumpCut(frame).localFrame <= 5
  {
  }

  /** The two characters are mirror images about x = 800 on every frame: their base
      positions pair up to 1600 and their drifts cancel. */
  lemma JumpCutMirror(frame: nat)
    ensures JumpCut(frame).akaneX + JumpCut(frame).aoiX == 1600
  {
  }

  // ---------------------------------------------------------------- SmashCut

  /** The per-frame parameters of `SmashCut`. */
  datatype SmashCutFrame = SmashCutFrame(
    scene: Scene,
    akaneScale: real,
    shakeIntensity: real,
    shakeX: real,
    shakeY: real,
    aberration: real,
    flashOpacity: real)

  /** Akane's entrance: from scale 3.2 down to 1.2 over 22 frames, damping 6,
      stiffness 140. */
  const SmashSpring: SpringConfig := SpringConfig(3.2, 1.2, 22, Physics(6.0, 140.0))

  /** The shake's decay: 28 at the cut, 10 after 18 frames, 4 after 44. */
  const ShakeInput: seq<real> := [0.0, 18.0, 44.0]
  const ShakeOutput: seq<real> := [28.0, 10.0, 4.0]

  lemma ShakeWindowValid()
    ensures Valid(ShakeInput, ShakeOutput)
  {
    AdjacentIncreasing(ShakeInput);
  }

  /** The flash: full at the cut, then 0.65 and 0.3 on the next two frames. */
  function SmashFlash(frame: nat): real {
    if frame == 45 then 1.0 else if frame == 46 then 0.65 else if frame == 47 then 0.3 else 0.0
  }

  /** `(rng() - 0.5) * 2 * intensity`: a draw centred on 0 and scaled, so that a draw
      in [0, 1) moves by at most `intensity` either way. */
  function Jitter(d: real, intensity: real): (offset: real)
    ensures 0.0 <= d < 1.0 && intensity >= 0.0 ==> -intensity <= offset <= intensity
  {
    JitterBound(d, intensity);
    (d - 0.5) * 2.0 * intensity
  }

  lemma JitterBound(d: real, intensity: real)
    ensures 0.0 <= d < 1.0 && intensity >= 0.0 ==>
      -intensity <= (d - 0.5) * 2.0 * intensity <= intensity
  {
    if 0.0 <= d < 1.0 && intensity >= 0.0 {
      assert (d - 0.5) * 2.0 * intensity == (2.0 * d - 1.0) * intensity;
      assert (1.0 - (2.0 * d - 1.0)) * intensity >= 0.0;
      assert (2.0 * d - 1.0 + 1.0) * intensity >= 0.0;
    }
  }

  /** The shake intensity: 0 before the cut, then decaying through 28, 10 and 4. */
  function ShakeIntensity(frame: nat): real {
    if frame >= 45 then
      ShakeWindowValid();
      Interpolate(frame as real - 45.0, ShakeInput, ShakeOutput, Clamped, Linear)
    else 0.0
  }

  /** The colour aberration: 0 before the cut, then from 20 down to 4 over 20 frames. */
  function Aberration(frame: nat): real {
    if frame >= 45 then Ramp(frame as real - 45.0, 0.0, 20.0, 20.0, 4.0) else 0.0
  }

  /** `SmashCut` at `frame`: the shake draws come from `createRng(frame * 13)`. */
  function SmashCut(frame: nat, spring: SpringFn): SmashCutFrame {
    var showB := frame >= 45;
    var intensity := ShakeIntensity(frame);
    SmashCutFrame(
      if showB then SceneB else SceneA,
      if showB then spring(frame - 45, SmashSpring) else 1.0,
      intensity,
      Jitter(DrawAt(frame * 13, 0), intensity),
      Jitter(DrawAt(frame * 13, 1), intensity),
      Aberration(frame),
      SmashFlash(frame))
  }

  /** SmashCut switches scenes on exactly the frame `Cut` does. */
  lemma SmashCutScene(frame: nat, spring: SpringFn)
    ensures SmashCut(frame, spring).scene == Cut(frame)
  {
  }

  const FlashTable: seq<Phase<real>> :=
    [Phase(0, 0.0), Phase(45, 1.0), Phase(46, 0.65), Phase(47, 0.3), Phase(48, 0.0)]

  /** The flash is the five-phase table 0, 1, 0.65, 0.3, 0; its layer is drawn (a
      positive opacity) on frames 45 to 47 only. */
  lemma SmashFlashPhases(frame: nat)
    ensures WellFormed(FlashTable)
    ensures SmashFlash(frame) == PhaseAt(FlashTable, frame)
    ensures SmashFlash(frame) > 0.0 <==> 45 <= frame <= 47
  {
    assert WellFormed(FlashTable);
    if frame < 45 {
      PhaseIndexIs(FlashTable, frame, 0);
    } else if frame == 45 {
      PhaseIndexIs(FlashTable, frame, 1);
    } else if frame == 46 {
      PhaseIndexIs(FlashTable, frame, 2);
    } else if frame == 47 {
      PhaseIndexIs(FlashTable, frame, 3);
    } else {
      PhaseIndexIs(FlashTable, frame, 4);
    }
  }

  /** Before the cut nothing shakes, scales or splits: the shake intensity and both
      offsets are 0, the scale is 1 and there is no colour aberration. */
  lemma SmashCutBefore(frame: nat, spring: SpringFn)
    requires frame < 45
    ensures var s := SmashCut(frame, spring);
      s.shakeIntensity == 0.0 && s.shakeX == 0.0 && s.shakeY == 0.0 && s.akaneScale == 1.0 && s.aberration == 0.0
  {
  }

  /** After the cut the shake starts at 28 and settles between 4 and 28, at 4 from 44
      frames on; the aberration lies between 4 and 20. */
  lemma SmashCutDecay(frame: nat)
    ensures 0.0 <= ShakeIntensity(frame) <= 28.0
    ensures frame >= 45 ==> 4.0 <= ShakeIntensity(frame)
    ensures frame == 45 ==> ShakeIntensity(frame) == 28.0
    ensures frame >= 89 ==> ShakeIntensity(frame) == 4.0
    ensures frame >= 45 ==> 4.0 <= Aberration(frame) <= 20.0
  {
    if frame >= 45 {
      var x := frame as real - 45.0;
      ShakeWindowValid();
      ClampedWithin(x, ShakeInput, ShakeOutput);
      if frame == 45 {
        AtBreakpoint(ShakeInput, ShakeOutput, Clamped, Linear, 0);
      }
      if frame >= 89 {
        ClampAbove(x, ShakeInput, ShakeOutput, Clamped, Linear);
      }
      RampFacts(x, 0.0, 20.0, 20.0, 4.0);
    }
  }

  /** The shake offsets never exceed the intensity in either direction. */
  lemma SmashCutShake(frame: nat, spring: SpringFn)
    ensures var s := SmashCut(frame, spring);
      -s.shakeIntensity <= s.shakeX <= s.shakeIntensity && -s.shakeIntensity <= s.shakeY <= s.shakeIntensity
  {
    SmashCutDecay(frame);
  }

  /** One of the 16 speed lines behind Akane: its angle in degrees and its length,
      thickness and opacity. */
  datatype Ray = Ray(angle: real, length: real, thickness: real, opacity: real)

  const RayCount: nat := 16

  /** Speed line `i`, drawn from `createRng(i * 31 + 7)`: it depends on `i` alone, so the
      lines stand still from frame to frame. */
  function SmashRay(i: nat): (r: Ray)
    ensures 700.0 <= r.length < 1300.0
    ensures 4.0 <= r.thickness < 11.0
    ensures 0.35 <= r.opacity < 0.8
  {
    var seed := i * 31 + 7;
    Ray((i as real / RayCount as real) * 360.0,
        700.0 + DrawAt(seed, 0) * 600.0,
        4.0 + DrawAt(seed, 1) * 7.0,
        0.35 + DrawAt(seed, 2) * 0.45)
  }

  /** The speed lines of `SmashCut`, one per index below 16. */
  function SmashRays(): (rays: seq<Ray>)
    ensures |rays| == RayCount
    ensures forall i :: 0 <= i < RayCount ==> rays[i] == SmashRay(i)
  {
    seq(RayCount, i requires 0 <= i => SmashRay(i))
  }

  /** The speed lines are spread evenly round the full circle, 22.5 degrees apart. */
  lemma SmashRayAngles(i: nat)
    requires i + 1 < RayCount
    ensures SmashRay(i + 1).angle - SmashRay(i).angle == 22.5
    ensures 0.0 <= SmashRay(i).angle < 360.0
  {
  }

  // ---------------------------------------------------------------- FreezeTocut

  /** The three phases of `FreezeTocut`. */
  datatype FreezePhase = Walking | Frozen | AfterCut

  /** The per-frame parameters of `FreezeTocut`. */
  datatype FreezeFrame = FreezeFrame(
    isFreezing: bool,
    showB: bool,
    akaneX: int,
    desaturation: real,
    textOpacity: real,
    textScale: real,
    aoiX: int,
    labelAOpacity: real,
    labelBOpacity: real)

  /** The "FREEZE" text fading in over 10 frames with the default physics. */
  const FreezeTextFade: SpringConfig := SpringConfig(0.0, 1.0, 10, DefaultPhysics)

  /** The "FREEZE" text shrinking from 1.5 to 1 over 15 frames, damping 8, stiffness
      200. */
  const FreezeTextPop: SpringConfig := SpringConfig(1.5, 1.0, 15, Physics(8.0, 200.0))

  /** `FreezeTocut` at `frame`. */
  function FreezeTocut(frame: nat, spring: SpringFn): FreezeFrame {
    var isFreezing := 30 <= frame < 55;
    var showB := frame >= 55;
    var akaneFrame := if frame < 30 then frame else 30;
    FreezeFrame(
      isFreezing,
      showB,
      1100 - akaneFrame * 10,
      if isFreezing then Ramp(frame as real, 30.0, 40.0, 0.0, 100.0) else 0.0,
      if isFreezing then spring(frame - 30, FreezeTextFade) else 0.0,
      if isFreezing then spring(frame - 30, FreezeTextPop) else 1.0,
      100 + (frame - 55) * 12,
      if showB then 0.0 else 0.5,
      if showB then 0.5 else 0.0)
  }

  const FreezeTable: seq<Phase<FreezePhase>> := [Phase(0, Walking), Phase(30, Frozen), Phase(55, AfterCut)]

  /** The freeze flag and the B flag are the Frozen and AfterCut phases of the table
      "walking from 0, frozen from 30, after the cut from 55", so they never overlap. */
  lemma FreezePhases(frame: nat, spring: SpringFn)
    ensures WellFormed(FreezeTable)
    ensures FreezeTocut(frame, spring).isFreezing <==> PhaseAt(FreezeTable, frame) == Frozen
    ensures FreezeTocut(frame, spring).showB <==> PhaseAt(FreezeTable, frame) == AfterCut
    ensures !(FreezeTocut(frame, spring).isFreezing && FreezeTocut(frame, spring).showB)
  {
    assert WellFormed(FreezeTable);
    if frame < 30 {
      PhaseIndexIs(FreezeTable, frame, 0);
    } else if frame < 55 {
      PhaseIndexIs(FreezeTable, frame, 1);
    } else {
      PhaseIndexIs(FreezeTable, frame, 2);
    }
  }

  /** Akane walks left 10 pixels a frame until frame 30 and then holds the position
      reached there, x = 800, for the rest of the clip. */
  lemma FreezeAkane(frame: nat, spring: SpringFn)
    ensures frame < 30 ==>
      FreezeTocut(frame + 1, spring).akaneX == FreezeTocut(frame, spring).akaneX - 10
    ensures frame >= 30 ==> FreezeTocut(frame, spring).akaneX == FreezeTocut(30, spring).akaneX == 800
    ensures 800 <= FreezeTocut(frame, spring).akaneX <= 1100
  {
  }

  /** The picture drains of colour over the first ten frozen frames and is fully grey
      from frame 40 until the cut; outside the freeze it is untouched. */
  lemma FreezeDesaturation(frame: nat, spring: SpringFn)
    ensures 0.0 <= FreezeTocut(frame, spring).desaturation <= 100.0
    ensures !(30 <= frame < 55) ==> FreezeTocut(frame, spring).desaturation == 0.0
    ensures 40 <= frame < 55 ==> FreezeTocut(frame, spring).desaturation == 100.0
  {
    RampFacts(frame as real, 30.0, 40.0, 0.0, 100.0);
  }

  /** Exactly one of the two corner labels is drawn, at half opacity: B's from the cut
      on, A's before it. */
  lemma FreezeLabels(frame: nat, spring: SpringFn)
    ensures var f := FreezeTocut(frame, spring);
      f.labelAOpacity + f.labelBOpacity == 0.5 && (f.labelBOpacity > 0.0 <==> f.showB)
  {
  }

  /** Aoi enters at x = 100 on the cut and walks right 12 pixels a frame. */
  lemma FreezeAoi(frame: nat, spring: SpringFn)
    ensures FreezeTocut(55, spring).aoiX == 100
    ensures FreezeTocut(frame + 1, spring).aoiX == FreezeTocut(frame, spring).aoiX + 12
  {
  }
}
