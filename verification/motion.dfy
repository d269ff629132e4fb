/** The motion family: `Wipe`, `SlideTransition`, `Push`, `Iris`, `ZoomTransition`,
    `WhipPan`, `SpinTransition` and `Morph`. The spring-driven ones take the spring
    curve as a parameter; their lemmas hold for every curve unless they name
    `Rests`. */
module Motion {
  import opened Canvas
  import opened Interpolation
  import opened Spring

  // ---------------------------------------------------------------- Wipe

  /** `Wipe`: how far the wipe has come (percent of the width), the right inset of
      Scene B's clip and the divider's left edge, both in percent. */
  datatype WipeFrame = WipeFrame(progress: real, clipRight: real, dividerLeft: real)

  function Wipe(frame: nat): WipeFrame {
    var progress := Ramp(frame as real, 25.0, 65.0, 0.0, 100.0);
    WipeFrame(progress, 100.0 - progress, progress)
  }

  /** B is hidden up to frame 25 and fully shown from frame 65; halfway at frame 45;
      the divider always stands on the clip's edge, inside the picture. */
  lemma WipeCoverage(frame: nat)
    ensures var w := Wipe(frame);
      && 0.0 <= w.clipRight <= 100.0
      && 0.0 <= w.dividerLeft <= 100.0
      && w.dividerLeft == 100.0 - w.clipRight
      && (frame <= 25 ==> w.clipRight == 100.0)
      && (frame >= 65 ==> w.clipRight == 0.0)
      && (frame == 45 ==> w.clipRight == 50.0)
  {
    RampFacts(frame as real, 25.0, 65.0, 0.0, 100.0);
  }

  /** The wipe only advances: B's visible part never shrinks. */
  lemma WipeMonotone(frame: nat, later: nat)
    requires frame <= later
    ensures Wipe(later).clipRight <= Wipe(frame).clipRight
  {
    RampMonotone(frame as real, later as real, 25.0, 65.0, 0.0, 100.0);
  }

  // ---------------------------------------------------------------- SlideTransition / Push

  /** The spring both `SlideTransition` and `Push` use, from frame 25 on. */
  const SlideSpring: SpringConfig := SpringConfig(0.0, 1.0, 40, Physics(15.0, 80.0))

  /** The spring's progress for `SlideTransition` and `Push`. */
  function SlideProgress(frame: nat, spring: SpringFn): real {
    spring(Delayed(frame, 25), SlideSpring)
  }

  /** `SlideTransition`: the two scenes' vertical translations. */
  datatype SlideFrame = SlideFrame(progress: real, offsetA: real, offsetB: real)

  function Slide(frame: nat, spring: SpringFn): SlideFrame {
    var p := SlideProgress(frame, spring);
    SlideFrame(p, Lerp(p, 0.0, Height), Lerp(p, -Height, 0.0))
  }

  /** Whatever the spring does, including overshoot, the two scenes move as one strip:
      A is moved down by the progress times the height and B sits exactly one screen
      above A. */
  lemma SlideTogether(frame: nat, spring: SpringFn)
    ensures var s := Slide(frame, spring);
      s.offsetA == s.progress * Height && s.offsetB == s.offsetA - Height
  {
    var p := SlideProgress(frame, spring);
    LerpIsLine(p, 0.0, Height);
    LerpIsLine(p, -Height, 0.0);
  }

  /** Nothing moves before frame 25: every earlier frame shows the first frame, and with
      a spring at rest that is A in place and B one screen above. */
  lemma SlideHeld(frame: nat, spring: SpringFn)
    requires frame <= 25
    ensures Slide(frame, spring) == Slide(0, spring)
    ensures Rests(spring, SlideSpring) ==> Slide(frame, spring).offsetA == 0.0 && Slide(frame, spring).offsetB == -Height
  {
    SlideTogether(frame, spring);
  }

  /** `Push`: the two scenes' horizontal translations. */
  datatype PushFrame = PushFrame(progress: real, offsetA: real, offsetB: real)

  function Push(frame: nat, spring: SpringFn): PushFrame {
    var p := SlideProgress(frame, spring);
    var offset := Lerp(p, 0.0, -Width);
    PushFrame(p, offset, offset + Width)
  }

  /** Whatever the spring does, A is pushed left by the progress times the width and
      B follows exactly one screen behind, so no gap opens between them. */
  lemma PushTogether(frame: nat, spring: SpringFn)
    ensures var s := Push(frame, spring);
      && s.offsetA == -(s.progress * Width)
      && s.offsetB == (1.0 - s.progress) * Width
      && s.offsetB - s.offsetA == Width
  {
    LerpIsLine(SlideProgress(frame, spring), 0.0, -Width);
  }

  /** With a spring at rest, A fills the screen up to frame 25 and B waits just off its
      right edge. */
  lemma PushHeld(frame: nat, spring: SpringFn)
    requires frame <= 25 && Rests(spring, SlideSpring)
    ensures Push(frame, spring).offsetA == 0.0 && Push(frame, spring).offsetB == Width
  {
    PushTogether(frame, spring);
  }

  // ---------------------------------------------------------------- Iris

  /** The spring of both the opening (from frame 15) and the closing (from frame 80). */
  const IrisSpring: SpringConfig := SpringConfig(0.0, 1.0, 40, Physics(12.0, 80.0))

  /** `Iris`: whether A is drawn, the circle's radius (percent) and whether B is
      drawn inside it, over a black background. */
  datatype IrisFrame = IrisFrame(showA: bool, radius: real, showB: bool)

  function Iris(frame: nat, spring: SpringFn): IrisFrame {
    var closing := frame >= 80;
    var radius :=
      if closing then Lerp(spring(Delayed(frame, 80), IrisSpring), 75.0, 0.0)
      else Lerp(spring(Delayed(frame, 15), IrisSpring), 0.0, 75.0);
    IrisFrame(!closing, radius, radius > 0.5)
  }

  /** The circle opens with the first spring until frame 80, A underneath, then closes
      with the second on black; B is drawn exactly while the radius exceeds half a
      percent. */
  lemma IrisRadius(frame: nat, spring: SpringFn)
    ensures var i := Iris(frame, spring);
      && (i.showA <==> frame < 80)
      && (i.showB <==> i.radius > 0.5)
      && (frame < 80 ==> i.radius == 75.0 * spring(Delayed(frame, 15), IrisSpring))
      && (frame >= 80 ==> i.radius == 75.0 - 75.0 * spring(frame - 80, IrisSpring))
  {
    if frame < 80 {
      LerpIsLine(spring(Delayed(frame, 15), IrisSpring), 0.0, 75.0);
    } else {
      LerpIsLine(spring(Delayed(frame, 80), IrisSpring), 75.0, 0.0);
    }
  }

  /** With a spring at rest, the iris is shut until frame 15 (only A shows) and fully
      open, 75 percent, on frame 80 when it starts to close. */
  lemma IrisAtRest(frame: nat, spring: SpringFn)
    requires Rests(spring, IrisSpring)
    ensures frame <= 15 ==> Iris(frame, spring).radius == 0.0 && !Iris(frame, spring).showB
    ensures frame == 80 ==> Iris(frame, spring).radius == 75.0 && Iris(frame, spring).showB
  {
    IrisRadius(frame, spring);
  }

  // ---------------------------------------------------------------- ZoomTransition

  /** `ZoomTransition`: A's scale and opacity and whether A is still drawn over B. */
  datatype ZoomFrame = ZoomFrame(scaleA: real, opacityA: real, showA: bool)

  function Zoom(frame: nat): ZoomFrame {
    var f := frame as real;
    ZoomFrame(Ramp(f, 25.0, 45.0, 1.0, 30.0), Ramp(f, 25.0, 40.0, 1.0, 0.0), frame < 45)
  }

  /** A grows from 1 to 30 times its size and fades out over frames 25 to 40; it has
      been transparent since frame 40 when it is removed at 45, so the removal is
      invisible. */
  lemma ZoomThrough(frame: nat)
    ensures var z := Zoom(frame);
      && 1.0 <= z.scaleA <= 30.0
      && 0.0 <= z.opacityA <= 1.0
      && (frame <= 25 ==> z.scaleA == 1.0 && z.opacityA == 1.0)
      && (frame >= 40 ==> z.opacityA == 0.0)
      && (!z.showA ==> z.opacityA == 0.0 && z.scaleA == 30.0)
  {
    RampFacts(frame as real, 25.0, 45.0, 1.0, 30.0);
    RampFacts(frame as real, 25.0, 40.0, 1.0, 0.0);
  }

  /** The zoom only pushes in. */
  lemma ZoomMonotone(frame: nat, later: nat)
    requires frame <= later
    ensures Zoom(frame).scaleA <= Zoom(later).scaleA
    ensures Zoom(later).opacityA <= Zoom(frame).opacityA
  {
    RampMonotone(frame as real, later as real, 25.0, 45.0, 1.0, 30.0);
    RampMonotone(frame as real, later as real, 25.0, 40.0, 1.0, 0.0);
  }

  // ---------------------------------------------------------------- WhipPan

  /** `WhipPan`: the two scenes' horizontal translations and blurs. */
  datatype WhipPanFrame = WhipPanFrame(slideA: real, slideB: real, blurA: real, blurB: real)

  /** How far the pans travel: one and a half screen widths. */
  const PanDistance: real := Width * 1.5

  /** The clamped motion-blur envelope: up to 30 pixels over frames 30 to 46. */
  function BlurEnvelope(frame: nat): real {
    Plateau(frame as real, 30.0, 36.0, 38.0, 46.0, 30.0)
  }

  /** The blur as the composition computes it: the envelope, guarded to frames 30 to
      46. */
  function WhipBlur(frame: nat): real {
    if 30 <= frame <= 46 then BlurEnvelope(frame) else 0.0
  }

  /** `WhipPan` with its two easings, `Easing.in(Easing.cubic)` for A and
      `Easing.out(Easing.cubic)` for B, passed in. */
  function WhipPan(frame: nat, easeIn: real -> real, easeOut: real -> real): WhipPanFrame {
    var f := frame as real;
    AdjacentIncreasing([30.0, 38.0]);
    AdjacentIncreasing([36.0, 46.0]);
    var blur := WhipBlur(frame);
    WhipPanFrame(
      Interpolate(f, [30.0, 38.0], [0.0, -PanDistance], Clamped, easeIn),
      Interpolate(f, [36.0, 46.0], [PanDistance, 0.0], Clamped, easeOut),
      blur,
      blur * 0.5)
  }

  /** The frame guard around the blur changes nothing: the clamped envelope is already
      0 outside frames 30 to 46. */
  lemma WhipBlurGuardRedundant(frame: nat)
    ensures WhipBlur(frame) == BlurEnvelope(frame)
  {
    PlateauFacts(frame as real, 30.0, 36.0, 38.0, 46.0, 30.0);
  }

  /** The blur rises to 30 pixels, holds it over frames 36 to 38 while both scenes are
      in flight, and stays in [0, 30]; B is blurred half as much as A. */
  lemma WhipBlurEnvelope(frame: nat)
    ensures 0.0 <= WhipBlur(frame) <= 30.0
    ensures 36 <= frame <= 38 ==> WhipBlur(frame) == 30.0
    ensures frame <= 30 || frame >= 46 ==> WhipBlur(frame) == 0.0
    ensures 30 < frame < 46 <==> WhipBlur(frame) > 0.0
  {
    PlateauFacts(frame as real, 30.0, 36.0, 38.0, 46.0, 30.0);
  }

  /** With easings that fix 0 and 1, A stands still until frame 30 and is one and a half
      screens off to the left from frame 38; B waits as far off to the right until
      frame 36 and is in place from frame 46; B's blur is half of A's. */
  lemma WhipPanEnds(frame: nat, easeIn: real -> real, easeOut: real -> real)
    requires FixesEnds(easeIn) && FixesEnds(easeOut)
    ensures var w := WhipPan(frame, easeIn, easeOut);
      && (frame <= 30 ==> w.slideA == 0.0)
      && (frame >= 38 ==> w.slideA == -PanDistance && w.slideA <= -Width)
      && (frame <= 36 ==> w.slideB == PanDistance && w.slideB >= Width)
      && (frame >= 46 ==> w.slideB == 0.0)
      && w.blurB * 2.0 == w.blurA
  {
    var x := frame as real;
    AdjacentIncreasing([30.0, 38.0]);
    AdjacentIncreasing([36.0, 46.0]);
    if frame <= 30 {
      ClampBelow(x, [30.0, 38.0], [0.0, -PanDistance], Clamped, easeIn);
    }
    if frame >= 38 {
      ClampAbove(x, [30.0, 38.0], [0.0, -PanDistance], Clamped, easeIn);
    }
    if frame <= 36 {
      ClampBelow(x, [36.0, 46.0], [PanDistance, 0.0], Clamped, easeOut);
    }
    if frame >= 46 {
      ClampAbove(x, [36.0, 46.0], [PanDistance, 0.0], Clamped, easeOut);
    }
  }

  // ---------------------------------------------------------------- SpinTransition

  /** `SpinTransition`: A's rotation (degrees) and opacity, whether A is still drawn
      over B, and B's rotation. */
  datatype SpinFrame = SpinFrame(rotationA: real, opacityA: real, showA: bool, rotationB: real)

  function Spin(frame: nat): SpinFrame {
    var f := frame as real;
    SpinFrame(
      Ramp(f, 25.0, 31.0, 0.0, 360.0),
      Ramp(f, 29.0, 32.0, 1.0, 0.0),
      frame < 32,
      Ramp(f, 30.0, 34.0, -360.0, 0.0))
  }

  /** A makes exactly one turn over frames 25 to 31 and is transparent by the time it is
      removed at frame 32; B makes one turn over frames 30 to 34 and ends upright. */
  lemma SpinTurns(frame: nat)
    ensures var s := Spin(frame);
      && 0.0 <= s.rotationA <= 360.0
      && (frame <= 25 ==> s.rotationA == 0.0)
      && (frame >= 31 ==> s.rotationA == 360.0)
      && 0.0 <= s.opacityA <= 1.0
      && (!s.showA ==> s.opacityA == 0.0)
      && -360.0 <= s.rotationB <= 0.0
      && (frame <= 30 ==> s.rotationB == -360.0)
      && (frame >= 34 ==> s.rotationB == 0.0)
  {
    var f := frame as real;
    RampFacts(f, 25.0, 31.0, 0.0, 360.0);
    RampFacts(f, 29.0, 32.0, 1.0, 0.0);
    RampFacts(f, 30.0, 34.0, -360.0, 0.0);
  }

  // ---------------------------------------------------------------- Morph

  /** The caption under the shape. */
  datatype Shape = Circle | Square

  /** The spring of `Morph`, from frame 15 on. */
  const MorphSpring: SpringConfig := SpringConfig(0.0, 1.0, 60, Physics(15.0, 60.0))

  /** `Morph`: the spring's progress and every property carried by it. */
  datatype MorphFrame = MorphFrame(
    progress: real,
    borderRadius: real,
    size: real,
    colorR: real,
    colorG: real,
    colorB: real,
    rotation: real,
    bgR: real,
    bgG: real,
    bgB: real,
    caption: Shape)

  function Morph(frame: nat, spring: SpringFn): MorphFrame {
    var p := spring(Delayed(frame, 15), MorphSpring);
    MorphFrame(
      p,
      Lerp(p, 200.0, 12.0),
      Lerp(p, 400.0, 400.0),
      Lerp(p, 233.0, 15.0),
      Lerp(p, 69.0, 52.0),
      Lerp(p, 96.0, 96.0),
      Lerp(p, 0.0, 90.0),
      Lerp(p, 26.0, 15.0),
      Lerp(p, 26.0, 30.0),
      Lerp(p, 46.0, 60.0),
      if p < 0.5 then Circle else Square)
  }

  /** Whatever the spring does, the shape keeps its 400-pixel size and its blue
      channel, and the caption reads "Square" exactly from half way on. */
  lemma MorphInvariants(frame: nat, spring: SpringFn)
    ensures var m := Morph(frame, spring);
      && m.size == 400.0
      && m.colorB == 96.0
      && (m.caption == Circle <==> m.progress < 0.5)
  {
    var p := spring(Delayed(frame, 15), MorphSpring);
    LerpIsLine(p, 400.0, 400.0);
    LerpIsLine(p, 96.0, 96.0);
  }

  /** The shape starts as a true circle (corner radius half its size) in rgb(233, 69,
      96), upright, and ends as a rounded square in rgb(15, 52, 96) turned 90
      degrees. */
  lemma MorphEnds(frame: nat, spring: SpringFn)
    ensures var m := Morph(frame, spring);
      m.progress == 0.0 ==>
        m.borderRadius * 2.0 == m.size && m.colorR == 233.0 && m.colorG == 69.0 && m.rotation == 0.0
    ensures var m := Morph(frame, spring);
      m.progress == 1.0 ==>
        m.borderRadius == 12.0 && m.colorR == 15.0 && m.colorG == 52.0 && m.rotation == 90.0
  {
    var p := spring(Delayed(frame, 15), MorphSpring);
    LerpIsLine(p, 200.0, 12.0);
    LerpIsLine(p, 400.0, 400.0);
    LerpIsLine(p, 233.0, 15.0);
    LerpIsLine(p, 69.0, 52.0);
    LerpIsLine(p, 0.0, 90.0);
  }

  /** With a spring at rest, nothing morphs before frame 15. */
  lemma MorphAtRest(frame: nat, spring: SpringFn)
    requires frame <= 15 && Rests(spring, MorphSpring)
    ensures Morph(frame, spring).progress == 0.0 && Morph(frame, spring).caption == Circle
  {
  }
}
