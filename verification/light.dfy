/** The light family: `FilmBurn`, `LightLeak` and `LensFlareWipe`. Each hides the cut
    under a bright overlay whose opacity peaks around frame 45. */
module Light {
  import opened Canvas
  import opened Interpolation

  /** `interpolate(x, [a, m, b], [p, top, q])` clamped on both sides: a value that moves
      from `p` to `top` at `m` and on to `q`. */
  function Hump(x: real, a: real, m: real, b: real, p: real, top: real, q: real): real
    requires a < m < b
  {
    AdjacentIncreasing([a, m, b]);
    Interpolate(x, [a, m, b], [p, top, q], Clamped, Linear)
  }

  /** A three-point curve is its first ramp up to the middle breakpoint and its second
      ramp from there on. */
  lemma HumpIsRamps(x: real, a: real, m: real, b: real, p: real, top: real, q: real)
    requires a < m < b
    ensures x <= m ==> Hump(x, a, m, b, p, top, q) == Ramp(x, a, m, p, top)
    ensures x >= m ==> Hump(x, a, m, b, p, top, q) == Ramp(x, m, b, top, q)
  {
    var input, output := [a, m, b], [p, top, q];
    AdjacentIncreasing(input);
    RampFacts(x, a, m, p, top);
    RampFacts(x, m, b, top, q);
    assert Linear(0.0) == 0.0 && Linear(1.0) == 1.0;
    if x <= a {
      ClampBelow(x, input, output, Clamped, Linear);
    } else if x <= m {
      Between(x, input, output, Clamped, 0);
      if x == m {
        Between(x, input, output, Clamped, 1);
      }
    } else if x <= b {
      Between(x, input, output, Clamped, 1);
    } else {
      ClampAbove(x, input, output, Clamped, Linear);
    }
  }

  // ---------------------------------------------------------------- FilmBurn

  /** `FilmBurn`: the scene shown, how far the burn has swept (percent of the width),
      the left edges of the 80%-wide burn band and of the 40%-wide highlight inside
      it, and the two opacities. */
  datatype FilmBurnFrame = FilmBurnFrame(
    scene: Scene,
    progress: real,
    bandLeft: real,
    highlightLeft: real,
    bandOpacity: real,
    highlightOpacity: real)

  const BandWidth: real := 80.0
  const HighlightWidth: real := 40.0

  function FilmBurn(frame: nat): FilmBurnFrame {
    var f := frame as real;
    var progress := Ramp(f, 30.0, 60.0, -100.0, 200.0);
    var opacity := Plateau(f, 30.0, 42.0, 48.0, 60.0, 0.9);
    FilmBurnFrame(
      (if frame >= 45 then SceneB else SceneA),
      progress,
      progress - 50.0,
      progress - 30.0,
      opacity,
      opacity * 0.7)
  }

  /** The burn is at its full 0.9 over frames 42 to 48, around the cut at 45, and is
      visible exactly inside frames 30 to 60; the highlight is always 0.7 of the band. */
  lemma FilmBurnCoversCut(frame: nat)
    ensures var b := FilmBurn(frame);
      && (b.scene == SceneB <==> frame >= 45)
      && 0.0 <= b.bandOpacity <= 0.9
      && (42 <= frame <= 48 ==> b.bandOpacity == 0.9)
      && (30 < frame < 60 <==> b.bandOpacity > 0.0)
      && b.highlightOpacity == b.bandOpacity * 0.7
      && 0.0 <= b.highlightOpacity <= 0.63
  {
    PlateauFacts(frame as real, 30.0, 42.0, 48.0, 60.0, 0.9);
  }

  /** The burn sweeps left to right, never back: it starts wholly left of the picture,
      has its band on the picture's left edge at the cut, and ends wholly right of it;
      the highlight always lies inside the band. */
  lemma FilmBurnSweep(frame: nat)
    ensures var b := FilmBurn(frame);
      && (frame <= 30 ==> b.bandLeft + BandWidth < 0.0)
      && (frame == 45 ==> b.bandLeft == 0.0)
      && (frame >= 60 ==> b.bandLeft >= 100.0)
      && b.bandLeft <= b.highlightLeft
      && b.highlightLeft + HighlightWidth <= b.bandLeft + BandWidth
  {
    RampFacts(frame as real, 30.0, 60.0, -100.0, 200.0);
  }

  lemma FilmBurnMonotone(frame: nat, later: nat)
    requires frame <= later
    ensures FilmBurn(frame).bandLeft <= FilmBurn(later).bandLeft
  {
    RampMonotone(frame as real, later as real, 30.0, 60.0, -100.0, 200.0);
  }

  // ---------------------------------------------------------------- LightLeak

  /** `LightLeak`: the scene shown; the main leak's opacity, centre (percent) and
      scale; the full-screen warm wash; and the secondary leak, mirrored through the
      picture's centre at 0.7 of the main opacity. */
  datatype LightLeakFrame = LightLeakFrame(
    scene: Scene,
    leakOpacity: real,
    leakX: real,
    leakY: real,
    leakScale: real,
    coverOpacity: real,
    mirrorX: real,
    mirrorY: real,
    mirrorOpacity: real)

  function LightLeak(frame: nat): LightLeakFrame {
    var f := frame as real;
    var leak := Plateau(f, 25.0, 42.0, 48.0, 65.0, 1.0);
    var x := Ramp(f, 25.0, 65.0, 20.0, 80.0);
    var y := Ramp(f, 25.0, 65.0, 30.0, 60.0);
    LightLeakFrame(
      (if frame >= 45 then SceneB else SceneA),
      leak,
      x,
      y,
      Hump(f, 25.0, 45.0, 65.0, 0.8, 2.0, 1.2),
      Plateau(f, 35.0, 42.0, 48.0, 58.0, 0.9),
      100.0 - x,
      100.0 - y,
      leak * 0.7)
  }

  /** Over frames 42 to 48 the leak is fully opaque and the wash at 0.9, so the cut at
      45 is hidden; the leak shows exactly inside frames 25 to 65, the wash exactly
      inside 35 to 58. */
  lemma LightLeakPeak(frame: nat)
    ensures var l := LightLeak(frame);
      && (l.scene == SceneB <==> frame >= 45)
      && (42 <= frame <= 48 ==> l.leakOpacity == 1.0 && l.coverOpacity == 0.9)
      && 0.0 <= l.leakOpacity <= 1.0
      && 0.0 <= l.coverOpacity <= 0.9
      && (25 < frame < 65 <==> l.leakOpacity > 0.0)
      && (35 < frame < 58 <==> l.coverOpacity > 0.0)
  {
    PlateauFacts(frame as real, 25.0, 42.0, 48.0, 65.0, 1.0);
    PlateauFacts(frame as real, 35.0, 42.0, 48.0, 58.0, 0.9);
  }

  /** The wash never outshines the leak: at every frame it is at most 0.9 of the leak's
      opacity, so it fades in later and out earlier. */
  lemma LightLeakCoverWithinLeak(frame: nat)
    ensures LightLeak(frame).coverOpacity <= 0.9 * LightLeak(frame).leakOpacity
  {
    var f := frame as real;
    PlateauIsMin(f, 25.0, 42.0, 48.0, 65.0, 1.0);
    PlateauIsMin(f, 35.0, 42.0, 48.0, 58.0, 0.9);
    PlateauFacts(f, 25.0, 42.0, 48.0, 65.0, 1.0);
    PlateauFacts(f, 35.0, 42.0, 48.0, 58.0, 0.9);
    RampFacts(f, 25.0, 42.0, 0.0, 1.0);
    RampFacts(f, 48.0, 65.0, 1.0, 0.0);
    RampFacts(f, 35.0, 42.0, 0.0, 0.9);
    RampFacts(f, 48.0, 58.0, 0.9, 0.0);
  }

  /** The secondary leak sits at the main leak's mirror image through the centre; both
      drift across the middle of the picture, never nearer an edge than 20%. */
  lemma LightLeakMirror(frame: nat)
    ensures var l := LightLeak(frame);
      && l.leakX + l.mirrorX == 100.0 && l.leakY + l.mirrorY == 100.0
      && 20.0 <= l.leakX <= 80.0 && 20.0 <= l.mirrorX <= 80.0
      && 30.0 <= l.leakY <= 60.0 && 40.0 <= l.mirrorY <= 70.0
      && l.mirrorOpacity == 0.7 * l.leakOpacity
      && (frame == 45 ==> l.leakX == 50.0 && l.mirrorX == 50.0)
  {
    RampFacts(frame as real, 25.0, 65.0, 20.0, 80.0);
    RampFacts(frame as real, 25.0, 65.0, 30.0, 60.0);
  }

  /** The leak swells to twice its size at the cut and settles at 1.2. */
  lemma LightLeakScale(frame: nat)
    ensures var s := LightLeak(frame).leakScale;
      && 0.8 <= s <= 2.0
      && (frame == 45 ==> s == 2.0)
      && (frame <= 25 ==> s == 0.8)
      && (frame >= 65 ==> s == 1.2)
  {
    var f := frame as real;
    HumpIsRamps(f, 25.0, 45.0, 65.0, 0.8, 2.0, 1.2);
    RampFacts(f, 25.0, 45.0, 0.8, 2.0);
    RampFacts(f, 45.0, 65.0, 2.0, 1.2);
  }

  // ---------------------------------------------------------------- LensFlareWipe

  /** `LensFlareWipe`: the flare's centre (percent of the width, running from
      off-screen left to off-screen right), its opacity and size, the part of Scene B
      revealed and the matching right inset of B's clip, the white flash, and the thin
      streak's opacity. Scene A is always drawn beneath. */
  datatype LensFlareFrame = LensFlareFrame(
    flareX: real,
    flareOpacity: real,
    flareWidth: real,
    flareHeight: real,
    revealed: real,
    clipRight: real,
    flashOpacity: real,
    streakOpacity: real)

  function LensFlareWipe(frame: nat): LensFlareFrame {
    var f := frame as real;
    var x := Ramp(f, 20.0, 70.0, -10.0, 110.0);
    var opacity := Plateau(f, 20.0, 35.0, 55.0, 70.0, 1.0);
    var revealed := Max(0.0, Min(100.0, x));
    LensFlareFrame(
      x,
      opacity,
      Hump(f, 20.0, 45.0, 70.0, 150.0, 320.0, 150.0),
      Hump(f, 20.0, 45.0, 70.0, Height * 1.5, Height * 2.5, Height * 1.5),
      revealed,
      100.0 - revealed,
      Plateau(f, 30.0, 43.0, 47.0, 60.0, 0.75),
      opacity * 0.8)
  }

  /** The revealed part is the flare's position clamped to the picture: B is uncovered left of
      the flare while it crosses, not at all up to frame 24, wholly from frame 66, and
      half at the cut. */
  lemma LensFlareReveal(frame: nat)
    ensures var l := LensFlareWipe(frame);
      && 0.0 <= l.revealed <= 100.0
      && l.revealed + l.clipRight == 100.0
      && (0.0 <= l.flareX <= 100.0 ==> l.revealed == l.flareX)
      && (l.revealed == 0.0 <==> frame <= 24)
      && (l.revealed == 100.0 <==> frame >= 66)
      && (frame == 45 ==> l.revealed == 50.0)
  {
    RampFacts(frame as real, 20.0, 70.0, -10.0, 110.0);
  }

  /** The revealed part only grows: B, once uncovered, stays uncovered. */
  lemma LensFlareMonotone(frame: nat, later: nat)
    requires frame <= later
    ensures LensFlareWipe(frame).revealed <= LensFlareWipe(later).revealed
  {
    RampMonotone(frame as real, later as real, 20.0, 70.0, -10.0, 110.0);
  }

  /** The white flash is at 0.75 over frames 43 to 47, around the cut, and shows
      exactly inside frames 30 to 60; the flare is fully bright over frames 35 to 55,
      at its largest at 45, and the thin streak at 0.8 of it. */
  lemma LensFlareFlash(frame: nat)
    ensures var l := LensFlareWipe(frame);
      && 0.0 <= l.flashOpacity <= 0.75
      && (43 <= frame <= 47 ==> l.flashOpacity == 0.75)
      && (30 < frame < 60 <==> l.flashOpacity > 0.0)
      && (35 <= frame <= 55 ==> l.flareOpacity == 1.0)
      && l.streakOpacity == 0.8 * l.flareOpacity
      && 150.0 <= l.flareWidth <= 320.0
      && (frame == 45 ==> l.flareWidth == 320.0 && l.flareHeight == Height * 2.5)
  {
    var f := frame as real;
    PlateauFacts(f, 30.0, 43.0, 47.0, 60.0, 0.75);
    PlateauFacts(f, 20.0, 35.0, 55.0, 70.0, 1.0);
    HumpIsRamps(f, 20.0, 45.0, 70.0, 150.0, 320.0, 150.0);
    HumpIsRamps(f, 20.0, 45.0, 70.0, Height * 1.5, Height * 2.5, Height * 1.5);
    RampFacts(f, 20.0, 45.0, 150.0, 320.0);
    RampFacts(f, 45.0, 70.0, 320.0, 150.0);
    RampFacts(f, 20.0, 45.0, Height * 1.5, Height * 2.5);
  }
}
