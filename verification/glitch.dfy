/** `GlitchTransition`: a burst of digital glitch over frames 32 to 58 that hides the
    cut at frame 45. Every random quantity comes from a generator seeded by the frame
    number, so a frame always renders the same glitch. */
module Glitch {
  import opened Interpolation
  import opened Rng

  // ---------------------------------------------------------------- rounding and grids

  /** JavaScript's `Math.round`: the nearest integer, halves rounded up (towards
      positive infinity, so -2.5 rounds to -2). */
  function JsRound(y: real): (r: int)
    ensures y - 0.5 < r as real <= y + 0.5
  {
    (y + 0.5).Floor
  }

  /** `v` is a whole number of `step`s. */
  predicate OnGrid(v: real, step: real)
    requires step > 0.0
  {
    (v / step).Floor as real == v / step
  }

  /** A value in [-(m + 1/2), m + 1/2) rounds to at most `m` either side. */
  lemma RoundWithin(q: real, m: nat)
    requires -(m as real + 0.5) <= q < m as real + 0.5
    ensures -(m as int) <= JsRound(q) <= m
  {
  }

  /** `Math.round((d - 0.5) * extent * intensity / step)`: how many steps a jolt
      moves. */
  function JoltSteps(d: real, extent: real, intensity: real, step: real): (k: int)
    requires step > 0.0
    ensures intensity == 0.0 ==> k == 0
  {
    assert intensity == 0.0 ==> (d - 0.5) * extent * intensity / step == 0.0;
    JsRound((d - 0.5) * extent * intensity / step)
  }

  /** `Math.round((d - 0.5) * extent * intensity / step) * step`: a displacement
      scaled by the intensity, in whole steps, and 0 when the intensity is. */
  function Jolt(d: real, extent: real, intensity: real, step: real): (offset: real)
    requires step > 0.0
    ensures OnGrid(offset, step)
    ensures intensity == 0.0 ==> offset == 0.0
  {
    var k := JoltSteps(d, extent, intensity, step);
    assert (k as real * step) / step == k as real;
    k as real * step
  }

  /** A draw in [0, 1) less a half, scaled by an intensity in [0, 1], stays within
      half a unit of 0: so a jolt reaches at most half its extent. */
  lemma SignedShare(d: real, intensity: real)
    requires 0.0 <= d < 1.0 && 0.0 <= intensity <= 1.0
    ensures -0.5 <= (d - 0.5) * intensity <= 0.5
  {
    var h := d - 0.5;
    MulAtMost(h, 0.5, intensity);
    MulNonNegative(h + 0.5, intensity);
    assert (h + 0.5) * intensity == h * intensity + 0.5 * intensity;
  }

  // ---------------------------------------------------------------- intensity

  /** The glitch window. */
  predicate InGlitch(frame: nat) {
    32 <= frame <= 58
  }

  const EnvelopeInput: seq<real> := [32.0, 40.0, 45.0, 50.0, 58.0]
  const EnvelopeOutput: seq<real> := [0.0, 0.7, 1.0, 0.8, 0.0]

  /** The raw intensity: the clamped envelope inside the window, 0 outside it. */
  function RawIntensity(frame: nat): (raw: real)
    ensures 0.0 <= raw <= 1.0
  {
    if InGlitch(frame) then
      EnvelopeRange(frame);
      Interpolate(frame as real, EnvelopeInput, EnvelopeOutput, Clamped, Linear)
    else 0.0
  }

  /** The envelope is valid and its values stay in [0, 1]. */
  lemma EnvelopeRange(frame: nat)
    ensures Valid(EnvelopeInput, EnvelopeOutput)
    ensures 0.0 <= Interpolate(frame as real, EnvelopeInput, EnvelopeOutput, Clamped, Linear) <= 1.0
  {
    AdjacentIncreasing(EnvelopeInput);
    ClampedWithin(frame as real, EnvelopeInput, EnvelopeOutput);
  }

  /** `Math.floor(raw * 4) / 4`: four steps of a quarter, for a jerky look. The result
      is the largest quarter not above `raw`. */
  function Quantize(raw: real): (q: real)
    ensures OnGrid(q, 0.25)
    ensures q <= raw < q + 0.25
    ensures 0.0 <= raw <= 1.0 ==> 0.0 <= q <= 1.0
  {
    var n := (raw * 4.0).Floor;
    assert (n as real / 4.0) / 0.25 == n as real;
    n as real / 4.0
  }

  /** Quantizing leaves exactly the quarters unchanged, so quantizing twice is
      quantizing once. */
  lemma QuantizeFixes(v: real)
    ensures Quantize(v) == v <==> OnGrid(v, 0.25)
    ensures Quantize(Quantize(v)) == Quantize(v)
  {
    var q := Quantize(v);
    assert q * 4.0 == q / 0.25;
    if OnGrid(v, 0.25) {
      assert v * 4.0 == v / 0.25;
    }
  }

  /** The random spike: 0.3 on the window's frames whose draw exceeds 0.6, else 0. */
  function Spike(inGlitch: bool, d: real): real {
    if inGlitch && d > 0.6 then 0.3 else 0.0
  }

  /** `Math.min(1, quantized + spike)`, given the spike generator's draw. */
  function Intensity(frame: nat, spikeDraw: real): (i: real)
    ensures 0.0 <= i <= 1.0
    ensures !InGlitch(frame) ==> i == 0.0
  {
    Min(1.0, Quantize(RawIntensity(frame)) + Spike(InGlitch(frame), spikeDraw))
  }

  // ---------------------------------------------------------------- the draws of a frame

  /** A draw of `Math.random`'s replacement: a real in [0, 1). */
  predicate Unit(d: real) {
    0.0 <= d < 1.0
  }

  /** The four draws of scanline slice `i`: the first two of
      `createRng(frame * 41 + i * 19)` (top, then displacement) and the first two of
      `createRng(frame * 43 + i * 23)` (height, then opacity). */
  datatype SliceDraws = SliceDraws(top: real, shift: real, height: real, opacity: real)

  /** Every draw a frame uses. The flicker generator is called twice: once for the
      test, once more for the level. */
  datatype FrameDraws = FrameDraws(
    spike: real,
    imgX: real,
    imgY: real,
    txtX: real,
    txtY: real,
    bgX: real,
    flickerTest: real,
    flickerLevel: real,
    slices: seq<SliceDraws>)

  const SliceCount: nat := 8

  predicate SliceDrawsInUnit(s: SliceDraws) {
    Unit(s.top) && Unit(s.shift) && Unit(s.height) && Unit(s.opacity)
  }

  predicate DrawsInUnit(g: FrameDraws) {
    && Unit(g.spike) && Unit(g.imgX) && Unit(g.imgY) && Unit(g.txtX) && Unit(g.txtY)
    && Unit(g.bgX) && Unit(g.flickerTest) && Unit(g.flickerLevel)
    && |g.slices| == SliceCount
    && forall i :: 0 <= i < |g.slices| ==> SliceDrawsInUnit(g.slices[i])
  }

  /** The draws of `frame`, each from its own generator seeded by the frame number:
      `createRng(frame * 97 + 13)` for the spike, `frame * 13 + 7` and `frame * 17 + 11`
      for the picture, `frame * 29 + 3` and `frame * 31 + 5` for the text,
      `frame * 53 + 17` for the background, `frame * 67 + 37` for the flicker. */
  function DrawsOf(frame: nat): (g: FrameDraws)
    ensures DrawsInUnit(g)
  {
    FrameDraws(
      DrawAt(frame * 97 + 13, 0),
      DrawAt(frame * 13 + 7, 0),
      DrawAt(frame * 17 + 11, 0),
      DrawAt(frame * 29 + 3, 0),
      DrawAt(frame * 31 + 5, 0),
      DrawAt(frame * 53 + 17, 0),
      DrawAt(frame * 67 + 37, 0),
      DrawAt(frame * 67 + 37, 1),
      seq(SliceCount, i requires 0 <= i => SliceDrawsOf(frame, i)))
  }

  /** The draws of slice `i` of `frame`. */
  function SliceDrawsOf(frame: nat, i: nat): (s: SliceDraws)
    ensures SliceDrawsInUnit(s)
  {
    SliceDraws(
      DrawAt(frame * 41 + i * 19, 0), DrawAt(frame * 41 + i * 19, 1),
      DrawAt(frame * 43 + i * 23, 0), DrawAt(frame * 43 + i * 23, 1))
  }

  // ---------------------------------------------------------------- scanline slices

  /** A scanline slice: its top and height in percent of the picture, its horizontal
      displacement and its opacity. */
  datatype Slice = Slice(top: real, height: real, offsetX: real, opacity: real)

  function MakeSlice(d: SliceDraws, intensity: real): Slice {
    Slice(d.top * 90.0, 2.0 + d.height * 8.0, Jolt(d.shift, 600.0, intensity, 30.0), 0.4 + d.opacity * 0.4)
  }

  /** A slice band inside the picture, thin, half-transparent and shifted by at most
      ten 30-pixel steps. */
  predicate SliceWithin(s: Slice) {
    && 0.0 <= s.top < 90.0
    && 2.0 <= s.height < 10.0
    && s.top + s.height < 100.0
    && 0.4 <= s.opacity < 0.8
    && -300.0 <= s.offsetX <= 300.0
    && OnGrid(s.offsetX, 30.0)
  }

  lemma MakeSliceWithin(d: SliceDraws, intensity: real)
    requires SliceDrawsInUnit(d) && 0.0 <= intensity <= 1.0
    ensures SliceWithin(MakeSlice(d, intensity))
  {
    SignedShare(d.shift, intensity);
    RoundWithin((d.shift - 0.5) * 600.0 * intensity / 30.0, 10);
    MulAtMost(d.top, 1.0, 90.0);
    MulAtMost(d.height, 1.0, 8.0);
  }

  // ---------------------------------------------------------------- the frame

  /** `inGlitch && rFlicker() > 0.7 ? rFlicker() * 0.4 * intensity : 0`: the test and
      the level use the generator's first and second draws. */
  function Flicker(inGlitch: bool, test: real, level: real, intensity: real): (opacity: real)
    ensures 0.0 <= level < 1.0 && 0.0 <= intensity <= 1.0 ==> 0.0 <= opacity < 0.4
    ensures opacity > 0.0 ==> inGlitch && test > 0.7
  {
    FlickerBound(level, intensity);
    if inGlitch && test > 0.7 then level * 0.4 * intensity else 0.0
  }

  lemma FlickerBound(level: real, intensity: real)
    ensures 0.0 <= level < 1.0 && 0.0 <= intensity <= 1.0 ==> 0.0 <= level * 0.4 * intensity < 0.4
  {
    if 0.0 <= level < 1.0 && 0.0 <= intensity <= 1.0 {
      var a := level * 0.4;
      MulNonNegative(a, 1.0 - intensity);
      assert a * (1.0 - intensity) == a - a * intensity;
      MulNonNegative(a, intensity);
      assert a * intensity <= a;
    }
  }

  /** The per-frame parameters of `GlitchTransition`. The slices and the red/blue
      overlays are drawn only inside the window, the white flash only when its opacity
      is positive. */
  datatype GlitchFrame = GlitchFrame(
    inGlitch: bool,
    rawIntensity: real,
    quantized: real,
    spike: real,
    intensity: real,
    showB: bool,
    imgOffsetX: real,
    imgOffsetY: real,
    txtOffsetX: real,
    txtOffsetY: real,
    bgOffsetX: real,
    slices: seq<Slice>,
    rgbShift: real,
    flickerOpacity: real)

  /** The frame's parameters computed from its draws. */
  function GlitchFrom(frame: nat, g: FrameDraws): GlitchFrame {
    var inGlitch := InGlitch(frame);
    var raw := RawIntensity(frame);
    var intensity := Intensity(frame, g.spike);
    GlitchFrame(
      inGlitch,
      raw,
      Quantize(raw),
      Spike(inGlitch, g.spike),
      intensity,
      frame >= 45,
      Jolt(g.imgX, 800.0, intensity, 50.0),
      Jolt(g.imgY, 160.0, intensity, 20.0),
      Jolt(g.txtX, 1000.0, intensity, 50.0),
      Jolt(g.txtY, 120.0, intensity, 20.0),
      Jolt(g.bgX, 200.0, intensity, 30.0),
      seq(|g.slices|, i requires 0 <= i < |g.slices| => MakeSlice(g.slices[i], intensity)),
      intensity * 80.0,
      Flicker(inGlitch, g.flickerTest, g.flickerLevel, intensity))
  }

  /** `GlitchTransition` at `frame`. */
  function GlitchAt(frame: nat): GlitchFrame {
    GlitchFrom(frame, DrawsOf(frame))
  }

  /** The intensity is the quantized envelope plus the spike, capped at 1: a quarter
      step in [0, 1] at most 0.3 above the envelope's step, never below it. */
  lemma GlitchIntensity(frame: nat, g: FrameDraws)
    ensures var f := GlitchFrom(frame, g);
      && OnGrid(f.quantized, 0.25)
      && 0.0 <= f.quantized <= f.rawIntensity <= 1.0
      && (f.spike == 0.0 || f.spike == 0.3)
      && f.quantized <= f.intensity <= f.quantized + f.spike
      && f.intensity <= 1.0
  {
  }

  /** The cut hides under the peak: on frame 45, B's first frame, the intensity is at
      its full 1, and the envelope is back to 0 at both ends of the window. */
  lemma GlitchPeak(frame: nat, g: FrameDraws)
    ensures frame == 45 ==> GlitchFrom(frame, g).rawIntensity == 1.0 && GlitchFrom(frame, g).intensity == 1.0
    ensures GlitchFrom(frame, g).showB <==> frame >= 45
    ensures frame == 32 || frame == 58 ==> GlitchFrom(frame, g).rawIntensity == 0.0
  {
    EnvelopeRange(frame);
    var x := frame as real;
    if frame == 45 {
      Between(x, EnvelopeInput, EnvelopeOutput, Clamped, 1);
      assert RawIntensity(frame) == 1.0;
      assert Quantize(1.0) == 1.0;
    }
    if frame == 32 {
      Between(x, EnvelopeInput, EnvelopeOutput, Clamped, 0);
    }
    if frame == 58 {
      Between(x, EnvelopeInput, EnvelopeOutput, Clamped, 3);
    }
  }

  /** Outside frames 32 to 58 nothing glitches, whatever the draws: the intensity,
      every displacement, the colour split and the white flash are all 0. */
  lemma GlitchQuiet(frame: nat, g: FrameDraws)
    requires !InGlitch(frame)
    ensures var f := GlitchFrom(frame, g);
      && f.intensity == 0.0 && f.spike == 0.0
      && f.imgOffsetX == 0.0 && f.imgOffsetY == 0.0
      && f.txtOffsetX == 0.0 && f.txtOffsetY == 0.0
      && f.bgOffsetX == 0.0
      && f.rgbShift == 0.0
      && f.flickerOpacity == 0.0
  {
  }

  /** The picture's jolts: 50-pixel steps within 400 pixels across, 20-pixel steps
      within 80 pixels down. */
  lemma ImageJolts(d: real, e: real, i: real)
    requires Unit(d) && Unit(e) && 0.0 <= i <= 1.0
    ensures -400.0 <= Jolt(d, 800.0, i, 50.0) <= 400.0
    ensures -80.0 <= Jolt(e, 160.0, i, 20.0) <= 80.0
  {
    SignedShare(d, i);
    RoundWithin((d - 0.5) * 800.0 * i / 50.0, 8);
    SignedShare(e, i);
    RoundWithin((e - 0.5) * 160.0 * i / 20.0, 4);
  }

  /** The text's jolts: 50-pixel steps within 500 pixels across, 20-pixel steps
      within 60 pixels down. */
  lemma TextJolts(d: real, e: real, i: real)
    requires Unit(d) && Unit(e) && 0.0 <= i <= 1.0
    ensures -500.0 <= Jolt(d, 1000.0, i, 50.0) <= 500.0
    ensures -60.0 <= Jolt(e, 120.0, i, 20.0) <= 60.0
  {
    SignedShare(d, i);
    RoundWithin((d - 0.5) * 1000.0 * i / 50.0, 10);
    SignedShare(e, i);
    RoundWithin((e - 0.5) * 120.0 * i / 20.0, 3);
  }

  /** The background's ±100-pixel reach snaps to at most three 30-pixel steps. */
  lemma BackgroundJolt(d: real, i: real)
    requires Unit(d) && 0.0 <= i <= 1.0
    ensures -90.0 <= Jolt(d, 200.0, i, 30.0) <= 90.0
  {
    SignedShare(d, i);
    RoundWithin((d - 0.5) * 200.0 * i / 30.0, 3);
  }

  /** Every displacement is a whole number of its steps (50 pixels for the picture's
      and text's horizontal moves, 20 for their vertical ones, 30 for the background)
      and stays within half its extent: 400, 80, 500 and 60 pixels. The background's
      ±100-pixel reach snaps to at most three steps, 90 pixels, so its 100-pixel bleed
      on each side is never uncovered. */
  lemma GlitchOffsets(frame: nat, g: FrameDraws)
    requires DrawsInUnit(g)
    ensures var f := GlitchFrom(frame, g);
      && OnGrid(f.imgOffsetX, 50.0) && -400.0 <= f.imgOffsetX <= 400.0
      && OnGrid(f.imgOffsetY, 20.0) && -80.0 <= f.imgOffsetY <= 80.0
      && OnGrid(f.txtOffsetX, 50.0) && -500.0 <= f.txtOffsetX <= 500.0
      && OnGrid(f.txtOffsetY, 20.0) && -60.0 <= f.txtOffsetY <= 60.0
      && OnGrid(f.bgOffsetX, 30.0) && -90.0 <= f.bgOffsetX <= 90.0
  {
    var i := Intensity(frame, g.spike);
    ImageJolts(g.imgX, g.imgY, i);
    TextJolts(g.txtX, g.txtY, i);
    BackgroundJolt(g.bgX, i);
  }

  /** The eight slices are thin bands inside the picture, half-transparent, displaced by
      whole 30-pixel steps of at most 300 pixels. */
  lemma GlitchSlices(frame: nat, g: FrameDraws)
    requires DrawsInUnit(g)
    ensures |GlitchFrom(frame, g).slices| == SliceCount
    ensures forall i :: 0 <= i < SliceCount ==> SliceWithin(GlitchFrom(frame, g).slices[i])
  {
    var intensity := Intensity(frame, g.spike);
    forall i | 0 <= i < SliceCount
      ensures SliceWithin(GlitchFrom(frame, g).slices[i])
    {
      MakeSliceWithin(g.slices[i], intensity);
    }
  }

  /** The red and blue overlays split by up to 80 pixels, the full 80 at full
      intensity; the white flash stays below 0.4 and fires only inside the window. */
  lemma GlitchOverlays(frame: nat, g: FrameDraws)
    requires DrawsInUnit(g)
    ensures var f := GlitchFrom(frame, g);
      && 0.0 <= f.rgbShift <= 80.0
      && 0.0 <= f.flickerOpacity < 0.4
      && (f.flickerOpacity > 0.0 ==> f.inGlitch)
      && (f.intensity == 1.0 ==> f.rgbShift == 80.0)
  {
  }

  /** The rendered frame meets all of the above: its own draws are in [0, 1). */
  lemma GlitchAtWithin(frame: nat)
    ensures var f := GlitchAt(frame);
      && -400.0 <= f.imgOffsetX <= 400.0 && -80.0 <= f.imgOffsetY <= 80.0
      && -500.0 <= f.txtOffsetX <= 500.0 && -60.0 <= f.txtOffsetY <= 60.0
      && -90.0 <= f.bgOffsetX <= 90.0
      && (forall i :: 0 <= i < |f.slices| ==> SliceWithin(f.slices[i]))
      && 0.0 <= f.flickerOpacity < 0.4
  {
    var g := DrawsOf(frame);
    GlitchOffsets(frame, g);
    GlitchSlices(frame, g);
    GlitchOverlays(frame, g);
  }
}
