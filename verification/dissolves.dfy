/** The opacity family: `MatchCut`, `CrossDissolve`, `FadeIn`, `FadeOut`, `DipToBlack`,
    `DipToWhite`, and the two audio-led cuts `LCut` and `JCut`, whose volume envelopes
    are the same clamped ramps applied to a gain. */
module Dissolves {
  import opened Canvas
  import opened Timeline
  import opened Interpolation
  import opened Rng

  /** The opacities of the two scenes. */
  datatype Blend = Blend(opacityA: real, opacityB: real)

  // ---------------------------------------------------------------- CrossDissolve

  /** `CrossDissolve`: A fades out while B fades in, both over frames 30 to 60. B is
      painted first and A over it. */
  function CrossDissolve(frame: nat): Blend {
    var f := frame as real;
    Blend(Ramp(f, 30.0, 60.0, 1.0, 0.0), Ramp(f, 30.0, 60.0, 0.0, 1.0))
  }

  /** The two opacities always sum to 1 and lie in [0, 1]; A is opaque up to frame 30,
      B from frame 60, and at the window's midpoint, frame 45, each is exactly 0.5. */
  lemma CrossDissolveBlend(frame: nat)
    ensures var b := CrossDissolve(frame);
      && b.opacityA + b.opacityB == 1.0
      && 0.0 <= b.opacityA <= 1.0 && 0.0 <= b.opacityB <= 1.0
      && (frame <= 30 ==> b.opacityA == 1.0)
      && (frame >= 60 ==> b.opacityB == 1.0)
      && (frame == 45 ==> b.opacityA == 0.5 && b.opacityB == 0.5)
  {
    var f := frame as real;
    RampComplement(f, 30.0, 60.0, 1.0, 0.0);
    RampFacts(f, 30.0, 60.0, 1.0, 0.0);
    RampFacts(f, 30.0, 60.0, 0.0, 1.0);
  }

  /** A never comes back: its opacity never increases from one frame to a later one,
      and B's never decreases. */
  lemma CrossDissolveMonotone(frame: nat, later: nat)
    requires frame <= later
    ensures CrossDissolve(later).opacityA <= CrossDissolve(frame).opacityA
    ensures CrossDissolve(frame).opacityB <= CrossDissolve(later).opacityB
  {
    RampMonotone(frame as real, later as real, 30.0, 60.0, 1.0, 0.0);
    RampMonotone(frame as real, later as real, 30.0, 60.0, 0.0, 1.0);
  }

  // ---------------------------------------------------------------- FadeIn / FadeOut

  /** `FadeIn`: Scene A's opacity over black, from 0 to 1 over the first 45 frames. */
  function FadeIn(frame: nat): real {
    Ramp(frame as real, 0.0, 45.0, 0.0, 1.0)
  }

  /** `FadeOut`: Scene B's opacity over black, from 1 to 0 over frames 45 to 90. */
  function FadeOut(frame: nat): real {
    Ramp(frame as real, 45.0, 90.0, 1.0, 0.0)
  }

  /** The fade-in starts black, ends opaque from frame 45 on and stays in [0, 1]. */
  lemma FadeInRange(frame: nat)
    ensures frame == 0 ==> FadeIn(frame) == 0.0
    ensures frame >= 45 ==> FadeIn(frame) == 1.0
    ensures 0.0 <= FadeIn(frame) <= 1.0
  {
    RampFacts(frame as real, 0.0, 45.0, 0.0, 1.0);
  }

  /** The fade-in never darkens. */
  lemma FadeInMonotone(frame: nat, later: nat)
    requires frame <= later
    ensures FadeIn(frame) <= FadeIn(later)
  {
    RampMonotone(frame as real, later as real, 0.0, 45.0, 0.0, 1.0);
  }

  /** The fade-out is the fade-in played backwards 45 frames later: at every frame
      `f`, its opacity at `f + 45` is one minus the fade-in's at `f`. */
  lemma FadeOutMirrorsFadeIn(frame: nat)
    ensures FadeOut(frame + 45) == 1.0 - FadeIn(frame)
  {
    var f := frame as real;
    RampShift(f + 45.0, 45.0, 45.0, 90.0, 1.0, 0.0);
    assert f + 45.0 - 45.0 == f;
    RampComplement(f, 0.0, 45.0, 0.0, 1.0);
  }

  // ---------------------------------------------------------------- DipToBlack / DipToWhite

  /** The colour the dip passes through. */
  datatype Backdrop = Black | White

  /** The rendered state of a dip: the backdrop, the one scene drawn over it and that
      scene's opacity. */
  datatype DipFrame = DipFrame(backdrop: Backdrop, scene: Scene, opacity: real)

  /** The dip's two ramps: A out over frames 30 to 45, B in over 45 to 60. */
  function DipOpacities(frame: nat): Blend {
    var f := frame as real;
    Blend(Ramp(f, 30.0, 45.0, 1.0, 0.0), Ramp(f, 45.0, 60.0, 0.0, 1.0))
  }

  /** A dip to `backdrop`: Scene A up to frame 45, Scene B after it. */
  function Dip(frame: nat, backdrop: Backdrop): DipFrame {
    var b := DipOpacities(frame);
    if frame <= 45 then DipFrame(backdrop, SceneA, b.opacityA) else DipFrame(backdrop, SceneB, b.opacityB)
  }

  /** `DipToBlack`. */
  function DipToBlack(frame: nat): DipFrame {
    Dip(frame, Black)
  }

  /** `DipToWhite`: the same timing over a white backdrop. */
  function DipToWhite(frame: nat): DipFrame {
    Dip(frame, White)
  }

  const DipTable: seq<Phase<Scene>> := [Phase(0, SceneA), Phase(46, SceneB)]

  /** The scene drawn is the table "A from 0, B from 46"; the layer that is not drawn is
      fully transparent on every frame, so swapping layers shows nothing. */
  lemma DipScenes(frame: nat)
    ensures WellFormed(DipTable)
    ensures DipToBlack(frame).scene == PhaseAt(DipTable, frame)
    ensures frame <= 45 ==> DipOpacities(frame).opacityB == 0.0
    ensures frame >= 45 ==> DipOpacities(frame).opacityA == 0.0
  {
    assert WellFormed(DipTable);
    if frame <= 45 {
      PhaseIndexIs(DipTable, frame, 0);
    } else {
      PhaseIndexIs(DipTable, frame, 1);
    }
    RampFacts(frame as real, 30.0, 45.0, 1.0, 0.0);
    RampFacts(frame as real, 45.0, 60.0, 0.0, 1.0);
  }

  /** The picture is fully dipped exactly at frame 45 and at no other frame; A is opaque
      up to frame 30 and B from frame 60. */
  lemma DipOpacity(frame: nat)
    ensures DipToBlack(frame).opacity == 0.0 <==> frame == 45
    ensures 0.0 <= DipToBlack(frame).opacity <= 1.0
    ensures frame <= 30 || frame >= 60 ==> DipToBlack(frame).opacity == 1.0
  {
    var f := frame as real;
    RampFacts(f, 30.0, 45.0, 1.0, 0.0);
    RampFacts(f, 45.0, 60.0, 0.0, 1.0);
    if 30 < frame < 45 {
      assert Line(f, 30.0, 45.0, 1.0, 0.0) == 1.0 - (f - 30.0) / 15.0;
      assert (f - 30.0) / 15.0 < 1.0;
    }
    if 45 < frame < 60 {
      assert Line(f, 45.0, 60.0, 0.0, 1.0) == (f - 45.0) / 15.0;
      assert (f - 45.0) / 15.0 > 0.0;
    }
  }

  /** Dipping to white runs on exactly the dip-to-black timing; only the backdrop
      differs. */
  lemma DipToWhiteTiming(frame: nat)
    ensures DipToWhite(frame).scene == DipToBlack(frame).scene
    ensures DipToWhite(frame).opacity == DipToBlack(frame).opacity
    ensures DipToWhite(frame).backdrop == White && DipToBlack(frame).backdrop == Black
  {
  }

  // ---------------------------------------------------------------- MatchCut

  /** The per-frame parameters of `MatchCut`: the dissolve, the two scene opacities,
      the background colour channels, the shared walk position and the two corner
      labels' opacities. */
  datatype MatchCutFrame = MatchCutFrame(
    dissolve: real,
    opacityA: real,
    opacityB: real,
    bgR: real,
    bgG: real,
    bgB: real,
    walkX: real,
    labelAOpacity: real,
    labelBOpacity: real)

  /** `MatchCut` at `frame`. */
  function MatchCut(frame: nat): MatchCutFrame {
    var f := frame as real;
    var dissolve := Ramp(f, 35.0, 55.0, 0.0, 1.0);
    MatchCutFrame(
      dissolve,
      1.0 - dissolve,
      dissolve,
      Lerp(dissolve, 42.0, 14.0),
      Lerp(dissolve, 26.0, 26.0),
      Lerp(dissolve, 14.0, 42.0),
      Ramp(f, 0.0, 90.0, 80.0, 1500.0),
      (1.0 - dissolve) * 0.5,
      dissolve * 0.5)
  }

  /** The dissolve runs over frames 35 to 55: the scene opacities stay in [0, 1] and sum
      to 1, and so the two labels always share a total opacity of 0.5. */
  lemma MatchCutDissolve(frame: nat)
    ensures var m := MatchCut(frame);
      && 0.0 <= m.opacityA <= 1.0 && 0.0 <= m.opacityB <= 1.0
      && m.opacityA + m.opacityB == 1.0
      && m.labelAOpacity + m.labelBOpacity == 0.5
      && (frame <= 35 ==> m.opacityA == 1.0)
      && (frame >= 55 ==> m.opacityB == 1.0)
  {
    RampFacts(frame as real, 35.0, 55.0, 0.0, 1.0);
  }

  /** The background swaps red and blue (0x2a and 0x0e) in step with the dissolve:
      green stays 0x1a, red and blue always sum to 0x38, and the colour is A's before
      frame 35 and B's from frame 55. */
  lemma MatchCutBackground(frame: nat)
    ensures var m := MatchCut(frame);
      && m.bgG == 26.0
      && m.bgR + m.bgB == 56.0
      && (frame <= 35 ==> m.bgR == 42.0 && m.bgB == 14.0)
      && (frame >= 55 ==> m.bgR == 14.0 && m.bgB == 42.0)
  {
    var d := MatchCut(frame).dissolve;
    RampFacts(frame as real, 35.0, 55.0, 0.0, 1.0);
    LerpIsLine(d, 42.0, 14.0);
    LerpIsLine(d, 26.0, 26.0);
    LerpIsLine(d, 14.0, 42.0);
  }

  /** The walk is one continuous motion across the cut: from x = 80 to x = 1500 over the
      90 frames, never stepping back. */
  lemma MatchCutWalk(frame: nat, later: nat)
    requires frame <= later
    ensures 80.0 <= MatchCut(frame).walkX <= 1500.0
    ensures MatchCut(frame).walkX <= MatchCut(later).walkX
    ensures MatchCut(0).walkX == 80.0 && MatchCut(90).walkX == 1500.0
  {
    RampFacts(frame as real, 0.0, 90.0, 80.0, 1500.0);
    RampFacts(0.0, 0.0, 90.0, 80.0, 1500.0);
    RampFacts(90.0, 0.0, 90.0, 80.0, 1500.0);
    RampMonotone(frame as real, later as real, 0.0, 90.0, 80.0, 1500.0);
  }

  // ---------------------------------------------------------------- LCut / JCut

  /** The per-frame parameters of an audio-led cut: the picture's blend, the two
      waveform panels' opacities, and the two tracks' volumes. Track B lives in a
      sequence that starts at frame 150, so it only plays from then on. */
  datatype AudioCutFrame = AudioCutFrame(
    video: Blend,
    waveform: Blend,
    volumeA: real,
    trackBPlaying: bool,
    volumeB: real)

  /** Track B's volume: `audioBVolume` times a fade-in over the first 30 frames of its
      sequence; 0 before the sequence starts. */
  function TrackBVolume(frame: nat, audioBVolume: real): real {
    if frame >= 150 then audioBVolume * Ramp(frame as real - 150.0, 0.0, 30.0, 0.0, 1.0) else 0.0
  }

  /** `LCut`: the picture cuts around frame 90 while A's sound runs on until 150. */
  function LCut(frame: nat, audioBVolume: real): AudioCutFrame {
    var f := frame as real;
    AudioCutFrame(
      Blend(Ramp(f, 75.0, 90.0, 1.0, 0.0), Ramp(f, 90.0, 110.0, 0.0, 1.0)),
      Blend(Ramp(f, 90.0, 150.0, 1.0, 0.0), Ramp(f, 150.0, 180.0, 0.0, 1.0)),
      Ramp(f, 90.0, 150.0, 1.0, 0.0),
      frame >= 150,
      TrackBVolume(frame, audioBVolume))
  }

  /** `JCut`: B's sound comes in from frame 150, its picture only around frame 210. */
  function JCut(frame: nat, audioBVolume: real): AudioCutFrame {
    var f := frame as real;
    AudioCutFrame(
      Blend(Ramp(f, 195.0, 210.0, 1.0, 0.0), Ramp(f, 210.0, 225.0, 0.0, 1.0)),
      Blend(Ramp(f, 150.0, 180.0, 1.0, 0.0), Ramp(f, 150.0, 180.0, 0.0, 1.0)),
      Ramp(f, 150.0, 180.0, 1.0, 0.0),
      frame >= 150,
      TrackBVolume(frame, audioBVolume))
  }

  /** The default `audioBVolume`. */
  const DefaultAudioBVolume: real := 0.4

  /** A non-negative gain scaled by a factor in [0, 1] stays in [0, gain]. */
  lemma Attenuate(gain: real, r: real)
    requires gain >= 0.0 && 0.0 <= r <= 1.0
    ensures 0.0 <= gain * r <= gain
  {
    assert gain * (1.0 - r) >= 0.0;
  }

  /** Track B's volume stays between 0 and `audioBVolume` and reaches it 30 frames
      after the track starts. */
  lemma TrackBVolumeRange(frame: nat, audioBVolume: real)
    requires audioBVolume >= 0.0
    ensures 0.0 <= TrackBVolume(frame, audioBVolume) <= audioBVolume
    ensures frame >= 180 ==> TrackBVolume(frame, audioBVolume) == audioBVolume
  {
    if frame >= 150 {
      var r := Ramp(frame as real - 150.0, 0.0, 30.0, 0.0, 1.0);
      RampFacts(frame as real - 150.0, 0.0, 30.0, 0.0, 1.0);
      assert TrackBVolume(frame, audioBVolume) == audioBVolume * r;
      Attenuate(audioBVolume, r);
      if frame >= 180 {
        assert r == 1.0;
      }
    }
  }

  /** The L-cut: from frame 90 to 149 A's picture is gone but its sound still plays,
      and B's track does not start until A's has fallen silent. */
  lemma LCutSoundOutlastsPicture(frame: nat, audioBVolume: real)
    ensures 90 <= frame < 150 ==>
      LCut(frame, audioBVolume).video.opacityA == 0.0 && LCut(frame, audioBVolume).volumeA > 0.0
    ensures LCut(frame, audioBVolume).trackBPlaying ==> LCut(frame, audioBVolume).volumeA == 0.0
    ensures !LCut(frame, audioBVolume).trackBPlaying ==> LCut(frame, audioBVolume).volumeB == 0.0
  {
    var f := frame as real;
    RampFacts(f, 75.0, 90.0, 1.0, 0.0);
    RampFacts(f, 90.0, 150.0, 1.0, 0.0);
    if 90 <= frame < 150 {
      assert Line(f, 90.0, 150.0, 1.0, 0.0) == 1.0 - (f - 90.0) / 60.0;
      assert (f - 90.0) / 60.0 < 1.0;
    }
  }

  /** Track B's `Sequence` starts at frame 150: its volume ramp, counted from the
      sequence's start, is the composition-frame ramp over frames 150 to 180. */
  lemma TrackBRamp(frame: nat, audioBVolume: real)
    requires frame >= 150
    ensures TrackBVolume(frame, audioBVolume) == audioBVolume * Ramp(frame as real, 150.0, 180.0, 0.0, 1.0)
  {
    RampShift(frame as real, 150.0, 150.0, 180.0, 0.0, 1.0);
    assert 150.0 - 150.0 == 0.0 && 180.0 - 150.0 == 30.0;
  }

  /** The J-cut: from frame 151 to 210 B's sound already plays while its picture is not
      yet visible. */
  lemma JCutSoundLeadsPicture(frame: nat, audioBVolume: real)
    ensures 150 < frame <= 210 && audioBVolume > 0.0 ==>
      JCut(frame, audioBVolume).volumeB > 0.0 && JCut(frame, audioBVolume).video.opacityB == 0.0
  {
    if 150 < frame <= 210 && audioBVolume > 0.0 {
      var f := frame as real;
      RampFacts(f, 210.0, 225.0, 0.0, 1.0);
      TrackBRamp(frame, audioBVolume);
      var r := Ramp(f, 150.0, 180.0, 0.0, 1.0);
      RampFacts(f, 150.0, 180.0, 0.0, 1.0);
      if frame < 180 {
        assert Line(f, 150.0, 180.0, 0.0, 1.0) == (f - 150.0) / 30.0;
        assert (f - 150.0) / 30.0 > 0.0;
      }
      assert r > 0.0;
      assert audioBVolume * r > 0.0;
    }
  }

  /** From frame 150 on the two tracks cross-fade: B's volume is `audioBVolume` times
      what A's has lost. */
  lemma JCutCrossFade(frame: nat, audioBVolume: real)
    ensures frame >= 150 ==>
      JCut(frame, audioBVolume).volumeB == audioBVolume * (1.0 - JCut(frame, audioBVolume).volumeA)
  {
    if frame >= 150 {
      TrackBRamp(frame, audioBVolume);
      RampComplement(frame as real, 150.0, 180.0, 1.0, 0.0);
    }
  }

  /** The thirty waveform bar heights of an audio-led cut: the first thirty draws of
      `createRng(seed)`, fixed for the whole clip (42 for `LCut`, 99 for `JCut`). The
      first fifteen belong to track A's panel, the last fifteen to track B's. */
  function WaveformBars(seed: int): (bars: seq<real>)
    ensures |bars| == 30
    ensures forall k :: 0 <= k < 30 ==> 0.0 <= bars[k] < 1.0
  {
    DrawsInUnitInterval(seed, 30);
    Draws(CreateRng(seed), 30)
  }

  /** A bar's drawn height: `interpolate(sine, [-1, 1], [12, 90 * h + 20])` with the
      default extrapolation, where `sine` is the bar's oscillator value. */
  function BarHeight(sine: real, h: real): real {
    AdjacentIncreasing([-1.0, 1.0]);
    Interpolate(sine, [-1.0, 1.0], [12.0, 90.0 * h + 20.0], Extended, Linear)
  }

  /** While the oscillator stays in [-1, 1], a bar of height draw `h` in [0, 1) is at
      least 12 and at most `90 * h + 20`, below 110 pixels. */
  lemma BarHeightRange(sine: real, h: real)
    requires -1.0 <= sine <= 1.0 && 0.0 <= h < 1.0
    ensures 12.0 <= BarHeight(sine, h) <= 90.0 * h + 20.0 < 110.0
  {
    AdjacentIncreasing([-1.0, 1.0]);
    Between(sine, [-1.0, 1.0], [12.0, 90.0 * h + 20.0], Extended, 0);
    var t := (sine - -1.0) / (1.0 - -1.0);
    Ratio(sine - -1.0, 1.0 - -1.0);
    UnitBlend(t, 12.0, 90.0 * h + 20.0);
    assert Line(sine, -1.0, 1.0, 12.0, 90.0 * h + 20.0) == t * (90.0 * h + 20.0 - 12.0) + 12.0;
  }
}
