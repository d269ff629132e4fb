# Transition showcase: a Dafny model of its deterministic core

The showcase is a Remotion project that renders 24 scene-to-scene transitions. Each is
a React component that reads the current frame number and draws Scene A, Scene B and
overlays. This project models the two parts of it that are plain computation:

- **The seeded generator and the particles** (`src/utils/noise.ts`).
  - `createRng` is mulberry32. Here a generator is a value (`Rng.Generator`), and one
    call of the source's closure is the pure step `Rng.Next`. The mixing works on
    `bv32`; the state word is an unsigned `int` below 2^32.
  - `generateParticles` takes six draws per particle.
  - Counter-based references (`Rng.StateAt`, `Rng.DrawAt`, `Particles.ParticleAt`)
    give the `k`-th draw and the `i`-th particle without replaying the stream. The
    lemmas connect the stream to these references.
- **The frame-to-parameter logic of all 24 transitions**
  (`src/categories/01-transitions.tsx`), with the JSX and styling stripped away.
  - Each transition is a function from the frame number to a record of the values the
    component computes: which scene is drawn, opacities, offsets, clip insets, blur,
    and the glitch's quantised displacements.
  - Frame thresholds are proved equal to lookups in phase tables (`Timeline`).

The modules:

- Library behaviour:
  - `Interpolation` holds Remotion's `interpolate`: clamped or extended piecewise-linear
    maps, the argument checks, and the two-point ramp, plateau and three-point shapes
    the transitions use.
  - `Spring` holds the spring configuration. The spring curve itself is a function
    parameter.
- The transitions:
  - `Cuts`: Cut, JumpCut, SmashCut, FreezeTocut.
  - `Dissolves`: CrossDissolve, FadeIn, FadeOut, DipToBlack, DipToWhite, MatchCut,
    LCut, JCut.
  - `Motion`: Wipe, SlideTransition, Push, Iris, ZoomTransition, WhipPan,
    SpinTransition, Morph.
  - `Glitch`: GlitchTransition.
  - `Light`: FilmBurn, LightLeak, LensFlareWipe.

Two details of the code that are easy to misread:

- `Math.round` rounds halves towards positive infinity, so -2.5 gives -2. It does not
  round halves away from zero. `Glitch.JsRound` is `floor(y + 1/2)`.
- The dip transitions draw Scene A on frame 45 itself (`frame <= 45`), so their scene
  table switches at 46. `Cut` and the other hard switches use `frame >= 45`.

## Model

| member | source | states |
|---|---|---|
| Rng.Truncate | src/utils/noise.ts:3 | `seed \| 0` keeps the seed's residue modulo 2^32: the state word differs from the seed by a multiple of 2^32 |
| Rng.Next | src/utils/noise.ts:4-9 | one call advances the state by 0x6d2b79f5 modulo 2^32 and returns a draw in [0, 1) mixed from the advanced state |
| Rng.ToUnit | src/utils/noise.ts:8 | the unsigned numerator over 2^32 is in [0, 1) and times 2^32 gives the numerator back |
| Rng.DrawFrom | src/utils/noise.ts:6-8 | every mixed draw lies in [0, 1) |
| Rng.Outputs | src/utils/noise.ts:4-9 | n successive calls produce exactly n values |
| Rng.Draws | src/utils/noise.ts:4-9 | asking for n draws yields exactly n draws |
| Rng.DrawAt | src/utils/noise.ts:5-8 | the counter-based k-th draw lies in [0, 1) |
| Rng.NextAt | src/utils/noise.ts:5 | a call on state `seed + k·0x6d2b79f5` yields draw k and moves to state `seed + (k+1)·0x6d2b79f5` |
| Rng.SkipClosedForm | src/utils/noise.ts:5 | after n calls the state is `seed + n·0x6d2b79f5` modulo 2^32, whatever was drawn in between |
| Rng.CreateRngAt | src/utils/noise.ts:3 | a fresh generator holds the truncated seed, the state after zero calls |
| Rng.OutputsAt | src/utils/noise.ts:4-9 | the i-th call made from state k returns the mix of state k + i + 1 |
| Rng.OutputsFromSeed | src/utils/noise.ts:2-9 | the k-th value of a fresh generator is the mix of state k + 1 |
| Rng.DrawsRandomAccess | src/utils/noise.ts:2-9 | the k-th draw of `createRng(seed)` equals the counter-based `DrawAt(seed, k)`: it depends only on the seed and k |
| Rng.DrawsInUnitInterval | src/utils/noise.ts:8 | every draw of every generator lies in [0, 1) |
| Rng.OutputsSplit | src/utils/noise.ts:4-9 | a + b calls are a calls followed by b calls from where the first a left the generator |
| Rng.OutputsPrefix | src/utils/noise.ts:4-9 | the first n of m values are the values of n calls |
| Rng.DrawsPrefix | src/utils/noise.ts:2-9 | determinism: drawing more never changes the earlier draws |
| Rng.SeedCongruence | src/utils/noise.ts:3 | two seeds build the same generator if and only if they are congruent modulo 2^32 |
| Rng.StateAtSeedCongruence | src/utils/noise.ts:3-5 | congruent seeds pass through the same state words |
| Rng.DrawAtSeedCongruence | src/utils/noise.ts:3-8 | congruent seeds give the same k-th draw |
| Rng.StatesDistinct | src/utils/noise.ts:5 | the odd increment means distinct call counts below 2^32 reach distinct states |
| Rng.FirstDrawOfSeedZero | src/utils/noise.ts:2-9 | known answer: the first draw of `createRng(0)` has numerator 0x4434b462 |
| Particles.ScaledDraw | src/utils/noise.ts:29-30 | a draw times a positive extent lies in [0, extent) |
| Particles.MakeParticleInRange | src/utils/noise.ts:29-34 | six draws in [0, 1) give x in [0, width), y in [0, height), size in [2, 8), speed in [0.5, 2.5), angle below one turn, opacity in [0.3, 1) |
| Particles.ParticleAtInRange | src/utils/noise.ts:27-34 | every particle of every seed has its fields in those ranges |
| Particles.ParticlesFromDraws | src/utils/noise.ts:28-35 | n particles, particle j built from draws 6j to 6j + 5 in the order x, y, size, speed, angle, opacity |
| Particles.GenerateParticles | src/utils/noise.ts:21-36 | a RangeError exactly when `count` exceeds 2^32 - 1, the longest array `Array.from` can build; otherwise exactly `count` particles (none if negative), particle i equal to the counter-based reference for (seed, i) |
| Particles.ParticleDrawOrder | src/utils/noise.ts:29-34 | the reference particle i is built from draws 6i to 6i + 5 of the seed's stream, in source order |
| Particles.ParticleSeedCongruence | src/utils/noise.ts:3 | seeds congruent modulo 2^32 give equal particles |
| Timeline.IndexFrom | src/categories/01-transitions.tsx:28-29 | the scan finds the last phase started by the frame: its start is at most the frame and the next start exceeds it |
| Timeline.PhaseIndex | src/categories/01-transitions.tsx:28-29 | the phase of a frame has started and the next one has not |
| Timeline.PhaseIndexIs | src/categories/01-transitions.tsx:28-29 | a frame lies in phase k if and only if phase k has started and phase k + 1 has not |
| Timeline.PhaseMonotone | src/categories/01-transitions.tsx:1067-1068 | a later frame is never in an earlier phase |
| Timeline.StartsOrdered | src/categories/01-transitions.tsx:28-29 | in a well-formed table an earlier start belongs to an earlier phase |
| Interpolation.FirstDescent | src/categories/01-transitions.tsx:1197 | the scan of the input range stops at the first breakpoint not above its predecessor, all before it increasing |
| Interpolation.AdjacentIncreasing | src/categories/01-transitions.tsx:1197 | breakpoints increasing pairwise next to each other are increasing across every pair |
| Interpolation.Check | src/categories/01-transitions.tsx:1197 | the argument checks report no error exactly on valid ranges (equal lengths, at least two points, strictly increasing) |
| Interpolation.CheckedInterpolate | src/categories/01-transitions.tsx:1197 | `interpolate` yields a value exactly on valid ranges and otherwise throws the first failing check's error |
| Interpolation.FindFrom | src/categories/01-transitions.tsx:1197 | the scan continued from breakpoint i passes only breakpoints below x and stops at the first segment whose right end is at least x, or at the last segment |
| Interpolation.FindRange | src/categories/01-transitions.tsx:1197 | x's segment is a valid segment index, every breakpoint before it lies below x, and x does not exceed its right end unless it is the last segment |
| Interpolation.FindRangeIs | src/categories/01-transitions.tsx:1197 | the segment found is the one between whose breakpoints x lies |
| Interpolation.AtBreakpoint | src/categories/01-transitions.tsx:1197 | with an easing fixing 0 and 1, the value at breakpoint k is output k, whatever the extrapolation |
| Interpolation.Continuous | src/categories/01-transitions.tsx:808 | both segments meeting at an interior breakpoint give it the same value |
| Interpolation.Between | src/categories/01-transitions.tsx:563-564 | inside a segment the linear map is the straight line through its two breakpoints |
| Interpolation.ClampBelow | src/categories/01-transitions.tsx:563 | clamped on the left, every input at or below the first breakpoint gives the first output |
| Interpolation.ClampAbove | src/categories/01-transitions.tsx:563 | clamped on the right, every input at or above the last breakpoint gives the last output |
| Interpolation.ExtendBelow | src/categories/01-transitions.tsx:688 | with the default extrapolation the first segment's line continues below the first breakpoint |
| Interpolation.ExtendAbove | src/categories/01-transitions.tsx:688 | the last segment's line continues above the last breakpoint |
| Interpolation.ConstantOutputs | src/categories/01-transitions.tsx:883 | equal outputs give that constant for every input, easing and extrapolation |
| Interpolation.ClampedWithin | src/categories/01-transitions.tsx:934-936 | a clamped linear map stays between the outputs of the segment it uses |
| Interpolation.Progress | src/categories/01-transitions.tsx:563 | the clamped progress through a window lies in [0, 1] |
| Interpolation.RampClosedForm | src/categories/01-transitions.tsx:563 | a clamped two-point ramp is p moved towards q by the clamped progress |
| Interpolation.RampFacts | src/categories/01-transitions.tsx:563-564 | a ramp is p up to a, q from b, between p and q everywhere, the line from (a, p) to (b, q) inside |
| Interpolation.RampComplement | src/categories/01-transitions.tsx:563-564 | ramps over one window with swapped ends sum to p + q |
| Interpolation.ProgressMonotone | src/categories/01-transitions.tsx:645 | the clamped progress never decreases |
| Interpolation.RampMonotone | src/categories/01-transitions.tsx:645 | a ramp towards a larger value never decreases, towards a smaller one never increases |
| Interpolation.RampShift | src/categories/01-transitions.tsx:579 | shifting input and window together leaves a ramp unchanged |
| Interpolation.LerpIsLine | src/categories/01-transitions.tsx:688-689 | `interpolate(t, [0, 1], [p, q])` with default extrapolation is `p + t·(q - p)` for every t, overshoot included |
| Interpolation.PlateauIsMin | src/categories/01-transitions.tsx:1197 | the four-point envelope 0, peak, peak, 0 is the smaller of its rising and its falling ramp |
| Interpolation.PlateauFacts | src/categories/01-transitions.tsx:1197 | the envelope is 0 outside its window, positive inside it, at its peak on the middle segment, never above the peak |
| Cuts.CutPhases | src/categories/01-transitions.tsx:13-20 | Cut shows Scene B exactly from frame 45 on: it is the table "A from 0, B from 45" |
| Cuts.JumpCut | src/categories/01-transitions.tsx:28-33 | the segment indexes both base-position arrays in bounds on every frame |
| Cuts.JumpCutSegments | src/categories/01-transitions.tsx:28-29 | within the 90 frames the segment is frame div 30 and the local frame frame mod 30 |
| Cuts.JumpCutPhases | src/categories/01-transitions.tsx:28-29 | the segment is the table lookup "0 from 0, 1 from 30, 2 from 60" and the local frame counts from its start |
| Cuts.JumpCutLabel | src/categories/01-transitions.tsx:40 | the "JUMP CUT" label shows exactly on the first six frames of segments 1 and 2 |
| Cuts.JumpCutMirror | src/categories/01-transitions.tsx:32-37 | the two characters are mirror images about x = 800: their positions sum to 1600 |
| Cuts.ShakeWindowValid | src/categories/01-transitions.tsx:227 | the shake's breakpoints are a valid `interpolate` range |
| Cuts.Jitter | src/categories/01-transitions.tsx:230-231 | `(d - 0.5)·2·intensity` lies within ±intensity for a draw in [0, 1) |
| Cuts.JitterBound | src/categories/01-transitions.tsx:230-231 | the same bound on the centred, scaled draw |
| Cuts.SmashCutScene | src/categories/01-transitions.tsx:212 | SmashCut switches scenes on exactly Cut's frame |
| Cuts.SmashFlashPhases | src/categories/01-transitions.tsx:239-242 | the flash is the table 0, 1 at 45, 0.65 at 46, 0.3 at 47, 0 from 48; positive exactly on frames 45 to 47 |
| Cuts.SmashCutBefore | src/categories/01-transitions.tsx:220-236 | before frame 45 the shake and its offsets are 0, the scale 1, the aberration 0 |
| Cuts.SmashCutDecay | src/categories/01-transitions.tsx:226-236 | the shake is 28 at the cut, within [4, 28] after it, 4 from frame 89; the aberration within [4, 20] |
| Cuts.SmashCutShake | src/categories/01-transitions.tsx:226-231 | both shake offsets stay within ±shakeIntensity |
| Cuts.SmashRay | src/categories/01-transitions.tsx:293-297 | every speed line has length in [700, 1300), thickness in [4, 11), opacity in [0.35, 0.8) |
| Cuts.SmashRays | src/categories/01-transitions.tsx:245-297 | there are 16 speed lines, line i built from `createRng(i·31 + 7)` alone |
| Cuts.SmashRayAngles | src/categories/01-transitions.tsx:294 | the lines are 22.5 degrees apart, every angle in [0, 360) |
| Cuts.FreezePhases | src/categories/01-transitions.tsx:1067-1068 | freeze and B flags are the Frozen and AfterCut phases of "walk from 0, freeze from 30, B from 55", never both |
| Cuts.FreezeAkane | src/categories/01-transitions.tsx:1072-1073 | Akane moves 10 pixels left per frame until 30, then stays at 800; always within [800, 1100] |
| Cuts.FreezeDesaturation | src/categories/01-transitions.tsx:1076-1078 | desaturation is within [0, 100], 0 outside the freeze, 100 from frame 40 until the cut |
| Cuts.FreezeLabels | src/categories/01-transitions.tsx:1146-1159 | exactly one corner label is drawn at 0.5; B's exactly from the cut |
| Cuts.FreezeAoi | src/categories/01-transitions.tsx:1089-1090 | Aoi is at x = 100 on frame 55 and moves 12 pixels right per frame |
| Dissolves.CrossDissolveBlend | src/categories/01-transitions.tsx:563-564 | opacities sum to 1 and lie in [0, 1]; A is 1 up to 30, B is 1 from 60, both 0.5 at 45 |
| Dissolves.CrossDissolveMonotone | src/categories/01-transitions.tsx:563-564 | A only fades and B only grows |
| Dissolves.FadeInRange | src/categories/01-transitions.tsx:579 | black at frame 0, opaque from 45, within [0, 1] |
| Dissolves.FadeInMonotone | src/categories/01-transitions.tsx:579 | the fade-in never darkens |
| Dissolves.FadeOutMirrorsFadeIn | src/categories/01-transitions.tsx:579-593 | the fade-out 45 frames later is one minus the fade-in |
| Dissolves.DipScenes | src/categories/01-transitions.tsx:607-616 | A is drawn up to frame 45 and B after (table "A from 0, B from 46"); the undrawn layer is transparent |
| Dissolves.DipOpacity | src/categories/01-transitions.tsx:607-616 | the drawn opacity is 0 exactly at frame 45, within [0, 1], 1 up to 30 and from 60 |
| Dissolves.DipToWhiteTiming | src/categories/01-transitions.tsx:626-631 | dip to white has dip to black's scene and opacity on every frame; only the backdrop differs |
| Dissolves.MatchCutDissolve | src/categories/01-transitions.tsx:112-117 | opacities within [0, 1] summing to 1, A whole up to 35, B from 55; the two labels share 0.5 |
| Dissolves.MatchCutBackground | src/categories/01-transitions.tsx:120-122 | the green channel stays 26 and red plus blue stays 56; the colour swaps 42/14 to 14/42 across the dissolve |
| Dissolves.MatchCutWalk | src/categories/01-transitions.tsx:125-128 | the walk stays within [80, 1500], is 80 at frame 0 and 1500 at frame 90, and never goes backwards |
| Dissolves.TrackBVolumeRange | src/categories/01-transitions.tsx:383-386 | track B's volume stays in [0, audioBVolume] and reaches it from frame 180 |
| Dissolves.LCutSoundOutlastsPicture | src/categories/01-transitions.tsx:364-386 | from frame 90 to 150 A's picture is gone while A's sound plays; A is silent once B plays, B silent before 150 |
| Dissolves.TrackBRamp | src/categories/01-transitions.tsx:483-486 | track B's volume, counted from its sequence's start at frame 150, is audioBVolume times the ramp over frames 150 to 180 |
| Dissolves.JCutSoundLeadsPicture | src/categories/01-transitions.tsx:464-487 | from frame 151 to 210 B is heard but not yet seen |
| Dissolves.JCutCrossFade | src/categories/01-transitions.tsx:477-487 | from frame 150 on, B's volume is audioBVolume·(1 − A's volume) |
| Dissolves.WaveformBars | src/categories/01-transitions.tsx:371-372 | 30 bar heights, each in [0, 1) |
| Dissolves.BarHeightRange | src/categories/01-transitions.tsx:413-417 | a bar is at least 12 and at most `90h + 20` (below 110) while the oscillator is in [-1, 1] |
| Motion.WipeCoverage | src/categories/01-transitions.tsx:645-661 | the clip inset is within [0, 100], 100 up to 25, 0 from 65, 50 at 45; the divider sits on the clip's edge |
| Motion.WipeMonotone | src/categories/01-transitions.tsx:645 | the uncovered part of B never shrinks |
| Motion.SlideTogether | src/categories/01-transitions.tsx:688-689 | for any spring value, A is moved by progress·HEIGHT and B sits exactly HEIGHT above A |
| Motion.SlideHeld | src/categories/01-transitions.tsx:679-689 | nothing moves before frame 25; with a spring at rest A is in place and B one screen up |
| Motion.PushTogether | src/categories/01-transitions.tsx:714-719 | for any spring value, B's offset is A's plus WIDTH, A's being −progress·WIDTH |
| Motion.PushHeld | src/categories/01-transitions.tsx:705-719 | with a spring at rest, up to frame 25 A is in place and B one screen right |
| Motion.IrisRadius | src/categories/01-transitions.tsx:731-758 | A is drawn before frame 80; the radius opens then closes by the springs; B is drawn exactly when the radius exceeds 0.5 |
| Motion.IrisAtRest | src/categories/01-transitions.tsx:731-758 | with springs at rest the iris is shut up to frame 15 and fully open (75) at frame 80 |
| Motion.ZoomThrough | src/categories/01-transitions.tsx:775-781 | A scales within [1, 30] and fades by frame 40, and is transparent at full scale when removed at 45 |
| Motion.ZoomMonotone | src/categories/01-transitions.tsx:775-776 | A's scale never shrinks and its opacity never grows |
| Motion.WhipBlurGuardRedundant | src/categories/01-transitions.tsx:807-809 | the frame guard around the blur changes nothing: the clamped envelope is already 0 outside it |
| Motion.WhipBlurEnvelope | src/categories/01-transitions.tsx:807-809 | the blur is within [0, 30], 30 on frames 36 to 38, positive exactly inside (30, 46) |
| Motion.WhipPanEnds | src/categories/01-transitions.tsx:794-825 | A holds until 30 and is 1.5 screens off from 38; B is 1.5 screens off until 36 and in place from 46; B's blur is half A's |
| Motion.SpinTurns | src/categories/01-transitions.tsx:838-853 | A makes one turn over 25 to 31 and is transparent when removed at 32; B turns from −360 to upright over 30 to 34 |
| Motion.MorphInvariants | src/categories/01-transitions.tsx:882-921 | for any spring value the size stays 400 and the blue channel 96; the caption is "Circle" exactly below half way |
| Motion.MorphEnds | src/categories/01-transitions.tsx:882-891 | at progress 0 the shape is a circle (radius half the size) at 0 degrees; at 1 a rounded square turned 90 degrees |
| Motion.MorphAtRest | src/categories/01-transitions.tsx:873-921 | with a spring at rest the shape is a circle up to frame 15 |
| Glitch.JsRound | src/categories/01-transitions.tsx:949 | `Math.round` lies within half a unit of its argument, halves rounding up |
| Glitch.RoundWithin | src/categories/01-transitions.tsx:949 | a value within m + 1/2 of 0 rounds to at most m either side |
| Glitch.JoltSteps | src/categories/01-transitions.tsx:949 | the rounded step count is 0 at zero intensity |
| Glitch.Jolt | src/categories/01-transitions.tsx:949-960 | every displacement is a whole number of its steps, and 0 at zero intensity |
| Glitch.RawIntensity | src/categories/01-transitions.tsx:933-936 | the raw intensity lies in [0, 1] |
| Glitch.EnvelopeRange | src/categories/01-transitions.tsx:935 | the envelope's range is valid and its values lie in [0, 1] |
| Glitch.Quantize | src/categories/01-transitions.tsx:938 | the quantised value is the largest multiple of 1/4 not above the raw value, in [0, 1] for raw in [0, 1] |
| Glitch.QuantizeFixes | src/categories/01-transitions.tsx:938 | quantising fixes exactly the quarters, so it is idempotent |
| Glitch.Intensity | src/categories/01-transitions.tsx:942 | the intensity lies in [0, 1] and is 0 outside frames 32 to 58 |
| Glitch.DrawsOf | src/categories/01-transitions.tsx:940-980 | the draws a frame takes from its frame-seeded generators all lie in [0, 1) |
| Glitch.SliceDrawsOf | src/categories/01-transitions.tsx:965-966 | a slice's four draws lie in [0, 1) |
| Glitch.MakeSliceWithin | src/categories/01-transitions.tsx:964-973 | a slice lies inside the picture, 2 to 10 percent tall, opacity in [0.4, 0.8), offset at most 300 in 30-pixel steps |
| Glitch.Flicker | src/categories/01-transitions.tsx:979-982 | the flash opacity is below 0.4 and positive only inside the window on a test draw above 0.7 |
| Glitch.FlickerBound | src/categories/01-transitions.tsx:981 | the flash level times 0.4 times the intensity lies in [0, 0.4) |
| Glitch.GlitchIntensity | src/categories/01-transitions.tsx:934-942 | the quantised envelope is a quarter in [0, 1]; the intensity lies between it and it plus the spike, capped at 1 |
| Glitch.GlitchPeak | src/categories/01-transitions.tsx:934-944 | at frame 45, B's first frame, the intensity is 1; the envelope is 0 at 32 and 58 |
| Glitch.GlitchQuiet | src/categories/01-transitions.tsx:933-982 | outside frames 32 to 58 the intensity, every offset, the colour split and the flash are 0 |
| Glitch.ImageJolts | src/categories/01-transitions.tsx:949-950 | the picture moves at most 400 across and 80 down |
| Glitch.TextJolts | src/categories/01-transitions.tsx:955-956 | the text moves at most 500 across and 60 down |
| Glitch.BackgroundJolt | src/categories/01-transitions.tsx:960 | the background moves at most 90, three 30-pixel steps |
| Glitch.GlitchOffsets | src/categories/01-transitions.tsx:947-960 | offsets are multiples of 50, 20, 50, 20 and 30, within 400, 80, 500, 60 and 90 |
| Glitch.GlitchSlices | src/categories/01-transitions.tsx:963-973 | there are 8 slices and each stays within the slice bounds |
| Glitch.GlitchOverlays | src/categories/01-transitions.tsx:976-982 | the colour split is within [0, 80], 80 at full intensity; the flash stays below 0.4 and fires only in the window |
| Glitch.GlitchAtWithin | src/categories/01-transitions.tsx:929-982 | the frame rendered from its own seeded draws meets all the bounds above |
| Light.HumpIsRamps | src/categories/01-transitions.tsx:1245 | a three-point clamped curve is its first ramp up to the middle breakpoint and its second from there |
| Light.FilmBurnCoversCut | src/categories/01-transitions.tsx:1195-1226 | the burn is 0.9 over frames 42 to 48 and visible exactly inside (30, 60); the highlight is 0.7 of it |
| Light.FilmBurnSweep | src/categories/01-transitions.tsx:1196-1222 | the band starts left of the picture, is on its left edge at the cut, ends right of it; the highlight lies inside the band |
| Light.FilmBurnMonotone | src/categories/01-transitions.tsx:1196 | the burn only sweeps rightwards |
| Light.LightLeakPeak | src/categories/01-transitions.tsx:1241-1248 | over 42 to 48 the leak is 1 and the wash 0.9; the leak shows exactly in (25, 65), the wash in (35, 58) |
| Light.LightLeakCoverWithinLeak | src/categories/01-transitions.tsx:1242-1248 | the full-screen wash is at most 0.9 of the leak's opacity on every frame |
| Light.LightLeakMirror | src/categories/01-transitions.tsx:1243-1291 | the secondary leak is the main one mirrored through the centre, at 0.7 of its opacity; both stay 20% from the edges |
| Light.LightLeakScale | src/categories/01-transitions.tsx:1245 | the leak's scale is within [0.8, 2], 2 at the cut, 0.8 before 25, 1.2 from 65 |
| Light.LensFlareReveal | src/categories/01-transitions.tsx:1305-1323 | the revealed part is within [0, 100], equals the flare position while the flare is on screen, 0 exactly up to 24, 100 exactly from 66, 50 at 45 |
| Light.LensFlareMonotone | src/categories/01-transitions.tsx:1305-1311 | the revealed part of B never shrinks |
| Light.LensFlareFlash | src/categories/01-transitions.tsx:1306-1380 | the flash is 0.75 over 43 to 47 and shows exactly in (30, 60); the flare is 1 over 35 to 55 and largest at 45 |

## Left out

- JSX, CSS strings, images, fonts, audio files and `Sequence` plumbing. Each
  transition returns the numbers the component computes, not the picture.
  `src/utils/commonScenes.tsx`, `src/utils/label.tsx`, `src/utils/font.ts`,
  `src/utils/schema.ts` and `src/Root.tsx` are not part of this model.
- Remotion's `interpolate` source is not part of this model. It is modelled from its
  documented behaviour: the argument checks, the segment scan, easing of the
  normalised position, and clamp or extend on each side. The `identity` and `wrap`
  extrapolations are not used by the transitions and are left out. The source cells
  of the `Interpolation` rows cite call sites.
- `spring` and `Easing`: their numerics belong to the library. A transition takes the
  spring curve (`Spring.SpringFn`) and the easings as parameters. Lemmas hold for
  every curve, except where they assume `Spring.Rests` (the curve starts at its
  `from` value) or `Interpolation.FixesEnds` (an easing maps 0 to 0 and 1 to 1). No
  convergence or overshoot property is claimed.
- Floating point: values are exact reals, so IEEE rounding of the source's products
  and divisions is not modelled. The generator's integer mixing is exact on `bv32`.
  Its one double-precision addition, `t + Math.imul(...)`, is exact in the source and
  is truncated by the following xor.
- Particles.GenerateParticles: the count is an integer. `Array.from` truncates a
  fractional count and reads `NaN` as 0; neither case is modelled.
- Non-integer seeds and frames: frames are natural numbers and seeds integers. The
  source's `seed | 0` also truncates fractions, which is not modelled.
- `Math.sin` bobbing, the waveform's oscillator and the particle angle's `2·Math.PI`:
  - The bobbing offsets are dropped.
  - The waveform's sine is a parameter of `Dissolves.BarHeight`.
  - `Particles.Particle` keeps the angle as a fraction of a turn.
- The draws of SmashCut's shake and of the glitch are read through the counter-based
  `Rng.DrawAt` (draw 0 of each generator, and draw 1 where the source calls a
  generator twice). `Rng.DrawsRandomAccess` proves this equal to calling the source's
  generators in order.
- Iris, Morph, FreezeTocut text and SmashCut scale values are spring outputs and so are
  stated only relative to the spring curve.
