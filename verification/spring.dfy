/** Remotion's `spring`: a damped-oscillator curve from one value to another. Its
    numerics belong to the library and are not modelled; a transition receives the
    curve as a function of the frame offset and the configuration, so every property
    proved about a transition holds whatever values the curve takes. */
module Spring {

  /** `config: { damping, stiffness }`, or the library's defaults when no `config` is
      given. */
  datatype Physics = DefaultPhysics | Physics(damping: real, stiffness: real)

  /** The arguments of one `spring({ frame, fps, from, to, durationInFrames, config })`
      call other than the frame. The frame rate is the composition's and is the same
      for every call, so it is not carried. */
  datatype SpringConfig = SpringConfig(from: real, to: real, durationInFrames: nat, physics: Physics)

  /** A spring curve: the value at a non-negative frame offset for a configuration. */
  type SpringFn = (nat, SpringConfig) -> real

  /** `Math.max(0, frame - start)`: the offset into a spring that starts at `start`,
      held at 0 before it. */
  function Delayed(frame: nat, start: nat): nat {
    if frame < start then 0 else frame - start
  }

  /** A curve that starts at rest: at offset 0 it gives the configuration's `from`
      value. The only property of the curve any lemma relies on, and only where it
      names it. */
  predicate Rests(spring: SpringFn, config: SpringConfig) {
    spring(0, config) == config.from
  }
}
