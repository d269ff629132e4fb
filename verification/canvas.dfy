/** Composition-wide constants and the two interchangeable content units that every
    transition switches between. */
module Canvas {

  /** Output width in pixels. */
  const Width: real := 1920.0

  /** Output height in pixels. */
  const Height: real := 1080.0

  /** Frames per second supplied by the host. */
  const Fps: nat := 30

  /** Default composition length in frames (three seconds). */
  const DefaultDuration: nat := 90

  /** The two canonical content units a transition moves between. */
  datatype Scene = SceneA | SceneB
}
