/** The transport helpers whose arguments the session computes itself: setVolume and setLooping. */
module Transport {

  /** The engine's repeat modes (Player.REPEAT_MODE_OFF, _ONE and _ALL). */
  datatype RepeatMode = RepeatOff | RepeatOne | RepeatAll

  /** Whether a repeat mode replays the media when it ends. */
  predicate Loops(mode: RepeatMode)
  {
    mode != RepeatOff
  }

  /** setLooping: looping repeats everything, otherwise repetition is off; single-item repeat is never chosen. */
  function RepeatModeFor(looping: bool): (mode: RepeatMode)
    ensures Loops(mode) == looping
    ensures mode != RepeatOne
  {
    if looping then RepeatAll else RepeatOff
  }

  function Min(a: real, b: real): real { if a <= b then a else b }
  function Max(a: real, b: real): real { if a >= b then a else b }

  /** setVolume: the value handed to the engine is max(0, min(1, v)). */
  function ClampVolume(v: real): (r: real)
    ensures 0.0 <= r <= 1.0
    ensures 0.0 <= v <= 1.0 ==> r == v
    ensures v < 0.0 ==> r == 0.0
    ensures v > 1.0 ==> r == 1.0
  {
    Max(0.0, Min(1.0, v))
  }

  /** Clamping twice is clamping once, and clamping never reverses the order of two volumes. */
  lemma ClampIdempotentMonotone(v: real, w: real)
    ensures ClampVolume(ClampVolume(v)) == ClampVolume(v)
    ensures v <= w ==> ClampVolume(v) <= ClampVolume(w)
  {
  }
}
