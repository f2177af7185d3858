/**
 * The platform audio element (`HTMLAudioElement`) as the views drive it: a source URL,
 * a paused flag and a playback position. Decoding and output are not modelled; the
 * outcome of `play()` is supplied by the caller.
 */
module Media {

  /** How a `play()` call ends. */
  datatype PlayOutcome =
    | Resolved   // the returned promise resolves
    | Rejected   // the returned promise rejects (autoplay refused, source unreachable)
    | Threw      // `play()` throws synchronously
    | NoPromise  // an old platform whose `play()` returns undefined

  class AudioElement {
    var src: string
    var paused: bool
    var currentTime: real

    constructor ()
      ensures src == "" && paused && currentTime == 0.0
    {
      src, paused, currentTime := "", true, 0.0;
    }

    /** `load()`: playback restarts from position 0 in the paused state. */
    method Load()
      modifies this
      ensures src == old(src) && paused && currentTime == 0.0
    {
      paused, currentTime := true, 0.0;
    }

    /** `play()`: the element leaves the paused state only when playback starts. */
    method Play(outcome: PlayOutcome)
      modifies this
      ensures src == old(src) && currentTime == old(currentTime)
      ensures paused == (old(paused) && outcome != Resolved)
    {
      if outcome == Resolved {
        paused := false;
      }
    }

    method Pause()
      modifies this
      ensures src == old(src) && currentTime == old(currentTime) && paused
    {
      paused := true;
    }
  }
}
