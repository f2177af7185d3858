/**
 * components/QuranPlayer.tsx: the thematic recitation list, where one segment at a time
 * plays through a single audio element. The active segment is an `Option`, so at most
 * one segment is ever active.
 */
module QuranPlayer {
  import opened Js
  import opened Types
  import opened Api
  import opened Media

  /** The recitation a segment of surah `surahId` plays: the default reciter's file for `parseInt(surahId)`. */
  function SegmentUrl(surahId: string): (url: string)
    ensures forall n: nat | n < 1000 && surahId == NatToString(n) ::
      url == GetAudioUrl(RECITERS[0], Int(n))
  {
    ParseIntOfNatToStringAll();
    GetAudioUrl(RECITERS[0], ParseInt(surahId))
  }

  lemma ParseIntOfNatToStringAll()
    ensures forall n: nat :: ParseInt(NatToString(n)) == Int(n)
  {
    forall n: nat
      ensures ParseInt(NatToString(n)) == Int(n)
    {
      ParseIntOfNatToString(n);
    }
  }

  /**
   * The segment active after a click on `segmentId` whose `play()` ends with `outcome`:
   * clicking the active segment stops it; any other click makes it active unless
   * `play()` fails.
   */
  function AfterClick(active: Option<string>, segmentId: string, outcome: PlayOutcome): (r: Option<string>)
    ensures active == Some(segmentId) ==> r.None?
    ensures active != Some(segmentId) ==> (r == Some(segmentId) <==> outcome.Resolved? || outcome.NoPromise?)
    ensures r.None? || r == Some(segmentId)
  {
    if active == Some(segmentId) then None
    else match outcome
      case Resolved | NoPromise => Some(segmentId)
      case Rejected | Threw => None
  }

  /** A second click on the segment a successful click started stops it again. */
  lemma ClickTwiceStops(active: Option<string>, segmentId: string, first: PlayOutcome, second: PlayOutcome)
    requires active != Some(segmentId) && first == Resolved
    ensures AfterClick(AfterClick(active, segmentId, first), segmentId, second).None?
  {
  }

  /** The component state: the active segment and the element `audioRef` points at (null before mount). */
  class Player {
    var activeSegment: Option<string>
    const audio: AudioElement?

    constructor (audio: AudioElement?)
      ensures activeSegment.None? && this.audio == audio
    {
      activeSegment := None;
      this.audio := audio;
    }

    /**
     * `handlePlay(surahId, segmentId)`. Without an element nothing happens. The active
     * segment is paused and cleared; any other segment's recitation is loaded and played.
     */
    method HandlePlay(surahId: string, segmentId: string, outcome: PlayOutcome)
      modifies this, audio
      ensures audio == null ==> activeSegment == old(activeSegment)
      ensures audio != null ==> activeSegment == AfterClick(old(activeSegment), segmentId, outcome)
      ensures audio != null && old(activeSegment) == Some(segmentId) ==>
        audio.paused && audio.src == old(audio.src)
      ensures audio != null && old(activeSegment) != Some(segmentId) ==>
        audio.src == SegmentUrl(surahId) && audio.currentTime == 0.0 && (audio.paused <==> outcome != Resolved)
    {
      if audio == null {
        return;
      }
      if activeSegment == Some(segmentId) {
        audio.Pause();
        activeSegment := None;
      } else {
        var url := GetAudioUrl(RECITERS[0], ParseInt(surahId));
        audio.src := url;
        audio.Load();
        activeSegment := Some(segmentId);
        audio.Play(outcome);
        if outcome == Rejected || outcome == Threw {
          activeSegment := None;
        }
      }
    }

    /** The element's `ended` and `error` events clear the active segment. */
    method OnEndedOrError()
      modifies this
      ensures activeSegment.None?
    {
      activeSegment := None;
    }
  }
}
