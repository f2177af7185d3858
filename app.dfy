/**
 * App.tsx: the application shell. It holds the one global audio element with the
 * playback record the mini player shows, the current view, and the navigation
 * parameters handed to the Quran screen.
 */
module App {
  import opened Js
  import opened Types
  import opened Media
  import opened QuranFull

  /** The playback record before anything has played. */
  const INITIAL_AUDIO := AudioState(false, None, 0.0, 0.0, 0.0)

  /** The location before geolocation answers: Makkah. */
  const DEFAULT_LOCATION := UserLocation(21.4225, 39.8262, "مكة المكرمة", true)

  /** The fields of the navigation parameters the views read: `surahId` and `mode`. */
  datatype NavParams = NavParams(surahId: Option<int>, mode: Option<Mode>)

  /** Whether `track` is the one already loaded: `currentTrack?.url === track.url`. */
  predicate SameTrack(st: AudioState, track: AudioTrack)
  {
    st.currentTrack.Some? && st.currentTrack.value.url == track.url
  }

  /**
   * The playback record after `playTrack(track)` with an element present. A new track
   * becomes current, playing, at progress 0, unless starting it throws before the state
   * update (a synchronous throw, or a `play()` without a promise to attach `catch` to).
   */
  function AfterPlayTrack(st: AudioState, track: AudioTrack, outcome: PlayOutcome): (r: AudioState)
    ensures SameTrack(st, track) || outcome.Threw? || outcome.NoPromise? ==> r == st
    ensures !SameTrack(st, track) && (outcome.Resolved? || outcome.Rejected?) ==>
      && r.currentTrack == Some(track) && r.isPlaying && r.progress == 0.0
      && r.duration == st.duration && r.currentTime == st.currentTime
  {
    if SameTrack(st, track) then st
    else match outcome
      case Resolved | Rejected => st.(currentTrack := Some(track), isPlaying := true, progress := 0.0)
      case Threw | NoPromise => st
  }

  /** `closePlayer`'s update: no track, not playing, progress 0; duration and position kept. */
  function Closed(st: AudioState): (r: AudioState)
    ensures r.currentTrack.None? && !r.isPlaying && r.progress == 0.0
    ensures r.duration == st.duration && r.currentTime == st.currentTime
  {
    st.(currentTrack := None, isPlaying := false, progress := 0.0)
  }

  /** Playing a track and then closing the player ends where closing alone would. */
  lemma CloseForgetsTrack(st: AudioState, track: AudioTrack, outcome: PlayOutcome)
    ensures Closed(AfterPlayTrack(st, track, outcome)) == Closed(st)
  {
  }

  /** Playing the current track again leaves the record alone, whatever `play()` does. */
  lemma ReplayKeepsState(st: AudioState, track: AudioTrack, first: PlayOutcome, second: PlayOutcome)
    requires first.Resolved? || first.Rejected?
    ensures var once := AfterPlayTrack(st, track, first);
            AfterPlayTrack(once, track, second) == once
  {
  }

  /** The element's `play`, `pause` and `ended` events. */
  datatype ElementEvent = PlayEvent | PauseEvent | EndedEvent

  /** The record after one element event. */
  function AfterEvent(st: AudioState, e: ElementEvent): (r: AudioState)
    ensures r.currentTrack == st.currentTrack && r.duration == st.duration && r.currentTime == st.currentTime
    ensures r.isPlaying <==> e.PlayEvent?
    ensures r.progress == (if e.EndedEvent? then 100.0 else st.progress)
  {
    match e
    case PlayEvent => st.(isPlaying := true)
    case PauseEvent => st.(isPlaying := false)
    case EndedEvent => st.(isPlaying := false, progress := 100.0)
  }

  /** The record after a run of element events, oldest first. */
  function AfterEvents(st: AudioState, events: seq<ElementEvent>): AudioState
    decreases |events|
  {
    if events == [] then st else AfterEvents(AfterEvent(st, events[0]), events[1..])
  }

  /**
   * Element events never change the track, the duration or the position. After a
   * non-empty run, the playing flag tells whether the last event was `play`.
   */
  lemma {:induction false} EventsKeepTrack(st: AudioState, events: seq<ElementEvent>)
    ensures AfterEvents(st, events).currentTrack == st.currentTrack
    ensures AfterEvents(st, events).duration == st.duration
    ensures AfterEvents(st, events).currentTime == st.currentTime
    ensures events != [] ==> (AfterEvents(st, events).isPlaying <==> events[|events| - 1].PlayEvent?)
    decreases |events|
  {
    if events != [] {
      EventsKeepTrack(AfterEvent(st, events[0]), events[1..]);
      if |events| > 1 {
        assert events[1..][|events[1..]| - 1] == events[|events| - 1];
      }
    }
  }

  /** The shell state, with the element `audioRef` points at (null before mount). */
  class Shell {
    var currentView: ViewState
    var navParams: NavParams
    var audioState: AudioState
    var location: UserLocation
    const audio: AudioElement?

    constructor (audio: AudioElement?)
      ensures currentView == ViewDashboard && navParams == NavParams(None, None)
      ensures audioState == INITIAL_AUDIO && location == DEFAULT_LOCATION && this.audio == audio
    {
      currentView, navParams, audioState, location := ViewDashboard, NavParams(None, None), INITIAL_AUDIO, DEFAULT_LOCATION;
      this.audio := audio;
    }

    /**
     * `playTrack(track)`. Without an element nothing happens. The current track only
     * pauses or resumes the element; a new one is loaded and played.
     */
    method PlayTrack(track: AudioTrack, outcome: PlayOutcome)
      modifies this, audio
      ensures audio == null ==> audioState == old(audioState)
      ensures audio != null ==> audioState == AfterPlayTrack(old(audioState), track, outcome)
      ensures audio != null && SameTrack(old(audioState), track) ==>
        audio.src == old(audio.src) && audio.currentTime == old(audio.currentTime)
        && (old(audioState).isPlaying ==> audio.paused)
        && (!old(audioState).isPlaying ==> audio.paused == (old(audio.paused) && !outcome.Resolved?))
      ensures audio != null && !SameTrack(old(audioState), track) ==>
        audio.src == track.url && audio.currentTime == 0.0 && (audio.paused <==> !outcome.Resolved?)
      ensures currentView == old(currentView) && navParams == old(navParams) && location == old(location)
    {
      if audio == null {
        return;
      }
      if audioState.currentTrack.Some? && audioState.currentTrack.value.url == track.url {
        if audioState.isPlaying {
          audio.Pause();
        } else {
          audio.Play(outcome);
        }
        return;
      }
      audio.src := track.url;
      audio.Load();
      audio.Play(outcome);
      if outcome.Threw? || outcome.NoPromise? {
        return;
      }
      audioState := audioState.(currentTrack := Some(track), isPlaying := true, progress := 0.0);
    }

    /** `togglePlay`: only the element changes; the record follows through its events. */
    method TogglePlay(outcome: PlayOutcome)
      modifies audio
      ensures audio != null ==> audio.src == old(audio.src) && audio.currentTime == old(audio.currentTime)
      ensures audio != null ==> audio.paused == (audioState.isPlaying || (old(audio.paused) && !outcome.Resolved?))
    {
      if audio == null {
        return;
      }
      if audioState.isPlaying {
        audio.Pause();
      } else {
        audio.Play(outcome);
      }
    }

    /** `closePlayer`: the element stops and rewinds, and the record is closed. */
    method ClosePlayer()
      modifies this, audio
      ensures audioState == Closed(old(audioState))
      ensures audio != null ==> audio.paused && audio.currentTime == 0.0 && audio.src == old(audio.src)
      ensures currentView == old(currentView) && navParams == old(navParams) && location == old(location)
    {
      if audio != null {
        audio.Pause();
        audio.currentTime := 0.0;
      }
      audioState := audioState.(currentTrack := None, isPlaying := false, progress := 0.0);
    }

    /** One of the element's `play`, `pause` or `ended` listeners. */
    method OnElementEvent(e: ElementEvent)
      modifies this
      ensures audioState == AfterEvent(old(audioState), e)
      ensures currentView == old(currentView) && navParams == old(navParams) && location == old(location)
    {
      match e {
        case PlayEvent => audioState := audioState.(isPlaying := true);
        case PauseEvent => audioState := audioState.(isPlaying := false);
        case EndedEvent => audioState := audioState.(isPlaying := false, progress := 100.0);
      }
    }

    /** `handleViewChange(view, params)`: the view always changes, the parameters only when given. */
    method HandleViewChange(view: ViewState, params: Option<NavParams>)
      modifies this
      ensures currentView == view
      ensures navParams == (if params.Some? then params.value else old(navParams))
      ensures audioState == old(audioState) && location == old(location)
    {
      currentView := view;
      if params.Some? {
        navParams := params.value;
      }
    }
  }
}
