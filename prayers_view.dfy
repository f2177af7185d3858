/**
 * components/PrayersView.tsx: the adhan settings (voice and one flag per prayer), the
 * unhighlighted list of the day's five times, and the adhan test button with its error
 * messages.
 */
module PrayersView {
  import opened Js
  import opened Types
  import opened Api
  import opened ApiCache
  import opened Media
  import opened PrayerStrip

  /** The initial settings: the Makkah adhan with every prayer enabled. */
  const INITIAL_SETTINGS := AdhanSettings(Makkah, EnabledPrayers(true, true, true, true, true))

  /** Shown when the promise `play()` returns is rejected. */
  const PLAY_FAILED_MESSAGE := "تعذر تشغيل الصوت. يرجى التحقق من الاتصال."
  /** Shown when starting playback throws synchronously. */
  const UNEXPECTED_MESSAGE := "خطأ غير متوقع أثناء تشغيل الصوت."
  /** Shown when the element reports a load error. */
  const LOAD_FAILED_MESSAGE := "حدث خطأ أثناء تحميل الملف الصوتي."

  /** `togglePrayer(key)`: flag `p` flips, the voice and every other flag are kept. */
  function TogglePrayer(s: AdhanSettings, p: Prayer): (r: AdhanSettings)
    ensures r.voice == s.voice
    ensures r.enabledPrayers.Get(p) == !s.enabledPrayers.Get(p)
    ensures forall q :: q != p ==> r.enabledPrayers.Get(q) == s.enabledPrayers.Get(q)
  {
    s.(enabledPrayers := s.enabledPrayers.With(p, !s.enabledPrayers.Get(p)))
  }

  /** Toggling the same prayer twice gives back the settings one started from. */
  lemma ToggleTwice(s: AdhanSettings, p: Prayer)
    ensures TogglePrayer(TogglePrayer(s, p), p) == s
  {
    var e := TogglePrayer(TogglePrayer(s, p), p).enabledPrayers;
    assert e.fajr == e.Get(Fajr) && e.dhuhr == e.Get(Dhuhr) && e.asr == e.Get(Asr);
    assert e.maghrib == e.Get(Maghrib) && e.isha == e.Get(Isha);
  }

  /**
   * This view's list is the dashboard strip's list with the highlight removed: the same
   * five names and times, none marked as next.
   */
  lemma ListIsStripUnhighlighted(t: Timings, hour: int)
    requires Entries(t).Some?
    ensures StripEntries(t, hour).Some?
    ensures forall k | 0 <= k < 5 ::
      Entries(t).value[k] == StripEntries(t, hour).value[k].(isNext := false)
  {
  }

  /**
   * What a test press does to `isPlaying` and `audioError` when the element exists. A
   * press while playing stops. Otherwise a resolved `play()` starts, a rejected one or a
   * throw records its message, and a `play()` without a promise changes nothing.
   */
  function TestResult(wasPlaying: bool, outcome: PlayOutcome): (r: (bool, Option<string>))
    ensures wasPlaying ==> r == (false, None)
    ensures r.0 <==> !wasPlaying && outcome.Resolved?
    ensures r.1.Some? <==> !wasPlaying && (outcome.Rejected? || outcome.Threw?)
    ensures r.0 ==> r.1.None?
  {
    if wasPlaying then (false, None)
    else match outcome
      case Resolved => (true, None)
      case Rejected => (false, Some(PLAY_FAILED_MESSAGE))
      case NoPromise => (false, None)
      case Threw => (false, Some(UNEXPECTED_MESSAGE))
  }

  /**
   * The list shown after a load that yielded `data`: the five times, none highlighted,
   * or the previous list when there is no data or a time makes formatting throw.
   */
  function ListAfter(data: Option<PrayerData>, previous: seq<PrayerTime>): (r: seq<PrayerTime>)
    ensures r != previous ==> |r| == 5 && forall k | 0 <= k < 5 :: !r[k].isNext
    ensures data.Some? && Entries(data.value.timings).Some? ==> r == Entries(data.value.timings).value
    ensures data.None? || Entries(data.value.timings).None? ==> r == previous
  {
    if data.Some? && Entries(data.value.timings).Some? then Entries(data.value.timings).value else previous
  }

  /** The screen state, with the element `audioRef` points at (null before mount). */
  class PrayersScreen {
    var settings: AdhanSettings
    var prayers: seq<PrayerTime>
    var isPlaying: bool
    var audioError: Option<string>
    var audio: AudioElement?

    constructor (audio: AudioElement?)
      ensures settings == INITIAL_SETTINGS && prayers == [] && !isPlaying && audioError.None?
      ensures this.audio == audio
    {
      settings, prayers, isPlaying, audioError := INITIAL_SETTINGS, [], false, None;
      this.audio := audio;
    }

    /**
     * The effect run whenever the location changes: the day's five times, none
     * highlighted. A fetch that yields nothing, or a time that makes formatting throw,
     * keeps the previous list.
     */
    method LoadPrayers(store: LocalStore, location: UserLocation, fetchTime: LocalTime,
                       remote: Remote<PrayerData>)
      requires store.Valid()
      modifies this, store
      ensures store.Valid()
      ensures var f := PrayerCall(old(store.items), location.lat, location.lng, fetchTime, remote);
              && store.items == f.items
              && prayers == ListAfter(f.value, old(prayers))
      ensures settings == old(settings) && isPlaying == old(isPlaying) && audioError == old(audioError)
      ensures audio == old(audio)
    {
      var data, _ := store.FetchPrayerTimesByCoords(location.lat, location.lng, fetchTime, remote);
      ShowPrayers(data);
    }

    /** Puts the five times of `data` in place, unless there is no data or formatting throws. */
    method ShowPrayers(data: Option<PrayerData>)
      modifies this`prayers
      ensures prayers == ListAfter(data, old(prayers))
    {
      if data.Some? {
        var entries := Entries(data.value.timings);
        if entries.None? {
          return;
        }
        prayers := entries.value;
      }
    }

    /** A prayer's bell button. */
    method HandleTogglePrayer(p: Prayer)
      modifies this
      ensures settings == TogglePrayer(old(settings), p)
      ensures prayers == old(prayers) && isPlaying == old(isPlaying) && audioError == old(audioError)
      ensures audio == old(audio)
    {
      settings := TogglePrayer(settings, p);
    }

    /**
     * A voice button: playback is marked stopped and the voice changes. The element is
     * keyed by the voice, so a fresh one replaces it only when the voice is a different
     * one; pressing the voice already chosen keeps the element, playing or not.
     */
    method SelectVoice(voice: Voice)
      modifies this
      ensures settings == old(settings).(voice := voice)
      ensures !isPlaying && prayers == old(prayers) && audioError == old(audioError)
      ensures old(audio) == null || voice == old(settings.voice) ==> audio == old(audio)
      ensures audio != null && audio == old(audio) ==>
        audio.src == old(audio.src) && audio.paused == old(audio.paused)
        && audio.currentTime == old(audio.currentTime)
      ensures old(audio) != null && voice != old(settings.voice) ==>
        audio != null && fresh(audio) && audio.src == "" && audio.paused && audio.currentTime == 0.0
    {
      isPlaying := false;
      if audio != null && voice != settings.voice {
        audio := new AudioElement();
      }
      settings := settings.(voice := voice);
    }

    /**
     * `handlePlayTest`. Without an element nothing happens. Otherwise the error clears;
     * a press while playing pauses and rewinds, any other loads the chosen voice's adhan
     * and plays it.
     */
    method HandlePlayTest(outcome: PlayOutcome)
      modifies this, audio
      ensures audio == old(audio) && settings == old(settings) && prayers == old(prayers)
      ensures audio == null ==> isPlaying == old(isPlaying) && audioError == old(audioError)
      ensures audio != null ==> (isPlaying, audioError) == TestResult(old(isPlaying), outcome)
      ensures audio != null && old(isPlaying) ==>
        audio.paused && audio.currentTime == 0.0 && audio.src == old(audio.src)
      ensures audio != null && !old(isPlaying) ==>
        audio.src == AdhanUrl(settings.voice) && audio.currentTime == 0.0
        && (audio.paused <==> !outcome.Resolved?)
    {
      if audio == null {
        return;
      }
      audioError := None;
      if isPlaying {
        audio.Pause();
        audio.currentTime := 0.0;
        isPlaying := false;
      } else {
        audio.src := AdhanUrl(settings.voice);
        audio.Load();
        audio.Play(outcome);
        match outcome {
          case Resolved =>
            isPlaying := true;
          case Rejected =>
            isPlaying := false;
            audioError := Some(PLAY_FAILED_MESSAGE);
          case NoPromise =>
          case Threw =>
            isPlaying := false;
            audioError := Some(UNEXPECTED_MESSAGE);
        }
      }
    }

    /** The element's `ended` event. */
    method OnEnded()
      modifies this
      ensures !isPlaying && audioError == old(audioError)
      ensures settings == old(settings) && prayers == old(prayers) && audio == old(audio)
    {
      isPlaying := false;
    }

    /** The element's `error` event. */
    method OnError()
      modifies this
      ensures !isPlaying && audioError == Some(LOAD_FAILED_MESSAGE)
      ensures settings == old(settings) && prayers == old(prayers) && audio == old(audio)
    {
      isPlaying := false;
      audioError := Some(LOAD_FAILED_MESSAGE);
    }
  }
}
