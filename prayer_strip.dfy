/**
 * components/PrayerStrip.tsx: the five prayer entries shown on the dashboard strip, and
 * the clock-hour partition that highlights one of them as the next prayer. The
 * highlight looks only at the hour, never at the fetched times.
 */
module PrayerStrip {
  import opened Js
  import opened Types
  import opened Api
  import opened ApiCache

  /** The hour at which each prayer, in PRAYER_ORDER, stops being the highlighted one. */
  const BUCKET_ENDS: seq<int> := [5, 12, 15, 18, 20]

  /**
   * The index of the highlighted prayer for a clock hour: the first prayer whose bucket
   * ends after the hour, wrapping round to Fajr once every bucket has ended.
   */
  function NextIndex(hour: int): (i: nat)
    ensures i < 5
    ensures hour < BUCKET_ENDS[i] ==> forall k | 0 <= k < i :: BUCKET_ENDS[k] <= hour
    ensures hour >= BUCKET_ENDS[i] ==> i == 0 && forall k | 0 <= k < 5 :: BUCKET_ENDS[k] <= hour
  {
    if hour < 5 then 0
    else if hour < 12 then 1
    else if hour < 15 then 2
    else if hour < 18 then 3
    else if hour < 20 then 4
    else 0
  }

  /**
   * `formatTime12H(raw.split(' ')[0])`; None where formatting throws, which is when the
   * text before the first space is non-empty and has no ':'.
   */
  function SlotTime(raw: string): (r: Option<string>)
    ensures r.None? <==> BeforeFirst(raw, ' ') != "" && ':' !in BeforeFirst(raw, ' ')
  {
    FormatTime12H(BeforeFirst(raw, ' '))
  }

  /**
   * The five entries of the literal list, none highlighted yet, or None when formatting
   * one of the five times throws.
   */
  function Entries(t: Timings): (r: Option<seq<PrayerTime>>)
    ensures r.Some? ==> |r.value| == 5 && forall k | 0 <= k < 5 ::
      && r.value[k].name == PRAYER_ORDER[k].ArabicName()
      && Some(r.value[k].time) == SlotTime(t.Get(PRAYER_ORDER[k]))
      && !r.value[k].isNext
  {
    var times := seq(5, k requires 0 <= k < 5 => SlotTime(t.Get(PRAYER_ORDER[k])));
    if exists k | 0 <= k < 5 :: times[k].None? then None
    else Some(seq(5, k requires 0 <= k < 5 => PrayerTime(PRAYER_ORDER[k].ArabicName(), times[k].value, false)))
  }

  /** The entries exist exactly when none of the five times makes formatting throw. */
  lemma EntriesDefined(t: Timings)
    ensures Entries(t).Some? <==> forall p: Prayer :: SlotTime(t.Get(p)).Some?
  {
    var times := seq(5, k requires 0 <= k < 5 => SlotTime(t.Get(PRAYER_ORDER[k])));
    if forall p: Prayer :: SlotTime(t.Get(p)).Some? {
      forall k | 0 <= k < 5
        ensures times[k].Some?
      {
        assert SlotTime(t.Get(PRAYER_ORDER[k])).Some?;
      }
    } else {
      var p: Prayer :| SlotTime(t.Get(p)).None?;
      var k := match p case Fajr => 0 case Dhuhr => 1 case Asr => 2 case Maghrib => 3 case Isha => 4;
      assert PRAYER_ORDER[k] == p && times[k].None?;
    }
  }

  /**
   * What the strip shows after a load with timings `t` at clock hour `hour`: the five
   * entries in PRAYER_ORDER with exactly the entry at NextIndex(hour) highlighted.
   */
  function StripEntries(t: Timings, hour: int): (r: Option<seq<PrayerTime>>)
    ensures r.Some? <==> Entries(t).Some?
    ensures r.Some? ==> |r.value| == 5 && forall k | 0 <= k < 5 ::
      && r.value[k].name == PRAYER_ORDER[k].ArabicName()
      && Some(r.value[k].time) == SlotTime(t.Get(PRAYER_ORDER[k]))
      && (r.value[k].isNext <==> k == NextIndex(hour))
  {
    match Entries(t)
    case None => None
    case Some(e) =>
      var i := NextIndex(hour);
      Some(e[i := e[i].(isNext := true)])
  }

  /** The highlight depends on the hour alone: two loads at the same hour mark the same entry. */
  lemma HighlightIgnoresTimings(t1: Timings, t2: Timings, hour: int)
    requires StripEntries(t1, hour).Some? && StripEntries(t2, hour).Some?
    ensures forall k | 0 <= k < 5 ::
      StripEntries(t1, hour).value[k].isNext == StripEntries(t2, hour).value[k].isNext
    ensures |set k | 0 <= k < 5 && StripEntries(t1, hour).value[k].isNext| == 1
  {
    var e := StripEntries(t1, hour).value;
    assert (set k | 0 <= k < 5 && e[k].isNext) == {NextIndex(hour)};
  }

  /** The if-chain of `loadPrayers`: sets `isNext` on the entry the hour picks, in place. */
  method MarkNext(a: array<PrayerTime>, hour: int)
    requires a.Length == 5
    modifies a
    ensures a[..] == old(a[..])[NextIndex(hour) := old(a[NextIndex(hour)]).(isNext := true)]
  {
    if hour < 5 {
      a[0] := a[0].(isNext := true);
    } else if hour < 12 {
      a[1] := a[1].(isNext := true);
    } else if hour < 15 {
      a[2] := a[2].(isNext := true);
    } else if hour < 18 {
      a[3] := a[3].(isNext := true);
    } else if hour < 20 {
      a[4] := a[4].(isNext := true);
    } else {
      a[0] := a[0].(isNext := true);
    }
  }

  /** A fresh array holding the elements of `s`. */
  method ArrayOf<T>(s: seq<T>) returns (a: array<T>)
    ensures fresh(a) && a[..] == s
  {
    a := new T[|s|](i requires 0 <= i < |s| => s[i]);
  }

  /** `loadPrayers`' list building: the literal list, then the highlight set in place. */
  method BuildPrayers(t: Timings, hour: int) returns (r: Option<seq<PrayerTime>>)
    ensures r == StripEntries(t, hour)
  {
    var entries := Entries(t);
    if entries.None? {
      return None;
    }
    var a := ArrayOf(entries.value);
    MarkNext(a, hour);
    r := Some(a[..]);
  }

  /** The component state: the entries on show and the loading placeholder flag. */
  class Strip {
    var prayers: seq<PrayerTime>
    var loading: bool

    constructor ()
      ensures prayers == [] && loading
    {
      prayers, loading := [], true;
    }

    /**
     * The effect run whenever the location changes. `fetchTime` is the clock reading the
     * cache key is built from and `hour` the later reading that picks the highlight.
     * A fetch that yields nothing keeps the entries and ends loading; a timing that makes
     * formatting throw aborts the effect, so loading stays on.
     */
    method LoadPrayers(store: LocalStore, location: UserLocation, fetchTime: LocalTime, hour: int,
                       remote: Remote<PrayerData>)
      requires store.Valid()
      modifies this, store
      ensures store.Valid()
      ensures var f := PrayerCall(old(store.items), location.lat, location.lng, fetchTime, remote);
              && store.items == f.items
              && (f.value.None? ==> prayers == old(prayers) && !loading)
              && (f.value.Some? ==>
                    match StripEntries(f.value.value.timings, hour)
                    case Some(e) => prayers == e && !loading
                    case None => prayers == old(prayers) && loading)
    {
      loading := true;
      var data, _ := store.FetchPrayerTimesByCoords(location.lat, location.lng, fetchTime, remote);
      if data.Some? {
        var built := BuildPrayers(data.value.timings, hour);
        if built.None? {
          return;
        }
        prayers := built.value;
      }
      loading := false;
    }
  }
}
