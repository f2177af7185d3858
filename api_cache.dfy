/**
 * The cache-first fetchers of utils/api.ts over the browser's key-value storage. Each
 * fetcher is a specification function on the stored items (what the call returns, the
 * items afterwards, and whether it went to the network) and a method on `LocalStore`
 * that performs it. The remote reply is a parameter.
 */
module ApiCache {
  import opened Js
  import opened Types
  import opened Api

  const BOOKMARK_KEY: string := "quran_bookmark"

  /** The JSON values the fetchers save. */
  datatype Payload =
    | SurahList(surahs: seq<SurahBasic>)
    | Page(page: QuranPageData)
    | Prayers(data: PrayerData)

  /** A stored item: a value saved as JSON, or a plain text saved directly (the bookmark). */
  datatype Stored = Json(value: Payload) | Raw(text: string)

  /** What a request yields: no response (offline, a thrown fetch, a body that is not JSON), or a response with its status flag and its `data` member. */
  datatype Remote<T> = NetworkFailure | Reply(ok: bool, data: T)

  datatype KeyKind = ListKey | PageKey | PrayerKey | OtherKey

  /** Which dataset a storage key belongs to, by its fixed text or prefix. */
  function KindOf(key: string): KeyKind
  {
    if key == SURAH_LIST_KEY then ListKey
    else if PAGE_KEY_PREFIX <= key then PageKey
    else if PRAYER_KEY_PREFIX <= key then PrayerKey
    else OtherKey
  }

  lemma PageKeyKind(n: int)
    ensures KindOf(PageCacheKey(n)) == PageKey
  {
    var p := PageCacheKey(n);
    assert p[0] == 'q' && SURAH_LIST_KEY[0] == 's';
    assert p[..|PAGE_KEY_PREFIX|] == PAGE_KEY_PREFIX;
  }

  lemma PrayerKeyKind(lat: real, lng: real, now: LocalTime)
    ensures KindOf(PrayerCacheKey(lat, lng, now)) == PrayerKey
  {
    var q := PrayerCacheKey(lat, lng, now);
    assert q[0] == 'p' && SURAH_LIST_KEY[0] == 's' && PAGE_KEY_PREFIX[0] == 'q';
    assert q[..|PRAYER_KEY_PREFIX|] == PRAYER_KEY_PREFIX;
  }

  lemma BookmarkKeyKind()
    ensures KindOf(BOOKMARK_KEY) == OtherKey
  {
    assert BOOKMARK_KEY[0] == 'q' && SURAH_LIST_KEY[0] == 's';
    assert BOOKMARK_KEY[6] == 'b' && PAGE_KEY_PREFIX[6] == 'p' && PRAYER_KEY_PREFIX[0] == 'p';
  }

  /** The keys of the different datasets never collide. */
  lemma KeyKinds(n: int, lat: real, lng: real, now: LocalTime)
    ensures KindOf(SURAH_LIST_KEY) == ListKey
    ensures KindOf(PageCacheKey(n)) == PageKey
    ensures KindOf(PrayerCacheKey(lat, lng, now)) == PrayerKey
    ensures KindOf(BOOKMARK_KEY) == OtherKey
  {
    PageKeyKind(n);
    PrayerKeyKind(lat, lng, now);
    BookmarkKeyKind();
  }

  /** An item fits its key: each dataset holds its own kind of value, and a page is stored under its own number. */
  predicate Fits(key: string, v: Stored)
  {
    match KindOf(key)
    case ListKey => v.Json? && v.value.SurahList?
    case PageKey => v.Json? && v.value.Page? && key == PageCacheKey(v.value.page.number)
    case PrayerKey => v.Json? && v.value.Prayers?
    case OtherKey => v.Raw?
  }

  predicate ValidItems(items: map<string, Stored>)
  {
    forall k | k in items :: Fits(k, items[k])
  }

  /** `getFromCache(key)`: the parsed value, `None` when the key is missing or holds no JSON value. */
  function GetFromCache(items: map<string, Stored>, key: string): Option<Payload>
  {
    if key in items && items[key].Json? then Some(items[key].value) else None
  }

  /** The outcome of one fetcher call. */
  datatype Fetched<T> = Fetched(value: T, items: map<string, Stored>, fetched: bool)

  /**
   * `fetchSurahList()`: a stored list is returned without a request; otherwise the reply's
   * `data` is saved and returned, whatever its status; with no response, the empty list.
   */
  function SurahListCall(items: map<string, Stored>, remote: Remote<seq<SurahBasic>>): (f: Fetched<seq<SurahBasic>>)
    requires ValidItems(items)
    ensures ValidItems(f.items)
    ensures f.fetched <==> SURAH_LIST_KEY !in items
    ensures !f.fetched ==> f.items == items && f.value == items[SURAH_LIST_KEY].value.surahs
    ensures f.fetched && remote.NetworkFailure? ==> f.value == [] && f.items == items
    ensures f.fetched && remote.Reply? ==>
      f.value == remote.data && f.items == items[SURAH_LIST_KEY := Json(SurahList(remote.data))]
  {
    match GetFromCache(items, SURAH_LIST_KEY)
    case Some(cached) => Fetched(cached.surahs, items, false)
    case None =>
      match remote
      case NetworkFailure => Fetched([], items, true)
      case Reply(_, data) => Fetched(data, items[SURAH_LIST_KEY := Json(SurahList(data))], true)
  }

  /**
   * `fetchQuranPage(n)`: a stored page is returned without a request; otherwise a reply
   * with a success status becomes `{number: n, ayahs, surahs: {}}`, which is saved and
   * returned; an error status or no response gives `None` and saves nothing.
   */
  function PageCall(items: map<string, Stored>, n: int, remote: Remote<seq<Ayah>>): (f: Fetched<Option<QuranPageData>>)
    requires ValidItems(items)
    ensures ValidItems(f.items)
    ensures f.fetched <==> PageCacheKey(n) !in items
    ensures f.value.Some? ==> f.value.value.number == n
    ensures !f.fetched ==> f.items == items && f.value.Some? && items[PageCacheKey(n)] == Json(Page(f.value.value))
    ensures f.fetched && remote.Reply? && remote.ok ==>
      && f.value == Some(QuranPageData(n, remote.data, map[]))
      && f.items == items[PageCacheKey(n) := Json(Page(f.value.value))]
    ensures f.fetched && !(remote.Reply? && remote.ok) ==> f.value.None? && f.items == items
  {
    var key := PageCacheKey(n);
    KeyKinds(n, 0.0, 0.0, LocalTime(0, 0, 0, 0));
    match GetFromCache(items, key)
    case Some(cached) =>
      PageCacheKeyInjective(cached.page.number, n);
      Fetched(Some(cached.page), items, false)
    case None =>
      if remote.Reply? && remote.ok then
        var result := QuranPageData(n, remote.data, map[]);
        Fetched(Some(result), items[key := Json(Page(result))], true)
      else Fetched(None, items, true)
  }

  /**
   * `fetchPrayerTimesByCoords(lat, lng)` at local time `now`: a value stored under today's
   * key for the rounded coordinates is returned without a request; otherwise the reply's
   * `data` is saved and returned, whatever its status; with no response, `None`.
   */
  function PrayerCall(items: map<string, Stored>, lat: real, lng: real, now: LocalTime, remote: Remote<PrayerData>)
    : (f: Fetched<Option<PrayerData>>)
    requires ValidItems(items)
    ensures ValidItems(f.items)
    ensures f.fetched <==> PrayerCacheKey(lat, lng, now) !in items
    ensures !f.fetched ==> f.items == items && f.value.Some? && items[PrayerCacheKey(lat, lng, now)] == Json(Prayers(f.value.value))
    ensures f.fetched && remote.NetworkFailure? ==> f.value.None? && f.items == items
    ensures f.fetched && remote.Reply? ==>
      f.value == Some(remote.data) && f.items == items[PrayerCacheKey(lat, lng, now) := Json(Prayers(remote.data))]
  {
    var key := PrayerCacheKey(lat, lng, now);
    KeyKinds(0, lat, lng, now);
    match GetFromCache(items, key)
    case Some(cached) => Fetched(Some(cached.data), items, false)
    case None =>
      match remote
      case NetworkFailure => Fetched(None, items, true)
      case Reply(_, data) => Fetched(Some(data), items[key := Json(Prayers(data))], true)
  }

  lemma PageCacheKeyInjective(a: int, b: int)
    ensures PageCacheKey(a) == PageCacheKey(b) <==> a == b
  {
    if PageCacheKey(a) == PageCacheKey(b) {
      var sa, sb := NumberToString(Int(a)), NumberToString(Int(b));
      assert sa == PageCacheKey(a)[|PAGE_KEY_PREFIX|..];
      assert sb == PageCacheKey(b)[|PAGE_KEY_PREFIX|..];
      NumberToStringInjective(a, b);
    }
  }

  lemma NumberToStringInjective(a: int, b: int)
    requires NumberToString(Int(a)) == NumberToString(Int(b))
    ensures a == b
  {
    var s := NumberToString(Int(a));
    // Only a negative number's text starts with '-'.
    assert (a < 0) == (s[0] == '-') && (b < 0) == (s[0] == '-');
    if a < 0 {
      assert NatToString(-a) == s[1..] == NatToString(-b);
      NatToStringInjective(-a, -b);
    } else {
      NatToStringInjective(a, b);
    }
  }

  // ---------------------------------------------------------------- cache-first behaviour

  /** Once a reply has been stored, every later call answers from storage with the same list and never asks again. */
  lemma SurahListServedFromCache(items: map<string, Stored>, first: Remote<seq<SurahBasic>>, later: Remote<seq<SurahBasic>>)
    requires ValidItems(items) && first.Reply?
    ensures var f := SurahListCall(items, first);
            SurahListCall(f.items, later) == Fetched(f.value, f.items, false)
  {
  }

  /**
   * The status of a reply is not looked at: a reply with an error status is stored, and
   * from then on served in place of asking the server again.
   */
  lemma SurahListStoresErrorReply(items: map<string, Stored>, data: seq<SurahBasic>, later: Remote<seq<SurahBasic>>)
    requires ValidItems(items) && SURAH_LIST_KEY !in items
    ensures var f := SurahListCall(items, Reply(false, data));
            && f.items[SURAH_LIST_KEY] == Json(SurahList(data))
            && SurahListCall(f.items, later) == Fetched(data, f.items, false)
  {
  }

  /** With no response nothing is stored, so the next call asks again. */
  lemma SurahListRetriesAfterFailure(items: map<string, Stored>, later: Remote<seq<SurahBasic>>)
    requires ValidItems(items) && SURAH_LIST_KEY !in items
    ensures var f := SurahListCall(items, NetworkFailure);
            f.value == [] && SurahListCall(f.items, later).fetched
  {
  }

  /** A page fetched with a success status is served from storage from then on, as the same page. */
  lemma PageServedFromCache(items: map<string, Stored>, n: int, ayahs: seq<Ayah>, later: Remote<seq<Ayah>>)
    requires ValidItems(items) && PageCacheKey(n) !in items
    ensures var f := PageCall(items, n, Reply(true, ayahs));
            && f.value == Some(QuranPageData(n, ayahs, map[]))
            && PageCall(f.items, n, later) == Fetched(f.value, f.items, false)
  {
  }

  /** A page reply with an error status is not stored: the next call asks again. */
  lemma PageErrorNotStored(items: map<string, Stored>, n: int, ayahs: seq<Ayah>, later: Remote<seq<Ayah>>)
    requires ValidItems(items) && PageCacheKey(n) !in items
    ensures var f := PageCall(items, n, Reply(false, ayahs));
            f.value.None? && f.items == items && PageCall(f.items, n, later).fetched
  {
  }

  /** Fetching one page leaves every other page's stored value as it was. */
  lemma PageCallKeepsOtherPages(items: map<string, Stored>, n: int, m: int, remote: Remote<seq<Ayah>>)
    requires ValidItems(items) && n != m
    ensures var f := PageCall(items, n, remote);
            PageCacheKey(m) in f.items <==> PageCacheKey(m) in items
    ensures var f := PageCall(items, n, remote);
            PageCacheKey(m) in items ==> f.items[PageCacheKey(m)] == items[PageCacheKey(m)]
  {
    PageCacheKeyInjective(n, m);
  }

  /**
   * The prayer key ignores the year: timings fetched on a day are served, without a
   * request, on the same day and month of any other year at coordinates that round alike.
   */
  lemma PrayersServedAcrossYears(items: map<string, Stored>, data: PrayerData, lat1: real, lng1: real, now: LocalTime,
                                 lat2: real, lng2: real, later: LocalTime, remote: Remote<PrayerData>)
    requires ValidItems(items) && PrayerCacheKey(lat1, lng1, now) !in items
    requires Hundredths(lat1) == Hundredths(lat2) && (lat1 < 0.0 <==> lat2 < 0.0)
    requires Hundredths(lng1) == Hundredths(lng2) && (lng1 < 0.0 <==> lng2 < 0.0)
    requires now.day == later.day && now.month == later.month
    ensures var f := PrayerCall(items, lat1, lng1, now, Reply(true, data));
            PrayerCall(f.items, lat2, lng2, later, remote) == Fetched(Some(data), f.items, false)
  {
    PrayerCacheKeyBuckets(lat1, lng1, now, lat2, lng2, later);
  }

  /** The browser's key-value storage for this origin. */
  class LocalStore {
    var items: map<string, Stored>

    ghost predicate Valid()
      reads this
    {
      ValidItems(items)
    }

    constructor ()
      ensures items == map[] && Valid()
    {
      items := map[];
    }

    /** `localStorage.getItem(key)` for a plain-text item. */
    function GetItem(key: string): (r: Option<string>)
      reads this
      ensures r.Some? <==> key in items && items[key].Raw?
      ensures r.Some? ==> r.value == items[key].text
    {
      if key in items && items[key].Raw? then Some(items[key].text) else None
    }

    /** `localStorage.setItem(key, text)` for a plain-text item. */
    method SetItem(key: string, text: string)
      requires Valid() && KindOf(key) == OtherKey
      modifies this
      ensures Valid() && items == old(items)[key := Raw(text)]
    {
      items := items[key := Raw(text)];
    }

    /** `localStorage.removeItem(key)`. */
    method RemoveItem(key: string)
      requires Valid()
      modifies this
      ensures Valid() && items == old(items) - {key}
    {
      items := items - {key};
    }

    method FetchSurahList(remote: Remote<seq<SurahBasic>>) returns (surahs: seq<SurahBasic>, fetched: bool)
      requires Valid()
      modifies this
      ensures Valid()
      ensures Fetched(surahs, items, fetched) == SurahListCall(old(items), remote)
    {
      KeyKinds(0, 0.0, 0.0, LocalTime(0, 0, 0, 0));
      var cached := GetFromCache(items, SURAH_LIST_KEY);
      if cached.Some? {
        return cached.value.surahs, false;
      }
      fetched := true;
      match remote {
        case NetworkFailure =>
          surahs := [];
        case Reply(_, data) =>
          items := items[SURAH_LIST_KEY := Json(SurahList(data))];
          surahs := data;
      }
    }

    method FetchQuranPage(n: int, remote: Remote<seq<Ayah>>) returns (page: Option<QuranPageData>, fetched: bool)
      requires Valid()
      modifies this
      ensures Valid()
      ensures Fetched(page, items, fetched) == PageCall(old(items), n, remote)
    {
      var key := PageCacheKey(n);
      KeyKinds(n, 0.0, 0.0, LocalTime(0, 0, 0, 0));
      var cached := GetFromCache(items, key);
      if cached.Some? {
        return Some(cached.value.page), false;
      }
      fetched := true;
      if remote.Reply? && remote.ok {
        var result := QuranPageData(n, remote.data, map[]);
        items := items[key := Json(Page(result))];
        page := Some(result);
      } else {
        page := None;
      }
    }

    method FetchPrayerTimesByCoords(lat: real, lng: real, now: LocalTime, remote: Remote<PrayerData>)
      returns (data: Option<PrayerData>, fetched: bool)
      requires Valid()
      modifies this
      ensures Valid()
      ensures Fetched(data, items, fetched) == PrayerCall(old(items), lat, lng, now, remote)
    {
      var key := PrayerCacheKey(lat, lng, now);
      KeyKinds(0, lat, lng, now);
      var cached := GetFromCache(items, key);
      if cached.Some? {
        return Some(cached.value.data), false;
      }
      fetched := true;
      match remote {
        case NetworkFailure =>
          data := None;
        case Reply(_, d) =>
          items := items[key := Json(Prayers(d))];
          data := Some(d);
      }
    }
  }
}
