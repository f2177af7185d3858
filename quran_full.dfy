/**
 * components/QuranFull.tsx: the mushaf reader. Page turning within 1..604, the bookmark
 * kept in step with its storage item, the surah search filter, the Bismillah prefix
 * stripped from the first ayah of a surah, and the hand-over of a surah to the player.
 */
module QuranFull {
  import opened Js
  import opened Types
  import opened Api
  import opened ApiCache

  const FIRST_PAGE: int := 1
  const LAST_PAGE: int := 604

  /** The word "surah", removed from a search term before matching. */
  const SURAH_WORD: string := "سورة"

  /** The two spellings of the Bismillah the reader strips; they differ in the order of shadda and fatha. */
  const BISMILLAH_SHADDA_FIRST: string :=
    "\U{0628}\U{0650}\U{0633}\U{0652}\U{0645}\U{0650} \U{0671}\U{0644}\U{0644}\U{0651}\U{064E}\U{0647}\U{0650} \U{0671}\U{0644}\U{0631}\U{0651}\U{064E}\U{062D}\U{0652}\U{0645}\U{064E}\U{0670}\U{0646}\U{0650} \U{0671}\U{0644}\U{0631}\U{0651}\U{064E}\U{062D}\U{0650}\U{064A}\U{0645}\U{0650}"
  const BISMILLAH_FATHA_FIRST: string :=
    "\U{0628}\U{0650}\U{0633}\U{0652}\U{0645}\U{0650} \U{0671}\U{0644}\U{0644}\U{064E}\U{0651}\U{0647}\U{0650} \U{0671}\U{0644}\U{0631}\U{064E}\U{0651}\U{062D}\U{0652}\U{0645}\U{064E}\U{0670}\U{0646}\U{0650} \U{0671}\U{0644}\U{0631}\U{064E}\U{0651}\U{062D}\U{0650}\U{064A}\U{0645}\U{0650}"
  const BISMILLAH_VARIANTS: seq<string> := [BISMILLAH_SHADDA_FIRST, BISMILLAH_FATHA_FIRST]

  /** The list tabs of the Quran screen. */
  datatype Tab = FullTab | AudioTab

  /** The `initialMode` a caller can open the screen with. */
  datatype Mode = ReadingMode | AudioMode

  // ------------------------------------------------------------------ search

  /** The term as matched: lower-cased, the first "surah" removed, trimmed and normalised. */
  function SearchKey(term: string): string
  {
    NormalizeArabic(Trim(ReplaceFirst(ToLower(term), SURAH_WORD, "")))
  }

  /** A surah matches when its normalised Arabic name or its lower-cased English name contains the key. */
  predicate Matches(s: SurahBasic, key: string)
  {
    Includes(NormalizeArabic(s.name), key) || Includes(ToLower(s.englishName), key)
  }

  /** `surahs.filter(s => Matches(s, key))`. */
  function Select(surahs: seq<SurahBasic>, key: string): seq<SurahBasic>
  {
    if surahs == [] then []
    else if Matches(surahs[0], key) then [surahs[0]] + Select(surahs[1..], key)
    else Select(surahs[1..], key)
  }

  /**
   * The filter keeps exactly the matching surahs, in their original order: a surah is in
   * the result iff it is in the list and matches, the result is a subsequence, and each
   * matching surah occurs in it as often as in the list.
   */
  lemma {:induction false} SelectFacts(surahs: seq<SurahBasic>, key: string)
    ensures forall s :: s in Select(surahs, key) <==> s in surahs && Matches(s, key)
    ensures IsSubsequence(Select(surahs, key), surahs)
    ensures forall s :: multiset(Select(surahs, key))[s] == if Matches(s, key) then multiset(surahs)[s] else 0
  {
    SelectCounts(surahs, key);
    if surahs != [] {
      var rest := Select(surahs[1..], key);
      SelectFacts(surahs[1..], key);
      assert forall s :: s in surahs <==> s == surahs[0] || s in surahs[1..];
      if Matches(surahs[0], key) {
        assert ([surahs[0]] + rest)[1..] == rest;
      }
    }
  }

  /** Each matching surah occurs in the filter's result as often as in the list, and no other surah occurs. */
  lemma {:induction false} SelectCounts(surahs: seq<SurahBasic>, key: string)
    ensures forall s :: multiset(Select(surahs, key))[s] == if Matches(s, key) then multiset(surahs)[s] else 0
  {
    if surahs != [] {
      SelectCounts(surahs[1..], key);
      assert surahs == [surahs[0]] + surahs[1..];
    }
  }

  /** The filter effect: all surahs for an empty term, the matching ones otherwise. */
  function FilterSurahs(surahs: seq<SurahBasic>, term: string): seq<SurahBasic>
  {
    if term == "" then surahs else Select(surahs, SearchKey(term))
  }

  /** A term whose key comes out empty, such as the word "surah" alone, matches every surah. */
  lemma {:induction false} EmptyKeySelectsAll(surahs: seq<SurahBasic>)
    ensures Select(surahs, "") == surahs
  {
    if surahs != [] {
      EmptyKeySelectsAll(surahs[1..]);
      assert Includes(NormalizeArabic(surahs[0].name), "");
    }
  }

  // ------------------------------------------------------------------ Bismillah

  /** The first ayah of every surah except the first and the ninth; an ayah without surah data qualifies. */
  predicate OpensSurah(ayah: Ayah)
  {
    && ayah.numberInSurah == 1
    && (ayah.surah.None? || (ayah.surah.value.number != 1 && ayah.surah.value.number != 9))
  }

  /**
   * The text with the first of `variants` it starts with removed and the rest trimmed;
   * unchanged when it starts with none of them.
   */
  function StripFirstPrefix(text: string, variants: seq<string>): string
  {
    if variants == [] then text
    else if variants[0] <= text then Trim(text[|variants[0]|..])
    else StripFirstPrefix(text, variants[1..])
  }

  /** The text shown for an ayah: an opening ayah loses a leading Bismillah, in either spelling. */
  function DisplayedText(ayah: Ayah): string
  {
    if OpensSurah(ayah) then StripFirstPrefix(ayah.text, BISMILLAH_VARIANTS) else ayah.text
  }

  /** Replacing a prefix by nothing removes exactly that prefix. */
  lemma ReplacePrefix(s: string, p: string)
    requires p <= s
    ensures ReplaceFirst(s, p, "") == s[|p|..]
  {
    assert IndexOf(s, p) == Some(0);
  }

  /**
   * The loop of the reader over the spellings: the first one the text starts with is
   * replaced by nothing, the rest trimmed, and the loop stops.
   */
  method StripPrefixes(text: string, variants: seq<string>) returns (shown: string)
    ensures shown == StripFirstPrefix(text, variants)
  {
    shown := text;
    var k := 0;
    while k < |variants|
      invariant 0 <= k <= |variants|
      invariant shown == text
      invariant StripFirstPrefix(text, variants) == StripFirstPrefix(text, variants[k..])
    {
      var b := variants[k];
      assert variants[k..][1..] == variants[k + 1..];
      if StartsWith(shown, b) {
        ReplacePrefix(shown, b);
        shown := Trim(ReplaceFirst(shown, b, ""));
        break;
      }
      k := k + 1;
    }
  }

  /** The ayah text the page view renders. */
  method StripBismillah(ayah: Ayah) returns (text: string)
    ensures text == DisplayedText(ayah)
  {
    text := ayah.text;
    if OpensSurah(ayah) {
      text := StripPrefixes(text, BISMILLAH_VARIANTS);
    }
  }

  /** A text that differs from `p` at some position inside both does not start with `p`. */
  lemma NotPrefixAt(p: string, s: string, i: nat)
    requires i < |p| && i < |s| && p[i] != s[i]
    ensures !(p <= s)
  {
  }

  /** The spellings part at position 10: shadda in one, fatha in the other. */
  lemma VariantsDiffer()
    ensures |BISMILLAH_VARIANTS| == 2
    ensures |BISMILLAH_VARIANTS[0]| == 38 && |BISMILLAH_VARIANTS[1]| == 38
    ensures BISMILLAH_VARIANTS[0][10] == '\U{0651}' && BISMILLAH_VARIANTS[1][10] == '\U{064E}'
    ensures forall i | 0 <= i < 38 ::
      BISMILLAH_VARIANTS[0][i] != BISMILLAH_VARIANTS[1][i] <==> i == 10 || i == 11 || i == 18 || i == 19 || i == 31 || i == 32
  {
  }

  /** Trimming a text that is a space and an already trimmed body gives the body. */
  lemma TrimSpaceThenBody(body: string)
    requires body == [] || (!IsSpace(body[0]) && !IsSpace(body[|body| - 1]))
    ensures Trim(" " + body) == body
  {
    var s := " " + body;
    assert s != [] && IsSpace(s[0]) && s[1..] == body;
    assert TrimStart(s) == TrimStart(body);
    assert TrimStart(body) == body;
    assert TrimEnd(body) == body;
  }

  /**
   * Stripping undoes a prefix: a text made of the `v`-th variant, a space and a trimmed
   * body, which no earlier variant starts, shows exactly that body.
   */
  lemma {:induction false} StripFirstPrefixRoundTrip(variants: seq<string>, v: nat, body: string)
    requires v < |variants|
    requires body == [] || (!IsSpace(body[0]) && !IsSpace(body[|body| - 1]))
    requires forall j | 0 <= j < v :: !(variants[j] <= variants[v] + " " + body)
    ensures StripFirstPrefix(variants[v] + " " + body, variants) == body
  {
    var text := variants[v] + " " + body;
    if v == 0 {
      assert text[|variants[0]|..] == " " + body;
      TrimSpaceThenBody(body);
    } else {
      assert !(variants[0] <= text);
      assert forall j | 0 <= j < v - 1 :: variants[1..][j] == variants[j + 1];
      StripFirstPrefixRoundTrip(variants[1..], v - 1, body);
    }
  }

  /**
   * Stripping undoes the Bismillah: an opening ayah written as either spelling, a space
   * and an already trimmed body shows exactly that body.
   */
  lemma StripRoundTrip(ayah: Ayah, v: nat, body: string)
    requires OpensSurah(ayah) && v < 2
    requires ayah.text == BISMILLAH_VARIANTS[v] + " " + body
    requires body == [] || (!IsSpace(body[0]) && !IsSpace(body[|body| - 1]))
    ensures DisplayedText(ayah) == body
  {
    var vs := BISMILLAH_VARIANTS;
    VariantsDiffer();
    if v == 1 {
      NotPrefixAt(vs[0], vs[1] + " " + body, 10);
    }
    StripFirstPrefixRoundTrip(vs, v, body);
  }

  // ------------------------------------------------------------------ player hand-over

  /** `surahs.find(x => x.number === n)`. */
  function FindSurah(surahs: seq<SurahBasic>, n: int): (r: Option<SurahBasic>)
    ensures r.None? <==> forall k | 0 <= k < |surahs| :: surahs[k].number != n
    ensures r.Some? ==> r.value in surahs && r.value.number == n
  {
    if surahs == [] then None
    else if surahs[0].number == n then Some(surahs[0])
    else
      var r := FindSurah(surahs[1..], n);
      assert forall k | 1 <= k < |surahs| :: surahs[k] == surahs[1..][k - 1];
      r
  }

  /** The surah found is the first one in the list with that number. */
  lemma {:induction false} FindSurahIsFirst(surahs: seq<SurahBasic>, n: int)
    requires FindSurah(surahs, n).Some?
    ensures exists k | 0 <= k < |surahs| ::
      surahs[k] == FindSurah(surahs, n).value && forall j | 0 <= j < k :: surahs[j].number != n
  {
    if surahs[0].number != n {
      FindSurahIsFirst(surahs[1..], n);
      var k :| 0 <= k < |surahs[1..]| && surahs[1..][k] == FindSurah(surahs[1..], n).value
        && forall j | 0 <= j < k :: surahs[1..][j].number != n;
      assert surahs[k + 1] == surahs[1..][k];
      assert forall j | 1 <= j < k + 1 :: surahs[j] == surahs[1..][j - 1];
    } else {
      assert surahs[0] == FindSurah(surahs, n).value;
    }
  }

  /** The track `triggerPlay` hands to the player for a surah, with the default reciter. */
  function SurahTrack(s: SurahBasic): (t: AudioTrack)
    ensures t.surahNumber == Some(s.number) && t.reciterName == Some(RECITERS[0].name)
    ensures t.url == GetAudioUrl(RECITERS[0], Int(s.number))
  {
    AudioTrack("سورة " + s.name, RECITERS[0].name, GetAudioUrl(RECITERS[0], Int(s.number)),
               Some(s.number), Some(RECITERS[0].name))
  }

  /**
   * The surah whose audio the reader offers: the listed surah numbered like the page's
   * first ayah. None without a page, on a page with no ayahs (where the code throws),
   * or when the number is missing, 0, or not in the list.
   */
  function PageSurah(pageData: Option<QuranPageData>, surahs: seq<SurahBasic>): (r: Option<SurahBasic>)
    ensures r.Some? ==> && pageData.Some? && |pageData.value.ayahs| > 0
                        && pageData.value.ayahs[0].surah.Some?
                        && r.value in surahs && r.value.number == pageData.value.ayahs[0].surah.value.number
    ensures pageData.Some? && |pageData.value.ayahs| > 0 && pageData.value.ayahs[0].surah.Some?
            && pageData.value.ayahs[0].surah.value.number != 0
            && (exists k | 0 <= k < |surahs| :: surahs[k].number == pageData.value.ayahs[0].surah.value.number)
            ==> r.Some?
  {
    if pageData.None? || |pageData.value.ayahs| == 0 then None
    else
      var first := pageData.value.ayahs[0];
      if first.surah.Some? && first.surah.value.number != 0 then FindSurah(surahs, first.surah.value.number)
      else None
  }

  // ------------------------------------------------------------------ the screen

  /** The bookmark the storage item gives: `parseInt` of a non-empty saved text, else none. */
  function StoredBookmark(items: map<string, Stored>): (b: Option<Number>)
    ensures b.Some? && b.value.Int? ==> b.value.i >= 0
  {
    if BOOKMARK_KEY in items && items[BOOKMARK_KEY].Raw? && items[BOOKMARK_KEY].text != "" then
      Some(ParseInt(items[BOOKMARK_KEY].text))
    else None
  }

  /** Writing any other storage item leaves the stored bookmark as it was. */
  lemma BookmarkUnaffected(items: map<string, Stored>, key: string, v: Stored)
    requires key != BOOKMARK_KEY
    ensures StoredBookmark(items[key := v]) == StoredBookmark(items)
  {
    assert BOOKMARK_KEY in items[key := v] <==> BOOKMARK_KEY in items;
  }

  /** Fetching the surah list never changes the stored bookmark. */
  lemma SurahListKeepsBookmark(items: map<string, Stored>, remote: Remote<seq<SurahBasic>>)
    requires ValidItems(items)
    ensures StoredBookmark(SurahListCall(items, remote).items) == StoredBookmark(items)
  {
    var f := SurahListCall(items, remote);
    if f.items != items {
      KeyKinds(0, 0.0, 0.0, LocalTime(0, 0, 0, 0));
      BookmarkUnaffected(items, SURAH_LIST_KEY, f.items[SURAH_LIST_KEY]);
    }
  }

  class QuranScreen {
    const store: LocalStore
    var activeTab: Tab
    var surahs: seq<SurahBasic>
    var filteredSurahs: seq<SurahBasic>
    var searchTerm: string
    var loading: bool
    var readingMode: bool
    var currentPage: int
    var pageData: Option<QuranPageData>
    var loadingPage: bool
    var bookmarkedPage: Option<Number>
    var showAudioSuggestion: bool

    /**
     * The list on show is the filter of the list by the term. The filter effect makes it
     * hold; every method other than the mount and the search box keeps all three fields.
     */
    ghost predicate ListConsistent()
      reads this`surahs, this`filteredSurahs, this`searchTerm
    {
      filteredSurahs == FilterSurahs(surahs, searchTerm)
    }

    /** Once mounted: the page number is positive and the bookmark is the one its storage item holds. */
    ghost predicate Valid()
      reads this`currentPage, this`bookmarkedPage, store`items
    {
      currentPage >= FIRST_PAGE && bookmarkedPage == StoredBookmark(store.items)
    }

    constructor (store: LocalStore, initialMode: Option<Mode>)
      ensures this.store == store
      ensures activeTab == (if initialMode == Some(AudioMode) then AudioTab else FullTab)
      ensures surahs == [] && filteredSurahs == [] && searchTerm == "" && loading
      ensures !readingMode && currentPage == FIRST_PAGE && pageData.None? && !loadingPage
      ensures bookmarkedPage.None? && !showAudioSuggestion
      ensures ListConsistent()
    {
      this.store := store;
      activeTab := if initialMode == Some(AudioMode) then AudioTab else FullTab;
      surahs, filteredSurahs, searchTerm, loading := [], [], "", true;
      readingMode, currentPage, pageData, loadingPage := false, FIRST_PAGE, None, false;
      bookmarkedPage, showAudioSuggestion := None, false;
    }

    /**
     * The navigation-parameter effect: a truthy surah number opens its first page with
     * the audio suggestion, unless the screen was opened for audio, which selects that tab.
     */
    method ApplyInitialParams(initialSurahId: Option<int>, initialMode: Option<Mode>)
      requires currentPage >= FIRST_PAGE
      modifies this`currentPage, this`readingMode, this`showAudioSuggestion, this`activeTab
      ensures currentPage >= FIRST_PAGE
      ensures initialSurahId.Some? && initialSurahId.value != 0 && initialMode != Some(AudioMode) ==>
        currentPage == SurahStartPage(initialSurahId.value) && readingMode && showAudioSuggestion
      ensures !(initialSurahId.Some? && initialSurahId.value != 0 && initialMode != Some(AudioMode)) ==>
        currentPage == old(currentPage) && readingMode == old(readingMode)
        && showAudioSuggestion == old(showAudioSuggestion)
      ensures activeTab == (if initialMode == Some(AudioMode) then AudioTab else old(activeTab))
    {
      if initialSurahId.Some? && initialSurahId.value != 0 && initialMode != Some(AudioMode) {
        currentPage := SurahStartPage(initialSurahId.value);
        readingMode := true;
        showAudioSuggestion := true;
      }
      if initialMode == Some(AudioMode) {
        activeTab := AudioTab;
      }
    }

    /** The first half of the mount effect: a non-empty saved bookmark is parsed and kept. */
    method ReadBookmark()
      requires bookmarkedPage.None?
      modifies this`bookmarkedPage
      ensures bookmarkedPage == StoredBookmark(store.items)
    {
      var saved := store.GetItem(BOOKMARK_KEY);
      if saved.Some? && saved.value != "" {
        bookmarkedPage := Some(ParseInt(saved.value));
      }
    }

    /**
     * The mount effect: the saved bookmark is read back, then the surah list is fetched
     * and, when non-empty, shown unfiltered; loading ends. The filter effect runs next.
     */
    method Mount(remote: Remote<seq<SurahBasic>>)
      requires currentPage >= FIRST_PAGE && bookmarkedPage.None? && store.Valid()
      modifies this`bookmarkedPage, this`surahs, this`filteredSurahs, this`loading, store
      ensures Valid() && store.Valid()
      ensures var f := SurahListCall(old(store.items), remote);
              && store.items == f.items
              && surahs == (if |f.value| > 0 then f.value else old(surahs))
              && filteredSurahs == (if |f.value| > 0 then f.value else old(filteredSurahs))
      ensures !loading
    {
      ReadBookmark();
      SurahListKeepsBookmark(store.items, remote);
      var list, _ := store.FetchSurahList(remote);
      if |list| > 0 {
        surahs := list;
        filteredSurahs := list;
      }
      loading := false;
    }

    /** Typing in the search box; the filter effect follows. */
    method SetSearchTerm(term: string)
      modifies this`searchTerm
      ensures searchTerm == term
    {
      searchTerm := term;
    }

    /**
     * The filter effect, run after the list or the term changes: every surah for an empty
     * term, otherwise those matching the term's search key, in list order.
     */
    method FilterEffect()
      modifies this`filteredSurahs
      ensures ListConsistent()
    {
      filteredSurahs := FilterSurahs(surahs, searchTerm);
    }

    /** The page effect: while reading, the current page is fetched and shown (nothing when it fails). */
    method LoadPage(remote: Remote<seq<Ayah>>)
      requires Valid() && store.Valid()
      modifies this`pageData, this`loadingPage, store
      ensures Valid() && store.Valid()
      ensures !old(readingMode) ==>
        store.items == old(store.items) && pageData == old(pageData) && loadingPage == old(loadingPage)
      ensures old(readingMode) ==> var f := PageCall(old(store.items), old(currentPage), remote);
                              store.items == f.items && pageData == f.value && !loadingPage
    {
      if readingMode {
        loadingPage := true;
        var data, _ := store.FetchQuranPage(currentPage, remote);
        KeyKinds(currentPage, 0.0, 0.0, LocalTime(0, 0, 0, 0));
        pageData := data;
        loadingPage := false;
      }
    }

    /** Choosing a surah opens the reader at its first page, without the audio suggestion. */
    method HandleSurahClick(surahNumber: int)
      requires Valid()
      modifies this`currentPage, this`readingMode, this`showAudioSuggestion
      ensures Valid()
      ensures currentPage == SurahStartPage(surahNumber) && FIRST_PAGE <= currentPage <= LAST_PAGE
      ensures readingMode && !showAudioSuggestion
    {
      currentPage := SurahStartPage(surahNumber);
      readingMode := true;
      showAudioSuggestion := false;
    }

    /** The reader's back button and its backdrop leave reading mode; the page is kept. */
    method CloseReader()
      requires Valid()
      modifies this`readingMode
      ensures Valid() && !readingMode
    {
      readingMode := false;
    }

    /** The two tab buttons of the surah list. */
    method SelectTab(tab: Tab)
      requires Valid()
      modifies this`activeTab
      ensures Valid() && activeTab == tab
    {
      activeTab := tab;
    }

    /** The close button of the audio suggestion. */
    method DismissSuggestion()
      requires Valid()
      modifies this`showAudioSuggestion
      ensures Valid() && !showAudioSuggestion
    {
      showAudioSuggestion := false;
    }

    /** Next page: one forward, except on the last page. */
    method HandleNextPage()
      requires Valid()
      modifies this`currentPage
      ensures Valid()
      ensures currentPage == if old(currentPage) < LAST_PAGE then old(currentPage) + 1 else old(currentPage)
      ensures FIRST_PAGE <= old(currentPage) <= LAST_PAGE ==> FIRST_PAGE <= currentPage <= LAST_PAGE
    {
      if currentPage < LAST_PAGE {
        currentPage := currentPage + 1;
      }
    }

    /** Previous page: one back, except on the first page. */
    method HandlePrevPage()
      requires Valid()
      modifies this`currentPage
      ensures Valid()
      ensures currentPage == if old(currentPage) > FIRST_PAGE then old(currentPage) - 1 else old(currentPage)
      ensures FIRST_PAGE <= old(currentPage) <= LAST_PAGE ==> FIRST_PAGE <= currentPage <= LAST_PAGE
    {
      if currentPage > FIRST_PAGE {
        currentPage := currentPage - 1;
      }
    }

    /**
     * The bookmark button: on the bookmarked page it clears the bookmark and its storage
     * item, anywhere else it bookmarks the current page and saves its number. Either way
     * the bookmark is afterwards the one storage gives back.
     */
    method ToggleBookmark()
      requires Valid() && store.Valid()
      modifies this`bookmarkedPage, store
      ensures Valid() && store.Valid()
      ensures old(bookmarkedPage) == Some(Int(currentPage)) ==>
        bookmarkedPage.None? && store.items == old(store.items) - {BOOKMARK_KEY}
      ensures old(bookmarkedPage) != Some(Int(currentPage)) ==>
        && bookmarkedPage == Some(Int(currentPage))
        && store.items == old(store.items)[BOOKMARK_KEY := Raw(NatToString(currentPage))]
    {
      KeyKinds(0, 0.0, 0.0, LocalTime(0, 0, 0, 0));
      if bookmarkedPage == Some(Int(currentPage)) {
        bookmarkedPage := None;
        store.RemoveItem(BOOKMARK_KEY);
      } else {
        bookmarkedPage := Some(Int(currentPage));
        store.SetItem(BOOKMARK_KEY, NumberToString(Int(currentPage)));
        ParseIntOfNatToString(currentPage);
      }
    }

    /** The "continue reading" card, shown for a truthy bookmark: opens the reader at it. */
    method ResumeBookmark()
      requires Valid()
      modifies this`currentPage, this`readingMode
      ensures Valid()
      ensures old(bookmarkedPage).Some? && old(bookmarkedPage).value.Truthy() ==>
        currentPage == old(bookmarkedPage).value.i && readingMode
      ensures !(old(bookmarkedPage).Some? && old(bookmarkedPage).value.Truthy()) ==>
        currentPage == old(currentPage) && readingMode == old(readingMode)
    {
      if bookmarkedPage.Some? && bookmarkedPage.value.Truthy() {
        currentPage := bookmarkedPage.value.i;
        readingMode := true;
      }
    }

    /**
     * "Listen to this surah": the surah of the page's first ayah is looked up in the list;
     * when found the reader closes onto the audio tab and, with a player attached, its
     * track is returned for playing. With no page, no truthy surah number or no such
     * surah nothing changes; a page without ayahs makes the handler throw, which changes
     * nothing either.
     */
    method PlayCurrentSurahAudio(hasPlayer: bool) returns (track: Option<AudioTrack>)
      requires Valid()
      modifies this`readingMode, this`activeTab
      ensures Valid()
      ensures var found := PageSurah(old(pageData), old(surahs));
              && (found.Some? ==> !readingMode && activeTab == AudioTab
                                  && track == (if hasPlayer then Some(SurahTrack(found.value)) else None))
              && (found.None? ==> readingMode == old(readingMode) && activeTab == old(activeTab) && track.None?)
    {
      var s := PageSurah(pageData, surahs);
      track := OpenAudioTab(s, hasPlayer);
    }

    /** What a found surah does: the reader closes onto the audio tab, and its track goes out when a player is attached. */
    method OpenAudioTab(found: Option<SurahBasic>, hasPlayer: bool) returns (track: Option<AudioTrack>)
      modifies this`readingMode, this`activeTab
      ensures found.Some? ==> !readingMode && activeTab == AudioTab
                              && track == (if hasPlayer then Some(SurahTrack(found.value)) else None)
      ensures found.None? ==> readingMode == old(readingMode) && activeTab == old(activeTab) && track.None?
    {
      track := None;
      if found.Some? {
        readingMode := false;
        activeTab := AudioTab;
        if hasPlayer {
          track := Some(SurahTrack(found.value));
        }
      }
    }
  }
}
