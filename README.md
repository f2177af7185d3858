# Sakina: a verified model of the app's decision logic

Sakina is a React/TypeScript app for daily Muslim practice. It has:

- a Quran reader and a surah list;
- recitation players;
- the five daily prayer times, with a "next prayer" highlight;
- a Qibla compass;
- a remembrance (adhkar) counter;
- an adhan settings screen;
- a service worker that keeps the app shell available offline.

This project models the logic behind those screens in Dafny, one module per source file:

| module | source file | what it models |
|---|---|---|
| `Js` | (shared) | the JavaScript behaviour the code relies on: truthiness, `Number`, `parseInt`, `toString`, `padStart`, `%` on angles, `split(...)[0]`, `includes`, `replace`, `trim`, `toLowerCase` |
| `Types` | `types.ts` | the record shapes as datatypes |
| `Media` | (shared) | the `HTMLAudioElement` each player drives: `src`, `paused`, `currentTime`, with `load`, `play` and `pause` |
| `Api` | `utils/api.ts` | the pure helpers and the cache keys |
| `ApiCache` | `utils/api.ts` | the cache-first fetches over a `localStorage`-like store |
| `ServiceWorker` | `sw.js` | install, activate and fetch over the named caches |
| `PrayerStrip` | `components/PrayerStrip.tsx` | the five entries and the hour-bucket highlight |
| `Dashboard` | `components/Dashboard.tsx` | greeting, next-prayer card, city search and location handlers |
| `QiblaCompass` | `components/QiblaCompass.tsx` | bearing normalisation, alignment, marker angle and the heading tracker |
| `QuranFull` | `components/QuranFull.tsx` | the reader's page bounds, bookmark, search filter, Bismillah stripping and surah audio |
| `App` | `App.tsx` | the global playback record, the view and navigation parameters |
| `PrayersView` | `components/PrayersView.tsx` | adhan settings, the unhighlighted prayer list and the adhan test |
| `AdhkarView` | `components/AdhkarView.tsx` | the category filter and the capped tap counter |
| `QuranPlayer` | `components/QuranPlayer.tsx` | the single active recitation segment |

How the model is built:

- **Screens are classes.** Each screen's React state is a class whose fields are the `useState` variables. Each handler or effect is a method whose `modifies` clause names only what it may change: the fields it sets, or the whole object when its `ensures` lists what stays unchanged. Its `ensures` gives the new state.
- **Decisions are pure functions.** Each decision inside a handler is a function, and the lemmas are about that function. The method's `ensures` ties the new state to the function.
- **The outside world is a parameter.** This covers:
  - the network reply (`Remote`: a network failure, or a reply with its `ok` flag and its body);
  - the clock reading (hour, day, month, year);
  - the outcome of `play()` (`PlayOutcome`: resolved, rejected, a synchronous throw, or no promise);
  - the geolocation result;
  - the raw Qibla angle.
- **Storage is a class.** `localStorage` is `ApiCache.LocalStore`, whose one field is a map from keys to stored items. Its invariant `Valid()` says what may be stored under each kind of key.
- **The service worker is pure.** Its cache storage is a value, `ServiceWorker.CacheStorage`, holding cache names in creation order and a map of caches. `ServiceWorker.Worker` holds that value and updates it.
- **Some code paths throw.** `formatTime12H` throws on a non-empty time without ':', because its minutes are then `undefined`. The model returns `None` there, and each caller keeps the state it had at that point.

Where the code and its design notes disagree, the model follows the code:

- `fetchSurahList` and `fetchPrayerTimesByCoords` never look at `response.ok`. A reply with an error status is cached like any other. Only `fetchQuranPage` checks `ok`.
- `isAligned` uses strict bounds: `< 5` and `> 355`.
- The Qibla calibration latch closes on either source: the compass field or `alpha`.
- A time that makes `formatTime12H` throw aborts `loadPrayers` in the prayer strip before `setLoading(false)`, so `loading` stays true.
- `playTrack` in `App.tsx`: when `play()` throws synchronously, or returns no promise to attach `catch` to, the state update after it is skipped.
- `SURAH_START_PAGES[n] || 1`: a surah number outside 1..114 opens page 1.
- The two Bismillah spellings differ in the order of the shadda and the fatha on the lam of "Allah" and on the ra of "ar-Rahman" and "ar-Rahim".

## Model

| member | source | states |
|---|---|---|
| Js.ParseInt | components/QuranPlayer.tsx:23 | `parseInt` gives NaN exactly when the text is empty or does not start with a digit |
| Js.ParseIntOfNatToString | components/QuranFull.tsx:46 | `parseInt` reads back any number's decimal text as that number |
| Js.NatToStringValue | utils/api.ts:183 | the decimal text of `n` has digit value `n` |
| Js.NatToStringInjective | utils/api.ts:80 | two numbers have the same decimal text exactly when they are equal |
| Js.ToNumber | utils/api.ts:196 | `Number(s)` is an integer exactly when the trimmed text is digits with an optional sign (blank text gives 0), and NaN otherwise; digit text gives its value, and a negative result comes from a leading '-' |
| Js.ToNumberOfNumberToString | utils/api.ts:196 | `Number(x.toString())` gives every integer back |
| Js.PadStart | utils/api.ts:183 | `padStart(n, c)` keeps the text as a suffix, pads to length `n` and fills only with `c` |
| Js.ZeroPadValue | utils/api.ts:199 | zero padding keeps the digits' value |
| Js.Rem360 | components/QiblaCompass.tsx:65 | `% 360` on a non-negative angle lands in [0, 360) and is the identity below 360 |
| Js.BeforeFirst | components/PrayerStrip.tsx:22 | `split(c)[0]` is the longest prefix without `c`, followed by `c` when shorter than the text |
| Js.IndexOf | components/QuranFull.tsx:211 | the first position where the pattern occurs, or none when it occurs nowhere |
| Js.TrimStart | components/QuranFull.tsx:211 | removes a prefix made only of white space, and what is left is a suffix of the text starting with a non-space |
| Js.TrimEnd | components/QuranFull.tsx:211 | removes a suffix made only of white space, and what is left is a prefix of the text ending with a non-space |
| Js.Utf16Length | components/Dashboard.tsx:85 | `length` counts each character once, or twice outside the Basic Multilingual Plane, and equals the character count exactly when every character is in that plane |
| Js.ToLower | components/QuranFull.tsx:64 | lower-casing keeps the length |
| Types.EnabledPrayers.With | components/PrayersView.tsx:40 | `{...flags, [key]: v}` sets flag `key` to `v` and keeps every other flag |
| Api.SurahStartPagesTable | utils/api.ts:9-22 | the table has exactly the keys 1..114; surah 1 starts on page 1 and surah 114 on page 604; every page is in 1..604; pages never decrease as the surah number grows |
| Api.SurahStartPage | components/QuranFull.tsx:34 | `SURAH_START_PAGES[n] \|\| 1` is the table's page for a known surah and page 1 otherwise, always in 1..604 |
| Api.ReplaceDigits | utils/api.ts:30 | each ASCII digit d becomes the d-th Eastern Arabic digit; every other character is kept; the length is kept |
| Api.ToArabicNumerals | utils/api.ts:25-31 | null or undefined gives ""; otherwise the length is kept and no ASCII digit remains |
| Api.ArabicNumeralsRoundTrip | utils/api.ts:25-31 | on text with no Eastern digits, mapping Eastern digits back undoes the conversion |
| Api.RemoveDiacritics | utils/api.ts:37 | the result is a subsequence of the input with no listed mark, and holds every other character exactly as often as the input does |
| Api.RemoveDiacriticsKeeps | utils/api.ts:37 | text without marks passes through unchanged |
| Api.ReplaceChars | utils/api.ts:38-40 | a global character-class replace maps each listed character and keeps the rest, position by position |
| Api.FoldsNormalize | utils/api.ts:38-40 | after the three letter folds, text without marks contains no mark and none of أ إ آ ى ة |
| Api.NormalizeArabic | utils/api.ts:34-42 | the output is normalised (no listed mark, none of أ إ آ ى ة) and no longer than the input |
| Api.NormalizeFixedPoint | utils/api.ts:34-42 | normalising leaves a text unchanged exactly when it is already normalised |
| Api.NormalizeIdempotent | utils/api.ts:34-42 | normalising twice gives what normalising once gives |
| Api.FormatTime12H | utils/api.ts:194-200 | empty input gives ""; the call throws exactly when a non-empty input has no ':' |
| Api.Hours12Range | utils/api.ts:198 | `hours % 12 \|\| 12` lies in 1..12, agrees with the hour mod 12, and gives back the 24-hour clock with the suffix |
| Api.FormatClock | utils/api.ts:194-200 | for `H:MM`, the shown hour is `H % 12` or 12, the minutes are zero-padded to two digits, both are in Eastern digits, and the suffix is 'م' exactly when H ≥ 12 |
| Api.FormatSplit | utils/api.ts:196 | on `a:b`, the hours and minutes are `Number(a)` and `Number(b)` |
| Api.PaddedNumber | utils/api.ts:199 | `Number` reads a zero-padded number back, and the padded text has no ':' |
| Api.AudioUrlDigits | utils/api.ts:182-185 | for a surah number below 1000 the URL is the prefix, exactly three digits with that value, then ".mp3" |
| Api.WeatherBandsSeparated | utils/api.ts:168-176 | the code bands are ordered and disjoint, so at most one applies |
| Api.WeatherFromTable | utils/api.ts:168-176 | the description is the one of the band holding the code, and 'معتدل' when no band holds it |
| Api.FixedHundredthsInjective | utils/api.ts:144 | `toFixed(2)` texts of two hundredths counts are equal exactly when the counts are |
| Api.ToFixed2Equal | utils/api.ts:144 | two coordinates print alike to 2 places exactly when they round to the same hundredths with the same sign |
| Api.PrayerCacheKeyInjective | utils/api.ts:144 | two prayer keys are equal exactly when both coordinates agree to 2 places and the day and month agree; the year plays no part |
| Api.PrayerCacheKeyBuckets | utils/api.ts:144 | any two fixes that round to the same hundredths on the same side of zero share a key on the same day and month, whatever the year |
| Api.PrayerCacheKeyExample | utils/api.ts:144 | an example: 21.4219, 39.8267 and 21.42, 39.83 share a key on the same day |
| ApiCache.SurahListCall | utils/api.ts:58-77 | a stored list is returned with no request and no write; a network failure returns [] and writes nothing; any reply is stored and returned |
| ApiCache.PageCall | utils/api.ts:79-102 | a stored page is returned with no request; an `ok` reply is stored as `{number, ayahs, surahs: {}}` under `quran_page_<n>`; a failure or an error status returns null and writes nothing |
| ApiCache.PrayerCall | utils/api.ts:141-156 | a stored day is returned with no request; a network failure returns null and writes nothing; any reply is stored under the prayer key and returned |
| ApiCache.PageCacheKeyInjective | utils/api.ts:80 | two pages share a cache key only when they are the same page |
| ApiCache.SurahListServedFromCache | utils/api.ts:60-66 | after one reply, the next call is served from the store with no request |
| ApiCache.SurahListStoresErrorReply | utils/api.ts:69-72 | a reply with an error status is cached too and served from then on |
| ApiCache.SurahListRetriesAfterFailure | utils/api.ts:73-76 | after a network failure the next call goes to the network again |
| ApiCache.PageServedFromCache | utils/api.ts:81-97 | a page stored by an `ok` reply is served from the store afterwards |
| ApiCache.PageErrorNotStored | utils/api.ts:88 | an error status stores nothing, so the next call asks the network again |
| ApiCache.PageCallKeepsOtherPages | utils/api.ts:80-96 | loading one page never adds, removes or changes another page's entry |
| ApiCache.PrayersServedAcrossYears | utils/api.ts:144-146 | timings fetched on a day are served without a request on the same day and month of any other year, at any coordinates that round alike |
| ApiCache.LocalStore.GetItem | components/QuranFull.tsx:45 | `getItem` gives text exactly for a key holding a raw string, and that text is the stored one |
| ApiCache.LocalStore.SetItem | components/QuranFull.tsx:101 | `setItem` stores the text under the key and keeps the store valid |
| ApiCache.LocalStore.RemoveItem | components/QuranFull.tsx:98 | `removeItem` drops the key and nothing else |
| ApiCache.LocalStore.FetchSurahList | utils/api.ts:58-77 | the result and the new store are those of `SurahListCall` |
| ApiCache.LocalStore.FetchQuranPage | utils/api.ts:79-102 | the result and the new store are those of `PageCall` |
| ApiCache.LocalStore.FetchPrayerTimesByCoords | utils/api.ts:141-156 | the result and the new store are those of `PrayerCall` |
| ServiceWorker.CacheStorage.Open | sw.js:14 | `caches.open` returns an existing cache unchanged, or appends a new empty one |
| ServiceWorker.CacheStorage.Put | sw.js:56 | `cache.put` sets one entry of one cache and changes nothing else |
| ServiceWorker.CacheStorage.Match | sw.js:48 | `caches.match` finds a response exactly for a GET whose URL is in some cache, and that response comes from a cache |
| ServiceWorker.InstallStep | sw.js:12-17 | the shell cache exists afterwards; install succeeds exactly when every asset reply arrived with a 2xx status other than 206; then '/', '/index.html' and '/manifest.json' hold those replies; otherwise only the empty open happened; other caches are untouched |
| ServiceWorker.InstallKeepsOtherEntries | sw.js:12-17 | a successful install changes the shell cache only under the three shell requests: every other entry is kept as it was, and none is added |
| ServiceWorker.Kept | sw.js:26-29 | the kept names are exactly the current two among the existing names |
| ServiceWorker.KeptDistinct | sw.js:26-29 | keeping names never introduces duplicates |
| ServiceWorker.KeptIdempotent | sw.js:26-29 | filtering twice keeps what filtering once keeps |
| ServiceWorker.ActivatedKeepsCurrent | sw.js:22-33 | after activation only the two current caches can remain, each with its contents, and a second activation changes nothing |
| ServiceWorker.FetchStep | sw.js:38-67 | '/api' paths pass through untouched; a cache hit is served as is; a network reply is served and stored in the dynamic cache only for a GET with status 200; when the network fails, an HTML request gets the cached '/index.html' and any other request gets a network error |
| ServiceWorker.StoredResponseIsServed | sw.js:48-59 | a GET answered 200 from the network is served from the cache the next time, whatever the network does |
| ServiceWorker.NonGetNeverCached | sw.js:55 | a non-GET request never changes any existing cache, and its network reply is returned |
| ServiceWorker.OfflineNavigationGetsShell | sw.js:60-64 | after a successful install, an offline HTML navigation to an uncached URL gets the installed '/index.html' |
| ServiceWorker.Worker.Install | sw.js:12-19 | the worker's storage and result are those of `InstallStep` |
| ServiceWorker.Worker.Activate | sw.js:22-35 | the loop over `caches.keys()` that deletes stale caches leaves exactly the activated storage |
| ServiceWorker.Worker.HandleFetch | sw.js:38-67 | the worker's storage and outcome are those of `FetchStep` |
| PrayerStrip.NextIndex | components/PrayerStrip.tsx:32-37 | the highlighted slot is the first of 5, 12, 15, 18, 20 above the hour, and Fajr from 20 on |
| PrayerStrip.SlotTime | components/PrayerStrip.tsx:22 | formatting the timing up to its first space throws exactly when that part is non-empty and has no ':' |
| PrayerStrip.Entries | components/PrayerStrip.tsx:21-27 | five entries in the order Fajr, Dhuhr, Asr, Maghrib, Isha, each with its Arabic name and formatted time, none highlighted |
| PrayerStrip.EntriesDefined | components/PrayerStrip.tsx:21-27 | the entries exist exactly when none of the five times makes formatting throw |
| PrayerStrip.StripEntries | components/PrayerStrip.tsx:21-37 | the same five entries, and exactly the one at the hour's slot is highlighted |
| PrayerStrip.HighlightIgnoresTimings | components/PrayerStrip.tsx:30-37 | which entry is highlighted depends on the hour only, and exactly one is |
| PrayerStrip.MarkNext | components/PrayerStrip.tsx:32-37 | the in-place marking sets `isNext` on the hour's slot and changes nothing else in the array |
| PrayerStrip.BuildPrayers | components/PrayerStrip.tsx:21-37 | building the array and then marking it gives the highlighted entries |
| PrayerStrip.Strip.LoadPrayers | components/PrayerStrip.tsx:15-42 | the store follows the prayer fetch; no data keeps the list and ends loading; data shows the highlighted entries and ends loading; a formatting throw keeps the list and leaves loading on |
| Dashboard.ChooseGreeting | components/Dashboard.tsx:25-28 | morning before 12, afternoon from 12 to before 17, evening from 17 on |
| Dashboard.ChooseNextPrayer | components/Dashboard.tsx:66-73 | the card is for the prayer in the hour's slot, with that prayer's formatted time; there is no card exactly when formatting that time throws |
| Dashboard.CardMatchesStrip | components/Dashboard.tsx:66-73 | the card names the entry the strip highlights, with the same time |
| Dashboard.CardAfter | components/Dashboard.tsx:63-77 | data whose times format replaces the card with the hour's prayer and its time; no data, or a time that throws, keeps the previous card; a changed card always comes from the data |
| Dashboard.DashboardView.LoadNextPrayer | components/Dashboard.tsx:63-77 | the store follows the prayer fetch, and the card becomes `CardAfter` of the fetched data; no other field changes |
| Dashboard.DashboardView.SetShowSearch | components/Dashboard.tsx:218 | opening or closing the panel changes only `showSearch` |
| Dashboard.DashboardView.SetSearchQuery | components/Dashboard.tsx:153 | typing changes only the query |
| Dashboard.DashboardView.SearchTick | components/Dashboard.tsx:83-95 | a search runs exactly when the query is longer than one UTF-16 unit; its results are shown; otherwise the results are cleared |
| Dashboard.DashboardView.HandleCitySelect | components/Dashboard.tsx:97-106 | the location becomes the city's coordinates and name with `isAuto` false; the panel closes and the query clears |
| Dashboard.DashboardView.HandleUseCurrentLocation | components/Dashboard.tsx:108-110 | with geolocation available the search spinner starts; otherwise nothing changes |
| Dashboard.DashboardView.OnPosition | components/Dashboard.tsx:111-121 | the location becomes the GPS position with `isAuto` true; the panel closes and the spinner stops |
| Dashboard.DashboardView.OnPositionError | components/Dashboard.tsx:122-125 | only the spinner stops |
| QiblaCompass.CalculateQibla | components/QiblaCompass.tsx:36 | `(q + 360) % 360` maps any angle above -360 into [0, 360), and an angle in (-360, 360) to itself or itself plus 360 |
| QiblaCompass.IsAligned | components/QiblaCompass.tsx:76 | aligned exactly when the difference is strictly below 5 or strictly above 355; on [0, 360) that is a circular distance below 5 |
| QiblaCompass.AlignedSymmetric | components/QiblaCompass.tsx:76 | alignment is symmetric in heading and bearing |
| QiblaCompass.MarkerAngle | components/QiblaCompass.tsx:79 | for angles in [0, 360) the marker angle is in [0, 360), carries the heading onto the bearing, and is 0 exactly when they are equal |
| QiblaCompass.AlignedIffMarkerNearTop | components/QiblaCompass.tsx:76-79 | aligned exactly when the marker is within 5 degrees of the top |
| QiblaCompass.AfterSample | components/QiblaCompass.tsx:43-55 | a truthy compass field wins, then `360 - alpha`, else heading 0; the latch closes on either source and never opens |
| QiblaCompass.AfterTick | components/QiblaCompass.tsx:64-66 | only while uncalibrated, the heading moves on by 0.2 modulo 360; it stays in [0, 360) |
| QiblaCompass.LatchNeverOpens | components/QiblaCompass.tsx:49-52 | once calibrated, no run of events uncalibrates |
| QiblaCompass.CalibratedIffSomeReading | components/QiblaCompass.tsx:43-55 | after a run of events the compass is calibrated exactly when it was already, or some sample carried a truthy source |
| QiblaCompass.HeadingStaysInRange | components/QiblaCompass.tsx:43-66 | with well-formed samples, the heading stays in [0, 360) through any run of samples and ticks |
| QiblaCompass.Compass.Mount | components/QiblaCompass.tsx:39-61 | the bearing is normalised; without sensor support the error message is set and no listener is added; the tracker is untouched |
| QiblaCompass.Compass.HandleOrientation | components/QiblaCompass.tsx:43-55 | the tracker becomes `AfterSample` of the event |
| QiblaCompass.Compass.Tick | components/QiblaCompass.tsx:64-66 | the tracker becomes `AfterTick` |
| QuranFull.SelectFacts | components/QuranFull.tsx:64-70 | the filtered list holds exactly the surahs whose normalised name or lower-cased English name contains the key, in their original order, each as often as in the list |
| QuranFull.SelectCounts | components/QuranFull.tsx:64-70 | each matching surah occurs in the result as often as in the list, and no other surah occurs |
| QuranFull.EmptyKeySelectsAll | components/QuranFull.tsx:60-62 | an empty key keeps every surah |
| QuranFull.StripPrefixes | components/QuranFull.tsx:209-214 | the loop over the spellings removes the first one the text starts with and trims, or leaves the text alone |
| QuranFull.StripBismillah | components/QuranFull.tsx:199-215 | the shown text of an ayah is the displayed text: stripped only for the first ayah of a surah other than 1 and 9 |
| QuranFull.VariantsDiffer | components/QuranFull.tsx:205-208 | the two spellings have 38 characters each and differ exactly at positions 10-11, 18-19 and 31-32, where the shadda and the fatha swap places |
| QuranFull.StripFirstPrefixRoundTrip | components/QuranFull.tsx:209-214 | a spelling, a space and a trimmed body strip back to the body |
| QuranFull.StripRoundTrip | components/QuranFull.tsx:201-215 | an opening ayah written as either Bismillah, a space and a trimmed body shows exactly the body |
| QuranFull.FindSurah | components/QuranFull.tsx:121 | `find` returns a listed surah with that number, or nothing exactly when none has it |
| QuranFull.FindSurahIsFirst | components/QuranFull.tsx:121 | the surah found is the first with that number |
| QuranFull.PageSurah | components/QuranFull.tsx:118-121 | a surah is offered only for a page whose first ayah names it, and then it is a listed surah with that number; whenever the number is truthy and listed, one is offered |
| QuranFull.SurahTrack | components/QuranFull.tsx:105-115 | the track carries the surah number, the default reciter and that reciter's URL for the surah |
| QuranFull.BookmarkUnaffected | components/QuranFull.tsx:45-46 | writing any other storage key leaves the stored bookmark as it was |
| QuranFull.SurahListKeepsBookmark | components/QuranFull.tsx:44-57 | the surah-list fetch never changes the stored bookmark |
| QuranFull.QuranScreen.ApplyInitialParams | components/QuranFull.tsx:32-42 | a non-zero surah id outside audio mode opens the reader at its start page with the suggestion; audio mode selects the audio tab; its frame lets nothing else change |
| QuranFull.QuranScreen.ReadBookmark | components/QuranFull.tsx:45-46 | the bookmark becomes `parseInt` of the saved text, when there is one; nothing else changes |
| QuranFull.QuranScreen.Mount | components/QuranFull.tsx:44-57 | the bookmark matches storage; a non-empty fetched list replaces both lists; loading ends; the term, page, tab and reader fields are not touched |
| QuranFull.QuranScreen.SetSearchTerm | components/QuranFull.tsx:311 | typing changes only the term |
| QuranFull.QuranScreen.FilterEffect | components/QuranFull.tsx:59-71 | the shown list becomes all surahs for an empty term, and otherwise the matches for its key; nothing else changes |
| QuranFull.QuranScreen.LoadPage | components/QuranFull.tsx:73-83 | in reading mode the page shown and the store are those of the page fetch and the page spinner ends off; outside reading mode nothing changes; only the page, the spinner and the store may change |
| QuranFull.QuranScreen.HandleSurahClick | components/QuranFull.tsx:85-90 | the page becomes the surah's start page (1 when unknown), in 1..604; reading mode opens without the suggestion; nothing else changes |
| QuranFull.QuranScreen.HandleNextPage | components/QuranFull.tsx:92 | one page forward except on page 604; the page stays in 1..604; only the page changes |
| QuranFull.QuranScreen.HandlePrevPage | components/QuranFull.tsx:93 | one page back except on page 1; the page stays in 1..604; only the page changes |
| QuranFull.QuranScreen.ToggleBookmark | components/QuranFull.tsx:95-103 | a bookmark on this page is cleared and removed from storage; otherwise this page is bookmarked and saved; state and storage agree afterwards; only the bookmark and the store change |
| QuranFull.QuranScreen.ResumeBookmark | components/QuranFull.tsx:322 | a truthy bookmark opens the reader at its page; otherwise nothing changes; only the page and reading mode may change |
| QuranFull.QuranScreen.CloseReader | components/QuranFull.tsx:150 | reading mode closes, and nothing else changes |
| QuranFull.QuranScreen.SelectTab | components/QuranFull.tsx:293-299 | only the tab changes |
| QuranFull.QuranScreen.DismissSuggestion | components/QuranFull.tsx:277 | only the suggestion hides |
| QuranFull.QuranScreen.PlayCurrentSurahAudio | components/QuranFull.tsx:117-128 | when the first ayah's surah is in the list, the reader closes, the audio tab opens and its track goes to the player if there is one; otherwise nothing changes; only reading mode and the tab may change |
| App.AfterPlayTrack | App.tsx:27-51 | the current track, or a throw before the update, leaves the record; a new track becomes current and playing at progress 0, with duration and position kept |
| App.Closed | App.tsx:62-68 | no track, not playing, progress 0; duration and position kept |
| App.CloseForgetsTrack | App.tsx:27-68 | playing a track and then closing ends where closing alone ends |
| App.ReplayKeepsState | App.tsx:31-38 | playing the current track again leaves the record alone |
| App.AfterEvent | App.tsx:85-87 | `play` and `pause` only set the playing flag; `ended` also sets progress 100 |
| App.EventsKeepTrack | App.tsx:85-87 | element events never change the track, duration or position, and the flag tells whether the last event was `play` |
| App.Shell.PlayTrack | App.tsx:27-51 | without an element nothing happens; the current track pauses a playing element or plays a paused one (it resumes only when `play()` resolves); a new track is loaded from position 0 and played, and the record follows `AfterPlayTrack` |
| App.Shell.TogglePlay | App.tsx:53-60 | only the element changes: paused while playing, resumed otherwise |
| App.Shell.ClosePlayer | App.tsx:62-68 | the element pauses and rewinds, and the record is closed |
| App.Shell.OnElementEvent | App.tsx:85-87 | the record becomes `AfterEvent` of the event |
| App.Shell.HandleViewChange | App.tsx:128-131 | the view always changes; the parameters change only when given |
| PrayersView.TogglePrayer | components/PrayersView.tsx:37-42 | exactly one flag flips; the voice and the other flags are kept |
| PrayersView.ToggleTwice | components/PrayersView.tsx:37-42 | toggling a prayer twice restores the settings |
| PrayersView.ListIsStripUnhighlighted | components/PrayersView.tsx:23-31 | the list is the strip's entries with the highlight removed |
| PrayersView.TestResult | components/PrayersView.tsx:44-74 | a press while playing stops; otherwise playing starts exactly on a resolved `play()`, and an error shows exactly on a rejection or a throw |
| PrayersView.ListAfter | components/PrayersView.tsx:23-32 | data whose times format replaces the list with its five unhighlighted entries; no data, or a time that throws, keeps the previous list |
| PrayersView.PrayersScreen.LoadPrayers | components/PrayersView.tsx:20-35 | the store follows the prayer fetch, and the list becomes `ListAfter` of the fetched data |
| PrayersView.PrayersScreen.HandleTogglePrayer | components/PrayersView.tsx:37-42 | the settings become `TogglePrayer` of the prayer |
| PrayersView.PrayersScreen.SelectVoice | components/PrayersView.tsx:105-139 | the voice changes, playing stops and the flags are kept; a different voice remounts the keyed element as a fresh, paused, empty one; the same voice keeps the element with its source, paused state and position |
| PrayersView.PrayersScreen.HandlePlayTest | components/PrayersView.tsx:44-74 | without an element nothing happens; a press while playing pauses and rewinds; otherwise the voice's adhan URL is loaded and played; the flag and the error follow `TestResult` |
| PrayersView.PrayersScreen.OnEnded | components/PrayersView.tsx:141 | playing stops |
| PrayersView.PrayersScreen.OnError | components/PrayersView.tsx:142-146 | playing stops and the load-failure message shows |
| AdhkarView.ByCategoryFacts | components/AdhkarView.tsx:14 | the filtered list holds exactly the items of the chosen category, in their original order, each as often as in the list |
| AdhkarView.CurrentCount | components/AdhkarView.tsx:18 | a missing entry counts as 0 |
| AdhkarView.Remaining | components/AdhkarView.tsx:84 | the shown number plus the taps so far is the item's count, and it is at least 1 exactly when the item is not done |
| AdhkarView.TapCounts | components/AdhkarView.tsx:16-22 | a done item keeps the same map; an unfinished item goes up by exactly 1 without passing its count; no other id changes |
| AdhkarView.TapsSaturate | components/AdhkarView.tsx:16-22 | n taps reach the smaller of the count plus n and the item's number, so the counter stops exactly there |
| AdhkarView.AdhkarScreen.SetFilter | components/AdhkarView.tsx:35-46 | only the category changes |
| AdhkarView.AdhkarScreen.HandleTap | components/AdhkarView.tsx:16-22 | the counts become `TapCounts` of the item |
| QuranPlayer.SegmentUrl | components/QuranPlayer.tsx:23-24 | for a surah id written as a number, the URL is the default reciter's file for that number |
| QuranPlayer.AfterClick | components/QuranPlayer.tsx:14-38 | clicking the active segment clears it; any other click makes it active exactly when `play()` does not fail; at most one segment is active |
| QuranPlayer.ClickTwiceStops | components/QuranPlayer.tsx:17-29 | a second click on a segment just started stops it |
| QuranPlayer.Player.HandlePlay | components/QuranPlayer.tsx:14-38 | without an element nothing happens; the active segment is paused; another segment's recitation is loaded from position 0 and played; the active segment follows `AfterClick` |
| QuranPlayer.Player.OnEndedOrError | components/QuranPlayer.tsx:42 | the active segment clears |

## Left out

- The spherical trigonometry of `calculateQibla` is not modelled. It is floating-point `atan2`, `sin`, `cos` and `tan`. The raw angle is a parameter, and only its normalisation is modelled.
- The progress ratio `currentTime / duration * 100 || 0` of the `timeupdate` listener is not modelled. It is float division with a NaN fallback, so the model has no `timeupdate` event.
- Floating point in general: angles and coordinates are exact reals, and NaN is not modelled. `toFixed(2)` rounds half away from zero on exact hundredths. JavaScript's binary rounding at the half-way point is not modelled.
- `fetch`, `response.json()`, `JSON.stringify`/`parse` and the exceptions `localStorage` may throw are not modelled. A reply is either a network failure or a parsed body with its `ok` flag. A malformed body, and a storage quota error, are not modelled.
- `fetchCityName`, `searchCities` and `fetchWeather` are not modelled as requests. Their answers (a city name, a list of cities) arrive as parameters of the handlers that use them.
- Timers and asynchronous order are not modelled:
  - the 500 ms search debounce;
  - the 100 ms compass interval;
  - overlapping fetches;
  - promise ordering.
- Every effect and handler runs to completion as one step. The debounce is one `SearchTick` and the interval is one `Tick`. `play()`'s promise is settled at once, by the `PlayOutcome` parameter.
- The audio element's media transport (buffering, decoding, the actual playing) is not modelled. Only its `src`, `paused` and `currentTime` are.
- `Intl.DateTimeFormat` dates, the online/offline listeners and the geolocation API itself are not modelled. Positions and errors are parameters.
- JSX rendering and styling are not modelled. That includes the reader's night-mode switch, which only restyles the page.
- The text tables of `constants.ts` (`ADHKAR_DATA`, `QURAN_DATA`, `UI_COPY`) are not part of this model. The remembrance list and the surah ids are parameters.
- Dashboard names: the next-prayer card stores the prayer itself, not the misencoded names written in `components/Dashboard.tsx`.
- Js.ToLower: folds ASCII letters only, so the contract states only that the length is kept. JavaScript's full Unicode case mapping is not modelled.
- Js.ToNumber: reads integer text only. Text with a fraction, an exponent, a hexadecimal, octal or binary prefix, or `Infinity` is a number in JavaScript and NaN here, since numbers in this model are integers.
- Api.FormatTime12H: inherits the gap of `Js.ToNumber`. An hour or minute written with a fraction or an exponent is formatted as NaN here. The prayer-times service sends whole "HH:MM" times, which `Api.FormatClock` covers exactly.
- Js.ParseInt: reads leading ASCII digits only. Signs, white space and other radixes are not modelled, since the code only passes surah ids and saved page numbers.
- QuranFull.QuranScreen.ResumeBookmark: does not bound the saved page by 604, because the code does not either.
- QuranFull.QuranScreen.PlayCurrentSurahAudio: a page with no ayahs makes the code throw before any update, and the model changes nothing there.
- QuranFull.QuranScreen.Mount: the filter effect that follows the list update is the separate step `FilterEffect`, as React runs it after the render.
