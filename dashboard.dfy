/**
 * components/Dashboard.tsx: the greeting chosen by the clock hour, the next-prayer card,
 * and the location search panel (city search gate, city selection, current position).
 */
module Dashboard {
  import opened Js
  import opened Types
  import opened ApiCache
  import opened PrayerStrip

  /** The three dashboard titles of constants.ts. */
  datatype Greeting = Morning | Afternoon | Evening {
    function Text(): string
    {
      match this
      case Morning => "إشراقة جديدة.. اصنع أثرك."
      case Afternoon => "واصل السعي.. أنت في الطريق."
      case Evening => "هدوء المساء.. وقت الامتنان."
    }
  }

  /**
   * The greeting for a clock hour: morning, replaced by afternoon from 12 to 17, then by
   * evening from 17 on.
   */
  method ChooseGreeting(hour: int) returns (greeting: Greeting)
    ensures hour < 12 <==> greeting == Greeting.Morning
    ensures 12 <= hour < 17 <==> greeting == Greeting.Afternoon
    ensures hour >= 17 <==> greeting == Greeting.Evening
  {
    greeting := Greeting.Morning;
    if hour >= 12 && hour < 17 {
      greeting := Greeting.Afternoon;
    }
    if hour >= 17 {
      greeting := Greeting.Evening;
    }
  }

  /** The next-prayer card: which prayer, and its formatted time. */
  datatype NextPrayer = NextPrayer(prayer: Prayer, time: string)

  /** The card for one prayer, or None when formatting its time throws. */
  function Card(p: Prayer, raw: string): Option<NextPrayer>
  {
    match SlotTime(raw)
    case None => None
    case Some(time) => Some(NextPrayer(p, time))
  }

  /** The card for the prayer the strip highlights at `hour`. */
  function NextPrayerCard(t: Timings, hour: int): Option<NextPrayer>
  {
    Card(PRAYER_ORDER[NextIndex(hour)], t.Get(PRAYER_ORDER[NextIndex(hour)]))
  }

  /**
   * The if-chain of `loadData`: the card for the prayer whose hour bucket holds `hour`,
   * which is the one the strip highlights. Only that prayer's time is formatted, so only
   * that time can make it throw (None).
   */
  method ChooseNextPrayer(t: Timings, hour: int) returns (card: Option<NextPrayer>)
    ensures card == NextPrayerCard(t, hour)
    ensures card.None? <==> SlotTime(t.Get(PRAYER_ORDER[NextIndex(hour)])).None?
    ensures card.Some? ==> card.value.prayer == PRAYER_ORDER[NextIndex(hour)]
    ensures card.Some? ==> Some(card.value.time) == SlotTime(t.Get(card.value.prayer))
  {
    if hour < 5 {
      card := Card(Fajr, t.fajr);
    } else if hour < 12 {
      card := Card(Dhuhr, t.dhuhr);
    } else if hour < 15 {
      card := Card(Asr, t.asr);
    } else if hour < 18 {
      card := Card(Maghrib, t.maghrib);
    } else if hour < 20 {
      card := Card(Isha, t.isha);
    } else {
      card := Card(Fajr, t.fajr);
    }
  }

  /**
   * The card and the strip agree: whenever the strip has entries, the card exists and
   * names the highlighted entry with its time.
   */
  lemma CardMatchesStrip(t: Timings, hour: int)
    requires StripEntries(t, hour).Some?
    ensures NextPrayerCard(t, hour).Some?
    ensures var e := StripEntries(t, hour).value;
            var card := NextPrayerCard(t, hour).value;
            exists k | 0 <= k < 5 ::
              e[k].isNext && e[k].name == card.prayer.ArabicName() && e[k].time == card.time
  {
    var e := StripEntries(t, hour).value;
    var i := NextIndex(hour);
    EntriesDefined(t);
    assert SlotTime(t.Get(PRAYER_ORDER[i])).Some?;
    assert e[i].isNext;
  }

  /** A search result of `searchCities`. */
  datatype City = City(name: string, lat: real, lng: real, country: string)

  /**
   * The card shown after a load that yielded `data`: the next prayer's card, or the
   * previous card when there is no data or its time makes formatting throw.
   */
  function CardAfter(data: Option<PrayerData>, hour: int, previous: Option<NextPrayer>): (r: Option<NextPrayer>)
    ensures r != previous ==>
      && r.Some? && r.value.prayer == PRAYER_ORDER[NextIndex(hour)]
      && data.Some? && Some(r.value.time) == SlotTime(data.value.timings.Get(r.value.prayer))
    ensures data.Some? && NextPrayerCard(data.value.timings, hour).Some? ==>
      r == NextPrayerCard(data.value.timings, hour)
    ensures data.None? || NextPrayerCard(data.value.timings, hour).None? ==> r == previous
  {
    if data.Some? && NextPrayerCard(data.value.timings, hour).Some? then NextPrayerCard(data.value.timings, hour) else previous
  }

  /** The dashboard's state, with the location it shares with the rest of the application. */
  class DashboardView {
    var location: UserLocation
    var showSearch: bool
    var searchQuery: string
    var searchResults: seq<City>
    var isSearching: bool
    var nextPrayer: Option<NextPrayer>

    constructor (location: UserLocation)
      ensures this.location == location
      ensures !showSearch && searchQuery == "" && searchResults == [] && !isSearching && nextPrayer.None?
    {
      this.location := location;
      showSearch, searchQuery, searchResults, isSearching, nextPrayer := false, "", [], false, None;
    }

    /**
     * The next-prayer half of `loadData`. A fetch that yields nothing, or a time that makes
     * formatting throw, leaves the previous card in place.
     */
    method LoadNextPrayer(store: LocalStore, fetchTime: LocalTime, hour: int, remote: Remote<PrayerData>)
      requires store.Valid()
      modifies this, store
      ensures store.Valid()
      ensures var f := PrayerCall(old(store.items), location.lat, location.lng, fetchTime, remote);
              && store.items == f.items
              && nextPrayer == CardAfter(f.value, hour, old(nextPrayer))
      ensures location == old(location) && showSearch == old(showSearch) && searchQuery == old(searchQuery)
      ensures searchResults == old(searchResults) && isSearching == old(isSearching)
    {
      var data, _ := store.FetchPrayerTimesByCoords(location.lat, location.lng, fetchTime, remote);
      ShowNextPrayer(data, hour);
    }

    /** Puts the card for `data` in place, unless there is no data or no card. */
    method ShowNextPrayer(data: Option<PrayerData>, hour: int)
      modifies this`nextPrayer
      ensures nextPrayer == CardAfter(data, hour, old(nextPrayer))
    {
      if data.Some? {
        var card := ChooseNextPrayer(data.value.timings, hour);
        if card.None? {
          return;
        }
        nextPrayer := card;
      }
    }

    /** The location button opens the search panel; its backdrop and close button shut it. */
    method SetShowSearch(show: bool)
      modifies this
      ensures showSearch == show
      ensures location == old(location) && searchQuery == old(searchQuery) && searchResults == old(searchResults)
      ensures isSearching == old(isSearching) && nextPrayer == old(nextPrayer)
    {
      showSearch := show;
    }

    /** Typing in the search box. */
    method SetSearchQuery(query: string)
      modifies this
      ensures searchQuery == query
      ensures location == old(location) && showSearch == old(showSearch) && searchResults == old(searchResults)
      ensures isSearching == old(isSearching) && nextPrayer == old(nextPrayer)
    {
      searchQuery := query;
    }

    /**
     * The debounced search for the current query: a query longer than one character is
     * sent and its `results` shown; anything shorter clears the results without a search.
     * Returns whether a search was issued.
     */
    method SearchTick(results: seq<City>) returns (searched: bool)
      modifies this
      ensures searched <==> Utf16Length(searchQuery) > 1
      ensures searchResults == (if searched then results else [])
      ensures searched ==> !isSearching
      ensures !searched ==> isSearching == old(isSearching)
      ensures location == old(location) && showSearch == old(showSearch) && searchQuery == old(searchQuery)
      ensures nextPrayer == old(nextPrayer)
    {
      if Utf16Length(searchQuery) > 1 {
        isSearching := true;
        searchResults := results;
        isSearching := false;
        searched := true;
      } else {
        searchResults := [];
        searched := false;
      }
    }

    /** Choosing a search result: a manual location, and the search closes and clears. */
    method HandleCitySelect(city: City)
      modifies this
      ensures location == UserLocation(city.lat, city.lng, city.name, false)
      ensures !showSearch && searchQuery == ""
      ensures searchResults == old(searchResults) && isSearching == old(isSearching)
      ensures nextPrayer == old(nextPrayer)
    {
      location := UserLocation(city.lat, city.lng, city.name, false);
      showSearch := false;
      searchQuery := "";
    }

    /**
     * The "use my location" button: with geolocation available the spinner starts and a
     * position is requested; without it nothing happens.
     */
    method HandleUseCurrentLocation(geolocationAvailable: bool)
      modifies this
      ensures isSearching == (geolocationAvailable || old(isSearching))
      ensures location == old(location) && showSearch == old(showSearch) && searchQuery == old(searchQuery)
      ensures searchResults == old(searchResults) && nextPrayer == old(nextPrayer)
    {
      if geolocationAvailable {
        isSearching := true;
      }
    }

    /** The position callback: the GPS coordinates and their place name become an automatic location. */
    method OnPosition(latitude: real, longitude: real, cityName: string)
      modifies this
      ensures location == UserLocation(latitude, longitude, cityName, true)
      ensures !showSearch && !isSearching
      ensures searchQuery == old(searchQuery) && searchResults == old(searchResults)
      ensures nextPrayer == old(nextPrayer)
    {
      location := UserLocation(latitude, longitude, cityName, true);
      showSearch := false;
      isSearching := false;
    }

    /** The error callback: only the spinner stops. */
    method OnPositionError()
      modifies this
      ensures !isSearching
      ensures location == old(location) && showSearch == old(showSearch) && searchQuery == old(searchQuery)
      ensures searchResults == old(searchResults) && nextPrayer == old(nextPrayer)
    {
      isSearching := false;
    }
  }
}
