/**
 * The record shapes of types.ts, plus the few value types the components share
 * (a clock reading, the five prayers, the fetched timings).
 */
module Types {
  import opened Js

  /** The five daily prayers, in the order every list in the application uses. */
  datatype Prayer = Fajr | Dhuhr | Asr | Maghrib | Isha {
    /** The Arabic display name the prayer strip and the prayers view use. */
    function ArabicName(): string
    {
      match this
      case Fajr => "الفجر"
      case Dhuhr => "الظهر"
      case Asr => "العصر"
      case Maghrib => "المغرب"
      case Isha => "العشاء"
    }
  }

  /** Fajr, Dhuhr, Asr, Maghrib, Isha. */
  const PRAYER_ORDER: seq<Prayer> := [Fajr, Dhuhr, Asr, Maghrib, Isha]

  /** `PrayerTime` (the `icon` field is presentation and is left out). */
  datatype PrayerTime = PrayerTime(name: string, time: string, isNext: bool)

  datatype SurahBasic = SurahBasic(
    number: int, name: string, englishName: string,
    englishNameTranslation: string, numberOfAyahs: int, revelationType: string)

  /** The nested `surah` object an ayah carries in the page view (the fields used here). */
  datatype SurahRef = SurahRef(number: int, name: string)

  /** `Ayah` (juz, hizbQuarter and sajda are not used by the core and are left out). */
  datatype Ayah = Ayah(number: int, text: string, numberInSurah: int, page: int, surah: Option<SurahRef>)

  datatype QuranPageData = QuranPageData(number: int, ayahs: seq<Ayah>, surahs: map<int, SurahBasic>)

  datatype Reciter = Reciter(identifier: string, name: string, englishName: string, urlPrefix: string)

  datatype DhikrCategory = Morning | Evening | Sleep | AfterPrayer

  datatype Dhikr = Dhikr(id: string, category: DhikrCategory, text: string, count: int)

  datatype ViewState =
    | ViewDashboard | ViewQuran | ViewQibla | ViewCalendar | ViewProfile | ViewAdhkar | ViewPrayers

  datatype UserLocation = UserLocation(lat: real, lng: real, cityName: string, isAuto: bool)

  datatype Voice = Makkah | Madinah | Aqsa | Egypt

  /** `AdhanSettings.enabledPrayers`: one flag per prayer. */
  datatype EnabledPrayers = EnabledPrayers(fajr: bool, dhuhr: bool, asr: bool, maghrib: bool, isha: bool) {
    function Get(p: Prayer): bool
    {
      match p
      case Fajr => fajr
      case Dhuhr => dhuhr
      case Asr => asr
      case Maghrib => maghrib
      case Isha => isha
    }

    /** `{ ...flags, [p]: v }`: flag `p` becomes `v`, every other flag is kept. */
    function With(p: Prayer, v: bool): (r: EnabledPrayers)
      ensures r.Get(p) == v
      ensures forall q :: q != p ==> r.Get(q) == Get(q)
    {
      match p
      case Fajr => this.(fajr := v)
      case Dhuhr => this.(dhuhr := v)
      case Asr => this.(asr := v)
      case Maghrib => this.(maghrib := v)
      case Isha => this.(isha := v)
    }
  }

  datatype AdhanSettings = AdhanSettings(voice: Voice, enabledPrayers: EnabledPrayers)

  datatype AudioTrack = AudioTrack(
    title: string, subtitle: string, url: string,
    surahNumber: Option<int>, reciterName: Option<string>)

  datatype AudioState = AudioState(
    isPlaying: bool, currentTrack: Option<AudioTrack>,
    progress: real, duration: real, currentTime: real)

  /** A reading of the local clock (`new Date()`): getFullYear, getMonth (0-based), getDate, getHours. */
  datatype LocalTime = LocalTime(year: int, month: nat, day: nat, hours: nat)

  /** The `timings` object of a daily prayer-times response: one "HH:MM (zone)" string per prayer. */
  datatype Timings = Timings(fajr: string, dhuhr: string, asr: string, maghrib: string, isha: string) {
    function Get(p: Prayer): string
    {
      match p
      case Fajr => fajr
      case Dhuhr => dhuhr
      case Asr => asr
      case Maghrib => maghrib
      case Isha => isha
    }
  }

  /** The `data` object of a daily prayer-times response (the part the views read). */
  datatype PrayerData = PrayerData(timings: Timings)
}
