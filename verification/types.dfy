/** The Firestore records the prayer screens and the auto-fetch hooks work on
    (types/index.ts). */
module Types {
  import opened Wrappers

  /** The five daily prayers, in their fixed chronological order. */
  datatype PrayerName = Fajr | Dhuhr | Asr | Maghrib | Isha

  const CanonicalOrder: seq<PrayerName> := [Fajr, Dhuhr, Asr, Maghrib, Isha]

  /** The name the prayer list shows for each prayer. */
  function DisplayName(p: PrayerName): string {
    match p
    case Fajr => "Fajr"
    case Dhuhr => "Dhuhr"
    case Asr => "Asr"
    case Maghrib => "Maghrib"
    case Isha => "Isha"
  }

  /** The `prayerTimes/current` document. The interface declares the ten time
      fields as strings, but the app reads the document with an unchecked cast,
      so any of them may be missing at run time; a missing document spreads as
      an empty object. The field names are the document's keys. */
  datatype PrayerTimes = PrayerTimes(
    fajr_adhan: Option<string>,
    fajr_iqama: Option<string>,
    dhuhr_adhan: Option<string>,
    dhuhr_iqama: Option<string>,
    asr_adhan: Option<string>,
    asr_iqama: Option<string>,
    maghrib_adhan: Option<string>,
    maghrib_iqama: Option<string>,
    isha_adhan: Option<string>,
    isha_iqama: Option<string>,
    last_updated: Option<string>)

  /** What `{ ...undefined }` gives: a record with no fields at all. */
  const EmptyRecord := PrayerTimes(None, None, None, None, None, None, None, None, None, None, None)

  /** The stored adhan time of a prayer. */
  function Adhan(r: PrayerTimes, p: PrayerName): Option<string> {
    match p
    case Fajr => r.fajr_adhan
    case Dhuhr => r.dhuhr_adhan
    case Asr => r.asr_adhan
    case Maghrib => r.maghrib_adhan
    case Isha => r.isha_adhan
  }

  /** The stored iqama time of a prayer (a display string, never computed). */
  function Iqama(r: PrayerTimes, p: PrayerName): Option<string> {
    match p
    case Fajr => r.fajr_iqama
    case Dhuhr => r.dhuhr_iqama
    case Asr => r.asr_iqama
    case Maghrib => r.maghrib_iqama
    case Isha => r.isha_iqama
  }

  /** The `settings/mosque` document. The interface does not declare `latitude`,
      `longitude`, `calculation_method` or `auto_fetch_maghrib`, but both
      auto-fetch hooks read them, so they are optional fields here. */
  datatype MosqueSettings = MosqueSettings(
    name: string,
    address: Option<string>,
    phone: Option<string>,
    email: Option<string>,
    website: Option<string>,
    imam: Option<string>,
    last_updated: Option<string>,
    latitude: Option<real>,
    longitude: Option<real>,
    calculation_method: Option<int>,
    auto_fetch_maghrib: Option<bool>)

  /** A number operand is truthy when it is defined and not zero. */
  predicate NumberTruthy(n: Option<real>) {
    n.Some? && n.value != 0.0
  }

  /** One row of the prayer list: a name and the two stored times, possibly absent. */
  datatype Prayer = Prayer(name: string, adhan: Option<string>, iqama: Option<string>)
}
