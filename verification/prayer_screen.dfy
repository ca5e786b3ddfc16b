/** The prayer-times screen (app/index.tsx): the loading screen while the
    documents load, otherwise the five prayer cards in fixed order and the
    "Last updated" footer line. Stored iqama strings are shown as they are;
    nothing is computed from them. */
module PrayerTimesScreen {
  import opened Wrappers
  import opened JsText
  import opened Types
  import opened PrayerCard
  import opened AutoFetchPrayerTimes
  import opened AutoFetchMaghrib

  /** `prayerTimes?.<field>`: the field of the record, or undefined without one. */
  function AdhanOf(rec: Option<PrayerTimes>, p: PrayerName): Option<string> {
    if rec.Some? then Adhan(rec.value, p) else None
  }

  function IqamaOf(rec: Option<PrayerTimes>, p: PrayerName): Option<string> {
    if rec.Some? then Iqama(rec.value, p) else None
  }

  /** The `prayers` array: five rows in the canonical order, each carrying the
      record's adhan and iqama for that prayer unchanged. */
  function Prayers(rec: Option<PrayerTimes>): (ps: seq<Prayer>)
    ensures |ps| == |CanonicalOrder| == 5
    ensures forall i :: 0 <= i < |ps| ==>
      ps[i] == Prayer(DisplayName(CanonicalOrder[i]), AdhanOf(rec, CanonicalOrder[i]), IqamaOf(rec, CanonicalOrder[i]))
  {
    var r := rec.GetOr(EmptyRecord);
    [ Prayer("Fajr", r.fajr_adhan, r.fajr_iqama),
      Prayer("Dhuhr", r.dhuhr_adhan, r.dhuhr_iqama),
      Prayer("Asr", r.asr_adhan, r.asr_iqama),
      Prayer("Maghrib", r.maghrib_adhan, r.maghrib_iqama),
      Prayer("Isha", r.isha_adhan, r.isha_iqama) ]
  }

  /** The names read Fajr, Dhuhr, Asr, Maghrib, Isha; without a record every
      time is undefined. */
  lemma PrayersNamesAndAbsence(rec: Option<PrayerTimes>)
    ensures var ps := Prayers(rec);
      [ps[0].name, ps[1].name, ps[2].name, ps[3].name, ps[4].name] == ["Fajr", "Dhuhr", "Asr", "Maghrib", "Isha"]
    ensures rec.None? ==> forall i :: 0 <= i < 5 ==> Prayers(rec)[i].adhan.None? && Prayers(rec)[i].iqama.None?
  {
  }

  /** What the screen renders. */
  datatype Screen =
    | LoadingScreen
    | Schedule(cards: seq<CardText>, lastUpdatedLine: Option<string>)

  /** The screen for a loading flag and the current record; the footer line shows
      the raw `last_updated` value (its date formatting is left out). */
  function RenderScreen(loading: bool, rec: Option<PrayerTimes>): (s: Screen)
    ensures s.LoadingScreen? <==> loading
    ensures !loading ==> |s.cards| == 5 && forall i :: 0 <= i < 5 ==>
      s.cards[i] == RenderCard(DisplayName(CanonicalOrder[i]), AdhanOf(rec, CanonicalOrder[i]), IqamaOf(rec, CanonicalOrder[i]))
    ensures !loading ==> (s.lastUpdatedLine.Some? <==> rec.Some? && Truthy(rec.value.last_updated))
  {
    if loading then LoadingScreen
    else
      var ps := Prayers(rec);
      var footer := if rec.Some? && Truthy(rec.value.last_updated) then rec.value.last_updated else None;
      Schedule(seq(5, i requires 0 <= i < 5 => RenderCard(ps[i].name, ps[i].adhan, ps[i].iqama)), footer)
  }

  /** Without a record every card shows the placeholder for both times and there
      is no footer line. */
  lemma NoRecordShowsPlaceholders()
    ensures var s := RenderScreen(false, None);
      && s.lastUpdatedLine.None?
      && forall i :: 0 <= i < 5 ==> s.cards[i].adhan == Placeholder && s.cards[i].iqama == Placeholder
  {
  }

  /** The converted time is never empty, so a refreshed adhan is always shown. */
  lemma ConvertedTimeIsShown(time24: string)
    ensures Truthy(Some(ConvertTo12Hour(time24)))
  {
  }

  /** After a Maghrib refresh the screen differs from before only in the Maghrib
      card's adhan, which shows the converted time. */
  lemma MaghribRefreshChangesOneCard(response: ApiResponse, stored: PrayerTimes, today: string)
    requires AcceptsMaghrib(response)
    ensures var before := RenderScreen(false, Some(stored));
      var after := RenderScreen(false, ApplyMaghrib(response, Some(stored), today));
      && (forall i :: 0 <= i < 5 && i != 3 ==> after.cards[i] == before.cards[i])
      && after.cards[3].name == before.cards[3].name == "Maghrib"
      && after.cards[3].iqama == before.cards[3].iqama
      && after.cards[3].adhan == ConvertTo12Hour(response.timings.value.maghrib.value)
  {
    var before := RenderScreen(false, Some(stored));
    var updated := ApplyMaghrib(response, Some(stored), today);
    var after := RenderScreen(false, updated);
    forall i | 0 <= i < 5
      ensures i != 3 ==> after.cards[i] == before.cards[i]
      ensures i == 3 ==> after.cards[i].iqama == before.cards[i].iqama
    {
      MaghribUpdateFrame(response, Some(stored), today, CanonicalOrder[i]);
    }
    MaghribUpdateFrame(response, Some(stored), today, Maghrib);
    ConvertedTimeIsShown(response.timings.value.maghrib.value);
  }

  /** After a refresh of all adhans every card's iqama is the one shown before. */
  lemma AllTimesRefreshKeepsIqamas(response: ApiResponse, stored: PrayerTimes, today: string)
    requires AcceptsAllTimings(response)
    ensures var before := RenderScreen(false, Some(stored));
      var after := RenderScreen(false, ApplyAllTimings(response, Some(stored), today));
      forall i :: 0 <= i < 5 ==> after.cards[i].iqama == before.cards[i].iqama && after.cards[i].name == before.cards[i].name
  {
    var before := RenderScreen(false, Some(stored));
    var after := RenderScreen(false, ApplyAllTimings(response, Some(stored), today));
    forall i | 0 <= i < 5
      ensures after.cards[i].iqama == before.cards[i].iqama
    {
      AllTimingsUpdateFrame(response, Some(stored), today, CanonicalOrder[i]);
    }
  }
}
