/** The hook that refreshes all five adhan times once a day from the prayer-times
    API (hooks/useAutoFetchPrayerTimes.ts). "Today" and the API response are
    parameters; the hook's `isFetching` and `lastFetchAttempt` state is a class. */
module AutoFetchPrayerTimes {
  import opened Wrappers
  import opened JsText
  import opened Types

  // ---------------------------------------------------------------------------
  // 24-hour to 12-hour conversion
  // ---------------------------------------------------------------------------

  datatype Period = AM | PM

  function PeriodText(p: Period): string {
    match p
    case AM => "AM"
    case PM => "PM"
  }

  /** The hour arithmetic of the converter: the period is fixed from the 24-hour
      value first, then hours above 12 lose 12 and hour 0 becomes 12. */
  function To12(hours: int): (int, Period) {
    var period := if hours >= 12 then PM else AM;
    var h := if hours > 12 then hours - 12 else if hours == 0 then 12 else hours;
    (h, period)
  }

  /** Reading a 12-hour clock time back on the 24-hour clock. */
  function To24(hour12: int, period: Period): int {
    match period
    case AM => if hour12 == 12 then 0 else hour12
    case PM => if hour12 == 12 then 12 else hour12 + 12
  }

  /** On a valid 24-hour hour the 12-hour hour is in 1..12, the period is AM
      exactly before noon, and reading it back gives the original hour. */
  lemma To12InRange(h: int)
    requires 0 <= h < 24
    ensures 1 <= To12(h).0 <= 12
    ensures To12(h).1 == AM <==> h < 12
    ensures To24(To12(h).0, To12(h).1) == h
  {
  }

  /** Midnight is 12 AM, noon is 12 PM, afternoon hours lose 12, morning hours stay. */
  lemma To12Cases(h: int)
    requires 0 <= h < 24
    ensures h == 0 ==> To12(h) == (12, AM)
    ensures h == 12 ==> To12(h) == (12, PM)
    ensures 13 <= h ==> To12(h) == (h - 12, PM)
    ensures 1 <= h <= 11 ==> To12(h) == (h, AM)
  {
  }

  /** Distinct 24-hour hours give distinct (hour, period) pairs. */
  lemma To12Injective(a: int, b: int)
    requires 0 <= a < 24 && 0 <= b < 24
    requires To12(a) == To12(b)
    ensures a == b
  {
    To12InRange(a);
    To12InRange(b);
  }

  /** `convertTo12Hour(time24)`: split on ':', read the hour with `parseInt`, and
      print `hours:minutes period`. A missing minutes part prints as
      "undefined"; an unreadable hour prints as "NaN" with period AM. */
  function ConvertTo12Hour(time24: string): string {
    var parts := Split(time24, ':');
    var minutes := if |parts| >= 2 then parts[1] else "undefined";
    match ParseInt(parts[0])
    case None => "NaN:" + minutes + " AM"
    case Some(hours) =>
      var (h, period) := To12(hours);
      IntToString(h) + ":" + minutes + " " + PeriodText(period)
  }

  /** On a well-formed "HH:MM" input the minutes are copied verbatim and the hour
      is printed without a leading zero, in 1..12, with the matching period. */
  lemma ConvertWellFormed(hh: string, mm: string)
    requires hh != [] && AllDigits(hh) && DigitsValue(hh) < 24
    requires ':' !in mm
    ensures var (h, period) := To12(DigitsValue(hh));
      && 1 <= h <= 12
      && ConvertTo12Hour(hh + ":" + mm) == NatToString(h) + ":" + mm + " " + PeriodText(period)
      && NatToString(h)[0] != '0'
  {
    forall i | 0 <= i < |hh| ensures hh[i] != ':' {
      assert IsDigit(hh[i]);
    }
    SplitAfterPiece(hh, mm, ':');
    SplitWithoutSeparator(mm, ':');
    assert Split(hh + ":" + mm, ':') == [hh, mm];
    ParseIntDigits(hh);
    To12InRange(DigitsValue(hh));
  }

  // ---------------------------------------------------------------------------
  // The API request and response
  // ---------------------------------------------------------------------------

  /** The query of the timings request (the timestamp in its path is the clock,
      left out). */
  datatype TimingsRequest = TimingsRequest(latitude: Option<real>, longitude: Option<real>, calculationMethod: int)

  /** `calculation_method || 3`: the setting when it is truthy, else method 3.
      The contract is that fallback itself, case by case. */
  function CalculationMethod(settings: MosqueSettings): (m: int)
    ensures settings.calculation_method.None? ==> m == 3
    ensures settings.calculation_method.Some? ==>
      m == if settings.calculation_method.value == 0 then 3 else settings.calculation_method.value
  {
    match settings.calculation_method
    case Some(m) => if m != 0 then m else 3
    case None => 3
  }

  function RequestFor(settings: MosqueSettings): TimingsRequest {
    TimingsRequest(settings.latitude, settings.longitude, CalculationMethod(settings))
  }

  /** `data.data.timings`: each entry may be missing from the JSON. */
  datatype Timings = Timings(
    fajr: Option<string>,
    dhuhr: Option<string>,
    asr: Option<string>,
    maghrib: Option<string>,
    isha: Option<string>)

  function Timing(t: Timings, p: PrayerName): Option<string> {
    match p
    case Fajr => t.fajr
    case Dhuhr => t.dhuhr
    case Asr => t.asr
    case Maghrib => t.maghrib
    case Isha => t.isha
  }

  /** What the request produced: `Unavailable` when `fetch` rejects, the status is
      not ok or the body is not JSON; otherwise the JSON body's `code` and
      `data.timings`. */
  datatype ApiResponse = Unavailable | Body(code: int, timings: Option<Timings>)

  /** The response passes the `code`/`timings` check and has all five entries
      (a missing entry makes `convertTo12Hour` throw, so nothing is written). */
  predicate AcceptsAllTimings(response: ApiResponse) {
    && response.Body?
    && response.code == 200
    && response.timings.Some?
    && response.timings.value.fajr.Some?
    && response.timings.value.dhuhr.Some?
    && response.timings.value.asr.Some?
    && response.timings.value.maghrib.Some?
    && response.timings.value.isha.Some?
  }

  /** The record written back after a response: the document as read, with the
      five adhan fields replaced by the converted timings and `last_updated` set
      to today; `None` when the response is rejected and nothing is written. */
  function ApplyAllTimings(response: ApiResponse, stored: Option<PrayerTimes>, today: string): (r: Option<PrayerTimes>)
    ensures r.Some? <==> AcceptsAllTimings(response)
    ensures r.Some? ==> r.value.last_updated == Some(today)
  {
    if !AcceptsAllTimings(response) then None
    else
      var t := response.timings.value;
      var current := stored.GetOr(EmptyRecord);
      Some(current.(
        fajr_adhan := Some(ConvertTo12Hour(t.fajr.value)),
        dhuhr_adhan := Some(ConvertTo12Hour(t.dhuhr.value)),
        asr_adhan := Some(ConvertTo12Hour(t.asr.value)),
        maghrib_adhan := Some(ConvertTo12Hour(t.maghrib.value)),
        isha_adhan := Some(ConvertTo12Hour(t.isha.value)),
        last_updated := Some(today)))
  }

  /** An accepted response replaces every adhan with its converted timing and
      keeps every iqama of the document as read. */
  lemma AllTimingsUpdateFrame(response: ApiResponse, stored: Option<PrayerTimes>, today: string, p: PrayerName)
    requires AcceptsAllTimings(response)
    ensures var r := ApplyAllTimings(response, stored, today).value;
      && Adhan(r, p) == Some(ConvertTo12Hour(Timing(response.timings.value, p).value))
      && Iqama(r, p) == Iqama(stored.GetOr(EmptyRecord), p)
  {
  }

  // ---------------------------------------------------------------------------
  // The daily gate and the effect guards
  // ---------------------------------------------------------------------------

  /** `checkIfShouldFetchPrayerTimes` (the Maghrib hook's gate is the same code).
      The contract folds its three early returns into one condition. */
  function ShouldFetch(prayerTimes: Option<PrayerTimes>, lastFetchAttempt: Option<string>, today: string): (r: bool)
    ensures r <==> && prayerTimes.Some?
                   && lastFetchAttempt != Some(today)
                   && prayerTimes.value.last_updated != Some(today)
  {
    if prayerTimes.None? then false
    else if lastFetchAttempt == Some(today) then false
    else if prayerTimes.value.last_updated == Some(today) then false
    else true
  }

  /** The two early returns of the effect: both documents loaded, and the mosque
      has a non-zero latitude and longitude. */
  predicate EffectGuardsPass(prayerTimes: Option<PrayerTimes>, settings: Option<MosqueSettings>) {
    && prayerTimes.Some?
    && settings.Some?
    && NumberTruthy(settings.value.latitude)
    && NumberTruthy(settings.value.longitude)
  }

  /** A record written by a fetch closes the gate for the rest of that day, even
      for a fresh hook that has no attempt recorded. */
  lemma WrittenRecordClosesGate(response: ApiResponse, stored: Option<PrayerTimes>, today: string, attempt: Option<string>)
    requires ApplyAllTimings(response, stored, today).Some?
    ensures !ShouldFetch(ApplyAllTimings(response, stored, today), attempt, today)
  {
  }

  /** The gate reopens on a later day when the attempt and the record are both
      from an earlier day. */
  lemma GateReopensNextDay(prayerTimes: PrayerTimes, attempt: Option<string>, today: string)
    requires attempt != Some(today) && prayerTimes.last_updated != Some(today)
    ensures ShouldFetch(Some(prayerTimes), attempt, today)
  {
  }

  // ---------------------------------------------------------------------------
  // The hook's state
  // ---------------------------------------------------------------------------

  /** The hook's `isFetching` and `lastFetchAttempt` state. A fetch is split at its
      `await`: `BeginFetch` runs up to the request, `FinishFetch` handles the
      response and the `finally` clause. */
  class AllPrayerTimesFetcher {
    var isFetching: bool
    var lastFetchAttempt: Option<string>

    /** A fetch in flight has recorded the day of its attempt. */
    predicate Valid()
      reads this
    {
      isFetching ==> lastFetchAttempt.Some?
    }

    constructor()
      ensures Valid() && !isFetching && lastFetchAttempt == None
    {
      isFetching := false;
      lastFetchAttempt := None;
    }

    /** The effect that runs when the record or the settings change: the guards,
        the daily gate, and the start of a fetch. */
    method OnInputsChanged(prayerTimes: Option<PrayerTimes>, settings: Option<MosqueSettings>, today: string)
      returns (request: Option<TimingsRequest>)
      requires Valid()
      modifies this
      ensures Valid()
      ensures request.Some? <==>
        && EffectGuardsPass(prayerTimes, settings)
        && ShouldFetch(prayerTimes, old(lastFetchAttempt), today)
        && !old(isFetching)
      ensures request.Some? ==>
        request.value == RequestFor(settings.value) && isFetching && lastFetchAttempt == Some(today)
      ensures request.None? ==> isFetching == old(isFetching) && lastFetchAttempt == old(lastFetchAttempt)
    {
      if prayerTimes.None? || settings.None? {
        return None;
      }
      if !NumberTruthy(settings.value.latitude) || !NumberTruthy(settings.value.longitude) {
        return None;
      }
      var shouldFetch := ShouldFetch(prayerTimes, lastFetchAttempt, today);
      if shouldFetch {
        request := BeginFetch(settings, today);
      } else {
        request := None;
      }
    }

    /** `fetchAndUpdateAllPrayerTimes` up to the request: a fetch in flight or
        missing settings stop it; otherwise it marks itself in flight and records
        today's attempt before asking. */
    method BeginFetch(settings: Option<MosqueSettings>, today: string) returns (request: Option<TimingsRequest>)
      requires Valid()
      modifies this
      ensures Valid()
      ensures request.Some? <==> !old(isFetching) && settings.Some?
      ensures request.Some? ==>
        request.value == RequestFor(settings.value) && isFetching && lastFetchAttempt == Some(today)
      ensures request.None? ==> isFetching == old(isFetching) && lastFetchAttempt == old(lastFetchAttempt)
    {
      if isFetching || settings.None? {
        return None;
      }
      isFetching := true;
      lastFetchAttempt := Some(today);
      request := Some(RequestFor(settings.value));
    }

    /** The rest of the fetch: check the response, read the stored document,
        write the updated record; whatever happens, `isFetching` is cleared. The
        day stamped is the one recorded when the fetch began. */
    method FinishFetch(response: ApiResponse, stored: Option<PrayerTimes>) returns (written: Option<PrayerTimes>)
      requires Valid() && isFetching
      modifies this
      ensures Valid() && !isFetching && lastFetchAttempt == old(lastFetchAttempt)
      ensures written == ApplyAllTimings(response, stored, old(lastFetchAttempt).value)
    {
      var today := lastFetchAttempt.value;
      written := ApplyAllTimings(response, stored, today);
      isFetching := false;
    }
  }

  /** A fetch that fails is not retried the same day: after one attempt, whatever
      the response, the effect asks for nothing more until the day changes. */
  method FailedFetchIsNotRetried(prayerTimes: PrayerTimes, settings: MosqueSettings, today: string)
    returns (first: Option<TimingsRequest>, second: Option<TimingsRequest>)
    requires NumberTruthy(settings.latitude) && NumberTruthy(settings.longitude)
    requires prayerTimes.last_updated != Some(today)
    ensures first == Some(RequestFor(settings))
    ensures second == None
  {
    var hook := new AllPrayerTimesFetcher();
    first := hook.OnInputsChanged(Some(prayerTimes), Some(settings), today);
    var written := hook.FinishFetch(Unavailable, Some(prayerTimes));
    assert written == None;
    second := hook.OnInputsChanged(Some(prayerTimes), Some(settings), today);
  }

  /** A second change of inputs while the first fetch is in flight starts no
      second request. */
  method InFlightFetchBlocksAnother(prayerTimes: PrayerTimes, settings: MosqueSettings, today: string, tomorrow: string)
    returns (first: Option<TimingsRequest>, second: Option<TimingsRequest>)
    requires NumberTruthy(settings.latitude) && NumberTruthy(settings.longitude)
    requires prayerTimes.last_updated != Some(today) && prayerTimes.last_updated != Some(tomorrow)
    requires today != tomorrow
    ensures first.Some? && second.None?
  {
    var hook := new AllPrayerTimesFetcher();
    first := hook.OnInputsChanged(Some(prayerTimes), Some(settings), today);
    second := hook.OnInputsChanged(Some(prayerTimes), Some(settings), tomorrow);
  }
}
