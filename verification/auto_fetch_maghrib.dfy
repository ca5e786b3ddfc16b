/** The hook that refreshes only the Maghrib adhan once a day, when the mosque has
    opted in (hooks/useAutoFetchMaghrib.ts). It shares the request, the response
    shape, the daily gate and the 24-hour conversion with the all-prayers hook. */
module AutoFetchMaghrib {
  import opened Wrappers
  import opened JsText
  import opened Types
  import opened AutoFetchPrayerTimes

  /** The conversion written inline in the Maghrib hook, step by step with its
      local `hours` reassignment; it computes exactly what `convertTo12Hour` of
      the all-prayers hook computes. */
  method MaghribTo12Hour(maghribTime24: string) returns (maghribTime12: string)
    ensures maghribTime12 == ConvertTo12Hour(maghribTime24)
  {
    var parts := Split(maghribTime24, ':');
    var hours24 := parts[0];
    var minutes := if |parts| >= 2 then parts[1] else "undefined";
    var parsed := ParseInt(hours24);
    if parsed.None? {
      // NaN fails both comparisons and prints as "NaN"
      maghribTime12 := "NaN:" + minutes + " AM";
      return;
    }
    var hours := parsed.value;
    var period := if hours >= 12 then PM else AM;
    if hours > 12 {
      hours := hours - 12;
    } else if hours == 0 {
      hours := 12;
    }
    maghribTime12 := IntToString(hours) + ":" + minutes + " " + PeriodText(period);
  }

  /** `data.code !== 200 || !data.data?.timings?.Maghrib`: the Maghrib entry must
      be present and non-empty. */
  predicate AcceptsMaghrib(response: ApiResponse) {
    && response.Body?
    && response.code == 200
    && response.timings.Some?
    && Truthy(response.timings.value.maghrib)
  }

  /** The record written back after a response: the document as read, with only
      `maghrib_adhan` and `last_updated` replaced; `None` when the response is
      rejected and the document is left untouched. */
  function ApplyMaghrib(response: ApiResponse, stored: Option<PrayerTimes>, today: string): (r: Option<PrayerTimes>)
    ensures r.Some? <==> AcceptsMaghrib(response)
    ensures r.Some? ==> r.value.last_updated == Some(today)
  {
    if !AcceptsMaghrib(response) then None
    else
      var current := stored.GetOr(EmptyRecord);
      Some(current.(
        maghrib_adhan := Some(ConvertTo12Hour(response.timings.value.maghrib.value)),
        last_updated := Some(today)))
  }

  /** An accepted response sets the Maghrib adhan to the converted timing and
      leaves the other four adhans and all five iqamas as they were read. */
  lemma MaghribUpdateFrame(response: ApiResponse, stored: Option<PrayerTimes>, today: string, p: PrayerName)
    requires AcceptsMaghrib(response)
    ensures var r := ApplyMaghrib(response, stored, today).value;
      && (p == Maghrib ==> Adhan(r, p) == Some(ConvertTo12Hour(response.timings.value.maghrib.value)))
      && (p != Maghrib ==> Adhan(r, p) == Adhan(stored.GetOr(EmptyRecord), p))
      && Iqama(r, p) == Iqama(stored.GetOr(EmptyRecord), p)
  {
  }

  /** A response that is not code 200, or has no usable Maghrib entry, writes
      nothing, even when the other four timings are present. */
  lemma MaghribRejections(code: int, timings: Option<Timings>, stored: Option<PrayerTimes>, today: string)
    requires code != 200 || timings.None? || !Truthy(timings.value.maghrib)
    ensures ApplyMaghrib(Body(code, timings), stored, today) == None
    ensures ApplyMaghrib(Unavailable, stored, today) == None
  {
  }

  /** The three early returns of the effect: both documents loaded, the mosque
      has opted in to the Maghrib refresh, and it has a non-zero latitude and
      longitude. */
  predicate MaghribGuardsPass(prayerTimes: Option<PrayerTimes>, settings: Option<MosqueSettings>) {
    && prayerTimes.Some?
    && settings.Some?
    && settings.value.auto_fetch_maghrib == Some(true)
    && NumberTruthy(settings.value.latitude)
    && NumberTruthy(settings.value.longitude)
  }

  /** The Maghrib guards are the all-prayers guards plus the opt-in. */
  lemma MaghribGuardsAddOptIn(prayerTimes: Option<PrayerTimes>, settings: Option<MosqueSettings>)
    ensures MaghribGuardsPass(prayerTimes, settings) <==>
      EffectGuardsPass(prayerTimes, settings) && settings.value.auto_fetch_maghrib == Some(true)
  {
  }

  /** The Maghrib hook's `isFetching` and `lastFetchAttempt` state, with the fetch
      split at its `await` as for the all-prayers hook. */
  class MaghribFetcher {
    var isFetching: bool
    var lastFetchAttempt: Option<string>

    /** A fetch in flight has recorded the day of its attempt. */
    predicate Valid()
      reads this
    {
      isFetching ==> lastFetchAttempt.Some?
    }

    constructor()
      ensures Valid() && !isFetching && lastFetchAttempt == None
    {
      isFetching := false;
      lastFetchAttempt := None;
    }

    /** The effect: the guards (including the opt-in), the daily gate, and the
        start of a fetch. */
    method OnInputsChanged(prayerTimes: Option<PrayerTimes>, settings: Option<MosqueSettings>, today: string)
      returns (request: Option<TimingsRequest>)
      requires Valid()
      modifies this
      ensures Valid()
      ensures request.Some? <==>
        && MaghribGuardsPass(prayerTimes, settings)
        && ShouldFetch(prayerTimes, old(lastFetchAttempt), today)
        && !old(isFetching)
      ensures request.Some? ==>
        request.value == RequestFor(settings.value) && isFetching && lastFetchAttempt == Some(today)
      ensures request.None? ==> isFetching == old(isFetching) && lastFetchAttempt == old(lastFetchAttempt)
    {
      if prayerTimes.None? || settings.None? {
        return None;
      }
      if settings.value.auto_fetch_maghrib != Some(true) {
        return None;
      }
      if !NumberTruthy(settings.value.latitude) || !NumberTruthy(settings.value.longitude) {
        return None;
      }
      var shouldFetch := ShouldFetch(prayerTimes, lastFetchAttempt, today);
      if shouldFetch {
        request := BeginFetch(settings, today);
      } else {
        request := None;
      }
    }

    /** `fetchAndUpdateMaghrib` up to the request. */
    method BeginFetch(settings: Option<MosqueSettings>, today: string) returns (request: Option<TimingsRequest>)
      requires Valid()
      modifies this
      ensures Valid()
      ensures request.Some? <==> !old(isFetching) && settings.Some?
      ensures request.Some? ==>
        request.value == RequestFor(settings.value) && isFetching && lastFetchAttempt == Some(today)
      ensures request.None? ==> isFetching == old(isFetching) && lastFetchAttempt == old(lastFetchAttempt)
    {
      if isFetching || settings.None? {
        return None;
      }
      isFetching := true;
      lastFetchAttempt := Some(today);
      request := Some(RequestFor(settings.value));
    }

    /** The rest of the fetch: reject a bad response, convert the Maghrib time,
        write the record back; `finally` clears `isFetching`. */
    method FinishFetch(response: ApiResponse, stored: Option<PrayerTimes>) returns (written: Option<PrayerTimes>)
      requires Valid() && isFetching
      modifies this
      ensures Valid() && !isFetching && lastFetchAttempt == old(lastFetchAttempt)
      ensures written == ApplyMaghrib(response, stored, old(lastFetchAttempt).value)
    {
      var today := lastFetchAttempt.value;
      if !AcceptsMaghrib(response) {
        written := None;
      } else {
        var maghribTime12 := MaghribTo12Hour(response.timings.value.maghrib.value);
        var current := stored.GetOr(EmptyRecord);
        written := Some(current.(maghrib_adhan := Some(maghribTime12), last_updated := Some(today)));
      }
      isFetching := false;
    }
  }

  /** Without the opt-in the hook never asks, whatever the record and the day. */
  method NoOptInNoRequest(prayerTimes: PrayerTimes, settings: MosqueSettings, today: string)
    returns (request: Option<TimingsRequest>)
    requires settings.auto_fetch_maghrib != Some(true)
    ensures request == None
  {
    var hook := new MaghribFetcher();
    request := hook.OnInputsChanged(Some(prayerTimes), Some(settings), today);
  }

  /** A rejected response is not retried the same day, and the record stays as
      it was. */
  method RejectedMaghribIsNotRetried(prayerTimes: PrayerTimes, settings: MosqueSettings, today: string, code: int)
    returns (first: Option<TimingsRequest>, written: Option<PrayerTimes>, second: Option<TimingsRequest>)
    requires MaghribGuardsPass(Some(prayerTimes), Some(settings))
    requires prayerTimes.last_updated != Some(today)
    requires code != 200
    ensures first == Some(RequestFor(settings))
    ensures written == None
    ensures second == None
  {
    var hook := new MaghribFetcher();
    first := hook.OnInputsChanged(Some(prayerTimes), Some(settings), today);
    written := hook.FinishFetch(Body(code, None), Some(prayerTimes));
    second := hook.OnInputsChanged(Some(prayerTimes), Some(settings), today);
  }
}
