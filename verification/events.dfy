/** The upcoming-events list (hooks/useEvents.ts): today's date in the
    YYYY-MM-DD form the query compares with, the events built from each query
    snapshot, and the hook's `events`, `loading` and `error` state. The clock,
    the Sydney-time formatting and the query itself are outside the model: the
    formatted date and the snapshot's documents are parameters. */
module Events {
  import opened Wrappers
  import opened JsText
  import opened Listener

  // ---------------------------------------------------------------------------
  // today's date
  // ---------------------------------------------------------------------------

  /** A piece of a destructured split: the piece, or `undefined` printed in a
      template when the split has fewer pieces. */
  function PieceOrUndefined(parts: seq<string>, i: nat): string {
    if i < |parts| then parts[i] else "undefined"
  }

  /** The reordering in `getSydneyDate`: split the formatted DD/MM/YYYY date on
      '/' and print year, month and day joined by '-'. */
  function IsoFromFormatted(formatted: string): string {
    var parts := Split(formatted, '/');
    PieceOrUndefined(parts, 2) + "-" + PieceOrUndefined(parts, 1) + "-" + PieceOrUndefined(parts, 0)
  }

  /** Three '/'-free pieces come back in reverse order, each unchanged: nothing
      is padded or parsed. */
  lemma IsoReordersPieces(day: string, month: string, year: string)
    requires '/' !in day && '/' !in month && '/' !in year
    ensures IsoFromFormatted(day + "/" + month + "/" + year) == year + "-" + month + "-" + day
  {
    var s := day + "/" + month + "/" + year;
    assert s == day + ['/'] + (month + ['/'] + year);
    SplitAfterPiece(day, month + ['/'] + year, '/');
    SplitAfterPiece(month, year, '/');
    SplitWithoutSeparator(year, '/');
    assert Split(s, '/') == [day, month, year];
  }

  /** For example, 5 March 2025 formatted as 05/03/2025 becomes 2025-03-05. */
  lemma IsoExample()
    ensures IsoFromFormatted("05/03/2025") == "2025-03-05"
  {
    var day, month, year := "05", "03", "2025";
    assert day == ['0', '5'] && month == ['0', '3'] && year == ['2', '0', '2', '5'];
    IsoReordersPieces(day, month, year);
    assert day + "/" + month + "/" + year == "05/03/2025";
    assert year + "-" + month + "-" + day == "2025-03-05";
  }

  /** A formatted date without any '/' ends up in the day position, with the
      other two printed as `undefined`. */
  lemma IsoWithoutSlashes(formatted: string)
    requires '/' !in formatted
    ensures IsoFromFormatted(formatted) == "undefined-undefined-" + formatted
  {
    SplitWithoutSeparator(formatted, '/');
    var parts := Split(formatted, '/');
    assert parts == [formatted];
    assert IsoFromFormatted(formatted) == "undefined" + "-" + "undefined" + "-" + formatted;
    assert "undefined" + "-" + "undefined" + "-" == "undefined-undefined-";
  }

  // ---------------------------------------------------------------------------
  // snapshots
  // ---------------------------------------------------------------------------

  /** One document of a query snapshot: its id and its (string) fields. */
  datatype EventDoc = EventDoc(docId: string, fields: map<string, string>)

  type Event = map<string, string>

  /** `{ id: doc.id, ...doc.data() }`: the document's fields plus an `id`; a
      field named `id` in the data comes later in the spread and wins. */
  function ToEvent(doc: EventDoc): (event: Event)
    ensures event.Keys == doc.fields.Keys + {"id"}
    ensures forall k :: k in doc.fields ==> event[k] == doc.fields[k]
    ensures "id" !in doc.fields ==> event["id"] == doc.docId
  {
    map["id" := doc.docId] + doc.fields
  }

  /** The snapshot callback's `forEach` loop: one event per document, in the
      snapshot's order. */
  method LoadEvents(docs: seq<EventDoc>) returns (loadedEvents: seq<Event>)
    ensures loadedEvents == EventsOf(docs)
  {
    loadedEvents := [];
    var i := 0;
    while i < |docs|
      invariant 0 <= i <= |docs|
      invariant |loadedEvents| == i
      invariant forall j :: 0 <= j < i ==> loadedEvents[j] == ToEvent(docs[j])
    {
      loadedEvents := loadedEvents + [ToEvent(docs[i])];
      i := i + 1;
    }
  }

  /** The events of a snapshot, as a function for use in specifications: the
      source promises exactly one `ToEvent` per document, in order, so the
      contract states that pointwise. */
  function EventsOf(docs: seq<EventDoc>): (events: seq<Event>)
    ensures |events| == |docs|
    ensures forall i :: 0 <= i < |docs| ==> events[i] == ToEvent(docs[i])
  {
    seq(|docs|, i requires 0 <= i < |docs| => ToEvent(docs[i]))
  }

  /** Building events commutes with concatenating snapshots, so the order of
      documents is kept. */
  lemma EventsOfAppend(a: seq<EventDoc>, b: seq<EventDoc>)
    ensures EventsOf(a + b) == EventsOf(a) + EventsOf(b)
  {
    assert forall i :: 0 <= i < |a| + |b| ==> (a + b)[i] == if i < |a| then a[i] else b[i - |a|];
  }

  // ---------------------------------------------------------------------------
  // the hook
  // ---------------------------------------------------------------------------

  /** The hook's `events`, `loading` and `error` state. */
  class EventsHook {
    var events: seq<Event>
    var loading: bool
    var error: Option<string>

    constructor()
      ensures events == [] && loading && error == None
    {
      events := [];
      loading := true;
      error := None;
    }

    /** The effect body: clear the error and attach the listener; when attaching
        throws, report the error and stop loading. */
    method Subscribe(failure: Option<SetupFailure>)
      modifies this
      ensures events == old(events)
      ensures failure.None? ==> loading == old(loading) && error == None
      ensures failure.Some? ==> !loading && error == Some(SetupErrorMessage(failure.value))
    {
      error := None;
      if failure.Some? {
        error := Some(SetupErrorMessage(failure.value));
        loading := false;
      }
    }

    /** The snapshot callback: replace the list with the snapshot's events. */
    method OnSnapshot(docs: seq<EventDoc>)
      modifies this
      ensures events == EventsOf(docs)
      ensures !loading && error == old(error)
    {
      var loadedEvents := LoadEvents(docs);
      events := loadedEvents;
      loading := false;
    }

    /** The error callback: report and stop loading; the list is kept. */
    method OnListenerError(message: string)
      modifies this
      ensures events == old(events) && error == Some(message) && !loading
    {
      error := Some(message);
      loading := false;
    }

    /** Only upcoming events are queried, so these are all the events; the
        source defines the list as exactly that. */
    function UpcomingEvents(): (upcoming: seq<Event>)
      reads this
      ensures upcoming == events
    {
      events
    }

    /** Past events are not fetched: the source returns an empty list. */
    function PastEvents(): (past: seq<Event>)
      reads this
      ensures past == []
    {
      []
    }
  }
}
