/** The event-category list (hooks/useEventCategories.ts): the active categories
    of the `eventCategories/default` document sorted by `order`, or a fixed
    default table when the document, its field or the listener fails. */
module EventCategories {
  import opened Wrappers
  import opened Listener

  datatype EventCategory = EventCategory(
    id: string,
    labelText: string,   // the `label` field (a reserved word here)
    color_bg: string,
    color_text: string,
    order: int,
    is_active: bool)

  // ---------------------------------------------------------------------------
  // filter and sort
  // ---------------------------------------------------------------------------

  /** `categories.filter(cat => cat.is_active)`: every kept category is active.
      That nothing active is lost or duplicated, and that the input's order is
      kept, are the lemmas below. */
  function FilterActive(cats: seq<EventCategory>): (r: seq<EventCategory>)
    ensures forall i :: 0 <= i < |r| ==> r[i].is_active
    ensures |r| <= |cats|
    decreases |cats|
  {
    if cats == [] then []
    else if cats[0].is_active then [cats[0]] + FilterActive(cats[1..])
    else FilterActive(cats[1..])
  }

  /** Each active category is kept exactly as often as it occurs in the input;
      an inactive one not at all. */
  lemma {:induction false} FilterActiveCounts(cats: seq<EventCategory>, c: EventCategory)
    ensures multiset(FilterActive(cats))[c] == if c.is_active then multiset(cats)[c] else 0
    decreases |cats|
  {
    if cats != [] {
      FilterActiveCounts(cats[1..], c);
      assert cats == [cats[0]] + cats[1..];
    }
  }

  /** Filtering keeps the input's order: it distributes over concatenation. */
  lemma {:induction false} FilterActiveAppend(a: seq<EventCategory>, b: seq<EventCategory>)
    ensures FilterActive(a + b) == FilterActive(a) + FilterActive(b)
    decreases |a|
  {
    if a != [] {
      FilterActiveAppend(a[1..], b);
      assert (a + b)[1..] == a[1..] + b;
      assert (a + b)[0] == a[0];
      if a[0].is_active {
        assert FilterActive(a + b) == [a[0]] + FilterActive(a[1..] + b);
        assert FilterActive(a) == [a[0]] + FilterActive(a[1..]);
      } else {
        assert FilterActive(a + b) == FilterActive(a[1..] + b);
        assert FilterActive(a) == FilterActive(a[1..]);
      }
    } else {
      assert a + b == b;
    }
  }

  /** An active category is kept, an inactive one is dropped. */
  lemma FilterActiveMembers(cats: seq<EventCategory>, c: EventCategory)
    ensures c in FilterActive(cats) <==> c in cats && c.is_active
  {
    FilterActiveCounts(cats, c);
    assert c in FilterActive(cats) <==> multiset(FilterActive(cats))[c] > 0;
    assert c in cats <==> multiset(cats)[c] > 0;
  }

  predicate SortedByOrder(s: seq<EventCategory>) {
    forall i, j :: 0 <= i < j < |s| ==> s[i].order <= s[j].order
  }

  /** Insert `c` before the first element whose order is not smaller. */
  function Insert(c: EventCategory, sorted: seq<EventCategory>): seq<EventCategory>
    decreases |sorted|
  {
    if sorted == [] || c.order <= sorted[0].order then [c] + sorted
    else [sorted[0]] + Insert(c, sorted[1..])
  }

  /** `sort((a, b) => a.order - b.order)`: a stable sort by `order`, as the
      language requires of `Array.prototype.sort`. */
  function SortByOrder(s: seq<EventCategory>): seq<EventCategory>
    decreases |s|
  {
    if s == [] then [] else Insert(s[0], SortByOrder(s[1..]))
  }

  /** The active categories sorted by order: the list the hook stores. */
  function ActiveSorted(cats: seq<EventCategory>): seq<EventCategory> {
    SortByOrder(FilterActive(cats))
  }

  lemma {:induction false} InsertPermutes(c: EventCategory, s: seq<EventCategory>)
    ensures multiset(Insert(c, s)) == multiset([c]) + multiset(s)
    decreases |s|
  {
    if s != [] && c.order > s[0].order {
      InsertPermutes(c, s[1..]);
      assert s == [s[0]] + s[1..];
    }
  }

  lemma {:induction false} InsertSorted(c: EventCategory, s: seq<EventCategory>)
    requires SortedByOrder(s)
    ensures SortedByOrder(Insert(c, s))
    decreases |s|
  {
    if s != [] && c.order > s[0].order {
      InsertSorted(c, s[1..]);
      InsertPermutes(c, s[1..]);
      var r := Insert(c, s[1..]);
      forall k | 0 <= k < |r| ensures s[0].order <= r[k].order {
        assert r[k] in multiset(r);
        assert r[k] == c || r[k] in multiset(s[1..]);
        if r[k] != c {
          assert r[k] in s[1..];
        }
      }
    }
  }

  lemma {:induction false} SortPermutesAndSorts(s: seq<EventCategory>)
    ensures multiset(SortByOrder(s)) == multiset(s)
    ensures SortedByOrder(SortByOrder(s))
    decreases |s|
  {
    if s != [] {
      SortPermutesAndSorts(s[1..]);
      InsertPermutes(s[0], SortByOrder(s[1..]));
      InsertSorted(s[0], SortByOrder(s[1..]));
      assert s == [s[0]] + s[1..];
    }
  }

  /** Every listed category is active, the list is sorted by order, and it is a
      permutation of the active categories of the document: none is lost or
      duplicated. */
  lemma ActiveSortedCorrect(cats: seq<EventCategory>)
    ensures forall i :: 0 <= i < |ActiveSorted(cats)| ==> ActiveSorted(cats)[i].is_active
    ensures SortedByOrder(ActiveSorted(cats))
    ensures multiset(ActiveSorted(cats)) == multiset(FilterActive(cats))
  {
    SortPermutesAndSorts(FilterActive(cats));
    forall i | 0 <= i < |ActiveSorted(cats)| ensures ActiveSorted(cats)[i].is_active {
      assert ActiveSorted(cats)[i] in multiset(FilterActive(cats));
    }
  }

  // ---------------------------------------------------------------------------
  // stability
  // ---------------------------------------------------------------------------

  /** The categories with a given order, in list order. */
  function WithOrder(s: seq<EventCategory>, k: int): seq<EventCategory>
    decreases |s|
  {
    if s == [] then []
    else if s[0].order == k then [s[0]] + WithOrder(s[1..], k)
    else WithOrder(s[1..], k)
  }

  lemma {:induction false} WithOrderOfInsert(c: EventCategory, s: seq<EventCategory>, k: int)
    requires SortedByOrder(s)
    ensures WithOrder(Insert(c, s), k) ==
      if c.order == k then [c] + WithOrder(s, k) else WithOrder(s, k)
    decreases |s|
  {
    if s == [] || c.order <= s[0].order {
      assert ([c] + s)[1..] == s;
    } else {
      WithOrderOfInsert(c, s[1..], k);
      assert ([s[0]] + Insert(c, s[1..]))[1..] == Insert(c, s[1..]);
      if c.order == k {
        // s[0].order < c.order == k, so s[0] is not kept
        assert s[0].order != k;
      }
    }
  }

  /** The sort is stable: categories with equal `order` keep their relative
      order from the document. */
  lemma {:induction false} SortIsStable(s: seq<EventCategory>, k: int)
    ensures WithOrder(SortByOrder(s), k) == WithOrder(s, k)
    decreases |s|
  {
    if s != [] {
      SortIsStable(s[1..], k);
      SortPermutesAndSorts(s[1..]);
      WithOrderOfInsert(s[0], SortByOrder(s[1..]), k);
    }
  }

  // ---------------------------------------------------------------------------
  // defaults and snapshots
  // ---------------------------------------------------------------------------

  /** `getDefaultCategories()`: six active categories with orders 1 to 6. */
  function DefaultCategories(): seq<EventCategory> {
    [ EventCategory("lecture", "Lectures", "#dbeafe", "#1e40af", 1, true),
      EventCategory("community", "Community Events", "#fef3c7", "#92400e", 2, true),
      EventCategory("youth", "Youth Programs", "#fce7f3", "#9f1239", 3, true),
      EventCategory("women", "Women's Events", "#f3e8ff", "#6b21a8", 4, true),
      EventCategory("education", "Educational", "#dcfce7", "#15803d", 5, true),
      EventCategory("charity", "Charity & Fundraising", "#fff7ed", "#c2410c", 6, true) ]
  }

  /** The defaults are six active entries with strictly increasing orders 1..6,
      so filtering and sorting them changes nothing. */
  lemma DefaultsAreActiveAndOrdered()
    ensures |DefaultCategories()| == 6
    ensures forall i :: 0 <= i < 6 ==> DefaultCategories()[i].is_active && DefaultCategories()[i].order == i + 1
    ensures ActiveSorted(DefaultCategories()) == DefaultCategories()
  {
    var d := DefaultCategories();
    assert FilterActive(d[5..]) == d[5..];
    assert FilterActive(d[4..]) == d[4..];
    assert FilterActive(d[3..]) == d[3..];
    assert FilterActive(d[2..]) == d[2..];
    assert FilterActive(d[1..]) == d[1..];
    assert FilterActive(d) == d;
    assert SortByOrder(d[5..]) == d[5..];
    assert SortByOrder(d[4..]) == d[4..];
    assert SortByOrder(d[3..]) == d[3..];
    assert SortByOrder(d[2..]) == d[2..];
    assert SortByOrder(d[1..]) == d[1..];
  }

  /** One snapshot of the categories document: missing, or present with a
      `categories` field that may be absent. */
  datatype CategoriesSnapshot = Missing | Present(categories: Option<seq<EventCategory>>)

  /** The list the snapshot callback stores. A present array, even an empty one,
      is filtered and sorted (an array is truthy); a missing field or document
      gives the defaults. */
  function CategoriesFrom(snapshot: CategoriesSnapshot): (r: seq<EventCategory>)
    ensures snapshot.Missing? || snapshot.categories.None? ==> r == DefaultCategories()
    ensures snapshot.Present? && snapshot.categories.Some? ==> r == ActiveSorted(snapshot.categories.value)
  {
    match snapshot
    case Missing => DefaultCategories()
    case Present(Some(cats)) => ActiveSorted(cats)
    case Present(None) => DefaultCategories()
  }

  /** Whatever the snapshot, the stored list is sorted and all active. */
  lemma SnapshotListIsSortedAndActive(snapshot: CategoriesSnapshot)
    ensures SortedByOrder(CategoriesFrom(snapshot))
    ensures forall i :: 0 <= i < |CategoriesFrom(snapshot)| ==> CategoriesFrom(snapshot)[i].is_active
  {
    if snapshot.Present? && snapshot.categories.Some? {
      ActiveSortedCorrect(snapshot.categories.value);
    } else {
      DefaultsAreActiveAndOrdered();
      ActiveSortedCorrect(DefaultCategories());
    }
  }

  /** The hook's `categories`, `loading` and `error` state. */
  class CategoriesHook {
    var categories: seq<EventCategory>
    var loading: bool
    var error: Option<string>

    constructor()
      ensures categories == [] && loading && error == None
    {
      categories := [];
      loading := true;
      error := None;
    }

    /** The effect body: clear the error and attach the listener; when attaching
        throws, report the error and fall back to the defaults. */
    method Subscribe(failure: Option<SetupFailure>)
      modifies this
      ensures failure.None? ==> categories == old(categories) && loading == old(loading) && error == None
      ensures failure.Some? ==> categories == DefaultCategories() && !loading
      ensures failure.Some? ==> error == Some(SetupErrorMessage(failure.value))
    {
      error := None;
      if failure.Some? {
        error := Some(SetupErrorMessage(failure.value));
        categories := DefaultCategories();
        loading := false;
      }
    }

    /** The listener's snapshot callback. */
    method OnSnapshot(snapshot: CategoriesSnapshot)
      modifies this
      ensures categories == CategoriesFrom(snapshot)
      ensures !loading && error == old(error)
    {
      categories := CategoriesFrom(snapshot);
      loading := false;
    }

    /** The listener's error callback: report, fall back, stop loading. */
    method OnListenerError(message: string)
      modifies this
      ensures error == Some(message) && categories == DefaultCategories() && !loading
    {
      error := Some(message);
      categories := DefaultCategories();
      loading := false;
    }
  }
}
