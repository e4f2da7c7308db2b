/** The lease timeline: two sources merged, sorted, filtered and cut into pages by a
    key cursor (leases.service.ts, getLeaseTimeline). */
module Timeline {
  import opened Wrappers

  type Time = int

  datatype Source = History | Activity

  datatype Key = Key(createdAt: Time, source: Source, id: string)

  datatype Item = Item(key: Key, body: nat)

  datatype Order = Asc | Desc

  datatype Wanted = All | HistoryOnly | ActivityOnly

  /** A decoded cursor payload: an id, a source name, and a date unless it is unreadable. */
  datatype Cursor = Cursor(id: string, s: string, v: Option<Time>)

  datatype Query = Query(
    wanted: Wanted,
    order: Order,
    limit: Option<int>,
    dateFrom: Option<Time>,
    dateTo: Option<Time>,
    cursor: Option<Cursor>)

  datatype Page = Page(items: seq<Item>, next: Option<Cursor>)

  datatype Error = LeaseNotFound | BadRange | InvalidCursor

  /** What the two tables return for a lease. */
  datatype Rows = Rows(history: seq<Item>, activity: seq<Item>)

  // ------------------------------------------------------------------ comparing keys

  function SourceName(s: Source): string {
    match s
    case History => "HISTORY"
    case Activity => "ACTIVITY"
  }

  function Tag(k: Key): string {
    SourceName(k.source) + ":" + k.id
  }

  /** localeCompare; the proofs use only that it is a total order on texts. */
  function CompareText(a: string, b: string): int {
    if a == [] && b == [] then 0
    else if a == [] then -1
    else if b == [] then 1
    else if a[0] != b[0] then a[0] as int - b[0] as int
    else CompareText(a[1..], b[1..])
  }

  /** compareTimelineKeyAsc */
  function CompareKey(a: Key, b: Key): int {
    if a.createdAt != b.createdAt then a.createdAt - b.createdAt else CompareText(Tag(a), Tag(b))
  }

  /** a is listed before b */
  predicate Before(a: Key, b: Key, order: Order) {
    if order == Asc then CompareKey(a, b) < 0 else CompareKey(a, b) > 0
  }

  lemma {:induction false} CompareTextIsTotal(a: string, b: string)
    ensures CompareText(a, b) == 0 <==> a == b
    ensures CompareText(a, b) < 0 <==> CompareText(b, a) > 0
  {
    if a != [] && b != [] && a[0] == b[0] {
      CompareTextIsTotal(a[1..], b[1..]);
      assert a == [a[0]] + a[1..] && b == [b[0]] + b[1..];
    }
  }

  lemma {:induction false} CompareTextIsTransitive(a: string, b: string, c: string)
    requires CompareText(a, b) < 0 && CompareText(b, c) < 0
    ensures CompareText(a, c) < 0
  {
    if a != [] && b != [] && c != [] && a[0] == b[0] && b[0] == c[0] {
      CompareTextIsTransitive(a[1..], b[1..], c[1..]);
    }
  }

  lemma TagsTellKeysApart(a: Key, b: Key)
    requires a.createdAt == b.createdAt && Tag(a) == Tag(b)
    ensures a == b
  {
    assert Tag(a)[0] == SourceName(a.source)[0] && Tag(b)[0] == SourceName(b.source)[0];
    assert a.id == Tag(a)[|SourceName(a.source)| + 1..];
    assert b.id == Tag(b)[|SourceName(b.source)| + 1..];
  }

  lemma BeforeIsTotal(a: Key, b: Key, order: Order)
    ensures a == b || Before(a, b, order) || Before(b, a, order)
    ensures !(Before(a, b, order) && Before(b, a, order))
    ensures !Before(a, a, order)
  {
    CompareTextIsTotal(Tag(a), Tag(b));
    CompareTextIsTotal(Tag(b), Tag(a));
    CompareTextIsTotal(Tag(a), Tag(a));
    if a.createdAt == b.createdAt && Tag(a) == Tag(b) {
      TagsTellKeysApart(a, b);
    }
  }

  lemma BeforeIsTransitive(a: Key, b: Key, c: Key, order: Order)
    requires Before(a, b, order) && Before(b, c, order)
    ensures Before(a, c, order)
  {
    if a.createdAt == b.createdAt && b.createdAt == c.createdAt {
      if order == Asc {
        CompareTextIsTransitive(Tag(a), Tag(b), Tag(c));
      } else {
        CompareTextIsTotal(Tag(b), Tag(a));
        CompareTextIsTotal(Tag(c), Tag(b));
        CompareTextIsTransitive(Tag(c), Tag(b), Tag(a));
        CompareTextIsTotal(Tag(c), Tag(a));
      }
    }
  }

  // ------------------------------------------------------------------------ sorting

  ghost predicate Sorted(items: seq<Item>, order: Order) {
    forall i, j :: 0 <= i < j < |items| ==> Before(items[i].key, items[j].key, order)
  }

  ghost predicate Distinct(items: seq<Item>) {
    forall i, j :: 0 <= i < j < |items| ==> items[i].key != items[j].key
  }

  ghost predicate SameItems(a: seq<Item>, b: seq<Item>) {
    forall x :: x in a <==> x in b
  }

  function Insert(x: Item, sorted: seq<Item>, order: Order): seq<Item> {
    if sorted == [] then [x]
    else if Before(x.key, sorted[0].key, order) then [x] + sorted
    else [sorted[0]] + Insert(x, sorted[1..], order)
  }

  /** Array.prototype.sort with the comparator above */
  function Sort(items: seq<Item>, order: Order): seq<Item> {
    if items == [] then [] else Insert(items[|items| - 1], Sort(items[..|items| - 1], order), order)
  }

  lemma {:induction false} InsertSorts(x: Item, sorted: seq<Item>, order: Order)
    requires Sorted(sorted, order)
    requires forall y :: y in sorted ==> y.key != x.key
    ensures Sorted(Insert(x, sorted, order), order)
    ensures SameItems(Insert(x, sorted, order), [x] + sorted)
  {
    if sorted != [] {
      var first, rest := sorted[0], sorted[1..];
      assert sorted == [first] + rest;
      BeforeIsTotal(x.key, first.key, order);
      if Before(x.key, first.key, order) {
        forall j | 0 <= j < |sorted|
          ensures Before(x.key, sorted[j].key, order)
        {
          if j > 0 {
            BeforeIsTransitive(x.key, first.key, sorted[j].key, order);
          }
        }
      } else {
        InsertSorts(x, rest, order);
        var r := Insert(x, rest, order);
        forall j | 0 <= j < |r|
          ensures Before(first.key, r[j].key, order)
        {
          assert r[j] in [x] + rest;
        }
      }
    }
  }

  lemma {:induction false} SortSorts(items: seq<Item>, order: Order)
    requires Distinct(items)
    ensures Sorted(Sort(items, order), order)
    ensures SameItems(Sort(items, order), items)
  {
    if items != [] {
      var n := |items| - 1;
      SortSorts(items[..n], order);
      assert items == items[..n] + [items[n]];
      forall y | y in Sort(items[..n], order)
        ensures y.key != items[n].key
      {
        assert y in items[..n];
      }
      InsertSorts(items[n], Sort(items[..n], order), order);
    }
  }

  /** A sorted listing is determined by what it contains, so how it was sorted does
      not matter. */
  lemma {:induction false} SortedListingIsUnique(a: seq<Item>, b: seq<Item>, order: Order)
    requires Sorted(a, order) && Sorted(b, order) && SameItems(a, b)
    ensures a == b
  {
    assert a != [] ==> a[0] in a && a[0] in b;
    assert b != [] ==> b[0] in b && b[0] in a;
    if a != [] {
      BeforeIsTotal(a[0].key, b[0].key, order);
      assert a[0] == b[0];
      var a', b' := a[1..], b[1..];
      assert a == [a[0]] + a' && b == [b[0]] + b';
      BeforeIsTotal(a[0].key, a[0].key, order);
      forall x
        ensures x in a' <==> x in b'
      {
        assert x in a' ==> x in a && x != a[0];
        assert x in b' ==> x in b && x != b[0];
      }
      SortedListingIsUnique(a', b', order);
    }
  }

  // ---------------------------------------------------------------------- filtering

  predicate InRange(k: Key, dateFrom: Option<Time>, dateTo: Option<Time>) {
    && (dateFrom.Some? ==> dateFrom.value <= k.createdAt)
    && (dateTo.Some? ==> k.createdAt <= dateTo.value)
  }

  function Within(items: seq<Item>, dateFrom: Option<Time>, dateTo: Option<Time>): seq<Item> {
    if items == [] then []
    else if InRange(items[0].key, dateFrom, dateTo) then [items[0]] + Within(items[1..], dateFrom, dateTo)
    else Within(items[1..], dateFrom, dateTo)
  }

  predicate Passes(cursor: Option<Key>, k: Key, order: Order) {
    cursor.Some? ==> Before(cursor.value, k, order)
  }

  /** What is listed after the cursor. */
  function Past(items: seq<Item>, cursor: Option<Key>, order: Order): seq<Item> {
    if items == [] then []
    else if Passes(cursor, items[0].key, order) then [items[0]] + Past(items[1..], cursor, order)
    else Past(items[1..], cursor, order)
  }

  lemma {:induction false} WithinHolds(items: seq<Item>, dateFrom: Option<Time>, dateTo: Option<Time>, x: Item)
    ensures x in Within(items, dateFrom, dateTo) <==> x in items && InRange(x.key, dateFrom, dateTo)
  {
    if items != [] {
      WithinHolds(items[1..], dateFrom, dateTo, x);
      assert items == [items[0]] + items[1..];
    }
  }

  lemma {:induction false} WithinStaysSorted(items: seq<Item>, dateFrom: Option<Time>, dateTo: Option<Time>, order: Order)
    requires Sorted(items, order)
    ensures Sorted(Within(items, dateFrom, dateTo), order)
  {
    if items != [] {
      var first, rest := items[0], items[1..];
      WithinStaysSorted(rest, dateFrom, dateTo, order);
      var r := Within(rest, dateFrom, dateTo);
      forall j | 0 <= j < |r|
        ensures Before(first.key, r[j].key, order)
      {
        WithinHolds(rest, dateFrom, dateTo, r[j]);
      }
    }
  }

  lemma {:induction false} PastHolds(items: seq<Item>, cursor: Option<Key>, order: Order, x: Item)
    ensures x in Past(items, cursor, order) <==> x in items && Passes(cursor, x.key, order)
  {
    if items != [] {
      PastHolds(items[1..], cursor, order, x);
      assert items == [items[0]] + items[1..];
    }
  }

  lemma {:induction false} PastStaysSorted(items: seq<Item>, cursor: Option<Key>, order: Order)
    requires Sorted(items, order)
    ensures Sorted(Past(items, cursor, order), order)
  {
    if items != [] {
      var first, rest := items[0], items[1..];
      PastStaysSorted(rest, cursor, order);
      var r := Past(rest, cursor, order);
      forall j | 0 <= j < |r|
        ensures Before(first.key, r[j].key, order)
      {
        PastHolds(rest, cursor, order, r[j]);
      }
    }
  }

  // ---------------------------------------------------------------- cursors and pages

  function Encode(k: Key): Cursor {
    Cursor(k.id, SourceName(k.source), Some(k.createdAt))
  }

  function Decode(c: Cursor): Result<Key, Error> {
    if c.id == "" || c.s == "" then Failure(InvalidCursor)
    else if c.s != "HISTORY" && c.s != "ACTIVITY" then Failure(InvalidCursor)
    else if c.v.None? then Failure(InvalidCursor)
    else Success(Key(c.v.value, if c.s == "HISTORY" then History else Activity, c.id))
  }

  /** A cursor decodes to the key it was made from exactly when the row has an id. */
  lemma CursorRoundTrip(k: Key)
    ensures Decode(Encode(k)) == Success(k) <==> k.id != ""
  {
    assert "HISTORY"[0] != "ACTIVITY"[0];
  }

  /** The limit asked for, or the nearest that is allowed. */
  function Limit(q: Query): (r: nat)
    ensures 1 <= r <= 100
  {
    var wanted := if q.limit.Some? then q.limit.value else 20;
    if wanted < 1 then 1 else if wanted > 100 then 100 else wanted
  }

  function Distance(a: int, b: int): nat {
    if a < b then b - a else a - b
  }

  lemma LimitIsTheNearest(q: Query, other: int)
    requires 1 <= other <= 100
    ensures q.limit.None? ==> Limit(q) == 20
    ensures q.limit.Some? ==> Distance(Limit(q), q.limit.value) <= Distance(other, q.limit.value)
  {
  }

  function Merged(q: Query, rows: Rows): seq<Item> {
    (if q.wanted == ActivityOnly then [] else rows.history) + (if q.wanted == HistoryOnly then [] else rows.activity)
  }

  /** Everything the query asks for, listed once. */
  function Listing(q: Query, rows: Rows): seq<Item> {
    Within(Sort(Merged(q, rows), q.order), q.dateFrom, q.dateTo)
  }

  function PageAfter(q: Query, rows: Rows, cursor: Option<Key>): Page {
    FirstPage(Past(Listing(q, rows), cursor, q.order), Limit(q))
  }

  function PageOf(q: Query, leaseExists: bool, rows: Rows): Result<Page, Error> {
    if !leaseExists then Failure(LeaseNotFound)
    else if q.dateFrom.Some? && q.dateTo.Some? && q.dateTo.value < q.dateFrom.value then Failure(BadRange)
    else if q.cursor.None? then Success(PageAfter(q, rows, None))
    else
      var key := Decode(q.cursor.value);
      if key.Failure? then Failure(key.error) else Success(PageAfter(q, rows, Some(key.value)))
  }

  method GetLeaseTimeline(leaseExists: bool, rows: Rows, q: Query) returns (r: Result<Page, Error>)
    ensures r == PageOf(q, leaseExists, rows)
  {
    if !leaseExists {
      return Failure(LeaseNotFound);
    }
    var limit := if q.limit.Some? then q.limit.value else 20;
    if limit < 1 {
      limit := 1;
    }
    if limit > 100 {
      limit := 100;
    }
    if q.dateFrom.Some? && q.dateTo.Some? && q.dateTo.value < q.dateFrom.value {
      return Failure(BadRange);
    }
    var cursor: Option<Key> := None;
    if q.cursor.Some? {
      var decoded := Decode(q.cursor.value);
      if decoded.Failure? {
        return Failure(decoded.error);
      }
      cursor := Some(decoded.value);
    }
    var timelineItems: seq<Item> := [];
    if q.wanted != ActivityOnly {
      timelineItems := timelineItems + rows.history;
    }
    if q.wanted != HistoryOnly {
      timelineItems := timelineItems + rows.activity;
    }
    assert timelineItems == Merged(q, rows);
    timelineItems := Sort(timelineItems, q.order);
    if q.dateFrom.Some? || q.dateTo.Some? {
      timelineItems := Within(timelineItems, q.dateFrom, q.dateTo);
    } else {
      WithinEverything(timelineItems);
    }
    if cursor.Some? {
      timelineItems := Past(timelineItems, cursor, q.order);
    } else {
      PastNothing(timelineItems, q.order);
    }
    assert timelineItems == Past(Listing(q, rows), cursor, q.order);
    var hasMore := |timelineItems| > limit;
    var sliced := timelineItems;
    var nextCursor: Option<Cursor> := None;
    if hasMore {
      sliced := timelineItems[..limit];
      nextCursor := Some(Encode(sliced[|sliced| - 1].key));
    }
    r := Success(Page(sliced, nextCursor));
  }

  function FirstPage(left: seq<Item>, limit: nat): Page
    requires limit > 0
  {
    if |left| > limit then Page(left[..limit], Some(Encode(left[limit - 1].key))) else Page(left, None)
  }

  lemma {:induction false} WithinEverything(items: seq<Item>)
    ensures Within(items, None, None) == items
  {
    if items != [] {
      WithinEverything(items[1..]);
      assert items == [items[0]] + items[1..];
    }
  }

  lemma {:induction false} PastNothing(items: seq<Item>, order: Order)
    ensures Past(items, None, order) == items
  {
    if items != [] {
      PastNothing(items[1..], order);
      assert items == [items[0]] + items[1..];
    }
  }
}
