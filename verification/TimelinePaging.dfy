/** Following the cursors of the lease timeline delivers the listing exactly once, even
    while rows are being added. */
module TimelinePaging {
  import opened Wrappers
  import opened Timeline

  /** Rows of both tables are told apart by their keys and have identifiers. */
  ghost predicate Sound(rows: Rows) {
    && Distinct(rows.history + rows.activity)
    && forall x :: x in rows.history + rows.activity ==> x.key.id != ""
  }

  ghost predicate Grown(before: Rows, after: Rows) {
    && (forall x :: x in before.history ==> x in after.history)
    && (forall x :: x in before.activity ==> x in after.activity)
  }

  /** A reader's session: each request carries the cursor of the page before, and the
      tables may have changed in between; it ends with a page that has no cursor. */
  ghost predicate Session(q: Query, tables: seq<Rows>, pages: seq<Page>)
    decreases |pages|
  {
    && |tables| == |pages| > 0
    && PageOf(q, true, tables[0]) == Success(pages[0])
    && if pages[0].next.None? then |pages| == 1
       else |pages| > 1 && Session(q.(cursor := pages[0].next), tables[1..], pages[1..])
  }

  function Flatten(pages: seq<Page>): seq<Item> {
    if pages == [] then [] else pages[0].items + Flatten(pages[1..])
  }

  /** The items of a list that occur in another. */
  function Among(items: seq<Item>, base: seq<Item>): seq<Item> {
    if items == [] then []
    else if items[0] in base then [items[0]] + Among(items[1..], base)
    else Among(items[1..], base)
  }

  /** Where the next page starts. */
  function CursorKey(q: Query): Option<Key> {
    if q.cursor.None? || Decode(q.cursor.value).Failure? then None else Some(Decode(q.cursor.value).value)
  }

  // ---------------------------------------------------------------- the listing

  lemma MergedIsDistinct(q: Query, rows: Rows)
    requires Sound(rows)
    ensures Distinct(Merged(q, rows))
  {
    var all := rows.history + rows.activity;
    var merged := Merged(q, rows);
    var shift := if q.wanted == ActivityOnly then |rows.history| else 0;
    forall i, j | 0 <= i < j < |merged|
      ensures merged[i].key != merged[j].key
    {
      assert merged[i] == all[i + shift] && merged[j] == all[j + shift];
    }
  }

  lemma ListingIsSorted(q: Query, rows: Rows)
    requires Sound(rows)
    ensures Sorted(Listing(q, rows), q.order)
  {
    MergedIsDistinct(q, rows);
    SortSorts(Merged(q, rows), q.order);
    WithinStaysSorted(Sort(Merged(q, rows), q.order), q.dateFrom, q.dateTo, q.order);
  }

  /** The listing holds exactly the wanted rows in range. */
  lemma ListingHolds(q: Query, rows: Rows, x: Item)
    requires Sound(rows)
    ensures x in Listing(q, rows) <==>
            InRange(x.key, q.dateFrom, q.dateTo)
            && ((x in rows.history && q.wanted != ActivityOnly) || (x in rows.activity && q.wanted != HistoryOnly))
  {
    MergedIsDistinct(q, rows);
    SortSorts(Merged(q, rows), q.order);
    WithinHolds(Sort(Merged(q, rows), q.order), q.dateFrom, q.dateTo, x);
  }

  lemma ListingGrows(q: Query, before: Rows, after: Rows, x: Item)
    requires Sound(before) && Sound(after) && Grown(before, after) && x in Listing(q, before)
    ensures x in Listing(q, after)
  {
    ListingHolds(q, before, x);
    ListingHolds(q, after, x);
  }

  // ------------------------------------------------------------------- one page

  lemma {:induction false} AmongHolds(items: seq<Item>, base: seq<Item>, x: Item)
    ensures x in Among(items, base) <==> x in items && x in base
  {
    if items != [] {
      AmongHolds(items[1..], base, x);
      assert items == [items[0]] + items[1..];
    }
  }

  lemma {:induction false} AmongStaysSorted(items: seq<Item>, base: seq<Item>, order: Order)
    requires Sorted(items, order)
    ensures Sorted(Among(items, base), order)
  {
    if items != [] {
      var first, rest := items[0], items[1..];
      AmongStaysSorted(rest, base, order);
      var r := Among(rest, base);
      forall j | 0 <= j < |r|
        ensures Before(first.key, r[j].key, order)
      {
        AmongHolds(rest, base, r[j]);
      }
    }
  }

  /** A page is a sorted run of what is left, up to and including its last item. */
  lemma PageTakesAPrefix(q: Query, rows: Rows, cursor: Option<Key>)
    requires Sound(rows)
    ensures var p := PageAfter(q, rows, cursor);
            var left := Past(Listing(q, rows), cursor, q.order);
            && Sorted(p.items, q.order)
            && p.items <= left
            && (p.next.None? ==> p.items == left)
            && (p.next.Some? ==> |p.items| == Limit(q) && |p.items| < |left|)
            && (p.next.Some? ==> Decode(p.next.value) == Success(p.items[|p.items| - 1].key))
            && (p.next.Some? ==>
                  forall x :: x in left ==> (x in p.items <==> !Before(p.items[|p.items| - 1].key, x.key, q.order)))
  {
    var listing := Listing(q, rows);
    var left := Past(listing, cursor, q.order);
    var p := PageAfter(q, rows, cursor);
    forall x | x in left
      ensures x.key.id != ""
    {
      ListingHolds(q, rows, x);
      PastHolds(listing, cursor, q.order, x);
    }
    ListingIsSorted(q, rows);
    PastStaysSorted(listing, cursor, q.order);
    if p.next.Some? {
      var n := Limit(q);
      var last := left[n - 1].key;
      assert p.items[n - 1] == left[n - 1];
      assert left[n - 1] in left;
      CursorRoundTrip(last);
      forall x | x in left
        ensures x in p.items <==> !Before(last, x.key, q.order)
      {
        CutAt(left, n, x, q.order);
      }
    }
  }

  lemma CutAt(left: seq<Item>, n: nat, x: Item, order: Order)
    requires Sorted(left, order) && 0 < n <= |left| && x in left
    ensures x in left[..n] <==> !Before(left[n - 1].key, x.key, order)
  {
    assert left == left[..n] + left[n..];
    AfterTheLast(left[..n], left[n..], x, order);
  }

  // ------------------------------------------------------------------- a session

  /** What the next page starts from is the last item of this one. */
  lemma NextCursor(q: Query, rows: Rows, p: Page)
    requires Sound(rows) && PageOf(q, true, rows) == Success(p) && p.next.Some?
    ensures p == PageAfter(q, rows, CursorKey(q))
    ensures |p.items| > 0 && CursorKey(q.(cursor := p.next)) == Some(p.items[|p.items| - 1].key)
  {
    PageTakesAPrefix(q, rows, CursorKey(q));
  }

  /** Items that come after the last of a sorted list come after all of it. */
  lemma BehindTheLast(items: seq<Item>, tail: seq<Item>, order: Order)
    requires items != [] && Sorted(items, order)
    requires forall x :: x in tail ==> Before(items[|items| - 1].key, x.key, order)
    ensures forall i, j :: 0 <= i < |items| && 0 <= j < |tail| ==> Before(items[i].key, tail[j].key, order)
  {
    var last := items[|items| - 1];
    forall i, j | 0 <= i < |items| && 0 <= j < |tail|
      ensures Before(items[i].key, tail[j].key, order)
    {
      assert tail[j] in tail;
      if i < |items| - 1 {
        BeforeIsTransitive(items[i].key, last.key, tail[j].key, order);
      }
    }
  }

  lemma {:induction false} SessionStaysAhead(q: Query, tables: seq<Rows>, pages: seq<Page>)
    requires Session(q, tables, pages)
    requires forall k :: 0 <= k < |tables| ==> Sound(tables[k])
    ensures Sorted(Flatten(pages), q.order)
    ensures forall x :: x in Flatten(pages) ==> Passes(CursorKey(q), x.key, q.order)
    decreases |pages|
  {
    var p, cursor := pages[0], CursorKey(q);
    var left := Past(Listing(q, tables[0]), cursor, q.order);
    PageTakesAPrefix(q, tables[0], cursor);
    forall x | x in p.items
      ensures Passes(cursor, x.key, q.order)
    {
      PastHolds(Listing(q, tables[0]), cursor, q.order, x);
    }
    if p.next.None? {
      assert pages[1..] == [];
      assert Flatten(pages) == p.items + Flatten([]);
    } else {
      NextCursor(q, tables[0], p);
      var rest := q.(cursor := p.next);
      SessionStaysAhead(rest, tables[1..], pages[1..]);
      var tail := Flatten(pages[1..]);
      var last := p.items[|p.items| - 1];
      forall x | x in tail
        ensures Passes(cursor, x.key, q.order)
      {
        if cursor.Some? {
          BeforeIsTransitive(cursor.value, last.key, x.key, q.order);
        }
      }
      BehindTheLast(p.items, tail, q.order);
    }
  }

  /** Of the rows listed from the start, a page holds those between its cursor and the next. */
  lemma PageDelivers(q: Query, base: Rows, rows: Rows, cursor: Option<Key>, x: Item)
    requires Sound(base) && Sound(rows) && Grown(base, rows)
    requires x in Listing(q, base)
    ensures var p := PageAfter(q, rows, cursor);
            && (p.next.None? ==> (Passes(cursor, x.key, q.order) <==> x in p.items))
            && (p.next.Some? ==> |p.items| > 0)
            && (p.next.Some? ==>
                  (Passes(cursor, x.key, q.order) <==> x in p.items || Before(p.items[|p.items| - 1].key, x.key, q.order)))
  {
    var p := PageAfter(q, rows, cursor);
    PageTakesAPrefix(q, rows, cursor);
    ListingGrows(q, base, rows, x);
    PastHolds(Listing(q, rows), cursor, q.order, x);
    if p.next.Some? {
      var last := p.items[|p.items| - 1];
      PastHolds(Listing(q, rows), cursor, q.order, last);
      if cursor.Some? && Before(last.key, x.key, q.order) {
        BeforeIsTransitive(cursor.value, last.key, x.key, q.order);
      }
    }
  }

  /** The rows that were there from the start are delivered exactly once and in order,
      however many rows are added meanwhile and wherever they sort. */
  lemma {:induction false} SessionDelivers(q: Query, base: Rows, tables: seq<Rows>, pages: seq<Page>)
    requires Session(q, tables, pages)
    requires Sound(base) && forall k :: 0 <= k < |tables| ==> Sound(tables[k]) && Grown(base, tables[k])
    ensures Among(Flatten(pages), Listing(q, base)) == Past(Listing(q, base), CursorKey(q), q.order)
    decreases |pages|
  {
    var p, cursor, listing := pages[0], CursorKey(q), Listing(q, base);
    var expected := Past(listing, cursor, q.order);
    var got := Among(Flatten(pages), listing);
    var next := CursorKey(q.(cursor := p.next));
    var tail := Flatten(pages[1..]);
    if p.next.Some? {
      NextCursor(q, tables[0], p);
      SessionDelivers(q.(cursor := p.next), base, tables[1..], pages[1..]);
      assert Among(tail, listing) == Past(listing, next, q.order);
    } else {
      assert tail == [];
    }
    forall x
      ensures x in got <==> x in expected
    {
      AmongHolds(p.items + tail, listing, x);
      AmongHolds(tail, listing, x);
      PastHolds(listing, cursor, q.order, x);
      PastHolds(listing, next, q.order, x);
      if x in listing {
        PageDelivers(q, base, tables[0], cursor, x);
      }
    }
    SessionStaysAhead(q, tables, pages);
    AmongStaysSorted(Flatten(pages), listing, q.order);
    ListingIsSorted(q, base);
    PastStaysSorted(listing, cursor, q.order);
    SortedListingIsUnique(got, expected, q.order);
  }

  lemma {:induction false} AmongEverything(items: seq<Item>, base: seq<Item>)
    requires forall x :: x in items ==> x in base
    ensures Among(items, base) == items
  {
    if items != [] {
      assert items == [items[0]] + items[1..];
      AmongEverything(items[1..], base);
    }
  }

  /** Paging from the start, over tables that do not change, is the listing: the pages
      of every finished session concatenate to it. */
  lemma {:induction false} PagesConcatenateToListing(q: Query, rows: Rows, tables: seq<Rows>, pages: seq<Page>)
    requires q.cursor.None? && Sound(rows)
    requires Session(q, tables, pages) && forall k :: 0 <= k < |tables| ==> tables[k] == rows
    ensures Flatten(pages) == Listing(q, rows)
  {
    SessionDelivers(q, rows, tables, pages);
    PastNothing(Listing(q, rows), q.order);
    forall x | x in Flatten(pages)
      ensures x in Listing(q, rows)
    {
      DeliveredRowsAreListed(q, tables, pages, x);
    }
    AmongEverything(Flatten(pages), Listing(q, rows));
  }

  lemma {:induction false} DeliveredRowsAreListed(q: Query, tables: seq<Rows>, pages: seq<Page>, x: Item)
    requires Session(q, tables, pages) && x in Flatten(pages)
    requires forall k :: 0 <= k < |tables| ==> Sound(tables[k])
    ensures exists k :: 0 <= k < |tables| && x in Listing(q, tables[k])
    decreases |pages|
  {
    if x in pages[0].items {
      PageTakesAPrefix(q, tables[0], CursorKey(q));
      PastHolds(Listing(q, tables[0]), CursorKey(q), q.order, x);
    } else {
      assert x in Flatten(pages[1..]);
      DeliveredRowsAreListed(q.(cursor := pages[0].next), tables[1..], pages[1..], x);
      var k :| 0 <= k < |tables[1..]| && x in Listing(q, tables[1..][k]);
      assert tables[k + 1] == tables[1..][k];
    }
  }

  /** From every position, paging over tables that do not change comes to an end. */
  lemma {:induction false} SessionExists(q: Query, rows: Rows) returns (pages: seq<Page>)
    requires Sound(rows)
    requires PageOf(q, true, rows).Success?
    ensures Session(q, seq(|pages|, _ => rows), pages)
    decreases |Past(Listing(q, rows), CursorKey(q), q.order)|
  {
    var cursor := CursorKey(q);
    var p := PageOf(q, true, rows).value;
    PageTakesAPrefix(q, rows, cursor);
    if p.next.None? {
      pages := [p];
    } else {
      NextCursor(q, rows, p);
      var rest := q.(cursor := p.next);
      LessIsLeft(q, rows, cursor, p);
      var others := SessionExists(rest, rows);
      pages := [p] + others;
      assert pages[1..] == others;
      assert seq(|pages|, _ => rows)[1..] == seq(|others|, _ => rows);
    }
  }

  lemma LessIsLeft(q: Query, rows: Rows, cursor: Option<Key>, p: Page)
    requires Sound(rows) && p == PageAfter(q, rows, cursor) && p.next.Some?
    ensures |p.items| > 0
    ensures |Past(Listing(q, rows), Some(p.items[|p.items| - 1].key), q.order)| < |Past(Listing(q, rows), cursor, q.order)|
  {
    var listing := Listing(q, rows);
    var left := Past(listing, cursor, q.order);
    PageTakesAPrefix(q, rows, cursor);
    var last := p.items[|p.items| - 1];
    var after := Past(listing, Some(last.key), q.order);
    var rest := left[|p.items|..];
    assert left == p.items + rest;
    ListingIsSorted(q, rows);
    PastStaysSorted(listing, cursor, q.order);
    PastStaysSorted(listing, Some(last.key), q.order);
    forall x
      ensures x in after <==> x in rest
    {
      PastHolds(listing, cursor, q.order, x);
      PastHolds(listing, Some(last.key), q.order, x);
      if x in listing {
        PageDelivers(q, rows, rows, cursor, x);
      }
      AfterTheLast(p.items, rest, x, q.order);
    }
    SortedListingIsUnique(after, rest, q.order);
  }

  /** In a sorted list the items after a point are those listed before none of its first part. */
  lemma AfterTheLast(head: seq<Item>, rest: seq<Item>, x: Item, order: Order)
    requires Sorted(head + rest, order) && |head| > 0
    ensures x in rest ==> Before(head[|head| - 1].key, x.key, order)
    ensures x in head ==> !Before(head[|head| - 1].key, x.key, order)
  {
    var all := head + rest;
    var last := |head| - 1;
    if x in rest {
      var k :| 0 <= k < |rest| && rest[k] == x;
      assert all[|head| + k] == x && all[last] == head[last];
    }
    if x in head {
      var k :| 0 <= k < |head| && head[k] == x;
      assert all[k] == x && all[last] == head[last];
      BeforeIsTotal(x.key, head[last].key, order);
      BeforeIsTotal(head[last].key, x.key, order);
    }
  }

  /** Newest first, with only newer rows arriving between the pages: the reader sees
      exactly the listing as it was when the first page was read. */
  lemma {:induction false} NewerRowsDoNotDisturb(q: Query, base: Rows, tables: seq<Rows>, pages: seq<Page>)
    requires q.order == Desc && Sound(base)
    requires Session(q, tables, pages)
    requires q.cursor.None? ==> tables[0] == base
    requires q.cursor.Some? ==> exists x :: x in Listing(q, base) && CursorKey(q) == Some(x.key)
    requires forall k :: 0 <= k < |tables| ==> Sound(tables[k]) && Grown(base, tables[k]) && OnlyNewerAdded(base, tables[k])
    ensures Flatten(pages) == Past(Listing(q, base), CursorKey(q), q.order)
    decreases |pages|
  {
    SessionDelivers(q, base, tables, pages);
    forall x | x in Flatten(pages)
      ensures x in Listing(q, base)
    {
      NewerRowsAreBehind(q, base, tables, pages, x);
    }
    AmongEverything(Flatten(pages), Listing(q, base));
  }

  /** Rows added to the tables are newer than all that were there. */
  ghost predicate OnlyNewerAdded(base: Rows, rows: Rows) {
    forall x, y :: x in rows.history + rows.activity && x !in base.history + base.activity && y in base.history + base.activity ==>
      x.key.createdAt > y.key.createdAt
  }

  /** Newest first, what is listed past an old row, or in the unchanged tables, is old. */
  lemma PastRowsAreOld(q: Query, base: Rows, rows: Rows, z: Item)
    requires q.order == Desc && Sound(base) && Sound(rows) && Grown(base, rows) && OnlyNewerAdded(base, rows)
    requires q.cursor.None? ==> rows == base
    requires q.cursor.Some? ==> exists y :: y in Listing(q, base) && CursorKey(q) == Some(y.key)
    requires z in Listing(q, rows) && Passes(CursorKey(q), z.key, q.order)
    ensures z in Listing(q, base)
  {
    if q.cursor.Some? && z !in Listing(q, base) {
      var y :| y in Listing(q, base) && CursorKey(q) == Some(y.key);
      ListingHolds(q, rows, z);
      ListingHolds(q, base, y);
      NewRowIsNew(q, base, rows, z);
    }
  }

  lemma {:induction false} NewerRowsAreBehind(q: Query, base: Rows, tables: seq<Rows>, pages: seq<Page>, x: Item)
    requires q.order == Desc && Sound(base)
    requires Session(q, tables, pages) && x in Flatten(pages)
    requires q.cursor.None? ==> tables[0] == base
    requires q.cursor.Some? ==> exists y :: y in Listing(q, base) && CursorKey(q) == Some(y.key)
    requires forall k :: 0 <= k < |tables| ==> Sound(tables[k]) && Grown(base, tables[k]) && OnlyNewerAdded(base, tables[k])
    ensures x in Listing(q, base)
    decreases |pages|
  {
    var p := pages[0];
    PageTakesAPrefix(q, tables[0], CursorKey(q));
    forall z | z in p.items
      ensures z in Listing(q, base)
    {
      PastHolds(Listing(q, tables[0]), CursorKey(q), q.order, z);
      PastRowsAreOld(q, base, tables[0], z);
    }
    if x !in p.items {
      assert x in Flatten(pages[1..]);
      if p.next.Some? {
        NextCursor(q, tables[0], p);
        assert p.items[|p.items| - 1] in Listing(q, base);
        NewerRowsAreBehind(q.(cursor := p.next), base, tables[1..], pages[1..], x);
      }
    }
  }

  lemma NewRowIsNew(q: Query, base: Rows, rows: Rows, z: Item)
    requires Sound(base) && Sound(rows) && Grown(base, rows)
    requires z in Listing(q, rows) && z !in Listing(q, base)
    ensures z !in base.history + base.activity
  {
    ListingHolds(q, rows, z);
    ListingHolds(q, base, z);
    if z in base.history + base.activity {
      if z in base.history {
        assert z in rows.history;
        SourcesAreApart(rows, z);
      } else {
        assert z in rows.activity;
        SourcesAreApart(rows, z);
      }
    }
  }

  lemma SourcesAreApart(rows: Rows, z: Item)
    requires Sound(rows)
    ensures !(z in rows.history && z in rows.activity)
  {
    var all := rows.history + rows.activity;
    forall i, j | 0 <= i < |rows.history| && 0 <= j < |rows.activity|
      ensures rows.history[i].key != rows.activity[j].key
    {
      assert all[i] == rows.history[i] && all[|rows.history| + j] == rows.activity[j];
    }
  }
}
