/**
 Walking a history page by page (app/api/v1/servers.py, app/api/v1/channels.py, `list_metrics` of both repositories).
 Server samples and channel samples are served by the same code: filter by owner and range, order by instant and id,
 fetch one row more than asked for, and hand out the last returned row's key as the cursor. The table may be any other
 table at each request.
 */
module Pagination {
  import opened Wrappers
  import opened CursorCodec

  /** A row of `server_metrics` or `channel_metrics`; instants count microseconds from the least one. */
  datatype Sample = Sample(id: nat, owner: nat, collectedAt: nat, payload: int)

  datatype Query = Query(owner: nat, start: Option<nat>, end: Option<nat>, limit: nat)

  type Cursor = Position<nat>

  predicate Newer(a: Sample, b: Sample) {
    a.collectedAt > b.collectedAt || (a.collectedAt == b.collectedAt && a.id > b.id)
  }

  /** The row lies strictly behind the cursor. */
  predicate Behind(r: Sample, cursor: Cursor) {
    r.collectedAt < cursor.collectedAt || (r.collectedAt == cursor.collectedAt && r.id < cursor.itemId)
  }

  predicate InRange(q: Query, r: Sample) {
    && r.owner == q.owner
    && (q.start.Some? ==> r.collectedAt >= q.start.value)
    && (q.end.Some? ==> r.collectedAt <= q.end.value)
  }

  /** The WHERE clause of `list_metrics`. */
  predicate Selects(q: Query, before: Option<Cursor>, r: Sample) {
    InRange(q, r) && (before.Some? ==> Behind(r, before.value))
  }

  function Matching(table: set<Sample>, q: Query, before: Option<Cursor>): set<Sample> {
    set r | r in table && Selects(q, before, r)
  }

  /** The primary key. */
  ghost predicate Keyed(rows: set<Sample>) {
    forall a, b :: a in rows && b in rows && a.id == b.id ==> a == b
  }

  // ----- ORDER BY ... LIMIT -----

  ghost predicate IsTop(rows: set<Sample>, top: Sample) {
    top in rows && forall r :: r in rows ==> r == top || Newer(top, r)
  }

  lemma {:induction false} TopExists(rows: set<Sample>)
    requires rows != {} && Keyed(rows)
    ensures exists top :: IsTop(rows, top)
  {
    var r :| r in rows;
    var rest := rows - {r};
    assert forall x :: x in rows ==> x == r || x in rest;
    if rest == {} {
      assert IsTop(rows, r);
    } else {
      TopExists(rest);
      var top :| IsTop(rest, top);
      assert IsTop(rows, if Newer(r, top) then r else top);
    }
  }

  ghost function Top(rows: set<Sample>): (top: Sample)
    requires rows != {} && Keyed(rows)
    ensures IsTop(rows, top)
  {
    TopExists(rows);
    var top :| IsTop(rows, top);
    top
  }

  ghost predicate Descending(rows: seq<Sample>) {
    forall i, j :: 0 <= i < j < |rows| ==> Newer(rows[i], rows[j])
  }

  /** The first `n` rows in descending order: they are rows of the set, and what is missing is older than all of them. */
  ghost function FirstRows(rows: set<Sample>, n: nat): (page: seq<Sample>)
    requires Keyed(rows)
    ensures |page| <= n && Descending(page)
    ensures forall r :: r in page ==> r in rows
    ensures forall r :: r in rows && r !in page ==> |page| == n && forall i :: 0 <= i < n ==> Newer(page[i], r)
    decreases n
  {
    if n == 0 || rows == {} then []
    else
      var top := Top(rows);
      [top] + FirstRows(rows - {top}, n - 1)
  }

  /** `list_metrics`. */
  ghost function ListMetrics(table: set<Sample>, q: Query, limit: nat, before: Option<Cursor>): seq<Sample>
    requires Keyed(table)
  {
    FirstRows(Matching(table, q, before), limit)
  }

  // ----- Pages -----

  datatype Page = Page(rows: seq<Sample>, next: Option<Cursor>)

  function CursorOf(r: Sample): Cursor {
    Position(r.collectedAt, r.id)
  }

  /** What the endpoint makes of the rows it fetched. */
  function Cut(fetched: seq<Sample>, limit: nat): Page
    requires limit > 0
  {
    if |fetched| > limit then Page(fetched[..limit], Some(CursorOf(fetched[limit - 1]))) else Page(fetched, None)
  }

  /** `list_server_metrics` and `list_channel_metrics`. */
  ghost function Serve(table: set<Sample>, q: Query, before: Option<Cursor>): Page
    requires Keyed(table) && q.limit > 0
  {
    Cut(ListMetrics(table, q, q.limit + 1, before), q.limit)
  }

  lemma MatchingIsExact(table: set<Sample>, q: Query, before: Option<Cursor>, r: Sample)
    ensures r in Matching(table, q, before) <==> r in table && Selects(q, before, r)
  {
  }

  /** A page in terms of the WHERE clause; it leads on exactly when older rows are left. */
  lemma {:induction false} PageSelects(table: set<Sample>, q: Query, before: Option<Cursor>)
    requires Keyed(table) && q.limit > 0
    ensures
      var page := Serve(table, q, before);
      && |page.rows| <= q.limit && Descending(page.rows)
      && (forall r :: r in page.rows ==> r in table && Selects(q, before, r))
      && (page.next.Some? ==>
            && |page.rows| == q.limit && page.next.value == CursorOf(page.rows[q.limit - 1])
            && exists r :: r in table && Selects(q, page.next, r))
      && (forall r :: r in table && Selects(q, before, r) && r !in page.rows ==> page.next.Some? && Selects(q, page.next, r))
  {
    var fetched, page := ListMetrics(table, q, q.limit + 1, before), Serve(table, q, before);
    hide FirstRows;
    forall r | r in page.rows
      ensures r in table && Selects(q, before, r)
    {
      assert r in fetched;
    }
    hide Matching, InRange;
    if |fetched| > q.limit {
      var last, extra := fetched[q.limit - 1], fetched[q.limit];
      assert extra in fetched && Newer(last, extra);
      MatchingIsExact(table, q, before, extra);
      assert forall i :: 0 <= i < q.limit ==> page.rows[i] == fetched[i];
      assert forall i :: 0 <= i < q.limit ==> fetched[i] in page.rows;
      forall r | r in table && Selects(q, before, r) && r !in page.rows
        ensures Selects(q, page.next, r)
      {
        if r in fetched {
          var i :| 0 <= i < |fetched| && fetched[i] == r;
        } else {
          MatchingIsExact(table, q, before, r);
        }
      }
    } else {
      forall r | r in table && Selects(q, before, r)
        ensures r in page.rows
      {
        MatchingIsExact(table, q, before, r);
      }
    }
  }

  /** What a client that stands at `before` asks for, column by column. */
  ghost predicate Asked(q: Query, before: Option<Cursor>, r: Sample) {
    && r.owner == q.owner
    && (q.start.Some? ==> q.start.value <= r.collectedAt) && (q.end.Some? ==> r.collectedAt <= q.end.value)
    && (before.Some? ==>
          || r.collectedAt < before.value.collectedAt
          || (r.collectedAt == before.value.collectedAt && r.id < before.value.itemId))
  }

  /** From the latest instant to the earliest, and among equal instants from the greatest id to the least. */
  ghost predicate LatestFirst(rows: seq<Sample>) {
    forall i, j :: 0 <= i < j < |rows| ==>
                     || rows[i].collectedAt > rows[j].collectedAt
                     || (rows[i].collectedAt == rows[j].collectedAt && rows[i].id > rows[j].id)
  }

  /**
   A page column by column. Its rows are asked for, the latest first; it has a cursor, the key of its last row, exactly
   when a row that is asked for is missing, and then it is full, and what is missing is asked for from the cursor on.
   */
  lemma {:induction false} PageIsExact(table: set<Sample>, q: Query, before: Option<Cursor>)
    requires Keyed(table) && q.limit > 0
    ensures
      var page := Serve(table, q, before);
      && |page.rows| <= q.limit && LatestFirst(page.rows)
      && (forall r :: r in page.rows ==> r in table && Asked(q, before, r))
      && (page.next.Some? ==>
            && |page.rows| == q.limit
            && page.next.value.collectedAt == page.rows[q.limit - 1].collectedAt
            && page.next.value.itemId == page.rows[q.limit - 1].id)
      && (page.next.Some? <==> exists r :: r in table && Asked(q, before, r) && r !in page.rows)
      && (forall r :: r in table && Asked(q, before, r) && r !in page.rows ==> Asked(q, page.next, r))
  {
    hide Serve, Keyed;
    PageSelects(table, q, before);
    var page := Serve(table, q, before);
    if page.next.Some? {
      var r :| r in table && Selects(q, page.next, r);
      var last := page.rows[q.limit - 1];
      assert last in page.rows;
      BehindIsTransitive(last, r, before);
      assert r in table && Asked(q, before, r) && r !in page.rows;
    }
  }

  // ----- Walks -----

  /** Every table the walk may meet has its primary key. */
  ghost predicate AllKeyed(tables: nat -> set<Sample>) {
    forall k :: Keyed(tables(k))
  }

  ghost predicate CursorIsNatural(before: Option<Cursor>) {
    before.Some? ==> before.value.itemId >= 0
  }

  /**
   The pages a client gets that follows cursors from request `k` on, while the tables change as they like between
   requests. That the function is total says that the walk ends: the cursor decreases lexicographically.
   */
  ghost function Walk(tables: nat -> set<Sample>, q: Query, k: nat, before: Option<Cursor>): (pages: seq<Page>)
    requires AllKeyed(tables) && q.limit > 0 && CursorIsNatural(before)
    ensures pages != []
    decreases before.None?, if before.Some? then before.value.collectedAt else 0,
              if before.Some? then before.value.itemId else 0
  {
    var page := Serve(tables(k), q, before);
    PageSelects(tables(k), q, before);
    assert page.next.Some? ==> page.rows[q.limit - 1] in page.rows;
    if page.next.None? then [page] else [page] + Walk(tables, q, k + 1, page.next)
  }

  function AllRows(pages: seq<Page>): seq<Sample> {
    if pages == [] then [] else pages[0].rows + AllRows(pages[1..])
  }

  /** The row is in the table at every request of the walk. */
  ghost predicate Present(tables: nat -> set<Sample>, k: nat, n: nat, r: Sample) {
    forall j: nat :: k <= j < k + n ==> r in tables(j)
  }

  /** The row is in the table at some request of the walk. */
  ghost predicate Met(tables: nat -> set<Sample>, k: nat, n: nat, r: Sample) {
    exists j: nat :: k <= j < k + n && r in tables(j)
  }

  /** What every walk returns. */
  ghost predicate ExactlyOnce(tables: nat -> set<Sample>, q: Query, k: nat, before: Option<Cursor>, pages: seq<Page>) {
    && Descending(AllRows(pages))
    && (forall r :: r in AllRows(pages) ==> Selects(q, before, r) && Met(tables, k, |pages|, r))
    && (forall r :: Present(tables, k, |pages|, r) && Selects(q, before, r) ==> r in AllRows(pages))
  }

  /** A page in front of a walk from its cursor. */
  lemma {:induction false} PageInFront(tables: nat -> set<Sample>, q: Query, k: nat, before: Option<Cursor>,
                                       page: Page, rest: seq<Page>)
    requires AllKeyed(tables) && q.limit > 0 && page == Serve(tables(k), q, before) && page.next.Some?
    requires ExactlyOnce(tables, q, k + 1, page.next, rest)
    ensures ExactlyOnce(tables, q, k, before, [page] + rest)
  {
    PageSelects(tables(k), q, before);
    hide Serve, InRange;
    var pages, tail := [page] + rest, AllRows(rest);
    assert AllRows(pages) == page.rows + tail by {
      assert pages[1..] == rest;
    }
    hide AllRows;
    assert Descending(page.rows + tail) by {
      forall i, j | 0 <= i < |page.rows| && 0 <= j < |tail|
        ensures Newer(page.rows[i], tail[j])
      {
        assert tail[j] in tail && Behind(tail[j], page.next.value);
      }
    }
    forall r | r in AllRows(pages)
      ensures Selects(q, before, r) && Met(tables, k, |pages|, r)
    {
      if r in page.rows {
        assert r in tables(k);
      } else {
        BehindIsTransitive(page.rows[q.limit - 1], r, before);
      }
    }
    forall r | Present(tables, k, |pages|, r) && Selects(q, before, r)
      ensures r in AllRows(pages)
    {
      assert r in tables(k);
      assert Present(tables, k + 1, |rest|, r);
    }
  }

  lemma BehindIsTransitive(a: Sample, r: Sample, before: Option<Cursor>)
    requires Behind(r, CursorOf(a)) && (before.Some? ==> Behind(a, before.value))
    ensures before.Some? ==> Behind(r, before.value)
  {
  }

  lemma {:induction false} WalkSelects(tables: nat -> set<Sample>, q: Query, k: nat, before: Option<Cursor>)
    requires AllKeyed(tables) && q.limit > 0 && CursorIsNatural(before)
    ensures ExactlyOnce(tables, q, k, before, Walk(tables, q, k, before))
    decreases before.None?, if before.Some? then before.value.collectedAt else 0,
              if before.Some? then before.value.itemId else 0
  {
    var page := Serve(tables(k), q, before);
    PageSelects(tables(k), q, before);
    hide Serve, InRange;
    if page.next.None? {
      LastPage(tables, q, k, before, page);
    } else {
      assert page.rows[q.limit - 1] in page.rows;
      WalkSelects(tables, q, k + 1, page.next);
      hide ExactlyOnce;
      PageInFront(tables, q, k, before, page, Walk(tables, q, k + 1, page.next));
    }
  }

  lemma {:induction false} LastPage(tables: nat -> set<Sample>, q: Query, k: nat, before: Option<Cursor>, page: Page)
    requires AllKeyed(tables) && q.limit > 0 && page == Serve(tables(k), q, before) && page.next.None?
    ensures ExactlyOnce(tables, q, k, before, [page])
  {
    assert AllRows([page]) == page.rows;
    assert forall r :: r in page.rows ==> r in tables(k);
    assert forall r :: Present(tables, k, 1, r) ==> r in tables(k);
  }

  /**
   Exactly once: following cursors to the end while rows come and go returns strictly descending keys over all pages,
   so no row twice; only rows that are asked for; and every such row that was there at each request.
   */
  lemma {:induction false} WalkIsExactlyOnce(tables: nat -> set<Sample>, q: Query, k: nat, before: Option<Cursor>)
    requires AllKeyed(tables) && q.limit > 0 && CursorIsNatural(before)
    ensures
      var pages := Walk(tables, q, k, before);
      && LatestFirst(AllRows(pages))
      && (forall r :: r in AllRows(pages) ==> Asked(q, before, r) && Met(tables, k, |pages|, r))
      && (forall r :: Present(tables, k, |pages|, r) && Asked(q, before, r) ==> r in AllRows(pages))
  {
    WalkSelects(tables, q, k, before);
    hide Walk, AllRows, Present, Met;
  }

  /** Every page of a walk but the last is full, and only the last has no cursor. */
  lemma {:induction false} OnlyTheLastPageEnds(tables: nat -> set<Sample>, q: Query, k: nat, before: Option<Cursor>, i: nat)
    requires AllKeyed(tables) && q.limit > 0 && CursorIsNatural(before) && i < |Walk(tables, q, k, before)|
    ensures
      var pages := Walk(tables, q, k, before);
      && (pages[i].next.None? <==> i == |pages| - 1)
      && (i < |pages| - 1 ==> |pages[i].rows| == q.limit)
      && |pages[i].rows| <= q.limit
    decreases i
  {
    hide Serve, InRange, Behind, Keyed;
    var page := Serve(tables(k), q, before);
    PageSelects(tables(k), q, before);
    if page.next.Some? && i > 0 {
      assert page.rows[q.limit - 1] in page.rows;
      OnlyTheLastPageEnds(tables, q, k + 1, page.next, i - 1);
    }
  }

  // ----- Cursors as text -----

  datatype Response = BadRequest | Found(rows: seq<Sample>, header: Option<string>)

  /** The endpoint from query string to `X-Next-Cursor` header. */
  ghost function Respond(isoformat: nat -> string, fromisoformat: string -> Option<nat>,
                         table: set<Sample>, q: Query, cursor: Option<string>): Response
    requires Keyed(table) && q.limit > 0 && Lawful(isoformat, fromisoformat)
  {
    var before: Option<Cursor> := if cursor.None? then None else DecodeCursor(fromisoformat, cursor.value);
    if cursor.Some? && before.None? then BadRequest
    else
      var page := Serve(table, q, before);
      Found(page.rows, if page.next.None? then None else Some(EncodeCursor(isoformat, page.next.value)))
  }

  /** The printer of instants is ASCII, has no bar, and its reader undoes it. */
  ghost predicate Lawful(isoformat: nat -> string, fromisoformat: string -> Option<nat>) {
    forall t: nat :: IsAscii(isoformat(t)) && '|' !in isoformat(t) && fromisoformat(isoformat(t)) == Some(t)
  }

  /** Sending back the header of one page asks for exactly the next page of the walk. */
  lemma {:induction false} HeaderLeadsToTheNextPage(isoformat: nat -> string, fromisoformat: string -> Option<nat>,
                                                    table: set<Sample>, q: Query, position: Cursor)
    requires Keyed(table) && q.limit > 0 && Lawful(isoformat, fromisoformat)
    ensures
      var page := Serve(table, q, Some(position));
      Respond(isoformat, fromisoformat, table, q, Some(EncodeCursor(isoformat, position))) ==
      Found(page.rows, if page.next.None? then None else Some(EncodeCursor(isoformat, page.next.value)))
  {
    CursorRoundTrip(isoformat, fromisoformat, position);
    hide Serve, DecodeCursor, EncodeCursor;
  }
}
