/**
 * Keyset pagination of the dashboard's relay listings: newest first by
 * (created_at, id), one look-ahead row, and a cursor that is the key of the last
 * row returned.
 */
module Pagination {
  import opened Wrappers

  /** A stored row; `id` stands for the rank of the identifier in the database's collation. */
  datatype Row = Row(createdAt: int, id: int, runtime: string, container: string)

  datatype Cursor = Cursor(createdAt: int, id: int)

  datatype Page = Page(rows: seq<Row>, hasMore: bool, next: Option<Cursor>)

  /** The filters of a request that do not change between pages. */
  type Filter = Row -> bool

  function Key(r: Row): Cursor { Cursor(r.createdAt, r.id) }

  /** `created_at < c.created_at or (created_at == c.created_at and id < c.id)`. */
  predicate OlderThan(r: Row, c: Cursor) {
    r.createdAt < c.createdAt || (r.createdAt == c.createdAt && r.id < c.id)
  }

  predicate Older(a: Row, b: Row) { OlderThan(a, Key(b)) }

  /** Identifiers are primary keys. */
  predicate UniqueIds(rows: set<Row>) {
    forall a, b {:trigger Distinct(a, b)} :: a in rows && b in rows && a != b ==> Distinct(a, b)
  }

  predicate Distinct(a: Row, b: Row) { a.id != b.id }

  function Matching(table: set<Row>, until: int, filter: Filter): set<Row> {
    set r | r in table && r.createdAt <= until && filter(r)
  }

  function After(rows: set<Row>, cursor: Option<Cursor>): set<Row> {
    if cursor.None? then rows else set r | r in rows && OlderThan(r, cursor.value)
  }

  predicate IsNewest(rows: set<Row>, m: Row) {
    m in rows && forall r :: r in rows && r != m ==> Older(r, m)
  }

  lemma {:induction false} NewestExists(rows: set<Row>)
    requires rows != {} && UniqueIds(rows)
    ensures exists m :: IsNewest(rows, m)
    decreases |rows|
  {
    var x :| x in rows;
    if rows == {x} {
      assert IsNewest(rows, x);
    } else {
      NewestExists(rows - {x});
      var m :| IsNewest(rows - {x}, m);
      assert Distinct(x, m);
      var best := if Older(m, x) then x else m;
      forall r | r in rows && r != best ensures Older(r, best) {
        assert r == x || r == m || Older(r, m);
      }
      assert IsNewest(rows, best);
    }
  }

  ghost function NewestRow(rows: set<Row>): (m: Row)
    requires rows != {} && UniqueIds(rows)
    ensures IsNewest(rows, m)
  {
    NewestExists(rows);
    var m :| IsNewest(rows, m);
    m
  }

  /** `ORDER BY created_at DESC, id DESC`. */
  ghost function Listing(rows: set<Row>): (s: seq<Row>)
    requires UniqueIds(rows)
    ensures |s| == |rows|
    decreases |rows|
  {
    if rows == {} then []
    else
      var m := NewestRow(rows);
      [m] + Listing(rows - {m})
  }

  ghost predicate Descending(s: seq<Row>) {
    forall i, j :: 0 <= i < j < |s| ==> Older(s[j], s[i])
  }

  /** The listing holds exactly the rows, each once, newest first. */
  lemma {:induction false} ListingIsSorted(rows: set<Row>)
    requires UniqueIds(rows)
    ensures Descending(Listing(rows)) && forall r :: r in Listing(rows) <==> r in rows
    decreases |rows|
  {
    if rows != {} {
      var m := NewestRow(rows);
      var rest := rows - {m};
      ListingIsSorted(rest);
      var tail := Listing(rest);
      assert Listing(rows) == [m] + tail;
      forall i, j | 0 <= i < j < |[m] + tail| ensures Older(([m] + tail)[j], ([m] + tail)[i]) {
        assert ([m] + tail)[j] == tail[j - 1] && tail[j - 1] in rest;
      }
      forall r ensures r in [m] + tail <==> r in rows {
        assert r in rows <==> r == m || r in rest;
      }
    }
  }

  lemma AfterTheNewest(rows: set<Row>, m: Row)
    requires IsNewest(rows, m)
    ensures After(rows, Some(Key(m))) == rows - {m}
  {
    var older := After(rows, Some(Key(m)));
    forall r
      ensures r in older <==> r in rows - {m}
    {
    }
  }

  lemma AfterSkipsTheNewer(rows: set<Row>, m: Row, last: Row)
    requires Older(last, m)
    ensures After(rows, Some(Key(last))) == After(rows - {m}, Some(Key(last)))
  {
  }

  /** The rows older than the `k`-th, listed, are what follows it in the listing. */
  lemma {:induction false} ListingAfter(rows: set<Row>, k: nat)
    requires UniqueIds(rows) && 0 < k <= |rows|
    ensures
      var rest := After(rows, Some(Key(Listing(rows)[k - 1])));
      UniqueIds(rest) && Listing(rest) == Listing(rows)[k..]
    decreases k
  {
    var m := NewestRow(rows);
    var rest := rows - {m};
    var tail := Listing(rest);
    assert Listing(rows) == [m] + tail;
    if k == 1 {
      AfterTheNewest(rows, m);
      assert Listing(rows)[1..] == tail;
    } else {
      ListingAfter(rest, k - 1);
      var last := tail[k - 2];
      assert Older(last, m) by {
        ListingIsSorted(rest);
        assert last in tail;
      }
      AfterSkipsTheNewer(rows, m, last);
      assert Listing(rows)[k - 1] == last && Listing(rows)[k..] == tail[k - 1..];
    }
  }

  /** `LIMIT n`. */
  function Take(s: seq<Row>, n: nat): seq<Row> {
    if |s| <= n then s else s[..n]
  }

  /** One request of either handler: fetch `limit + 1` rows, return `limit`, point at the last one. */
  ghost function Fetch(table: set<Row>, until: int, filter: Filter, cursor: Option<Cursor>, limit: nat): Page
    requires UniqueIds(table) && limit > 0
  {
    var fetched := Take(Listing(After(Matching(table, until, filter), cursor)), limit + 1);
    var hasMore := |fetched| > limit;
    var rows := if hasMore then fetched[..limit] else fetched;
    Page(rows, hasMore, if hasMore then Some(Key(rows[|rows| - 1])) else None)
  }

  /** Between pages the table changes only outside the filtered rows created by `until`. */
  ghost predicate Stable(tables: nat -> set<Row>, until: int, filter: Filter, listed: set<Row>) {
    && UniqueIds(listed)
    && forall n: nat :: UniqueIds(tables(n)) && Matching(tables(n), until, filter) == listed
  }

  /** The client follows cursors; the `i`-th request meets the `i`-th state of the table. */
  ghost function Follow(tables: nat -> set<Row>, i: nat, until: int, filter: Filter,
                        cursor: Option<Cursor>, limit: nat, listed: set<Row>): seq<Row>
    requires limit > 0 && Stable(tables, until, filter, listed)
    decreases |After(listed, cursor)|
  {
    var page := Fetch(tables(i), until, filter, cursor, limit);
    if page.next.None? then page.rows
    else
      FetchShrinks(tables(i), until, filter, cursor, limit);
      page.rows + Follow(tables, i + 1, until, filter, page.next, limit, listed)
  }

  /** A page that is not the last is a prefix of the remaining listing. */
  lemma PageIsAPrefix(table: set<Row>, until: int, filter: Filter, cursor: Option<Cursor>, limit: nat)
    requires UniqueIds(table) && limit > 0
    ensures
      var remaining := Listing(After(Matching(table, until, filter), cursor));
      var page := Fetch(table, until, filter, cursor, limit);
      if |remaining| <= limit then page == Page(remaining, false, None)
      else page == Page(remaining[..limit], true, Some(Key(remaining[limit - 1])))
  {
    var remaining := Listing(After(Matching(table, until, filter), cursor));
    if |remaining| > limit { assert Take(remaining, limit + 1)[..limit] == remaining[..limit]; }
  }

  /** A later cursor does not need the earlier one. */
  lemma LaterCursorsSuffice(rows: set<Row>, cursor: Option<Cursor>, last: Row)
    requires last in After(rows, cursor)
    ensures After(rows, Some(Key(last))) == After(After(rows, cursor), Some(Key(last)))
  {
  }

  /** A page that is not the last leaves exactly the tail of the remaining listing. */
  lemma FetchShrinks(table: set<Row>, until: int, filter: Filter, cursor: Option<Cursor>, limit: nat)
    requires UniqueIds(table) && limit > 0
    requires Fetch(table, until, filter, cursor, limit).next.Some?
    ensures
      var listed := Matching(table, until, filter);
      var page := Fetch(table, until, filter, cursor, limit);
      var rest := After(listed, page.next);
      && |rest| == |After(listed, cursor)| - limit
      && Listing(After(listed, cursor)) == page.rows + Listing(rest)
  {
    PageIsAPrefix(table, until, filter, cursor, limit);
    ListingSplits(Matching(table, until, filter), cursor, limit);
  }

  lemma ListingSplits(listed: set<Row>, cursor: Option<Cursor>, limit: nat)
    requires UniqueIds(listed) && 0 < limit <= |After(listed, cursor)|
    ensures
      var remaining := Listing(After(listed, cursor));
      var rest := After(listed, Some(Key(remaining[limit - 1])));
      UniqueIds(rest) && |rest| == |remaining| - limit && remaining == remaining[..limit] + Listing(rest)
  {
    var rows := After(listed, cursor);
    var last := Listing(rows)[limit - 1];
    assert last in rows by {
      ListingIsSorted(rows);
      assert last in Listing(rows);
    }
    LaterCursorsSuffice(listed, cursor, last);
    ListingAfter(rows, limit);
  }

  /** From any cursor, following to the end returns the rest of the listing. */
  lemma {:induction false} FollowReturnsTheRest(tables: nat -> set<Row>, i: nat, until: int, filter: Filter,
                                                cursor: Option<Cursor>, limit: nat, listed: set<Row>)
    requires limit > 0 && Stable(tables, until, filter, listed)
    ensures Follow(tables, i, until, filter, cursor, limit, listed) == Listing(After(listed, cursor))
    decreases |After(listed, cursor)|
  {
    var table := tables(i);
    var page := Fetch(table, until, filter, cursor, limit);
    if page.next.None? {
      PageIsAPrefix(table, until, filter, cursor, limit);
    } else {
      FetchShrinks(table, until, filter, cursor, limit);
      FollowReturnsTheRest(tables, i + 1, until, filter, page.next, limit, listed);
      FollowUnfolds(tables, i, until, filter, cursor, limit, listed);
    }
  }

  lemma FollowUnfolds(tables: nat -> set<Row>, i: nat, until: int, filter: Filter,
                      cursor: Option<Cursor>, limit: nat, listed: set<Row>)
    requires limit > 0 && Stable(tables, until, filter, listed)
    requires Fetch(tables(i), until, filter, cursor, limit).next.Some?
    ensures var page := Fetch(tables(i), until, filter, cursor, limit);
      Follow(tables, i, until, filter, cursor, limit, listed)
      == page.rows + Follow(tables, i + 1, until, filter, page.next, limit, listed)
  {
  }

  /**
   * Following cursors from a first page enumerates every matching row created by
   * `until` exactly once, newest first, whatever the page size and whatever rows
   * later than `until` (or outside the filters) appear between pages.
   */
  lemma ScanEnumeratesEverythingOnce(tables: nat -> set<Row>, until: int, filter: Filter, limit: nat)
    requires 1 <= limit <= 200
    requires Stable(tables, until, filter, Matching(tables(0), until, filter))
    ensures
      var listed := Matching(tables(0), until, filter);
      var scan := Follow(tables, 0, until, filter, None, limit, listed);
      && Descending(scan)
      && (forall r :: r in scan <==> r in listed)
      && |scan| == |listed|
      && forall i, j :: 0 <= i < j < |scan| ==> scan[i] != scan[j]
  {
    var listed := Matching(tables(0), until, filter);
    FollowReturnsTheRest(tables, 0, until, filter, None, limit, listed);
    ListingIsSorted(listed);
    var scan := Follow(tables, 0, until, filter, None, limit, listed);
    forall i, j | 0 <= i < j < |scan| ensures scan[i] != scan[j] { assert Older(scan[j], scan[i]); }
  }

  /** A cursor handed out lies inside `until`, so the preview handler accepts it back. */
  lemma CursorsStayInsideUntil(table: set<Row>, until: int, filter: Filter, cursor: Option<Cursor>, limit: nat)
    requires UniqueIds(table) && limit > 0
    requires Fetch(table, until, filter, cursor, limit).next.Some?
    ensures Fetch(table, until, filter, cursor, limit).next.value.createdAt <= until
  {
    PageIsAPrefix(table, until, filter, cursor, limit);
    var rows := After(Matching(table, until, filter), cursor);
    var last := Listing(rows)[limit - 1];
    assert last in rows by {
      ListingIsSorted(rows);
      assert last in Listing(rows);
    }
  }
}
