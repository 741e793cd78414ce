/** Keyset pages of the event list: following the cursor reads every event once, in order. */
module EventPaging {
  import opened Prelude
  import opened Sequences
  import opened Sorting

  datatype Row = Row(id: nat, occurredAt: int, category: string, severity: string)

  datatype Cursor = Cursor(at: int, id: nat)

  datatype Page = Page(rows: seq<Row>, next: Option<Cursor>)

  /** The first page is the one that neither a cursor nor `since` asked for. */
  datatype Answer = Ok(page: Page, isFirst: bool) | ValueError

  predicate Newer(a: Row, b: Row) {
    a.occurredAt > b.occurredAt || (a.occurredAt == b.occurredAt && a.id > b.id)
  }

  function NewestFirst(): (Row, Row) -> bool {
    (a: Row, b: Row) => Newer(a, b)
  }

  function CursorOf(r: Row): Cursor {
    Cursor(r.occurredAt, r.id)
  }

  predicate Beyond(r: Row, c: Cursor) {
    r.occurredAt < c.at || (r.occurredAt == c.at && r.id < c.id)
  }

  /** `since` asks for events with a larger id only. */
  datatype Filters = Filters(categories: seq<string>, severities: seq<string>, since: Option<int>)

  /** An empty filter lets everything through. */
  function Shown(filters: Filters, cursor: Option<Cursor>): Row -> bool {
    (r: Row) =>
      && (filters.categories == [] || r.category in filters.categories)
      && (filters.severities == [] || r.severity in filters.severities)
      && (filters.since.None? || r.id > filters.since.value)
      && (cursor.None? || Beyond(r, cursor.value))
  }

  /** Everything the statement selects, before its limit. */
  function Query(table: seq<Row>, filters: Filters, cursor: Option<Cursor>): seq<Row> {
    SortBy(Filter(table, Shown(filters, cursor)), NewestFirst())
  }

  function Take(rows: seq<Row>, n: nat): seq<Row> {
    if |rows| <= n then rows else rows[..n]
  }

  /** The visible rows and the cursor, given everything that is selected. */
  function PageOf(selected: seq<Row>, size: nat): Page
    requires size >= 1
  {
    var events := Take(selected, size + 1);
    var visible := Take(events, size);
    Page(visible, if |events| > size then Some(CursorOf(visible[|visible| - 1])) else None)
  }

  function Fragment(table: seq<Row>, size: nat, filters: Filters, cursor: Option<Cursor>): Page
    requires size >= 1
  {
    PageOf(Query(table, filters, cursor), size)
  }

  /** Ids are unique; that is all the order needs. */
  predicate UniqueIds(table: seq<Row>) {
    forall i, j :: 0 <= i < j < |table| ==> table[i].id != table[j].id
  }

  lemma NewestFirstIsAnOrder()
    ensures Transitive(NewestFirst()) && Irreflexive(NewestFirst())
  {
  }

  lemma {:induction false} FilterKeepsUnique(table: seq<Row>, p: Row -> bool)
    requires UniqueIds(table)
    ensures UniqueIds(Filter(table, p))
  {
    if table == [] {
    } else {
      var front, last := table[..|table| - 1], table[|table| - 1];
      FilterKeepsUnique(front, p);
      forall r | r in Filter(front, p) ensures r.id != last.id {
        assert r in front;
      }
    }
  }

  lemma UniqueIsComparable(table: seq<Row>)
    requires UniqueIds(table)
    ensures Comparable(table, NewestFirst())
  {
  }

  /** The query lists what it selects, each row once, newest first. */
  lemma QueryIsTheListing(table: seq<Row>, filters: Filters, cursor: Option<Cursor>)
    requires UniqueIds(table)
    ensures SortedBy(Query(table, filters, cursor), NewestFirst())
    ensures forall r :: r in Query(table, filters, cursor) <==> r in table && Shown(filters, cursor)(r)
  {
    var selected := Filter(table, Shown(filters, cursor));
    NewestFirstIsAnOrder();
    FilterKeepsUnique(table, Shown(filters, cursor));
    UniqueIsComparable(selected);
    SortSorts(selected, NewestFirst());
    SortMembers(selected, NewestFirst());
  }

  lemma TailOfListing(rows: seq<Row>, k: nat)
    requires SortedBy(rows, NewestFirst()) && 0 < k <= |rows|
    ensures SortedBy(rows[k..], NewestFirst())
    ensures forall r :: r in rows[k..] <==> r in rows && Beyond(r, CursorOf(rows[k - 1]))
  {
  }

  /** The page after a row continues right behind it. */
  lemma NextPageContinues(table: seq<Row>, filters: Filters, cursor: Option<Cursor>, k: nat)
    requires UniqueIds(table) && 0 < k <= |Query(table, filters, cursor)|
    ensures var rows := Query(table, filters, cursor);
      Query(table, filters, Some(CursorOf(rows[k - 1]))) == rows[k..]
  {
    var rows := Query(table, filters, cursor);
    var next := Query(table, filters, Some(CursorOf(rows[k - 1])));
    QueryIsTheListing(table, filters, cursor);
    QueryIsTheListing(table, filters, Some(CursorOf(rows[k - 1])));
    TailOfListing(rows, k);
    NewestFirstIsAnOrder();
    assert rows[k - 1] in rows;
    SortedIsUnique(next, rows[k..], NewestFirst());
  }

  /** A page is the front of what its cursor selects, and its own cursor selects the rest. */
  lemma PageSplitsTheRest(table: seq<Row>, size: nat, filters: Filters, cursor: Option<Cursor>)
    requires UniqueIds(table) && size >= 1
    ensures var rest, page := Query(table, filters, cursor), Fragment(table, size, filters, cursor);
      if page.next.None? then page.rows == rest
      else page.rows != [] && page.rows + Query(table, filters, page.next) == rest
  {
    var rest := Query(table, filters, cursor);
    PageIsTheFront(rest, size);
    if |rest| > size {
      NextPageContinues(table, filters, cursor, size);
      assert rest == rest[..size] + rest[size..];
    }
  }

  lemma PageIsTheFront(rest: seq<Row>, size: nat)
    requires size >= 1
    ensures |rest| <= size ==> PageOf(rest, size) == Page(rest, None)
    ensures |rest| > size ==> PageOf(rest, size) == Page(rest[..size], Some(CursorOf(rest[size - 1])))
  {
  }

  /** Rows that arrive above the cursor do not change what is below it. */
  lemma ArrivalsStayAbove(table: seq<Row>, more: seq<Row>, filters: Filters, cursor: Cursor)
    requires UniqueIds(table + more) && forall r :: r in more ==> !Beyond(r, cursor)
    ensures Query(table + more, filters, Some(cursor)) == Query(table, filters, Some(cursor))
  {
    assert UniqueIds(table) by {
      assert forall i :: 0 <= i < |table| ==> (table + more)[i] == table[i];
    }
    QueryIsTheListing(table, filters, Some(cursor));
    QueryIsTheListing(table + more, filters, Some(cursor));
    NewestFirstIsAnOrder();
    SortedIsUnique(Query(table + more, filters, Some(cursor)), Query(table, filters, Some(cursor)), NewestFirst());
  }

  class EventStore {
    var table: seq<Row>

    constructor ()
      ensures table == []
    {
      table := [];
    }

    /** One row more than a page is fetched, to know whether there is a next page. */
    method Cut(selected: seq<Row>, size: nat) returns (page: Page)
      requires size >= 1
      ensures page == PageOf(selected, size)
    {
      var events := Take(selected, size + 1);
      var visible, next := Take(events, size), None;
      if |events| > size {
        next := Some(CursorOf(visible[|visible| - 1]));
      }
      page := Page(visible, next);
    }

    /** A page needs a size, and both halves of its cursor or none. */
    method LoadFragment(size: int, beforeAt: Option<int>, beforeId: Option<nat>, filters: Filters)
      returns (a: Answer)
      ensures a.ValueError? <==> size < 1 || beforeAt.Some? != beforeId.Some?
      ensures a.Ok? ==>
        var cursor := if beforeAt.None? then None else Some(Cursor(beforeAt.value, beforeId.value));
        a.page == Fragment(table, size, filters, cursor) && (a.isFirst <==> cursor.None? && filters.since.None?)
    {
      if size < 1 {
        return ValueError;
      }
      if beforeAt.Some? != beforeId.Some? {
        return ValueError;
      }
      var cursor := if beforeAt.None? then None else Some(Cursor(beforeAt.value, beforeId.value));
      var page := Cut(Query(table, filters, cursor), size);
      a := Ok(page, beforeAt.None? && filters.since.None?);
    }

    /** Any events are recorded under new ids, as long as none of them is older than the cursor in use. */
    method RecordAbove(filters: Filters, cursor: Cursor)
      requires UniqueIds(table)
      modifies this
      ensures UniqueIds(table) && old(table) <= table
      ensures Query(table, filters, Some(cursor)) == Query(old(table), filters, Some(cursor))
    {
      var more: seq<Row> := *;
      if UniqueIds(table + more) && forall r :: r in more ==> !Beyond(r, cursor) {
        ArrivalsStayAbove(table, more, filters, cursor);
        table := table + more;
      }
    }

    /**
     * A reader that follows the cursor while events keep arriving above it: it ends, and has read
     * exactly the listing as it was when it started.
     */
    method ReadAll(size: int, filters: Filters) returns (rows: seq<Row>)
      requires UniqueIds(table) && size >= 1
      modifies this
      ensures rows == Query(old(table), filters, None)
    {
      ghost var listing := Query(table, filters, None);
      ghost var rest := listing;
      var cursor: Option<Cursor>, more := None, true;
      rows := [];
      while more
        invariant UniqueIds(table)
        invariant more ==> rest == Query(table, filters, cursor)
        invariant rows + rest == listing && (!more ==> rest == [])
        decreases more, |rest|
      {
        var page := NextPage(size, filters, cursor);
        PageSplitsTheRest(table, size, filters, cursor);
        more, cursor := page.next.Some?, page.next;
        rest := if more then Query(table, filters, cursor) else [];
        Regrouped(rows, page.rows, rest);
        rows := rows + page.rows;
        if more {
          RecordAbove(filters, cursor.value);
        }
      }
    }

    method NextPage(size: int, filters: Filters, cursor: Option<Cursor>) returns (page: Page)
      requires size >= 1
      ensures page == Fragment(table, size, filters, cursor)
    {
      var answer: Answer;
      if cursor.None? {
        answer := LoadFragment(size, None, None, filters);
      } else {
        answer := LoadFragment(size, Some(cursor.value.at), Some(cursor.value.id), filters);
      }
      page := answer.page;
    }
  }
}
