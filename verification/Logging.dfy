/** GET /v1/logging (api/logging.py): one page of the audit log, and the walk a client makes over
    `next_since` while rows are being appended. */
module Logging {
  import opened Wrappers

  const EFFECTIVE_BUDGET := 79488
  const LIMIT_MIN := 1
  const LIMIT_MAX := 500

  /** A row of audit_events; `size` is the length of its encoded event. */
  datatype Row = Row(id: nat, slotId: Option<string>, eventType: string, size: nat)

  datatype Filter = Filter(slotId: Option<string>, eventType: Option<string>)

  datatype Page = Page(events: seq<Row>, nextSince: Option<nat>, oversized: bool)

  /** AUTOINCREMENT: ids grow from row to row. */
  ghost predicate Ascending(rows: seq<Row>) {
    forall i, j :: 0 <= i < j < |rows| ==> rows[i].id < rows[j].id
  }

  predicate Matches(f: Filter, r: Row) {
    && (f.slotId.Some? ==> r.slotId == f.slotId)
    && (f.eventType.Some? ==> Some(r.eventType) == f.eventType)
  }

  /** Every row passes the filter made of its own slot and type, and the empty one; whatever two rows pass a filter that
      names a slot, or a type, have it in common; and a filter that names both is the two in one. */
  lemma FilterMeans(f: Filter, r: Row, q: Row)
    ensures Matches(Filter(r.slotId, Some(r.eventType)), r) && Matches(Filter(None, None), r)
    ensures Matches(f, r) && Matches(f, q) && f.slotId.Some? ==> r.slotId == q.slotId == f.slotId
    ensures Matches(f, r) && Matches(f, q) && f.eventType.Some? ==> r.eventType == q.eventType == f.eventType.value
    ensures Matches(f, r) <==> Matches(Filter(f.slotId, None), r) && Matches(Filter(None, f.eventType), r)
  {
  }

  /** The rows of the WHERE clause, in the order of the table. */
  function Matching(table: seq<Row>, f: Filter, since: nat): seq<Row> {
    if table == [] then []
    else if table[0].id >= since && Matches(f, table[0]) then [table[0]] + Matching(table[1..], f, since)
    else Matching(table[1..], f, since)
  }

  function First(rows: seq<Row>, limit: nat): seq<Row> {
    if |rows| <= limit then rows else rows[..limit]
  }

  /** The number in the allowed range that is nearest to what was asked for. */
  function Clamped(limit: int): (n: nat)
    ensures LIMIT_MIN <= n <= LIMIT_MAX
    ensures (n < limit ==> n == LIMIT_MAX) && (n > limit ==> n == LIMIT_MIN)
  {
    if limit < LIMIT_MIN then LIMIT_MIN else if limit > LIMIT_MAX then LIMIT_MAX else limit
  }

  /** The characters a list of events takes. */
  function Used(rows: seq<Row>): nat {
    if rows == [] then 0 else Used(rows[..|rows| - 1]) + rows[|rows| - 1].size
  }

  lemma NothingUsed()
    ensures Used([]) == 0
  {
  }

  lemma UsedNext(rows: seq<Row>, i: nat)
    requires i < |rows|
    ensures Used(rows[..i + 1]) == Used(rows[..i]) + rows[i].size
  {
    assert rows[..i + 1][..i] == rows[..i];
  }

  /** What a page may be, for the rows at or after its cursor: a prefix of them, as long as the row limit
      and the budget allow; a first row over the budget goes out alone, flagged; and the cursor names the
      next row, or the id after the last one when the limit was reached, or nothing. */
  ghost predicate IsPage(p: Page, rows: seq<Row>, limit: nat) {
    var n := |p.events|;
    && n <= |rows| && n <= limit && p.events == rows[..n]
    && (p.oversized <==> n > 0 && Used(p.events) > EFFECTIVE_BUDGET)
    && (p.oversized ==> n == 1)
    && (n < |rows| && n < limit && !p.oversized ==> Used(rows[..n + 1]) > EFFECTIVE_BUDGET)
    && (rows != [] && limit > 0 ==> n > 0)
    && p.nextSince == (if n == limit > 0 || p.oversized then Some(rows[n - 1].id + 1)
                       else if n < |rows| then Some(rows[n].id)
                       else None)
  }

  /** The endpoint once its loop has taken the first `n` of the selected rows. */
  function Ended(rows: seq<Row>, limit: nat, n: nat): Page
    requires n <= |rows|
  {
    if n == 0 && rows != [] then Page([rows[0]], Some(rows[0].id + 1), true)
    else if n < |rows| then Page(rows[..n], Some(rows[n].id), false)
    else Page(rows, if |rows| == limit && rows != [] then Some(rows[|rows| - 1].id + 1) else None, false)
  }

  lemma EndedIsPage(all: seq<Row>, limit: nat, n: nat)
    requires limit > 0 && n <= |First(all, limit)|
    requires Used(First(all, limit)[..n]) <= EFFECTIVE_BUDGET
    requires n < |First(all, limit)| ==> Used(First(all, limit)[..n + 1]) > EFFECTIVE_BUDGET
    ensures IsPage(Ended(First(all, limit), limit, n), all, limit)
  {
    var rows := First(all, limit);
    assert rows[..n] == all[..n];
    if n < |rows| {
      assert rows[..n + 1] == all[..n + 1];
    }
    if n == 0 && rows != [] {
      assert all[..1] == [rows[0]];
    }
  }

  /** The endpoint: SELECT, then the loop that fills the page. */
  method GetLogging(table: seq<Row>, since: nat, f: Filter, limit: int) returns (p: Page)
    ensures IsPage(p, Matching(table, f, since), Clamped(limit))
  {
    hide IsPage, Used, Matching, First;
    var lim := limit;
    if lim < LIMIT_MIN {
      lim := LIMIT_MIN;
    } else if lim > LIMIT_MAX {
      lim := LIMIT_MAX;
    }
    var rows := First(Matching(table, f, since), lim);
    var events, used, nextSince, oversized := [], 0, None, false;
    NothingUsed();
    var i := 0;
    while i < |rows| && used + rows[i].size <= EFFECTIVE_BUDGET
      invariant 0 <= i <= |rows| && events == rows[..i]
      invariant used == Used(events) <= EFFECTIVE_BUDGET
    {
      UsedNext(rows, i);
      events, used, i := events + [rows[i]], used + rows[i].size, i + 1;
    }
    if i < |rows| {
      UsedNext(rows, i);
    }
    EndedIsPage(Matching(table, f, since), lim, i);
    assert i == |rows| ==> events == rows;
    if i < |rows| {
      nextSince := Some(rows[i].id);
    } else if |rows| == lim && events != [] {
      nextSince := Some(events[|events| - 1].id + 1);
    }
    if events == [] && rows != [] {
      events, oversized, nextSince := [rows[0]], true, Some(rows[0].id + 1);
    }
    p := Page(events, nextSince, oversized);
  }

  // ---- what a page leaves for the next cursor ----

  lemma {:induction false} MatchingAppend(a: seq<Row>, b: seq<Row>, f: Filter, since: nat)
    ensures Matching(a + b, f, since) == Matching(a, f, since) + Matching(b, f, since)
  {
    if a == [] {
      assert a + b == b;
    } else {
      assert (a + b)[1..] == a[1..] + b;
      MatchingAppend(a[1..], b, f, since);
    }
  }

  lemma {:induction false} MatchingIs(table: seq<Row>, f: Filter, since: nat)
    requires Ascending(table)
    ensures Ascending(Matching(table, f, since))
    ensures forall r :: r in Matching(table, f, since) <==> r in table && r.id >= since && Matches(f, r)
  {
    if table != [] {
      MatchingIs(table[1..], f, since);
    }
  }

  lemma {:induction false} MatchingTwice(table: seq<Row>, f: Filter, since: nat, c: nat)
    requires since <= c
    ensures Matching(table, f, c) == Matching(Matching(table, f, since), f, c)
  {
    if table != [] {
      var rest := Matching(table[1..], f, since);
      MatchingTwice(table[1..], f, since, c);
      assert ([table[0]] + rest)[1..] == rest;
    }
  }

  lemma {:induction false} NoneMatching(rows: seq<Row>, f: Filter, c: nat)
    requires forall i :: 0 <= i < |rows| ==> rows[i].id < c
    ensures Matching(rows, f, c) == []
  {
    if rows != [] {
      NoneMatching(rows[1..], f, c);
    }
  }

  lemma {:induction false} AllMatching(rows: seq<Row>, f: Filter, c: nat)
    requires forall i :: 0 <= i < |rows| ==> rows[i].id >= c && Matches(f, rows[i])
    ensures Matching(rows, f, c) == rows
  {
    if rows != [] {
      AllMatching(rows[1..], f, c);
    }
  }

  lemma RestIsFrom(rows: seq<Row>, f: Filter, c: nat, n: nat)
    requires Ascending(rows) && n <= |rows| && (n < |rows| ==> rows[n].id >= c)
    requires forall r :: r in rows ==> Matches(f, r)
    ensures forall i :: 0 <= i < |rows[n..]| ==> rows[n..][i].id >= c && Matches(f, rows[n..][i])
  {
    hide Matches;
    forall i | 0 <= i < |rows[n..]| ensures rows[n..][i].id >= c && Matches(f, rows[n..][i]) {
      assert rows[n + i] in rows;
      assert i > 0 ==> rows[n].id < rows[n + i].id;
    }
  }

  lemma CutAt(rows: seq<Row>, f: Filter, c: nat, n: nat)
    requires Ascending(rows) && n <= |rows| && (n < |rows| ==> rows[n].id >= c)
    requires forall r :: r in rows ==> Matches(f, r)
    requires forall i :: 0 <= i < n ==> rows[i].id < c
    ensures Matching(rows, f, c) == rows[n..]
  {
    var early, late := rows[..n], rows[n..];
    assert rows == early + late;
    RestIsFrom(rows, f, c, n);
    hide Ascending, Matches, Matching;
    MatchingAppend(early, late, f, c);
    NoneMatching(early, f, c);
    AllMatching(late, f, c);
  }

  /** Moving the cursor to `c` drops exactly the matching rows before `c`. */
  lemma MatchingFrom(table: seq<Row>, f: Filter, since: nat, c: nat, n: nat)
    requires Ascending(table) && since <= c && n <= |Matching(table, f, since)|
    requires forall i :: 0 <= i < n ==> Matching(table, f, since)[i].id < c
    requires n < |Matching(table, f, since)| ==> Matching(table, f, since)[n].id >= c
    ensures Matching(table, f, c) == Matching(table, f, since)[n..]
  {
    MatchingTwice(table, f, since, c);
    MatchingIs(table, f, since);
    CutAt(Matching(table, f, since), f, c, n);
  }

  /** A page and the rows from its cursor on are the rows from the old cursor on, also in a table to which
      rows were appended since; the cursor has moved forward. */
  lemma PageSplits(p: Page, table: seq<Row>, later: seq<Row>, f: Filter, since: nat, limit: nat)
    requires limit > 0 && table <= later && Ascending(later)
    requires IsPage(p, Matching(table, f, since), limit) && p.nextSince.Some?
    ensures p.nextSince.value > since && p.events != []
    ensures p.events + Matching(later, f, p.nextSince.value) == Matching(later, f, since)
  {
    hide IsPage, Matching, Matches, Ascending;
    var rows, all := Matching(table, f, since), Matching(later, f, since);
    MatchingGrows(table, later, f, since);
    MatchingIs(later, f, since);
    CursorFits(p, rows, all, limit);
    assert all[0] in all;
    MatchingFrom(later, f, since, p.nextSince.value, |p.events|);
  }

  lemma MatchingGrows(table: seq<Row>, later: seq<Row>, f: Filter, since: nat)
    requires table <= later
    ensures Matching(table, f, since) <= Matching(later, f, since)
  {
    assert later == table + later[|table|..];
    MatchingAppend(table, later[|table|..], f, since);
    hide Matching;
  }

  /** The cursor lies after the rows of the page and not after any other. */
  lemma CursorFits(p: Page, rows: seq<Row>, all: seq<Row>, limit: nat)
    requires limit > 0 && rows <= all && Ascending(all)
    requires IsPage(p, rows, limit) && p.nextSince.Some?
    ensures var n, c := |p.events|, p.nextSince.value;
            && 0 < n <= |all| && p.events == all[..n] && all[n - 1].id < c
            && (forall i :: 0 <= i < n ==> all[i].id < c)
            && (n < |all| ==> all[n].id >= c)
  {
    hide Used;
  }

  // ---- the walk ----

  /** One table for each request, each the one before with rows appended. */
  ghost predicate Growing(tables: seq<seq<Row>>) {
    forall i, j :: 0 <= i <= j < |tables| ==> tables[i] <= tables[j] && Ascending(tables[j])
  }

  /** The pages of a client that follows `next_since`; request i is answered from tables[i]. */
  ghost predicate IsWalk(tables: seq<seq<Row>>, f: Filter, limit: nat, since: nat, pages: seq<Page>)
    decreases pages
  {
    && 0 < |pages| == |tables|
    && IsPage(pages[0], Matching(tables[0], f, since), limit)
    && (|pages| > 1 ==>
          pages[0].nextSince.Some? && IsWalk(tables[1..], f, limit, pages[0].nextSince.value, pages[1..]))
  }

  function Returned(pages: seq<Page>): seq<Row>
    decreases pages
  {
    if pages == [] then [] else pages[0].events + Returned(pages[1..])
  }

  /** However far a walk has come, it has returned the matching rows in order from the first, none left out
      and none twice; it has returned all of the last table's once a cursor is null. Every page but the last
      holds a row, so the walk cannot go on for longer than there are rows. */
  lemma {:induction false} WalkReturnsPrefix(tables: seq<seq<Row>>, f: Filter, limit: nat, since: nat, pages: seq<Page>)
    requires limit > 0 && Growing(tables) && IsWalk(tables, f, limit, since, pages)
    ensures var last := |pages| - 1;
            && Returned(pages) <= Matching(tables[last], f, since)
            && (pages[last].nextSince.None? ==> Returned(pages) == Matching(tables[last], f, since))
            && |pages| <= |Returned(pages)| + 1
    decreases pages
  {
    var last := |pages| - 1;
    hide IsPage;
    if last == 0 {
      assert Returned(pages) == pages[0].events + Returned([]);
      OnlyPage(pages[0], Matching(tables[0], f, since), limit);
    } else {
      var c := pages[0].nextSince.value;
      PageSplits(pages[0], tables[0], tables[last], f, since, limit);
      assert forall i, j :: 0 <= i <= j < |tables[1..]| ==>
          tables[1..][i] == tables[i + 1] && tables[1..][j] == tables[j + 1];
      WalkReturnsPrefix(tables[1..], f, limit, c, pages[1..]);
    }
  }

  lemma OnlyPage(p: Page, rows: seq<Row>, limit: nat)
    requires limit > 0 && IsPage(p, rows, limit)
    ensures p.events <= rows && (p.nextSince.None? ==> p.events == rows)
  {
  }

  /** The whole walk from 0 to a null cursor: ids strictly ascend, and a row is returned exactly if it
      matches and was in the table when the last request was answered, which every row was that was there
      when the first was. */
  lemma WalkIsComplete(tables: seq<seq<Row>>, f: Filter, limit: nat, pages: seq<Page>, r: Row)
    requires limit > 0 && Growing(tables) && IsWalk(tables, f, limit, 0, pages)
    requires pages[|pages| - 1].nextSince.None?
    ensures Ascending(Returned(pages))
    ensures r in Returned(pages) <==> r in tables[|pages| - 1] && Matches(f, r)
    ensures r in tables[0] && Matches(f, r) ==> r in Returned(pages)
  {
    var last := |pages| - 1;
    WalkReturnsPrefix(tables, f, limit, 0, pages);
    MatchingIs(tables[last], f, 0);
    assert tables[0] <= tables[last];
  }

  /** Over a table that stays the same the cursor is null at the latest when the matching rows are used up:
      a walk of n rows takes at most n + 1 requests. */
  lemma WalkEnds(table: seq<Row>, f: Filter, limit: nat, pages: seq<Page>)
    requires limit > 0 && Ascending(table)
    requires IsWalk(seq(|pages|, _ => table), f, limit, 0, pages)
    ensures |pages| <= |Matching(table, f, 0)| + 1
    ensures |pages| == |Matching(table, f, 0)| + 1 ==> pages[|pages| - 1].nextSince.None?
  {
    WalkReturnsPrefix(seq(|pages|, _ => table), f, limit, 0, pages);
    if pages[|pages| - 1].nextSince.Some? {
      LastPageCounts(seq(|pages|, _ => table), f, limit, 0, pages);
    }
  }

  /** If the last cursor is not null either, every page holds a row. */
  lemma {:induction false} LastPageCounts(tables: seq<seq<Row>>, f: Filter, limit: nat, since: nat, pages: seq<Page>)
    requires limit > 0 && IsWalk(tables, f, limit, since, pages) && pages[|pages| - 1].nextSince.Some?
    ensures |pages| <= |Returned(pages)|
    decreases pages
  {
    assert pages[0].events != [];
    if |pages| > 1 {
      LastPageCounts(tables[1..], f, limit, pages[0].nextSince.value, pages[1..]);
    }
  }
}
