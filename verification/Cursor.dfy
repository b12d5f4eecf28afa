/**
  Keyset pagination: a page holds the rows with the largest ids up to the cursor, and the next
  cursor is the id of the row after the page.  A table is the set of its rows' ids with their data;
  it may change between two pages.
*/
module Cursor {
  import opened Numbers
  import opened Prelude

  // ---------------------------------------------------------------------------
  // The database's side: ORDER BY and LIMIT
  // ---------------------------------------------------------------------------

  lemma HasElement(s: set<int>)
    ensures s == {} || exists y :: y in s
  {
    if !exists y :: y in s {
      assert s == {};
    }
  }

  lemma {:induction false} MaxExists(s: set<int>)
    requires s != {}
    ensures exists m :: m in s && forall x | x in s :: x <= m
    decreases |s|
  {
    HasElement(s);
    var y :| y in s;
    if s != {y} {
      var rest := s - {y};
      assert rest != {};
      MaxExists(rest);
      var m :| m in rest && forall x | x in rest :: x <= m;
      assert forall x | x in s :: x in rest || x == y;
      var top := if m < y then y else m;
      assert top in s && forall x | x in s :: x <= top;
    }
  }

  function Max(s: set<int>): (m: int)
    requires s != {}
    ensures m in s && forall x | x in s :: x <= m
  {
    MaxExists(s);
    var m :| m in s && forall x | x in s :: x <= m;
    m
  }

  predicate Descending(ids: seq<int>) {
    forall i, j | 0 <= i < j < |ids| :: ids[i] > ids[j]
  }

  /** ORDER BY id DESC */
  function Desc(s: set<int>): (r: seq<int>)
    ensures |r| == |s|
  {
    if s == {} then [] else [Max(s)] + Desc(s - {Max(s)})
  }

  lemma {:induction false} DescElements(s: set<int>)
    ensures forall i | 0 <= i < |Desc(s)| :: Desc(s)[i] in s
    ensures Descending(Desc(s))
    decreases |s|
  {
    if s != {} {
      DescElements(s - {Max(s)});
    }
  }

  lemma {:induction false} DescHas(s: set<int>, x: int)
    requires x in s
    ensures exists i :: 0 <= i < |Desc(s)| && Desc(s)[i] == x
    decreases |s|
  {
    var m := Max(s);
    if x == m {
      assert Desc(s)[0] == x;
    } else {
      DescHas(s - {m}, x);
      var i :| 0 <= i < |Desc(s - {m})| && Desc(s - {m})[i] == x;
      assert Desc(s)[i + 1] == x;
    }
  }

  /** ORDER BY id */
  function Asc(s: set<int>): (r: seq<int>)
    ensures |r| == |s|
    ensures forall i | 0 <= i < |r| :: r[i] in s
  {
    if s == {} then [] else Asc(s - {Max(s)}) + [Max(s)]
  }

  /** LIMIT */
  function Take(ids: seq<int>, n: nat): seq<int> {
    if |ids| <= n then ids else ids[..n]
  }

  // ---------------------------------------------------------------------------
  // One page
  // ---------------------------------------------------------------------------

  datatype Cursor = Cursor(count: nat, next: string, search: string)

  function First(count: nat, search: string): Cursor {
    Cursor(count, "", search)
  }

  /** The rows the cursor still admits. */
  function Below(ids: set<int>, cur: Cursor): set<int> {
    if cur.next == "" then ids else set x | x in ids && x <= ParseDecimal(cur.next)
  }

  /** The rows the query returns: one more than the page, if there is one. */
  function Found(ids: set<int>, cur: Cursor): (rows: seq<int>)
    ensures forall i | 0 <= i < |rows| :: rows[i] in ids
  {
    DescElements(Below(ids, cur));
    Take(Desc(Below(ids, cur)), cur.count + 1)
  }

  /** What a caller gets from the rows found: the page and the cursor of the next one. */
  function PageOf(found: seq<int>, cur: Cursor): seq<int> {
    Take(found, cur.count)
  }

  function NextOf(found: seq<int>, cur: Cursor): Option<Cursor> {
    if |found| > cur.count then Some(cur.(next := Decimal(found[|found| - 1]))) else None
  }

  function Page(ids: set<int>, cur: Cursor): seq<int> {
    PageOf(Found(ids, cur), cur)
  }

  function Next(ids: set<int>, cur: Cursor): Option<Cursor> {
    NextOf(Found(ids, cur), cur)
  }

  datatype Row<T> = Row(id: int, data: T)

  /** Jobs, tasks, users and webhook deliveries, whose rows carry their id. */
  method QueryWithCursor<T>(table: map<int, T>, cur: Cursor) returns (page: seq<Row<T>>, next: Option<Cursor>)
    ensures |page| == |Page(table.Keys, cur)|
    ensures forall i | 0 <= i < |page| ::
      var id := Page(table.Keys, cur)[i]; id in table && page[i] == Row(id, table[id])
    ensures next == Next(table.Keys, cur)
    ensures next.Some? ==> next.value.count == cur.count && next.value.search == cur.search
  {
    var rows := Found(table.Keys, cur);
    page := [];
    for i := 0 to |rows|
      invariant |page| == i
      invariant forall k | 0 <= k < i :: rows[k] in table && page[k] == Row(rows[k], table[rows[k]])
    {
      page := page + [Row(rows[i], table[rows[i]])];
    }
    if |page| > cur.count {
      next := Some(cur.(next := Decimal(page[|page| - 1].id)));
      page := page[..cur.count];
    } else {
      next := None;
    }
  }

  /** Secrets, which lose their id, so that the last one is kept beside them. */
  method SecretsWithCursor<T>(table: map<int, T>, cur: Cursor) returns (page: seq<T>, next: Option<Cursor>)
    ensures |page| == |Page(table.Keys, cur)|
    ensures forall i | 0 <= i < |page| :: var id := Page(table.Keys, cur)[i]; id in table && page[i] == table[id]
    ensures next == Next(table.Keys, cur)
    ensures next.Some? ==> next.value.count == cur.count && next.value.search == cur.search
  {
    var rows := Found(table.Keys, cur);
    page := [];
    var lastId := 0;
    for i := 0 to |rows|
      invariant |page| == i && (i > 0 ==> lastId == rows[i - 1])
      invariant forall k | 0 <= k < i :: rows[k] in table && page[k] == table[rows[k]]
    {
      lastId := rows[i];
      page := page + [table[rows[i]]];
    }
    if |page| > cur.count {
      next := Some(cur.(next := Decimal(lastId)));
      page := page[..cur.count];
    } else {
      next := None;
    }
  }

  /** Webhook subscriptions: the same filter, but in ascending order. */
  function FoundAscending(ids: set<int>, cur: Cursor): (rows: seq<int>)
    ensures forall i | 0 <= i < |rows| :: rows[i] in ids
  {
    Take(Asc(Below(ids, cur)), cur.count + 1)
  }

  method SubscriptionsWithCursor<T>(table: map<int, T>, cur: Cursor) returns (page: seq<T>, next: Option<Cursor>)
    ensures |page| == |PageOf(FoundAscending(table.Keys, cur), cur)|
    ensures forall i | 0 <= i < |page| ::
      var id := PageOf(FoundAscending(table.Keys, cur), cur)[i]; id in table && page[i] == table[id]
    ensures next == NextOf(FoundAscending(table.Keys, cur), cur)
    ensures next.Some? ==> next.value.count == cur.count && next.value.search == cur.search
  {
    var rows := FoundAscending(table.Keys, cur);
    page := [];
    var lastId := 0;
    for i := 0 to |rows|
      invariant |page| == i && (i > 0 ==> lastId == rows[i - 1])
      invariant forall k | 0 <= k < i :: rows[k] in table && page[k] == table[rows[k]]
    {
      page := page + [table[rows[i]]];
      lastId := rows[i];
    }
    if |page| > cur.count {
      next := Some(cur.(next := Decimal(lastId)));
      page := page[..cur.count];
    } else {
      next := None;
    }
  }

  // ---------------------------------------------------------------------------
  // Following the cursors
  // ---------------------------------------------------------------------------

  /** The rows a caller gets who follows the cursors while the table goes through `tables`. */
  function Walk(tables: seq<set<int>>, cur: Cursor): seq<int> {
    if tables == [] then []
    else
      var next := Next(tables[0], cur);
      Page(tables[0], cur) + if next.None? then [] else Walk(tables[1..], next.value)
  }

  /** The walk got a page without a next cursor. */
  predicate Finished(tables: seq<set<int>>, cur: Cursor) {
    tables != [] && (var next := Next(tables[0], cur); next.None? || Finished(tables[1..], next.value))
  }

  lemma PageRows(ids: set<int>, cur: Cursor)
    ensures Descending(Page(ids, cur)) && forall x | x in Page(ids, cur) :: x in Below(ids, cur)
  {
    DescElements(Below(ids, cur));
  }

  lemma NextCursor(found: seq<int>, cur: Cursor)
    requires |found| > cur.count
    ensures NextOf(found, cur).Some?
    ensures NextOf(found, cur).value.count == cur.count && NextOf(found, cur).value.next != ""
    ensures ParseDecimal(NextOf(found, cur).value.next) == found[|found| - 1]
  {
    DecimalRoundTrip(found[|found| - 1]);
  }

  lemma TakeOneMore(all: seq<int>, count: nat)
    ensures |Take(all, count + 1)| > count <==> |all| > count
    ensures |all| <= count ==> Take(Take(all, count + 1), count) == all
    ensures |all| > count ==> |Take(all, count + 1)| == count + 1 && Take(all, count + 1)[count] == all[count]
                              && |Take(Take(all, count + 1), count)| == count
  {
  }

  /** The page is the last one exactly when it holds every admitted row. */
  lemma NextPage(ids: set<int>, cur: Cursor)
    ensures Next(ids, cur).None? <==> |Below(ids, cur)| <= cur.count
    ensures Next(ids, cur).None? ==> Page(ids, cur) == Desc(Below(ids, cur))
    ensures Next(ids, cur).Some? ==>
      && |Page(ids, cur)| == cur.count
      && Next(ids, cur).value.count == cur.count && Next(ids, cur).value.next != ""
      && ParseDecimal(Next(ids, cur).value.next) == Desc(Below(ids, cur))[cur.count]
  {
    TakeOneMore(Desc(Below(ids, cur)), cur.count);
    if |Found(ids, cur)| > cur.count {
      NextCursor(Found(ids, cur), cur);
    }
  }

  lemma LastPage(ids: set<int>, cur: Cursor, x: int)
    requires Next(ids, cur).None? && x in Below(ids, cur)
    ensures x in Page(ids, cur)
  {
    NextPage(ids, cur);
    DescHas(Below(ids, cur), x);
  }

  /** The next cursor is an admitted row, the page is above it, and nothing above it is left out. */
  lemma NextIsAfterPage(ids: set<int>, cur: Cursor)
    requires Next(ids, cur).Some?
    ensures var bound := ParseDecimal(Next(ids, cur).value.next);
      bound in Below(ids, cur) && forall x | x in Page(ids, cur) :: x > bound
  {
    NextPage(ids, cur);
    DescElements(Below(ids, cur));
  }

  lemma AboveNextIsInPage(ids: set<int>, cur: Cursor, x: int)
    requires Next(ids, cur).Some? && x in Below(ids, cur) && x > ParseDecimal(Next(ids, cur).value.next)
    ensures x in Page(ids, cur)
  {
    NextPage(ids, cur);
    var all := Desc(Below(ids, cur));
    DescElements(Below(ids, cur));
    DescHas(Below(ids, cur), x);
    var i :| 0 <= i < |all| && all[i] == x;
    assert i < cur.count && Page(ids, cur)[i] == x;
  }

  lemma BelowIn(ids: set<int>, cur: Cursor)
    ensures forall x | x in Below(ids, cur) :: x in ids && (cur.next != "" ==> x <= ParseDecimal(cur.next))
    ensures forall x | x in ids && (cur.next != "" ==> x <= ParseDecimal(cur.next)) :: x in Below(ids, cur)
  {
  }

  /** Whatever happens to the table, ids come in strictly descending order: no row comes twice. */
  lemma {:induction false} WalkDescends(tables: seq<set<int>>, cur: Cursor)
    ensures Descending(Walk(tables, cur))
    ensures cur.next != "" ==> forall x | x in Walk(tables, cur) :: x <= ParseDecimal(cur.next)
    decreases |tables|
  {
    if tables != [] {
      PageRows(tables[0], cur);
      BelowIn(tables[0], cur);
      var next := Next(tables[0], cur);
      if next.Some? {
        NextPage(tables[0], cur);
        NextIsAfterPage(tables[0], cur);
        WalkDescends(tables[1..], next.value);
        DescendingConcat(Page(tables[0], cur), Walk(tables[1..], next.value), ParseDecimal(next.value.next));
      }
    }
  }

  lemma DescendingConcat(a: seq<int>, b: seq<int>, n: int)
    requires Descending(a) && Descending(b)
    requires (forall x | x in a :: x > n) && (forall x | x in b :: x <= n)
    ensures Descending(a + b)
  {
    var c := a + b;
    forall i, j | 0 <= i < j < |c| ensures c[i] > c[j] {
      if i < |a| {
        assert a[i] in a;
        if j >= |a| {
          assert b[j - |a|] in b;
        }
      }
    }
  }

  /** Whatever happens to the table, a finished walk delivered every row that was there throughout. */
  lemma {:induction false} WalkIsComplete(tables: seq<set<int>>, cur: Cursor, id: int)
    requires Finished(tables, cur)
    requires forall i | 0 <= i < |tables| :: id in Below(tables[i], cur)
    ensures id in Walk(tables, cur)
    decreases |tables|
  {
    var next := Next(tables[0], cur);
    if next.None? {
      LastPage(tables[0], cur, id);
    } else if id > ParseDecimal(next.value.next) {
      AboveNextIsInPage(tables[0], cur, id);
    } else {
      assert forall i | 0 <= i < |tables| :: id in tables[i] by {
        forall i | 0 <= i < |tables| ensures id in tables[i] { BelowIn(tables[i], cur); }
      }
      forall i | 0 <= i < |tables[1..]| ensures id in Below(tables[1..][i], next.value) {
        BelowIn(tables[1..][i], next.value);
      }
      WalkIsComplete(tables[1..], next.value, id);
    }
  }

  predicate Throughout(tables: seq<set<int>>, id: int) {
    forall i | 0 <= i < |tables| :: id in tables[i]
  }

  /** Rows are deleted, and inserted with ids above all those of the first table, as a serial column does. */
  predicate Fresh(first: set<int>, tables: seq<set<int>>) {
    forall i, x | 0 <= i < |tables| && x in tables[i] && x !in first :: forall y | y in first :: y < x
  }

  /** With serial ids nothing is delivered that was not in the table when the walk began. */
  lemma {:induction false} WalkStaysInFirst(first: set<int>, tables: seq<set<int>>, cur: Cursor)
    requires Fresh(first, tables)
    requires if cur.next == "" then tables != [] ==> tables[0] == first else ParseDecimal(cur.next) in first
    ensures forall x | x in Walk(tables, cur) :: x in first
    decreases |tables|
  {
    if tables != [] {
      PageRows(tables[0], cur);
      BelowIn(tables[0], cur);
      assert forall x | x in Below(tables[0], cur) :: x in first;
      var next := Next(tables[0], cur);
      if next.Some? {
        NextPage(tables[0], cur);
        NextIsAfterPage(tables[0], cur);
        forall i, x | 0 <= i < |tables[1..]| && x in tables[1..][i] && x !in first
          ensures forall y | y in first :: y < x
        {
          assert tables[1..][i] == tables[i + 1];
        }
        WalkStaysInFirst(first, tables[1..], next.value);
      }
    }
  }

  /** The rows in `n` full pages. */
  function InPages(n: nat, count: nat): nat {
    if n == 0 then 0 else InPages(n - 1, count) + count
  }

  lemma {:induction false} InPagesIsProduct(n: nat, count: nat)
    ensures InPages(n, count) == n * count
  {
    if n > 0 {
      InPagesIsProduct(n - 1, count);
    }
  }

  /** A walk that does not end got full pages only. */
  ghost predicate FullPages(tables: seq<set<int>>, cur: Cursor) {
    !Finished(tables, cur) ==> |Walk(tables, cur)| == InPages(|tables|, cur.count)
  }

  lemma OnePageMore(tables: seq<set<int>>, cur: Cursor)
    requires tables != []
    requires Next(tables[0], cur).Some? ==> FullPages(tables[1..], Next(tables[0], cur).value)
    ensures FullPages(tables, cur)
  {
    NextPage(tables[0], cur);
  }

  lemma {:induction false} UnfinishedIsLong(tables: seq<set<int>>, cur: Cursor)
    ensures FullPages(tables, cur)
    decreases |tables|
  {
    if tables != [] {
      if Next(tables[0], cur).Some? {
        UnfinishedIsLong(tables[1..], Next(tables[0], cur).value);
      }
      OnePageMore(tables, cur);
    }
  }

  lemma {:induction false} DescendingFits(ids: seq<int>, s: set<int>)
    requires Descending(ids) && forall x | x in ids :: x in s
    ensures |ids| <= |s|
    decreases |ids|
  {
    if ids != [] {
      var n := |ids| - 1;
      forall x | x in ids[..n] ensures x in s - {ids[n]} {
        assert x in ids && x > ids[n];
      }
      assert ids[n] in s;
      DescendingFits(ids[..n], s - {ids[n]});
    }
  }

  /**
    Paging through a table that loses rows and gains rows with serial ids: each row is delivered at
    most once, nothing new appears, and unless `count` is 0 the walk ends after the first table's
    rows have run out.  A finished walk has delivered every row that stayed.
  */
  lemma PagingUnderChange(tables: seq<set<int>>, count: nat, search: string)
    requires tables != [] && Fresh(tables[0], tables)
    ensures var rows := Walk(tables, First(count, search));
      && Descending(rows)
      && (forall x | x in rows :: x in tables[0])
      && (|tables| * count > |tables[0]| ==> Finished(tables, First(count, search)))
      && (Finished(tables, First(count, search)) ==>
           forall x | Throughout(tables, x) :: x in rows)
  {
    var cur := First(count, search);
    WalkDescends(tables, cur);
    WalkStaysInFirst(tables[0], tables, cur);
    DescendingFits(Walk(tables, cur), tables[0]);
    if !Finished(tables, cur) {
      UnfinishedIsLong(tables, cur);
      InPagesIsProduct(|tables|, count);
    } else {
      forall x | Throughout(tables, x) ensures x in Walk(tables, cur) {
        WalkIsComplete(tables, cur, x);
      }
    }
  }

  function Same(ids: set<int>, n: nat): seq<set<int>> {
    seq(n, _ => ids)
  }

  /** `ids` lists exactly the elements of `s`. */
  predicate SameElements(ids: seq<int>, s: set<int>) {
    (forall i | 0 <= i < |ids| :: ids[i] in s) && forall x | x in s :: x in ids
  }

  lemma FirstIsMax(ids: seq<int>, s: set<int>)
    requires ids != [] && Descending(ids) && SameElements(ids, s)
    ensures s != {} && ids[0] == Max(s) && SameElements(ids[1..], s - {ids[0]})
  {
  }

  lemma NoElements(s: set<int>)
    requires SameElements([], s)
    ensures s == {}
  {
    assert forall x :: x !in s;
  }

  lemma DescCons(ids: seq<int>, s: set<int>)
    requires ids != [] && s != {} && ids[0] == Max(s) && ids[1..] == Desc(s - {ids[0]})
    ensures ids == Desc(s)
  {
  }

  lemma {:induction false} DescIsUnique(ids: seq<int>, s: set<int>)
    requires Descending(ids) && SameElements(ids, s)
    ensures ids == Desc(s)
    decreases |ids|
  {
    if ids == [] {
      NoElements(s);
    } else {
      FirstIsMax(ids, s);
      DescIsUnique(ids[1..], s - {ids[0]});
      DescCons(ids, s);
    }
  }

  lemma PositiveFactor(n: nat, count: nat)
    requires n * count > 0
    ensures n > 0
  {
  }

  lemma StayedIsDelivered(tables: seq<set<int>>, ids: set<int>, rows: seq<int>)
    requires forall i | 0 <= i < |tables| :: tables[i] == ids
    requires forall x | x in rows :: x in ids
    requires forall x | Throughout(tables, x) :: x in rows
    ensures SameElements(rows, ids)
  {
    forall i | 0 <= i < |rows| ensures rows[i] in ids {
      var x := rows[i];
      assert x in rows;
    }
    forall x | x in ids ensures x in rows {
      assert Throughout(tables, x);
    }
  }

  /** Paging through a table that does not change gives all its rows, newest first. */
  lemma PagingThroughFixedTable(ids: set<int>, count: nat, search: string, n: nat)
    requires n * count > |ids|
    ensures Finished(Same(ids, n), First(count, search))
    ensures Walk(Same(ids, n), First(count, search)) == Desc(ids)
  {
    var tables, cur := Same(ids, n), First(count, search);
    PositiveFactor(n, count);
    assert tables[0] == ids;
    PagingUnderChange(tables, count, search);
    StayedIsDelivered(tables, ids, Walk(tables, cur));
    DescIsUnique(Walk(tables, cur), ids);
  }

  /** A count of 0 gives empty pages and the same cursor again, as long as a row is admitted. */
  lemma {:induction false} EmptyPagesNeverEnd(ids: set<int>, cur: Cursor, n: nat)
    requires cur.count == 0 && Below(ids, cur) != {}
    ensures !Finished(Same(ids, n), cur) && Walk(Same(ids, n), cur) == []
    decreases n
  {
    if n > 0 {
      NextPage(ids, cur);
      var next := Next(ids, cur).value;
      NextIsAfterPage(ids, cur);
      assert Same(ids, n)[1..] == Same(ids, n - 1);
      assert ParseDecimal(next.next) in Below(ids, next);
      EmptyPagesNeverEnd(ids, next, n - 1);
    }
  }

  /** So the walk over a fixed table ends exactly when the count is positive or there is nothing to page through. */
  lemma PagingEnds(ids: set<int>, count: nat, search: string)
    ensures (exists n: nat :: Finished(Same(ids, n), First(count, search))) <==> count > 0 || ids == {}
  {
    if count > 0 {
      var n := |ids| + 1;
      assert n * count > |ids| by { assert n * count >= n; }
      PagingThroughFixedTable(ids, count, search, n);
    } else if ids == {} {
      NextPage(ids, First(count, search));
      assert Finished(Same(ids, 1), First(count, search));
    } else {
      forall n: nat ensures !Finished(Same(ids, n), First(count, search)) {
        EmptyPagesNeverEnd(ids, First(count, search), n);
      }
    }
  }

  // ---------------------------------------------------------------------------
  // The subscriptions' ascending order
  // ---------------------------------------------------------------------------

  function UpTo(ids: set<int>, bound: int): set<int> {
    set x | x in ids && x <= bound
  }

  lemma {:induction false} AscendingPrefix(ids: set<int>, k: nat)
    requires k < |ids|
    ensures Asc(UpTo(ids, Asc(ids)[k])) == Asc(ids)[..k + 1]
    decreases |ids|
  {
    var m := Max(ids);
    var rest := ids - {m};
    if k == |ids| - 1 {
      assert UpTo(ids, m) == ids;
    } else {
      AscendingPrefix(rest, k);
      assert Asc(rest)[k] in rest;
      assert UpTo(ids, Asc(ids)[k]) == UpTo(rest, Asc(rest)[k]);
    }
  }

  /**
    The next page of subscriptions is the page just read, with the same cursor, whenever there is a
    next page: the filter keeps the rows up to the cursor and the order starts from the lowest.
  */
  lemma SubscriptionsRepeat(ids: set<int>, count: nat, search: string)
    ensures NextOf(FoundAscending(ids, First(count, search)), First(count, search)).Some? <==> |ids| > count
    ensures |ids| > count ==>
      var first := First(count, search);
      var next := NextOf(FoundAscending(ids, first), first).value;
      && PageOf(FoundAscending(ids, next), next) == PageOf(FoundAscending(ids, first), first)
      && NextOf(FoundAscending(ids, next), next) == Some(next)
  {
    var first := First(count, search);
    if |ids| > count {
      var last := Asc(ids)[count];
      DecimalRoundTrip(last);
      var next := NextOf(FoundAscending(ids, first), first).value;
      assert next.next == Decimal(last);
      AscendingPrefix(ids, count);
      assert Below(ids, next) == UpTo(ids, last);
    }
  }
}
