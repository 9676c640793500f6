/** The in-memory token store: idempotent upserts, and keyset-paginated listing. */
module IndexerStore {
  import opened Common

  const MAX_PAGE_LIMIT: nat := 100

  datatype Source = Backfill | FromEvent

  datatype Details = Details(name: string, symbol: string, decimals: nat, creator: string, createdAt: int)

  /** One indexed token. */
  datatype Row = Row(address: string, tokenIndex: nat, details: Details, metadataUri: Option<string>, source: Source)

  type Table = map<string, Row>

  // ---- What the writes mean ----

  /** An upsert replaces the row but never forgets a metadata URI it does not bring itself. */
  function Put(t: Table, row: Row): Table {
    var known := if row.address in t then t[row.address].metadataUri else None;
    t[row.address := row.(metadataUri := if row.metadataUri.Some? then row.metadataUri else known)]
  }

  /** The first `n` upserts of a batch. */
  function PutAll(t: Table, rows: seq<Row>, n: nat): Table
    requires n <= |rows|
  {
    if n == 0 then t else Put(PutAll(t, rows, n - 1), rows[n - 1])
  }

  function SetUri(t: Table, address: string, uri: string): Table {
    if address in t then t[address := t[address].(metadataUri := Some(uri))] else t
  }

  function Indices(t: Table): set<nat> { set a | a in t :: t[a].tokenIndex }

  /** Rows are stored under their own address, each with its own index. */
  ghost predicate Distinct(t: Table) {
    && (forall a :: a in t ==> t[a].address == a)
    && (forall a, b :: a in t && b in t && a != b ==> t[a].tokenIndex != t[b].tokenIndex)
  }

  // ---- Listing ----

  datatype Page = Page(rows: seq<Row>, next: Option<nat>)

  /** The rows a listing filters down to: by creator unless `""`, and strictly below the cursor. */
  function Matching(t: Table, creator: string, cursor: Option<nat>): set<Row> {
    set a | a in t && (creator == "" || t[a].details.creator == creator) &&
            (cursor.None? || t[a].tokenIndex < cursor.value) :: t[a]
  }

  predicate Highest(rows: set<Row>, r: Row) { r in rows && forall q :: q in rows ==> q.tokenIndex <= r.tokenIndex }

  lemma {:induction false} SomeHighest(rows: set<Row>)
    requires rows != {}
    ensures exists r :: Highest(rows, r)
  {
    var x := Pick(rows);
    if rows - {x} == {} {
      forall q | q in rows ensures q.tokenIndex <= x.tokenIndex { assert q in rows - {x} || q == x; }
      assert Highest(rows, x);
    } else {
      SomeHighest(rows - {x});
      var y :| Highest(rows - {x}, y);
      var best := if x.tokenIndex > y.tokenIndex then x else y;
      forall q | q in rows ensures q.tokenIndex <= best.tokenIndex { assert q in rows - {x} || q == x; }
      assert Highest(rows, best);
    }
  }

  /** The rows sorted by descending index. */
  ghost function Descending(rows: set<Row>): seq<Row> {
    if rows == {} then []
    else
      SomeHighest(rows);
      var r :| Highest(rows, r);
      [r] + Descending(rows - {r})
  }

  predicate StrictlyDescending(s: seq<Row>) {
    forall i, j :: 0 <= i < j < |s| ==> s[i].tokenIndex > s[j].tokenIndex
  }

  ghost predicate DistinctRows(rows: set<Row>) {
    forall q, r :: q in rows && r in rows && q != r ==> q.tokenIndex != r.tokenIndex
  }

  predicate WeaklyDescending(s: seq<Row>) {
    forall i, j :: 0 <= i < j < |s| ==> s[i].tokenIndex >= s[j].tokenIndex && s[i] != s[j]
  }

  lemma DescendingUnfolds(rows: set<Row>) returns (r: Row)
    requires rows != {}
    ensures Highest(rows, r) && Descending(rows) == [r] + Descending(rows - {r})
  {
    SomeHighest(rows);
    r := Descending(rows)[0];
  }

  /** Sorting keeps exactly the rows, each once, in descending order. */
  lemma {:induction false} DescendingSortsWeakly(rows: set<Row>)
    ensures var s := Descending(rows);
      WeaklyDescending(s) && |s| == |rows| && forall r :: r in s <==> r in rows
  {
    if rows != {} {
      var r := DescendingUnfolds(rows);
      DescendingSortsWeakly(rows - {r});
      Prepended(r, Descending(rows - {r}), rows);
      hide Descending, WeaklyDescending, Highest;
    }
  }

  lemma Prepended(r: Row, tail: seq<Row>, rows: set<Row>)
    requires Highest(rows, r) && WeaklyDescending(tail) && forall q :: q in tail <==> q in rows - {r}
    ensures WeaklyDescending([r] + tail) && forall q :: q in [r] + tail <==> q in rows
  {
    forall j | 0 <= j < |tail| ensures r.tokenIndex >= tail[j].tokenIndex && r != tail[j] {
      assert tail[j] in rows - {r};
    }
    forall q ensures q in [r] + tail <==> q in rows {
      assert q in [r] + tail <==> q == r || q in tail;
    }
  }

  /** With distinct indices the order is strict. */
  lemma DescendingSorts(rows: set<Row>)
    requires DistinctRows(rows)
    ensures var s := Descending(rows);
      StrictlyDescending(s) && |s| == |rows| && forall r :: r in s <==> r in rows
  {
    DescendingSortsWeakly(rows);
    hide Descending;
    var s := Descending(rows);
    forall i, j | 0 <= i < j < |s| ensures s[i].tokenIndex > s[j].tokenIndex {
      assert s[i] in s && s[j] in s;
    }
  }

  function Clamp(limit: int): nat { Min(Max(limit, 1), MAX_PAGE_LIMIT) }

  /** `listTokens` */
  ghost function ListTokens(t: Table, creator: string, cursor: Option<nat>, limit: int): Page {
    var rows, n := Descending(Matching(t, creator, cursor)), Clamp(limit);
    if |rows| > n then Page(rows[..n], Some(rows[n - 1].tokenIndex)) else Page(rows, None)
  }

  lemma MatchingDistinct(t: Table, creator: string, cursor: Option<nat>)
    requires Distinct(t)
    ensures DistinctRows(Matching(t, creator, cursor))
  {
  }

  /** Cutting a sorted sequence is splitting it by index. */
  lemma CutSorted(s: seq<Row>, n: nat)
    requires StrictlyDescending(s) && 0 < n <= |s|
    ensures forall r :: r in s[..n] <==> r in s && r.tokenIndex >= s[n - 1].tokenIndex
    ensures forall r :: r in s[n..] <==> r in s && r.tokenIndex < s[n - 1].tokenIndex
    ensures StrictlyDescending(s[..n]) && StrictlyDescending(s[n..])
  {
    forall r
      ensures r in s[..n] <==> r in s && r.tokenIndex >= s[n - 1].tokenIndex
      ensures r in s[n..] <==> r in s && r.tokenIndex < s[n - 1].tokenIndex
    {
      if r in s {
        var i :| 0 <= i < |s| && s[i] == r;
        if i < n { assert s[..n][i] == r; } else { assert s[n..][i - n] == r; }
      }
    }
  }

  /** A page holds every matching row down to the next cursor, and only those, in descending order. */
  lemma PageFacts(t: Table, cursor: Option<nat>, limit: int)
    requires Distinct(t)
    ensures var p := ListTokens(t, "", cursor, limit);
      && StrictlyDescending(p.rows)
      && (forall r :: r in p.rows <==> r in Matching(t, "", cursor) && (p.next.None? || r.tokenIndex >= p.next.value))
      && (p.next.Some? && cursor.Some? ==> p.next.value < cursor.value)
  {
    var m := Matching(t, "", cursor);
    MatchingDistinct(t, "", cursor);
    DescendingSorts(m);
    var rows, n := Descending(m), Clamp(limit);
    if |rows| > n {
      assert rows[n - 1] in m;
      hide Descending, Matching, DistinctRows;
      CutSorted(rows, n);
    }
  }

  /**
   * What a page holds, whatever the filter: the creator's rows below the cursor,
   * highest index first, as many as the limit (at least 1, at most 100) allows.
   * There is a next cursor, the last index returned, exactly when rows are left.
   */
  lemma PageExactly(t: Table, creator: string, cursor: Option<nat>, limit: int)
    requires Distinct(t)
    ensures var p, n := ListTokens(t, creator, cursor, limit), Max(1, Min(limit, 100));
      && (forall i, j :: 0 <= i < j < |p.rows| ==> p.rows[i].tokenIndex > p.rows[j].tokenIndex)
      && (forall r :: r in p.rows <==>
            && r.address in t && t[r.address] == r && (creator == "" || r.details.creator == creator)
            && (cursor.None? || r.tokenIndex < cursor.value) && (p.next.None? || p.next.value <= r.tokenIndex))
      && (p.next.None? ==> |p.rows| <= n)
      && (p.next.Some? ==>
            && |p.rows| == n && p.rows[n - 1].tokenIndex == p.next.value
            && exists a ::
                 && a in t && t[a].tokenIndex < p.next.value && (creator == "" || t[a].details.creator == creator)
                 && (cursor.None? || t[a].tokenIndex < cursor.value))
  {
    var m, n := Matching(t, creator, cursor), Clamp(limit);
    MatchingDistinct(t, creator, cursor);
    DescendingSorts(m);
    MatchingExactly(t, creator, cursor);
    var rows := Descending(m);
    var p := ListTokens(t, creator, cursor, limit);
    hide ListTokens, Descending, Matching, DistinctRows, Distinct;
    CutPage(rows, n, p);
    if p.next.Some? { assert rows[n] in m && t[rows[n].address] == rows[n]; }
    hide StrictlyDescending;
  }

  /** Cutting a sorted listing after `n` rows. */
  lemma CutPage(rows: seq<Row>, n: nat, p: Page)
    requires StrictlyDescending(rows) && n > 0
    requires p == if |rows| > n then Page(rows[..n], Some(rows[n - 1].tokenIndex)) else Page(rows, None)
    ensures forall i, j :: 0 <= i < j < |p.rows| ==> p.rows[i].tokenIndex > p.rows[j].tokenIndex
    ensures forall r :: r in p.rows <==> r in rows && (p.next.None? || p.next.value <= r.tokenIndex)
    ensures p.next.None? ==> |p.rows| <= n
    ensures p.next.Some? ==> |p.rows| == n && p.rows[n - 1].tokenIndex == p.next.value
    ensures p.next.Some? ==> |rows| > n && rows[n].tokenIndex < p.next.value
  {
    if |rows| > n { CutSorted(rows, n); }
  }

  lemma MatchingExactly(t: Table, creator: string, cursor: Option<nat>)
    requires Distinct(t)
    ensures forall r :: r in Matching(t, creator, cursor) <==>
      && r.address in t && t[r.address] == r && (creator == "" || r.details.creator == creator)
      && (cursor.None? || r.tokenIndex < cursor.value)
  {
  }

  /** Every next cursor is lower than the one before. */
  lemma NextBelow(t: Table, cursor: Option<nat>, limit: int)
    ensures var p := ListTokens(t, "", cursor, limit);
      p.next.Some? && cursor.Some? ==> p.next.value < cursor.value
  {
    var m := Matching(t, "", cursor);
    DescendingSortsWeakly(m);
    if |Descending(m)| > Clamp(limit) { assert Descending(m)[Clamp(limit) - 1] in m; }
  }

  // ---- Computing a page ----

  predicate Passes(r: Row, creator: string, cursor: Option<nat>) {
    (creator == "" || r.details.creator == creator) && (cursor.None? || r.tokenIndex < cursor.value)
  }

  function Inserted(s: seq<Row>, r: Row): seq<Row> {
    if s == [] || s[0].tokenIndex < r.tokenIndex then [r] + s else [s[0]] + Inserted(s[1..], r)
  }

  lemma {:induction false} InsertedDescends(s: seq<Row>, r: Row)
    requires StrictlyDescending(s) && forall q :: q in s ==> q.tokenIndex != r.tokenIndex
    ensures StrictlyDescending(Inserted(s, r)) && forall q :: q in Inserted(s, r) <==> q in s || q == r
  {
    if s != [] && s[0].tokenIndex >= r.tokenIndex {
      var tail := Inserted(s[1..], r);
      assert forall q :: q in s[1..] ==> q in s;
      InsertedDescends(s[1..], r);
      assert s[0] in s;
      forall j | 0 <= j < |tail| ensures s[0].tokenIndex > tail[j].tokenIndex {
        assert tail[j] in tail;
      }
      forall q ensures q in Inserted(s, r) <==> q in s || q == r {
        assert q in s <==> q == s[0] || q in s[1..];
      }
    }
  }

  /** The listing's filter and sort. */
  method SortedRows(t: Table, creator: string, cursor: Option<nat>) returns (s: seq<Row>)
    requires Distinct(t)
    ensures s == Descending(Matching(t, creator, cursor))
  {
    s := [];
    var rest := t.Keys;
    while rest != {}
      invariant rest <= t.Keys && StrictlyDescending(s)
      invariant forall r :: r in s <==>
        r.address in t.Keys - rest && t[r.address] == r && Passes(r, creator, cursor)
      decreases |rest|
    {
      var a :| a in rest;
      if Passes(t[a], creator, cursor) {
        InsertedDescends(s, t[a]);
        s := Inserted(s, t[a]);
      }
      rest := rest - {a};
    }
    ghost var m := Matching(t, creator, cursor);
    MatchingDistinct(t, creator, cursor);
    DescendingSorts(m);
    SameDescending(s, Descending(m));
  }

  method ListPage(t: Table, creator: string, cursor: Option<nat>, limit: int) returns (p: Page)
    requires Distinct(t)
    ensures p == ListTokens(t, creator, cursor, limit)
  {
    var rows := SortedRows(t, creator, cursor);
    var n := Clamp(limit);
    if |rows| > n {
      p := Page(rows[..n], Some(rows[n - 1].tokenIndex));
    } else {
      p := Page(rows, None);
    }
  }

  // ---- The keyset walk over a store that changes between pages ----

  /** Follow `nextCursor` from the first page on; page `k` reads the store as it is then, `snap(k)`. */
  ghost function Walk(snap: nat -> Table, k: nat, cursor: Option<nat>, limit: int): seq<Row>
    decreases cursor.None?, if cursor.Some? then cursor.value else 0
  {
    NextBelow(snap(k), cursor, limit);
    var p := ListTokens(snap(k), "", cursor, limit);
    if p.next.None? then p.rows else p.rows + Walk(snap, k + 1, p.next, limit)
  }

  /** How many pages such a walk reads. */
  ghost function WalkPages(snap: nat -> Table, k: nat, cursor: Option<nat>, limit: int): nat
    decreases cursor.None?, if cursor.Some? then cursor.value else 0
  {
    NextBelow(snap(k), cursor, limit);
    var p := ListTokens(snap(k), "", cursor, limit);
    1 + if p.next.None? then 0 else WalkPages(snap, k + 1, p.next, limit)
  }

  predicate Below(r: Row, cursor: Option<nat>) { cursor.None? || r.tokenIndex < cursor.value }

  /** The walk terminates with strictly descending indices below its cursor: no row comes back twice. */
  lemma {:induction false} WalkDescends(snap: nat -> Table, k: nat, cursor: Option<nat>, limit: int)
    requires forall j :: Distinct(snap(j))
    ensures var rows := Walk(snap, k, cursor, limit);
      StrictlyDescending(rows) && forall r :: r in rows ==> Below(r, cursor)
    decreases cursor.None?, if cursor.Some? then cursor.value else 0
  {
    PageFacts(snap(k), cursor, limit);
    var p := ListTokens(snap(k), "", cursor, limit);
    if p.next.Some? {
      WalkDescends(snap, k + 1, p.next, limit);
      var tail := Walk(snap, k + 1, p.next, limit);
      forall i, j | 0 <= i < |p.rows| && 0 <= j < |tail| ensures p.rows[i].tokenIndex > tail[j].tokenIndex {
        assert p.rows[i] in p.rows && tail[j] in tail;
      }
      forall r | r in p.rows + tail ensures Below(r, cursor) {
        if r in tail { assert Below(r, p.next); }
      }
    }
  }

  ghost predicate HasIndex(t: Table, i: nat) { exists a :: a in t && t[a].tokenIndex == i }

  /** Whatever else changes between pages, an index present throughout is returned, as its row was at some page. */
  lemma {:induction false} WalkComplete(snap: nat -> Table, k: nat, cursor: Option<nat>, limit: int, i: nat)
    returns (page: nat, row: Row)
    requires forall j :: Distinct(snap(j))
    requires forall j: nat :: HasIndex(snap(j), i)
    requires cursor.None? || i < cursor.value
    ensures row in Walk(snap, k, cursor, limit) && row.tokenIndex == i
    ensures row.address in snap(page) && snap(page)[row.address] == row
    decreases cursor.None?, if cursor.Some? then cursor.value else 0
  {
    hide ListTokens, Distinct;
    NextBelow(snap(k), cursor, limit);
    var p := ListTokens(snap(k), "", cursor, limit);
    assert HasIndex(snap(k), i);
    if p.next.Some? && i < p.next.value {
      page, row := WalkComplete(snap, k + 1, p.next, limit, i);
    } else {
      page := k;
      row := RowOnPage(snap(k), cursor, limit, i);
    }
  }

  /** A page returns the row of every index from its next cursor up to the one it was asked for. */
  lemma RowOnPage(t: Table, cursor: Option<nat>, limit: int, i: nat) returns (row: Row)
    requires Distinct(t) && HasIndex(t, i) && (cursor.None? || i < cursor.value)
    requires var p := ListTokens(t, "", cursor, limit); p.next.None? || i >= p.next.value
    ensures row in ListTokens(t, "", cursor, limit).rows && row.tokenIndex == i
    ensures row.address in t && t[row.address] == row
  {
    PageFacts(t, cursor, limit);
    hide ListTokens;
    var a :| a in t && t[a].tokenIndex == i;
    row := t[a];
    assert row in Matching(t, "", cursor);
  }

  /** On a store that does not change, any limit enumerates exactly the table, in the same order. */
  lemma WalkOfStableStore(t: Table, limit: int)
    requires Distinct(t)
    ensures Walk((k: nat) => t, 0, None, limit) == Descending(Matching(t, "", None))
  {
    StableWalk(t, 0, None, limit);
  }

  lemma {:induction false} StableWalk(t: Table, k: nat, cursor: Option<nat>, limit: int)
    requires Distinct(t)
    ensures Walk((k: nat) => t, k, cursor, limit) == Descending(Matching(t, "", cursor))
    decreases cursor.None?, if cursor.Some? then cursor.value else 0
  {
    var snap := (k: nat) => t;
    PageFacts(t, cursor, limit);
    var p := ListTokens(t, "", cursor, limit);
    if p.next.Some? {
      StableWalk(t, k + 1, p.next, limit);
      var m, m' := Matching(t, "", cursor), Matching(t, "", p.next);
      MatchingDistinct(t, "", cursor);
      MatchingDistinct(t, "", p.next);
      DescendingSorts(m);
      DescendingSorts(m');
      SortSplit(m, m', Clamp(limit));
    }
  }

  /** The sorted rows below a page's last index are the rest of the sorted rows. */
  lemma SortSplit(m: set<Row>, m': set<Row>, n: nat)
    requires DistinctRows(m) && DistinctRows(m') && 0 < n < |Descending(m)|
    requires forall r :: r in m' <==> r in m && r.tokenIndex < Descending(m)[n - 1].tokenIndex
    ensures Descending(m) == Descending(m)[..n] + Descending(m')
  {
    hide Descending;
    DescendingSorts(m);
    DescendingSorts(m');
    var s, s' := Descending(m), Descending(m');
    CutSorted(s, n);
    SameDescending(s[n..], s');
    assert s == s[..n] + s[n..];
  }

  lemma Tails(s: seq<Row>)
    requires StrictlyDescending(s) && s != []
    ensures StrictlyDescending(s[1..]) && forall r :: r in s[1..] <==> r in s && r != s[0]
  {
    forall r ensures r in s[1..] <==> r in s && r != s[0] {
      assert r in s <==> r == s[0] || r in s[1..];
    }
  }

  lemma SameHead(s: seq<Row>, t: seq<Row>)
    requires StrictlyDescending(s) && StrictlyDescending(t) && s != []
    requires forall r :: r in s <==> r in t
    ensures t != [] && s[0] == t[0]
  {
    assert s[0] in t;
    assert t[0] in s;
    var i :| 0 <= i < |t| && t[i] == s[0];
    var j :| 0 <= j < |s| && s[j] == t[0];
  }

  lemma {:induction false} SameDescending(s: seq<Row>, t: seq<Row>)
    requires StrictlyDescending(s) && StrictlyDescending(t)
    requires forall r :: r in s <==> r in t
    ensures s == t
  {
    hide StrictlyDescending;
    assert t == [] || t[0] in t;
    if s != [] {
      SameHead(s, t);
      Tails(s);
      Tails(t);
      SameDescending(s[1..], t[1..]);
      assert s == [s[0]] + s[1..] && t == [t[0]] + t[1..];
    }
  }

  // ---- Rows that share an index ----

  /** The first row after the page, which the next page starts at or loses. */
  ghost predicate CleanCut(t: Table, cursor: Option<nat>, limit: int) {
    var s, n := Descending(Matching(t, "", cursor)), Clamp(limit);
    |s| > n ==> s[n].tokenIndex < s[n - 1].tokenIndex
  }

  /** No page of the walk ends between two rows of the same index. */
  ghost predicate CleanCuts(t: Table, cursor: Option<nat>, limit: int)
    decreases cursor.None?, if cursor.Some? then cursor.value else 0
  {
    NextBelow(t, cursor, limit);
    var p := ListTokens(t, "", cursor, limit);
    CleanCut(t, cursor, limit) && (p.next.Some? ==> CleanCuts(t, p.next, limit))
  }

  /** A page and what lies below its next cursor together hold every row exactly when the cut is clean. */
  lemma PageCoversIff(t: Table, cursor: Option<nat>, limit: int)
    requires ListTokens(t, "", cursor, limit).next.Some?
    ensures var p := ListTokens(t, "", cursor, limit);
      && (forall r :: r in p.rows || r in Matching(t, "", p.next) ==> r in Matching(t, "", cursor))
      && ((forall r :: r in Matching(t, "", cursor) ==> r in p.rows || r in Matching(t, "", p.next))
          <==> CleanCut(t, cursor, limit))
  {
    NextBelow(t, cursor, limit);
    var m, n, p := Matching(t, "", cursor), Clamp(limit), ListTokens(t, "", cursor, limit);
    DescendingSortsWeakly(m);
    var s := Descending(m);
    assert p.rows == s[..n] && p.next == Some(s[n - 1].tokenIndex) && s[n] in m && s[n] !in p.rows;
    assert forall r :: r in p.rows ==> r in s;
    assert forall r :: r in Matching(t, "", p.next) <==> r in m && r.tokenIndex < p.next.value;
    hide Descending, Matching;
    forall r | r in m ensures r in s[..n] || r.tokenIndex <= s[n].tokenIndex {
      var i :| 0 <= i < |s| && s[i] == r;
      if i < n { assert s[..n][i] == r; }
    }
  }

  lemma {:induction false} WalkStaysBelow(t: Table, k: nat, cursor: Option<nat>, limit: int, r: Row)
    requires r in Walk((k: nat) => t, k, cursor, limit)
    ensures r in Matching(t, "", cursor)
    decreases cursor.None?, if cursor.Some? then cursor.value else 0
  {
    NextBelow(t, cursor, limit);
    DescendingSortsWeakly(Matching(t, "", cursor));
    var p := ListTokens(t, "", cursor, limit);
    assert forall q :: q in p.rows ==> q in Descending(Matching(t, "", cursor));
    if p.next.Some? {
      PageCoversIff(t, cursor, limit);
      if r !in p.rows { WalkStaysBelow(t, k + 1, p.next, limit, r); }
    }
  }

  /** The walk of a store that does not change returns every row exactly when no page ends between rows of one index. */
  lemma {:induction false} WalkCompleteIff(t: Table, k: nat, cursor: Option<nat>, limit: int)
    ensures (forall r :: r in Matching(t, "", cursor) ==> r in Walk((k: nat) => t, k, cursor, limit))
            <==> CleanCuts(t, cursor, limit)
    decreases cursor.None?, if cursor.Some? then cursor.value else 0
  {
    NextBelow(t, cursor, limit);
    var m, p, walk := Matching(t, "", cursor), ListTokens(t, "", cursor, limit), Walk((k: nat) => t, k, cursor, limit);
    DescendingSortsWeakly(m);
    if p.next.Some? {
      WalkCompleteIff(t, k + 1, p.next, limit);
      PageCoversIff(t, cursor, limit);
      var rest, below := Walk((k: nat) => t, k + 1, p.next, limit), Matching(t, "", p.next);
      assert walk == p.rows + rest;
      forall r | r in rest ensures r in below { WalkStaysBelow(t, k + 1, p.next, limit, r); }
      forall r | r in p.rows ensures r !in below { assert r in Descending(m); OnPage(t, cursor, limit, r); }
      hide Walk, Matching, ListTokens, Descending, CleanCut;
    }
  }

  lemma OnPage(t: Table, cursor: Option<nat>, limit: int, r: Row)
    requires var p := ListTokens(t, "", cursor, limit); p.next.Some? && r in p.rows
    ensures r !in Matching(t, "", ListTokens(t, "", cursor, limit).next)
  {
    DescendingSortsWeakly(Matching(t, "", cursor));
    var s, n := Descending(Matching(t, "", cursor)), Clamp(limit);
    var i :| 0 <= i < n && s[..n][i] == r;
    assert s[i].tokenIndex >= s[n - 1].tokenIndex;
  }

  // ---- The store object ----

  /** The single checkpoint row. A cursor is the number of the next event page. */
  datatype IndexerState = IndexerState(lastCursor: Option<nat>, backfillComplete: bool)

  class MemoryTokenStore {
    var tokens: Table
    var state: IndexerState

    constructor ()
      ensures tokens == map[] && state == IndexerState(None, false)
    {
      tokens, state := map[], IndexerState(None, false);
    }

    /** `upsertTokens` */
    method UpsertTokens(rows: seq<Row>)
      modifies this`tokens
      ensures tokens == PutAll(old(tokens), rows, |rows|)
    {
      for i := 0 to |rows|
        invariant tokens == PutAll(old(tokens), rows, i)
      {
        var token := rows[i];
        var existing := if token.address in tokens then Some(tokens[token.address]) else None;
        var uri := if token.metadataUri.Some? then token.metadataUri
                   else if existing.Some? then existing.value.metadataUri else None;
        tokens := tokens[token.address := token.(metadataUri := uri)];
      }
    }

    /** `setMetadataUri`: a no-op for an unknown address. */
    method SetMetadataUri(address: string, uri: string)
      modifies this`tokens
      ensures tokens == SetUri(old(tokens), address, uri)
    {
      if address in tokens {
        tokens := tokens[address := tokens[address].(metadataUri := Some(uri))];
      }
    }

    /** `countTokens` */
    method CountTokens() returns (n: nat)
      ensures n == |tokens|
    {
      n := |tokens|;
    }

    /** `presentIndices` */
    method PresentIndices(indices: seq<nat>) returns (present: set<nat>)
      ensures present == set i | i in indices && i in Indices(tokens)
    {
      present := {};
      var rest := tokens.Keys;
      while rest != {}
        invariant rest <= tokens.Keys
        invariant present == set a | a in tokens.Keys - rest && tokens[a].tokenIndex in indices :: tokens[a].tokenIndex
        decreases |rest|
      {
        var a :| a in rest;
        rest := rest - {a};
        if tokens[a].tokenIndex in indices { present := present + {tokens[a].tokenIndex}; }
      }
    }

    /** `saveState` with a cursor patch */
    method SaveCursor(cursor: Option<nat>)
      modifies this`state
      ensures state == old(state).(lastCursor := cursor)
    {
      state := state.(lastCursor := cursor);
    }

    /** `saveState` with a back-fill patch */
    method SaveBackfill(complete: bool)
      modifies this`state
      ensures state == old(state).(backfillComplete := complete)
    {
      state := state.(backfillComplete := complete);
    }
  }
}
