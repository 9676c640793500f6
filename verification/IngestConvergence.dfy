/** On a fixed chain, how fast repeated ingest runs close the gaps. */
module IngestConvergence {
  import opened Common
  import opened IndexerStore
  import opened IndexerReplay
  import opened Ingest

  // ---- A faithful chain and an aligned table ----

  predicate InRange(chain: ChainReader, i: nat) { 1 <= i <= chain.tokenCount }

  /** A row that says what the chain says about its index. */
  predicate FaithfulRow(chain: ChainReader, row: Row) {
    && InRange(chain, row.tokenIndex)
    && chain.tokenByIndex(row.tokenIndex).Some?
    && chain.tokenByIndex(row.tokenIndex).value.address == row.address
  }

  /** A total reader: every index up to the count resolves, to its own address, and events agree with it. */
  ghost predicate Faithful(chain: ChainReader) {
    && |chain.pages| > 0
    && (forall i :: InRange(chain, i) ==>
          chain.tokenByIndex(i).Some? && chain.tokenByIndex(i).value.tokenIndex == i)
    && (forall i, j :: InRange(chain, i) && InRange(chain, j) && i != j ==>
          chain.tokenByIndex(i).value.address != chain.tokenByIndex(j).value.address)
    && (forall p, e :: 0 <= p < |chain.pages| && 0 <= e < |chain.pages[p]| && chain.pages[p][e].Created? ==>
          FaithfulRow(chain, chain.pages[p][e].token))
  }

  /** The factory's view functions carry no metadata URI. */
  ghost predicate BareRows(chain: ChainReader) {
    forall i :: InRange(chain, i) && chain.tokenByIndex(i).Some? ==> chain.tokenByIndex(i).value.metadataUri.None?
  }

  ghost predicate Bare(rows: seq<Row>) { forall r :: r in rows ==> r.metadataUri.None? }

  /** Rows may have been added or rewritten, but every URI is as it was. */
  ghost predicate Enriched(t: Table, t': Table) {
    forall a :: a in t ==> a in t' && t'[a].metadataUri == t[a].metadataUri
  }

  lemma EnrichedItself(t: Table)
    ensures Enriched(t, t)
  {
  }

  lemma EnrichedTransitive(a: Table, b: Table, c: Table)
    requires Enriched(a, b) && Enriched(b, c)
    ensures Enriched(a, c)
  {
  }

  lemma {:induction false} BarePutsEnrich(t: Table, rows: seq<Row>, n: nat)
    requires n <= |rows| && Bare(rows)
    ensures Enriched(t, PutAll(t, rows, n))
  {
    if n > 0 {
      BarePutsEnrich(t, rows, n - 1);
      assert rows[n - 1] in rows;
    }
  }

  ghost predicate Aligned(chain: ChainReader, t: Table) {
    forall a :: a in t ==> t[a].address == a && FaithfulRow(chain, t[a])
  }

  function Missing(chain: ChainReader, t: Table): set<nat> { set i | 1 <= i <= chain.tokenCount && i !in Indices(t) }

  // ---- Counting ----

  lemma {:induction false} IndicesSize(chain: ChainReader, t: Table)
    requires Faithful(chain) && Aligned(chain, t)
    ensures |Indices(t)| == |t|
    decreases t.Keys
  {
    if t.Keys != {} {
      var a := Pick(t.Keys);
      var rest := t - {a};
      IndicesSize(chain, rest);
      forall b | b in rest ensures t[b].tokenIndex != t[a].tokenIndex {}
      assert t[a].tokenIndex !in Indices(rest);
      assert Indices(t) == Indices(rest) + {t[a].tokenIndex} by {
        forall i ensures i in Indices(t) <==> i in Indices(rest) + {t[a].tokenIndex} {
          if i in Indices(t) { var b :| b in t && t[b].tokenIndex == i; if b != a { assert b in rest; } }
        }
      }
    } else {
      assert t == map[];
    }
  }

  /** The count of rows and the missing indices always add up to the token count. */
  lemma CountPlusMissing(chain: ChainReader, t: Table)
    requires Faithful(chain) && Aligned(chain, t)
    ensures |t| + |Missing(chain, t)| == chain.tokenCount
  {
    IndicesSize(chain, t);
    IndicesInRange(chain, t);
    hide Faithful, Aligned, Indices;
    Complement(Indices(t), Missing(chain, t), chain.tokenCount);
  }

  lemma Complement(a: set<nat>, b: set<nat>, n: nat)
    requires forall i :: i in a ==> 1 <= i <= n
    requires forall i :: i in b <==> 1 <= i <= n && i !in a
    ensures |a| + |b| == n
  {
    assert a + b == Interval(1, n + 1);
    assert a * b == {};
  }

  lemma IndicesInRange(chain: ChainReader, t: Table)
    requires Aligned(chain, t)
    ensures forall i :: i in Indices(t) ==> InRange(chain, i)
  {
  }

  function SetOf(s: seq<nat>): set<nat> { set i | i in s }

  function RowIndices(rows: seq<Row>): set<nat> { set r | r in rows :: r.tokenIndex }

  // ---- Writes keep the table aligned and only add indices ----

  /** Under a faithful chain a stored address keeps its index. */
  lemma SameIndex(chain: ChainReader, t: Table, row: Row)
    requires Faithful(chain) && Aligned(chain, t) && FaithfulRow(chain, row) && row.address in t
    ensures t[row.address].tokenIndex == row.tokenIndex
  {
    assert FaithfulRow(chain, t[row.address]);
  }

  lemma AlignedPut(chain: ChainReader, t: Table, row: Row)
    requires Faithful(chain) && Aligned(chain, t) && FaithfulRow(chain, row)
    ensures Aligned(chain, Put(t, row)) && Indices(Put(t, row)) == Indices(t) + {row.tokenIndex}
  {
    if row.address in t { SameIndex(chain, t, row); }
    hide Faithful;
    var t' := Put(t, row);
    assert row.address in t'.Keys && t'[row.address].tokenIndex == row.tokenIndex;
    forall i ensures i in Indices(t') <==> i in Indices(t) + {row.tokenIndex} {
      if i in Indices(t) {
        var a :| a in t && t[a].tokenIndex == i;
        assert a in t';
      }
    }
  }

  ghost predicate FaithfulRows(chain: ChainReader, rows: seq<Row>) { forall r :: r in rows ==> FaithfulRow(chain, r) }

  lemma {:induction false} AlignedPutAll(chain: ChainReader, t: Table, rows: seq<Row>, n: nat)
    requires Faithful(chain) && Aligned(chain, t) && n <= |rows| && FaithfulRows(chain, rows)
    ensures Aligned(chain, PutAll(t, rows, n))
    ensures Indices(PutAll(t, rows, n)) == Indices(t) + RowIndices(rows[..n])
  {
    hide Faithful, Put, Aligned, FaithfulRow, Indices;
    if n > 0 {
      AlignedPutAll(chain, t, rows, n - 1);
      assert rows[n - 1] in rows;
      AlignedPut(chain, PutAll(t, rows, n - 1), rows[n - 1]);
      assert rows[..n] == rows[..n - 1] + [rows[n - 1]];
      RowAdded(rows[..n - 1], rows[n - 1]);
    } else {
      assert RowIndices(rows[..0]) == {};
    }
  }

  lemma RowAdded(rows: seq<Row>, row: Row)
    ensures RowIndices(rows + [row]) == RowIndices(rows) + {row.tokenIndex}
  {
    assert row in rows + [row];
    forall r | r in rows ensures r in rows + [row] {}
  }

  ghost predicate FaithfulWrites(chain: ChainReader, ws: seq<Write>) {
    forall k :: 0 <= k < |ws| && ws[k].PutRow? ==> FaithfulRow(chain, ws[k].row)
  }

  lemma AlignedSetUri(chain: ChainReader, t: Table, a: string, uri: string)
    requires Aligned(chain, t)
    ensures Aligned(chain, SetUri(t, a, uri)) && Indices(SetUri(t, a, uri)) == Indices(t)
  {
    var t' := SetUri(t, a, uri);
    assert t'.Keys == t.Keys && forall b :: b in t ==> t'[b].tokenIndex == t[b].tokenIndex;
  }

  lemma {:induction false} AlignedReplay(chain: ChainReader, t: Table, ws: seq<Write>)
    requires Faithful(chain) && Aligned(chain, t) && FaithfulWrites(chain, ws)
    ensures Aligned(chain, Replay(t, ws)) && Indices(t) <= Indices(Replay(t, ws))
  {
    hide Faithful, Put, Aligned, FaithfulRow, Indices, SetUri;
    if ws != [] {
      var n := |ws| - 1;
      AlignedReplay(chain, t, ws[..n]);
      match ws[n]
      case PutRow(row) => AlignedPut(chain, Replay(t, ws[..n]), row);
      case SetMeta(a, uri) => AlignedSetUri(chain, Replay(t, ws[..n]), a, uri);
    }
  }

  lemma {:induction false} CreatedFaithful(chain: ChainReader, events: seq<IndexerEvent>, n: nat)
    requires n <= |events| && forall e :: 0 <= e < |events| && events[e].Created? ==>
      FaithfulRow(chain, events[e].token)
    ensures forall k :: 0 <= k < |CreatedRows(events, n)| ==> FaithfulRow(chain, CreatedRows(events, n)[k])
  {
    if n > 0 { CreatedFaithful(chain, events, n - 1); }
  }

  lemma {:induction false} MetaWritesNoRows(events: seq<IndexerEvent>, n: nat)
    requires n <= |events|
    ensures forall k :: 0 <= k < |MetaWrites(events, n)| ==> MetaWrites(events, n)[k].SetMeta?
  {
    if n > 0 { MetaWritesNoRows(events, n - 1); }
  }

  lemma {:induction false} StreamFaithful(chain: ChainReader, n: nat)
    requires Faithful(chain) && n <= |chain.pages|
    ensures FaithfulWrites(chain, Stream(chain.pages, n))
  {
    if n > 0 {
      StreamFaithful(chain, n - 1);
      var events := chain.pages[n - 1];
      CreatedFaithful(chain, events, |events|);
      MetaWritesNoRows(events, |events|);
      hide FaithfulRow;
    }
  }

  /** No token is created in the retained event stream. */
  ghost predicate NoCreated(chain: ChainReader) {
    forall p, e :: 0 <= p < |chain.pages| && 0 <= e < |chain.pages[p]| ==> !chain.pages[p][e].Created?
  }

  ghost predicate OnlyUris(ws: seq<Write>) { forall k :: 0 <= k < |ws| ==> ws[k].SetMeta? }

  lemma {:induction false} NoRowsCreated(events: seq<IndexerEvent>, n: nat)
    requires n <= |events| && forall e :: 0 <= e < |events| ==> !events[e].Created?
    ensures CreatedRows(events, n) == []
  {
    if n > 0 { NoRowsCreated(events, n - 1); }
  }

  lemma {:induction false} QuietStream(chain: ChainReader, n: nat)
    requires NoCreated(chain) && n <= |chain.pages|
    ensures OnlyUris(Stream(chain.pages, n))
  {
    if n > 0 {
      QuietStream(chain, n - 1);
      var events := chain.pages[n - 1];
      NoRowsCreated(events, |events|);
      MetaWritesNoRows(events, |events|);
    }
  }

  lemma {:induction false} UrisKeepIndices(chain: ChainReader, t: Table, ws: seq<Write>)
    requires Faithful(chain) && Aligned(chain, t) && OnlyUris(ws)
    ensures Aligned(chain, Replay(t, ws)) && Indices(Replay(t, ws)) == Indices(t)
  {
    hide Faithful, Aligned, Indices, SetUri;
    if ws != [] {
      var n := |ws| - 1;
      UrisKeepIndices(chain, t, ws[..n]);
      AlignedSetUri(chain, Replay(t, ws[..n]), ws[n].address, ws[n].uri);
    }
  }

  // ---- Back-fill ----

  // A budget counts the store and chain operations that still succeed; the next one throws.

  /** Which of `indices` have no row yet. */
  method Absent(indices: seq<nat>, present: set<nat>) returns (missing: seq<nat>)
    ensures SetOf(missing) == SetOf(indices) - present && |missing| <= |indices|
  {
    missing := [];
    for k := 0 to |indices|
      invariant SetOf(missing) == SetOf(indices[..k]) - present && |missing| <= k
    {
      SetOfNext(indices, k);
      if indices[k] !in present {
        ghost var longer := missing + [indices[k]];
        SetOfNext(longer, |missing|);
        assert longer[..|missing|] == missing && longer[..|missing| + 1] == longer;
        missing := missing + [indices[k]];
      }
    }
    assert indices[..|indices|] == indices;
  }

  /** Each row is the one the chain has at its index, marked as back-filled. */
  ghost predicate AsOnChain(chain: ChainReader, rows: seq<Row>) {
    forall r :: r in rows ==>
      InRange(chain, r.tokenIndex) && chain.tokenByIndex(r.tokenIndex).Some? &&
      r == chain.tokenByIndex(r.tokenIndex).value.(source := Backfill)
  }

  /** None of these rows' indices has a row yet. */
  ghost predicate NewIndices(t: Table, rows: seq<Row>) { forall r :: r in rows ==> r.tokenIndex !in Indices(t) }

  lemma NewAddress(chain: ChainReader, t: Table, row: Row)
    requires Faithful(chain) && Aligned(chain, t) && FaithfulRow(chain, row) && row.tokenIndex !in Indices(t)
    ensures row.address !in t
  {
    if row.address in t { SameIndex(chain, t, row); }
  }

  /** Rows of the same address are the same row. */
  lemma OneRowEach(chain: ChainReader, rows: seq<Row>, r: Row, q: Row)
    requires Faithful(chain) && AsOnChain(chain, rows) && r in rows && q in rows && r.address == q.address
    ensures r == q
  {
    assert chain.tokenByIndex(r.tokenIndex).value.address == chain.tokenByIndex(q.tokenIndex).value.address;
  }

  /** Putting rows for new indices adds exactly them. */
  lemma {:induction false} PutsAdd(chain: ChainReader, t: Table, rows: seq<Row>, n: nat)
    requires Faithful(chain) && Aligned(chain, t) && FaithfulRows(chain, rows) && AsOnChain(chain, rows)
    requires NewIndices(t, rows) && n <= |rows|
    ensures var t' := PutAll(t, rows, n);
      && (forall a :: a in t ==> a in t' && t'[a] == t[a])
      && (forall k :: 0 <= k < n ==> rows[k].address in t' && t'[rows[k].address] == rows[k])
      && (forall a :: a in t' && a !in t ==> exists k :: 0 <= k < n && rows[k].address == a)
  {
    hide Faithful, Aligned, FaithfulRow, Indices, AsOnChain;
    if n > 0 {
      PutsAdd(chain, t, rows, n - 1);
      var row, t1 := rows[n - 1], PutAll(t, rows, n - 1);
      assert row in rows;
      NewAddress(chain, t, row);
      if row.address in t1 {
        var k :| 0 <= k < n - 1 && rows[k].address == row.address;
        OneRowEach(chain, rows, rows[k], row);
      }
      forall k | 0 <= k < n - 1 && rows[k].address == row.address ensures rows[k] == row {
        OneRowEach(chain, rows, rows[k], row);
      }
    }
  }

  /** What a back-fill of `wanted` that goes through does: keep every row, and add the chain's own row for each gap. */
  ghost predicate FilledIn(chain: ChainReader, t: Table, t': Table, wanted: set<nat>) {
    && (forall a :: a in t ==> a in t' && t'[a] == t[a])
    && (forall i :: i in wanted && i !in Indices(t) ==>
          chain.tokenByIndex(i).Some? && chain.tokenByIndex(i).value.address in t' &&
          t'[chain.tokenByIndex(i).value.address] == chain.tokenByIndex(i).value.(source := Backfill))
  }

  lemma FilledByRows(chain: ChainReader, t: Table, rows: seq<Row>, wanted: set<nat>)
    requires Faithful(chain) && Aligned(chain, t) && FaithfulRows(chain, rows) && AsOnChain(chain, rows)
    requires RowIndices(rows) == wanted - Indices(t)
    ensures FilledIn(chain, t, PutAll(t, rows, |rows|), wanted)
  {
    hide Faithful, Aligned, FaithfulRow, Indices;
    forall r | r in rows ensures r.tokenIndex !in Indices(t) { assert r.tokenIndex in RowIndices(rows); }
    PutsAdd(chain, t, rows, |rows|);
    forall i | i in wanted && i !in Indices(t)
      ensures chain.tokenByIndex(i).Some? && chain.tokenByIndex(i).value.address in PutAll(t, rows, |rows|)
      ensures PutAll(t, rows, |rows|)[chain.tokenByIndex(i).value.address] ==
        chain.tokenByIndex(i).value.(source := Backfill)
    {
      assert i in RowIndices(rows);
      var r :| r in rows && r.tokenIndex == i;
      var k :| 0 <= k < |rows| && rows[k] == r;
    }
  }

  lemma NothingToFill(chain: ChainReader, t: Table, wanted: set<nat>)
    requires wanted <= Indices(t)
    ensures FilledIn(chain, t, t, wanted)
  {
  }

  /** The rows the chain has for `missing`. */
  method ReadRows(chain: ChainReader, missing: seq<nat>, budget0: nat) returns (ok: bool, budget: nat, rows: seq<Row>)
    requires Faithful(chain) && forall i :: i in SetOf(missing) ==> InRange(chain, i)
    ensures budget <= budget0 <= budget + |missing|
    ensures budget0 >= |missing| ==> ok
    ensures ok ==> FaithfulRows(chain, rows) && RowIndices(rows) == SetOf(missing) && |rows| == |missing|
    ensures AsOnChain(chain, rows)
    ensures BareRows(chain) ==> Bare(rows)
  {
    hide RowIndices;
    budget, rows := budget0, [];
    NoRows();
    for k := 0 to |missing|
      invariant budget <= budget0 == budget + k
      invariant FaithfulRows(chain, rows) && RowIndices(rows) == SetOf(missing[..k]) && |rows| == k
      invariant AsOnChain(chain, rows)
      invariant BareRows(chain) ==> Bare(rows)
    {
      SetOfNext(missing, k);
      if budget == 0 { return false, budget, rows; }
      budget := budget - 1;
      var token := chain.tokenByIndex(missing[k]);
      // An index the factory cannot resolve is skipped; a faithful chain has none.
      if token.Some? {
        RowAdded(rows, token.value.(source := Backfill));
        rows := rows + [token.value.(source := Backfill)];
      }
    }
    assert missing[..|missing|] == missing;
    ok := true;
  }

  lemma NoRows()
    ensures RowIndices([]) == {}
  {
  }

  lemma SetOfNext(s: seq<nat>, k: nat)
    requires k < |s|
    ensures SetOf(s[..k + 1]) == SetOf(s[..k]) + {s[k]} && s[k] in SetOf(s)
  {
    assert s[..k + 1] == s[..k] + [s[k]];
  }

  /** `backfillIndices`: read and upsert whichever of `indices` has no row yet; a failure writes nothing. */
  method BackfillIndices(store: MemoryTokenStore, chain: ChainReader, indices: seq<nat>, budget0: nat)
    returns (ok: bool, budget: nat, written: nat)
    requires Faithful(chain) && Aligned(chain, store.tokens)
    requires forall i :: i in SetOf(indices) ==> InRange(chain, i)
    modifies store`tokens
    ensures Aligned(chain, store.tokens) && UrisKept(old(store.tokens), store.tokens)
    ensures Indices(store.tokens) ==
      if ok then Indices(old(store.tokens)) + SetOf(indices) else Indices(old(store.tokens))
    ensures if ok then FilledIn(chain, old(store.tokens), store.tokens, SetOf(indices))
            else store.tokens == old(store.tokens)
    ensures BareRows(chain) ==> Enriched(old(store.tokens), store.tokens)
    ensures ok ==> (written == 0 <==> SetOf(indices) <= Indices(old(store.tokens)))
    ensures budget <= budget0 <= budget + |indices| + 2
    ensures budget0 >= |indices| + 2 ==> ok
  {
    hide Aligned, Faithful, FaithfulRows, Indices, RowIndices, PutAll, BareRows, Bare, Enriched, AsOnChain, FilledIn;
    KeepsItself(store.tokens);
    EnrichedItself(store.tokens);
    budget, written := budget0, 0;
    if |indices| == 0 {
      assert SetOf(indices) == {};
      NothingToFill(chain, store.tokens, {});
      return true, budget, 0;
    }
    if budget == 0 { return false, budget, 0; }
    budget := budget - 1;
    var present := store.PresentIndices(indices);
    assert present == SetOf(indices) * Indices(store.tokens);
    var missing := Absent(indices, present);
    if |missing| == 0 {
      assert SetOf(missing) == {};
      AllPresent(SetOf(indices), Indices(store.tokens), present);
      NothingToFill(chain, store.tokens, SetOf(indices));
      return true, budget, 0;
    }
    assert missing[0] in SetOf(missing);
    var rows;
    ok, budget, rows := ReadRows(chain, missing, budget);
    if !ok { return; }
    if budget == 0 { return false, budget, 0; }
    budget := budget - 1;
    AlignedPutAll(chain, store.tokens, rows, |rows|);
    assert rows[..|rows|] == rows;
    FilledByRows(chain, store.tokens, rows, SetOf(indices));
    PutAllKeepsUris(store.tokens, rows, |rows|);
    if BareRows(chain) { BarePutsEnrich(store.tokens, rows, |rows|); }
    store.UpsertTokens(rows);
    written := |rows|;
  }

  lemma AllPresent(wanted: set<nat>, stored: set<nat>, present: set<nat>)
    requires present == wanted * stored && wanted - present == {}
    ensures wanted <= stored && stored + wanted == stored
  {
    forall i | i in wanted ensures i in stored { assert i !in wanted - present; }
  }

  lemma KeepsItself(t: Table)
    ensures UrisKept(t, t)
  {
  }

  /** The rows stored are exactly those of the first `n` indices. */
  ghost predicate GapFree(chain: ChainReader, t: Table, n: nat) {
    n <= chain.tokenCount && Indices(t) == Interval(1, n + 1)
  }

  /** The rows stored are those of an initial stretch of the indices. */
  ghost predicate Contiguous(chain: ChainReader, t: Table) { GapFree(chain, t, |t|) }

  lemma SameGapFree(chain: ChainReader, t: Table, t': Table, n: nat)
    requires GapFree(chain, t, n) && Indices(t) == Indices(t')
    ensures GapFree(chain, t', n)
  {
  }

  lemma GapFreeCount(chain: ChainReader, t: Table, n: nat)
    requires Faithful(chain) && Aligned(chain, t) && GapFree(chain, t, n)
    ensures |t| == n
  {
    IndicesSize(chain, t);
  }

  /** The next window above the count already stored. */
  method Window(start: nat, end: nat) returns (window: seq<nat>)
    requires start <= end
    ensures |window| == end - start + 1
    ensures forall k :: 0 <= k < |window| ==> window[k] == start + k
  {
    window := [];
    var i := start;
    while i <= end
      invariant start <= i <= end + 1
      invariant |window| == i - start
      invariant forall k :: 0 <= k < |window| ==> window[k] == start + k
    {
      window := window + [i];
      i := i + 1;
    }
  }

  function Reached(chain: ChainReader, n: nat, batches: nat): nat { Min(chain.tokenCount, n + 25 * batches) }

  /** `runBackfill`: up to eight windows of 25; from a gap-free prefix it closes up to 200 indices. */
  method RunBackfill(store: MemoryTokenStore, chain: ChainReader, budget0: nat) returns (ok: bool, written: nat)
    requires Faithful(chain) && Aligned(chain, store.tokens)
    modifies store`tokens
    ensures Aligned(chain, store.tokens) && UrisKept(old(store.tokens), store.tokens)
    ensures BareRows(chain) ==> Enriched(old(store.tokens), store.tokens)
    ensures Indices(old(store.tokens)) <= Indices(store.tokens)
    ensures Contiguous(chain, old(store.tokens)) ==> Contiguous(chain, store.tokens)
    ensures ok && Contiguous(chain, old(store.tokens)) ==>
      |store.tokens| == Min(chain.tokenCount, |old(store.tokens)| + 200)
    ensures budget0 >= BACKFILL_OPERATIONS ==> ok
  {
    hide Aligned, Faithful, UrisKept, Indices, SetOf, GapFree, BareRows, Enriched;
    written := 0;
    var budget: nat := budget0;
    ghost var t0, n := store.tokens, |store.tokens|;
    ghost var gapFree := GapFree(chain, t0, n);
    KeepsItself(t0);
    EnrichedItself(t0);
    if gapFree { GapFreeBound(chain, t0, n); }
    var batch := 0;
    while batch < MAX_BACKFILL_BATCHES_PER_RUN
      invariant 0 <= batch <= MAX_BACKFILL_BATCHES_PER_RUN
      invariant Aligned(chain, store.tokens) && UrisKept(t0, store.tokens)
      invariant BareRows(chain) ==> Enriched(t0, store.tokens)
      invariant Indices(t0) <= Indices(store.tokens)
      invariant gapFree ==> GapFree(chain, store.tokens, Reached(chain, n, batch))
      invariant gapFree ==> |store.tokens| == Reached(chain, n, batch)
      invariant budget0 <= budget + 28 * batch
    {
      if budget == 0 { return false, written; }
      budget := budget - 1;
      var indexed := store.CountTokens();
      if indexed >= chain.tokenCount { break; }
      var start := indexed + 1;
      var end := Min(start + BACKFILL_BATCH_SIZE - 1, chain.tokenCount);
      if start > end { break; }
      ghost var before := store.tokens;
      var count;
      ok, budget, count := BackfillWindow(store, chain, start, end, budget);
      KeepsTransitive(t0, before, store.tokens);
      if BareRows(chain) { EnrichedTransitive(t0, before, store.tokens); }
      if gapFree { GapFreeCount(chain, store.tokens, if ok then end else indexed); }
      if !ok { return; }
      written := written + count;
      if count == 0 { break; }
      batch := batch + 1;
    }
    ok := true;
  }

  /** The most operations a back-fill can need. */
  const BACKFILL_OPERATIONS: nat := 8 * 28

  /** One window of `runBackfill`. */
  method BackfillWindow(store: MemoryTokenStore, chain: ChainReader, start: nat, end: nat, budget0: nat)
    returns (ok: bool, budget: nat, count: nat)
    requires Faithful(chain) && Aligned(chain, store.tokens) && 0 < start <= end <= chain.tokenCount && end < start + 25
    modifies store`tokens
    ensures Aligned(chain, store.tokens) && UrisKept(old(store.tokens), store.tokens)
    ensures Indices(old(store.tokens)) <= Indices(store.tokens)
    ensures BareRows(chain) ==> Enriched(old(store.tokens), store.tokens)
    ensures GapFree(chain, old(store.tokens), start - 1) ==>
      GapFree(chain, store.tokens, if ok then end else start - 1) && (ok ==> count > 0)
    ensures budget <= budget0 <= budget + 27
    ensures budget0 >= 27 ==> ok
  {
    hide Aligned, Faithful, UrisKept, Indices, GapFree, BareRows, Enriched;
    var window := Window(start, end);
    ok, budget, count := BackfillIndices(store, chain, window, budget0);
    if GapFree(chain, old(store.tokens), start - 1) {
      if ok {
        NextWindow(chain, old(store.tokens), store.tokens, window, start, end);
      } else {
        SameGapFree(chain, old(store.tokens), store.tokens, start - 1);
      }
    }
  }

  lemma GapFreeBound(chain: ChainReader, t: Table, n: nat)
    requires GapFree(chain, t, n)
    ensures n <= chain.tokenCount
  {
  }

  /** On a gap-free prefix the next window is all new, and extends the prefix. */
  lemma NextWindow(chain: ChainReader, before: Table, after: Table, window: seq<nat>, start: nat, end: nat)
    requires 0 < start <= end <= chain.tokenCount && |window| == end - start + 1
    requires forall k :: 0 <= k < |window| ==> window[k] == start + k
    requires GapFree(chain, before, start - 1) && Indices(after) == Indices(before) + SetOf(window)
    ensures GapFree(chain, after, end) && !(SetOf(window) <= Indices(before))
  {
    hide Indices;
    assert window[0] in SetOf(window);
    forall i ensures i in Indices(after) <==> 0 < i <= end {
      if start <= i <= end { assert window[i - start] == i; }
    }
    assert Indices(after) == Interval(1, end + 1);
  }

  lemma KeepsTransitive(a: Table, b: Table, c: Table)
    requires UrisKept(a, b) && UrisKept(b, c)
    ensures UrisKept(a, c)
  {
  }

  // ---- Reconciliation and the whole cycle ----

  /** The first indices without a row, at most one batch of them. */
  method FirstMissing(store: MemoryTokenStore, chain: ChainReader) returns (missing: seq<nat>)
    ensures forall k :: 0 <= k < |missing| ==> missing[k] in Missing(chain, store.tokens)
    ensures forall j, k :: 0 <= j < k < |missing| ==> missing[j] != missing[k]
    ensures |missing| == Min(25, |Missing(chain, store.tokens)|)
    ensures forall i, k :: i in Missing(chain, store.tokens) && i !in missing && 0 <= k < |missing| ==> missing[k] < i
  {
    var all := [];
    if chain.tokenCount > 0 { all := Window(1, chain.tokenCount); }
    var present := store.PresentIndices(all);
    var absent: seq<nat> := [];
    for k := 0 to |all|
      invariant forall j :: 0 <= j < |absent| ==> absent[j] <= k && absent[j] in Missing(chain, store.tokens)
      invariant forall i, j :: 0 <= i < j < |absent| ==> absent[i] < absent[j]
      invariant forall i :: i in Missing(chain, store.tokens) && i <= k ==> i in absent
    {
      assert all[k] == k + 1 && all[k] in all;
      if all[k] !in present { absent := absent + [all[k]]; }
    }
    ListSize(absent, Missing(chain, store.tokens));
    missing := absent[..Min(BACKFILL_BATCH_SIZE, |absent|)];
    forall i, k | i in Missing(chain, store.tokens) && i !in missing && 0 <= k < |missing| ensures missing[k] < i {
      var j :| 0 <= j < |absent| && absent[j] == i;
      assert missing == absent[..|missing|] && (forall m :: 0 <= m < |missing| ==> missing[m] in missing);
    }
  }

  lemma {:induction false} ListSize(s: seq<nat>, m: set<nat>)
    requires forall i, j :: 0 <= i < j < |s| ==> s[i] < s[j]
    requires forall i :: i in s <==> i in m
    ensures |s| == |m|
  {
    if s == [] {
      assert m == {};
    } else {
      var n := |s| - 1;
      forall i ensures i in s[..n] <==> i in m - {s[n]} {
        if i in m - {s[n]} { assert i in s; }
      }
      ListSize(s[..n], m - {s[n]});
      assert s[n] in m;
    }
  }

  lemma {:induction false} ListSet(s: seq<nat>)
    requires forall i, j :: 0 <= i < j < |s| ==> s[i] != s[j]
    ensures |SetOf(s)| == |s|
  {
    if s != [] {
      var n := |s| - 1;
      ListSet(s[..n]);
      SetOfNext(s, n);
      assert s[..n + 1] == s;
      assert s[n] !in SetOf(s[..n]);
    }
  }

  lemma {:induction false} DifferenceSize(a: set<nat>, b: set<nat>)
    requires b <= a
    ensures |a - b| == |a| - |b|
  {
    assert a == (a - b) + b;
  }

  /** Filling some of the missing indices leaves exactly the others. */
  lemma Filled(chain: ChainReader, before: Table, after: Table, filled: seq<nat>)
    requires Indices(after) == Indices(before) + SetOf(filled)
    requires forall k :: 0 <= k < |filled| ==> filled[k] in Missing(chain, before)
    requires forall j, k :: 0 <= j < k < |filled| ==> filled[j] != filled[k]
    ensures |Missing(chain, after)| == |Missing(chain, before)| - |filled|
  {
    hide Indices;
    ListSet(filled);
    assert Missing(chain, after) == Missing(chain, before) - SetOf(filled);
    DifferenceSize(Missing(chain, before), SetOf(filled));
  }

  /** Filling the lowest missing indices lengthens a gap-free prefix. */
  lemma FilledPrefix(chain: ChainReader, before: Table, after: Table, filled: seq<nat>)
    requires Faithful(chain) && Aligned(chain, after) && Contiguous(chain, before)
    requires Indices(after) == Indices(before) + SetOf(filled)
    requires forall k :: 0 <= k < |filled| ==> filled[k] in Missing(chain, before)
    requires forall i, k :: i in Missing(chain, before) && i !in filled && 0 <= k < |filled| ==> filled[k] < i
    ensures Contiguous(chain, after)
  {
    hide Faithful, Aligned, Indices, SetOf;
    assert forall i :: i in Missing(chain, before) <==> |before| < i <= chain.tokenCount;
    forall k | 0 <= k < |filled| ensures |before| < filled[k] <= chain.tokenCount {
      assert filled[k] in Missing(chain, before);
    }
    hide Missing;
    var end := FilledRange(|before|, chain.tokenCount, Indices(before), filled);
    GapFreeCount(chain, after, end);
  }

  lemma FilledRange(n: nat, count: nat, stored: set<nat>, filled: seq<nat>) returns (end: nat)
    requires n <= count && stored == Interval(1, n + 1)
    requires forall k :: 0 <= k < |filled| ==> n < filled[k] <= count
    requires forall i, k :: n < i <= count && i !in filled && 0 <= k < |filled| ==> filled[k] < i
    ensures end <= count && stored + SetOf(filled) == Interval(1, end + 1)
  {
    end := n;
    if filled != [] {
      end := Highest(filled);
      var k :| 0 <= k < |filled| && filled[k] == end;
      forall i: nat | n < i <= end ensures i in filled {}
    }
  }

  function Highest(s: seq<nat>): (h: nat)
    requires s != []
    ensures h in s && forall i :: i in s ==> i <= h
  {
    assert s == [s[0]] + s[1..];
    if |s| == 1 then s[0] else Max(s[0], Highest(s[1..]))
  }

  /** How many operations each phase of a run gets through before one throws; `start` covers the first two reads. */
  datatype Faults = Faults(start: bool, backfill: nat, stream: nat, reconcile: nat)

  /** Nothing throws: every phase has the operations it can need. */
  predicate Untroubled(chain: ChainReader, f: Faults) {
    && f.start && f.backfill >= BACKFILL_OPERATIONS
    && f.stream > |Stream(chain.pages, |chain.pages|)| + 2 * MAX_EVENT_PAGES_PER_RUN
    && f.reconcile >= 31
  }

  /** What every run keeps, failed or not. */
  ghost predicate Progress(chain: ChainReader, before: Table, after: Table) {
    && Aligned(chain, after) && UrisKept(before, after) && Indices(before) <= Indices(after)
    && (NoCreated(chain) && Contiguous(chain, before) ==> Contiguous(chain, after))
  }

  lemma ProgressItself(chain: ChainReader, t: Table)
    requires Aligned(chain, t)
    ensures Progress(chain, t, t)
  {
    hide Aligned, Indices, Contiguous;
  }

  lemma ProgressTransitive(chain: ChainReader, a: Table, b: Table, c: Table)
    requires Progress(chain, a, b) && Progress(chain, b, c)
    ensures Progress(chain, a, c)
  {
    hide Aligned, Indices, Contiguous, NoCreated;
  }

  /**
   * The event phase of a run: it applies the stretch `from..to` of the stream,
   * starting at the cursor, to the table `mid` back-fill left, and reconciliation
   * adds rows after it.
   */
  ghost predicate RanEvents(chain: ChainReader, before: Table, cursor: Option<nat>, mid: Table, from: nat, to: nat,
                            after: Table, cursor': Option<nat>)
  {
    && PageAt(cursor) < |chain.pages| && PageAt(cursor') < |chain.pages|
    && from == Offset(chain.pages, PageAt(cursor)) && from <= to <= |Stream(chain.pages, |chain.pages|)|
    && Offset(chain.pages, PageAt(cursor')) <= to
    && Enriched(before, mid) && Enriched(Replay(mid, Stream(chain.pages, |chain.pages|)[from..to]), after)
  }

  /**
   * `runIngest`. However it fails, nothing stored is lost and the back-fill flag
   * is left alone. A run that does not fail closes at least `min(missing, 25)`
   * gaps; from a gap-free prefix, while back-fill is not yet marked complete, at
   * least `min(missing, 225)`; and it marks completion exactly when nothing is
   * missing. Once back-fill is marked complete a run whose events create nothing
   * closes exactly `min(missing, 25)`.
   */
  method RunIngest(store: MemoryTokenStore, chain: ChainReader, f: Faults)
    returns (ok: bool, complete: bool, ghost mid: Table, ghost from: nat, ghost to: nat)
    requires Faithful(chain) && Aligned(chain, store.tokens)
    requires PageAt(store.state.lastCursor) < |chain.pages|
    modifies store
    ensures Progress(chain, old(store.tokens), store.tokens)
    ensures PageAt(store.state.lastCursor) < |chain.pages|
    ensures !ok ==> store.state.backfillComplete == old(store.state).backfillComplete && !complete
    ensures ok ==> var before, after := |Missing(chain, old(store.tokens))|, |Missing(chain, store.tokens)|;
      && after <= before - Min(before, 25)
      && (Contiguous(chain, old(store.tokens)) && !old(store.state).backfillComplete ==>
            after <= before - Min(before, 225))
      && (old(store.state).backfillComplete && NoCreated(chain) ==> after == before - Min(before, 25))
      && (complete <==> after == 0) && store.state.backfillComplete == complete
    ensures Untroubled(chain, f) ==> ok
    ensures BareRows(chain) ==>
      RanEvents(chain, old(store.tokens), old(store.state).lastCursor, mid, from, to, store.tokens,
        store.state.lastCursor)
    ensures ok && store.state.lastCursor.None? ==> to == |Stream(chain.pages, |chain.pages|)|
  {
    hide Aligned, Faithful, Indices, UrisKept, Replay, Stream, FaithfulWrites, NoCreated, GapFree, Missing;
    hide Contiguous, BareRows, Enriched;
    ghost var t0 := store.tokens;
    KeepsItself(t0);
    EnrichedItself(t0);
    NothingApplied(chain, t0, store.state.lastCursor);
    ok, complete, mid := false, false, t0;
    from := Offset(chain.pages, PageAt(store.state.lastCursor));
    to := from;
    if !f.start { return; }
    if !store.state.backfillComplete {
      var done, _ := RunBackfill(store, chain, f.backfill);
      mid := store.tokens;
      NothingApplied(chain, mid, store.state.lastCursor);
      EnrichedItself(mid);
      if !done { return; }
    }
    ghost var t1 := store.tokens;
    StreamFaithful(chain, |chain.pages|);
    var applied, finished;
    applied, finished, from, to := RunSteadyState(store, chain, f.stream);
    ghost var t2 := store.tokens;
    EnrichedItself(t2);
    SteadyEffect(chain, t1, Stream(chain.pages, |chain.pages|), from, to);
    KeepsTransitive(t0, t1, t2);
    if NoCreated(chain) {
      QuietEffect(chain, t1, from, to);
      SameRows(chain, t1, t2);
    }
    if !finished { return; }
    MissingShrinks(chain, t0, t1, t2);
    var reconciled, done := Reconcile(store, chain, f.reconcile);
    KeepsTransitive(t0, t2, store.tokens);
    if !reconciled { return; }
    ok, complete := true, done;
    store.SaveBackfill(complete);
  }

  lemma NothingApplied(chain: ChainReader, t: Table, cursor: Option<nat>)
    requires PageAt(cursor) < |chain.pages|
    ensures var at := Offset(chain.pages, PageAt(cursor));
      at <= |Stream(chain.pages, |chain.pages|)| && Replay(t, Stream(chain.pages, |chain.pages|)[at..at]) == t
  {
    hide Stream;
    StreamPrefix(chain.pages, PageAt(cursor), |chain.pages|);
    EmptyStretch(t, Stream(chain.pages, |chain.pages|), Offset(chain.pages, PageAt(cursor)));
  }

  lemma SameRows(chain: ChainReader, t: Table, t': Table)
    requires Faithful(chain) && Aligned(chain, t) && Aligned(chain, t') && Indices(t) == Indices(t')
    ensures Missing(chain, t) == Missing(chain, t') && (Contiguous(chain, t) ==> Contiguous(chain, t'))
  {
    IndicesSize(chain, t);
    IndicesSize(chain, t');
    hide Faithful, Aligned, Indices;
  }

  /** The reconciliation at the end of a run: read one batch of missing indices again. */
  method Reconcile(store: MemoryTokenStore, chain: ChainReader, budget0: nat) returns (ok: bool, complete: bool)
    requires Faithful(chain) && Aligned(chain, store.tokens)
    modifies store`tokens
    ensures Aligned(chain, store.tokens) && UrisKept(old(store.tokens), store.tokens)
    ensures Indices(old(store.tokens)) <= Indices(store.tokens)
    ensures BareRows(chain) ==> Enriched(old(store.tokens), store.tokens)
    ensures Contiguous(chain, old(store.tokens)) ==> Contiguous(chain, store.tokens)
    ensures ok ==> var before, after := |Missing(chain, old(store.tokens))|, |Missing(chain, store.tokens)|;
      after == before - Min(before, 25) && (complete <==> after == 0)
    ensures budget0 >= 31 ==> ok
  {
    hide Aligned, Faithful, Indices, UrisKept, BareRows, Enriched, Contiguous;
    ghost var t := store.tokens;
    var budget: nat := budget0;
    KeepsItself(t);
    EnrichedItself(t);
    CountPlusMissing(chain, t);
    ok, complete := false, false;
    if budget == 0 { return; }
    budget := budget - 1;
    var indexed := store.CountTokens();
    if indexed < chain.tokenCount {
      if budget == 0 { return; }
      budget := budget - 1;
      var missing := FirstMissing(store, chain);
      var filled, written;
      filled, budget, written := BackfillIndices(store, chain, missing, budget);
      if !filled {
        SameRows(chain, t, store.tokens);
        return;
      }
      if Contiguous(chain, t) { FilledPrefix(chain, t, store.tokens, missing); }
      if budget == 0 { return; }
      Filled(chain, t, store.tokens, missing);
      CountPlusMissing(chain, store.tokens);
      indexed := store.CountTokens();
      budget := budget - 1;
    }
    if budget == 0 { return; }
    ok, complete := true, indexed >= chain.tokenCount;
  }

  lemma SteadyEffect(chain: ChainReader, t: Table, stream: seq<Write>, from: nat, to: nat)
    requires Faithful(chain) && Aligned(chain, t) && FaithfulWrites(chain, stream) && from <= to <= |stream|
    ensures var t' := Replay(t, stream[from..to]);
      Aligned(chain, t') && Indices(t) <= Indices(t') && UrisKept(t, t')
  {
    hide Faithful, Aligned, FaithfulRow;
    forall k | 0 <= k < to - from && stream[from..to][k].PutRow? ensures FaithfulRow(chain, stream[from..to][k].row) {
      assert stream[from..to][k] == stream[from + k];
    }
    AlignedReplay(chain, t, stream[from..to]);
    ReplayKeepsUris(t, stream[from..to]);
  }

  lemma MissingShrinks(chain: ChainReader, t0: Table, t1: Table, t2: Table)
    requires Faithful(chain) && Aligned(chain, t0) && Aligned(chain, t1) && Aligned(chain, t2)
    requires Indices(t0) <= Indices(t1) <= Indices(t2)
    ensures |Missing(chain, t2)| <= |Missing(chain, t0)|
    ensures |t1| == Min(chain.tokenCount, |t0| + 200) ==> |Missing(chain, t2)| <= Max(0, |Missing(chain, t0)| - 200)
  {
    FewerMissing(chain, t0, t2);
    FewerMissing(chain, t1, t2);
    CountPlusMissing(chain, t0);
    CountPlusMissing(chain, t1);
  }

  lemma QuietEffect(chain: ChainReader, t: Table, from: nat, to: nat)
    requires Faithful(chain) && Aligned(chain, t) && NoCreated(chain)
    requires from <= to <= |Stream(chain.pages, |chain.pages|)|
    ensures Indices(Replay(t, Stream(chain.pages, |chain.pages|)[from..to])) == Indices(t)
  {
    QuietStream(chain, |chain.pages|);
    hide Faithful, Aligned, NoCreated, Indices, Stream;
    UrisKeepIndices(chain, t, Stream(chain.pages, |chain.pages|)[from..to]);
  }

  /** How many of the runs got through. */
  function Succeeded(oks: seq<bool>): nat {
    if oks == [] then 0 else Succeeded(oks[..|oks| - 1]) + if oks[|oks| - 1] then 1 else 0
  }

  /**
   * How many gaps `k` runs that got through close on a quiet stream from a
   * gap-free prefix: 225 each, but 25 for the first if the flag was set, which
   * clears it.
   */
  function Closed(flagged: bool, k: nat): nat { if k == 0 then 0 else if flagged then 25 + 225 * (k - 1) else 225 * k }

  /**
   * Ingest converges: failed runs lose nothing, and every other one closes 25
   * more gaps until none is left; on a quiet stream from a gap-free prefix 225
   * more, the first one after completion was marked excepted.
   */
  method RunRepeatedly(store: MemoryTokenStore, chain: ChainReader, runs: seq<Faults>) returns (oks: seq<bool>)
    requires Faithful(chain) && Aligned(chain, store.tokens)
    requires PageAt(store.state.lastCursor) < |chain.pages|
    modifies store
    ensures |oks| == |runs| && forall k :: 0 <= k < |runs| && Untroubled(chain, runs[k]) ==> oks[k]
    ensures |Missing(chain, store.tokens)| <= Max(0, |Missing(chain, old(store.tokens))| - 25 * Succeeded(oks))
    ensures NoCreated(chain) && Contiguous(chain, old(store.tokens)) ==>
      |Missing(chain, store.tokens)| <=
        Max(0, |Missing(chain, old(store.tokens))| - Closed(old(store.state).backfillComplete, Succeeded(oks)))
    ensures Progress(chain, old(store.tokens), store.tokens)
  {
    hide Aligned, Faithful, Indices, UrisKept, Missing, Untroubled, NoCreated, Contiguous, RanEvents, BareRows;
    KeepsItself(store.tokens);
    ghost var t0, flagged := store.tokens, store.state.backfillComplete;
    ghost var quiet := NoCreated(chain) && Contiguous(chain, t0);
    oks := [];
    for i := 0 to |runs|
      invariant Progress(chain, t0, store.tokens) && PageAt(store.state.lastCursor) < |chain.pages|
      invariant |oks| == i && forall k :: 0 <= k < i && Untroubled(chain, runs[k]) ==> oks[k]
      invariant |Missing(chain, store.tokens)| <= Max(0, |Missing(chain, t0)| - 25 * Succeeded(oks))
      invariant quiet ==>
        |Missing(chain, store.tokens)| <= Max(0, |Missing(chain, t0)| - Closed(flagged, Succeeded(oks)))
      invariant Succeeded(oks) == 0 ==> store.state.backfillComplete == flagged
      invariant Succeeded(oks) > 0 && store.state.backfillComplete ==> |Missing(chain, store.tokens)| == 0
    {
      ghost var t := store.tokens;
      var ok, _, _, _, _ := RunIngest(store, chain, runs[i]);
      ProgressTransitive(chain, t0, t, store.tokens);
      FewerMissing(chain, t, store.tokens);
      assert (oks + [ok])[..|oks|] == oks;
      oks := oks + [ok];
    }
  }

  lemma FewerMissing(chain: ChainReader, t: Table, t': Table)
    requires Indices(t) <= Indices(t')
    ensures |Missing(chain, t')| <= |Missing(chain, t)|
  {
    SubsetSize(Missing(chain, t'), Missing(chain, t));
  }
}
