/** The ingest cycle: bounded back-fill, checkpointed event pages, reconciliation of gaps. */
module Ingest {
  import opened Common
  import opened IndexerStore
  import opened IndexerReplay

  const BACKFILL_BATCH_SIZE: nat := 25
  const MAX_BACKFILL_BATCHES_PER_RUN: nat := 8
  const MAX_EVENT_PAGES_PER_RUN: nat := 20

  /** The events ingest acts on; every other topic is `Other`. */
  datatype IndexerEvent = Created(token: Row) | Meta(address: string, uri: string) | Other

  /** A fixed chain: its token count, its view functions, and its event stream cut into pages. */
  datatype ChainReader = ChainReader(tokenCount: nat, tokenByIndex: nat -> Option<Row>, pages: seq<seq<IndexerEvent>>)

  // ---- The stream as store writes ----

  /** The rows of a page's `created` events. */
  function CreatedRows(events: seq<IndexerEvent>, n: nat): seq<Row>
    requires n <= |events|
  {
    if n == 0 then []
    else CreatedRows(events, n - 1) +
         (if events[n - 1].Created? then [events[n - 1].token.(source := FromEvent)] else [])
  }

  function RowWrites(rows: seq<Row>): (ws: seq<Write>)
    ensures |ws| == |rows|
  {
    seq(|rows|, i requires 0 <= i < |rows| => PutRow(rows[i]))
  }

  /** The URI writes of a page's first `n` events. */
  function MetaWrites(events: seq<IndexerEvent>, n: nat): seq<Write>
    requires n <= |events|
  {
    if n == 0 then []
    else MetaWrites(events, n - 1) +
         (if events[n - 1].Meta? then [SetMeta(events[n - 1].address, events[n - 1].uri)] else [])
  }

  /** A page's writes: all its rows first, then its URIs. */
  function PageWrites(events: seq<IndexerEvent>): seq<Write> {
    RowWrites(CreatedRows(events, |events|)) + MetaWrites(events, |events|)
  }

  /** The writes of the first `n` pages. */
  function Stream(pages: seq<seq<IndexerEvent>>, n: nat): seq<Write>
    requires n <= |pages|
  {
    if n == 0 then [] else Stream(pages, n - 1) + PageWrites(pages[n - 1])
  }

  /** Where the writes of page `n` start in the whole stream. */
  function Offset(pages: seq<seq<IndexerEvent>>, n: nat): nat
    requires n <= |pages|
  {
    |Stream(pages, n)|
  }

  lemma {:induction false} StreamPrefix(pages: seq<seq<IndexerEvent>>, n: nat, m: nat)
    requires n <= m <= |pages|
    ensures Stream(pages, n) <= Stream(pages, m)
  {
    if n < m { StreamPrefix(pages, n, m - 1); }
  }

  /** Page `n`'s writes sit between the offsets of page `n` and the next. */
  lemma PageInStream(pages: seq<seq<IndexerEvent>>, n: nat)
    requires n < |pages|
    ensures Offset(pages, n) + |PageWrites(pages[n])| == Offset(pages, n + 1) <= Offset(pages, |pages|)
    ensures Stream(pages, |pages|)[Offset(pages, n)..Offset(pages, n + 1)] == PageWrites(pages[n])
  {
    StreamPrefix(pages, n + 1, |pages|);
    var all, upTo := Stream(pages, |pages|), Stream(pages, n + 1);
    assert upTo == all[..|upTo|];
    assert upTo[Offset(pages, n)..] == PageWrites(pages[n]);
  }

  lemma {:induction false} PutAllIsReplay(t: Table, rows: seq<Row>, n: nat)
    requires n <= |rows|
    ensures PutAll(t, rows, n) == Replay(t, RowWrites(rows)[..n])
  {
    if n > 0 {
      PutAllIsReplay(t, rows, n - 1);
      assert RowWrites(rows)[..n][..n - 1] == RowWrites(rows)[..n - 1];
    }
  }

  // ---- Ordering that makes the stream grounded ----

  /** Every `meta` event's token is known, or created in the same or an earlier page. */
  ghost predicate MetaAfterCreated(start: Table, pages: seq<seq<IndexerEvent>>) {
    forall p, i :: 0 <= p < |pages| && 0 <= i < |pages[p]| && pages[p][i].Meta? ==>
      pages[p][i].address in start ||
      exists q, j :: 0 <= q <= p && 0 <= j < |pages[q]| && pages[q][j].Created? &&
                     pages[q][j].token.address == pages[p][i].address
  }

  lemma {:induction false} CreatedIsPut(events: seq<IndexerEvent>, n: nat, j: nat)
    requires j < n <= |events| && events[j].Created?
    ensures exists k ::
      0 <= k < |CreatedRows(events, n)| && CreatedRows(events, n)[k].address == events[j].token.address
  {
    var rows := CreatedRows(events, n);
    if j < n - 1 {
      CreatedIsPut(events, n - 1, j);
      var earlier := CreatedRows(events, n - 1);
      var k :| 0 <= k < |earlier| && earlier[k].address == events[j].token.address;
      assert rows[k] == earlier[k];
    } else {
      assert rows[|rows| - 1].address == events[j].token.address;
    }
  }

  lemma {:induction false} MetaIsEvent(events: seq<IndexerEvent>, n: nat, k: nat) returns (i: nat)
    requires n <= |events| && k < |MetaWrites(events, n)|
    ensures MetaWrites(events, n)[k].SetMeta?
    ensures i < n && events[i].Meta? && events[i].address == MetaWrites(events, n)[k].address
  {
    if k < |MetaWrites(events, n - 1)| {
      i := MetaIsEvent(events, n - 1, k);
    } else {
      i := n - 1;
    }
  }

  lemma PutsEither(a: seq<Write>, b: seq<Write>, x: string)
    requires Puts(a, x) || Puts(b, x)
    ensures Puts(a + b, x)
  {
    if Puts(a, x) {
      var i :| 0 <= i < |a| && a[i].PutRow? && a[i].row.address == x;
      assert (a + b)[i] == a[i];
    } else {
      var i :| 0 <= i < |b| && b[i].PutRow? && b[i].row.address == x;
      assert (a + b)[|a| + i] == b[i];
    }
  }

  /** A `created` event's row is among its page's first writes. */
  lemma CreatedRowIsPut(events: seq<IndexerEvent>, j: nat)
    requires j < |events| && events[j].Created?
    ensures Puts(RowWrites(CreatedRows(events, |events|)), events[j].token.address)
  {
    CreatedIsPut(events, |events|, j);
    var rows := CreatedRows(events, |events|);
    var k :| 0 <= k < |rows| && rows[k].address == events[j].token.address;
    assert RowWrites(rows)[k] == PutRow(rows[k]);
  }

  lemma {:induction false} CreatedInStream(pages: seq<seq<IndexerEvent>>, q: nat, j: nat, n: nat)
    requires q < n <= |pages| && j < |pages[q]| && pages[q][j].Created?
    ensures Puts(Stream(pages, n), pages[q][j].token.address)
  {
    var x := pages[q][j].token.address;
    if q == n - 1 {
      CreatedRowIsPut(pages[q], j);
      PutsEither(RowWrites(CreatedRows(pages[q], |pages[q]|)), MetaWrites(pages[q], |pages[q]|), x);
    } else {
      CreatedInStream(pages, q, j, n - 1);
    }
    PutsEither(Stream(pages, n - 1), PageWrites(pages[n - 1]), x);
  }

  lemma GroundedConcat(t: Table, a: seq<Write>, b: seq<Write>)
    requires Grounded(t, a)
    requires forall k :: 0 <= k < |b| && b[k].SetMeta? ==>
      b[k].address in t || Puts(a, b[k].address) || Puts(b[..k], b[k].address)
    ensures Grounded(t, a + b)
  {
    var ws := a + b;
    forall k | 0 <= k < |ws| && ws[k].SetMeta? ensures ws[k].address in t || Puts(ws[..k], ws[k].address) {
      if k < |a| {
        assert ws[..k] == a[..k];
      } else {
        var i := k - |a|;
        assert ws[k] == b[i] && ws[..k] == a + b[..i];
        if b[i].address !in t { PutsEither(a, b[..i], b[i].address); }
      }
    }
  }

  /** The ordering condition makes the flattened stream grounded. */
  lemma {:induction false} OrderedStreamIsGrounded(start: Table, pages: seq<seq<IndexerEvent>>, n: nat)
    requires MetaAfterCreated(start, pages) && n <= |pages|
    ensures Grounded(start, Stream(pages, n))
  {
    hide PageWrites, Puts, Grounded;
    if n > 0 {
      OrderedStreamIsGrounded(start, pages, n - 1);
      var b := PageWrites(pages[n - 1]);
      forall k | 0 <= k < |b| && b[k].SetMeta?
        ensures b[k].address in start || Puts(Stream(pages, n - 1), b[k].address) || Puts(b[..k], b[k].address)
      {
        UriWriteIsGrounded(start, pages, n - 1, k);
      }
      GroundedConcat(start, Stream(pages, n - 1), b);
    } else {
      NothingIsGrounded(start);
    }
  }

  lemma NothingIsGrounded(t: Table)
    ensures Grounded(t, [])
  {
  }

  lemma UriWriteIsGrounded(start: Table, pages: seq<seq<IndexerEvent>>, p: nat, k: nat)
    requires MetaAfterCreated(start, pages) && p < |pages|
    requires k < |PageWrites(pages[p])| && PageWrites(pages[p])[k].SetMeta?
    ensures var b := PageWrites(pages[p]);
      b[k].address in start || Puts(Stream(pages, p), b[k].address) || Puts(b[..k], b[k].address)
  {
    hide Puts, Stream, CreatedRows, MetaWrites;
    var puts := RowWrites(CreatedRows(pages[p], |pages[p]|));
    assert k >= |puts|;
    var i := MetaIsEvent(pages[p], |pages[p]|, k - |puts|);
    var a := pages[p][i].address;
    if a !in start {
      var q, j :| 0 <= q <= p && 0 <= j < |pages[q]| && pages[q][j].Created? && pages[q][j].token.address == a;
      if q < p {
        CreatedInStream(pages, q, j, p);
      } else {
        CreatedRowIsPut(pages[p], j);
        PutsEither(puts, MetaWrites(pages[p], |pages[p]|)[..k - |puts|], a);
        assert PageWrites(pages[p])[..k] == puts + MetaWrites(pages[p], |pages[p]|)[..k - |puts|];
      }
    }
  }

  // ---- Steady state ----

  /** The page a cursor names; a null cursor starts over from the retained stream's first page. */
  function PageAt(cursor: Option<nat>): nat { if cursor.Some? then cursor.value else 0 }

  /** The cursor a run that is not cut short leaves. */
  function AfterUncutRun(chain: ChainReader, cursor: Option<nat>): Option<nat> {
    var next := PageAt(cursor) + MAX_EVENT_PAGES_PER_RUN;
    if next < |chain.pages| then Some(next) else None
  }

  /** Steady-state ingest that may be cut short before any chain read or store write. */
  method RunSteadyState(store: MemoryTokenStore, chain: ChainReader, budget0: nat)
    returns (applied: nat, finished: bool, ghost from: nat, ghost to: nat)
    requires PageAt(store.state.lastCursor) < |chain.pages|
    modifies store
    ensures store.state.backfillComplete == old(store.state).backfillComplete
    ensures PageAt(store.state.lastCursor) < |chain.pages|
    ensures from == Offset(chain.pages, PageAt(old(store.state).lastCursor))
    ensures from <= to <= |Stream(chain.pages, |chain.pages|)|
    ensures store.tokens == Replay(old(store.tokens), Stream(chain.pages, |chain.pages|)[from..to])
    ensures Offset(chain.pages, PageAt(store.state.lastCursor)) <= to
    ensures finished && store.state.lastCursor.None? ==> to == |Stream(chain.pages, |chain.pages|)|
    ensures finished ==> store.state.lastCursor == AfterUncutRun(chain, old(store.state).lastCursor)
    ensures budget0 > |Stream(chain.pages, |chain.pages|)| + 2 * MAX_EVENT_PAGES_PER_RUN ==> finished
  {
    hide Replay, PageWrites, Stream;
    var pages := chain.pages;
    ghost var all := Stream(pages, |pages|);
    var cursor := store.state.lastCursor;
    var budget: nat := budget0;
    OffsetZero(pages);
    applied, finished := 0, false;
    from := Offset(pages, PageAt(cursor));
    to := from;
    StreamPrefix(pages, PageAt(cursor), |pages|);
    EmptyStretch(store.tokens, all, from);
    var page := 0;
    while page < MAX_EVENT_PAGES_PER_RUN
      invariant 0 <= page <= MAX_EVENT_PAGES_PER_RUN && !finished
      invariant cursor == store.state.lastCursor && PageAt(cursor) < |pages|
      invariant page > 0 ==> cursor.Some?
      invariant PageAt(cursor) == PageAt(old(store.state).lastCursor) + page
      invariant store.state.backfillComplete == old(store.state).backfillComplete
      invariant from <= to == Offset(pages, PageAt(cursor)) <= |all|
      invariant store.tokens == Replay(old(store.tokens), all[from..to])
      invariant budget0 > |all| + 2 * MAX_EVENT_PAGES_PER_RUN ==>
        budget > |all| - to + 2 * (MAX_EVENT_PAGES_PER_RUN - page)
    {
      var at := PageAt(cursor);
      PageInStream(pages, at);
      if budget == 0 { return; }
      budget := budget - 1;
      var events := pages[at];
      var next := if at + 1 < |pages| then Some(at + 1) else None;
      ghost var done;
      var ok;
      ok, budget, done := ApplyPage(store, events, budget);
      Extend(old(store.tokens), all, from, to, done, PageWrites(events));
      to := to + done;
      if !ok { return; }
      applied := applied + |events|;
      cursor := next;
      if budget == 0 { return; }
      budget := budget - 1;
      store.SaveCursor(cursor);
      if next.None? {
        finished := true;
        return;
      }
      page := page + 1;
    }
    finished := true;
  }

  lemma EmptyStretch(t: Table, all: seq<Write>, at: nat)
    requires at <= |all|
    ensures Replay(t, all[at..at]) == t
  {
    assert all[at..at] == [];
  }

  /** Applying a prefix of the next page extends the replayed stretch. */
  lemma Extend(t: Table, all: seq<Write>, from: nat, to: nat, done: nat, ws: seq<Write>)
    requires from <= to && to + |ws| <= |all| && all[to..to + |ws|] == ws && done <= |ws|
    ensures Replay(Replay(t, all[from..to]), ws[..done]) == Replay(t, all[from..to + done])
  {
    ReplayConcat(t, all[from..to], ws[..done]);
    assert all[from..to + done] == all[from..to] + ws[..done];
  }

  lemma OffsetZero(pages: seq<seq<IndexerEvent>>)
    ensures Offset(pages, 0) == 0
  {
  }

  /** One page: one batched upsert, then one write per `meta` event; `done` counts the row and URI writes made. */
  method ApplyPage(store: MemoryTokenStore, events: seq<IndexerEvent>, budget0: nat)
    returns (ok: bool, budget: nat, ghost done: nat)
    modifies store`tokens
    ensures done <= |PageWrites(events)|
    ensures store.tokens == Replay(old(store.tokens), PageWrites(events)[..done])
    ensures ok ==> done == |PageWrites(events)|
    ensures budget <= budget0 <= budget + |PageWrites(events)|
    ensures budget0 > |PageWrites(events)| ==> ok
  {
    budget, done := budget0, 0;
    var created := CollectCreated(events);
    ghost var puts, metas := RowWrites(created), MetaWrites(events, |events|);
    EmptyStretch(store.tokens, PageWrites(events), 0);
    if |created| > 0 {
      if budget == 0 { return false, budget, done; }
      budget := budget - 1;
      store.UpsertTokens(created);
      PutAllIsReplay(old(store.tokens), created, |created|);
    }
    ghost var metaDone;
    assert PageWrites(events)[..|puts|] == puts[..|created|] == puts;
    ok, budget, metaDone := SetMetas(store, events, budget);
    ReplayConcat(old(store.tokens), puts, metas[..metaDone]);
    done := |puts| + metaDone;
    assert PageWrites(events)[..done] == puts + metas[..metaDone];
  }

  /** The `meta` loop of a page. */
  method SetMetas(store: MemoryTokenStore, events: seq<IndexerEvent>, budget0: nat)
    returns (ok: bool, budget: nat, ghost done: nat)
    modifies store`tokens
    ensures done <= |MetaWrites(events, |events|)|
    ensures store.tokens == Replay(old(store.tokens), MetaWrites(events, |events|)[..done])
    ensures ok ==> done == |MetaWrites(events, |events|)|
    ensures budget <= budget0 <= budget + done
    ensures budget0 >= |MetaWrites(events, |events|)| ==> ok
  {
    budget, done := budget0, 0;
    ghost var metas := MetaWrites(events, |events|);
    assert metas[..0] == [];
    for i := 0 to |events|
      invariant done == |MetaWrites(events, i)| <= |metas|
      invariant MetaWrites(events, i) == metas[..done]
      invariant store.tokens == Replay(old(store.tokens), metas[..done])
      invariant budget <= budget0 <= budget + done
    {
      MetaPrefix(events, i + 1, |events|);
      if events[i].Meta? {
        if budget == 0 { return false, budget, done; }
        budget := budget - 1;
        store.SetMetadataUri(events[i].address, events[i].uri);
        assert metas[..done + 1][..done] == metas[..done];
        done := done + 1;
      }
    }
    ok := true;
  }

  lemma {:induction false} MetaPrefix(events: seq<IndexerEvent>, i: nat, n: nat)
    requires i <= n <= |events|
    ensures MetaWrites(events, i) <= MetaWrites(events, n)
  {
    if i < n { MetaPrefix(events, i, n - 1); }
  }

  method CollectCreated(events: seq<IndexerEvent>) returns (rows: seq<Row>)
    ensures rows == CreatedRows(events, |events|)
  {
    rows := [];
    for i := 0 to |events|
      invariant rows == CreatedRows(events, i)
    {
      if events[i].Created? { rows := rows + [events[i].token.(source := FromEvent)]; }
    }
  }

  /** The ordering condition is enough for every schedule of crashes to end alike. */
  lemma OrderedStreamIsSettled(start: Table, pages: seq<seq<IndexerEvent>>)
    requires MetaAfterCreated(start, pages)
    ensures Settled(start, Stream(pages, |pages|))
  {
    OrderedStreamIsGrounded(start, pages, |pages|);
    GroundedIsSettled(start, Stream(pages, |pages|));
  }

  /**
   * Earlier runs over this chain, begun on `start`, have brought the table to
   * `t` and left the cursor, having last stopped before write `done`.
   */
  ghost predicate InProgress(chain: ChainReader, start: Table, t: Table, cursor: Option<nat>, done: nat) {
    && PageAt(cursor) < |chain.pages|
    && Offset(chain.pages, PageAt(cursor)) <= done <= |Stream(chain.pages, |chain.pages|)|
    && ReplaySafe(start, Stream(chain.pages, |chain.pages|), t, done)
  }

  lemma FreshIsInProgress(chain: ChainReader, t: Table)
    requires |chain.pages| > 0
    ensures InProgress(chain, t, t, None, 0)
  {
    OffsetZero(chain.pages);
    InitiallySafe(t, Stream(chain.pages, |chain.pages|));
  }

  /**
   * A sequence of runs, each cut short wherever its budget ends, from any
   * cursor earlier runs left. Once one of them reaches the head of the stream,
   * the table is that of a single uninterrupted pass over it.
   */
  method RunsUnderCrashes(store: MemoryTokenStore, chain: ChainReader, budgets: seq<nat>, ghost start: Table,
                          ghost done0: nat)
    returns (atHead: bool, ghost done: nat)
    requires Settled(start, Stream(chain.pages, |chain.pages|))
    requires InProgress(chain, start, store.tokens, store.state.lastCursor, done0)
    modifies store
    ensures InProgress(chain, start, store.tokens, store.state.lastCursor, done)
    ensures atHead ==> store.tokens == Replay(start, Stream(chain.pages, |chain.pages|))
  {
    hide Replay, PageWrites, Settled, InProgress;
    atHead, done := false, done0;
    for i := 0 to |budgets|
      invariant InProgress(chain, start, store.tokens, store.state.lastCursor, done)
      invariant atHead ==> store.tokens == Replay(start, Stream(chain.pages, |chain.pages|))
    {
      var finished;
      finished, done := ResumedRun(store, chain, budgets[i], start, done);
      atHead := finished && store.state.lastCursor.None?;
    }
  }

  /** One run among many. */
  method ResumedRun(store: MemoryTokenStore, chain: ChainReader, budget: nat, ghost start: Table, ghost done0: nat)
    returns (finished: bool, ghost done: nat)
    requires Settled(start, Stream(chain.pages, |chain.pages|))
    requires InProgress(chain, start, store.tokens, store.state.lastCursor, done0)
    modifies store
    ensures InProgress(chain, start, store.tokens, store.state.lastCursor, done)
    ensures finished && store.state.lastCursor.None? ==>
      store.tokens == Replay(start, Stream(chain.pages, |chain.pages|))
    ensures finished ==> store.state.lastCursor == AfterUncutRun(chain, old(store.state).lastCursor)
    ensures budget > |Stream(chain.pages, |chain.pages|)| + 2 * MAX_EVENT_PAGES_PER_RUN ==> finished
  {
    hide Replay, PageWrites, Settled, Stream;
    ghost var all, t := Stream(chain.pages, |chain.pages|), store.tokens;
    ghost var from, to;
    var applied;
    applied, finished, from, to := RunSteadyState(store, chain, budget);
    RewindKeepsSafe(start, all, t, done0, from);
    SegmentKeepsSafe(start, all, t, from, to);
    AtTheEnd(start, all, store.tokens, to);
    done := to;
  }

  /** The runs it takes from a cursor to the head, 20 pages each. */
  function RunsToHead(chain: ChainReader, cursor: Option<nat>): int {
    (|chain.pages| - PageAt(cursor) + 19) / 20
  }

  /** Runs that are not cut short reach the head, after exactly as many as the pages left take. */
  method RunToHead(store: MemoryTokenStore, chain: ChainReader, budget: nat, ghost start: Table, ghost done0: nat)
    returns (runs: nat)
    requires Settled(start, Stream(chain.pages, |chain.pages|))
    requires InProgress(chain, start, store.tokens, store.state.lastCursor, done0)
    requires budget > |Stream(chain.pages, |chain.pages|)| + 2 * MAX_EVENT_PAGES_PER_RUN
    modifies store
    ensures runs == RunsToHead(chain, old(store.state).lastCursor)
    ensures store.tokens == Replay(start, Stream(chain.pages, |chain.pages|)) && store.state.lastCursor.None?
  {
    hide Replay, Settled, Stream, ReplaySafe;
    runs := 0;
    ghost var at, done := PageAt(store.state.lastCursor), done0;
    var finished := false;
    while !finished
      invariant InProgress(chain, start, store.tokens, store.state.lastCursor, done)
      invariant !finished ==> PageAt(store.state.lastCursor) == at + 20 * runs < |chain.pages|
      invariant finished ==> 0 < runs && at + 20 * (runs - 1) < |chain.pages| <= at + 20 * runs
      invariant finished ==>
        store.state.lastCursor.None? && store.tokens == Replay(start, Stream(chain.pages, |chain.pages|))
      decreases !finished, |chain.pages| - PageAt(store.state.lastCursor)
    {
      var ok;
      ok, done := ResumedRun(store, chain, budget, start, done);
      runs := runs + 1;
      finished := store.state.lastCursor.None?;
    }
  }

  lemma AtTheEnd(start: Table, stream: seq<Write>, t: Table, c: nat)
    requires c <= |stream| && ReplaySafe(start, stream, t, c)
    ensures c == |stream| ==> t == Replay(start, stream)
  {
    if c == |stream| {
      assert stream[c..] == [];
      assert Replay(t, stream[c..]) == t;
    }
  }
}
