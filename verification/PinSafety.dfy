/**
 * From events to deletions: a CID that is the latest metadata of a token in the
 * event stream survives reconciliation once ingest has reached the head,
 * however its runs failed, with back-fill between them, and even while ingest
 * goes on between the pages of the walk.
 */
module PinSafety {
  import opened Common
  import opened IndexerStore
  import opened IndexerReplay
  import opened Ingest
  import opened IngestEvents
  import opened IngestConvergence
  import opened Reconciliation

  /**
   * Resuming at write `c0` with table `start`, the last URI of `a` finds a row:
   * it is still to come, and `a` has a row or gets one by then; or it was written
   * before, and the row carries it.
   */
  ghost predicate Recorded(stream: seq<Write>, c0: nat, start: Table, a: string)
    requires c0 <= |stream|
  {
    var last := UriAt(stream, a);
    0 <= last < |stream| &&
    if last < c0 then a in start && start[a].metadataUri == LastUri(stream, a)
    else a in start || Puts(stream[c0..last + 1], a)
  }

  // ---- What runs keep about it ----

  /** About `a`, once runs that began at write `c0` on `start` have last stopped before write `c`. */
  ghost predicate Tracked(stream: seq<Write>, c0: nat, start: Table, t: Table, c: nat, a: string)
    requires c <= |stream|
  {
    && (a in start ==> a in t)
    && (c0 <= c && Puts(stream[c0..c], a) ==> a in t)
    && (UriAt(stream, a) < c ==> a in t && t[a].metadataUri == LastUri(stream, a))
  }

  lemma InitiallyTracked(stream: seq<Write>, c0: nat, start: Table, a: string)
    requires c0 <= |stream| && Recorded(stream, c0, start, a)
    ensures Tracked(stream, c0, start, start, c0, a)
  {
    assert stream[c0..c0] == [];
  }

  lemma PutsPrefix(ws: seq<Write>, n: nat, a: string)
    requires n <= |ws| && Puts(ws[..n], a)
    ensures Puts(ws, a)
  {
    var i :| 0 <= i < n && ws[..n][i].PutRow? && ws[..n][i].row.address == a;
    assert ws[i].PutRow?;
  }

  lemma RewindKeepsTracked(stream: seq<Write>, c0: nat, start: Table, t: Table, c: nat, j: nat, a: string)
    requires j <= c <= |stream| && Tracked(stream, c0, start, t, c, a)
    ensures Tracked(stream, c0, start, t, j, a)
  {
    if c0 <= j && Puts(stream[c0..j], a) {
      assert stream[c0..c][..j - c0] == stream[c0..j];
      PutsPrefix(stream[c0..c], j - c0, a);
    }
  }

  lemma EnrichingKeepsTracked(stream: seq<Write>, c0: nat, start: Table, t: Table, t': Table, c: nat, a: string)
    requires c <= |stream| && Tracked(stream, c0, start, t, c, a) && Enriched(t, t')
    ensures Tracked(stream, c0, start, t', c, a)
  {
  }

  lemma WriteKeepsTracked(stream: seq<Write>, c0: nat, start: Table, t: Table, c: nat, a: string)
    requires c0 <= |stream| && c < |stream|
    requires Recorded(stream, c0, start, a) && Tracked(stream, c0, start, t, c, a)
    ensures Tracked(stream, c0, start, ApplyWrite(t, stream[c]), c + 1, a)
  {
    UriAtFacts(stream, a);
    if c0 <= c {
      PutsLast(stream[c0..c + 1], a);
      assert stream[c0..c + 1][..c - c0] == stream[c0..c];
    }
    hide Puts, LastUri, UriAt;
  }

  lemma {:induction false} SegmentKeepsTracked(stream: seq<Write>, c0: nat, start: Table, t: Table, from: nat,
                                               to: nat, a: string)
    requires c0 <= |stream| && from <= to <= |stream|
    requires Recorded(stream, c0, start, a) && Tracked(stream, c0, start, t, from, a)
    ensures Tracked(stream, c0, start, Replay(t, stream[from..to]), to, a)
  {
    hide Tracked, Recorded, ApplyWrite;
    if from < to {
      SegmentKeepsTracked(stream, c0, start, t, from, to - 1, a);
      assert stream[from..to][..to - from - 1] == stream[from..to - 1];
      WriteKeepsTracked(stream, c0, start, Replay(t, stream[from..to - 1]), to - 1, a);
    } else {
      assert stream[from..to] == [];
    }
  }

  ghost predicate AllTracked(stream: seq<Write>, c0: nat, start: Table, t: Table, c: nat)
    requires c0 <= |stream| && c <= |stream|
  {
    forall a :: Recorded(stream, c0, start, a) ==> Tracked(stream, c0, start, t, c, a)
  }

  /** A whole run, with its back-fill and reconciliation, keeps every token tracked. */
  lemma RunKeepsTracked(
    chain: ChainReader, stream: seq<Write>, c0: nat, start: Table, t: Table, cursor: Option<nat>, c: nat,
    mid: Table, from: nat, to: nat, t': Table, cursor': Option<nat>)
    requires stream == Stream(chain.pages, |chain.pages|) && c0 <= |stream| && from <= c <= |stream|
    requires AllTracked(stream, c0, start, t, c) && RanEvents(chain, t, cursor, mid, from, to, t', cursor')
    ensures to <= |stream| && AllTracked(stream, c0, start, t', to)
  {
    hide Stream, Recorded, Tracked, Enriched, Replay;
    forall a | Recorded(stream, c0, start, a) ensures Tracked(stream, c0, start, t', to, a) {
      RewindKeepsTracked(stream, c0, start, t, c, from, a);
      EnrichingKeepsTracked(stream, c0, start, t, mid, from, a);
      SegmentKeepsTracked(stream, c0, start, mid, from, to, a);
      EnrichingKeepsTracked(stream, c0, start, Replay(mid, stream[from..to]), t', to, a);
    }
  }

  // ---- Pages of the walk, while ingest goes on ----

  lemma AlignedIsDistinct(chain: ChainReader, t: Table)
    requires Faithful(chain) && Aligned(chain, t)
    ensures Distinct(t)
  {
    forall a, b | a in t && b in t && a != b ensures t[a].tokenIndex != t[b].tokenIndex {
      assert FaithfulRow(chain, t[a]) && FaithfulRow(chain, t[b]);
    }
  }

  lemma PageOfWalk(chain: ChainReader, t: Table, ws: seq<Write>)
    requires Faithful(chain) && Aligned(chain, t) && FaithfulWrites(chain, ws)
    ensures Distinct(Replay(t, ws)) && Aligned(chain, Replay(t, ws))
  {
    hide Faithful, Aligned, Distinct, FaithfulWrites;
    AlignedReplay(chain, t, ws);
    AlignedIsDistinct(chain, Replay(t, ws));
  }

  /** Writes that bring no URI for a token leave the one it has. */
  lemma UriSurvives(t: Table, ws: seq<Write>, a: string)
    requires a in t && LastUri(ws, a).None?
    ensures a in Replay(t, ws) && Replay(t, ws)[a].metadataUri == t[a].metadataUri
  {
    ReplayClosedForm(t, ws, a);
    hide Replay, Puts;
  }

  /** A row keeps referring to a CID while nothing brings its token another URI. */
  lemma StillRefers(chain: ChainReader, t: Table, ws: seq<Write>, a: string, cid: string)
    requires Faithful(chain) && Aligned(chain, t) && FaithfulWrites(chain, ws)
    requires a in t && t[a].metadataUri == Some(IPFS + cid) && LastUri(ws, a).None?
    ensures RefersTo(Replay(t, ws), t[a].tokenIndex, cid)
  {
    UriSurvives(t, ws, a);
    PageOfWalk(chain, t, ws);
    hide Replay, FaithfulWrites, LastUri;
    assert Aligned(chain, Replay(t, ws));
    SameIndex(chain, t, Replay(t, ws)[a]);
  }

  // ---- Ingest, then reconcile ----

  /**
   * Event `(p, i)` brings `a` the URI `u`, and no later event brings it another.
   * Ingest resumes from page `from` on table `start`: it has a row for `a` by
   * that event, or, when the event is behind it, already carries its URI.
   */
  ghost predicate LatestAt(pages: seq<seq<IndexerEvent>>, from: nat, start: Table, p: nat, i: nat, a: string,
                           u: string) {
    && LastToBring(pages, p, i, a) && Brought(pages[p][i], a) == Some(u)
    && if p < from then a in start && start[a].metadataUri == Some(u) else HasRowBy(pages, from, start, p, a)
  }

  ghost predicate LatestUri(pages: seq<seq<IndexerEvent>>, from: nat, start: Table, a: string, u: string) {
    exists p: nat, i: nat :: LatestAt(pages, from, start, p, i, a, u)
  }

  /** No event of these pages brings `a` a URI. */
  ghost predicate BringNone(pages: seq<seq<IndexerEvent>>, a: string) {
    forall p :: 0 <= p < |pages| ==> PageBringsNone(pages[p], a)
  }

  /**
   * The latest URI that events bring `a` is `ipfs://<cid>`, and the events that arrive during the walk
   * bring no other.
   */
  ghost predicate LatestMetadata(pages: seq<seq<IndexerEvent>>, from: nat, start: Table,
                                 later: nat -> seq<seq<IndexerEvent>>, a: string, cid: string) {
    && LatestUri(pages, from, start, a, "ipfs://" + cid) && cid != "" && SingleLine(cid)
    && forall j :: BringNone(later(j), a)
  }

  /** What events say is what the stream's writes record. */
  lemma LatestIsRecorded(pages: seq<seq<IndexerEvent>>, from: nat, start: Table, a: string, u: string)
    requires from <= |pages| && LatestUri(pages, from, start, a, u)
    ensures Offset(pages, from) <= |Stream(pages, |pages|)|
    ensures Recorded(Stream(pages, |pages|), Offset(pages, from), start, a)
    ensures LastUri(Stream(pages, |pages|), a) == Some(u)
  {
    hide Stream, UriAt, LastUri, WriteAt, Puts, LastToBring, Brought, WriteOf;
    var p: nat, i: nat :| LatestAt(pages, from, start, p, i, a, u);
    LastIsBrought(pages, p, i, a);
    StreamPrefix(pages, from, |pages|);
    LastUriOfEvents(pages, p, i, a);
    StreamUriAt(pages, |pages|, p, i, a);
    StreamUriAt(pages, p + 1, p, i, a);
    if p < from {
      StreamPrefix(pages, p + 1, from);
    } else {
      StreamPrefix(pages, from, p);
      if a !in start {
        var q, j :| from <= q <= p && 0 <= j < |pages[q]| && Creates(pages[q][j], a);
        RowBeforeUri(pages, from, q, j, p, i, a);
      }
    }
  }

  /** The writes that the events of `pages` make. */
  function WritesOf(pages: seq<seq<IndexerEvent>>): seq<Write> { Stream(pages, |pages|) }

  /**
   * Run ingest any number of times, failing anywhere, from any cursor; if the
   * last run got through to the head, reconcile while further events
   * (`later(j)` by page `j`) arrive. Every row then carries the latest URI that
   * events brought its token, and no CID that is the latest metadata of a token,
   * and stays so during the walk, is deleted.
   */
  method IngestThenReconcile(
    store: MemoryTokenStore, chain: ChainReader, runs: seq<Faults>, later: nat -> seq<seq<IndexerEvent>>,
    o: Options, throws: nat -> bool, listing: Outcome<seq<Pin>>, now: int, replies: nat -> UnpinReply)
    returns (atHead: bool, deleted: seq<string>)
    requires Faithful(chain) && BareRows(chain) && Aligned(chain, store.tokens)
    requires PageAt(store.state.lastCursor) < |chain.pages|
    requires forall j :: FaithfulWrites(chain, WritesOf(later(j)))
    modifies store
    ensures !atHead ==> deleted == []
    ensures var from, start := PageAt(old(store.state).lastCursor), old(store.tokens);
      && (atHead ==> forall a, u :: LatestUri(chain.pages, from, start, a, u) ==>
            a in store.tokens && store.tokens[a].metadataUri == Some(u))
      && (forall a, cid :: LatestMetadata(chain.pages, from, start, later, a, cid) ==> cid !in deleted)
  {
    hide Faithful, Aligned, BareRows, Replay, Stream, FaithfulWrites, LastUri, Distinct, Progress, AllTracked,
      LatestUri, BringNone;
    ghost var start, stream := store.tokens, Stream(chain.pages, |chain.pages|);
    ghost var first := PageAt(store.state.lastCursor);
    ghost var c0 := Offset(chain.pages, first);
    StreamPrefix(chain.pages, first, |chain.pages|);
    StartsTracked(stream, c0, start);
    ghost var c := c0;
    atHead, deleted := false, [];
    for i := 0 to |runs|
      invariant PageAt(store.state.lastCursor) < |chain.pages| && Aligned(chain, store.tokens)
      invariant Offset(chain.pages, PageAt(store.state.lastCursor)) <= c <= |stream|
      invariant AllTracked(stream, c0, start, store.tokens, c)
      invariant atHead ==> c == |stream|
    {
      ghost var t, cursor := store.tokens, store.state.lastCursor;
      var ok, complete, mid, from, to := RunIngest(store, chain, runs[i]);
      StaysAligned(chain, t, store.tokens);
      RunKeepsTracked(chain, stream, c0, start, t, cursor, c, mid, from, to, store.tokens, store.state.lastCursor);
      c := to;
      atHead := ok && store.state.lastCursor.None?;
    }
    if !atHead { return; }
    var t := store.tokens;
    var snap := (j: nat) => Replay(t, WritesOf(later(j)));
    forall j ensures Distinct(snap(j)) { PageOfWalk(chain, t, WritesOf(later(j))); }
    var summary;
    summary, deleted := ReconcilePins(o, snap, throws, listing, now, replies);
    forall a, u | LatestUri(chain.pages, first, start, a, u) ensures a in t && t[a].metadataUri == Some(u) {
      LatestIsRecorded(chain.pages, first, start, a, u);
      AtHeadCarries(stream, c0, start, t, a);
    }
    forall a, cid | LatestMetadata(chain.pages, first, start, later, a, cid) ensures cid !in deleted {
      assert a in t && t[a].metadataUri == Some("ipfs://" + cid);
      forall j: nat ensures RefersTo(snap(j), t[a].tokenIndex, cid) {
        QuietLater(later(j), a);
        StillRefers(chain, t, WritesOf(later(j)), a, cid);
      }
      assert ReferencedThroughout(snap, t[a].tokenIndex, cid);
    }
  }

  lemma QuietLater(pages: seq<seq<IndexerEvent>>, a: string)
    requires BringNone(pages, a)
    ensures LastUri(WritesOf(pages), a).None?
  {
    hide Stream, UriAt, LastUri, PageBringsNone;
    SilentStream(pages, |pages|, a);
  }

  lemma StaysAligned(chain: ChainReader, t: Table, t': Table)
    requires Progress(chain, t, t')
    ensures Aligned(chain, t')
  {
  }

  lemma StartsTracked(stream: seq<Write>, c0: nat, start: Table)
    requires c0 <= |stream|
    ensures AllTracked(stream, c0, start, start, c0)
  {
    forall a | Recorded(stream, c0, start, a) ensures Tracked(stream, c0, start, start, c0, a) {
      InitiallyTracked(stream, c0, start, a);
    }
  }

  lemma AtHeadCarries(stream: seq<Write>, c0: nat, start: Table, t: Table, a: string)
    requires c0 <= |stream| && AllTracked(stream, c0, start, t, |stream|) && Recorded(stream, c0, start, a)
    ensures a in t && t[a].metadataUri == LastUri(stream, a)
  {
    assert Tracked(stream, c0, start, t, |stream|, a);
  }
}
