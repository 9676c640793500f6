/**
 * What the event stream itself says about a token: the row of its last
 * `created` event, and the URI of the last event that brings it one, are what
 * ingest writes last about it.
 */
module IngestEvents {
  import opened Common
  import opened IndexerStore
  import opened IndexerReplay
  import opened Ingest

  // ---- Where a token's latest URI is written ----

  /** The position of the last write that brings `a` a URI, or -1. */
  function UriAt(ws: seq<Write>, a: string): int {
    if ws == [] then -1
    else if CarriesUri(ws[|ws| - 1], a) then |ws| - 1
    else UriAt(ws[..|ws| - 1], a)
  }

  function UriOf(w: Write): Option<string> { if w.SetMeta? then Some(w.uri) else w.row.metadataUri }

  lemma {:induction false} UriAtFacts(ws: seq<Write>, a: string)
    ensures -1 <= UriAt(ws, a) < |ws| && (UriAt(ws, a) == -1 <==> LastUri(ws, a).None?)
    ensures UriAt(ws, a) >= 0 ==> CarriesUri(ws[UriAt(ws, a)], a) && LastUri(ws, a) == UriOf(ws[UriAt(ws, a)])
    ensures forall i :: UriAt(ws, a) < i < |ws| ==> !CarriesUri(ws[i], a)
  {
    if ws != [] {
      var n := |ws| - 1;
      UriAtFacts(ws[..n], a);
      forall i | UriAt(ws, a) < i < |ws| ensures !CarriesUri(ws[i], a) {
        if i < n { assert ws[..n][i] == ws[i]; }
      }
    }
  }

  lemma {:induction false} UriAtConcat(x: seq<Write>, y: seq<Write>, a: string)
    ensures UriAt(x + y, a) == if UriAt(y, a) >= 0 then |x| + UriAt(y, a) else UriAt(x, a)
  {
    if y == [] {
      assert x + y == x;
    } else {
      UriAtConcat(x, y[..|y| - 1], a);
      assert (x + y)[..|x + y| - 1] == x + y[..|y| - 1];
    }
  }

  lemma UriAtOne(w: Write, a: string)
    ensures UriAt([w], a) == if CarriesUri(w, a) then 0 else -1
  {
    assert [w][..0] == [];
  }

  lemma {:induction false} LastRowConcat(x: seq<Write>, y: seq<Write>, a: string)
    ensures LastRow(x + y, a) == if LastRow(y, a).Some? then LastRow(y, a) else LastRow(x, a)
  {
    if y == [] {
      assert x + y == x;
    } else {
      LastRowConcat(x, y[..|y| - 1], a);
      assert (x + y)[..|x + y| - 1] == x + y[..|y| - 1];
    }
  }

  // ---- The events about a token ----

  /** The URI an event brings `a`: that of its `meta` event, or the one its `created` event already carries. */
  function Brought(e: IndexerEvent, a: string): Option<string> {
    match e
    case Meta(b, uri) => if a == b then Some(uri) else None
    case Created(token) => if token.address == a then token.metadataUri else None
    case Other => None
  }

  predicate Creates(e: IndexerEvent, a: string) { e.Created? && e.token.address == a }

  /** Event `(q, j)` takes effect after `(p, i)`: in a later page, or in the same one, where rows precede URIs. */
  predicate TakesEffectAfter(pages: seq<seq<IndexerEvent>>, q: nat, j: nat, p: nat, i: nat)
    requires p < |pages| && i < |pages[p]| && q < |pages| && j < |pages[q]|
  {
    || p < q
    || (p == q && pages[q][j].Meta? && (i < j || !pages[p][i].Meta?))
    || (p == q && !pages[q][j].Meta? && i < j && !pages[p][i].Meta?)
  }

  /** Event `(p, i)` brings `a` a URI, and no event that takes effect after it does. */
  ghost predicate LastToBring(pages: seq<seq<IndexerEvent>>, p: nat, i: nat, a: string) {
    && p < |pages| && i < |pages[p]| && Brought(pages[p][i], a).Some?
    && forall q, j :: 0 <= q < |pages| && 0 <= j < |pages[q]| && Brought(pages[q][j], a).Some? ==>
         !TakesEffectAfter(pages, q, j, p, i)
  }

  /** Event `(p, i)` is the last that creates `a`. */
  ghost predicate LastToCreate(pages: seq<seq<IndexerEvent>>, p: nat, i: nat, a: string) {
    && p < |pages| && i < |pages[p]| && Creates(pages[p][i], a)
    && forall q, j :: 0 <= q < |pages| && 0 <= j < |pages[q]| && Creates(pages[q][j], a) ==> q < p || (q == p && j <= i)
  }

  /** Where in its page's writes the write of event `i` is. */
  function WriteAt(events: seq<IndexerEvent>, i: nat): nat
    requires i < |events|
  {
    if events[i].Created? then |CreatedRows(events, i)|
    else |CreatedRows(events, |events|)| + |MetaWrites(events, i)|
  }

  // ---- Within a page ----

  lemma RowWritesLast(rows: seq<Row>, row: Row)
    ensures RowWrites(rows + [row]) == RowWrites(rows) + [PutRow(row)]
  {
  }

  /** No `created` event among the first `n` from index `from` on brings `a` a URI. */
  predicate NoRowUri(events: seq<IndexerEvent>, from: nat, n: nat, a: string)
    requires n <= |events|
  {
    forall j :: from <= j < n && events[j].Created? ==> Brought(events[j], a).None?
  }

  predicate NoMetaUri(events: seq<IndexerEvent>, from: nat, n: nat, a: string)
    requires n <= |events|
  {
    forall j :: from <= j < n && events[j].Meta? ==> Brought(events[j], a).None?
  }

  lemma {:induction false} NoRowNoUri(events: seq<IndexerEvent>, n: nat, a: string)
    requires n <= |events| && NoRowUri(events, 0, n, a)
    ensures UriAt(RowWrites(CreatedRows(events, n)), a) == -1
  {
    hide UriAt, RowWrites;
    if n == 0 {
      NoWrites(a);
    } else {
      NoRowNoUri(events, n - 1, a);
      RowStep(events, n, a);
    }
  }

  lemma NoWrites(a: string)
    ensures UriAt(RowWrites([]), a) == UriAt([], a) == -1
  {
  }

  /** One more event among the rows of a page. */
  lemma RowStep(events: seq<IndexerEvent>, n: nat, a: string)
    requires 0 < n <= |events|
    ensures var before, e := RowWrites(CreatedRows(events, n - 1)), events[n - 1];
      && RowWrites(CreatedRows(events, n)) ==
           before + (if e.Created? then [PutRow(e.token.(source := FromEvent))] else [])
      && UriAt(RowWrites(CreatedRows(events, n)), a) ==
           if e.Created? && Brought(e, a).Some? then |before| else UriAt(before, a)
  {
    hide UriAt, RowWrites;
    var before, e := RowWrites(CreatedRows(events, n - 1)), events[n - 1];
    if e.Created? {
      var row := e.token.(source := FromEvent);
      RowWritesLast(CreatedRows(events, n - 1), row);
      UriAtConcat(before, [PutRow(row)], a);
      UriAtOne(PutRow(row), a);
    } else {
      assert CreatedRows(events, n) == CreatedRows(events, n - 1);
    }
  }

  lemma {:induction false} RowUriAt(events: seq<IndexerEvent>, n: nat, i: nat, a: string)
    requires i < n <= |events| && events[i].Created? && Brought(events[i], a).Some? && NoRowUri(events, i + 1, n, a)
    ensures var ws := RowWrites(CreatedRows(events, n));
      && UriAt(ws, a) == |CreatedRows(events, i)| < |ws|
      && ws[|CreatedRows(events, i)|] == PutRow(events[i].token.(source := FromEvent))
  {
    hide UriAt, RowWrites, Brought;
    RowStep(events, n, a);
    if i < n - 1 { RowUriAt(events, n - 1, i, a); }
  }

  lemma MetaStep(events: seq<IndexerEvent>, n: nat, a: string)
    requires 0 < n <= |events|
    ensures var before, e := MetaWrites(events, n - 1), events[n - 1];
      && MetaWrites(events, n) == before + (if e.Meta? then [SetMeta(e.address, e.uri)] else [])
      && UriAt(MetaWrites(events, n), a) == if e.Meta? && Brought(e, a).Some? then |before| else UriAt(before, a)
  {
    hide UriAt;
    var before, e := MetaWrites(events, n - 1), events[n - 1];
    if e.Meta? {
      UriAtConcat(before, [SetMeta(e.address, e.uri)], a);
      UriAtOne(SetMeta(e.address, e.uri), a);
    } else {
      assert MetaWrites(events, n) == before;
    }
  }

  lemma {:induction false} NoMetaNoUri(events: seq<IndexerEvent>, n: nat, a: string)
    requires n <= |events| && NoMetaUri(events, 0, n, a)
    ensures UriAt(MetaWrites(events, n), a) == -1
  {
    hide UriAt;
    if n == 0 {
      NoWrites(a);
    } else {
      NoMetaNoUri(events, n - 1, a);
      MetaStep(events, n, a);
    }
  }

  lemma {:induction false} MetaUriAt(events: seq<IndexerEvent>, n: nat, i: nat, a: string)
    requires i < n <= |events| && events[i].Meta? && Brought(events[i], a).Some? && NoMetaUri(events, i + 1, n, a)
    ensures var ws := MetaWrites(events, n);
      && UriAt(ws, a) == |MetaWrites(events, i)| < |ws|
      && ws[|MetaWrites(events, i)|] == SetMeta(events[i].address, events[i].uri)
  {
    hide UriAt, Brought;
    MetaStep(events, n, a);
    if i < n - 1 { MetaUriAt(events, n - 1, i, a); }
  }

  /** The write that an event makes. */
  function WriteOf(e: IndexerEvent): Write
    requires !e.Other?
  {
    if e.Created? then PutRow(e.token.(source := FromEvent)) else SetMeta(e.address, e.uri)
  }

  /** In a page, the last event to bring `a` a URI makes the last write that does. */
  lemma PageUriAt(events: seq<IndexerEvent>, i: nat, a: string)
    requires i < |events| && Brought(events[i], a).Some?
    requires NoMetaUri(events, if events[i].Meta? then i + 1 else 0, |events|, a)
    requires events[i].Created? ==> NoRowUri(events, i + 1, |events|, a)
    ensures var ws := PageWrites(events);
      UriAt(ws, a) == WriteAt(events, i) < |ws| && ws[WriteAt(events, i)] == WriteOf(events[i])
  {
    hide UriAt, RowWrites, CreatedRows, MetaWrites;
    var rows, metas := RowWrites(CreatedRows(events, |events|)), MetaWrites(events, |events|);
    UriAtConcat(rows, metas, a);
    if events[i].Meta? {
      MetaUriAt(events, |events|, i, a);
    } else {
      NoMetaNoUri(events, |events|, a);
      RowUriAt(events, |events|, i, a);
    }
  }

  predicate PageBringsNone(events: seq<IndexerEvent>, a: string) {
    forall j :: 0 <= j < |events| ==> Brought(events[j], a).None?
  }

  lemma PageWithoutUri(events: seq<IndexerEvent>, a: string)
    requires PageBringsNone(events, a)
    ensures UriAt(PageWrites(events), a) == -1
  {
    hide UriAt, RowWrites, CreatedRows, MetaWrites, Brought;
    UriAtConcat(RowWrites(CreatedRows(events, |events|)), MetaWrites(events, |events|), a);
    NoMetaNoUri(events, |events|, a);
    NoRowNoUri(events, |events|, a);
  }

  // ---- Over the stream ----

  /** No event brings `a` a URI, so no write does. */
  lemma {:induction false} SilentStream(pages: seq<seq<IndexerEvent>>, n: nat, a: string)
    requires n <= |pages| && forall p :: 0 <= p < n ==> PageBringsNone(pages[p], a)
    ensures UriAt(Stream(pages, n), a) == -1 && LastUri(Stream(pages, n), a).None?
  {
    hide UriAt, PageWrites, PageBringsNone;
    UriAtFacts(Stream(pages, n), a);
    if n == 0 {
      NoWrites(a);
    } else {
      SilentStream(pages, n - 1, a);
      PageWithoutUri(pages[n - 1], a);
      UriAtConcat(Stream(pages, n - 1), PageWrites(pages[n - 1]), a);
    }
  }

  lemma LastInPage(pages: seq<seq<IndexerEvent>>, p: nat, i: nat, a: string)
    requires LastToBring(pages, p, i, a)
    ensures p < |pages| && i < |pages[p]| && Brought(pages[p][i], a).Some?
    ensures NoMetaUri(pages[p], if pages[p][i].Meta? then i + 1 else 0, |pages[p]|, a)
    ensures pages[p][i].Created? ==> NoRowUri(pages[p], i + 1, |pages[p]|, a)
    ensures forall q :: p < q < |pages| ==> PageBringsNone(pages[q], a)
  {
    hide Brought;
  }

  /** Of all writes of the stream, the last to bring `a` a URI is that of the last event to bring it one. */
  lemma {:induction false} StreamUriAt(pages: seq<seq<IndexerEvent>>, n: nat, p: nat, i: nat, a: string)
    requires p < n <= |pages| && LastToBring(pages, p, i, a)
    ensures var ws, at := Stream(pages, n), Offset(pages, p) + WriteAt(pages[p], i);
      UriAt(ws, a) == at < |ws| && ws[at] == WriteOf(pages[p][i])
  {
    hide UriAt, PageWrites, PageBringsNone, NoMetaUri, NoRowUri, LastToBring, WriteAt, WriteOf;
    LastInPage(pages, p, i, a);
    UriAtConcat(Stream(pages, n - 1), PageWrites(pages[n - 1]), a);
    if n == p + 1 {
      PageUriAt(pages[p], i, a);
    } else {
      StreamUriAt(pages, n - 1, p, i, a);
      PageWithoutUri(pages[n - 1], a);
    }
  }

  /** The stream's last URI for `a` is the one its last event to bring one brings. */
  lemma LastUriOfEvents(pages: seq<seq<IndexerEvent>>, p: nat, i: nat, a: string)
    requires LastToBring(pages, p, i, a)
    ensures LastUri(Stream(pages, |pages|), a) == Brought(pages[p][i], a)
  {
    hide Stream, UriAt, LastUri, WriteAt;
    StreamUriAt(pages, |pages|, p, i, a);
    UriAtFacts(Stream(pages, |pages|), a);
  }

  // ---- Rows ----

  lemma {:induction false} MetasPutNothing(events: seq<IndexerEvent>, n: nat, a: string)
    requires n <= |events|
    ensures LastRow(MetaWrites(events, n), a).None?
  {
    hide LastRow;
    LastRowOne(SetMeta("", ""), a);
    if n > 0 {
      MetasPutNothing(events, n - 1, a);
      MetaStep(events, n, a);
      var e := events[n - 1];
      if e.Meta? {
        LastRowConcat(MetaWrites(events, n - 1), [SetMeta(e.address, e.uri)], a);
        LastRowOne(SetMeta(e.address, e.uri), a);
      } else {
        assert MetaWrites(events, n - 1) + [] == MetaWrites(events, n - 1);
      }
    }
  }

  lemma LastRowOne(w: Write, a: string)
    ensures LastRow([w], a) == if w.PutRow? && w.row.address == a then Some(w.row) else None
    ensures LastRow([], a) == None
  {
    assert [w][..0] == [];
  }

  lemma RowOfStep(events: seq<IndexerEvent>, n: nat, a: string)
    requires 0 < n <= |events|
    ensures LastRow(RowWrites(CreatedRows(events, n)), a) ==
      if Creates(events[n - 1], a) then Some(events[n - 1].token.(source := FromEvent))
      else LastRow(RowWrites(CreatedRows(events, n - 1)), a)
  {
    hide LastRow, RowWrites, CreatedRows, Brought, UriAt;
    RowStep(events, n, a);
    var before := RowWrites(CreatedRows(events, n - 1));
    if events[n - 1].Created? {
      var w := PutRow(events[n - 1].token.(source := FromEvent));
      LastRowConcat(before, [w], a);
      LastRowOne(w, a);
    } else {
      assert before + [] == before;
    }
  }

  lemma {:induction false} NoRowOfPage(events: seq<IndexerEvent>, n: nat, a: string)
    requires n <= |events| && forall j :: 0 <= j < n ==> !Creates(events[j], a)
    ensures LastRow(RowWrites(CreatedRows(events, n)), a).None?
  {
    hide LastRow, RowWrites, Creates;
    if n == 0 {
      EmptyRows(a);
    } else {
      NoRowOfPage(events, n - 1, a);
      RowOfStep(events, n, a);
    }
  }

  lemma {:induction false} RowOfPage(events: seq<IndexerEvent>, n: nat, i: nat, a: string)
    requires i < n <= |events| && Creates(events[i], a) && forall j :: i < j < n ==> !Creates(events[j], a)
    ensures LastRow(RowWrites(CreatedRows(events, n)), a) == Some(events[i].token.(source := FromEvent))
  {
    hide LastRow, RowWrites, CreatedRows;
    RowOfStep(events, n, a);
    if i < n - 1 { RowOfPage(events, n - 1, i, a); }
  }

  lemma EmptyRows(a: string)
    ensures LastRow(RowWrites([]), a) == LastRow([], a) == None
  {
  }

  lemma PageRow(events: seq<IndexerEvent>, a: string)
    ensures LastRow(PageWrites(events), a) == LastRow(RowWrites(CreatedRows(events, |events|)), a)
  {
    hide LastRow, RowWrites, CreatedRows, MetaWrites;
    LastRowConcat(RowWrites(CreatedRows(events, |events|)), MetaWrites(events, |events|), a);
    MetasPutNothing(events, |events|, a);
  }

  /** The stream's last row for `a` is that of its last `created` event, marked as coming from an event. */
  lemma {:induction false} LastRowOfEvents(pages: seq<seq<IndexerEvent>>, n: nat, p: nat, i: nat, a: string)
    requires p < n <= |pages| && LastToCreate(pages, p, i, a)
    ensures LastRow(Stream(pages, n), a) == Some(pages[p][i].token.(source := FromEvent))
  {
    hide LastRow, PageWrites, RowWrites, CreatedRows;
    var events := pages[n - 1];
    LastRowConcat(Stream(pages, n - 1), PageWrites(events), a);
    PageRow(events, a);
    if n == p + 1 {
      RowOfPage(events, |events|, i, a);
    } else {
      NoRowOfPage(events, |events|, a);
      LastRowOfEvents(pages, n - 1, p, i, a);
    }
  }

  // ---- The table at the head ----

  /** `a` has a row when event `(p, i)` takes effect, counting `created` events from page `from` on. */
  ghost predicate HasRowBy(pages: seq<seq<IndexerEvent>>, from: nat, start: Table, p: nat, a: string)
    requires p < |pages|
  {
    a in start || exists q, j :: from <= q <= p && 0 <= j < |pages[q]| && Creates(pages[q][j], a)
  }

  lemma PutsInPage(events: seq<IndexerEvent>, j: nat, a: string)
    requires j < |events| && Creates(events[j], a)
    ensures Puts(PageWrites(events), a) && Puts(RowWrites(CreatedRows(events, |events|)), a)
  {
    hide Puts, RowWrites, CreatedRows, MetaWrites;
    CreatedRowIsPut(events, j);
    PutsEither(RowWrites(CreatedRows(events, |events|)), MetaWrites(events, |events|), a);
  }

  /** A row created by page `p`'s URIs or before is among the writes up to that of event `(p, i)`. */
  lemma RowBeforeUri(pages: seq<seq<IndexerEvent>>, from: nat, q: nat, j: nat, p: nat, i: nat, a: string)
    requires from <= q <= p < |pages| && j < |pages[q]| && Creates(pages[q][j], a) && LastToBring(pages, p, i, a)
    ensures Offset(pages, from) <= Offset(pages, p) + WriteAt(pages[p], i) < |Stream(pages, |pages|)|
    ensures Puts(Stream(pages, |pages|)[Offset(pages, from)..Offset(pages, p) + WriteAt(pages[p], i) + 1], a)
  {
    hide Puts, RowWrites, CreatedRows, MetaWrites, LastToBring, UriAt, WriteOf, Stream;
    LastIsBrought(pages, p, i, a);
    var all, at := Stream(pages, |pages|), Offset(pages, p) + WriteAt(pages[p], i);
    StreamUriAt(pages, |pages|, p, i, a);
    StreamPrefix(pages, from, p);
    PageInStream(pages, q);
    StreamPrefix(pages, from, q);
    var upTo := all[Offset(pages, from)..at + 1];
    if q < p {
      StreamPrefix(pages, q + 1, p);
      PutsInPage(pages[q], j, a);
      PutsWithin(all, Offset(pages, q), Offset(pages, q + 1), Offset(pages, from), at + 1, a);
    } else if pages[p][i].Meta? {
      PutsInPage(pages[q], j, a);
      var rows := RowWrites(CreatedRows(pages[p], |pages[p]|));
      assert PageWrites(pages[p])[..|rows|] == rows;
      assert all[Offset(pages, p)..Offset(pages, p) + |rows|] == rows;
      PutsWithin(all, Offset(pages, p), Offset(pages, p) + |rows|, Offset(pages, from), at + 1, a);
    } else {
      PutsOne(all, at, a);
      PutsWithin(all, at, at + 1, Offset(pages, from), at + 1, a);
    }
  }

  lemma LastIsBrought(pages: seq<seq<IndexerEvent>>, p: nat, i: nat, a: string)
    requires LastToBring(pages, p, i, a)
    ensures p < |pages| && i < |pages[p]| && !pages[p][i].Other?
    ensures pages[p][i].Created? ==> WriteOf(pages[p][i]).PutRow? && WriteOf(pages[p][i]).row.address == a
  {
  }

  lemma PutsOne(ws: seq<Write>, k: nat, a: string)
    requires k < |ws| && ws[k].PutRow? && ws[k].row.address == a
    ensures Puts(ws[k..k + 1], a)
  {
    assert ws[k..k + 1][0] == ws[k];
  }

  lemma PutsWithin(ws: seq<Write>, lo: nat, hi: nat, lo': nat, hi': nat, a: string)
    requires lo' <= lo <= hi <= hi' <= |ws| && Puts(ws[lo..hi], a)
    ensures Puts(ws[lo'..hi'], a)
  {
    var k :| 0 <= k < hi - lo && ws[lo..hi][k].PutRow? && ws[lo..hi][k].row.address == a;
    assert ws[lo'..hi'][lo - lo' + k] == ws[lo..hi][k];
  }

  /** After one pass over the stream, a token whose last URI found a row carries that URI. */
  lemma UriAtTheHead(start: Table, pages: seq<seq<IndexerEvent>>, p: nat, i: nat, a: string)
    requires LastToBring(pages, p, i, a) && HasRowBy(pages, 0, start, p, a)
    ensures var t := Replay(start, Stream(pages, |pages|));
      a in t && t[a].metadataUri == Brought(pages[p][i], a)
  {
    hide Stream, UriAt, LastUri, WriteAt, Replay, Puts, KeptUri, LastRow;
    var all := Stream(pages, |pages|);
    LastUriOfEvents(pages, p, i, a);
    ReplayClosedForm(start, all, a);
    if a !in start {
      var q, j :| 0 <= q <= p && 0 <= j < |pages[q]| && Creates(pages[q][j], a);
      RowBeforeUri(pages, 0, q, j, p, i, a);
      StreamUriAt(pages, |pages|, p, i, a);
      OffsetZero(pages);
      var at := Offset(pages, p) + WriteAt(pages[p], i);
      assert all[0..at + 1] == all[..at + 1];
      PutsWithin(all, 0, at + 1, 0, |all|, a);
      assert all[0..|all|] == all;
      UriAtFacts(all, a);
      UriFacts(all, a);
      assert CarriesUri(all[at], a) && Puts(all[..at + 1], a);
    }
  }

  /** After one pass over the stream, a token it creates has the row of its last `created` event, up to the URI. */
  lemma RowAtTheHead(start: Table, pages: seq<seq<IndexerEvent>>, p: nat, i: nat, a: string)
    requires LastToCreate(pages, p, i, a)
    ensures var t := Replay(start, Stream(pages, |pages|));
      a in t && t[a] == pages[p][i].token.(source := FromEvent, metadataUri := t[a].metadataUri)
  {
    hide Stream, LastUri, Replay, Puts, KeptUri, LastRow;
    LastRowOfEvents(pages, |pages|, p, i, a);
    ReplayClosedForm(start, Stream(pages, |pages|), a);
  }

  /** After one pass over the stream, a token it neither creates nor gives a URI has the row it had, if any. */
  lemma UntouchedAtTheHead(start: Table, pages: seq<seq<IndexerEvent>>, a: string)
    requires forall p, i :: 0 <= p < |pages| && 0 <= i < |pages[p]| ==>
      !Creates(pages[p][i], a) && Brought(pages[p][i], a).None?
    ensures var t := Replay(start, Stream(pages, |pages|));
      (a in t <==> a in start) && (a in t ==> t[a] == start[a])
  {
    hide Stream, LastUri, Replay, Puts, KeptUri, LastRow, Creates, Brought;
    forall p | 0 <= p < |pages| ensures PageBringsNone(pages[p], a) {}
    SilentStream(pages, |pages|, a);
    SilentRows(pages, |pages|, a);
    ReplayClosedForm(start, Stream(pages, |pages|), a);
    UriFacts(Stream(pages, |pages|), a);
  }

  lemma {:induction false} SilentRows(pages: seq<seq<IndexerEvent>>, n: nat, a: string)
    requires n <= |pages|
    requires forall p, i :: 0 <= p < n && 0 <= i < |pages[p]| ==> !Creates(pages[p][i], a)
    ensures LastRow(Stream(pages, n), a).None?
  {
    hide LastRow, PageWrites, Creates;
    LastRowOne(SetMeta("", ""), a);
    if n > 0 {
      SilentRows(pages, n - 1, a);
      LastRowConcat(Stream(pages, n - 1), PageWrites(pages[n - 1]), a);
      PageRow(pages[n - 1], a);
      NoRowOfPage(pages[n - 1], |pages[n - 1]|, a);
    }
  }
}
