/**
 * At-least-once delivery over idempotent writes: any schedule of crashes and
 * replays that finally reaches the end of the stream leaves the table one
 * uninterrupted pass would leave.
 */
module IndexerReplay {
  import opened Common
  import opened IndexerStore

  /** One store write of steady-state ingest. */
  datatype Write = PutRow(row: Row) | SetMeta(address: string, uri: string)

  function ApplyWrite(t: Table, w: Write): Table {
    match w
    case PutRow(row) => Put(t, row)
    case SetMeta(a, uri) => SetUri(t, a, uri)
  }

  /** The writes `ws`, in order. */
  function Replay(t: Table, ws: seq<Write>): Table {
    if ws == [] then t else ApplyWrite(Replay(t, ws[..|ws| - 1]), ws[|ws| - 1])
  }

  lemma {:induction false} ReplayConcat(t: Table, a: seq<Write>, b: seq<Write>)
    ensures Replay(t, a + b) == Replay(Replay(t, a), b)
  {
    if b == [] {
      assert a + b == a;
    } else {
      ReplayConcat(t, a, b[..|b| - 1]);
      assert (a + b)[..|a + b| - 1] == a + b[..|b| - 1];
    }
  }

  // ---- Closed form of a replay ----

  /** The last row put for `a`, if any. */
  function LastRow(ws: seq<Write>, a: string): Option<Row> {
    if ws == [] then None
    else
      var w := ws[|ws| - 1];
      if w.PutRow? && w.row.address == a then Some(w.row) else LastRow(ws[..|ws| - 1], a)
  }

  /** The last URI written for `a`, by either kind of write. */
  function LastUri(ws: seq<Write>, a: string): Option<string> {
    if ws == [] then None
    else
      var w := ws[|ws| - 1];
      if w.SetMeta? && w.address == a then Some(w.uri)
      else if w.PutRow? && w.row.address == a && w.row.metadataUri.Some? then w.row.metadataUri
      else LastUri(ws[..|ws| - 1], a)
  }

  predicate Puts(ws: seq<Write>, a: string) { exists i :: 0 <= i < |ws| && ws[i].PutRow? && ws[i].row.address == a }

  lemma PutsLast(ws: seq<Write>, a: string)
    requires ws != []
    ensures var n := |ws| - 1;
      Puts(ws, a) <==> Puts(ws[..n], a) || (ws[n].PutRow? && ws[n].row.address == a)
  {
    var n := |ws| - 1;
    if Puts(ws[..n], a) {
      var i :| 0 <= i < n && ws[..n][i].PutRow? && ws[..n][i].row.address == a;
      assert ws[i].PutRow?;
    }
    if Puts(ws, a) {
      var i :| 0 <= i < |ws| && ws[i].PutRow? && ws[i].row.address == a;
      if i < n { assert ws[..n][i].PutRow?; }
    }
  }

  predicate CarriesUri(w: Write, a: string) {
    (w.SetMeta? && w.address == a) || (w.PutRow? && w.row.address == a && w.row.metadataUri.Some?)
  }

  /** The last URI written for `a` at a moment its row had been put. */
  function KeptUri(ws: seq<Write>, a: string): Option<string> {
    if ws == [] then None
    else
      var n := |ws| - 1;
      if CarriesUri(ws[n], a) && Puts(ws, a) then LastUri(ws, a) else KeptUri(ws[..n], a)
  }

  /** The row of `a` after a replay: last row put, else what was there, with the last URI that found a row. */
  ghost predicate ClosedForm(t: Table, ws: seq<Write>, a: string) {
    var t' := Replay(t, ws);
    var base := if LastRow(ws, a).Some? then LastRow(ws, a) else if a in t then Some(t[a]) else None;
    var uri := if a in t then LastUri(ws, a) else KeptUri(ws, a);
    && (a in t' <==> base.Some?)
    && (LastRow(ws, a).Some? <==> Puts(ws, a))
    && (a in t' ==> t'[a] == base.value.(metadataUri :=
          if uri.Some? then uri else if a in t then t[a].metadataUri else None))
  }

  lemma {:induction false} NoRowNoKeptUri(ws: seq<Write>, a: string)
    requires !Puts(ws, a)
    ensures KeptUri(ws, a).None?
  {
    if ws != [] {
      PutsLast(ws, a);
      NoRowNoKeptUri(ws[..|ws| - 1], a);
    }
  }

  lemma {:induction false} ReplayClosedForm(t: Table, ws: seq<Write>, a: string)
    ensures ClosedForm(t, ws, a)
  {
    if ws != [] {
      ReplayClosedForm(t, ws[..|ws| - 1], a);
      PutsLast(ws, a);
      if !Puts(ws[..|ws| - 1], a) { NoRowNoKeptUri(ws[..|ws| - 1], a); }
      hide Puts;
    }
  }

  // ---- The exact condition for replaying twice ----

  /** Some write brings `a` a URI at or after a write that puts its row. */
  predicate UriAfterRow(ws: seq<Write>, a: string) {
    exists j :: 0 <= j < |ws| && CarriesUri(ws[j], a) && Puts(ws[..j + 1], a)
  }

  predicate NamesUri(ws: seq<Write>, a: string) { exists j :: 0 <= j < |ws| && CarriesUri(ws[j], a) }

  /**
   * Every token the stream creates either gets no URI from it, or gets one at
   * or after its creation.
   */
  ghost predicate Settled(t: Table, ws: seq<Write>) {
    forall a :: a !in t && Puts(ws, a) && NamesUri(ws, a) ==> UriAfterRow(ws, a)
  }

  lemma {:induction false} UriFacts(ws: seq<Write>, a: string)
    ensures LastUri(ws, a).Some? <==> NamesUri(ws, a)
    ensures KeptUri(ws, a).Some? <==> UriAfterRow(ws, a)
    ensures KeptUri(ws, a).Some? ==> KeptUri(ws, a) == LastUri(ws, a)
  {
    if ws != [] {
      var n := |ws| - 1;
      UriFacts(ws[..n], a);
      UriStep(ws, a);
      PutsLast(ws, a);
      hide UriAfterRow, NamesUri, Puts;
      if UriAfterRow(ws[..n], a) { UriAfterRowPuts(ws[..n], a); }
    }
  }

  lemma UriAfterRowPuts(ws: seq<Write>, a: string)
    requires UriAfterRow(ws, a)
    ensures Puts(ws, a) && NamesUri(ws, a)
  {
    var j :| 0 <= j < |ws| && CarriesUri(ws[j], a) && Puts(ws[..j + 1], a);
    var i :| 0 <= i < |ws[..j + 1]| && ws[..j + 1][i].PutRow? && ws[..j + 1][i].row.address == a;
    assert ws[i].PutRow?;
  }

  lemma UriStep(ws: seq<Write>, a: string)
    requires ws != []
    ensures var n := |ws| - 1;
      && (NamesUri(ws, a) <==> NamesUri(ws[..n], a) || CarriesUri(ws[n], a))
      && (UriAfterRow(ws, a) <==> UriAfterRow(ws[..n], a) || (CarriesUri(ws[n], a) && Puts(ws, a)))
  {
    hide Puts, CarriesUri;
    var n := |ws| - 1;
    assert ws[..n + 1] == ws;
    forall j | 0 <= j < n ensures ws[..n][j] == ws[j] && ws[..n][..j + 1] == ws[..j + 1] {}
    if NamesUri(ws[..n], a) {
      var j :| 0 <= j < n && CarriesUri(ws[..n][j], a);
      assert CarriesUri(ws[j], a);
    }
    if NamesUri(ws, a) {
      var j :| 0 <= j < |ws| && CarriesUri(ws[j], a);
      if j < n { assert CarriesUri(ws[..n][j], a); }
    }
    if UriAfterRow(ws[..n], a) {
      var j :| 0 <= j < n && CarriesUri(ws[..n][j], a) && Puts(ws[..n][..j + 1], a);
      assert CarriesUri(ws[j], a) && Puts(ws[..j + 1], a);
    }
    if UriAfterRow(ws, a) {
      var j :| 0 <= j < |ws| && CarriesUri(ws[j], a) && Puts(ws[..j + 1], a);
      if j < n { assert CarriesUri(ws[..n][j], a) && Puts(ws[..n][..j + 1], a); }
    }
  }

  /** A row is as it was after a second replay exactly when its URI was settled. */
  lemma TwiceAt(t: Table, ws: seq<Write>, a: string)
    ensures var t1, t2 := Replay(t, ws), Replay(Replay(t, ws), ws);
      && (a in t1 <==> a in t2)
      && (a in t1 ==> (t1[a] == t2[a] <==> (a !in t && Puts(ws, a) && NamesUri(ws, a) ==> UriAfterRow(ws, a))))
  {
    ReplayClosedForm(t, ws, a);
    ReplayClosedForm(Replay(t, ws), ws, a);
    UriFacts(ws, a);
    hide Replay, LastRow, LastUri, KeptUri, Puts, UriAfterRow, NamesUri;
  }

  /** Replaying a stream changes nothing exactly when the stream is settled. */
  lemma ReplayTwiceIff(t: Table, ws: seq<Write>)
    ensures Replay(Replay(t, ws), ws) == Replay(t, ws) <==> Settled(t, ws)
  {
    var t1, t2 := Replay(t, ws), Replay(Replay(t, ws), ws);
    forall a { TwiceAt(t, ws, a); }
    forall a | a !in t && Puts(ws, a) ensures a in t1 { ReplayClosedForm(t, ws, a); }
    hide Replay, Puts, UriAfterRow, NamesUri;
    if Settled(t, ws) {
      assert t1.Keys == t2.Keys;
      assert forall a :: a in t1 ==> t1[a] == t2[a];
    }
    if t1 == t2 {
      forall a | a !in t && Puts(ws, a) && NamesUri(ws, a) ensures UriAfterRow(ws, a) { assert a in t1; }
    }
  }

  /** Every `meta` write finds its row: already in the table, or put earlier in the stream. */
  ghost predicate Grounded(t: Table, ws: seq<Write>) {
    forall k :: 0 <= k < |ws| && ws[k].SetMeta? ==> ws[k].address in t || Puts(ws[..k], ws[k].address)
  }

  /** It is enough that every `meta` write finds its row. */
  lemma GroundedIsSettled(t: Table, ws: seq<Write>)
    requires Grounded(t, ws)
    ensures Settled(t, ws)
  {
    forall a | a !in t && Puts(ws, a) && NamesUri(ws, a) ensures UriAfterRow(ws, a) {
      var j :| 0 <= j < |ws| && CarriesUri(ws[j], a);
      PutsLast(ws[..j + 1], a);
      assert ws[..j + 1][..j] == ws[..j] && ws[..j + 1][j] == ws[j];
      assert Puts(ws[..j + 1], a);
    }
  }

  // ---- Applying a write early does not matter if it comes again ----

  lemma LastSeen(ws: seq<Write>, k: nat)
    requires k < |ws|
    ensures ws[k].PutRow? ==> LastRow(ws, ws[k].row.address).Some?
    ensures ws[k].PutRow? && ws[k].row.metadataUri.Some? ==> LastUri(ws, ws[k].row.address).Some?
    ensures ws[k].SetMeta? ==> LastUri(ws, ws[k].address).Some?
  {
    if k < |ws| - 1 {
      assert ws[..|ws| - 1][k] == ws[k];
      LastSeen(ws[..|ws| - 1], k);
    }
  }

  /** A write the replay will make again anyway can be made beforehand: the result is the same. */
  lemma Absorb(t: Table, ws: seq<Write>, k: nat)
    requires k < |ws|
    requires ws[k].PutRow? && ws[k].row.address !in t && NamesUri(ws, ws[k].row.address) ==>
      UriAfterRow(ws, ws[k].row.address)
    ensures Replay(ApplyWrite(t, ws[k]), ws) == Replay(t, ws)
  {
    var t1 := ApplyWrite(t, ws[k]);
    LastSeen(ws, k);
    forall a ensures a in Replay(t1, ws) <==> a in Replay(t, ws)
      ensures a in Replay(t, ws) ==> Replay(t1, ws)[a] == Replay(t, ws)[a]
    {
      ReplayClosedForm(t, ws, a);
      ReplayClosedForm(t1, ws, a);
      UriFacts(ws, a);
      hide Replay, LastRow, LastUri, KeptUri, Puts, UriAfterRow, NamesUri;
    }
  }

  // ---- Crash and replay ----

  /** `t` holds at least what the first `c` writes put, on top of `start`. */
  ghost predicate Covers(start: Table, stream: seq<Write>, t: Table, c: nat)
    requires c <= |stream|
  {
    && (forall a :: a in start ==> a in t)
    && (forall k :: 0 <= k < c && stream[k].PutRow? ==> stream[k].row.address in t)
  }

  /** From here, replaying from any point not after `c` ends where one uninterrupted pass ends. */
  ghost predicate ReplaySafe(start: Table, stream: seq<Write>, t: Table, c: nat)
    requires c <= |stream|
  {
    && Covers(start, stream, t, c)
    && (forall j :: 0 <= j <= c ==> Replay(t, stream[j..]) == Replay(start, stream))
  }

  lemma InitiallySafe(start: Table, stream: seq<Write>)
    ensures ReplaySafe(start, stream, start, 0)
  {
    assert stream[0..] == stream;
  }

  /** A row the stream puts for the first time at `c` has its URI settled in every replay from no later than `c`. */
  lemma FirstPutSettles(start: Table, stream: seq<Write>, t: Table, c: nat, j: nat)
    requires j <= c < |stream| && Settled(start, stream) && Covers(start, stream, t, c)
    requires stream[c].PutRow? && stream[c].row.address !in t && NamesUri(stream[j..], stream[c].row.address)
    ensures UriAfterRow(stream[j..], stream[c].row.address)
  {
    var a, ws := stream[c].row.address, stream[j..];
    var i :| 0 <= i < |ws| && CarriesUri(ws[i], a);
    assert CarriesUri(stream[j + i], a);
    assert stream[c].PutRow?;
    var m :| 0 <= m < |stream| && CarriesUri(stream[m], a) && Puts(stream[..m + 1], a);
    var p :| 0 <= p < m + 1 && stream[..m + 1][p].PutRow? && stream[..m + 1][p].row.address == a;
    assert stream[p].PutRow? && p >= c;
    assert ws[m - j] == stream[m] && ws[..m - j + 1][p - j] == stream[p];
    assert Puts(ws[..m - j + 1], a);
  }

  /** One more write of the stream keeps the table safe, one position further on. */
  lemma WriteKeepsSafe(start: Table, stream: seq<Write>, t: Table, c: nat)
    requires Settled(start, stream) && c < |stream| && ReplaySafe(start, stream, t, c)
    ensures ReplaySafe(start, stream, ApplyWrite(t, stream[c]), c + 1)
  {
    hide Settled, NamesUri, UriAfterRow;
    var w, t1 := stream[c], ApplyWrite(t, stream[c]);
    forall j | 0 <= j <= c + 1 ensures Replay(t1, stream[j..]) == Replay(start, stream) {
      if j == c + 1 {
        assert stream[c..] == [w] + stream[c + 1..];
        ReplayConcat(t, [w], stream[c + 1..]);
        assert [w][..0] == [];
        assert Replay(t, [w]) == t1;
      } else {
        if w.PutRow? && w.row.address !in t && NamesUri(stream[j..], w.row.address) {
          FirstPutSettles(start, stream, t, c, j);
        }
        assert stream[j..][c - j] == w;
        Absorb(t, stream[j..], c - j);
      }
    }
  }

  /** Falling back to an earlier position is always safe. */
  lemma RewindKeepsSafe(start: Table, stream: seq<Write>, t: Table, c: nat, j: nat)
    requires j <= c <= |stream| && ReplaySafe(start, stream, t, c)
    ensures ReplaySafe(start, stream, t, j)
  {
  }

  lemma {:induction false} SegmentKeepsSafe(start: Table, stream: seq<Write>, t: Table, from: nat, to: nat)
    requires from <= to <= |stream| && Settled(start, stream) && ReplaySafe(start, stream, t, from)
    ensures ReplaySafe(start, stream, Replay(t, stream[from..to]), to)
  {
    hide Settled, ReplaySafe, ApplyWrite;
    if from < to {
      SegmentKeepsSafe(start, stream, t, from, to - 1);
      assert stream[from..to][..to - from - 1] == stream[from..to - 1];
      WriteKeepsSafe(start, stream, Replay(t, stream[from..to - 1]), to - 1);
    } else {
      assert stream[from..to] == [];
    }
  }

  /** One run: it resumes at write `from` and stops, by crashing or finishing, just before write `to`. */
  datatype Attempt = Attempt(from: nat, to: nat)

  function StoppedAt(attempts: seq<Attempt>): nat { if attempts == [] then 0 else attempts[|attempts| - 1].to }

  /** Each run resumes no later than where the one before it stopped. */
  predicate Schedule(attempts: seq<Attempt>, length: nat) {
    attempts == [] ||
    var n := |attempts| - 1;
    Schedule(attempts[..n], length) && attempts[n].from <= attempts[n].to <= length &&
    attempts[n].from <= StoppedAt(attempts[..n])
  }

  function RunAttempts(t: Table, stream: seq<Write>, attempts: seq<Attempt>): Table
    requires Schedule(attempts, |stream|)
  {
    if attempts == [] then t
    else
      var n := |attempts| - 1;
      Replay(RunAttempts(t, stream, attempts[..n]), stream[attempts[n].from..attempts[n].to])
  }

  lemma {:induction false} AttemptsKeepSafe(start: Table, stream: seq<Write>, attempts: seq<Attempt>)
    requires Settled(start, stream) && Schedule(attempts, |stream|)
    ensures StoppedAt(attempts) <= |stream|
    ensures ReplaySafe(start, stream, RunAttempts(start, stream, attempts), StoppedAt(attempts))
  {
    hide Settled;
    if attempts == [] {
      InitiallySafe(start, stream);
    } else {
      var n := |attempts| - 1;
      AttemptsKeepSafe(start, stream, attempts[..n]);
      var t := RunAttempts(start, stream, attempts[..n]);
      RewindKeepsSafe(start, stream, t, StoppedAt(attempts[..n]), attempts[n].from);
      SegmentKeepsSafe(start, stream, t, attempts[n].from, attempts[n].to);
    }
  }

  /**
   * Crash-replay equivalence: however often ingest stops between two writes
   * and resumes from an earlier point, once it reaches the end the table is
   * that of one uninterrupted pass.
   */
  lemma CrashReplayEquivalence(start: Table, stream: seq<Write>, attempts: seq<Attempt>)
    requires Settled(start, stream) && Schedule(attempts, |stream|)
    requires StoppedAt(attempts) == |stream|
    ensures RunAttempts(start, stream, attempts) == Replay(start, stream)
  {
    AttemptsKeepSafe(start, stream, attempts);
    assert stream[|stream|..] == [];
  }

  /** This schedule of runs reaches the end of the stream and leaves the table of one uninterrupted pass. */
  ghost predicate EndsAsOnePass(start: Table, stream: seq<Write>, attempts: seq<Attempt>) {
    Schedule(attempts, |stream|) && StoppedAt(attempts) == |stream| ==>
      RunAttempts(start, stream, attempts) == Replay(start, stream)
  }

  /** Crashes never show, whatever the schedule, exactly when the stream is settled. */
  lemma CrashReplayIff(start: Table, stream: seq<Write>)
    ensures (forall attempts :: EndsAsOnePass(start, stream, attempts)) <==> Settled(start, stream)
  {
    if Settled(start, stream) {
      forall attempts ensures EndsAsOnePass(start, stream, attempts) {
        if Schedule(attempts, |stream|) && StoppedAt(attempts) == |stream| {
          CrashReplayEquivalence(start, stream, attempts);
        }
      }
    }
    if forall attempts :: EndsAsOnePass(start, stream, attempts) {
      var once := [Attempt(0, |stream|)];
      var twice := [Attempt(0, |stream|), Attempt(0, |stream|)];
      assert twice[..1] == once && once[..0] == [] && stream[0..|stream|] == stream;
      assert Schedule(once, |stream|) && Schedule(twice, |stream|);
      assert EndsAsOnePass(start, stream, twice);
      assert RunAttempts(start, stream, once) == Replay(start, stream);
      ReplayTwiceIff(start, stream);
    }
  }

  /** Replaying any suffix already applied changes nothing. */
  lemma ReplayingASuffixIsIdempotent(start: Table, stream: seq<Write>, j: nat)
    requires Settled(start, stream) && j <= |stream|
    ensures Replay(Replay(start, stream), stream[j..]) == Replay(start, stream)
  {
    InitiallySafe(start, stream);
    SegmentKeepsSafe(start, stream, start, 0, |stream|);
    assert stream[0..|stream|] == stream;
  }

  /** An unsettled stream: a `meta` a page before its `created` is lost once, kept on replay. */
  lemma UnsettledIsNotReplaySafe(row: Row, uri: string)
    requires row.metadataUri.None?
    ensures var stream := [SetMeta(row.address, uri), PutRow(row)];
      && Replay(map[], stream)[row.address].metadataUri == None
      && Replay(Replay(map[], stream), stream)[row.address].metadataUri == Some(uri)
  {
    var stream := [SetMeta(row.address, uri), PutRow(row)];
    assert stream[..1] == [SetMeta(row.address, uri)];
    assert stream[..1][..0] == [];
    var t: Table := map[];
    assert Replay(t, stream[..1]) == t;
    var t1 := Replay(t, stream);
    assert t1 == map[row.address := row];
    assert Replay(t1, stream[..1]) == SetUri(t1, row.address, uri);
  }

  /** An early `meta` does no harm when another one follows the row: settled does not mean grounded. */
  lemma SettledWithoutGrounding(row: Row, early: string, late: string)
    ensures var stream := [SetMeta(row.address, early), PutRow(row), SetMeta(row.address, late)];
      Settled(map[], stream) && !Grounded(map[], stream)
  {
    var a := row.address;
    var stream := [SetMeta(a, early), PutRow(row), SetMeta(a, late)];
    assert stream[..3][1] == PutRow(row);
    assert CarriesUri(stream[2], a) && Puts(stream[..2 + 1], a);
    assert stream[0].SetMeta? && !Puts(stream[..0], a);
    forall b | Puts(stream, b) && NamesUri(stream, b) ensures UriAfterRow(stream, b) {
      var i :| 0 <= i < |stream| && stream[i].PutRow? && stream[i].row.address == b;
      assert b == a;
    }
  }

  // ---- A known URI is never forgotten ----

  ghost predicate UrisKept(t: Table, t': Table) {
    forall a :: a in t && t[a].metadataUri.Some? ==> a in t' && t'[a].metadataUri.Some?
  }

  lemma {:induction false} PutAllKeepsUris(t: Table, rows: seq<Row>, n: nat)
    requires n <= |rows|
    ensures UrisKept(t, PutAll(t, rows, n))
  {
    if n > 0 { PutAllKeepsUris(t, rows, n - 1); }
  }

  lemma {:induction false} ReplayKeepsUris(t: Table, ws: seq<Write>)
    ensures UrisKept(t, Replay(t, ws))
  {
    if ws != [] { ReplayKeepsUris(t, ws[..|ws| - 1]); }
  }
}
