/** Pin reconciliation: what a run may delete, and that it never deletes a pin a stored token refers to. */
module Reconciliation {
  import opened Common
  import opened IndexerStore

  const GRACE_WINDOW_MS: int := 86_400_000
  const UNPIN_RATIO_FLOOR: nat := 5
  const MAX_UNPIN_RATIO: real := 0.1

  /** `pinnedAt` is `None` when Pinata's date does not parse. */
  datatype Pin = Pin(cid: string, pinnedAt: Option<int>)

  datatype Outcome<T> = Ok(value: T) | Failed

  // ---- From URIs to CIDs ----

  const IPFS: string := "ipfs://"

  /** What `.` does not match in a regular expression without flags. */
  predicate LineTerminator(c: char) { c == '\n' || c == '\r' || c == '\U{2028}' || c == '\U{2029}' }

  predicate SingleLine(s: string) { forall k :: 0 <= k < |s| ==> !LineTerminator(s[k]) }

  predicate Alphanumeric(c: char) { 'a' <= c <= 'z' || 'A' <= c <= 'Z' || '0' <= c <= '9' }

  predicate BareCid(s: string) { 44 <= |s| <= 59 && forall k :: 0 <= k < |s| ==> Alphanumeric(s[k]) }

  /** The CID a URI names: `ipfs://<cid>`, or a bare CID. */
  function CidOf(uri: string): Option<string> {
    if IPFS <= uri && |uri| > |IPFS| && SingleLine(uri[|IPFS|..]) then Some(uri[|IPFS|..])
    else if BareCid(uri) then Some(uri)
    else None
  }

  lemma PrefixedIsNotBare(uri: string)
    requires IPFS <= uri
    ensures !BareCid(uri)
  {
    assert uri[4] == IPFS[4] == ':' && !Alphanumeric(uri[4]);
  }

  /**
   * The URIs that yield a CID are exactly its `ipfs://` form, when it is
   * non-empty and holds no line terminator, and its bare form, when that is 44
   * to 59 letters and digits.
   */
  lemma CidOfExactly(uri: string, cid: string)
    ensures CidOf(uri) == Some(cid) <==>
      || (uri == "ipfs://" + cid && cid != "" &&
          forall k :: 0 <= k < |cid| ==> cid[k] !in {'\n', '\r', '\U{2028}', '\U{2029}'})
      || (uri == cid && 44 <= |cid| <= 59 &&
          forall k :: 0 <= k < |cid| ==>
            'a' <= cid[k] <= 'z' || 'A' <= cid[k] <= 'Z' || '0' <= cid[k] <= '9')
  {
    if uri == IPFS + cid {
      assert uri[|IPFS|..] == cid;
    }
    if CidOf(uri) == Some(cid) && IPFS <= uri {
      assert uri == IPFS + uri[|IPFS|..];
    }
    if IPFS <= uri { PrefixedIsNotBare(uri); }
  }

  /** The CIDs some URI of `uris` names. */
  function CidsOf(uris: seq<string>): set<string> { set uri | uri in uris && CidOf(uri).Some? :: CidOf(uri).value }

  /** `extractCidsFromMetadataUris` */
  method ExtractCids(uris: seq<string>) returns (cids: set<string>)
    ensures cids == CidsOf(uris)
  {
    cids := {};
    for i := 0 to |uris|
      invariant cids == set k | 0 <= k < i && CidOf(uris[k]).Some? :: CidOf(uris[k]).value
    {
      var uri := uris[i];
      if |uri| == 0 { continue; }
      if IPFS <= uri && |uri| > |IPFS| && SingleLine(uri[|IPFS|..]) {
        cids := cids + {uri[|IPFS|..]};
      } else if BareCid(uri) {
        cids := cids + {uri};
      }
    }
  }

  // ---- Collecting the reference set ----

  /** The non-empty URIs of `rows`, in order. */
  function UrisOf(rows: seq<Row>): seq<string> {
    if rows == [] then []
    else UrisOf(rows[..|rows| - 1]) + OwnUri(rows[|rows| - 1])
  }

  function OwnUri(row: Row): seq<string> {
    if row.metadataUri.Some? && row.metadataUri.value != "" then [row.metadataUri.value] else []
  }

  lemma {:induction false} UrisOfConcat(a: seq<Row>, b: seq<Row>)
    ensures UrisOf(a + b) == UrisOf(a) + UrisOf(b)
  {
    hide OwnUri;
    if b == [] {
      assert a + b == a;
    } else {
      var n := |b| - 1;
      UrisOfConcat(a, b[..n]);
      assert (a + b)[..|a + b| - 1] == a + b[..n];
    }
  }

  lemma {:induction false} OwnUriIsListed(rows: seq<Row>, row: Row)
    requires row in rows && row.metadataUri.Some? && row.metadataUri.value != ""
    ensures row.metadataUri.value in UrisOf(rows)
  {
    var n := |rows| - 1;
    if row != rows[n] { OwnUriIsListed(rows[..n], row); }
  }

  /** Some page read on the walk throws. */
  ghost predicate SomePageThrows(snap: nat -> Table, throws: nat -> bool) {
    exists k :: 0 <= k < WalkPages(snap, 0, None, 100) && throws(k)
  }

  /** `getMetadataUrisFromIndexer`: page `k` reads the store as it is then, `snap(k)`, unless that read throws. */
  method GetMetadataUris(snap: nat -> Table, throws: nat -> bool) returns (uris: Outcome<seq<string>>)
    requires forall j :: Distinct(snap(j))
    ensures uris.Failed? <==> SomePageThrows(snap, throws)
    ensures uris.Ok? ==> uris.value == UrisOf(Walk(snap, 0, None, 100))
  {
    hide ListTokens, Distinct, Walk, WalkPages, UrisOf;
    var collected: seq<string> := [];
    var cursor: Option<nat> := None;
    var k: nat := 0;
    while true
      invariant UrisOf(Walk(snap, 0, None, 100)) == collected + UrisOf(Walk(snap, k, cursor, 100))
      invariant WalkPages(snap, 0, None, 100) == k + WalkPages(snap, k, cursor, 100)
      invariant forall j :: 0 <= j < k ==> !throws(j)
      decreases cursor.None?, if cursor.Some? then cursor.value else 0
    {
      WalkReadsOn(snap, k, cursor);
      if throws(k) { return Failed; }
      var result := ListPage(snap(k), "", cursor, 100);
      WalkUnfolds(snap, k, cursor, result);
      var page := CollectUris(result.rows);
      collected := collected + page;
      if result.next.None? { break; }
      cursor, k := result.next, k + 1;
    }
    uris := Ok(collected);
  }

  lemma WalkReadsOn(snap: nat -> Table, k: nat, cursor: Option<nat>)
    ensures var page := ListTokens(snap(k), "", cursor, 100);
      WalkPages(snap, k, cursor, 100) == 1 + if page.next.None? then 0 else WalkPages(snap, k + 1, page.next, 100)
  {
    hide ListTokens;
  }

  lemma WalkUnfolds(snap: nat -> Table, k: nat, cursor: Option<nat>, page: Page)
    requires forall j :: Distinct(snap(j))
    requires page == ListTokens(snap(k), "", cursor, 100)
    ensures page.next.Some? && cursor.Some? ==> page.next.value < cursor.value
    ensures page.next.None? ==> UrisOf(Walk(snap, k, cursor, 100)) == UrisOf(page.rows)
    ensures page.next.Some? ==>
      UrisOf(Walk(snap, k, cursor, 100)) == UrisOf(page.rows) + UrisOf(Walk(snap, k + 1, page.next, 100))
  {
    hide UrisOf, ListTokens, Distinct;
    PageFacts(snap(k), cursor, 100);
    if page.next.Some? { UrisOfConcat(page.rows, Walk(snap, k + 1, page.next, 100)); }
  }

  method CollectUris(rows: seq<Row>) returns (uris: seq<string>)
    ensures uris == UrisOf(rows)
  {
    uris := [];
    for i := 0 to |rows|
      invariant uris == UrisOf(rows[..i])
    {
      assert rows[..i + 1][..i] == rows[..i];
      if rows[i].metadataUri.Some? && rows[i].metadataUri.value != "" {
        uris := uris + [rows[i].metadataUri.value];
      }
    }
    assert rows[..|rows|] == rows;
  }

  // ---- Classifying ----

  /** Unreferenced, with a known age above the grace window. */
  predicate Orphaned(pin: Pin, inUse: set<string>, now: int) {
    pin.cid !in inUse && pin.pinnedAt.Some? && now - pin.pinnedAt.value > GRACE_WINDOW_MS
  }

  function Orphans(pins: seq<Pin>, inUse: set<string>, now: int): (cids: seq<string>)
    ensures |cids| <= |pins|
    ensures forall k :: 0 <= k < |cids| ==> cids[k] !in inUse
  {
    if pins == [] then []
    else
      var last := pins[|pins| - 1];
      Orphans(pins[..|pins| - 1], inUse, now) + (if Orphaned(last, inUse, now) then [last.cid] else [])
  }

  /** `classifyPins` */
  method ClassifyPins(pins: seq<Pin>, inUse: set<string>, now: int) returns (toUnpin: seq<string>, preserved: nat)
    ensures toUnpin == Orphans(pins, inUse, now)
    ensures preserved + |toUnpin| == |pins|
  {
    toUnpin, preserved := [], 0;
    for i := 0 to |pins|
      invariant toUnpin == Orphans(pins[..i], inUse, now) && preserved + |toUnpin| == i
    {
      assert pins[..i + 1][..i] == pins[..i];
      var pin := pins[i];
      if pin.cid in inUse {
        preserved := preserved + 1;
        continue;
      }
      if pin.pinnedAt.None? {
        preserved := preserved + 1;
        continue;
      }
      if now - pin.pinnedAt.value <= GRACE_WINDOW_MS {
        preserved := preserved + 1;
        continue;
      }
      toUnpin := toUnpin + [pin.cid];
    }
    assert pins[..|pins|] == pins;
  }

  /** Exactly the CIDs of orphaned pins are classified for deletion. */
  lemma {:induction false} OrphansExactly(pins: seq<Pin>, inUse: set<string>, now: int, cid: string)
    ensures cid in Orphans(pins, inUse, now) <==>
      exists k :: 0 <= k < |pins| && pins[k].cid == cid && Orphaned(pins[k], inUse, now)
  {
    if pins != [] {
      var n := |pins| - 1;
      OrphansExactly(pins[..n], inUse, now, cid);
      if cid in Orphans(pins[..n], inUse, now) {
        var k :| 0 <= k < n && pins[..n][k].cid == cid && Orphaned(pins[..n][k], inUse, now);
        assert pins[k].cid == cid;
      }
      if k :| 0 <= k < |pins| && pins[k].cid == cid && Orphaned(pins[k], inUse, now) {
        if k < n { assert pins[..n][k] == pins[k]; }
      }
    }
  }

  /** Unreferenced pins known to be older than 24 hours, by position. */
  ghost function OldAndUnused(pins: seq<Pin>, inUse: set<string>, now: int): set<nat> {
    set k | 0 <= k < |pins| && pins[k].cid !in inUse && pins[k].pinnedAt.Some? &&
      now - pins[k].pinnedAt.value > 86_400_000
  }

  /** There is one candidate for each such pin. */
  lemma {:induction false} OrphanCount(pins: seq<Pin>, inUse: set<string>, now: int)
    ensures |Orphans(pins, inUse, now)| == |OldAndUnused(pins, inUse, now)|
  {
    if pins != [] {
      var n := |pins| - 1;
      OrphanCount(pins[..n], inUse, now);
      assert OldAndUnused(pins, inUse, now) ==
        OldAndUnused(pins[..n], inUse, now) + if Orphaned(pins[n], inUse, now) then {n} else {};
    }
  }

  // ---- Deleting ----

  datatype UnpinReply = Deleted | AlreadyGone | Refused | NetworkError

  /** How many of the first `n` requests got one of these replies. */
  function Replies(replies: nat -> UnpinReply, n: nat, kinds: set<UnpinReply>): nat {
    |set k: nat | 0 <= k < n && replies(k) in kinds|
  }

  lemma NextReply(replies: nat -> UnpinReply, n: nat, kinds: set<UnpinReply>)
    ensures Replies(replies, 0, kinds) == 0
    ensures Replies(replies, n + 1, kinds) == Replies(replies, n, kinds) + if replies(n) in kinds then 1 else 0
  {
    var before := set k: nat | 0 <= k < n && replies(k) in kinds;
    var after := set k: nat | 0 <= k < n + 1 && replies(k) in kinds;
    assert after == before + if replies(n) in kinds then {n} else {};
    assert (set k: nat | 0 <= k < 0 && replies(k) in kinds) == {};
  }

  /** Request `k` is the last of the first `n` that was refused or got no answer. */
  ghost predicate LastFailure(replies: nat -> UnpinReply, k: nat, n: nat) {
    replies(k) in {Refused, NetworkError} && forall j :: k < j < n ==> replies(j) in {Deleted, AlreadyGone}
  }

  /** `unpinCids`, with the deletion requests it sent; a CID that was already gone counts as cleaned. */
  method UnpinCids(cids: seq<string>, replies: nat -> UnpinReply)
    returns (cleaned: nat, errors: nat, failed: Option<string>, requests: seq<string>)
    ensures requests == cids
    ensures cleaned == Replies(replies, |cids|, {Deleted, AlreadyGone})
    ensures errors == Replies(replies, |cids|, {Refused, NetworkError})
    ensures cleaned + errors == |cids|
    ensures failed.Some? <==> errors > 0
    ensures failed.Some? ==> exists k :: 0 <= k < |cids| && cids[k] == failed.value && LastFailure(replies, k, |cids|)
  {
    hide Replies;
    cleaned, errors, failed, requests := 0, 0, None, [];
    NextReply(replies, 0, {Deleted, AlreadyGone});
    NextReply(replies, 0, {Refused, NetworkError});
    if |cids| == 0 { return; }
    ghost var last: nat := 0;
    for i := 0 to |cids|
      invariant requests == cids[..i]
      invariant cleaned == Replies(replies, i, {Deleted, AlreadyGone})
      invariant errors == Replies(replies, i, {Refused, NetworkError}) && cleaned + errors == i
      invariant failed.Some? <==> errors > 0
      invariant failed.Some? ==> last < i && cids[last] == failed.value && LastFailure(replies, last, i)
    {
      NextReply(replies, i, {Deleted, AlreadyGone});
      NextReply(replies, i, {Refused, NetworkError});
      requests := requests + [cids[i]];
      if replies(i).Deleted? || replies(i).AlreadyGone? {
        cleaned := cleaned + 1;
      } else {
        errors := errors + 1;
        failed := Some(cids[i]);
        last := i;
      }
    }
  }

  // ---- A whole run ----

  datatype Gate = NoGate | Threw | Answered(ready: bool)

  datatype Options = Options(gate: Gate, dryRun: bool, maxUnpinRatio: Option<real>, overrideCircuitBreaker: bool)

  datatype SkipReason = NotReady | DryRun | CircuitBreaker

  datatype Summary = Summary(
    checked: nat, preserved: nat, cleaned: nat, errors: nat, failed: bool, skipReason: Option<SkipReason>,
    dryRun: bool, wouldUnpin: seq<string>, circuitBreakerTripped: bool)

  function RatioLimit(o: Options): real { if o.maxUnpinRatio.Some? then o.maxUnpinRatio.value else MAX_UNPIN_RATIO }

  /** Few enough deletions: at most the floor, or at most the allowed share of the account. */
  predicate WithinLimit(o: Options, unpins: nat, pins: nat) {
    unpins <= UNPIN_RATIO_FLOOR || unpins as real <= RatioLimit(o) * pins as real
  }

  lemma RatioMeaning(limit: real, k: nat, n: nat)
    requires n > 0
    ensures k as real / n as real > limit <==> k as real > limit * n as real
  {
    var q := k as real / n as real;
    assert q * n as real == k as real;
    if q > limit {
      Scale(q, limit, n as real);
    } else if q < limit {
      Scale(limit, q, n as real);
    }
  }

  lemma Scale(a: real, b: real, n: real)
    requires a > b && n > 0.0
    ensures a * n > b * n
  {
  }

  /**
   * `runReconciliation`, with the deletion requests it sent. `listing` and
   * `uris` are what listing the account and reading the reference set give.
   */
  method RunReconciliation(o: Options, listing: Outcome<seq<Pin>>, uris: Outcome<seq<string>>, now: int,
                           replies: nat -> UnpinReply)
    returns (r: Summary, deleted: seq<string>)
    // a gate that throws, or that answers it is not ready, stops everything
    ensures o.gate == Threw || o.gate == Answered(false) ==>
      deleted == [] && r == Summary(0, 0, 0, 0, true, Some(NotReady), o.dryRun, [], false)
    // without a gate, or past one that is ready, everything classified as an orphan is deleted unless the run stops
    ensures o.gate == NoGate || o.gate == Answered(true) ==>
      match listing
      case Failed => deleted == [] && r == Summary(0, 0, 0, 0, true, None, o.dryRun, [], false)
      case Ok(pins) =>
        match uris
        case Failed => deleted == [] && r == Summary(|pins|, |pins|, 0, 0, true, Some(NotReady), o.dryRun, [], false)
        case Ok(found) =>
          var orphans := Orphans(pins, CidsOf(found), now);
          if !o.overrideCircuitBreaker && !WithinLimit(o, |orphans|, |pins|) then
            deleted == [] &&
            r == Summary(|pins|, |pins| - |orphans|, 0, 0, true, Some(CircuitBreaker), o.dryRun, orphans, true)
          else if o.dryRun then
            deleted == [] && r == Summary(|pins|, |pins| - |orphans|, 0, 0, false, Some(DryRun), true, orphans, false)
          else
            && deleted == orphans
            && r == Summary(|pins|, |pins| - |orphans|, r.cleaned, r.errors, r.errors > 0, None, false, [], false)
            && r.cleaned == Replies(replies, |deleted|, {Deleted, AlreadyGone})
            && r.errors == Replies(replies, |deleted|, {Refused, NetworkError})
    ensures r.checked == r.preserved + r.cleaned + r.errors + |r.wouldUnpin|
  {
    hide Orphans, CidsOf, Replies;
    deleted := [];
    var base := Summary(0, 0, 0, 0, false, None, o.dryRun, [], false);
    if o.gate.Threw? || (o.gate.Answered? && !o.gate.ready) {
      r := base.(failed := true, skipReason := Some(NotReady));
      return;
    }
    if listing.Failed? {
      r := base.(failed := true);
      return;
    }
    var pins := listing.value;
    if uris.Failed? {
      r := base.(checked := |pins|, preserved := |pins|, failed := true, skipReason := Some(NotReady));
      return;
    }
    var cidInUse := ExtractCids(uris.value);
    var toUnpin, preserved := ClassifyPins(pins, cidInUse, now);
    var ratio := if |pins| > 0 then |toUnpin| as real / |pins| as real else 0.0;
    if |pins| > 0 { RatioMeaning(RatioLimit(o), |toUnpin|, |pins|); }
    if |toUnpin| > UNPIN_RATIO_FLOOR && ratio > RatioLimit(o) && !o.overrideCircuitBreaker {
      r := base.(checked := |pins|, preserved := preserved, failed := true, skipReason := Some(CircuitBreaker),
                 wouldUnpin := toUnpin, circuitBreakerTripped := true);
      return;
    }
    if o.dryRun {
      r := base.(checked := |pins|, preserved := preserved, skipReason := Some(DryRun), wouldUnpin := toUnpin);
      return;
    }
    var cleaned, errors, failed, requests := UnpinCids(toUnpin, replies);
    deleted := requests;
    r := base.(checked := |pins|, preserved := preserved, cleaned := cleaned, errors := errors, failed := failed.Some?);
  }

  /**
   * Few enough deletions: at most five; or at most the given share of the
   * account, or a tenth of it when none is given.
   */
  lemma LimitExactly(o: Options, unpins: nat, pins: nat)
    ensures o.maxUnpinRatio.None? ==> (WithinLimit(o, unpins, pins) <==> unpins <= 5 || 10 * unpins <= pins)
    ensures o.maxUnpinRatio.Some? ==>
      (WithinLimit(o, unpins, pins) <==> unpins <= 5 || unpins as real <= o.maxUnpinRatio.value * pins as real)
  {
    assert unpins as real <= 0.1 * pins as real <==> 10 * unpins <= pins;
  }

  // ---- Safety, end to end ----

  /** At every page of the walk, some row with this index carries `ipfs://<cid>`. */
  ghost predicate ReferencedThroughout(snap: nat -> Table, i: nat, cid: string) {
    forall j: nat :: RefersTo(snap(j), i, cid)
  }

  ghost predicate RefersTo(t: Table, i: nat, cid: string) {
    exists a :: a in t && t[a].tokenIndex == i && t[a].metadataUri == Some(IPFS + cid)
  }

  /** A CID referenced throughout the walk ends up in the set of CIDs in use. */
  lemma ReferencedIsInUse(snap: nat -> Table, i: nat, cid: string)
    requires forall j :: Distinct(snap(j))
    requires ReferencedThroughout(snap, i, cid) && cid != "" && SingleLine(cid)
    ensures cid in CidsOf(UrisOf(Walk(snap, 0, None, 100)))
  {
    forall j: nat ensures HasIndex(snap(j), i) { assert RefersTo(snap(j), i, cid); }
    hide Walk;
    var page, row := WalkComplete(snap, 0, None, 100, i);
    assert RefersTo(snap(page), i, cid);
    assert row.metadataUri == Some(IPFS + cid);
    OwnUriIsListed(Walk(snap, 0, None, 100), row);
    CidOfExactly(IPFS + cid, cid);
  }

  /**
   * Exactly which CIDs a run would delete: those with a pin of known age above
   * the grace window that no URI names, neither as `ipfs://<cid>` with the CID
   * one non-empty line, nor bare. A CID holding a line terminator has no
   * `ipfs://` form that protects it.
   */
  lemma ReferenceProtectsIff(pins: seq<Pin>, uris: seq<string>, now: int, cid: string)
    ensures cid in Orphans(pins, CidsOf(uris), now) <==>
      && HasOldPin(pins, cid, now)
      && !(IPFS + cid in uris && cid != "" && SingleLine(cid))
      && !(cid in uris && BareCid(cid))
  {
    OrphansExactly(pins, CidsOf(uris), now, cid);
    forall uri | uri in uris ensures CidOf(uri) == Some(cid) <==>
      (uri == IPFS + cid && cid != "" && SingleLine(cid)) || (uri == cid && BareCid(cid))
    {
      CidOfExactly(uri, cid);
    }
    hide CidOf, SingleLine, BareCid, Orphans;
    assert cid in CidsOf(uris) <==> exists uri :: uri in uris && CidOf(uri) == Some(cid);
  }

  /** No row this walk returns names the CID: neither as `ipfs://<cid>` nor bare. */
  ghost predicate Unreferenced(rows: seq<Row>, cid: string) {
    forall r :: r in rows && r.metadataUri.Some? ==> CidOf(r.metadataUri.value) != Some(cid)
  }

  lemma {:induction false} ListedIsOwn(rows: seq<Row>, uri: string)
    requires uri in UrisOf(rows)
    ensures exists r :: r in rows && r.metadataUri == Some(uri) && uri != ""
  {
    var n := |rows| - 1;
    if uri in UrisOf(rows[..n]) {
      ListedIsOwn(rows[..n], uri);
      var r :| r in rows[..n] && r.metadataUri == Some(uri) && uri != "";
      assert r in rows;
    } else {
      assert rows[n].metadataUri == Some(uri);
    }
  }

  /** The reference set leaves out exactly the CIDs that no row returned by the walk names. */
  lemma UnusedIff(rows: seq<Row>, cid: string)
    ensures cid !in CidsOf(UrisOf(rows)) <==> Unreferenced(rows, cid)
  {
    hide UrisOf, CidOf;
    if cid in CidsOf(UrisOf(rows)) {
      var uri :| uri in UrisOf(rows) && CidOf(uri) == Some(cid);
      ListedIsOwn(rows, uri);
    }
    if r :| r in rows && r.metadataUri.Some? && CidOf(r.metadataUri.value) == Some(cid) {
      NoCidOfNothing();
      OwnUriIsListed(rows, r);
    }
  }

  lemma NoCidOfNothing()
    ensures CidOf("").None?
  {
  }

  /**
   * Nothing stops the run: it has no gate or one that is ready, is no dry run, lists the account and
   * reads every page.
   */
  ghost predicate Unimpeded(o: Options, snap: nat -> Table, throws: nat -> bool, listing: Outcome<seq<Pin>>) {
    (o.gate == NoGate || o.gate == Answered(true)) && !o.dryRun && listing.Ok? && !SomePageThrows(snap, throws)
  }

  /**
   * The cron job: collect the reference set page by page, then reconcile. It
   * deletes all old pins that no row of the walk names, or nothing.
   */
  method ReconcilePins(o: Options, snap: nat -> Table, throws: nat -> bool, listing: Outcome<seq<Pin>>, now: int,
                       replies: nat -> UnpinReply)
    returns (r: Summary, deleted: seq<string>)
    requires forall j :: Distinct(snap(j))
    ensures forall i, cid :: ReferencedThroughout(snap, i, cid) && cid != "" && SingleLine(cid) ==> cid !in deleted
    ensures deleted != [] ==> o.gate == NoGate || o.gate == Answered(true)
    ensures (exists k :: 0 <= k < WalkPages(snap, 0, None, 100) && throws(k)) ==> deleted == []
    ensures deleted != [] ==> !o.dryRun && listing.Ok?
    ensures listing.Ok? && !o.overrideCircuitBreaker && o.maxUnpinRatio.None? ==>
      |deleted| <= 5 || 10 * |deleted| <= |listing.value|
    ensures listing.Ok? && !o.overrideCircuitBreaker && o.maxUnpinRatio.Some? ==>
      |deleted| <= 5 || |deleted| as real <= o.maxUnpinRatio.value * |listing.value| as real
    // exactly what is deleted
    ensures forall cid :: cid in deleted <==>
      && Unimpeded(o, snap, throws, listing)
      && (o.overrideCircuitBreaker ||
          WithinLimit(o, |OldAndUnused(listing.value, CidsOf(UrisOf(Walk(snap, 0, None, 100))), now)|, |listing.value|))
      && HasOldPin(listing.value, cid, now) && Unreferenced(Walk(snap, 0, None, 100), cid)
    ensures r.checked == r.preserved + r.cleaned + r.errors + |r.wouldUnpin|
  {
    hide Walk, WalkPages, Orphans, CidsOf, UrisOf, WithinLimit, Replies;
    var uris := GetMetadataUris(snap, throws);
    r, deleted := RunReconciliation(o, listing, uris, now, replies);
    forall i, cid | ReferencedThroughout(snap, i, cid) && cid != "" && SingleLine(cid) ensures cid !in deleted {
      ReferencedIsInUse(snap, i, cid);
    }
    if listing.Ok? {
      LimitExactly(o, |deleted|, |listing.value|);
      if uris.Ok? {
        OrphanCount(listing.value, CidsOf(uris.value), now);
        forall cid
          ensures cid in Orphans(listing.value, CidsOf(uris.value), now) <==>
            HasOldPin(listing.value, cid, now) && Unreferenced(Walk(snap, 0, None, 100), cid)
        {
          OrphansExactly(listing.value, CidsOf(uris.value), now, cid);
          UnusedIff(Walk(snap, 0, None, 100), cid);
        }
      }
    }
  }

  /** Some pin of this CID is known to be older than 24 hours. */
  ghost predicate HasOldPin(pins: seq<Pin>, cid: string, now: int) {
    exists k ::
      && 0 <= k < |pins| && pins[k].cid == cid
      && pins[k].pinnedAt.Some? && now - pins[k].pinnedAt.value > 86_400_000
  }
}
