/**
 * The per-creator token index: fixed-size persistent pages, filled lazily from
 * the unbounded list an earlier binary kept in instance storage.
 */
module CreatorPages {
  import opened Common

  /** `MAX_TOKENS_BY_CREATOR_PAGE`. */
  const PAGE: nat := 50

  /** Page, slot and page start of an entry; the literals keep the arithmetic linear. */
  function PageNo(i: nat): nat { i / 50 }
  function Slot(i: nat): nat { i % 50 }
  function Start(p: nat): nat { p * 50 }

  type PageMap = map<(Address, nat), seq<nat>>

  /** The stored keys: pages and counts (persistent), legacy lists (instance). */
  datatype Lists = Lists(pages: PageMap, counts: map<Address, nat>, legacy: map<Address, seq<nat>>)

  // ---- Abstract list of a creator, and how it is laid out in pages ----

  function Chunk(list: seq<nat>, p: nat): seq<nat>
    requires Start(p) <= |list|
  {
    list[Start(p)..Min(Start(p) + PAGE, |list|)]
  }

  function PageCount(list: seq<nat>): nat { PageNo(|list| + 49) }

  function PagesFor(c: Address, list: seq<nat>): PageMap {
    map p: nat | 0 <= p < PageCount(list) :: (c, p) := Chunk(list, p)
  }

  /** What `creator`'s pages spell out, read entry by entry. */
  function Entry(pages: PageMap, c: Address, i: nat): nat {
    if (c, PageNo(i)) in pages && Slot(i) < |pages[(c, PageNo(i))]| then pages[(c, PageNo(i))][Slot(i)] else 0
  }

  /** The creator's tokens in creation order: the pages if there is a count, else the legacy list. */
  function TokensOf(l: Lists, c: Address): seq<nat> {
    if c in l.counts then seq(l.counts[c], i requires i >= 0 => Entry(l.pages, c, i))
    else if c in l.legacy then l.legacy[c]
    else []
  }

  /** The pages of `c` are exactly the chunks of `list`. */
  ghost predicate LaidOut(pages: PageMap, c: Address, list: seq<nat>) {
    forall p: nat :: ((c, p) in pages <==> p < PageCount(list)) &&
                     (p < PageCount(list) ==> pages[(c, p)] == Chunk(list, p))
  }

  ghost predicate ValidLists(l: Lists) {
    forall c: Address :: LaidOut(l.pages, c, if c in l.counts then TokensOf(l, c) else [])
  }

  /** Appending: the old list plus one entry, laid out again. */
  function Appended(l: Lists, c: Address, index: nat): Lists {
    var list := TokensOf(l, c) + [index];
    Lists(l.pages + PagesFor(c, list), l.counts[c := |list|], if c in l.counts then l.legacy else l.legacy - {c})
  }

  // ---- Layout lemmas ----

  lemma PagesForLaysOut(pages: PageMap, c: Address, list: seq<nat>)
    requires forall p: nat :: (c, p) in pages ==> p < PageCount(list)
    ensures LaidOut(pages + PagesFor(c, list), c, list)
  {
  }

  /** Laid-out pages spell the list back. */
  lemma LaidOutSpells(pages: PageMap, c: Address, list: seq<nat>, i: nat)
    requires LaidOut(pages, c, list) && i < |list|
    ensures (c, PageNo(i)) in pages && Slot(i) < |pages[(c, PageNo(i))]|
    ensures Entry(pages, c, i) == pages[(c, PageNo(i))][Slot(i)] == list[i]
  {
    PageArithmetic(i);
    var p := PageNo(i);
    assert p < PageCount(list);
    assert pages[(c, p)] == Chunk(list, p);
  }

  lemma SpelledList(l: Lists, c: Address, list: seq<nat>)
    requires LaidOut(l.pages, c, list) && c in l.counts && l.counts[c] == |list|
    ensures TokensOf(l, c) == list
  {
    forall i: nat | i < |list| ensures TokensOf(l, c)[i] == list[i] {
      LaidOutSpells(l.pages, c, list, i);
    }
  }

  lemma PageArithmetic(n: nat)
    ensures Start(PageNo(n)) <= n < Start(PageNo(n)) + PAGE
    ensures Slot(n) == n - Start(PageNo(n))
  {
  }

  /** Growing a list within its tail page leaves the earlier chunks alone. */
  lemma GrownChunk(short: seq<nat>, list: seq<nat>, p: nat)
    requires short <= list && p < PageNo(|short|)
    ensures p < PageCount(short) && Start(p) <= |short|
    ensures Chunk(short, p) == Chunk(list, p)
  {
    assert Start(p) + PAGE <= Start(PageNo(|short|)) <= |short|;
    assert short == list[..|short|];
  }

  /** Rewriting only the tail page of a list that grew within it rewrites the whole layout. */
  lemma TailPage(pages: PageMap, c: Address, short: seq<nat>, list: seq<nat>, tail: nat)
    requires short <= list && tail == PageNo(|short|)
    requires |short| < |list| <= Start(tail) + PAGE
    requires LaidOut(pages, c, short)
    ensures pages + PagesFor(c, list) == pages[(c, tail) := list[Start(tail)..]]
  {
    PageArithmetic(|short|);
    TailPageCount(|short|, |list|, tail);
    forall p: nat | p < tail ensures (c, p) in pages && pages[(c, p)] == Chunk(list, p) {
      GrownChunk(short, list, p);
    }
    hide LaidOut;
    OnlyTailChanges(pages, c, list, tail);
    assert Chunk(list, tail) == list[Start(tail)..];
  }

  lemma TailPageCount(short: nat, long: nat, tail: nat)
    requires tail == PageNo(short) && short < long <= Start(tail) + PAGE
    ensures PageNo(long + 49) == tail + 1
  {
  }

  lemma OnlyTailChanges(pages: PageMap, c: Address, list: seq<nat>, tail: nat)
    requires PageCount(list) == tail + 1 && Start(tail) <= |list|
    requires forall p: nat :: p < tail ==> (c, p) in pages && pages[(c, p)] == Chunk(list, p)
    ensures pages + PagesFor(c, list) == pages[(c, tail) := Chunk(list, tail)]
  {
    hide Chunk;
    var a, b := pages + PagesFor(c, list), pages[(c, tail) := Chunk(list, tail)];
    assert a.Keys == b.Keys;
  }

  /** One page flushed on top of the layout of everything before it. */
  lemma FlushPage(pages0: PageMap, c: Address, short: seq<nat>, list: seq<nat>, tail: nat)
    requires short <= list && tail == PageNo(|short|)
    requires |short| < |list| <= Start(tail) + PAGE
    requires forall p: nat :: (c, p) !in pages0
    ensures (pages0 + PagesFor(c, short))[(c, tail) := list[Start(tail)..]] == pages0 + PagesFor(c, list)
  {
    PagesForLaysOut(pages0, c, short);
    TailPage(pages0 + PagesFor(c, short), c, short, list, tail);
    Relay(pages0, c, short, list);
  }

  /** Appending keeps every creator's layout, adds one entry to `c` and touches nobody else. */
  lemma AppendedIsAppend(l: Lists, c: Address, index: nat)
    requires ValidLists(l)
    ensures ValidLists(Appended(l, c, index))
    ensures TokensOf(Appended(l, c, index), c) == TokensOf(l, c) + [index]
    ensures forall d :: d != c ==> TokensOf(Appended(l, c, index), d) == TokensOf(l, d)
  {
    var list, l' := TokensOf(l, c) + [index], Appended(l, c, index);
    assert LaidOut(l.pages, c, if c in l.counts then TokensOf(l, c) else []);
    PagesForLaysOut(l.pages, c, list);
    SpelledList(l', c, list);
    forall d: Address | d != c
      ensures TokensOf(l', d) == TokensOf(l, d)
      ensures LaidOut(l'.pages, d, if d in l'.counts then TokensOf(l', d) else [])
    {
      OtherCreator(l, c, index, d);
    }
  }

  lemma OtherCreator(l: Lists, c: Address, index: nat, d: Address)
    requires ValidLists(l) && d != c
    ensures TokensOf(Appended(l, c, index), d) == TokensOf(l, d)
    ensures var l' := Appended(l, c, index);
      LaidOut(l'.pages, d, if d in l'.counts then TokensOf(l', d) else [])
  {
    hide LaidOut;
    hide PagesFor;
    var l' := Appended(l, c, index);
    OtherPages(l.pages, c, TokensOf(l, c) + [index], d);
    assert LaidOut(l.pages, d, if d in l.counts then TokensOf(l, d) else []);
    SamePages(l, l', d);
  }

  lemma OtherPages(pages: PageMap, c: Address, list: seq<nat>, d: Address)
    requires d != c
    ensures forall p: nat :: (d, p) in pages + PagesFor(c, list) <==> (d, p) in pages
    ensures forall p: nat :: (d, p) in pages ==> (pages + PagesFor(c, list))[(d, p)] == pages[(d, p)]
  {
  }

  lemma SamePages(l: Lists, l': Lists, d: Address)
    requires forall p: nat :: (d, p) in l'.pages <==> (d, p) in l.pages
    requires forall p: nat :: (d, p) in l.pages ==> l'.pages[(d, p)] == l.pages[(d, p)]
    requires d in l'.counts <==> d in l.counts
    requires d in l.counts ==> l'.counts[d] == l.counts[d]
    requires d in l'.legacy <==> d in l.legacy
    requires d in l.legacy ==> l'.legacy[d] == l.legacy[d]
    ensures TokensOf(l', d) == TokensOf(l, d)
    ensures forall list :: LaidOut(l.pages, d, list) ==> LaidOut(l'.pages, d, list)
  {
    forall i: nat ensures Entry(l'.pages, d, i) == Entry(l.pages, d, i) {
      assert (d, PageNo(i)) in l'.pages <==> (d, PageNo(i)) in l.pages;
    }
  }

  // ---- Reading a slice, and walking the list slice by slice ----

  /** What `get_tokens_by_creator` promises for a list: at most one page, clamped to the end. */
  function Slice(list: seq<nat>, offset: nat, limit: nat): seq<nat> {
    if limit == 0 || offset >= |list| then []
    else list[offset..Min(offset + Min(limit, PAGE), |list|)]
  }

  /** A client that advances by the length of each slice until one comes back empty. */
  function WalkUntilEmpty(list: seq<nat>, offset: nat, limit: nat): seq<nat>
    decreases |list| - offset
  {
    var s := Slice(list, offset, limit);
    if s == [] then [] else s + WalkUntilEmpty(list, offset + |s|, limit)
  }

  /** A client that stops at the first slice shorter than its `limit`, as the doc comment advises. */
  function WalkUntilShort(list: seq<nat>, offset: nat, limit: nat): seq<nat>
    requires limit > 0
    decreases |list| - offset
  {
    var s := Slice(list, offset, limit);
    if |s| < limit then s else s + WalkUntilShort(list, offset + |s|, limit)
  }

  /** Advancing by slice length enumerates every entry exactly once, in order. */
  lemma {:induction false} WalkUntilEmptyIsComplete(list: seq<nat>, offset: nat, limit: nat)
    requires limit > 0 && offset <= |list|
    ensures WalkUntilEmpty(list, offset, limit) == list[offset..]
    decreases |list| - offset
  {
    var s := Slice(list, offset, limit);
    if s != [] {
      WalkUntilEmptyIsComplete(list, offset + |s|, limit);
      assert list[offset..] == s + list[offset + |s|..];
    }
  }

  /** The advised stop rule is complete exactly when the limit is within the clamp or one page holds everything. */
  lemma WalkUntilShortIsCompleteIff(list: seq<nat>, limit: nat)
    requires limit > 0
    ensures WalkUntilShort(list, 0, limit) == list <==> limit <= 50 || |list| <= 50
  {
    if limit <= PAGE {
      WalkUntilShortWithin(list, 0, limit);
    } else {
      var s := Slice(list, 0, limit);
      assert |s| == Min(PAGE, |list|) < limit;
    }
  }

  lemma {:induction false} WalkUntilShortWithin(list: seq<nat>, offset: nat, limit: nat)
    requires 0 < limit <= PAGE && offset <= |list|
    ensures WalkUntilShort(list, offset, limit) == list[offset..]
    decreases |list| - offset
  {
    var s := Slice(list, offset, limit);
    if |s| == limit {
      WalkUntilShortWithin(list, offset + |s|, limit);
      assert list[offset..] == s + list[offset + |s|..];
    } else {
      assert list[offset..] == s;
    }
  }

  // ---- The storage keys themselves ----

  class CreatorStore {
    var pages: PageMap
    var counts: map<Address, nat>
    var legacy: map<Address, seq<nat>>

    constructor (l: Lists)
      ensures View() == l
    {
      pages, counts, legacy := l.pages, l.counts, l.legacy;
    }

    function View(): Lists
      reads this
    {
      Lists(pages, counts, legacy)
    }

    method Restore(l: Lists)
      modifies this
      ensures View() == l
    {
      pages, counts, legacy := l.pages, l.counts, l.legacy;
    }

    /** `append_creator_token`: migrate the legacy list if there is no count yet, then rewrite only the tail page. */
    method Append(creator: Address, index: nat) returns (ok: bool)
      requires ValidLists(View())
      modifies this
      ensures ok <==> |TokensOf(old(View()), creator)| < U32_MAX
      ensures ok ==> View() == Appended(old(View()), creator, index)
    {
      hide ValidLists;
      hide LaidOut;
      hide PagesFor;
      hide TokensOf;
      ghost var before := View();
      ListKeys(before, creator);
      var count;
      if creator in counts {
        count := counts[creator];
      } else {
        var monolithic := if creator in legacy then legacy[creator] else [];
        legacy := legacy - {creator};
        var packed, updated := PackPages(pages, creator, monolithic);
        if packed.None? { return false; }
        pages, count := updated, packed.value;
      }
      AppendState(before, View(), creator, index);
      var page := PageNo(count);
      var bucket := if (creator, page) in pages then pages[(creator, page)] else [];
      bucket := bucket + [index];
      AppendTail(before, pages, creator, index, page, bucket);
      pages := pages[(creator, page) := bucket];
      if count + 1 > U32_MAX { return false; }
      counts := counts[creator := count + 1];
      ok := true;
    }

    /** `get_tokens_by_creator`: one clamped slice, read page by page. */
    method GetTokensByCreator(creator: Address, offset: nat, limit: nat) returns (out: seq<nat>)
      requires ValidLists(View()) && offset <= U32_MAX
      requires creator in counts ==> counts[creator] <= U32_MAX
      ensures out == if creator in counts then Slice(TokensOf(View(), creator), offset, limit) else []
      ensures var list := if creator in counts then TokensOf(View(), creator) else [];
        && |out| == Max(0, Min(Min(limit, 50), |list| - offset))
        && forall k :: 0 <= k < |out| ==> out[k] == list[offset + k]
    {
      out := [];
      if limit == 0 { return; }
      var effective := Min(limit, PAGE);
      var total := if creator in counts then counts[creator] else 0;
      if offset >= total { return; }
      var end := Min(Min(offset + effective, U32_MAX), total);
      ghost var list := TokensOf(View(), creator);
      assert LaidOut(pages, creator, list);
      out := ReadRange(pages, creator, list, offset, end);
    }
  }

  /** The loop of `append_creator_token` that moves a legacy list into pages; `None` is a `u32` overflow. */
  method PackPages(pages0: PageMap, creator: Address, list: seq<nat>)
    returns (migrated: Option<nat>, pages: PageMap)
    requires forall p: nat :: (creator, p) !in pages0
    ensures migrated == if |list| <= U32_MAX then Some(|list|) else None
    ensures migrated.Some? ==> pages == pages0 + PagesFor(creator, list)
  {
    pages := pages0;
    EmptyLayout(pages0, creator);
    hide PagesFor;
    var count := 0;
    var bucket: seq<nat> := [];
    ghost var start := 0;
    while count < |list|
      invariant start <= count <= |list| && count <= U32_MAX
      invariant Slot(start) == 0 && count < start + PAGE
      invariant bucket == list[start..count]
      invariant pages == pages0 + PagesFor(creator, list[..start])
    {
      bucket := bucket + [list[count]];
      if count + 1 > U32_MAX { return None, pages; }
      count := count + 1;
      if Slot(count) == 0 {
        var page := PageNo(count) - 1;
        assert start == Start(page);
        FlushPage(pages0, creator, list[..start], list[..count], page);
        assert bucket == list[..count][start..];
        pages := pages[(creator, page) := bucket];
        bucket := [];
        start := count;
      }
    }
    if bucket != [] {
      var page := PageNo(count);
      assert start == Start(page);
      FlushPage(pages0, creator, list[..start], list, page);
      assert bucket == list[start..];
      pages := pages[(creator, page) := bucket];
    } else {
      assert list[..start] == list;
    }
    migrated := Some(count);
  }

  lemma EmptyLayout(pages: PageMap, c: Address)
    ensures pages + PagesFor(c, []) == pages
  {
  }

  /** The loop of `get_tokens_by_creator`. */
  method ReadRange(pages: PageMap, creator: Address, ghost list: seq<nat>, offset: nat, end: nat)
    returns (out: seq<nat>)
    requires LaidOut(pages, creator, list) && offset <= end <= |list|
    ensures out == list[offset..end]
  {
    out := [];
    var i := offset;
    while i < end
      invariant offset <= i <= end
      invariant out == list[offset..i]
    {
      var pageNo, local := PageNo(i), Slot(i);
      LaidOutSpells(pages, creator, list, i);
      var bucket := if (creator, pageNo) in pages then pages[(creator, pageNo)] else [];
      if local >= |bucket| { break; }
      out := out + [bucket[local]];
      i := i + 1;
    }
  }

  /** How a creator's keys determine their list. */
  lemma ListKeys(l: Lists, c: Address)
    requires ValidLists(l)
    ensures c in l.counts ==> l.counts[c] == |TokensOf(l, c)|
    ensures c !in l.counts ==> TokensOf(l, c) == if c in l.legacy then l.legacy[c] else []
    ensures c !in l.counts ==> forall p: nat :: (c, p) !in l.pages
  {
    assert LaidOut(l.pages, c, if c in l.counts then TokensOf(l, c) else []);
  }

  /** After the lazy migration the pages hold the creator's whole list, and nothing else moved. */
  lemma AppendState(before: Lists, now: Lists, c: Address, index: nat)
    requires ValidLists(before)
    requires now.pages == if c in before.counts then before.pages else before.pages + PagesFor(c, TokensOf(before, c))
    ensures LaidOut(now.pages, c, TokensOf(before, c))
    ensures var list := TokensOf(before, c) + [index];
      now.pages + PagesFor(c, list) == before.pages + PagesFor(c, list)
  {
    var list := TokensOf(before, c);
    assert LaidOut(before.pages, c, if c in before.counts then list else []);
    if c !in before.counts {
      PagesForLaysOut(before.pages, c, list);
      Relay(before.pages, c, list, list + [index]);
    }
  }

  /** Rewriting the tail page with one more entry is the layout of the longer list. */
  lemma AppendTail(before: Lists, pages: PageMap, c: Address, index: nat, page: nat, bucket: seq<nat>)
    requires LaidOut(pages, c, TokensOf(before, c)) && page == PageNo(|TokensOf(before, c)|)
    requires bucket == (if (c, page) in pages then pages[(c, page)] else []) + [index]
    ensures pages[(c, page) := bucket] == pages + PagesFor(c, TokensOf(before, c) + [index])
  {
    var list := TokensOf(before, c);
    TailBucket(pages, c, list, index);
    TailPage(pages, c, list, list + [index], page);
  }

  /** Laying out a longer list over a shorter one's pages leaves only the longer one's. */
  lemma Relay(pages: PageMap, c: Address, short: seq<nat>, list: seq<nat>)
    requires short <= list
    ensures pages + PagesFor(c, short) + PagesFor(c, list) == pages + PagesFor(c, list)
  {
    assert PageCount(short) <= PageCount(list);
  }

  lemma TailBucket(pages: PageMap, c: Address, list: seq<nat>, index: nat)
    requires LaidOut(pages, c, list)
    ensures var page := PageNo(|list|);
      (if (c, page) in pages then pages[(c, page)] else []) + [index] == (list + [index])[Start(page)..]
  {
    var page := PageNo(|list|);
    if (c, page) in pages {
      assert pages[(c, page)] == Chunk(list, page);
    }
  }
}
