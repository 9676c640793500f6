/**
 * The registry as a reader sees it, whatever tier an entry lives in, and the
 * invariants every run keeps on it: one token per index, addresses and indices
 * inverse, owners agreeing with records, creators' lists partitioning the
 * tokens, and the capped-supply counter within its cap.
 */
module FactoryRegistry {
  import opened Common
  import opened CreatorPages
  import opened FactoryModel

  /** The merged view: what `read_addr_keyed` answers for every key. */
  datatype Registry = Registry(
    count: nat, info: map<nat, TokenInfo>, index: map<Address, nat>, address: map<nat, Address>,
    owner: map<Address, Address>, supply: map<Address, int>, backfilled: map<Address, bool>,
    metadata: map<Address, string>, version: map<Address, nat>, frozen: map<Address, bool>,
    whitelist: map<Address, bool>, deployed: set<Address>, lists: Lists)

  function RegistryOf(w: World): Registry {
    Registry(w.st.tokenCount, w.inst.tokenInfo + w.pers.tokenInfo, w.inst.tokenIndex + w.pers.tokenIndex,
             w.inst.tokenAddress + w.pers.tokenAddress, w.inst.owner + w.pers.owner, w.inst.supply + w.pers.supply,
             w.inst.backfilled + w.pers.backfilled, w.inst.metadata + w.pers.metadata,
             w.inst.metadataVersion + w.pers.metadataVersion, w.inst.metadataFrozen + w.pers.metadataFrozen,
             w.inst.whitelist + w.pers.whitelist, w.deployed, w.lists)
  }

  /** A lookup depends on the merged view only. */
  lemma LookupIsMerged<K, V>(pers: map<K, V>, inst: map<K, V>, k: K)
    ensures Lookup(pers, inst, k) == if k in inst + pers then Some((inst + pers)[k]) else None
  {
  }

  lemma SameMergedSameLookup<K, V>(pers: map<K, V>, inst: map<K, V>, pers': map<K, V>, inst': map<K, V>, k: K)
    requires inst + pers == inst' + pers'
    ensures Lookup(pers, inst, k) == Lookup(pers', inst', k)
  {
    LookupIsMerged(pers, inst, k);
    LookupIsMerged(pers', inst', k);
    hide Lookup;
  }

  /** Two worlds with the same merged view answer every lookup alike. */
  lemma SameRegistrySameLookups(w: World, w': World, t: Address, i: nat)
    requires RegistryOf(w) == RegistryOf(w')
    ensures IndexOf(w', t) == IndexOf(w, t) && InfoAt(w', i) == InfoAt(w, i) && OwnerOf(w', t) == OwnerOf(w, t)
    ensures SupplyOf(w', t) == SupplyOf(w, t) && Backfilled(w', t) == Backfilled(w, t)
    ensures Frozen(w', t) == Frozen(w, t) && VersionOf(w', t) == VersionOf(w, t)
    ensures Whitelisted(w', t) == Whitelisted(w, t)
  {
    hide Lookup;
    SameMergedSameLookup(w.pers.tokenIndex, w.inst.tokenIndex, w'.pers.tokenIndex, w'.inst.tokenIndex, t);
    SameMergedSameLookup(w.pers.tokenInfo, w.inst.tokenInfo, w'.pers.tokenInfo, w'.inst.tokenInfo, i);
    SameMergedSameLookup(w.pers.owner, w.inst.owner, w'.pers.owner, w'.inst.owner, t);
    SameMergedSameLookup(w.pers.supply, w.inst.supply, w'.pers.supply, w'.inst.supply, t);
    SameMergedSameLookup(w.pers.backfilled, w.inst.backfilled, w'.pers.backfilled, w'.inst.backfilled, t);
    SameMergedSameLookup(w.pers.metadataFrozen, w.inst.metadataFrozen,
                         w'.pers.metadataFrozen, w'.inst.metadataFrozen, t);
    SameMergedSameLookup(w.pers.metadataVersion, w.inst.metadataVersion,
                         w'.pers.metadataVersion, w'.inst.metadataVersion, t);
    SameMergedSameLookup(w.pers.whitelist, w.inst.whitelist, w'.pers.whitelist, w'.inst.whitelist, t);
  }

  /** Lazy migration of one key leaves the merged view, and so every lookup, unchanged. */
  lemma PromotionIsInvisible<K, V>(pers: map<K, V>, inst: map<K, V>, k: K)
    ensures PromoteInst(pers, inst, k) + PromotePers(pers, inst, k) == inst + pers
    ensures k in PromoteInst(pers, inst, k) ==> k in pers
  {
  }

  lemma TouchesAreInvisible(w: World, t: Address, i: nat)
    ensures RegistryOf(TouchIndex(w, t)) == RegistryOf(w)
    ensures RegistryOf(TouchInfo(w, i)) == RegistryOf(w)
    ensures RegistryOf(TouchOwner(w, t)) == RegistryOf(w)
    ensures RegistryOf(TouchSupply(w, t)) == RegistryOf(w)
    ensures RegistryOf(TouchFrozen(w, t)) == RegistryOf(w)
    ensures RegistryOf(TouchVersion(w, t)) == RegistryOf(w)
    ensures RegistryOf(TouchBackfilled(w, t)) == RegistryOf(w)
  {
    hide PromoteInst, PromotePers;
    PromotionIsInvisible(w.pers.tokenIndex, w.inst.tokenIndex, t);
    PromotionIsInvisible(w.pers.tokenInfo, w.inst.tokenInfo, i);
    PromotionIsInvisible(w.pers.owner, w.inst.owner, t);
    PromotionIsInvisible(w.pers.supply, w.inst.supply, t);
    PromotionIsInvisible(w.pers.metadataFrozen, w.inst.metadataFrozen, t);
    PromotionIsInvisible(w.pers.metadataVersion, w.inst.metadataVersion, t);
    PromotionIsInvisible(w.pers.backfilled, w.inst.backfilled, t);
  }

  lemma RegisteredTouchIsInvisible(w: World, t: Address)
    ensures RegistryOf(TouchRegistered(w, t)) == RegistryOf(w)
  {
    hide RegistryOf, TouchIndex, TouchInfo, IndexOf;
    match IndexOf(w, t)
    case None =>
    case Some(i) =>
      TouchesAreInvisible(w, t, 0);
      TouchesAreInvisible(TouchIndex(w, t), t, i);
  }

  // ---- The invariants ----

  ghost predicate IndicesDistinct(r: Registry) {
    && (forall t :: t in r.index ==> 1 <= r.index[t] <= r.count)
    && (forall t, u :: t in r.index && u in r.index && t != u ==> r.index[t] != r.index[u])
  }

  ghost predicate AddressInvertsIndex(r: Registry) {
    forall i :: i in r.address ==> r.address[i] in r.index && r.index[r.address[i]] == i
  }

  ghost predicate OwnersMatchRecords(r: Registry) {
    forall t :: t in r.index && t in r.owner && r.index[t] in r.info ==> r.owner[t] == r.info[r.index[t]].creator
  }

  /** Every index registered by this code (those above `base`) is complete. */
  ghost predicate NewTokensComplete(r: Registry, base: nat) {
    forall i :: base < i <= r.count ==> i in r.address && i in r.info && r.address[i] in r.owner
  }

  /** A creator's list is strictly increasing and names only that creator's tokens. */
  ghost predicate SoundList(list: seq<nat>, count: nat, info: map<nat, TokenInfo>, c: Address) {
    && (forall j, k :: 0 <= j < k < |list| ==> list[j] < list[k])
    && (forall j :: 0 <= j < |list| ==> 1 <= list[j] <= count && list[j] in info && info[list[j]].creator == c)
  }

  ghost predicate ListSound(r: Registry, c: Address) { SoundList(TokensOf(r.lists, c), r.count, r.info, c) }

  ghost predicate ListsSound(r: Registry) { forall c: Address :: ListSound(r, c) }

  /** Every token registered by this code is on its creator's list. */
  ghost predicate ListsComplete(r: Registry, base: nat) {
    forall i :: base < i <= r.count && i in r.info ==> Listed(r.lists, r.info[i].creator, i)
  }

  predicate Listed(l: Lists, c: Address, i: nat) { i in TokensOf(l, c) }

  ghost predicate KeysDeployed(r: Registry) {
    && r.index.Keys <= r.deployed && r.owner.Keys <= r.deployed
    && r.supply.Keys <= r.deployed && r.backfilled.Keys <= r.deployed
    && (forall i :: i in r.info ==> i <= r.count)
  }

  ghost predicate Consistent(r: Registry, base: nat) {
    && base <= r.count && ValidLists(r.lists)
    && IndicesDistinct(r) && AddressInvertsIndex(r) && OwnersMatchRecords(r) && NewTokensComplete(r, base)
    && ListsSound(r) && ListsComplete(r, base) && KeysDeployed(r)
  }

  /** What consistency means for a reader: the lists partition the tokens this code registered. */
  lemma ListsPartitionNewTokens(r: Registry, base: nat, i: nat)
    requires Consistent(r, base) && base < i <= r.count
    ensures i in r.info && i in TokensOf(r.lists, r.info[i].creator)
    ensures forall c :: i in TokensOf(r.lists, c) <==> c == r.info[i].creator
    ensures forall c: Address, j, k ::
      (0 <= j < |TokensOf(r.lists, c)| && 0 <= k < |TokensOf(r.lists, c)| &&
       TokensOf(r.lists, c)[j] == TokensOf(r.lists, c)[k]) ==> j == k
  {
    forall c ensures i in TokensOf(r.lists, c) <==> c == r.info[i].creator {
      assert ListSound(r, c);
    }
    forall c: Address, j, k |
      0 <= j < |TokensOf(r.lists, c)| && 0 <= k < |TokensOf(r.lists, c)| &&
      TokensOf(r.lists, c)[j] == TokensOf(r.lists, c)[k]
      ensures j == k
    {
      assert ListSound(r, c);
    }
  }

  /** For a token this code registered, index, address, owner and record all agree. */
  lemma NewTokenRoundTrip(r: Registry, base: nat, i: nat)
    requires Consistent(r, base) && base < i <= r.count
    ensures i in r.address && i in r.info
    ensures r.address[i] in r.index && r.index[r.address[i]] == i
    ensures r.address[i] in r.owner && r.owner[r.address[i]] == r.info[i].creator
  {
  }

  // ---- Registering a token ----

  function AddToken(r: Registry, creator: Address, p: TokenParams): Registry {
    var t, i := Derived(creator, p.salt), r.count + 1;
    r.(count := i, info := r.info[i := InfoFor(creator, p)], index := r.index[t := i], address := r.address[i := t],
       owner := r.owner[t := creator], supply := if p.maxSupply.Some? then r.supply[t := p.initialSupply] else r.supply,
       deployed := r.deployed + {t}, lists := Appended(r.lists, creator, i))
  }

  lemma MergePut<K, V>(inst: map<K, V>, pers: map<K, V>, k: K, v: V)
    ensures inst + pers[k := v] == (inst + pers)[k := v]
  {
  }

  lemma RegisterIsAdd(w: World, creator: Address, p: TokenParams)
    ensures RegistryOf(RegisterToken(w, creator, p)) == AddToken(RegistryOf(w), creator, p)
  {
    hide Appended, InfoFor;
    var t, i := Derived(creator, p.salt), w.st.tokenCount + 1;
    MergePut(w.inst.tokenInfo, w.pers.tokenInfo, i, InfoFor(creator, p));
    MergePut(w.inst.tokenIndex, w.pers.tokenIndex, t, i);
    MergePut(w.inst.tokenAddress, w.pers.tokenAddress, i, t);
    MergePut(w.inst.owner, w.pers.owner, t, creator);
    MergePut(w.inst.supply, w.pers.supply, t, p.initialSupply);
  }

  lemma AddKeepsIndices(r: Registry, creator: Address, p: TokenParams)
    requires IndicesDistinct(r) && AddressInvertsIndex(r) && KeysDeployed(r) && Derived(creator, p.salt) !in r.deployed
    ensures var r' := AddToken(r, creator, p);
      IndicesDistinct(r') && AddressInvertsIndex(r')
  {
    hide Appended, InfoFor;
    var t := Derived(creator, p.salt);
    assert t !in r.index.Keys;
  }

  lemma AddKeepsOwners(r: Registry, creator: Address, p: TokenParams)
    requires IndicesDistinct(r) && OwnersMatchRecords(r) && KeysDeployed(r) && Derived(creator, p.salt) !in r.deployed
    ensures OwnersMatchRecords(AddToken(r, creator, p))
  {
    hide Appended;
    var r', i := AddToken(r, creator, p), r.count + 1;
    forall t | t in r'.index && t in r'.owner && r'.index[t] in r'.info
      ensures r'.owner[t] == r'.info[r'.index[t]].creator
    {
      if t != Derived(creator, p.salt) { assert t in r.index && r.index[t] != i; }
    }
  }

  lemma AddKeepsComplete(r: Registry, base: nat, creator: Address, p: TokenParams)
    requires NewTokensComplete(r, base) && KeysDeployed(r)
    ensures var r' := AddToken(r, creator, p);
      NewTokensComplete(r', base) && KeysDeployed(r')
  {
    hide Appended, InfoFor;
    var r', i := AddToken(r, creator, p), r.count + 1;
    forall j | base < j <= r'.count ensures j in r'.address && j in r'.info && r'.address[j] in r'.owner {
      if j != i { assert j in r.address; }
    }
  }

  lemma SoundAppend(list: seq<nat>, count: nat, info: map<nat, TokenInfo>, c: Address, record: TokenInfo)
    requires SoundList(list, count, info, c)
    ensures SoundList(list, count + 1, info[count + 1 := record], c)
    ensures record.creator == c ==> SoundList(list + [count + 1], count + 1, info[count + 1 := record], c)
  {
  }

  lemma AddKeepsList(r: Registry, creator: Address, p: TokenParams, c: Address)
    requires ListSound(r, c) && ValidLists(r.lists)
    ensures ListSound(AddToken(r, creator, p), c)
  {
    hide ValidLists, Appended, TokensOf, SoundList;
    AppendedIsAppend(r.lists, creator, r.count + 1);
    SoundAppend(TokensOf(r.lists, c), r.count, r.info, c, InfoFor(creator, p));
  }

  lemma AppendLists(l: Lists, creator: Address, i: nat)
    requires ValidLists(l)
    ensures Listed(Appended(l, creator, i), creator, i)
    ensures forall c, j :: Listed(l, c, j) ==> Listed(Appended(l, creator, i), c, j)
  {
    hide ValidLists, Appended, TokensOf;
    AppendedIsAppend(l, creator, i);
    var list' := TokensOf(Appended(l, creator, i), creator);
    assert list'[|list'| - 1] == i;
    forall c, j | Listed(l, c, j) ensures Listed(Appended(l, creator, i), c, j) {
      assert j in TokensOf(l, c);
    }
  }

  lemma AddKeepsListsComplete(r: Registry, base: nat, creator: Address, p: TokenParams)
    requires ListsComplete(r, base) && ValidLists(r.lists)
    ensures ListsComplete(AddToken(r, creator, p), base)
  {
    hide Listed, ValidLists, Appended;
    AppendLists(r.lists, creator, r.count + 1);
  }

  lemma AddKeepsConsistent(r: Registry, base: nat, creator: Address, p: TokenParams)
    requires Consistent(r, base) && Derived(creator, p.salt) !in r.deployed
    ensures Consistent(AddToken(r, creator, p), base)
  {
    hide ValidLists, ListsComplete, Appended, IndicesDistinct, AddressInvertsIndex, OwnersMatchRecords;
    hide NewTokensComplete, KeysDeployed, SoundList, InfoFor;
    AddKeepsIndices(r, creator, p);
    AddKeepsOwners(r, creator, p);
    AddKeepsComplete(r, base, creator, p);
    AddKeepsListsComplete(r, base, creator, p);
    AppendedIsAppend(r.lists, creator, r.count + 1);
    forall c: Address ensures ListSound(AddToken(r, creator, p), c) {
      AddKeepsList(r, creator, p, c);
    }
  }
}
