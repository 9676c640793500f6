/**
 * What each successful call does to the merged registry and to the issued
 * supply, with the storage tiers and the transfers abstracted away.
 */
module FactorySteps {
  import opened Common
  import FeeSplit
  import opened CreatorPages
  import opened FactoryModel
  import opened FactoryRegistry

  // ---- Issued supply ----

  /** Units of `t` the factory has minted, initial supply included. */
  function Issued(log: seq<Effect>, t: Address): int {
    if log == [] then 0
    else
      var last := log[|log| - 1];
      Issued(log[..|log| - 1], t) + if last.Mint? && last.token == t then last.amount else 0
  }

  lemma {:induction false} IssuedConcat(a: seq<Effect>, b: seq<Effect>, t: Address)
    ensures Issued(a + b, t) == Issued(a, t) + Issued(b, t)
  {
    if b == [] {
      assert a + b == a;
    } else {
      IssuedConcat(a, b[..|b| - 1], t);
      assert (a + b)[..|a + b| - 1] == a + b[..|b| - 1];
    }
  }

  lemma {:induction false} PayoutsIssueNothing(split: seq<Share>, shares: seq<int>, payer: Address, fee: FeeScript,
                                               k: nat, t: Address)
    requires k <= |split| == |shares|
    ensures Issued(Payouts(split, shares, payer, fee, k), t) == 0
  {
    if k > 0 {
      PayoutsIssueNothing(split, shares, payer, fee, k - 1, t);
      var last :=
        if shares[k - 1] <= 0 then []
        else if Paid(fee, k - 1) then [Transfer(payer, split[k - 1].recipient, shares[k - 1])]
        else [FeeRedirected(split[k - 1].recipient, shares[k - 1])];
      IssuedConcat(Payouts(split, shares, payer, fee, k - 1), last, t);
      SingleIssues(last, t);
    }
  }

  lemma SingleIssues(log: seq<Effect>, t: Address)
    requires |log| <= 1
    ensures Issued(log, t) == if log != [] && log[0].Mint? && log[0].token == t then log[0].amount else 0
  {
    if log != [] { assert log[..0] == []; }
  }

  /** Paying a fee mints nothing. */
  lemma FeesIssueNothing(split: seq<Share>, treasury: Address, payer: Address, amount: Amount, fee: FeeScript,
                         t: Address)
    ensures FeesFor(split, treasury, payer, amount, fee).Charged? ==>
      Issued(FeesFor(split, treasury, payer, amount, fee).effects, t) == 0
  {
    hide FeeSplit.Shares, FeeSplit.Fits;
    if split == [] {
      SingleIssues([Transfer(payer, treasury, amount)], t);
    } else {
      var shares := FeeSplit.Shares(amount, Weights(split));
      var paid := Payouts(split, shares, payer, fee, |split|);
      var rest := Undelivered(shares, fee, |split|);
      PayoutsIssueNothing(split, shares, payer, fee, |split|, t);
      IssuedConcat(paid, [Transfer(payer, treasury, rest)], t);
      SingleIssues([Transfer(payer, treasury, rest)], t);
    }
  }

  // ---- Registrations ----

  function Initial(creator: Address, p: TokenParams, t: Address): int {
    if t == Derived(creator, p.salt) && p.initialSupply > 0 then p.initialSupply else 0
  }

  lemma RegisterIssues(w: World, creator: Address, p: TokenParams, t: Address)
    ensures Issued(RegisterToken(w, creator, p).log, t) == Issued(w.log, t) + Initial(creator, p, t)
  {
    hide Appended, InfoFor, Issued;
    var token := Derived(creator, p.salt);
    var tail := if p.initialSupply > 0 then [Mint(token, creator, p.initialSupply)] else [];
    IssuedConcat(w.log + [Deploy(token)], tail, t);
    IssuedConcat(w.log, [Deploy(token)], t);
    SingleIssues([Deploy(token)], t);
    SingleIssues(tail, t);
  }

  /** A world whose registry is the same and whose log only grew by effects that mint nothing. */
  ghost predicate OnlyFees(w: World, w': World) {
    && RegistryOf(w') == RegistryOf(w)
    && (forall t :: Issued(w'.log, t) == Issued(w.log, t))
  }

  lemma ChargingIsOnlyFees(w: World, payer: Address, amount: Amount, fee: FeeScript)
    requires FeesFor(w.split, w.st.treasury, payer, amount, fee).Charged?
    ensures OnlyFees(w, w.(log := w.log + FeesFor(w.split, w.st.treasury, payer, amount, fee).effects))
  {
    hide FeesFor, Issued;
    var effects := FeesFor(w.split, w.st.treasury, payer, amount, fee).effects;
    forall t ensures Issued(w.log + effects, t) == Issued(w.log, t) {
      FeesIssueNothing(w.split, w.st.treasury, payer, amount, fee, t);
      IssuedConcat(w.log, effects, t);
    }
  }

  // ---- Per-token entrypoints ----

  lemma PutMetadata(w: World, t: Address, uri: string, version: nat)
    ensures RegistryOf(w.(pers := w.pers.(metadata := w.pers.metadata[t := uri],
                                          metadataVersion := w.pers.metadataVersion[t := version]))) ==
      RegistryOf(w).(metadata := RegistryOf(w).metadata[t := uri], version := RegistryOf(w).version[t := version])
  {
    MergePut(w.inst.metadata, w.pers.metadata, t, uri);
    MergePut(w.inst.metadataVersion, w.pers.metadataVersion, t, version);
  }

  lemma PutInfo(w: World, i: nat, info: TokenInfo)
    ensures RegistryOf(w.(pers := w.pers.(tokenInfo := w.pers.tokenInfo[i := info]))) ==
      RegistryOf(w).(info := RegistryOf(w).info[i := info])
  {
    MergePut(w.inst.tokenInfo, w.pers.tokenInfo, i, info);
  }

  lemma MetadataDone(w: World, t: Address, admin: Address, uri: string, pay: I128, fee: FeeScript)
    requires SetMetadataStep(w, t, admin, uri, pay, fee).reply.Done?
    ensures FeesFor(w.split, w.st.treasury, admin, w.st.metadataFee, fee).Charged?
    ensures var w1 := MetadataPrepared(w, t);
      SetMetadataStep(w, t, admin, uri, pay, fee).world == w1.(
        log := w.log + FeesFor(w.split, w.st.treasury, admin, w.st.metadataFee, fee).effects,
        pers := w1.pers.(metadata := w1.pers.metadata[t := uri],
                         metadataVersion := w1.pers.metadataVersion[t := VersionOf(w, t) + 1]))
  {
    hide FeesFor, MetadataPrepared, SetMetadataRefusal, VersionOf;
  }

  lemma MetadataPreparedInvisible(w: World, t: Address)
    ensures RegistryOf(MetadataPrepared(w, t)) == RegistryOf(w)
  {
    hide RegistryOf, TouchOwner, TouchFrozen, TouchVersion;
    TouchesAreInvisible(w, t, 0);
    TouchesAreInvisible(TouchOwner(w, t), t, 0);
    TouchesAreInvisible(TouchFrozen(TouchOwner(w, t), t), t, 0);
  }

  /** A successful `set_metadata` replaces the URI and bumps its version. */
  lemma MetadataRegistry(w: World, t: Address, admin: Address, uri: string, pay: I128, fee: FeeScript)
    requires SetMetadataStep(w, t, admin, uri, pay, fee).reply.Done?
    ensures var w', r := SetMetadataStep(w, t, admin, uri, pay, fee).world, RegistryOf(w);
      && RegistryOf(w') == r.(metadata := r.metadata[t := uri], version := r.version[t := VersionOf(w, t) + 1])
      && (forall u :: Issued(w'.log, u) == Issued(w.log, u))
  {
    hide FeesFor, SetMetadataStep, VersionOf, MetadataPrepared, RegistryOf, Issued;
    MetadataDone(w, t, admin, uri, pay, fee);
    MetadataPreparedInvisible(w, t);
    var w1 := MetadataPrepared(w, t);
    var effects := FeesFor(w.split, w.st.treasury, admin, w.st.metadataFee, fee).effects;
    PutMetadata(w1, t, uri, VersionOf(w, t) + 1);
    LogOnly(w1.(pers := w1.pers.(metadata := w1.pers.metadata[t := uri],
                                 metadataVersion := w1.pers.metadataVersion[t := VersionOf(w, t) + 1])),
            w.log + effects);
    ChargingIsOnlyFees(w, admin, w.st.metadataFee, fee);
  }

  lemma SetSupplyRegistry(w: World, t: Address, total: int)
    ensures RegistryOf(SetSupply(w, t, total)) == RegistryOf(w).(supply := RegistryOf(w).supply[t := total])
  {
    hide PromotePers, PromoteInst;
    TouchesAreInvisible(w, t, 0);
    var w1 := TouchSupply(w, t);
    MergePut(w1.inst.supply, w1.pers.supply, t, total);
  }

  /** A token's cap as a reader finds it. */
  function CapOf(r: Registry, t: Address): Option<I128> {
    if t in r.index && r.index[t] in r.info then r.info[r.index[t]].maxSupply else None
  }

  lemma RegisteredReads(w: World, t: Address)
    ensures var r := RegistryOf(w);
      && (Registered(w, t).Some? <==> t in r.index && r.index[t] in r.info)
      && (Registered(w, t).Some? ==> Registered(w, t).value == (r.index[t], r.info[r.index[t]]))
  {
  }

  lemma SupplyReads(w: World, t: Address)
    ensures SupplyOf(w, t) == if t in RegistryOf(w).supply then RegistryOf(w).supply[t] else 0
  {
  }

  lemma MintPreparedRegistry(w: World, t: Address, amount: int)
    requires Registered(w, t).Some?
    ensures var r := RegistryOf(w);
      && RegistryOf(MintPrepared(w, t, amount)) ==
        (if Registered(w, t).value.1.maxSupply.Some? then r.(supply := r.supply[t := SupplyOf(w, t) + amount]) else r)
      && MintPrepared(w, t, amount).log == w.log
  {
    hide RegistryOf, Registered, SupplyOf, PromotePers, PromoteInst;
    RegisteredTouchIsInvisible(w, t);
    TouchesAreInvisible(TouchRegistered(w, t), t, 0);
    SetSupplyRegistry(TouchOwner(TouchRegistered(w, t), t), t, SupplyOf(w, t) + amount);
  }

  lemma MintDone(w: World, t: Address, admin: Address, to: Address, amount: I128, pay: I128, fee: FeeScript,
                 mint: Callee)
    requires MintStep(w, t, admin, to, amount, pay, fee, mint).reply.Done?
    ensures MintRefusal(w, t, admin, amount, pay).None? && Registered(w, t).Some?
    ensures FeesFor(w.split, w.st.treasury, admin, w.st.baseFee, fee).Charged?
    ensures var w1, fees := MintPrepared(w, t, amount), FeesFor(w.split, w.st.treasury, admin, w.st.baseFee, fee);
      MintStep(w, t, admin, to, amount, pay, fee, mint).world ==
        w1.(log := w.log + fees.effects + [Mint(t, to, amount)])
  {
    hide FeesFor, MintPrepared, SupplyOf;
  }

  /** A successful `mint_tokens` raises the counter of a capped token within its cap. */
  lemma MintRegistry(w: World, t: Address, admin: Address, to: Address, amount: I128, pay: I128, fee: FeeScript,
                     mint: Callee)
    requires MintStep(w, t, admin, to, amount, pay, fee, mint).reply.Done?
    ensures var w', r := MintStep(w, t, admin, to, amount, pay, fee, mint).world, RegistryOf(w);
      && t in r.index && r.index[t] in r.info && amount > 0
      && (CapOf(r, t).None? ==> RegistryOf(w') == r)
      && (CapOf(r, t).Some? ==>
        var total := (if t in r.supply then r.supply[t] else 0) + amount;
        total <= CapOf(r, t).value && RegistryOf(w') == r.(supply := r.supply[t := total]))
  {
    hide FeesFor, MintPrepared, MintStep, MintRefusal, Registered, SupplyOf, RegistryOf;
    MintDone(w, t, admin, to, amount, pay, fee, mint);
    MintFacts(w, t, admin, amount, pay);
    RegisteredReads(w, t);
    SupplyReads(w, t);
    MintPreparedRegistry(w, t, amount);
    var effects := FeesFor(w.split, w.st.treasury, admin, w.st.baseFee, fee).effects;
    LogOnly(MintPrepared(w, t, amount), w.log + effects + [Mint(t, to, amount)]);
  }

  /** A successful `mint_tokens` issues exactly `amount` of that token. */
  lemma MintIssues(w: World, t: Address, admin: Address, to: Address, amount: I128, pay: I128, fee: FeeScript,
                   mint: Callee)
    requires MintStep(w, t, admin, to, amount, pay, fee, mint).reply.Done?
    ensures forall u ::
      Issued(MintStep(w, t, admin, to, amount, pay, fee, mint).world.log, u) ==
        Issued(w.log, u) + if u == t then amount else 0
  {
    hide FeesFor, MintPrepared, MintStep, MintRefusal, Registered, Issued;
    MintDone(w, t, admin, to, amount, pay, fee, mint);
    var effects := FeesFor(w.split, w.st.treasury, admin, w.st.baseFee, fee).effects;
    forall u
      ensures Issued(w.log + effects + [Mint(t, to, amount)], u) == Issued(w.log, u) + if u == t then amount else 0
    {
      FeesIssueNothing(w.split, w.st.treasury, admin, w.st.baseFee, fee, u);
      IssuedConcat(w.log, effects, u);
      IssuedConcat(w.log + effects, [Mint(t, to, amount)], u);
      SingleIssues([Mint(t, to, amount)], u);
    }
  }

  lemma MintFacts(w: World, t: Address, admin: Address, amount: I128, pay: I128)
    requires MintRefusal(w, t, admin, amount, pay).None?
    ensures amount > 0 && Registered(w, t).Some?
    ensures Registered(w, t).value.1.maxSupply.Some? ==>
      SupplyOf(w, t) + amount <= Registered(w, t).value.1.maxSupply.value
  {
  }

  /** The registry does not depend on the log. */
  lemma LogOnly(w: World, log: seq<Effect>)
    ensures RegistryOf(w.(log := log)) == RegistryOf(w)
  {
  }

  lemma BurnToggleDone(w: World, t: Address, admin: Address, enabled: bool)
    requires SetBurnEnabledStep(w, t, admin, enabled).reply.Done?
    ensures Registered(w, t).Some?
    ensures var w2, (i, info) := TouchRegistered(TouchOwner(w, t), t), Registered(w, t).value;
      SetBurnEnabledStep(w, t, admin, enabled).world ==
        w2.(pers := w2.pers.(tokenInfo := w2.pers.tokenInfo[i := info.(burnEnabled := enabled)]))
  {
    hide Registered, TouchRegistered, TouchOwner, OwnerOf;
  }

  /** A successful `set_burn_enabled` edits that one flag of the record. */
  lemma BurnToggleRegistry(w: World, t: Address, admin: Address, enabled: bool)
    requires SetBurnEnabledStep(w, t, admin, enabled).reply.Done?
    ensures var w', r := SetBurnEnabledStep(w, t, admin, enabled).world, RegistryOf(w);
      && t in r.index && r.index[t] in r.info
      && RegistryOf(w') == r.(info := r.info[r.index[t] := r.info[r.index[t]].(burnEnabled := enabled)])
      && w'.log == w.log
  {
    hide Registered, TouchRegistered, TouchOwner, SetBurnEnabledStep, RegistryOf;
    BurnToggleDone(w, t, admin, enabled);
    RegisteredReads(w, t);
    var w1 := TouchOwner(w, t);
    TouchesAreInvisible(w, t, 0);
    RegisteredTouchIsInvisible(w1, t);
    TouchLogs(w, t);
    TouchLogs(w1, t);
    var (i, info) := Registered(w, t).value;
    PutInfo(TouchRegistered(w1, t), i, info.(burnEnabled := enabled));
  }

  lemma TouchLogs(w: World, t: Address)
    ensures TouchOwner(w, t).log == w.log && TouchRegistered(w, t).log == w.log
    ensures TouchOwner(w, t).st == w.st && TouchRegistered(w, t).st == w.st
  {
  }

  // ---- Creation ----

  lemma CreateDone(w: World, creator: Address, item: Item, pay: I128, fee: FeeScript)
    requires CreateTokenStep(w, creator, item, pay, fee).reply.Done?
    ensures ParamsError(item.params).None?
    ensures FeesFor(w.split, w.st.treasury, creator, w.st.baseFee, fee).Charged?
    ensures var w1 := w.(log := w.log + FeesFor(w.split, w.st.treasury, creator, w.st.baseFee, fee).effects);
      && RecordError(w1, creator, item).None?
      && CreateTokenStep(w, creator, item, pay, fee) ==
        Turn(RegisterToken(w1, creator, item.params), Done([Derived(creator, item.params.salt)]))
  {
    hide FeesFor, RegisterToken, RecordError, ParamsError, WhitelistError;
  }

  /** A successful `create_token` adds exactly one new token. */
  lemma CreateRegistry(w: World, creator: Address, item: Item, pay: I128, fee: FeeScript)
    requires CreateTokenStep(w, creator, item, pay, fee).reply.Done?
    ensures var w' := CreateTokenStep(w, creator, item, pay, fee).world;
      && ParamsError(item.params).None?
      && Derived(creator, item.params.salt) !in RegistryOf(w).deployed
      && RegistryOf(w') == AddToken(RegistryOf(w), creator, item.params)
      && (forall t :: Issued(w'.log, t) == Issued(w.log, t) + Initial(creator, item.params, t))
  {
    CreateDone(w, creator, item, pay, fee);
    hide FeesFor, RegisterToken, Issued, ParamsError, AddToken, CreateTokenStep, Initial;
    var w1 := w.(log := w.log + FeesFor(w.split, w.st.treasury, creator, w.st.baseFee, fee).effects);
    ChargingIsOnlyFees(w, creator, w.st.baseFee, fee);
    RegisterIsAdd(w1, creator, item.params);
    forall t
      ensures Issued(RegisterToken(w1, creator, item.params).log, t) ==
        Issued(w.log, t) + Initial(creator, item.params, t)
    {
      RegisterIssues(w1, creator, item.params, t);
    }
  }

  lemma BatchDone(w: World, creator: Address, items: seq<Item>, pay: I128, fee: FeeScript)
    requires CreateBatchStep(w, creator, items, pay, fee).reply.Done?
    ensures BatchFee(w, |items|) <= I128_MAX && BatchParamsError(items, |items|).None?
    ensures RecordAll(w, creator, items, |items|).Recorded?
    ensures FeesFor(w.split, w.st.treasury, creator, BatchFee(w, |items|), fee).Charged?
    ensures var batch := RecordAll(w, creator, items, |items|);
      CreateBatchStep(w, creator, items, pay, fee) == Turn(
        batch.world.(log := batch.world.log +
          FeesFor(w.split, w.st.treasury, creator, BatchFee(w, |items|), fee).effects),
        Done(batch.tokens))
  {
    hide FeesFor, RecordAll, BatchParamsError, WhitelistError, BatchFee;
  }
}
