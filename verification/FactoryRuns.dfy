/**
 * Safety over whole runs: whatever calls are made, by whomever, with whatever
 * external contracts do, the registry stays consistent, records stay in one
 * tier, and a capped token's issued supply stays within its cap.
 */
module FactoryRuns {
  import opened Common
  import FeeSplit
  import opened CreatorPages
  import opened FactoryModel
  import opened FactoryRegistry
  import opened FactorySteps
  import opened FactoryMigration

  // ---- The capped-supply counter ----

  /**
   * The counter of a capped token covers everything issued and stays within
   * the cap; until a back-fill raises it, it is exactly what was issued.
   */
  ghost predicate Capped(r: Registry, log: seq<Effect>, t: Address, cap: I128) {
    && t in r.supply && Issued(log, t) <= r.supply[t] <= cap
    && (!(t in r.backfilled && r.backfilled[t]) ==> r.supply[t] == Issued(log, t))
  }

  /** Every capped token registered by this code (index above `base`) is covered. */
  ghost predicate SupplyCovered(r: Registry, log: seq<Effect>, base: nat) {
    forall t :: t in r.index && r.index[t] > base && CapOf(r, t).Some? ==> Capped(r, log, t, CapOf(r, t).value)
  }

  ghost predicate OnlyDeployedIssued(r: Registry, log: seq<Effect>) {
    forall t :: t !in r.deployed ==> Issued(log, t) == 0
  }

  ghost predicate SupplySafe(r: Registry, log: seq<Effect>, base: nat) {
    SupplyCovered(r, log, base) && OnlyDeployedIssued(r, log)
  }

  ghost predicate SameIssued(log: seq<Effect>, log': seq<Effect>) {
    forall t :: Issued(log', t) == Issued(log, t)
  }

  lemma AddKeepsSupply(r: Registry, base: nat, creator: Address, p: TokenParams, log: seq<Effect>, log': seq<Effect>)
    requires SupplySafe(r, log, base) && KeysDeployed(r) && IndicesDistinct(r)
    requires ParamsError(p).None? && Derived(creator, p.salt) !in r.deployed
    requires forall t :: Issued(log', t) == Issued(log, t) + Initial(creator, p, t)
    ensures SupplySafe(AddToken(r, creator, p), log', base)
  {
    hide Appended, Issued;
    var r', token := AddToken(r, creator, p), Derived(creator, p.salt);
    forall t | t in r'.index && r'.index[t] > base && CapOf(r', t).Some?
      ensures Capped(r', log', t, CapOf(r', t).value)
    {
      if t != token {
        assert t in r.index && r.index[t] <= r.count;
        assert CapOf(r', t) == CapOf(r, t);
        assert Capped(r, log, t, CapOf(r, t).value);
      } else {
        assert t !in r.backfilled.Keys;
        assert Issued(log, t) == 0;
      }
    }
  }

  lemma MintKeepsSupply(r: Registry, base: nat, t: Address, amount: int, log: seq<Effect>, log': seq<Effect>)
    requires SupplySafe(r, log, base) && KeysDeployed(r) && t in r.index && amount > 0
    requires CapOf(r, t).Some? ==> (if t in r.supply then r.supply[t] else 0) + amount <= CapOf(r, t).value
    requires forall u :: Issued(log', u) == Issued(log, u) + if u == t then amount else 0
    ensures
      var r' := if CapOf(r, t).None? then r
                else r.(supply := r.supply[t := (if t in r.supply then r.supply[t] else 0) + amount]);
      SupplySafe(r', log', base)
  {
    hide Issued;
    var r' := if CapOf(r, t).None? then r
              else r.(supply := r.supply[t := (if t in r.supply then r.supply[t] else 0) + amount]);
    forall u | u in r'.index && r'.index[u] > base && CapOf(r', u).Some?
      ensures Capped(r', log', u, CapOf(r', u).value)
    {
      assert CapOf(r', u) == CapOf(r, u);
      assert Capped(r, log, u, CapOf(r, u).value);
    }
    assert t in r.index.Keys;
  }

  lemma BackfillKeepsSupply(r: Registry, base: nat, t: Address, verified: int, log: seq<Effect>)
    requires SupplySafe(r, log, base) && t in r.index
    requires CapOf(r, t).Some? && verified <= CapOf(r, t).value
    ensures
      var current := if t in r.supply then r.supply[t] else 0;
      var r' := r.(supply := if verified > current then r.supply[t := verified] else r.supply,
                   backfilled := r.backfilled[t := true]);
      SupplySafe(r', log, base)
  {
    hide Issued;
    var current := if t in r.supply then r.supply[t] else 0;
    var r' := r.(supply := if verified > current then r.supply[t := verified] else r.supply,
                 backfilled := r.backfilled[t := true]);
    forall u | u in r'.index && r'.index[u] > base && CapOf(r', u).Some?
      ensures Capped(r', log, u, CapOf(r', u).value)
    {
      assert CapOf(r', u) == CapOf(r, u);
      assert Capped(r, log, u, CapOf(r, u).value);
    }
  }

  // ---- Consistency under the other registry edits ----

  lemma FlagKeepsConsistent(r: Registry, base: nat, i: nat, enabled: bool)
    requires Consistent(r, base) && i in r.info
    ensures Consistent(r.(info := r.info[i := r.info[i].(burnEnabled := enabled)]), base)
  {
    hide ValidLists, TokensOf;
    var r' := r.(info := r.info[i := r.info[i].(burnEnabled := enabled)]);
    forall c: Address ensures ListSound(r', c) { assert ListSound(r, c); }
    forall j | base < j <= r'.count && j in r'.info ensures Listed(r'.lists, r'.info[j].creator, j) {
      assert Listed(r.lists, r.info[j].creator, j);
    }
  }

  lemma FlagKeepsSupply(r: Registry, log: seq<Effect>, base: nat, i: nat, enabled: bool)
    requires SupplySafe(r, log, base) && i in r.info
    ensures SupplySafe(r.(info := r.info[i := r.info[i].(burnEnabled := enabled)]), log, base)
  {
    hide Issued;
    var r' := r.(info := r.info[i := r.info[i].(burnEnabled := enabled)]);
    forall u | u in r'.index && r'.index[u] > base && CapOf(r', u).Some?
      ensures Capped(r', log, u, CapOf(r', u).value)
    {
      assert CapOf(r', u) == CapOf(r, u);
      assert Capped(r, log, u, CapOf(r, u).value);
    }
  }

  lemma AddressKeepsConsistent(r: Registry, base: nat, t: Address)
    requires Consistent(r, base) && t in r.index
    ensures Consistent(r.(address := r.address[r.index[t] := t]), base)
  {
    hide ValidLists, ListsSound, ListsComplete;
    var r' := r.(address := r.address[r.index[t] := t]);
    SameLists(r, r', base);
    forall i | base < i <= r'.count ensures i in r'.address && i in r'.info && r'.address[i] in r'.owner {
      if i == r.index[t] {
        // the address already on record for a new index is this one
        assert r.address[i] in r.index && r.index[r.address[i]] == i;
        assert r.address[i] == t;
      }
    }
  }

  lemma SameLists(r: Registry, r': Registry, base: nat)
    requires r'.lists == r.lists && r'.count == r.count && r'.info == r.info
    ensures ListsSound(r) ==> ListsSound(r')
    ensures ListsComplete(r, base) ==> ListsComplete(r', base)
  {
    hide TokensOf, SoundList, Listed;
    if ListsSound(r) {
      forall c: Address ensures ListSound(r', c) { assert ListSound(r, c); }
    }
  }

  /** Consistency does not look at supply, back-fill marks, metadata or the whitelist beyond their keys. */
  lemma OtherFieldsKeepConsistent(r: Registry, r': Registry, base: nat)
    requires Consistent(r, base) && KeysDeployed(r')
    requires r' == r.(supply := r'.supply, backfilled := r'.backfilled, metadata := r'.metadata, version := r'.version,
                      frozen := r'.frozen, whitelist := r'.whitelist)
    ensures Consistent(r', base)
  {
    SameLists(r, r', base);
    hide ValidLists, ListsSound, ListsComplete;
  }

  lemma OtherFieldsKeepSupply(r: Registry, r': Registry, log: seq<Effect>, log': seq<Effect>, base: nat)
    requires SupplySafe(r, log, base) && SameIssued(log, log')
    requires r' == r.(address := r'.address, metadata := r'.metadata, version := r'.version, frozen := r'.frozen,
      whitelist := r'.whitelist)
    ensures SupplySafe(r', log', base)
  {
    hide Issued;
    forall u | u in r'.index && r'.index[u] > base && CapOf(r', u).Some?
      ensures Capped(r', log', u, CapOf(r', u).value)
    {
      assert CapOf(r', u) == CapOf(r, u);
      assert Capped(r, log, u, CapOf(r, u).value);
    }
  }

  // ---- The invariant of every run ----

  ghost predicate Inv(w: World, base: nat) {
    WellFormed(w) && Tiers(w) && Consistent(RegistryOf(w), base) && SupplySafe(RegistryOf(w), w.log, base)
  }

  /** A freshly constructed factory, whatever its parties, fees and wasm. */
  function Constructed(admin: Address, treasury: Address, feeToken: Address, wasm: nat, baseFee: Amount,
                       metadataFee: Amount, ledger: nat): World {
    var tier := Tier(map[], map[], map[], map[], map[], map[], map[], map[], map[], map[]);
    World(FactoryState(admin, false, false, treasury, feeToken, baseFee, metadataFee, wasm, 0, CURRENT_SCHEMA_VERSION,
                       false, None, None, None, None),
          tier, tier, Lists(map[], map[], map[]), [], CURRENT_SCHEMA_VERSION, 0, {}, [], ledger)
  }

  lemma ConstructedInv(admin: Address, treasury: Address, feeToken: Address, wasm: nat, baseFee: Amount,
                       metadataFee: Amount, ledger: nat)
    ensures Inv(Constructed(admin, treasury, feeToken, wasm, baseFee, metadataFee, ledger), 0)
  {
    var w := Constructed(admin, treasury, feeToken, wasm, baseFee, metadataFee, ledger);
    var r := RegistryOf(w);
    forall c: Address ensures ListSound(r, c) { assert TokensOf(r.lists, c) == []; }
  }

  // ---- Every call keeps the tiers apart ----

  lemma {:induction false} RecordAllKeepsTiers(w: World, creator: Address, items: seq<Item>, n: nat)
    requires Tiers(w) && n <= |items|
    ensures RecordAll(w, creator, items, n).Recorded? ==> Tiers(RecordAll(w, creator, items, n).world)
  {
    hide Tiers, RegisterToken, RecordError;
    if n > 0 && RecordAll(w, creator, items, n).Recorded? {
      RecordAllKeepsTiers(w, creator, items, n - 1);
      RegisterKeepsTiers(RecordAll(w, creator, items, n - 1).world, creator, items[n - 1].params);
    }
  }

  lemma LogKeepsTiers(w: World, log: seq<Effect>)
    requires Tiers(w)
    ensures Tiers(w.(log := log))
  {
  }

  lemma CreateKeepsTiers(w: World, creator: Address, item: Item, pay: I128, fee: FeeScript)
    requires Tiers(w) && CreateTokenStep(w, creator, item, pay, fee).reply.Done?
    ensures Tiers(CreateTokenStep(w, creator, item, pay, fee).world)
  {
    hide Tiers, RegisterToken, RecordError, FeesFor, CreateTokenStep, ParamsError;
    CreateDone(w, creator, item, pay, fee);
    var log := w.log + FeesFor(w.split, w.st.treasury, creator, w.st.baseFee, fee).effects;
    LogKeepsTiers(w, log);
    RegisterKeepsTiers(w.(log := log), creator, item.params);
  }

  lemma BatchKeepsTiers(w: World, creator: Address, items: seq<Item>, pay: I128, fee: FeeScript)
    requires Tiers(w) && CreateBatchStep(w, creator, items, pay, fee).reply.Done?
    ensures Tiers(CreateBatchStep(w, creator, items, pay, fee).world)
  {
    hide Tiers, RecordAll, FeesFor, CreateBatchStep, BatchParamsError;
    BatchDone(w, creator, items, pay, fee);
    RecordAllKeepsTiers(w, creator, items, |items|);
    var w1 := RecordAll(w, creator, items, |items|).world;
    LogKeepsTiers(w1, w1.log + FeesFor(w.split, w.st.treasury, creator, BatchFee(w, |items|), fee).effects);
  }

  lemma MetadataKeepsTiers(w: World, t: Address, admin: Address, uri: string, pay: I128, fee: FeeScript)
    requires Tiers(w) && SetMetadataStep(w, t, admin, uri, pay, fee).reply.Done?
    ensures Tiers(SetMetadataStep(w, t, admin, uri, pay, fee).world)
  {
    hide FeesFor, SetMetadataStep, VersionOf, TouchOwner, TouchFrozen, TouchVersion;
    MetadataDone(w, t, admin, uri, pay, fee);
    TouchKeepsTiers(w, t, 0);
    TouchKeepsTiers(TouchOwner(w, t), t, 0);
    TouchKeepsTiers(TouchFrozen(TouchOwner(w, t), t), t, 0);
  }

  lemma MintKeepsTiers(w: World, t: Address, admin: Address, to: Address, amount: I128, pay: I128, fee: FeeScript,
                       mint: Callee)
    requires Tiers(w) && MintStep(w, t, admin, to, amount, pay, fee, mint).reply.Done?
    ensures Tiers(MintStep(w, t, admin, to, amount, pay, fee, mint).world)
  {
    hide FeesFor, MintStep, SupplyOf, TouchOwner, TouchRegistered, SetSupply, Registered, MintRefusal, Tiers;
    MintDone(w, t, admin, to, amount, pay, fee, mint);
    RegisteredTouchKeepsTiers(w, t);
    TouchKeepsTiers(TouchRegistered(w, t), t, 0);
    SupplyWriteKeepsTiers(TouchOwner(TouchRegistered(w, t), t), t, SupplyOf(w, t) + amount);
    LogKeepsTiers(MintPrepared(w, t, amount), MintStep(w, t, admin, to, amount, pay, fee, mint).world.log);
  }

  lemma SupplyWriteKeepsTiers(w: World, t: Address, total: int)
    requires Tiers(w)
    ensures Tiers(SetSupply(w, t, total))
  {
    hide PromotePers, PromoteInst;
  }

  lemma ToggleKeepsTiers(w: World, t: Address, admin: Address, enabled: bool)
    requires Tiers(w) && SetBurnEnabledStep(w, t, admin, enabled).reply.Done?
    ensures Tiers(SetBurnEnabledStep(w, t, admin, enabled).world)
  {
    RegisteredParts(w, t);
    hide SetBurnEnabledStep, TouchOwner, TouchRegistered, Tiers, Registered, InfoAt, IndexOf;
    BurnToggleDone(w, t, admin, enabled);
    var (i, info) := Registered(w, t).value;
    TouchKeepsTiers(w, t, 0);
    RegisteredTouchKeepsTiers(TouchOwner(w, t), t);
    RewriteKeepsTiers(TouchRegistered(TouchOwner(w, t), t), i, info.(burnEnabled := enabled));
  }

  lemma RegisteredParts(w: World, t: Address)
    ensures var w1 := TouchOwner(w, t);
      Registered(w, t).Some? ==>
        IndexOf(w1, t) == Some(Registered(w, t).value.0) && InfoAt(w1, Registered(w, t).value.0).Some?
  {
  }

  lemma {:induction false} StepKeepsTiers(w: World, c: Call)
    requires Tiers(w)
    ensures Tiers(Step(w, c).world)
    decreases c, 1
  {
    hide Tiers, CreateTokenStep, CreateBatchStep, SetMetadataStep, MintStep, SetBurnEnabledStep, BurnRefusal,
      TouchRegistered;
    FailureIsSilent(w, c);
    if Step(w, c).reply.Done? {
      match c
      case CreateToken(creator, item, pay, fee) => CreateKeepsTiers(w, creator, item, pay, fee);
      case CreateTokensBatch(creator, items, pay, fee) => BatchKeepsTiers(w, creator, items, pay, fee);
      case SetMetadata(t, admin, uri, pay, fee) => MetadataKeepsTiers(w, t, admin, uri, pay, fee);
      case MintTokens(t, admin, to, amount, pay, fee, mint) => MintKeepsTiers(w, t, admin, to, amount, pay, fee, mint);
      case SetBurnEnabled(t, admin, enabled) => ToggleKeepsTiers(w, t, admin, enabled);
      case Burn(t, from, amount, _, k, _) =>
        RegisteredTouchKeepsTiers(w, t);
        ReenterKeepsTiers(TouchRegistered(w, t), k, |k.reenter|);
        var w1 := Reenter(TouchRegistered(w, t), k, |k.reenter|);
        LogKeepsTiers(w1, w1.log + [Burned(t, from, amount)]);
    }
  }

  lemma {:induction false} ReenterKeepsTiers(w: World, k: Callee, n: nat)
    requires Tiers(w) && n <= |k.reenter|
    ensures Tiers(Reenter(w, k, n))
    decreases k, n
  {
    hide Tiers, Step;
    if n > 0 {
      ReenterKeepsTiers(w, k, n - 1);
      StepKeepsTiers(Reenter(w, k, n - 1), k.reenter[n - 1]);
    }
  }

  // ---- Every call keeps the registry consistent and the supply covered ----

  ghost predicate Safe(w: World, base: nat) {
    Consistent(RegistryOf(w), base) && SupplySafe(RegistryOf(w), w.log, base)
  }

  lemma CreateKeepsSafe(w: World, base: nat, creator: Address, item: Item, pay: I128, fee: FeeScript)
    requires Safe(w, base) && CreateTokenStep(w, creator, item, pay, fee).reply.Done?
    ensures Safe(CreateTokenStep(w, creator, item, pay, fee).world, base)
  {
    hide CreateTokenStep, RegistryOf, SupplySafe, AddToken, ParamsError, Issued;
    CreateRegistry(w, creator, item, pay, fee);
    AddKeepsConsistent(RegistryOf(w), base, creator, item.params);
    AddKeepsSupply(RegistryOf(w), base, creator, item.params, w.log,
      CreateTokenStep(w, creator, item, pay, fee).world.log);
    hide Consistent;
  }

  lemma RegisterKeepsSafe(w: World, base: nat, creator: Address, item: Item)
    requires Safe(w, base) && RecordError(w, creator, item).None? && ParamsError(item.params).None?
    ensures Safe(RegisterToken(w, creator, item.params), base)
  {
    var p := item.params;
    assert Derived(creator, p.salt) !in RegistryOf(w).deployed;
    hide RegisterToken, RegistryOf, SupplySafe, AddToken, ParamsError, Issued, RecordError, Initial;
    RegisterIsAdd(w, creator, p);
    forall t ensures Issued(RegisterToken(w, creator, p).log, t) == Issued(w.log, t) + Initial(creator, p, t) {
      RegisterIssues(w, creator, p, t);
    }
    AddKeepsConsistent(RegistryOf(w), base, creator, p);
    AddKeepsSupply(RegistryOf(w), base, creator, p, w.log, RegisterToken(w, creator, p).log);
    hide Consistent;
  }

  lemma {:induction false} RecordAllKeepsSafe(w: World, base: nat, creator: Address, items: seq<Item>, n: nat)
    requires Safe(w, base) && n <= |items| && BatchParamsError(items, n).None?
    ensures RecordAll(w, creator, items, n).Recorded? ==> Safe(RecordAll(w, creator, items, n).world, base)
  {
    hide Safe, RegisterToken, RecordError, ParamsError;
    if n > 0 && RecordAll(w, creator, items, n).Recorded? {
      RecordAllKeepsSafe(w, base, creator, items, n - 1);
      RegisterKeepsSafe(RecordAll(w, creator, items, n - 1).world, base, creator, items[n - 1]);
    }
  }

  lemma LogKeepsSafe(w: World, base: nat, log: seq<Effect>)
    requires Safe(w, base) && SameIssued(w.log, log)
    ensures Safe(w.(log := log), base)
  {
    hide RegistryOf, Consistent, Issued, SupplySafe;
    LogOnly(w, log);
    OtherFieldsKeepSupply(RegistryOf(w), RegistryOf(w), w.log, log, base);
  }

  lemma BatchKeepsSafe(w: World, base: nat, creator: Address, items: seq<Item>, pay: I128, fee: FeeScript)
    requires Safe(w, base) && CreateBatchStep(w, creator, items, pay, fee).reply.Done?
    ensures Safe(CreateBatchStep(w, creator, items, pay, fee).world, base)
  {
    hide Safe, RecordAll, FeesFor, CreateBatchStep, BatchParamsError, Issued;
    BatchDone(w, creator, items, pay, fee);
    RecordAllKeepsSafe(w, base, creator, items, |items|);
    var w1 := RecordAll(w, creator, items, |items|).world;
    var effects := FeesFor(w.split, w.st.treasury, creator, BatchFee(w, |items|), fee).effects;
    forall t ensures Issued(w1.log + effects, t) == Issued(w1.log, t) {
      FeesIssueNothing(w.split, w.st.treasury, creator, BatchFee(w, |items|), fee, t);
      IssuedConcat(w1.log, effects, t);
    }
    LogKeepsSafe(w1, base, w1.log + effects);
  }

  lemma MetadataKeepsSafe(w: World, base: nat, t: Address, admin: Address, uri: string, pay: I128, fee: FeeScript)
    requires Safe(w, base) && SetMetadataStep(w, t, admin, uri, pay, fee).reply.Done?
    ensures Safe(SetMetadataStep(w, t, admin, uri, pay, fee).world, base)
  {
    hide SetMetadataStep, RegistryOf, SupplySafe, Issued, VersionOf, ListsSound, ListsComplete;
    MetadataRegistry(w, t, admin, uri, pay, fee);
    var w' := SetMetadataStep(w, t, admin, uri, pay, fee).world;
    OtherFieldsKeepConsistent(RegistryOf(w), RegistryOf(w'), base);
    OtherFieldsKeepSupply(RegistryOf(w), RegistryOf(w'), w.log, w'.log, base);
  }

  lemma MintKeepsSafe(w: World, base: nat, t: Address, admin: Address, to: Address, amount: I128, pay: I128,
                      fee: FeeScript, mint: Callee)
    requires Safe(w, base) && MintStep(w, t, admin, to, amount, pay, fee, mint).reply.Done?
    ensures Safe(MintStep(w, t, admin, to, amount, pay, fee, mint).world, base)
  {
    hide MintStep, RegistryOf, SupplySafe, Issued, ListsSound, ListsComplete;
    MintRegistry(w, t, admin, to, amount, pay, fee, mint);
    MintIssues(w, t, admin, to, amount, pay, fee, mint);
    var r, w' := RegistryOf(w), MintStep(w, t, admin, to, amount, pay, fee, mint).world;
    MintKeepsSupply(r, base, t, amount, w.log, w'.log);
    assert t in r.index.Keys;
    OtherFieldsKeepConsistent(r, RegistryOf(w'), base);
  }

  lemma ToggleKeepsSafe(w: World, base: nat, t: Address, admin: Address, enabled: bool)
    requires Safe(w, base) && SetBurnEnabledStep(w, t, admin, enabled).reply.Done?
    ensures Safe(SetBurnEnabledStep(w, t, admin, enabled).world, base)
  {
    hide SetBurnEnabledStep, RegistryOf, SupplySafe, Consistent;
    BurnToggleRegistry(w, t, admin, enabled);
    var r := RegistryOf(w);
    FlagKeepsConsistent(r, base, r.index[t], enabled);
    FlagKeepsSupply(r, w.log, base, r.index[t], enabled);
  }

  lemma BurnedIssuesNothing(log: seq<Effect>, t: Address, from: Address, amount: int)
    ensures SameIssued(log, log + [Burned(t, from, amount)])
  {
    hide Issued;
    forall u ensures Issued(log + [Burned(t, from, amount)], u) == Issued(log, u) {
      IssuedConcat(log, [Burned(t, from, amount)], u);
      SingleIssues([Burned(t, from, amount)], u);
    }
  }

  lemma TouchKeepsSafe(w: World, base: nat, t: Address)
    requires Safe(w, base)
    ensures Safe(TouchRegistered(w, t), base)
  {
    hide RegistryOf, Consistent, SupplySafe, TouchRegistered;
    RegisteredTouchIsInvisible(w, t);
    TouchLogs(w, t);
  }

  lemma {:induction false} StepKeepsSafe(w: World, base: nat, c: Call)
    requires Safe(w, base)
    ensures Safe(Step(w, c).world, base)
    decreases c, 1
  {
    hide Safe, CreateTokenStep, CreateBatchStep, SetMetadataStep, MintStep, SetBurnEnabledStep, BurnRefusal,
      TouchRegistered;
    FailureIsSilent(w, c);
    if Step(w, c).reply.Done? {
      match c
      case CreateToken(creator, item, pay, fee) => CreateKeepsSafe(w, base, creator, item, pay, fee);
      case CreateTokensBatch(creator, items, pay, fee) => BatchKeepsSafe(w, base, creator, items, pay, fee);
      case SetMetadata(t, admin, uri, pay, fee) => MetadataKeepsSafe(w, base, t, admin, uri, pay, fee);
      case MintTokens(t, admin, to, amount, pay, fee, mint) =>
        MintKeepsSafe(w, base, t, admin, to, amount, pay, fee, mint);
      case SetBurnEnabled(t, admin, enabled) => ToggleKeepsSafe(w, base, t, admin, enabled);
      case Burn(t, from, amount, _, k, _) =>
        TouchKeepsSafe(w, base, t);
        ReenterKeepsSafe(TouchRegistered(w, t), base, k, |k.reenter|);
        var w1 := Reenter(TouchRegistered(w, t), k, |k.reenter|);
        BurnedIssuesNothing(w1.log, t, from, amount);
        LogKeepsSafe(w1, base, w1.log + [Burned(t, from, amount)]);
    }
  }

  lemma {:induction false} ReenterKeepsSafe(w: World, base: nat, k: Callee, n: nat)
    requires Safe(w, base) && n <= |k.reenter|
    ensures Safe(Reenter(w, k, n), base)
    decreases k, n
  {
    hide Safe, Step;
    if n > 0 {
      ReenterKeepsSafe(w, base, k, n - 1);
      StepKeepsSafe(Reenter(w, k, n - 1), base, k.reenter[n - 1]);
    }
  }

  // ---- The unguarded entrypoints ----

  lemma NewStateSame(w: World, c: AdminCall)
    requires c.UpdateFees? ==>
      (c.baseFee.Some? ==> c.baseFee.value >= 0) && (c.metadataFee.Some? ==> c.metadataFee.value >= 0)
    ensures var w1 := w.(st := NewState(w.st, w.ledger, c));
      RegistryOf(w1) == RegistryOf(w) && (Tiers(w) ==> Tiers(w1))
  {
    NewStateFrame(w.st, w.ledger, c);
    hide NewState;
  }

  lemma SplitSame(w: World, splits: seq<Share>)
    ensures RegistryOf(w.(split := splits)) == RegistryOf(w) && (Tiers(w) ==> Tiers(w.(split := splits)))
  {
  }

  /** A whitelist edit shows in the whitelist only. */
  lemma WhitelistEdit(w: World, inst: map<Address, bool>, pers: map<Address, bool>)
    ensures var w1 := w.(inst := w.inst.(whitelist := inst), pers := w.pers.(whitelist := pers));
      RegistryOf(w1) == RegistryOf(w).(whitelist := inst + pers) && (Tiers(w) ==> Tiers(w1))
  {
  }

  lemma PutFrozen(w: World, t: Address)
    ensures var w1 := w.(pers := w.pers.(metadataFrozen := w.pers.metadataFrozen[t := true]));
      RegistryOf(w1) == RegistryOf(w).(frozen := RegistryOf(w1).frozen) && (Tiers(w) ==> Tiers(w1))
  {
  }

  lemma PutMarks(w: World, t: Address, supply: map<Address, int>)
    ensures var w1 := w.(pers := w.pers.(supply := supply, backfilled := w.pers.backfilled[t := true]));
      && RegistryOf(w1) == RegistryOf(w).(supply := w.inst.supply + supply,
        backfilled := RegistryOf(w).backfilled[t := true])
      && (Tiers(w) ==> Tiers(w1))
  {
    MergePut(w.inst.backfilled, w.pers.backfilled, t, true);
  }

  lemma PutAddress(w: World, i: nat, t: Address)
    ensures var w1 := w.(pers := w.pers.(tokenAddress := w.pers.tokenAddress[i := t]));
      && RegistryOf(w1) == RegistryOf(w).(address := RegistryOf(w).address[i := t])
      && (Tiers(w) ==> Tiers(w1))
  {
    MergePut(w.inst.tokenAddress, w.pers.tokenAddress, i, t);
  }

  lemma FreezeRegistry(w: World, t: Address)
    ensures var w1 := FreezeWorld(w, t);
      && RegistryOf(w1) == RegistryOf(w).(frozen := RegistryOf(w1).frozen) && (Tiers(w) ==> Tiers(w1))
  {
    hide TouchFrozen, TouchOwner, RegistryOf, Tiers, Frozen;
    hide TouchIndex, TouchInfo, TouchSupply, TouchVersion, TouchBackfilled;
    TouchesAreInvisible(w, t, 0);
    TouchesAreInvisible(TouchOwner(w, t), t, 0);
    if Tiers(w) {
      TouchKeepsTiers(w, t, 0);
      TouchKeepsTiers(TouchOwner(w, t), t, 0);
    }
    PutFrozen(TouchFrozen(TouchOwner(w, t), t), t);
  }

  lemma BackfillSupplyRegistry(w: World, t: Address, verified: int)
    ensures var r, w1 := RegistryOf(w), BackfillSupplyWorld(w, t, verified);
      && RegistryOf(w1) == r.(supply := if verified > SupplyOf(w, t) then r.supply[t := verified] else r.supply,
                              backfilled := r.backfilled[t := true])
      && (Tiers(w) ==> Tiers(w1))
  {
    hide BackfillPrepared, SupplyOf, RegistryOf, Tiers;
    BackfillPreparedInvisible(w, t);
    var w1 := BackfillPrepared(w, t);
    MergePut(w1.inst.supply, w1.pers.supply, t, verified);
    SupplyField(w1);
    PutMarks(w1, t, if verified > SupplyOf(w, t) then w1.pers.supply[t := verified] else w1.pers.supply);
  }

  lemma BackfillPreparedInvisible(w: World, t: Address)
    ensures RegistryOf(BackfillPrepared(w, t)) == RegistryOf(w)
    ensures Tiers(w) ==> Tiers(BackfillPrepared(w, t))
  {
    hide TouchRegistered, TouchBackfilled, TouchSupply, RegistryOf, Tiers;
    var w1 := TouchRegistered(w, t);
    var w2 := TouchBackfilled(w1, t);
    RegisteredTouchIsInvisible(w, t);
    TouchesAreInvisible(w1, t, 0);
    TouchesAreInvisible(w2, t, 0);
    if Tiers(w) {
      RegisteredTouchKeepsTiers(w, t);
      TouchKeepsTiers(w1, t, 0);
      TouchKeepsTiers(w2, t, 0);
    }
  }

  lemma SupplyField(w: World)
    ensures RegistryOf(w).supply == w.inst.supply + w.pers.supply
  {
  }

  lemma IndexReads(w: World, t: Address)
    ensures IndexOf(w, t) == if t in RegistryOf(w).index then Some(RegistryOf(w).index[t]) else None
  {
  }

  lemma BackfillAddressRegistry(w: World, t: Address)
    requires IndexOf(w, t).Some?
    ensures var r, w1 := RegistryOf(w), BackfillAddressWorld(w, t);
      && t in r.index
      && r.index[t] in RegistryOf(w1).address
      && (RegistryOf(w1) == r || RegistryOf(w1) == r.(address := r.address[r.index[t] := t]))
      && (Tiers(w) ==> Tiers(w1))
  {
    hide TouchIndex, IndexOf, RegistryOf, Tiers;
    TouchesAreInvisible(w, t, 0);
    IndexReads(w, t);
    if Tiers(w) { TouchKeepsTiers(w, t, 0); }
    PutAddress(TouchIndex(w, t), IndexOf(w, t).value, t);
    AddressThere(w, t);
  }

  lemma AddressThere(w: World, t: Address)
    requires IndexOf(w, t).Some?
    ensures IndexOf(w, t).value in RegistryOf(BackfillAddressWorld(w, t)).address
  {
    hide IndexOf, PromotePers, PromoteInst;
  }

  lemma AdminKeepsTiers(w: World, c: AdminCall)
    requires Tiers(w)
    ensures Tiers(AdminStep(w, c).world)
  {
    hide Tiers, MigrateWorld, FreezeWorld, BackfillSupplyWorld, BackfillAddressWorld, RegistryOf;
    if AdminRefusal(w, c).None? {
      match c
      case SetFeeSplit(_, splits) => SplitSame(w, splits);
      case AddToWhitelist(_, a) => WhitelistEdit(w, w.inst.whitelist, w.pers.whitelist[a := true]);
      case RemoveFromWhitelist(_, a) => WhitelistEdit(w, w.inst.whitelist - {a}, w.pers.whitelist - {a});
      case FreezeMetadata(t, _) => FreezeRegistry(w, t);
      case Migrate(_) => MigrateInvisible(w);
      case BackfillCappedSupply(_, t, verified) => BackfillSupplyRegistry(w, t, verified);
      case BackfillTokenAddress(t) => BackfillAddressRegistry(w, t);
      case _ => NewStateSame(w, c);
    }
  }

  lemma BackfillKeepsSafe(w: World, base: nat, t: Address, verified: I128)
    requires Safe(w, base) && Registered(w, t).Some? && Registered(w, t).value.1.maxSupply.Some?
    requires verified <= Registered(w, t).value.1.maxSupply.value
    ensures Safe(BackfillSupplyWorld(w, t, verified), base)
  {
    hide RegistryOf, SupplySafe, BackfillSupplyWorld, Registered, SupplyOf, ListsSound, ListsComplete, ValidLists;
    RegisteredReads(w, t);
    SupplyReads(w, t);
    BackfillSupplyRegistry(w, t, verified);
    var r, w1 := RegistryOf(w), BackfillSupplyWorld(w, t, verified);
    TokenAdminFrame(w, t, verified);
    BackfillKeepsSupply(r, base, t, verified, w.log);
    assert t in r.index.Keys;
    OtherFieldsKeepConsistent(r, RegistryOf(w1), base);
  }

  lemma AddressKeepsSafe(w: World, base: nat, t: Address)
    requires Safe(w, base) && IndexOf(w, t).Some?
    ensures Safe(BackfillAddressWorld(w, t), base)
  {
    hide RegistryOf, SupplySafe, Consistent, BackfillAddressWorld, IndexOf;
    BackfillAddressRegistry(w, t);
    TokenAdminFrame(w, t, 0);
    var r, w1 := RegistryOf(w), BackfillAddressWorld(w, t);
    AddressKeepsConsistent(r, base, t);
    OtherFieldsKeepSupply(r, RegistryOf(w1), w.log, w1.log, base);
  }

  lemma SameRegistryKeepsSafe(w: World, base: nat, w1: World)
    requires Safe(w, base) && w1.log == w.log
    requires RegistryOf(w1) == RegistryOf(w).(frozen := RegistryOf(w1).frozen, whitelist := RegistryOf(w1).whitelist)
    ensures Safe(w1, base)
  {
    hide RegistryOf, SupplySafe, ListsSound, ListsComplete, ValidLists;
    OtherFieldsKeepConsistent(RegistryOf(w), RegistryOf(w1), base);
    OtherFieldsKeepSupply(RegistryOf(w), RegistryOf(w1), w.log, w1.log, base);
  }

  lemma AdminKeepsSafe(w: World, base: nat, c: AdminCall)
    requires Safe(w, base) && Tiers(w)
    ensures Safe(AdminStep(w, c).world, base)
  {
    hide Tiers, Safe, RegistryOf, MigrateWorld, FreezeWorld, BackfillSupplyWorld, BackfillAddressWorld;
    AdminFrame(w, c);
    if AdminRefusal(w, c).None? {
      match c
      case BackfillCappedSupply(_, t, verified) => BackfillKeepsSafe(w, base, t, verified);
      case BackfillTokenAddress(t) => AddressKeepsSafe(w, base, t);
      case _ =>
        AdminRegistry(w, c);
        SameRegistryKeepsSafe(w, base, AdminEffect(w, c));
    }
  }

  lemma AdminRegistry(w: World, c: AdminCall)
    requires AdminRefusal(w, c).None? && Tiers(w) && !c.BackfillCappedSupply? && !c.BackfillTokenAddress?
    ensures var w1 := AdminEffect(w, c);
      RegistryOf(w1) == RegistryOf(w).(frozen := RegistryOf(w1).frozen, whitelist := RegistryOf(w1).whitelist)
  {
    hide Tiers, RegistryOf, MigrateWorld, FreezeWorld;
    match c
    case SetFeeSplit(_, splits) => SplitSame(w, splits);
    case AddToWhitelist(_, a) => WhitelistEdit(w, w.inst.whitelist, w.pers.whitelist[a := true]);
    case RemoveFromWhitelist(_, a) => WhitelistEdit(w, w.inst.whitelist - {a}, w.pers.whitelist - {a});
    case FreezeMetadata(t, _) => FreezeRegistry(w, t);
    case Migrate(_) => MigrateInvisible(w);
    case _ => NewStateSame(w, c);
  }

  // ---- Runs ----

  lemma TickKeepsInv(w: World, base: nat, n: nat)
    requires Inv(w, base)
    ensures Inv(w.(ledger := w.ledger + n), base)
  {
    hide ValidLists, Consistent, SupplySafe;
    assert RegistryOf(w.(ledger := w.ledger + n)) == RegistryOf(w);
  }

  lemma InvParts(w: World, base: nat)
    ensures Inv(w, base) <==> WellFormed(w) && Tiers(w) && Safe(w, base)
  {
    hide WellFormed, Tiers, Consistent, SupplySafe, RegistryOf;
  }

  lemma ApplyKeepsInv(w: World, base: nat, e: Event)
    requires Inv(w, base)
    ensures Inv(Apply(w, e).world, base)
  {
    hide Inv, WellFormed, Tiers, Safe, Step, AdminStep;
    InvParts(w, base);
    InvParts(Apply(w, e).world, base);
    match e
    case Guarded(c) =>
      StepKeepsWellFormed(w, c);
      StepKeepsTiers(w, c);
      StepKeepsSafe(w, base, c);
    case Admin(c) =>
      AdminStepKeepsWellFormed(w, c);
      AdminKeepsTiers(w, c);
      AdminKeepsSafe(w, base, c);
    case Tick(n) => TickKeepsInv(w, base, n);
  }

  /** Every run, from any consistent start, keeps every invariant at every boundary. */
  lemma {:induction false} RunKeepsInv(w: World, base: nat, events: seq<Event>, n: nat)
    requires Inv(w, base) && n <= |events|
    ensures Inv(After(w, events, n), base)
  {
    hide Inv, Apply;
    if n > 0 {
      RunKeepsInv(w, base, events, n - 1);
      ApplyKeepsInv(After(w, events, n - 1), base, events[n - 1]);
    }
  }

  /**
   * Cap safety over every run: whatever was issued of a capped token this code
   * created, through creation, minting, burn toggling, back-fill and migration,
   * is covered by its counter and stays within its cap.
   */
  lemma IssuedNeverExceedsCap(w: World, base: nat, events: seq<Event>, t: Address)
    requires Inv(w, base)
    ensures var w' := After(w, events, |events|);
      var r := RegistryOf(w');
      t in r.index && r.index[t] > base && CapOf(r, t).Some? ==>
        Issued(w'.log, t) <= SupplyOf(w', t) <= CapOf(r, t).value
  {
    RunKeepsInv(w, base, events, |events|);
    SupplyReads(After(w, events, |events|), t);
    hide RegistryOf, After, SupplyOf, WellFormed, Tiers, Consistent, Issued;
  }
}
