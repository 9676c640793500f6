/**
 * Who may change what about a token, over every run: whatever differs after an
 * event was changed by the token's creation, by a call its owner authorised, or,
 * for the supply counter, by the factory admin's back-fill.
 */
module FactoryAccess {
  import opened Common
  import FeeSplit
  import opened CreatorPages
  import opened FactoryModel
  import opened FactoryRegistry
  import opened FactorySteps
  import opened FactoryMigration
  import opened FactoryRuns

  // ---- The calls an invocation makes ----

  /** `c` and every call made from inside it while the lock is free: those from `burn`'s balance query. */
  function Calls(c: Call): seq<Call>
    decreases c, 1
  {
    [c] + if c.Burn? then CallsOf(c.balanceCall, |c.balanceCall.reenter|) else []
  }

  function CallsOf(k: Callee, n: nat): seq<Call>
    requires n <= |k.reenter|
    decreases k, n
  {
    if n == 0 then [] else CallsOf(k, n - 1) + Calls(k.reenter[n - 1])
  }

  // ---- What there is to change ----

  function At<K, V>(m: map<K, V>, k: K): Option<V> { if k in m then Some(m[k]) else None }

  /** The record a token resolves to. */
  function RecordOf(r: Registry, t: Address): Option<TokenInfo> {
    if t in r.index && r.index[t] in r.info then Some(r.info[r.index[t]]) else None
  }

  predicate Creates(c: Call, t: Address) {
    match c
    case CreateToken(creator, item, _, _) => t == Derived(creator, item.params.salt)
    case CreateTokensBatch(creator, items, _, _) =>
      exists i :: 0 <= i < |items| && t == Derived(creator, items[i].params.salt)
    case _ => false
  }

  /** This call may issue units of `t`: it creates `t`, or its owner mints. */
  predicate MayIssue(c: Call, owner: Option<Address>, t: Address) {
    Creates(c, t) || (c.MintTokens? && c.token == t && owner == Some(c.admin))
  }

  /** This call may give `t` a URI: its owner sets its metadata. */
  predicate MayDescribe(c: Call, owner: Option<Address>, t: Address) {
    c.SetMetadata? && c.token == t && owner == Some(c.admin)
  }

  /** This call may write the record of `t`: it creates `t`, or its owner switches burns. */
  predicate MayRecord(c: Call, owner: Option<Address>, t: Address) {
    Creates(c, t) || (c.SetBurnEnabled? && c.token == t && owner == Some(c.admin))
  }

  predicate SomeIssues(calls: seq<Call>, owner: Option<Address>, t: Address) {
    exists k :: 0 <= k < |calls| && MayIssue(calls[k], owner, t)
  }

  predicate SomeDescribes(calls: seq<Call>, owner: Option<Address>, t: Address) {
    exists k :: 0 <= k < |calls| && MayDescribe(calls[k], owner, t)
  }

  predicate SomeRecords(calls: seq<Call>, owner: Option<Address>, t: Address) {
    exists k :: 0 <= k < |calls| && MayRecord(calls[k], owner, t)
  }

  /** Every difference about `t` is the work of one of `calls`, and an owner once set stays. */
  ghost predicate Attributed(r: Registry, log: seq<Effect>, r': Registry, log': seq<Effect>, calls: seq<Call>,
                             t: Address) {
    var owner := At(r'.owner, t);
    && (At(r.owner, t).Some? ==> owner == At(r.owner, t))
    && (Issued(log, t) != Issued(log', t) || At(r.supply, t) != At(r'.supply, t) ==> SomeIssues(calls, owner, t))
    && (At(r.metadata, t) != At(r'.metadata, t) || At(r.version, t) != At(r'.version, t) ==>
          SomeDescribes(calls, owner, t))
    && (RecordOf(r, t) != RecordOf(r', t) ==> SomeRecords(calls, owner, t))
  }

  lemma MoreIssue(a: seq<Call>, b: seq<Call>, owner: Option<Address>, owner': Option<Address>, t: Address)
    requires owner.Some? ==> owner' == owner
    ensures SomeIssues(a, owner, t) || SomeIssues(b, owner', t) ==> SomeIssues(a + b, owner', t)
  {
    hide Creates;
    if SomeIssues(a, owner, t) {
      var k :| 0 <= k < |a| && MayIssue(a[k], owner, t);
      assert MayIssue((a + b)[k], owner', t);
    } else if SomeIssues(b, owner', t) {
      var k :| 0 <= k < |b| && MayIssue(b[k], owner', t);
      assert MayIssue((a + b)[|a| + k], owner', t);
    }
  }

  lemma MoreDescribe(a: seq<Call>, b: seq<Call>, owner: Option<Address>, owner': Option<Address>, t: Address)
    requires owner.Some? ==> owner' == owner
    ensures SomeDescribes(a, owner, t) || SomeDescribes(b, owner', t) ==> SomeDescribes(a + b, owner', t)
  {
    if SomeDescribes(a, owner, t) {
      var k :| 0 <= k < |a| && MayDescribe(a[k], owner, t);
      assert MayDescribe((a + b)[k], owner', t);
    } else if SomeDescribes(b, owner', t) {
      var k :| 0 <= k < |b| && MayDescribe(b[k], owner', t);
      assert MayDescribe((a + b)[|a| + k], owner', t);
    }
  }

  lemma MoreRecord(a: seq<Call>, b: seq<Call>, owner: Option<Address>, owner': Option<Address>, t: Address)
    requires owner.Some? ==> owner' == owner
    ensures SomeRecords(a, owner, t) || SomeRecords(b, owner', t) ==> SomeRecords(a + b, owner', t)
  {
    hide Creates;
    if SomeRecords(a, owner, t) {
      var k :| 0 <= k < |a| && MayRecord(a[k], owner, t);
      assert MayRecord((a + b)[k], owner', t);
    } else if SomeRecords(b, owner', t) {
      var k :| 0 <= k < |b| && MayRecord(b[k], owner', t);
      assert MayRecord((a + b)[|a| + k], owner', t);
    }
  }

  lemma AttributedThen(r: Registry, log: seq<Effect>, r1: Registry, log1: seq<Effect>, r2: Registry, log2: seq<Effect>,
                       a: seq<Call>, b: seq<Call>, t: Address)
    requires Attributed(r, log, r1, log1, a, t) && Attributed(r1, log1, r2, log2, b, t)
    ensures Attributed(r, log, r2, log2, a + b, t)
  {
    hide SomeIssues, SomeDescribes, SomeRecords, Issued, RecordOf, At;
    MoreIssue(a, b, At(r1.owner, t), At(r2.owner, t), t);
    MoreDescribe(a, b, At(r1.owner, t), At(r2.owner, t), t);
    MoreRecord(a, b, At(r1.owner, t), At(r2.owner, t), t);
  }

  /** Nothing changed about `t`, so nothing needs explaining. */
  lemma Untouched(r: Registry, log: seq<Effect>, r': Registry, log': seq<Effect>, calls: seq<Call>, t: Address)
    requires At(r'.owner, t) == At(r.owner, t) && Issued(log', t) == Issued(log, t)
    requires At(r'.supply, t) == At(r.supply, t)
    requires At(r'.metadata, t) == At(r.metadata, t) && At(r'.version, t) == At(r.version, t)
    requires RecordOf(r', t) == RecordOf(r, t)
    ensures Attributed(r, log, r', log', calls, t)
  {
  }

  // ---- Call by call ----

  /** What the merged registry holds decides what the entrypoints read about a token. */
  lemma OwnerReads(w: World, t: Address)
    ensures OwnerOf(w, t) == At(RegistryOf(w).owner, t)
  {
    LookupIsMerged(w.pers.owner, w.inst.owner, t);
  }

  lemma MintIsByOwner(w: World, t: Address, admin: Address, amount: I128, pay: I128)
    requires MintRefusal(w, t, admin, amount, pay).None?
    ensures OwnerOf(w, t) == Some(admin)
  {
    hide Registered, OwnerOf, SupplyOf;
  }

  lemma MetadataIsByOwner(w: World, t: Address, admin: Address, uri: string, pay: I128, fee: FeeScript)
    requires SetMetadataStep(w, t, admin, uri, pay, fee).reply.Done?
    ensures OwnerOf(w, t) == Some(admin)
  {
    hide OwnerOf, Frozen, VersionOf, FeesFor, MetadataPrepared;
  }

  lemma ToggleIsByOwner(w: World, t: Address, admin: Address, enabled: bool)
    requires SetBurnEnabledStep(w, t, admin, enabled).reply.Done?
    ensures OwnerOf(w, t) == Some(admin)
  {
    hide OwnerOf, Registered, TouchRegistered, TouchOwner;
  }

  /** Adding a token touches no other. */
  lemma AddTouchesOnly(r: Registry, creator: Address, p: TokenParams, t: Address)
    requires KeysDeployed(r) && IndicesDistinct(r) && Derived(creator, p.salt) !in r.deployed
    ensures var r', token := AddToken(r, creator, p), Derived(creator, p.salt);
      && (t == token ==> t !in r.owner)
      && (t != token ==> At(r'.owner, t) == At(r.owner, t) && At(r'.supply, t) == At(r.supply, t))
      && (t != token ==> RecordOf(r', t) == RecordOf(r, t))
      && r'.metadata == r.metadata && r'.version == r.version
  {
    hide AddToken, RecordOf, At;
    assert Derived(creator, p.salt) !in r.owner.Keys;
    IndexInRange(r, t);
    hide KeysDeployed, IndicesDistinct;
    EntriesKept(r, creator, p, t);
    if t != Derived(creator, p.salt) { RecordKept(r, creator, p, t); }
  }

  lemma IndexInRange(r: Registry, t: Address)
    requires IndicesDistinct(r)
    ensures t in r.index ==> r.index[t] <= r.count
  {
  }

  lemma EntriesKept(r: Registry, creator: Address, p: TokenParams, t: Address)
    ensures var r' := AddToken(r, creator, p);
      && (t != Derived(creator, p.salt) ==> At(r'.owner, t) == At(r.owner, t) && At(r'.supply, t) == At(r.supply, t))
      && r'.metadata == r.metadata && r'.version == r.version
  {
    hide Appended, InfoFor;
  }

  lemma RecordKept(r: Registry, creator: Address, p: TokenParams, t: Address)
    requires t != Derived(creator, p.salt) && (t in r.index ==> r.index[t] <= r.count)
    ensures RecordOf(AddToken(r, creator, p), t) == RecordOf(r, t)
  {
    hide Appended, InfoFor;
    var r' := AddToken(r, creator, p);
    assert t in r'.index <==> t in r.index;
    assert t in r.index ==> r'.index[t] == r.index[t] && r.index[t] != r.count + 1;
  }

  lemma AddAttributed(r: Registry, log: seq<Effect>, log': seq<Effect>, creator: Address, p: TokenParams,
                      c: Call, t: Address)
    requires KeysDeployed(r) && IndicesDistinct(r) && Derived(creator, p.salt) !in r.deployed
    requires Issued(log', t) == Issued(log, t) + Initial(creator, p, t)
    requires Creates(c, Derived(creator, p.salt))
    ensures Attributed(r, log, AddToken(r, creator, p), log', [c], t)
  {
    hide Creates, RecordOf, KeysDeployed, IndicesDistinct, Issued, AddToken;
    AddTouchesOnly(r, creator, p, t);
    var owner := At(AddToken(r, creator, p).owner, t);
    if t == Derived(creator, p.salt) {
      assert MayIssue([c][0], owner, t) && MayRecord([c][0], owner, t);
    }
  }

  lemma CreateAttributed(w: World, base: nat, c: Call, t: Address)
    requires c.CreateToken? && Safe(w, base) && Step(w, c).reply.Done?
    ensures Attributed(RegistryOf(w), w.log, RegistryOf(Step(w, c).world), Step(w, c).world.log, [c], t)
  {
    hide RegistryOf, CreateTokenStep, AddToken, Issued, ListsSound, ListsComplete, SupplySafe, ParamsError, Attributed;
    hide KeysDeployed, IndicesDistinct, AddressInvertsIndex, OwnersMatchRecords, NewTokensComplete;
    CreateRegistry(w, c.creator, c.item, c.feePayment, c.fee);
    AddAttributed(RegistryOf(w), w.log, Step(w, c).world.log, c.creator, c.item.params, c, t);
  }

  lemma RegisterAttributed(w: World, base: nat, creator: Address, item: Item, c: Call, t: Address)
    requires Safe(w, base) && RecordError(w, creator, item).None? && Creates(c, Derived(creator, item.params.salt))
    ensures var w1 := RegisterToken(w, creator, item.params);
      Attributed(RegistryOf(w), w.log, RegistryOf(w1), w1.log, [c], t)
  {
    assert Derived(creator, item.params.salt) !in RegistryOf(w).deployed;
    hide RegistryOf, RegisterToken, SupplySafe, RecordError, AddToken, Issued, ListsSound, ListsComplete, Attributed;
    hide KeysDeployed, IndicesDistinct, AddressInvertsIndex, OwnersMatchRecords, NewTokensComplete, Creates;
    RegisterIsAdd(w, creator, item.params);
    RegisterIssues(w, creator, item.params, t);
    AddAttributed(RegistryOf(w), w.log, RegisterToken(w, creator, item.params).log, creator, item.params, c, t);
  }

  lemma {:induction false} RecordAllAttributed(w: World, base: nat, creator: Address, items: seq<Item>, n: nat, c: Call,
                                               t: Address)
    requires Safe(w, base) && n <= |items| && BatchParamsError(items, n).None?
    requires RecordAll(w, creator, items, n).Recorded?
    requires forall i :: 0 <= i < n ==> Creates(c, Derived(creator, items[i].params.salt))
    ensures var w1 := RecordAll(w, creator, items, n).world;
      Attributed(RegistryOf(w), w.log, RegistryOf(w1), w1.log, [c], t)
  {
    hide RegistryOf, RegisterToken, RecordError, Safe, ParamsError, Attributed, Creates;
    if n > 0 {
      RecordAllAttributed(w, base, creator, items, n - 1, c, t);
      RecordAllKeepsSafe(w, base, creator, items, n - 1);
      var w0 := RecordAll(w, creator, items, n - 1).world;
      RegisterAttributed(w0, base, creator, items[n - 1], c, t);
      var w1 := RegisterToken(w0, creator, items[n - 1].params);
      AttributedThen(RegistryOf(w), w.log, RegistryOf(w0), w0.log, RegistryOf(w1), w1.log, [c], [c], t);
      SameCallTwice(RegistryOf(w), w.log, RegistryOf(w1), w1.log, c, t);
    } else {
      Untouched(RegistryOf(w), w.log, RegistryOf(w), w.log, [c], t);
    }
  }

  lemma SameCallTwice(r: Registry, log: seq<Effect>, r': Registry, log': seq<Effect>, c: Call, t: Address)
    requires Attributed(r, log, r', log', [c] + [c], t)
    ensures Attributed(r, log, r', log', [c], t)
  {
    hide Issued, RecordOf, MayIssue, MayDescribe, MayRecord;
    assert ([c] + [c])[0] == ([c] + [c])[1] == [c][0];
  }

  lemma BatchAttributed(w: World, base: nat, c: Call, t: Address)
    requires c.CreateTokensBatch? && Safe(w, base) && Step(w, c).reply.Done?
    ensures Attributed(RegistryOf(w), w.log, RegistryOf(Step(w, c).world), Step(w, c).world.log, [c], t)
  {
    hide RegistryOf, RecordAll, Safe, BatchParamsError, FeesFor, CreateBatchStep, Issued, Attributed, BatchFee;
    BatchDone(w, c.creator, c.items, c.feePayment, c.fee);
    RecordAllAttributed(w, base, c.creator, c.items, |c.items|, c, t);
    var w1 := RecordAll(w, c.creator, c.items, |c.items|).world;
    var effects := FeesFor(w.split, w.st.treasury, c.creator, BatchFee(w, |c.items|), c.fee).effects;
    LogOnly(w1, w1.log + effects);
    FeesIssueNothing(w.split, w.st.treasury, c.creator, BatchFee(w, |c.items|), c.fee, t);
    IssuedConcat(w1.log, effects, t);
    Untouched(RegistryOf(w1), w1.log, RegistryOf(w1), w1.log + effects, [c], t);
    AttributedThen(RegistryOf(w), w.log, RegistryOf(w1), w1.log, RegistryOf(w1), w1.log + effects, [c], [c], t);
    SameCallTwice(RegistryOf(w), w.log, RegistryOf(w1), w1.log + effects, c, t);
  }

  lemma MintOwner(w: World, c: Call)
    requires c.MintTokens? && Step(w, c).reply.Done?
    ensures At(RegistryOf(w).owner, c.token) == Some(c.admin)
  {
    hide RegistryOf, MintStep, MintRefusal, OwnerOf, MintPrepared, FeesFor;
    MintDone(w, c.token, c.admin, c.to, c.amount, c.feePayment, c.fee, c.mint);
    MintIsByOwner(w, c.token, c.admin, c.amount, c.feePayment);
    OwnerReads(w, c.token);
  }

  lemma MintAttributed(w: World, c: Call, t: Address)
    requires c.MintTokens? && Step(w, c).reply.Done?
    ensures Attributed(RegistryOf(w), w.log, RegistryOf(Step(w, c).world), Step(w, c).world.log, [c], t)
  {
    hide RegistryOf, MintStep, MintRefusal, Issued, RecordOf, OwnerOf;
    MintOwner(w, c);
    MintRegistry(w, c.token, c.admin, c.to, c.amount, c.feePayment, c.fee, c.mint);
    MintIssues(w, c.token, c.admin, c.to, c.amount, c.feePayment, c.fee, c.mint);
    RecordOnly(RegistryOf(w), RegistryOf(Step(w, c).world), t);
    if t == c.token { assert MayIssue([c][0], Some(c.admin), t); }
  }

  /** A token's record depends on the index and the records alone. */
  lemma RecordOnly(r: Registry, r': Registry, t: Address)
    requires r'.index == r.index && r'.info == r.info
    ensures RecordOf(r', t) == RecordOf(r, t)
  {
  }

  lemma MetadataAttributed(w: World, c: Call, t: Address)
    requires c.SetMetadata? && Step(w, c).reply.Done?
    ensures Attributed(RegistryOf(w), w.log, RegistryOf(Step(w, c).world), Step(w, c).world.log, [c], t)
  {
    hide RegistryOf, SetMetadataStep, Issued, RecordOf, OwnerOf, VersionOf;
    MetadataIsByOwner(w, c.token, c.admin, c.uri, c.feePayment, c.fee);
    OwnerReads(w, c.token);
    MetadataRegistry(w, c.token, c.admin, c.uri, c.feePayment, c.fee);
    RecordOnly(RegistryOf(w), RegistryOf(Step(w, c).world), t);
    if t == c.token { assert MayDescribe([c][0], Some(c.admin), t); }
  }

  lemma ToggleAttributed(w: World, base: nat, c: Call, t: Address)
    requires c.SetBurnEnabled? && Safe(w, base) && Step(w, c).reply.Done?
    ensures Attributed(RegistryOf(w), w.log, RegistryOf(Step(w, c).world), Step(w, c).world.log, [c], t)
  {
    hide RegistryOf, SetBurnEnabledStep, Issued, OwnerOf, ListsSound, ListsComplete, SupplySafe;
    hide KeysDeployed, AddressInvertsIndex, OwnersMatchRecords, NewTokensComplete;
    ToggleIsByOwner(w, c.token, c.admin, c.enabled);
    OwnerReads(w, c.token);
    BurnToggleRegistry(w, c.token, c.admin, c.enabled);
    if t == c.token { assert MayRecord([c][0], Some(c.admin), t); }
  }

  /** A burn's own effect touches no token's issue or registry. */
  lemma BurnedAttributed(w: World, t: Address, from: Address, amount: int, calls: seq<Call>, u: Address)
    ensures var w1 := w.(log := w.log + [Burned(t, from, amount)]);
      Attributed(RegistryOf(w), w.log, RegistryOf(w1), w1.log, calls, u)
  {
    hide RegistryOf, Issued, Attributed;
    LogOnly(w, w.log + [Burned(t, from, amount)]);
    BurnedIssuesNothing(w.log, t, from, amount);
    Untouched(RegistryOf(w), w.log, RegistryOf(w), w.log + [Burned(t, from, amount)], calls, u);
  }

  lemma SingleAttributed(w: World, base: nat, c: Call, t: Address)
    requires !c.Burn? && Safe(w, base) && Step(w, c).reply.Done?
    ensures Attributed(RegistryOf(w), w.log, RegistryOf(Step(w, c).world), Step(w, c).world.log, [c], t)
  {
    hide Step, RegistryOf, Safe, Attributed;
    match c
    case CreateToken(_, _, _, _) => CreateAttributed(w, base, c, t);
    case CreateTokensBatch(_, _, _, _) => BatchAttributed(w, base, c, t);
    case SetMetadata(_, _, _, _, _) => MetadataAttributed(w, c, t);
    case MintTokens(_, _, _, _, _, _, _) => MintAttributed(w, c, t);
    case SetBurnEnabled(_, _, _) => ToggleAttributed(w, base, c, t);
  }

  /** After any guarded call, callbacks included, every difference about `t` is the work of an authorised call. */
  lemma {:induction false} StepAttributed(w: World, base: nat, c: Call, t: Address)
    requires Safe(w, base)
    ensures Attributed(RegistryOf(w), w.log, RegistryOf(Step(w, c).world), Step(w, c).world.log, Calls(c), t)
    decreases c, 1
  {
    hide Safe, RegistryOf, BurnRefusal, TouchRegistered, Attributed;
    hide CreateTokenStep, CreateBatchStep, SetMetadataStep, MintStep, SetBurnEnabledStep;
    FailureIsSilent(w, c);
    if Step(w, c).reply.Fail? {
      Untouched(RegistryOf(w), w.log, RegistryOf(w), w.log, Calls(c), t);
    } else if c.Burn? {
      var w0, k := TouchRegistered(w, c.token), c.balanceCall;
      RegisteredTouchIsInvisible(w, c.token);
      TouchLogs(w, c.token);
      TouchKeepsSafe(w, base, c.token);
      ReenterAttributed(w0, base, k, |k.reenter|, t);
      var w1 := Reenter(w0, k, |k.reenter|);
      Untouched(RegistryOf(w), w.log, RegistryOf(w0), w0.log, [c], t);
      AttributedThen(RegistryOf(w), w.log, RegistryOf(w0), w0.log, RegistryOf(w1), w1.log, [c],
        CallsOf(k, |k.reenter|), t);
      BurnedAttributed(w1, c.token, c.from, c.amount, [], t);
      var w2 := Step(w, c).world;
      AttributedThen(RegistryOf(w), w.log, RegistryOf(w1), w1.log, RegistryOf(w2), w2.log, Calls(c), [], t);
      assert Calls(c) + [] == Calls(c);
    } else {
      assert Calls(c) == [c];
      SingleAttributed(w, base, c, t);
    }
  }

  lemma {:induction false} ReenterAttributed(w: World, base: nat, k: Callee, n: nat, t: Address)
    requires Safe(w, base) && n <= |k.reenter|
    ensures Attributed(RegistryOf(w), w.log, RegistryOf(Reenter(w, k, n)), Reenter(w, k, n).log, CallsOf(k, n), t)
    decreases k, n
  {
    hide Safe, RegistryOf, Step, Attributed;
    if n > 0 {
      ReenterAttributed(w, base, k, n - 1, t);
      ReenterKeepsSafe(w, base, k, n - 1);
      var w0, w1 := Reenter(w, k, n - 1), Reenter(w, k, n);
      StepAttributed(w0, base, k.reenter[n - 1], t);
      AttributedThen(RegistryOf(w), w.log, RegistryOf(w0), w0.log, RegistryOf(w1), w1.log,
        CallsOf(k, n - 1), Calls(k.reenter[n - 1]), t);
    } else {
      Untouched(RegistryOf(w), w.log, RegistryOf(w), w.log, [], t);
    }
  }

  // ---- Unguarded calls ----

  /** The admin back-fills the counter of `t`. */
  predicate BackfillsCounter(e: Event, admin: Address, t: Address) {
    e.Admin? && e.admin.BackfillCappedSupply? && e.admin.token == t && e.admin.admin == admin
  }

  lemma BackfillIsByAdmin(w: World, c: AdminCall)
    requires c.BackfillCappedSupply? && AdminRefusal(w, c).None?
    ensures c.admin == w.st.admin
  {
    hide Registered, Backfilled;
  }

  /**
   * An unguarded call changes nothing about a token's issue, URI, version, record or owner; its counter
   * only by back-fill.
   */
  lemma AdminTouchesNoToken(w: World, c: AdminCall, t: Address)
    requires Tiers(w)
    ensures var w1 := AdminStep(w, c).world;
      var r, r' := RegistryOf(w), RegistryOf(w1);
      && w1.log == w.log && r'.owner == r.owner && r'.metadata == r.metadata && r'.version == r.version
      && r'.index == r.index && r'.info == r.info
      && (At(r'.supply, t) != At(r.supply, t) ==> BackfillsCounter(Admin(c), w.st.admin, t))
  {
    hide Tiers, RegistryOf, MigrateWorld, FreezeWorld, BackfillSupplyWorld, BackfillAddressWorld, SupplyOf;
    AdminFrame(w, c);
    if AdminRefusal(w, c).None? {
      match c
      case BackfillCappedSupply(_, u, verified) =>
        BackfillSupplyRegistry(w, u, verified);
        BackfillIsByAdmin(w, c);
      case BackfillTokenAddress(u) => BackfillAddressRegistry(w, u);
      case _ => AdminRegistry(w, c);
    }
  }

  // ---- Events and runs ----

  function EventCalls(e: Event): seq<Call> { if e.Guarded? then Calls(e.call) else [] }

  /**
   * This event may have changed something about `t`, whose owner is `owner`: the three kinds of change,
   * and the counter.
   */
  predicate Responsible(e: Event, admin: Address, owner: Option<Address>, t: Address) {
    || SomeIssues(EventCalls(e), owner, t) || SomeDescribes(EventCalls(e), owner, t)
    || SomeRecords(EventCalls(e), owner, t) || BackfillsCounter(e, admin, t)
  }

  /**
   * What any event can change about a token, and by whose authority. Units are
   * issued by the creation of the token or a mint its owner makes; the counter
   * also moves by the admin's back-fill; a URI is set by the owner; the record is
   * written at creation and by the owner's burn switch; the owner never changes.
   */
  lemma AccessOverEvent(w: World, base: nat, e: Event, t: Address)
    requires Inv(w, base)
    ensures var w1 := Apply(w, e).world;
      var r, r', owner := RegistryOf(w), RegistryOf(w1), At(RegistryOf(w1).owner, t);
      && (At(r.owner, t).Some? ==> owner == At(r.owner, t))
      && (Issued(w1.log, t) != Issued(w.log, t) ==> SomeIssues(EventCalls(e), owner, t))
      && (At(r'.supply, t) != At(r.supply, t) ==>
            SomeIssues(EventCalls(e), owner, t) || BackfillsCounter(e, w.st.admin, t))
      && (At(r'.metadata, t) != At(r.metadata, t) || At(r'.version, t) != At(r.version, t) ==>
            SomeDescribes(EventCalls(e), owner, t))
      && (RecordOf(r', t) != RecordOf(r, t) ==> SomeRecords(EventCalls(e), owner, t))
  {
    hide WellFormed, Consistent, SupplySafe, Tiers, Step, AdminStep, RegistryOf, Issued, SomeIssues, SomeDescribes,
      SomeRecords;
    match e
    case Guarded(c) => StepAttributed(w, base, c, t);
    case Admin(c) =>
      AdminTouchesNoToken(w, c, t);
      RecordOnly(RegistryOf(w), RegistryOf(Apply(w, e).world), t);
    case Tick(n) => SameButLedger(w, n);
  }

  lemma SameButLedger(w: World, n: nat)
    ensures RegistryOf(w.(ledger := w.ledger + n)) == RegistryOf(w)
  {
  }

  /** All that is tracked about a token. */
  datatype TokenView = TokenView(issued: int, supply: Option<int>, uri: Option<string>, version: Option<nat>,
                                 record: Option<TokenInfo>, owner: Option<Address>)

  function ViewOf(w: World, t: Address): TokenView {
    var r := RegistryOf(w);
    TokenView(Issued(w.log, t), At(r.supply, t), At(r.metadata, t), At(r.version, t), RecordOf(r, t), At(r.owner, t))
  }

  lemma {:induction false} OwnerIsForever(w: World, base: nat, events: seq<Event>, m: nat, n: nat, t: Address)
    requires Inv(w, base) && m <= n <= |events|
    ensures ViewOf(After(w, events, m), t).owner.Some? ==>
      ViewOf(After(w, events, n), t).owner == ViewOf(After(w, events, m), t).owner
  {
    hide Inv, Apply, RegistryOf, Issued, RecordOf;
    if m < n {
      OwnerIsForever(w, base, events, m, n - 1, t);
      RunKeepsInv(w, base, events, n - 1);
      AccessOverEvent(After(w, events, n - 1), base, events[n - 1], t);
    }
  }

  /**
   * Over any run: a token that has an owner looks different only if some event
   * in between was one its owner, its creation or the factory admin is
   * responsible for.
   */
  lemma {:induction false} AccessOverRun(w: World, base: nat, events: seq<Event>, m: nat, n: nat, t: Address)
    returns (i: nat)
    requires Inv(w, base) && m <= n <= |events| && ViewOf(After(w, events, m), t).owner.Some?
    requires ViewOf(After(w, events, n), t) != ViewOf(After(w, events, m), t)
    ensures m <= i < n
    ensures Responsible(events[i], After(w, events, i).st.admin, ViewOf(After(w, events, m), t).owner, t)
  {
    hide Inv, Apply, RegistryOf, Issued, RecordOf, SomeIssues, SomeDescribes, SomeRecords, BackfillsCounter;
    OwnerIsForever(w, base, events, m, n, t);
    if m == n {
      i := m;
    } else if ViewOf(After(w, events, n - 1), t) != ViewOf(After(w, events, m), t) {
      i := AccessOverRun(w, base, events, m, n - 1, t);
    } else {
      i := n - 1;
      RunKeepsInv(w, base, events, n - 1);
      AccessOverEvent(After(w, events, n - 1), base, events[n - 1], t);
    }
  }
}
