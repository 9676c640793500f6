/** The capped-supply counter never goes down, in any run. */
module FactorySupply {
  import opened Common
  import opened CreatorPages
  import opened FactoryModel
  import opened FactoryRegistry
  import opened FactorySteps
  import opened FactoryMigration
  import opened FactoryRuns

  ghost predicate Grew(r: Registry, r': Registry) {
    forall t :: t in r.supply ==> t in r'.supply && r.supply[t] <= r'.supply[t]
  }

  lemma AddGrows(r: Registry, creator: Address, p: TokenParams)
    requires KeysDeployed(r) && Derived(creator, p.salt) !in r.deployed
    ensures Grew(r, AddToken(r, creator, p))
  {
    hide Appended;
    assert Derived(creator, p.salt) !in r.supply.Keys;
  }

  lemma {:induction false} RecordAllGrows(w: World, base: nat, creator: Address, items: seq<Item>, n: nat)
    requires Safe(w, base) && n <= |items| && BatchParamsError(items, n).None?
    ensures RecordAll(w, creator, items, n).Recorded? ==>
      Grew(RegistryOf(w), RegistryOf(RecordAll(w, creator, items, n).world))
  {
    hide RegistryOf, RegisterToken, RecordError, Safe, ParamsError;
    if n > 0 && RecordAll(w, creator, items, n).Recorded? {
      RecordAllGrows(w, base, creator, items, n - 1);
      RecordAllKeepsSafe(w, base, creator, items, n - 1);
      var w0 := RecordAll(w, creator, items, n - 1).world;
      RegisterGrows(w0, base, creator, items[n - 1]);
    }
  }

  lemma RegisterGrows(w: World, base: nat, creator: Address, item: Item)
    requires Safe(w, base) && RecordError(w, creator, item).None?
    ensures Grew(RegistryOf(w), RegistryOf(RegisterToken(w, creator, item.params)))
  {
    assert Derived(creator, item.params.salt) !in RegistryOf(w).deployed;
    hide RegistryOf, RegisterToken, SupplySafe, RecordError, AddToken;
    RegisterIsAdd(w, creator, item.params);
    AddGrows(RegistryOf(w), creator, item.params);
  }

  lemma BatchGrows(w: World, base: nat, creator: Address, items: seq<Item>, pay: I128, fee: FeeScript)
    requires Safe(w, base) && CreateBatchStep(w, creator, items, pay, fee).reply.Done?
    ensures Grew(RegistryOf(w), RegistryOf(CreateBatchStep(w, creator, items, pay, fee).world))
  {
    hide RegistryOf, RecordAll, Safe, BatchParamsError, FeesFor, CreateBatchStep;
    BatchDone(w, creator, items, pay, fee);
    RecordAllGrows(w, base, creator, items, |items|);
    var w1 := RecordAll(w, creator, items, |items|).world;
    LogOnly(w1, w1.log + FeesFor(w.split, w.st.treasury, creator, BatchFee(w, |items|), fee).effects);
  }

  lemma SingleStepGrows(w: World, base: nat, c: Call)
    requires Safe(w, base) && !c.Burn? && Step(w, c).reply.Done?
    ensures Grew(RegistryOf(w), RegistryOf(Step(w, c).world))
  {
    hide RegistryOf, CreateTokenStep, CreateBatchStep, SetMetadataStep, MintStep, SetBurnEnabledStep;
    hide Issued, ListsSound, ListsComplete, SupplySafe, AddToken, VersionOf, ParamsError;
    match c
    case CreateToken(creator, item, pay, fee) =>
      CreateRegistry(w, creator, item, pay, fee);
      AddGrows(RegistryOf(w), creator, item.params);
    case CreateTokensBatch(creator, items, pay, fee) => BatchGrows(w, base, creator, items, pay, fee);
    case SetMetadata(t, admin, uri, pay, fee) => MetadataRegistry(w, t, admin, uri, pay, fee);
    case MintTokens(t, admin, to, amount, pay, fee, mint) => MintRegistry(w, t, admin, to, amount, pay, fee, mint);
    case SetBurnEnabled(t, admin, enabled) => BurnToggleRegistry(w, t, admin, enabled);
  }

  lemma {:induction false} StepGrows(w: World, base: nat, c: Call)
    requires Safe(w, base)
    ensures Grew(RegistryOf(w), RegistryOf(Step(w, c).world))
    decreases c, 1
  {
    hide Safe, RegistryOf, BurnRefusal, TouchRegistered;
    hide CreateTokenStep, CreateBatchStep, SetMetadataStep, MintStep, SetBurnEnabledStep;
    FailureIsSilent(w, c);
    if Step(w, c).reply.Done? {
      if c.Burn? {
        var w0, k := TouchRegistered(w, c.token), c.balanceCall;
        RegisteredTouchIsInvisible(w, c.token);
        TouchKeepsSafe(w, base, c.token);
        ReenterGrows(w0, base, k, |k.reenter|);
        var w1 := Reenter(w0, k, |k.reenter|);
        LogOnly(w1, w1.log + [Burned(c.token, c.from, c.amount)]);
      } else {
        SingleStepGrows(w, base, c);
      }
    }
  }

  lemma {:induction false} ReenterGrows(w: World, base: nat, k: Callee, n: nat)
    requires Safe(w, base) && n <= |k.reenter|
    ensures Grew(RegistryOf(w), RegistryOf(Reenter(w, k, n)))
    decreases k, n
  {
    hide Safe, RegistryOf, Step;
    if n > 0 {
      ReenterGrows(w, base, k, n - 1);
      ReenterKeepsSafe(w, base, k, n - 1);
      StepGrows(Reenter(w, k, n - 1), base, k.reenter[n - 1]);
    }
  }

  lemma AdminGrows(w: World, c: AdminCall)
    requires Tiers(w)
    ensures Grew(RegistryOf(w), RegistryOf(AdminStep(w, c).world))
  {
    hide Tiers, RegistryOf, MigrateWorld, FreezeWorld, BackfillSupplyWorld, BackfillAddressWorld, SupplyOf;
    if AdminRefusal(w, c).None? {
      match c
      case BackfillCappedSupply(_, t, verified) =>
        BackfillSupplyRegistry(w, t, verified);
        SupplyReads(w, t);
      case BackfillTokenAddress(t) => BackfillAddressRegistry(w, t);
      case _ => AdminRegistry(w, c);
    }
  }

  /** From any boundary of any run to any later one, no counter has gone down. */
  lemma {:induction false} SupplyNeverDecreases(w: World, base: nat, events: seq<Event>, m: nat, n: nat)
    requires Inv(w, base) && m <= n <= |events|
    ensures Grew(RegistryOf(After(w, events, m)), RegistryOf(After(w, events, n)))
  {
    hide RegistryOf, Inv, Step, AdminStep;
    if m < n {
      SupplyNeverDecreases(w, base, events, m, n - 1);
      RunKeepsInv(w, base, events, n - 1);
      var before := After(w, events, n - 1);
      InvParts(before, base);
      match events[n - 1]
      case Guarded(c) => StepGrows(before, base, c);
      case Admin(c) => AdminGrows(before, c);
      case Tick(k) => LedgerOnly(before, k);
    }
  }

  lemma LedgerOnly(w: World, k: nat)
    ensures RegistryOf(w.(ledger := w.ledger + k)) == RegistryOf(w)
  {
  }
}
