/**
 * What guarded calls do outside the factory, exactly, and what the gates hold
 * back: nothing is created, issued or described while paused, a frozen URI is
 * final, and a token whose burns are off is not burned.
 */
module FactoryGates {
  import opened Common
  import FeeSplit
  import opened CreatorPages
  import opened FactoryModel
  import opened FactoryRegistry
  import opened FactorySteps
  import opened FactoryMigration
  import opened FactoryRuns
  import opened FactoryAccess
  import opened FactorySettings
  import opened FactoryGovernance

  // ---- Effects other than fees ----

  /** The deployments, mints and burns of a log, in order. */
  function Outside(log: seq<Effect>): seq<Effect> {
    if log == [] then []
    else
      var last := log[|log| - 1];
      Outside(log[..|log| - 1]) + if last.Transfer? || last.FeeRedirected? then [] else [last]
  }

  lemma {:induction false} OutsideConcat(a: seq<Effect>, b: seq<Effect>)
    ensures Outside(a + b) == Outside(a) + Outside(b)
  {
    if b == [] {
      assert a + b == a;
    } else {
      OutsideConcat(a, b[..|b| - 1]);
      assert (a + b)[..|a + b| - 1] == a + b[..|b| - 1];
    }
  }

  predicate FeesOnly(log: seq<Effect>) { forall k :: 0 <= k < |log| ==> log[k].Transfer? || log[k].FeeRedirected? }

  lemma {:induction false} FeesAreNotOutside(log: seq<Effect>)
    requires FeesOnly(log)
    ensures Outside(log) == []
  {
    if log != [] { FeesAreNotOutside(log[..|log| - 1]); }
  }

  lemma {:induction false} PayoutsAreFees(split: seq<Share>, shares: seq<int>, payer: Address, fee: FeeScript, k: nat)
    requires k <= |split| == |shares|
    ensures FeesOnly(Payouts(split, shares, payer, fee, k))
  {
    if k > 0 { PayoutsAreFees(split, shares, payer, fee, k - 1); }
  }

  lemma ChargeIsFees(split: seq<Share>, treasury: Address, payer: Address, amount: Amount, fee: FeeScript)
    requires FeesFor(split, treasury, payer, amount, fee).Charged?
    ensures Outside(FeesFor(split, treasury, payer, amount, fee).effects) == []
  {
    hide FeeSplit.Shares, FeeSplit.Fits, Outside;
    if split != [] {
      PayoutsAreFees(split, FeeSplit.Shares(amount, Weights(split)), payer, fee, |split|);
    }
    FeesAreNotOutside(FeesFor(split, treasury, payer, amount, fee).effects);
  }

  /** What the creation of one token does: deploy it, and mint its initial supply to its creator. */
  function Creation(creator: Address, p: TokenParams): seq<Effect> {
    var token := Derived(creator, p.salt);
    [Deploy(token)] + if p.initialSupply > 0 then [Mint(token, creator, p.initialSupply)] else []
  }

  function Creations(creator: Address, items: seq<Item>, n: nat): seq<Effect>
    requires n <= |items|
  {
    if n == 0 then [] else Creations(creator, items, n - 1) + Creation(creator, items[n - 1].params)
  }

  /** What a successful call other than a burn does outside the factory. */
  function Deeds(c: Call): seq<Effect> {
    match c
    case CreateToken(creator, item, _, _) => Creation(creator, item.params)
    case CreateTokensBatch(creator, items, _, _) => Creations(creator, items, |items|)
    case MintTokens(t, _, to, amount, _, _, _) => [Mint(t, to, amount)]
    case _ => []
  }

  lemma {:induction false} NoFees(log: seq<Effect>)
    requires forall k :: 0 <= k < |log| ==> !log[k].Transfer? && !log[k].FeeRedirected?
    ensures Outside(log) == log
  {
    if log != [] { NoFees(log[..|log| - 1]); }
  }

  lemma RegisterDeeds(w: World, creator: Address, p: TokenParams)
    ensures Outside(RegisterToken(w, creator, p).log) == Outside(w.log) + Creation(creator, p)
  {
    hide Appended, InfoFor, Outside;
    var token := Derived(creator, p.salt);
    var tail := if p.initialSupply > 0 then [Mint(token, creator, p.initialSupply)] else [];
    assert RegisterToken(w, creator, p).log == w.log + ([Deploy(token)] + tail);
    OutsideConcat(w.log, [Deploy(token)] + tail);
    NoFees([Deploy(token)] + tail);
  }

  lemma {:induction false} RecordAllDeeds(w: World, creator: Address, items: seq<Item>, n: nat)
    requires n <= |items| && RecordAll(w, creator, items, n).Recorded?
    ensures Outside(RecordAll(w, creator, items, n).world.log) == Outside(w.log) + Creations(creator, items, n)
  {
    hide RegisterToken, RecordError, Outside, Creation;
    if n > 0 {
      RecordAllDeeds(w, creator, items, n - 1);
      RegisterDeeds(RecordAll(w, creator, items, n - 1).world, creator, items[n - 1].params);
    }
  }

  /** A successful call does exactly its deeds, in order: to whom units are minted, how many, and of which token. */
  lemma StepDeeds(w: World, c: Call)
    requires !c.Burn? && Step(w, c).reply.Done?
    ensures Outside(Step(w, c).world.log) == Outside(w.log) + Deeds(c)
  {
    hide FeesFor, RecordAll, CreateBatchStep, CreateTokenStep, SetMetadataStep, MintStep, SetBurnEnabledStep, BatchFee;
    hide MintPrepared, MetadataPrepared, TouchRegistered, TouchOwner, RecordError, BatchParamsError, ParamsError;
    hide Registered, MintRefusal, VersionOf, RegisterToken, Outside, Creation;
    match c
    case CreateToken(creator, item, pay, fee) =>
      CreateDone(w, creator, item, pay, fee);
      var effects := FeesFor(w.split, w.st.treasury, creator, w.st.baseFee, fee).effects;
      ChargeIsFees(w.split, w.st.treasury, creator, w.st.baseFee, fee);
      OutsideConcat(w.log, effects);
      RegisterDeeds(w.(log := w.log + effects), creator, item.params);
    case CreateTokensBatch(creator, items, pay, fee) =>
      BatchDone(w, creator, items, pay, fee);
      RecordAllDeeds(w, creator, items, |items|);
      ChargeIsFees(w.split, w.st.treasury, creator, BatchFee(w, |items|), fee);
      OutsideConcat(RecordAll(w, creator, items, |items|).world.log,
        FeesFor(w.split, w.st.treasury, creator, BatchFee(w, |items|), fee).effects);
    case SetMetadata(t, admin, uri, pay, fee) =>
      MetadataDone(w, t, admin, uri, pay, fee);
      ChargeIsFees(w.split, w.st.treasury, admin, w.st.metadataFee, fee);
      OutsideConcat(w.log, FeesFor(w.split, w.st.treasury, admin, w.st.metadataFee, fee).effects);
    case MintTokens(t, admin, to, amount, pay, fee, mint) =>
      MintDone(w, t, admin, to, amount, pay, fee, mint);
      ChargeIsFees(w.split, w.st.treasury, admin, w.st.baseFee, fee);
      var effects := FeesFor(w.split, w.st.treasury, admin, w.st.baseFee, fee).effects;
      OutsideConcat(w.log, effects);
      OutsideConcat(w.log + effects, [Mint(t, to, amount)]);
      NoFees([Mint(t, to, amount)]);
    case SetBurnEnabled(t, admin, enabled) =>
      BurnToggleDone(w, t, admin, enabled);
      TouchLogs(w, t);
      TouchLogs(TouchOwner(w, t), t);
  }

  /** A successful burn does, after whatever its balance query called back, exactly the burn. */
  lemma BurnDeeds(w: World, c: Call)
    requires c.Burn? && Step(w, c).reply.Done?
    ensures var w1 := Reenter(TouchRegistered(w, c.token), c.balanceCall, |c.balanceCall.reenter|);
      && Step(w, c).world == w1.(log := w1.log + [Burned(c.token, c.from, c.amount)])
      && Outside(Step(w, c).world.log) == Outside(w1.log) + [Burned(c.token, c.from, c.amount)]
      && 0 < c.amount <= c.balance && Registered(w, c.token).Some? && Registered(w, c.token).value.1.burnEnabled
  {
    hide TouchRegistered, Reenter, Outside, Registered;
    var w1 := Reenter(TouchRegistered(w, c.token), c.balanceCall, |c.balanceCall.reenter|);
    OutsideConcat(w1.log, [Burned(c.token, c.from, c.amount)]);
    NoFees([Burned(c.token, c.from, c.amount)]);
  }

  // ---- Paused ----

  /** Everything a reader finds is as before, except that burns may have been switched. */
  ghost predicate OnlySwitches(r: Registry, r': Registry) {
    && r' == r.(info := r'.info) && r'.info.Keys == r.info.Keys
    && forall i :: i in r.info ==> r'.info[i] == r.info[i].(burnEnabled := r'.info[i].burnEnabled)
  }

  lemma PausedRefuses(w: World, c: Call)
    requires w.st.paused && !c.Burn? && !c.SetBurnEnabled?
    ensures Step(w, c).reply.Fail?
  {
    hide FeesFor, RecordAll, RegisterToken, RecordError, ParamsError, BatchParamsError, MetadataPrepared, MintPrepared;
  }

  lemma SwitchingOnly(w: World, t: Address, admin: Address, enabled: bool)
    requires SetBurnEnabledStep(w, t, admin, enabled).reply.Done?
    ensures OnlySwitches(RegistryOf(w), RegistryOf(SetBurnEnabledStep(w, t, admin, enabled).world))
    ensures forall u :: Issued(SetBurnEnabledStep(w, t, admin, enabled).world.log, u) == Issued(w.log, u)
  {
    hide RegistryOf, SetBurnEnabledStep, Issued;
    BurnToggleRegistry(w, t, admin, enabled);
  }

  /** While the factory is paused no call, callbacks included, creates, issues or describes anything. */
  lemma {:induction false} PausedHoldsBack(w: World, c: Call)
    requires w.st.paused
    ensures OnlySwitches(RegistryOf(w), RegistryOf(Step(w, c).world))
    ensures forall u :: Issued(Step(w, c).world.log, u) == Issued(w.log, u)
    decreases c, 1
  {
    hide RegistryOf, BurnRefusal, TouchRegistered, Issued, Reenter;
    hide CreateTokenStep, CreateBatchStep, SetMetadataStep, MintStep, SetBurnEnabledStep;
    FailureIsSilent(w, c);
    if Step(w, c).reply.Done? {
      if c.Burn? {
        var w0, k := TouchRegistered(w, c.token), c.balanceCall;
        RegisteredTouchIsInvisible(w, c.token);
        TouchLogs(w, c.token);
        PausedReentry(w0, k, |k.reenter|);
        var w1 := Reenter(w0, k, |k.reenter|);
        LogOnly(w1, w1.log + [Burned(c.token, c.from, c.amount)]);
        BurnedIssuesNothing(w1.log, c.token, c.from, c.amount);
      } else if c.SetBurnEnabled? {
        SwitchingOnly(w, c.token, c.admin, c.enabled);
      } else {
        PausedRefuses(w, c);
      }
    }
  }

  lemma {:induction false} PausedReentry(w: World, k: Callee, n: nat)
    requires w.st.paused && n <= |k.reenter|
    ensures OnlySwitches(RegistryOf(w), RegistryOf(Reenter(w, k, n)))
    ensures forall u :: Issued(Reenter(w, k, n).log, u) == Issued(w.log, u)
    decreases k, n
  {
    hide RegistryOf, Issued, Step;
    if n > 0 {
      PausedReentry(w, k, n - 1);
      ReenterState(w, k, n - 1);
      PausedHoldsBack(Reenter(w, k, n - 1), k.reenter[n - 1]);
    }
  }

  // ---- Frozen ----

  ghost predicate FrozenKept(r: Registry, r': Registry, t: Address) {
    At(r.frozen, t) == Some(true) ==>
      At(r'.frozen, t) == Some(true) && At(r'.metadata, t) == At(r.metadata, t) && At(r'.version, t) == At(r.version, t)
  }

  lemma MetadataNeedsThaw(w: World, t: Address, admin: Address, uri: string, pay: I128, fee: FeeScript)
    requires SetMetadataStep(w, t, admin, uri, pay, fee).reply.Done?
    ensures !Frozen(w, t)
  {
    hide OwnerOf, Frozen, VersionOf, FeesFor, MetadataPrepared;
  }

  lemma {:induction false} RecordAllKeepsMarks(w: World, creator: Address, items: seq<Item>, n: nat)
    requires n <= |items| && RecordAll(w, creator, items, n).Recorded?
    ensures var r, r' := RegistryOf(w), RegistryOf(RecordAll(w, creator, items, n).world);
      r'.frozen == r.frozen && r'.metadata == r.metadata && r'.version == r.version
  {
    hide RegistryOf, RegisterToken, RecordError, InfoFor, Appended;
    if n > 0 {
      RecordAllKeepsMarks(w, creator, items, n - 1);
      RegisterIsAdd(RecordAll(w, creator, items, n - 1).world, creator, items[n - 1].params);
    }
  }

  lemma SingleKeepsFrozen(w: World, c: Call, t: Address)
    requires !c.Burn? && Step(w, c).reply.Done?
    ensures FrozenKept(RegistryOf(w), RegistryOf(Step(w, c).world), t)
  {
    hide RegistryOf, CreateTokenStep, CreateBatchStep, SetMetadataStep, MintStep, SetBurnEnabledStep, FeesFor,
      RecordAll;
    hide Issued, VersionOf, ParamsError, InfoFor, Appended, BatchFee, BatchParamsError, Frozen;
    match c
    case CreateToken(creator, item, pay, fee) => CreateRegistry(w, creator, item, pay, fee);
    case CreateTokensBatch(creator, items, pay, fee) =>
      BatchDone(w, creator, items, pay, fee);
      RecordAllKeepsMarks(w, creator, items, |items|);
      var w1 := RecordAll(w, creator, items, |items|).world;
      LogOnly(w1, w1.log + FeesFor(w.split, w.st.treasury, creator, BatchFee(w, |items|), fee).effects);
    case SetMetadata(u, admin, uri, pay, fee) =>
      MetadataRegistry(w, u, admin, uri, pay, fee);
      MetadataNeedsThaw(w, u, admin, uri, pay, fee);
      MarkReads(w, u);
    case MintTokens(u, admin, to, amount, pay, fee, mint) => MintRegistry(w, u, admin, to, amount, pay, fee, mint);
    case SetBurnEnabled(u, admin, enabled) => BurnToggleRegistry(w, u, admin, enabled);
  }

  lemma {:induction false} StepKeepsFrozen(w: World, c: Call, t: Address)
    ensures FrozenKept(RegistryOf(w), RegistryOf(Step(w, c).world), t)
    decreases c, 1
  {
    hide RegistryOf, BurnRefusal, TouchRegistered, Reenter;
    hide CreateTokenStep, CreateBatchStep, SetMetadataStep, MintStep, SetBurnEnabledStep;
    FailureIsSilent(w, c);
    if Step(w, c).reply.Done? {
      if c.Burn? {
        var w0, k := TouchRegistered(w, c.token), c.balanceCall;
        RegisteredTouchIsInvisible(w, c.token);
        ReentryKeepsFrozen(w0, k, |k.reenter|, t);
        var w1 := Reenter(w0, k, |k.reenter|);
        LogOnly(w1, w1.log + [Burned(c.token, c.from, c.amount)]);
      } else {
        SingleKeepsFrozen(w, c, t);
      }
    }
  }

  lemma {:induction false} ReentryKeepsFrozen(w: World, k: Callee, n: nat, t: Address)
    requires n <= |k.reenter|
    ensures FrozenKept(RegistryOf(w), RegistryOf(Reenter(w, k, n)), t)
    decreases k, n
  {
    hide RegistryOf, Step;
    if n > 0 {
      ReentryKeepsFrozen(w, k, n - 1, t);
      StepKeepsFrozen(Reenter(w, k, n - 1), k.reenter[n - 1], t);
    }
  }

  lemma EventKeepsFrozen(w: World, e: Event, t: Address)
    requires Tiers(w)
    ensures FrozenKept(RegistryOf(w), RegistryOf(Apply(w, e).world), t)
  {
    hide RegistryOf, Tiers, Step, AdminStep, SettingsBecome, RegistryBecomes, At;
    match e
    case Guarded(c) => StepKeepsFrozen(w, c, t);
    case Admin(c) =>
      AdminFailsSilently(w, c);
      if AdminStep(w, c).reply.Done? {
        AdminDoes(w, c);
        BecomesKeepsFrozen(RegistryOf(w), RegistryOf(AdminStep(w, c).world), c, t);
      }
    case Tick(n) => SameButLedger(w, n);
  }

  lemma BecomesKeepsFrozen(r: Registry, r': Registry, c: AdminCall, t: Address)
    requires RegistryBecomes(r, r', c)
    ensures FrozenKept(r, r', t)
  {
  }

  lemma AdminFailsSilently(w: World, c: AdminCall)
    ensures AdminStep(w, c).reply.Fail? ==> AdminStep(w, c).world == w
  {
    hide AdminRefusal, AdminEffect;
  }

  /** Frozen metadata is final: over any run neither the URI nor its version changes again, and it stays frozen. */
  lemma {:induction false} FrozenIsFinal(w: World, base: nat, events: seq<Event>, m: nat, n: nat, t: Address)
    requires Inv(w, base) && m <= n <= |events|
    ensures FrozenKept(RegistryOf(After(w, events, m)), RegistryOf(After(w, events, n)), t)
  {
    hide WellFormed, Consistent, SupplySafe, Tiers, Apply, RegistryOf;
    if m < n {
      FrozenIsFinal(w, base, events, m, n - 1, t);
      RunKeepsInv(w, base, events, n - 1);
      EventKeepsFrozen(After(w, events, n - 1), events[n - 1], t);
    }
  }

  // ---- Burns switched off ----

  /** How many burns of `t` a log holds. */
  function BurnsOf(log: seq<Effect>, t: Address): nat {
    if log == [] then 0
    else
      var last := log[|log| - 1];
      BurnsOf(log[..|log| - 1], t) + if last.Burned? && last.token == t then 1 else 0
  }

  lemma OutsideLast(log: seq<Effect>)
    requires log != []
    ensures var n := |log| - 1;
      Outside(log) == Outside(log[..n]) + if log[n].Transfer? || log[n].FeeRedirected? then [] else [log[n]]
  {
  }

  lemma BurnsLast(log: seq<Effect>, t: Address)
    requires log != []
    ensures var n := |log| - 1;
      BurnsOf(log, t) == BurnsOf(log[..n], t) + if log[n].Burned? && log[n].token == t then 1 else 0
  {
  }

  lemma {:induction false} BurnsAreOutside(log: seq<Effect>, t: Address)
    ensures BurnsOf(log, t) == BurnsOf(Outside(log), t)
  {
    if log == [] {
    } else {
      hide Outside, BurnsOf;
      var n := |log| - 1;
      BurnsAreOutside(log[..n], t);
      OutsideLast(log);
      BurnsLast(log, t);
      BurnsConcat(Outside(log[..n]), [log[n]], t);
      OneBurn(log[n], t);
      assert Outside(log[..n]) + [] == Outside(log[..n]);
    }
  }

  lemma OneBurn(e: Effect, t: Address)
    ensures BurnsOf([e], t) == if e.Burned? && e.token == t then 1 else 0
  {
    assert [e][..0] == [];
  }

  lemma {:induction false} BurnsConcat(a: seq<Effect>, b: seq<Effect>, t: Address)
    ensures BurnsOf(a + b, t) == BurnsOf(a, t) + BurnsOf(b, t)
  {
    if b == [] {
      assert a + b == a;
    } else {
      BurnsConcat(a, b[..|b| - 1], t);
      assert (a + b)[..|a + b| - 1] == a + b[..|b| - 1];
    }
  }

  lemma {:induction false} CreationsBurnNothing(creator: Address, items: seq<Item>, n: nat, t: Address)
    requires n <= |items|
    ensures BurnsOf(Creations(creator, items, n), t) == 0
  {
    hide BurnsOf, Creation;
    NoBurns([], t);
    if n > 0 {
      CreationsBurnNothing(creator, items, n - 1, t);
      CreationBurnsNothing(creator, items[n - 1].params, t);
      BurnsConcat(Creations(creator, items, n - 1), Creation(creator, items[n - 1].params), t);
    }
  }

  lemma CreationBurnsNothing(creator: Address, p: TokenParams, t: Address)
    ensures BurnsOf(Creation(creator, p), t) == 0
  {
    hide BurnsOf;
    NoBurns(Creation(creator, p), t);
  }

  lemma {:induction false} NoBurns(log: seq<Effect>, t: Address)
    requires forall k :: 0 <= k < |log| ==> !log[k].Burned?
    ensures BurnsOf(log, t) == 0
  {
    if log != [] { NoBurns(log[..|log| - 1], t); }
  }

  lemma SingleBurnsNothing(w: World, c: Call, t: Address)
    requires !c.Burn? && Step(w, c).reply.Done?
    ensures BurnsOf(Step(w, c).world.log, t) == BurnsOf(w.log, t)
  {
    hide Step, Outside, BurnsOf, Creation, Creations;
    StepDeeds(w, c);
    BurnsAreOutside(Step(w, c).world.log, t);
    BurnsAreOutside(w.log, t);
    BurnsConcat(Outside(w.log), Deeds(c), t);
    match c
    case CreateToken(creator, item, _, _) => CreationBurnsNothing(creator, item.params, t);
    case CreateTokensBatch(creator, items, _, _) => CreationsBurnNothing(creator, items, |items|, t);
    case _ => NoBurns(Deeds(c), t);
  }

  /** No burns of `t` are allowed: it has no record, or one with burns off. */
  predicate BurnsOff(r: Registry, t: Address) { RecordOf(r, t).None? || !RecordOf(r, t).value.burnEnabled }

  /** None of `calls` creates `t` or switches its burns on. */
  predicate NeverSwitchedOn(calls: seq<Call>, t: Address) {
    forall k :: 0 <= k < |calls| ==>
      !Creates(calls[k], t) && !(calls[k].SetBurnEnabled? && calls[k].token == t && calls[k].enabled)
  }

  lemma SingleKeepsOff(w: World, base: nat, c: Call, t: Address)
    requires !c.Burn? && Safe(w, base) && Step(w, c).reply.Done?
    requires BurnsOff(RegistryOf(w), t) && !Creates(c, t) && !(c.SetBurnEnabled? && c.token == t && c.enabled)
    ensures BurnsOff(RegistryOf(Step(w, c).world), t)
  {
    hide RegistryOf, Safe, Creates, Issued, CreateTokenStep, CreateBatchStep, SetMetadataStep, MintStep,
      SetBurnEnabledStep;
    SingleAttributed(w, base, c, t);
    if c.SetBurnEnabled? && c.token == t {
      BurnToggleRegistry(w, t, c.admin, c.enabled);
    } else {
      var owner := At(RegistryOf(Step(w, c).world).owner, t);
      assert !MayRecord([c][0], owner, t);
      assert !SomeRecords([c], owner, t);
    }
  }

  lemma SplitSwitches(a: seq<Call>, b: seq<Call>, t: Address)
    requires NeverSwitchedOn(a + b, t)
    ensures NeverSwitchedOn(a, t) && NeverSwitchedOn(b, t)
  {
    hide Creates;
    forall k | 0 <= k < |a| ensures (a + b)[k] == a[k] {}
    forall k | 0 <= k < |b| ensures (a + b)[|a| + k] == b[k] {}
  }

  /** A token with burns off is not burned by any call that does not first switch them on, and stays that way. */
  lemma {:induction false} OffMeansNoBurn(w: World, base: nat, c: Call, t: Address)
    requires Safe(w, base) && BurnsOff(RegistryOf(w), t) && NeverSwitchedOn(Calls(c), t)
    ensures BurnsOf(Step(w, c).world.log, t) == BurnsOf(w.log, t) && BurnsOff(RegistryOf(Step(w, c).world), t)
    decreases c, 1
  {
    hide Safe, RegistryOf, Step, BurnsOf, BurnsOff, TouchRegistered, Reenter, RecordOf, Creates;
    FailureIsSilent(w, c);
    if Step(w, c).reply.Done? {
      assert Calls(c)[0] == c;
      if c.Burn? {
        var w0, k := TouchRegistered(w, c.token), c.balanceCall;
        BurnDeeds(w, c);
        BurnNeedsOn(w, c.token, t);
        RegisteredTouchIsInvisible(w, c.token);
        TouchLogs(w, c.token);
        TouchKeepsSafe(w, base, c.token);
        SplitSwitches([c], CallsOf(k, |k.reenter|), t);
        OffMeansNoBurnInside(w0, base, k, |k.reenter|, t);
        var w1 := Reenter(w0, k, |k.reenter|);
        LogOnly(w1, w1.log + [Burned(c.token, c.from, c.amount)]);
        BurnsConcat(w1.log, [Burned(c.token, c.from, c.amount)], t);
        OneBurn(Burned(c.token, c.from, c.amount), t);
      } else {
        SingleKeepsOff(w, base, c, t);
        SingleBurnsNothing(w, c, t);
      }
    }
  }

  lemma BurnNeedsOn(w: World, u: Address, t: Address)
    requires Registered(w, u).Some? && Registered(w, u).value.1.burnEnabled && BurnsOff(RegistryOf(w), t)
    ensures u != t
  {
    hide RegistryOf, Registered, RecordOf;
    TokenReads(w, u);
  }

  lemma {:induction false} OffMeansNoBurnInside(w: World, base: nat, k: Callee, n: nat, t: Address)
    requires Safe(w, base) && n <= |k.reenter| && BurnsOff(RegistryOf(w), t) && NeverSwitchedOn(CallsOf(k, n), t)
    ensures BurnsOf(Reenter(w, k, n).log, t) == BurnsOf(w.log, t) && BurnsOff(RegistryOf(Reenter(w, k, n)), t)
    decreases k, n
  {
    hide Safe, RegistryOf, Step, BurnsOf, BurnsOff;
    if n > 0 {
      SplitSwitches(CallsOf(k, n - 1), Calls(k.reenter[n - 1]), t);
      OffMeansNoBurnInside(w, base, k, n - 1, t);
      ReenterKeepsSafe(w, base, k, n - 1);
      OffMeansNoBurn(Reenter(w, k, n - 1), base, k.reenter[n - 1], t);
    }
  }

  // ---- New tokens are recorded as asked ----

  /** Token `t` is registered at index `i` with these parameters, owned and listed under its creator. */
  ghost predicate RecordedAs(r: Registry, i: nat, creator: Address, p: TokenParams) {
    var t := Derived(creator, p.salt);
    && At(r.index, t) == Some(i) && At(r.address, i) == Some(t) && At(r.owner, t) == Some(creator)
    && RecordOf(r, t) == Some(TokenInfo(p.name, p.symbol, p.decimals, creator, true, p.maxSupply))
    && (p.maxSupply.Some? ==> At(r.supply, t) == Some(p.initialSupply))
    && t in r.deployed
  }

  lemma AddRecords(r: Registry, creator: Address, p: TokenParams)
    ensures RecordedAs(AddToken(r, creator, p), r.count + 1, creator, p) && AddToken(r, creator, p).count == r.count + 1
  {
    hide Appended;
  }

  lemma AddKeepsRecorded(r: Registry, i: nat, creator: Address, q: TokenParams, p: TokenParams)
    requires RecordedAs(r, i, creator, q) && i <= r.count && Derived(creator, p.salt) !in r.deployed
    ensures RecordedAs(AddToken(r, creator, p), i, creator, q)
  {
    hide Appended, InfoFor;
    assert Derived(creator, q.salt) != Derived(creator, p.salt);
  }

  /** Adding a token writes its entries and no others; only a capped token gets a counter. */
  lemma AddsOnlyItself(r: Registry, creator: Address, p: TokenParams)
    ensures var r', t, i := AddToken(r, creator, p), Derived(creator, p.salt), r.count + 1;
      r' == Registry(
        i, r.info[i := TokenInfo(p.name, p.symbol, p.decimals, creator, true, p.maxSupply)], r.index[t := i],
        r.address[i := t], r.owner[t := creator],
        if p.maxSupply.Some? then r.supply[t := p.initialSupply] else r.supply,
        r.backfilled, r.metadata, r.version, r.frozen, r.whitelist, r.deployed + {t}, r'.lists)
  {
    hide Appended;
  }

  /** A successful creation registers the token at the next index exactly as asked, and changes no other entry. */
  lemma CreatedAsAsked(w: World, creator: Address, item: Item, pay: I128, fee: FeeScript)
    requires CreateTokenStep(w, creator, item, pay, fee).reply.Done?
    ensures var turn := CreateTokenStep(w, creator, item, pay, fee);
      && turn.reply == Done([Derived(creator, item.params.salt)])
      && RecordedAs(RegistryOf(turn.world), w.st.tokenCount + 1, creator, item.params)
      && turn.world.st.tokenCount == w.st.tokenCount + 1
      && turn.world.lists == Appended(w.lists, creator, w.st.tokenCount + 1)
    ensures var r, r', p := RegistryOf(w), RegistryOf(CreateTokenStep(w, creator, item, pay, fee).world), item.params;
      var t, i := Derived(creator, p.salt), w.st.tokenCount + 1;
      r' == Registry(
        i, r.info[i := TokenInfo(p.name, p.symbol, p.decimals, creator, true, p.maxSupply)], r.index[t := i],
        r.address[i := t], r.owner[t := creator],
        if p.maxSupply.Some? then r.supply[t := p.initialSupply] else r.supply,
        r.backfilled, r.metadata, r.version, r.frozen, r.whitelist, r.deployed + {t}, r'.lists)
  {
    hide CreateTokenStep, AddToken, RecordedAs, ParamsError, Issued, Appended, RecordError, FeesFor;
    CreateDone(w, creator, item, pay, fee);
    CreateRegistry(w, creator, item, pay, fee);
    AddRecords(RegistryOf(w), creator, item.params);
    AddsOnlyItself(RegistryOf(w), creator, item.params);
    assert RegistryOf(w).count == w.st.tokenCount;
  }

  lemma {:induction false} RecordAllAsAsked(w: World, creator: Address, items: seq<Item>, n: nat)
    requires n <= |items| && RecordAll(w, creator, items, n).Recorded?
    ensures var b := RecordAll(w, creator, items, n);
      && |b.tokens| == n && b.world.st.tokenCount == w.st.tokenCount + n
      && RegistryOf(b.world).count == w.st.tokenCount + n
      && (forall i :: 0 <= i < n ==> b.tokens[i] == Derived(creator, items[i].params.salt))
      && (forall i :: 0 <= i < n ==>
            RecordedAs(RegistryOf(b.world), w.st.tokenCount + 1 + i, creator, items[i].params))
  {
    hide RegistryOf, RegisterToken, AddToken, RecordedAs, RecordError;
    CountField(w);
    if n > 0 {
      RecordAllAsAsked(w, creator, items, n - 1);
      var w0, p := RecordAll(w, creator, items, n - 1).world, items[n - 1].params;
      RegisterIsAdd(w0, creator, p);
      CountField(RegisterToken(w0, creator, p));
      AddRecords(RegistryOf(w0), creator, p);
      FreshToken(w0, creator, items[n - 1]);
      forall i | 0 <= i < n - 1
        ensures RecordedAs(AddToken(RegistryOf(w0), creator, p), w.st.tokenCount + 1 + i, creator, items[i].params)
      {
        AddKeepsRecorded(RegistryOf(w0), w.st.tokenCount + 1 + i, creator, items[i].params, p);
      }
    }
  }

  lemma CountField(w: World)
    ensures RegistryOf(w).count == w.st.tokenCount && RegistryOf(w).deployed == w.deployed
  {
  }

  lemma FreshToken(w: World, creator: Address, item: Item)
    requires RecordError(w, creator, item).None?
    ensures Derived(creator, item.params.salt) !in RegistryOf(w).deployed
  {
    hide TokensOf;
  }

  /** A successful batch registers its tokens at consecutive indices, in order, exactly as asked. */
  lemma BatchAsAsked(w: World, creator: Address, items: seq<Item>, pay: I128, fee: FeeScript)
    requires CreateBatchStep(w, creator, items, pay, fee).reply.Done?
    ensures var turn := CreateBatchStep(w, creator, items, pay, fee);
      && |turn.reply.tokens| == |items| && turn.world.st.tokenCount == w.st.tokenCount + |items|
      && forall i :: 0 <= i < |items| ==>
           turn.reply.tokens[i] == Derived(creator, items[i].params.salt) &&
           RecordedAs(RegistryOf(turn.world), w.st.tokenCount + 1 + i, creator, items[i].params)
  {
    hide RegistryOf, RecordAll, BatchParamsError, FeesFor, CreateBatchStep, RecordedAs, BatchFee;
    BatchDone(w, creator, items, pay, fee);
    RecordAllAsAsked(w, creator, items, |items|);
    var w1 := RecordAll(w, creator, items, |items|).world;
    LogOnly(w1, w1.log + FeesFor(w.split, w.st.treasury, creator, BatchFee(w, |items|), fee).effects);
  }
}
