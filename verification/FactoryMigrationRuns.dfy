/**
 * The schema migration in a live factory: whatever else happens between the
 * calls, short of creating a token, the number of accepted calls it takes is
 * the same, and no lookup of any kind moves because of them.
 */
module FactoryMigrationRuns {
  import opened Common
  import opened CreatorPages
  import opened FactoryModel
  import opened FactoryRegistry
  import opened FactorySteps
  import opened FactoryMigration
  import opened FactoryRuns
  import opened FactoryGovernance

  // ---- What guarded calls do to the schema: nothing ----

  /** The version marker and the cursor stay; the token count never drops nor leaves `u32`. */
  predicate SchemaKept(w: World, w': World) {
    && w'.sv == w.sv && w'.cursor == w.cursor
    && w.st.tokenCount <= w'.st.tokenCount <= Max(w.st.tokenCount, U32_MAX)
  }

  lemma TouchSchema(w: World, t: Address)
    ensures SchemaKept(w, TouchOwner(w, t)) && SchemaKept(w, TouchRegistered(w, t))
  {
    hide PromotePers, PromoteInst;
  }

  lemma PreparedSchema(w: World, t: Address, amount: int)
    ensures SchemaKept(w, MetadataPrepared(w, t))
    ensures Registered(w, t).Some? ==> SchemaKept(w, MintPrepared(w, t, amount))
  {
    hide PromotePers, PromoteInst, SupplyOf;
  }

  lemma {:induction false} RecordAllSchema(w: World, creator: Address, items: seq<Item>, n: nat)
    requires n <= |items|
    ensures RecordAll(w, creator, items, n).Recorded? ==> SchemaKept(w, RecordAll(w, creator, items, n).world)
  {
    hide Appended;
    if n > 0 { RecordAllSchema(w, creator, items, n - 1); }
  }

  lemma SingleStepSchema(w: World, c: Call)
    requires !c.Burn? && Step(w, c).reply.Done?
    ensures SchemaKept(w, Step(w, c).world)
  {
    hide FeesFor, RecordAll, CreateBatchStep, SetMetadataStep, MintStep, SetBurnEnabledStep, Appended;
    hide MintPrepared, MetadataPrepared, TouchRegistered, TouchOwner, BatchParamsError, ParamsError;
    hide Registered, MintRefusal, VersionOf;
    match c
    case CreateToken(_, _, _, _) =>
    case CreateTokensBatch(creator, items, pay, fee) =>
      BatchDone(w, creator, items, pay, fee);
      RecordAllSchema(w, creator, items, |items|);
    case SetMetadata(t, admin, uri, pay, fee) =>
      MetadataDone(w, t, admin, uri, pay, fee);
      PreparedSchema(w, t, 0);
    case MintTokens(t, admin, to, amount, pay, fee, mint) =>
      MintDone(w, t, admin, to, amount, pay, fee, mint);
      PreparedSchema(w, t, amount);
    case SetBurnEnabled(t, admin, enabled) =>
      BurnToggleDone(w, t, admin, enabled);
      TouchSchema(w, t);
      TouchSchema(TouchOwner(w, t), t);
  }

  lemma {:induction false} StepSchema(w: World, c: Call)
    ensures SchemaKept(w, Step(w, c).world)
    decreases c, 1
  {
    hide CreateTokenStep, CreateBatchStep, SetMetadataStep, MintStep, SetBurnEnabledStep, BurnRefusal, TouchRegistered;
    FailureIsSilent(w, c);
    if Step(w, c).reply.Done? {
      if c.Burn? {
        TouchSchema(w, c.token);
        ReenterSchema(TouchRegistered(w, c.token), c.balanceCall, |c.balanceCall.reenter|);
      } else {
        SingleStepSchema(w, c);
      }
    }
  }

  lemma {:induction false} ReenterSchema(w: World, k: Callee, n: nat)
    requires n <= |k.reenter|
    ensures SchemaKept(w, Reenter(w, k, n))
    decreases k, n
  {
    hide Step;
    if n > 0 {
      ReenterSchema(w, k, n - 1);
      StepSchema(Reenter(w, k, n - 1), k.reenter[n - 1]);
    }
  }

  // ---- Unguarded calls other than `migrate` ----

  lemma TokenAdminSchema(w: World, t: Address, verified: int)
    ensures SchemaKept(w, FreezeWorld(w, t)) && SchemaKept(w, BackfillSupplyWorld(w, t, verified))
    ensures IndexOf(w, t).Some? ==> SchemaKept(w, BackfillAddressWorld(w, t))
  {
    hide PromotePers, PromoteInst, SupplyOf;
  }

  lemma EffectSchema(w: World, c: AdminCall)
    requires !c.Migrate? && AdminRefusal(w, c).None?
    ensures SchemaKept(w, AdminEffect(w, c))
  {
    hide AdminRefusal, NewState, IndexOf, BackfillSupplyWorld, BackfillAddressWorld, FreezeWorld;
    AcceptedArguments(w, c);
    match c
    case FreezeMetadata(t, _) => TokenAdminSchema(w, t, 0);
    case BackfillCappedSupply(_, t, verified) => TokenAdminSchema(w, t, verified);
    case BackfillTokenAddress(t) => TokenAdminSchema(w, t, 0);
    case _ => NewStateFrame(w.st, w.ledger, c);
  }

  lemma AdminSchema(w: World, c: AdminCall)
    requires !c.Migrate?
    ensures SchemaKept(w, AdminStep(w, c).world)
  {
    hide AdminRefusal, AdminEffect;
    if AdminRefusal(w, c).None? { EffectSchema(w, c); }
  }

  predicate MigrateEvent(e: Event) { e.Admin? && e.admin.Migrate? }

  lemma OtherEventSchema(w: World, e: Event)
    requires !MigrateEvent(e)
    ensures SchemaKept(w, Apply(w, e).world)
  {
    hide Step, AdminStep;
    match e
    case Guarded(c) => StepSchema(w, c);
    case Admin(c) => AdminSchema(w, c);
    case Tick(_) =>
  }

  // ---- Token counts over a run ----

  lemma MigrateCount(w: World, e: Event)
    requires MigrateEvent(e)
    ensures Apply(w, e).world.st.tokenCount == w.st.tokenCount
  {
    hide AdminStep;
    AdminFrame(w, e.admin);
  }

  lemma {:induction false} CountOnlyGrows(w: World, events: seq<Event>, m: nat, n: nat)
    requires m <= n <= |events|
    ensures After(w, events, m).st.tokenCount <= After(w, events, n).st.tokenCount
    ensures After(w, events, n).st.tokenCount <= Max(After(w, events, m).st.tokenCount, U32_MAX)
  {
    hide Apply;
    if m < n {
      CountOnlyGrows(w, events, m, n - 1);
      var before, e := After(w, events, n - 1), events[n - 1];
      if MigrateEvent(e) {
        MigrateCount(before, e);
      } else {
        OtherEventSchema(before, e);
      }
    }
  }

  // ---- The migration over any run ----

  /** How many `migrate` calls the first `n` events hold that were accepted. */
  function MigrateCalls(w: World, events: seq<Event>, n: nat): nat
    requires n <= |events|
  {
    if n == 0 then 0
    else MigrateCalls(w, events, n - 1) + if MigrateEvent(events[n - 1]) && Accepted(w, events, n - 1) then 1 else 0
  }

  /** How far the migration of `w` is after `k` accepted calls. */
  ghost predicate Migrated(w: World, now: World, k: nat)
    requires w.cursor <= w.st.tokenCount
  {
    && (k < CallsNeeded(w) ==> now.sv < 3 && now.cursor == w.cursor + 20 * k)
    && (k >= CallsNeeded(w) ==> now.sv == 5 && now.inst.tokenInfo == map[] && w.st.tokenCount < U32_MAX)
  }

  lemma CursorInRange(w: World)
    requires Tiers(w)
    ensures w.cursor <= w.st.tokenCount
  {
  }

  /** An accepted call walks one chunk, or does nothing once the migration is over. */
  lemma MigrateAdvances(w: World, now: World, k: nat, admin: Address)
    requires Tiers(w) && w.sv < 3 && w.st.tokenCount <= U32_MAX && now.st.tokenCount == w.st.tokenCount
    requires Tiers(now) && Migrated(w, now, k) && AdminRefusal(now, Migrate(admin)).None?
    ensures Migrated(w, MigrateWorld(now), k + 1)
  {
    hide MigrateWorld, Tiers;
    CursorInRange(w);
    MigrateInvisible(now);
    MigratePreserves(now);
    if k + 1 == CallsNeeded(w) { AfterThree(MigrateWorld(now)); }
  }

  /** An event that leaves the marker, the cursor and the token count alone leaves the migration where it is. */
  lemma MigratedStays(w: World, now: World, next: World, k: nat)
    requires w.cursor <= w.st.tokenCount && Migrated(w, now, k) && SchemaKept(now, next) && Tiers(next)
    ensures Migrated(w, next, k)
  {
    if k >= CallsNeeded(w) { AfterThree(next); }
  }

  /**
   * A factory below version 3, in a run that creates no token: while fewer than
   * `max(1, ceil((token_count - cursor) / 20))` of its `migrate` calls have been
   * accepted it is below version 3 with the cursor one chunk further per call,
   * and from that many on it is at version 5 with no record left in instance
   * storage. With `u32::MAX` tokens that many are never accepted.
   */
  lemma {:induction false} MigrationOverRun(w: World, base: nat, events: seq<Event>, n: nat)
    requires Inv(w, base) && w.sv < 3 && w.st.tokenCount <= U32_MAX && n <= |events|
    requires After(w, events, n).st.tokenCount == w.st.tokenCount
    ensures w.cursor <= w.st.tokenCount && Migrated(w, After(w, events, n), MigrateCalls(w, events, n))
  {
    hide Apply, Tiers, WellFormed, Consistent, SupplySafe, RegistryOf, Migrated, SchemaKept;
    CursorInRange(w);
    if n == 0 {
      StartsUnmigrated(w);
    } else {
      CountOnlyGrows(w, events, n - 1, n);
      CountOnlyGrows(w, events, 0, n - 1);
      MigrationOverRun(w, base, events, n - 1);
      RunKeepsInv(w, base, events, n - 1);
      RunKeepsInv(w, base, events, n);
      var before, e, k := After(w, events, n - 1), events[n - 1], MigrateCalls(w, events, n - 1);
      if MigrateEvent(e) {
        MigrateAlternatives(before, e.admin);
        if Accepted(w, events, n - 1) { MigrateAdvances(w, before, k, e.admin.admin); }
      } else {
        OtherEventSchema(before, e);
        MigratedStays(w, before, After(w, events, n), k);
      }
    }
  }

  lemma StartsUnmigrated(w: World)
    requires Tiers(w) && w.sv < 3
    ensures Migrated(w, w, 0)
  {
  }

  lemma MigrateAlternatives(w: World, c: AdminCall)
    requires c.Migrate?
    ensures Apply(w, Admin(c)).reply.Done? <==> AdminRefusal(w, c).None?
    ensures Apply(w, Admin(c)).world == if AdminRefusal(w, c).None? then MigrateWorld(w) else w
  {
    hide MigrateWorld, WalkNeverEnds;
  }

  /** In such a run the admin's calls are accepted, but for the last one a factory of `u32::MAX` tokens would need. */
  lemma MigrateAcceptedIff(w: World, base: nat, events: seq<Event>, n: nat)
    requires Inv(w, base) && w.sv < 3 && w.st.tokenCount <= U32_MAX && n < |events|
    requires After(w, events, n).st.tokenCount == w.st.tokenCount
    requires events[n] == Admin(Migrate(After(w, events, n).st.admin))
    ensures Accepted(w, events, n) <==> w.st.tokenCount < U32_MAX || MigrateCalls(w, events, n) + 1 < CallsNeeded(w)
  {
    hide Apply, Tiers, WellFormed, Consistent, SupplySafe, RegistryOf;
    MigrationOverRun(w, base, events, n);
    MigrateAlternatives(After(w, events, n), events[n].admin);
  }

  /** No accepted `migrate` in any run changes what any lookup answers. */
  lemma MigrateInRunIsInvisible(w: World, base: nat, events: seq<Event>, n: nat)
    requires Inv(w, base) && n < |events| && MigrateEvent(events[n])
    ensures RegistryOf(After(w, events, n + 1)) == RegistryOf(After(w, events, n))
  {
    hide Apply, Tiers, WellFormed, Consistent, SupplySafe, RegistryOf, MigrateWorld;
    RunKeepsInv(w, base, events, n);
    MigrateAlternatives(After(w, events, n), events[n].admin);
    MigrateInvisible(After(w, events, n));
  }

  // ---- The creator counts fit ----

  lemma {:induction false} IncreasingBelow(list: seq<nat>, count: nat)
    requires forall j, k :: 0 <= j < k < |list| ==> list[j] < list[k]
    requires forall j :: 0 <= j < |list| ==> 1 <= list[j] <= count
    ensures |list| <= count
  {
    if list != [] {
      var n := |list| - 1;
      IncreasingBelow(list[..n], list[n] - 1);
    }
  }

  /** A creator never has more entries than there are tokens, so every stored count is a `u32`, in every run. */
  lemma CreatorCountsFit(w: World, base: nat, events: seq<Event>, n: nat, c: Address)
    requires Inv(w, base) && w.st.tokenCount <= U32_MAX && n <= |events|
    ensures var l := After(w, events, n).lists;
      ValidLists(l) && (c in l.counts ==> l.counts[c] == |TokensOf(l, c)| <= U32_MAX)
  {
    RunKeepsInv(w, base, events, n);
    CountOnlyGrows(w, events, 0, n);
    CreatorCountFits(After(w, events, n), base, c);
    hide After, Inv, ValidLists, TokensOf;
  }

  lemma CreatorCountFits(w: World, base: nat, c: Address)
    requires Inv(w, base)
    ensures ValidLists(w.lists)
    ensures c in w.lists.counts ==> w.lists.counts[c] == |TokensOf(w.lists, c)| <= w.st.tokenCount
  {
    assert ListSound(RegistryOf(w), c);
    IncreasingBelow(TokensOf(w.lists, c), w.st.tokenCount);
  }
}
