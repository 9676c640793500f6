/**
 * The resumable schema migration: where records live at any moment, that no
 * lookup can tell, and how many calls it takes.
 */
module FactoryMigration {
  import opened Common
  import opened CreatorPages
  import opened FactoryModel
  import opened FactoryRegistry

  /** Where `TokenInfo` records can be: never in two tiers, never in instance storage behind the cursor. */
  ghost predicate Tiers(w: World) {
    && w.inst.tokenInfo.Keys !! w.pers.tokenInfo.Keys
    && (forall i :: i in w.inst.tokenInfo ==> w.cursor < i <= w.st.tokenCount)
    && (forall i :: i in w.pers.tokenInfo ==> i <= w.st.tokenCount)
    && w.cursor <= w.st.tokenCount
    && (w.sv >= 3 ==> w.inst.tokenInfo == map[])
  }

  // ---- Every write keeps the tiers apart ----

  lemma TouchKeepsTiers(w: World, t: Address, i: nat)
    requires Tiers(w)
    ensures Tiers(TouchIndex(w, t)) && Tiers(TouchInfo(w, i)) && Tiers(TouchOwner(w, t)) && Tiers(TouchSupply(w, t))
    ensures Tiers(TouchFrozen(w, t)) && Tiers(TouchVersion(w, t)) && Tiers(TouchBackfilled(w, t))
  {
  }

  lemma RegisteredTouchKeepsTiers(w: World, t: Address)
    requires Tiers(w)
    ensures Tiers(TouchRegistered(w, t))
    ensures IndexOf(w, t).Some? && InfoAt(w, IndexOf(w, t).value).Some? ==>
      IndexOf(w, t).value in TouchRegistered(w, t).pers.tokenInfo
  {
    match IndexOf(w, t)
    case None =>
    case Some(i) =>
      TouchKeepsTiers(w, t, 0);
      TouchKeepsTiers(TouchIndex(w, t), t, i);
  }

  lemma RegisterKeepsTiers(w: World, creator: Address, p: TokenParams)
    requires Tiers(w)
    ensures Tiers(RegisterToken(w, creator, p))
  {
    hide Appended, InfoFor;
  }

  /** Rewriting a record already in persistent storage keeps the tiers apart. */
  lemma RewriteKeepsTiers(w: World, i: nat, info: TokenInfo)
    requires Tiers(w) && i in w.pers.tokenInfo
    ensures Tiers(w.(pers := w.pers.(tokenInfo := w.pers.tokenInfo[i := info])))
  {
  }

  // ---- One migrate call ----

  lemma ChunkInvisible(w: World)
    requires Tiers(w)
    ensures RegistryOf(MoveChunk(w)) == RegistryOf(w)
    ensures w.sv < 3 ==> Tiers(MoveChunk(w))
    ensures ChunkTarget(w) >= w.st.tokenCount ==> MoveChunk(w).inst.tokenInfo == map[]
  {
    var moved := Stragglers(w.inst.tokenInfo, w.cursor, ChunkTarget(w));
    assert (w.inst.tokenInfo - moved.Keys) + (w.pers.tokenInfo + moved) == w.inst.tokenInfo + w.pers.tokenInfo;
  }

  lemma StampInvisible(w: World, version: nat)
    requires Tiers(w) && (version >= 3 ==> w.inst.tokenInfo == map[])
    ensures RegistryOf(StampIfBelow(w, version)) == RegistryOf(w) && Tiers(StampIfBelow(w, version))
    ensures StampIfBelow(w, version).sv == Max(w.sv, version)
    ensures StampIfBelow(w, version).inst == w.inst && StampIfBelow(w, version).cursor == w.cursor
    ensures StampIfBelow(w, version).st.tokenCount == w.st.tokenCount
  {
  }

  lemma StepThreeInvisible(w: World)
    requires Tiers(w) && w.sv < 3
    ensures RegistryOf(StepThree(w)) == RegistryOf(w) && Tiers(StepThree(w))
    ensures StepThree(w).cursor == ChunkTarget(w) && StepThree(w).st.tokenCount == w.st.tokenCount
    ensures StepThree(w).sv == if ChunkTarget(w) >= w.st.tokenCount then 3 else w.sv
  {
    ChunkInvisible(w);
  }

  /** `migrate` never changes what any lookup answers, and keeps the tiers apart. */
  lemma MigrateInvisible(w: World)
    requires Tiers(w)
    ensures RegistryOf(MigrateWorld(w)) == RegistryOf(w) && Tiers(MigrateWorld(w))
    ensures MigrateWorld(w).st.tokenCount == w.st.tokenCount
    ensures w.sv < 3 ==> MigrateWorld(w).cursor == ChunkTarget(w)
    ensures w.sv < 3 && ChunkTarget(w) < w.st.tokenCount ==> MigrateWorld(w).sv < 3
    ensures w.sv < 3 && ChunkTarget(w) >= w.st.tokenCount ==> MigrateWorld(w).sv == 5
    ensures w.sv >= 3 ==> MigrateWorld(w).sv == Max(w.sv, 5)
  {
    hide RegistryOf, Tiers, StepThree, StampIfBelow;
    StampInvisible(w, 1);
    var w1 := StampIfBelow(w, 1);
    StampInvisible(w1, 2);
    var w2 := StampIfBelow(w1, 2);
    assert ChunkTarget(w2) == ChunkTarget(w);
    if w2.sv < 3 { StepThreeInvisible(w2); }
    var w3 := if w2.sv < 3 then StepThree(w2) else w2;
    if w3.sv >= 3 {
      AfterThree(w3);
      StampInvisible(w3, 4);
      StampInvisible(StampIfBelow(w3, 4), 5);
    }
  }

  lemma AfterThree(w: World)
    requires Tiers(w) && w.sv >= 3
    ensures w.inst.tokenInfo == map[]
  {
  }

  /** The state fields no schema step resets. */
  predicate SameSettings(s: FactoryState, s': FactoryState) {
    && s'.admin == s.admin && s'.paused == s.paused && s'.treasury == s.treasury && s'.feeToken == s.feeToken
    && s'.baseFee == s.baseFee && s'.metadataFee == s.metadataFee && s'.tokenWasmHash == s.tokenWasmHash
    && s'.tokenCount == s.tokenCount && s'.locked == s.locked
  }

  lemma StampPreserves(w: World, version: nat)
    ensures var s, s' := w.st, StampIfBelow(w, version).st;
      && SameSettings(s, s')
      && (version != 3 ==> s'.whitelistEnabled == s.whitelistEnabled)
      && (version != 4 ==> s'.pendingAdmin == s.pendingAdmin && s'.pendingAdminExpiry == s.pendingAdminExpiry)
      && (w.sv >= version ==> StampIfBelow(w, version) == w)
      && StampIfBelow(w, version).sv == Max(w.sv, version)
  {
  }

  lemma StepThreePreserves(w: World)
    ensures SameSettings(w.st, StepThree(w).st) && StepThree(w).sv <= Max(w.sv, 3)
  {
    hide Stragglers;
  }

  /** What `migrate` leaves alone: the settings always, the other governance fields once their step has run. */
  lemma MigratePreserves(w: World)
    ensures SameSettings(w.st, MigrateWorld(w).st)
    ensures w.sv >= 3 ==> MigrateWorld(w).st.whitelistEnabled == w.st.whitelistEnabled
    ensures w.sv >= 4 ==> MigrateWorld(w).st.pendingAdmin == w.st.pendingAdmin &&
                          MigrateWorld(w).st.pendingAdminExpiry == w.st.pendingAdminExpiry
    ensures w.sv >= 5 ==> MigrateWorld(w) == w
  {
    hide StampIfBelow, StepThree;
    StampPreserves(w, 1);
    var w1 := StampIfBelow(w, 1);
    StampPreserves(w1, 2);
    var w2 := StampIfBelow(w1, 2);
    StepThreePreserves(w2);
    var w3 := if w2.sv < 3 then StepThree(w2) else w2;
    StampPreserves(w3, 4);
    StampPreserves(StampIfBelow(w3, 4), 5);
  }

  // ---- The whole migration ----

  /** `n` calls of `migrate` in a row, nothing in between. */
  function MigrateTimes(w: World, n: nat): World {
    if n == 0 then w else MigrateWorld(MigrateTimes(w, n - 1))
  }

  /** One call per started chunk of 20 records left to walk, and at least one. */
  function CallsNeeded(w: World): nat
    requires w.cursor <= w.st.tokenCount
  {
    Max(1, (w.st.tokenCount - w.cursor + 19) / 20)
  }

  lemma {:induction false} MidMigration(w: World, k: nat)
    requires Tiers(w) && w.sv < 3 && w.st.tokenCount < U32_MAX && k < CallsNeeded(w)
    ensures var wk := MigrateTimes(w, k);
      && Tiers(wk) && RegistryOf(wk) == RegistryOf(w) && wk.sv < 3
      && wk.st.tokenCount == w.st.tokenCount && wk.cursor == w.cursor + 20 * k
  {
    hide RegistryOf, Tiers, MigrateWorld;
    if k > 0 {
      MidMigration(w, k - 1);
      var before := MigrateTimes(w, k - 1);
      assert w.cursor + 20 * k < w.st.tokenCount;
      assert ChunkTarget(before) == w.cursor + 20 * k;
      MigrateInvisible(before);
    }
  }

  /**
   * A factory below version 3 is at version 5 after exactly
   * `max(1, ceil((token_count - cursor) / 20))` calls, every lookup answering
   * as before, with nothing left in instance storage; further calls do nothing.
   */
  lemma MigrationCompletes(w: World)
    requires Tiers(w) && w.sv < 3 && w.st.tokenCount < U32_MAX
    ensures var done := MigrateTimes(w, CallsNeeded(w));
      && done.sv == 5 && RegistryOf(done) == RegistryOf(w)
      && done.inst.tokenInfo == map[] && MigrateWorld(done) == done
    ensures forall k :: 0 <= k < CallsNeeded(w) ==> MigrateTimes(w, k).sv < 3
  {
    forall k | 0 <= k < CallsNeeded(w) ensures MigrateTimes(w, k).sv < 3 { MidMigration(w, k); }
    LastChunk(w);
    hide RegistryOf, Tiers, MigrateWorld, CallsNeeded, ChunkTarget;
    var last := MigrateTimes(w, CallsNeeded(w) - 1);
    MigrateInvisible(last);
    AfterThree(MigrateWorld(last));
    MigratePreserves(MigrateWorld(last));
  }

  /** Before the last call, everything left to walk fits in one chunk. */
  lemma LastChunk(w: World)
    requires Tiers(w) && w.sv < 3 && w.st.tokenCount < U32_MAX
    ensures var last := MigrateTimes(w, CallsNeeded(w) - 1);
      && Tiers(last) && RegistryOf(last) == RegistryOf(w) && last.sv < 3
      && ChunkTarget(last) == last.st.tokenCount
  {
    MidMigration(w, CallsNeeded(w) - 1);
    hide RegistryOf, MigrateWorld, MigrateTimes;
  }

  lemma AcceptedMigrate(w: World)
    requires w.st.tokenCount < U32_MAX
    ensures AdminStep(w, Migrate(w.st.admin)) == Turn(MigrateWorld(w), Done([]))
  {
    hide MigrateWorld;
  }

  /** The admin's calls along the way are accepted, and each is one `MigrateWorld` step. */
  lemma {:induction false} MigrateCallsAccepted(w: World, events: seq<Event>, k: nat)
    requires Tiers(w) && w.sv < 3 && w.st.tokenCount < U32_MAX && k <= CallsNeeded(w)
    requires |events| >= k && forall j :: 0 <= j < k ==> events[j] == Admin(Migrate(w.st.admin))
    ensures After(w, events, k) == MigrateTimes(w, k) && MigrateTimes(w, k).st.admin == w.st.admin
    ensures forall j :: 0 <= j < k ==> Apply(After(w, events, j), events[j]).reply.Done?
  {
    hide MigrateWorld, RegistryOf, Tiers, AdminStep;
    if k > 0 {
      MigrateCallsAccepted(w, events, k - 1);
      MidMigration(w, k - 1);
      MigratePreserves(MigrateTimes(w, k - 1));
      AcceptedMigrate(MigrateTimes(w, k - 1));
    }
  }
}
