/**
 * The unguarded entrypoints as their callers see them: exactly when each is
 * accepted, and exactly what it changes, in terms of the state record and of
 * what lookups answer.
 */
module FactorySettings {
  import opened Common
  import FeeSplit
  import opened CreatorPages
  import opened FactoryModel
  import opened FactoryRegistry
  import opened FactorySteps
  import opened FactoryMigration
  import opened FactoryRuns
  import opened FactoryAccess

  // ---- What lookups answer ----

  /** The entrypoints read a token, its owner and its marks as the merged registry has them. */
  lemma TokenReads(w: World, t: Address)
    ensures var r := RegistryOf(w);
      && IndexOf(w, t) == At(r.index, t) && OwnerOf(w, t) == At(r.owner, t)
      && (Registered(w, t).Some? <==> RecordOf(r, t).Some?)
      && (Registered(w, t).Some? ==> Registered(w, t).value == (r.index[t], RecordOf(r, t).value))
      && SupplyOf(w, t) == (if t in r.supply then r.supply[t] else 0)
      && (Frozen(w, t) <==> At(r.frozen, t) == Some(true))
      && VersionOf(w, t) == (if t in r.version then r.version[t] else 0)
      && (Backfilled(w, t) <==> At(r.backfilled, t) == Some(true))
      && (Whitelisted(w, t) <==> At(r.whitelist, t) == Some(true))
  {
    RegisteredReads(w, t);
    SupplyReads(w, t);
    IndexReads(w, t);
    OwnerReads(w, t);
    MarkReads(w, t);
    hide RegistryOf, IndexOf, OwnerOf, Registered, SupplyOf, Frozen, VersionOf, Backfilled, Whitelisted;
  }

  lemma MarkReads(w: World, t: Address)
    ensures var r := RegistryOf(w);
      && (Frozen(w, t) <==> At(r.frozen, t) == Some(true))
      && VersionOf(w, t) == (if t in r.version then r.version[t] else 0)
      && (Backfilled(w, t) <==> At(r.backfilled, t) == Some(true))
      && (Whitelisted(w, t) <==> At(r.whitelist, t) == Some(true))
  {
    hide Lookup;
    LookupIsMerged(w.pers.metadataFrozen, w.inst.metadataFrozen, t);
    LookupIsMerged(w.pers.metadataVersion, w.inst.metadataVersion, t);
    LookupIsMerged(w.pers.backfilled, w.inst.backfilled, t);
    LookupIsMerged(w.pers.whitelist, w.inst.whitelist, t);
  }

  // ---- When an unguarded call is accepted ----

  /** The fee split is a list of at most ten positive weights adding up to 10000 basis points. */
  predicate GoodSplit(splits: seq<Share>) {
    |splits| <= 10 && (forall i :: 0 <= i < |splits| ==> splits[i].bps > 0) && Sum(Weights(splits)) == 10_000
  }

  lemma SplitAcceptedIff(splits: seq<Share>)
    ensures SplitError(splits).None? <==> splits == [] || GoodSplit(splits)
  {
    if splits != [] {
      AcceptedSplitIsValid(splits);
      hide SplitError, Sum;
      assert forall i :: 0 <= i < |splits| ==> Weights(splits)[i] == splits[i].bps;
    }
  }

  /** What each unguarded call asks of the world. */
  ghost predicate AdminDue(w: World, c: AdminCall) {
    var s, r := w.st, RegistryOf(w);
    match c
    case Pause(a) => a == s.admin
    case Unpause(a) => a == s.admin
    case SetFeeSplit(a, splits) => a == s.admin && (splits == [] || GoodSplit(splits))
    case UpdateFees(a, base, meta) =>
      a == s.admin && (base.Some? ==> base.value >= 0) && (meta.Some? ==> meta.value >= 0)
    case AddToWhitelist(a, _) => a == s.admin
    case RemoveFromWhitelist(a, _) => a == s.admin
    case SetWhitelistEnabled(a, _) => a == s.admin
    case FreezeMetadata(t, a) => !s.paused && At(r.owner, t) == Some(a)
    case ProposeAdmin(a, b) => a == s.admin && a != b && w.ledger + 17_280 <= U32_MAX
    case AcceptAdmin(b) =>
      s.pendingAdmin == Some(b) && s.pendingAdminExpiry.Some? && w.ledger < s.pendingAdminExpiry.value
    case CancelAdminProposal(a) => a == s.admin
    case ProposeUpgrade(a, _) => a == s.admin && w.ledger + 17_280 <= U32_MAX
    case ExecuteUpgrade(a, hash, installs) =>
      a == s.admin && s.pendingUpgradeHash == Some(hash) && installs &&
      s.pendingUpgradeReadyAt.Some? && s.pendingUpgradeReadyAt.value <= w.ledger
    case CancelUpgrade(a) => a == s.admin
    case Migrate(a) => a == s.admin && !(w.sv < 3 && s.tokenCount == U32_MAX && w.cursor + 20 >= U32_MAX)
    case BackfillCappedSupply(a, t, verified) =>
      a == s.admin && RecordOf(r, t).Some? && RecordOf(r, t).value.maxSupply.Some? &&
      0 <= verified <= RecordOf(r, t).value.maxSupply.value && At(r.backfilled, t) != Some(true)
    case BackfillTokenAddress(t) => t in r.index
  }

  lemma WalkEndsIff(w: World)
    requires w.st.tokenCount <= U32_MAX
    ensures WalkNeverEnds(w) <==> w.sv < 3 && w.st.tokenCount == U32_MAX && w.cursor + 20 >= U32_MAX
  {
  }

  /** An unguarded call is accepted exactly when it meets what it asks. */
  lemma AdminAcceptedIff(w: World, c: AdminCall)
    requires w.st.tokenCount <= U32_MAX
    ensures AdminStep(w, c).reply.Done? <==> AdminDue(w, c)
  {
    hide RegistryOf, IndexOf, OwnerOf, Registered, SupplyOf, Backfilled, WalkNeverEnds, SplitError, AdminEffect,
      RecordOf, GoodSplit;
    match c
    case SetFeeSplit(_, splits) => SplitAcceptedIff(splits);
    case Migrate(_) => WalkEndsIff(w);
    case FreezeMetadata(t, _) => TokenReads(w, t);
    case BackfillCappedSupply(_, t, _) => TokenReads(w, t);
    case BackfillTokenAddress(t) => TokenReads(w, t);
    case _ =>
  }

  // ---- What an error says ----

  lemma {:induction false} MoreBps(splits: seq<Share>, n: nat, m: nat)
    requires n <= m <= |splits|
    ensures TotalBps(splits, n) <= TotalBps(splits, m)
  {
    if n < m { MoreBps(splits, n, m - 1); }
  }

  lemma {:induction false} ScanExplains(splits: seq<Share>, n: nat)
    requires n <= |splits| && SplitScanError(splits, n).Some?
    ensures match SplitScanError(splits, n).value
            case ZeroFeeSplitEntry => exists i :: 0 <= i < |splits| && splits[i].bps == 0
            case ArithmeticOverflow => Sum(Weights(splits)) > U32_MAX
            case _ => false
  {
    if SplitScanError(splits, n - 1).Some? {
      ScanExplains(splits, n - 1);
    } else if splits[n - 1].bps > 0 {
      MoreBps(splits, n, |splits|);
      SplitTotal(splits, |splits|);
      assert Weights(splits)[..|splits|] == Weights(splits);
    }
  }

  lemma SplitExplains(splits: seq<Share>)
    requires SplitError(splits).Some?
    ensures match SplitError(splits).value
            case TooManyFeeSplitRecipients => |splits| > 10
            case ZeroFeeSplitEntry => exists i :: 0 <= i < |splits| && splits[i].bps == 0
            case ArithmeticOverflow => Sum(Weights(splits)) > U32_MAX
            case InvalidFeeSplit => Sum(Weights(splits)) != 10_000
            case _ => false
  {
    if SplitScanError(splits, |splits|).Some? { ScanExplains(splits, |splits|); }
    SplitTotal(splits, |splits|);
    assert Weights(splits)[..|splits|] == Weights(splits);
    hide SplitScanError, Sum, TotalBps;
  }

  /** Who an unguarded call says is calling: only two of them are open to others than the admin. */
  function CallerOf(c: AdminCall): Option<Address> {
    match c
    case AcceptAdmin(b) => Some(b)
    case BackfillTokenAddress(_) => None
    case _ => Some(c.admin)
  }

  /** What each error code of an unguarded call tells about it. */
  ghost predicate AdminExplains(w: World, c: AdminCall, e: Error) {
    var s, r := w.st, RegistryOf(w);
    match e
    case Unauthorized =>
      if c.FreezeMetadata? then At(r.owner, c.token) != Some(c.admin)
      else CallerOf(c).Some? && CallerOf(c).value != s.admin
    case ContractPaused => c.FreezeMetadata? && s.paused
    case TokenNotFound =>
      || (c.FreezeMetadata? && c.token !in r.owner)
      || (c.BackfillCappedSupply? && RecordOf(r, c.token).None?)
      || (c.BackfillTokenAddress? && c.token !in r.index)
    case InvalidParameters =>
      || (c.UpdateFees? && ((c.baseFee.Some? && c.baseFee.value < 0) ||
        (c.metadataFee.Some? && c.metadataFee.value < 0)))
      || (c.ProposeAdmin? && c.newAdmin == c.admin)
      || (c.BackfillCappedSupply? && RecordOf(r, c.token).Some? &&
          match RecordOf(r, c.token).value.maxSupply
          case None => true
          case Some(cap) => !(0 <= c.verifiedSupply <= cap))
    case TooManyFeeSplitRecipients => c.SetFeeSplit? && |c.splits| > 10
    case ZeroFeeSplitEntry => c.SetFeeSplit? && exists i :: 0 <= i < |c.splits| && c.splits[i].bps == 0
    case InvalidFeeSplit => c.SetFeeSplit? && Sum(Weights(c.splits)) != 10_000
    case ArithmeticOverflow =>
      || (c.SetFeeSplit? && Sum(Weights(c.splits)) > U32_MAX)
      || ((c.ProposeAdmin? || c.ProposeUpgrade?) && w.ledger + 17_280 > U32_MAX)
    case NoPendingProposal => c.AcceptAdmin? && s.pendingAdmin != Some(c.newAdmin)
    case ProposalExpired =>
      c.AcceptAdmin? && (s.pendingAdminExpiry.Some? ==> s.pendingAdminExpiry.value <= w.ledger)
    case NoUpgradePending => c.ExecuteUpgrade? && (s.pendingUpgradeHash.None? || s.pendingUpgradeReadyAt.None?)
    case UpgradeNotReady =>
      c.ExecuteUpgrade? && s.pendingUpgradeReadyAt.Some? && w.ledger < s.pendingUpgradeReadyAt.value
    case UpgradeHashMismatch => c.ExecuteUpgrade? && s.pendingUpgradeHash != Some(c.hash)
    case AlreadyBackfilled => c.BackfillCappedSupply? && At(r.backfilled, c.token) == Some(true)
    case HostTrap =>
      || (c.ExecuteUpgrade? && !c.installs)
      || (c.Migrate? && w.sv < 3 && s.tokenCount == U32_MAX)
    case _ => false
  }

  lemma TokenCallExplains(w: World, c: AdminCall)
    requires c.FreezeMetadata? || c.BackfillCappedSupply? || c.BackfillTokenAddress?
    requires AdminRefusal(w, c).Some?
    ensures AdminExplains(w, c, AdminRefusal(w, c).value)
  {
    hide RegistryOf, IndexOf, OwnerOf, Registered, SupplyOf, Backfilled, WalkNeverEnds, SplitError, RecordOf, Sum;
    TokenReads(w, c.token);
  }

  lemma SettingsCallExplains(w: World, c: AdminCall)
    requires !(c.FreezeMetadata? || c.BackfillCappedSupply? || c.BackfillTokenAddress?)
    requires w.st.tokenCount <= U32_MAX && AdminRefusal(w, c).Some?
    ensures AdminExplains(w, c, AdminRefusal(w, c).value)
  {
    hide RegistryOf, IndexOf, OwnerOf, Registered, SupplyOf, Backfilled, WalkNeverEnds, SplitError, RecordOf, Sum;
    match c
    case SetFeeSplit(_, splits) => if SplitError(splits).Some? { SplitExplains(splits); }
    case Migrate(_) => WalkEndsIff(w);
    case _ =>
  }

  /** A refused unguarded call reports an error that is true of it. */
  lemma AdminRefusalTellsWhy(w: World, c: AdminCall)
    requires w.st.tokenCount <= U32_MAX && AdminStep(w, c).reply.Fail?
    ensures AdminExplains(w, c, AdminStep(w, c).reply.error)
  {
    hide AdminRefusal, AdminExplains, AdminEffect;
    if c.FreezeMetadata? || c.BackfillCappedSupply? || c.BackfillTokenAddress? {
      TokenCallExplains(w, c);
    } else {
      SettingsCallExplains(w, c);
    }
  }

  // ---- What an accepted call does ----

  /** The record of settings after an accepted call other than `migrate`. */
  predicate SettingsBecome(s: FactoryState, s': FactoryState, ledger: nat, c: AdminCall) {
    match c
    case Pause(_) => s' == s.(paused := true)
    case Unpause(_) => s' == s.(paused := false)
    case UpdateFees(_, base, meta) =>
      && s'.baseFee == (if base.Some? then base.value else s.baseFee)
      && s'.metadataFee == (if meta.Some? then meta.value else s.metadataFee)
      && s' == s.(baseFee := s'.baseFee, metadataFee := s'.metadataFee)
    case SetWhitelistEnabled(_, enabled) => s' == s.(whitelistEnabled := enabled)
    case ProposeAdmin(_, b) => s' == s.(pendingAdmin := Some(b), pendingAdminExpiry := Some(ledger + 17_280))
    case AcceptAdmin(b) => s' == s.(admin := b, pendingAdmin := None, pendingAdminExpiry := None)
    case CancelAdminProposal(_) =>
      s' == if s.pendingAdmin.None? then s else s.(pendingAdmin := None, pendingAdminExpiry := None)
    case ProposeUpgrade(_, hash) =>
      s' == s.(pendingUpgradeHash := Some(hash), pendingUpgradeReadyAt := Some(ledger + 17_280))
    case ExecuteUpgrade(_, hash, _) =>
      s' == s.(tokenWasmHash := hash, pendingUpgradeHash := None, pendingUpgradeReadyAt := None)
    case CancelUpgrade(_) =>
      s' == if s.pendingUpgradeHash.None? then s else s.(pendingUpgradeHash := None, pendingUpgradeReadyAt := None)
    case Migrate(_) => true
    case _ => s' == s
  }

  /** The merged registry after an accepted call. */
  ghost predicate RegistryBecomes(r: Registry, r': Registry, c: AdminCall) {
    match c
    case AddToWhitelist(_, a) => r' == r.(whitelist := r.whitelist[a := true])
    case RemoveFromWhitelist(_, a) => r' == r.(whitelist := r.whitelist - {a})
    case FreezeMetadata(t, _) => r' == r.(frozen := r.frozen[t := true])
    case BackfillCappedSupply(_, t, verified) =>
      var counter := if t in r.supply then r.supply[t] else 0;
      r' == r.(supply := if verified > counter then r.supply[t := verified] else r.supply,
               backfilled := r.backfilled[t := true])
    case BackfillTokenAddress(t) =>
      && t in r.index && r.index[t] in r'.address
      && (r' == r || r' == r.(address := r.address[r.index[t] := t]))
    case _ => r' == r
  }

  lemma FreezePuts(w: World, t: Address)
    ensures RegistryOf(FreezeWorld(w, t)) == RegistryOf(w).(frozen := RegistryOf(w).frozen[t := true])
  {
    hide TouchFrozen, TouchOwner, RegistryOf, Frozen;
    hide TouchIndex, TouchInfo, TouchSupply, TouchVersion, TouchBackfilled;
    TouchesAreInvisible(w, t, 0);
    TouchesAreInvisible(TouchOwner(w, t), t, 0);
    var w1 := TouchFrozen(TouchOwner(w, t), t);
    TokenReads(w, t);
    if !Frozen(w, t) { FrozenEntry(w1, t); }
  }

  lemma FrozenEntry(w: World, t: Address)
    ensures var w1 := w.(pers := w.pers.(metadataFrozen := w.pers.metadataFrozen[t := true]));
      RegistryOf(w1) == RegistryOf(w).(frozen := RegistryOf(w).frozen[t := true])
  {
    MergePut(w.inst.metadataFrozen, w.pers.metadataFrozen, t, true);
  }

  lemma WhitelistAdds(w: World, a: Address)
    ensures var w1 := w.(pers := w.pers.(whitelist := w.pers.whitelist[a := true]));
      RegistryOf(w1) == RegistryOf(w).(whitelist := RegistryOf(w).whitelist[a := true])
  {
    MergePut(w.inst.whitelist, w.pers.whitelist, a, true);
  }

  lemma WhitelistRemoves(w: World, a: Address)
    ensures var w1 := w.(pers := w.pers.(whitelist := w.pers.whitelist - {a}),
                         inst := w.inst.(whitelist := w.inst.whitelist - {a}));
      RegistryOf(w1) == RegistryOf(w).(whitelist := RegistryOf(w).whitelist - {a})
  {
    assert (w.inst.whitelist - {a}) + (w.pers.whitelist - {a}) == (w.inst.whitelist + w.pers.whitelist) - {a};
  }

  lemma NewSettings(s: FactoryState, ledger: nat, c: AdminCall)
    requires c.UpdateFees? ==>
      (c.baseFee.Some? ==> c.baseFee.value >= 0) && (c.metadataFee.Some? ==> c.metadataFee.value >= 0)
    ensures SettingsBecome(s, NewState(s, ledger, c), ledger, c)
  {
  }

  lemma EffectDoes(w: World, c: AdminCall)
    requires Tiers(w) && AdminRefusal(w, c).None?
    ensures var w1 := AdminEffect(w, c);
      SettingsBecome(w.st, w1.st, w.ledger, c) && RegistryBecomes(RegistryOf(w), RegistryOf(w1), c)
  {
    hide AdminRefusal, Tiers, RegistryOf, MigrateWorld, FreezeWorld, BackfillSupplyWorld, BackfillAddressWorld,
      IndexOf, NewState, SupplyOf;
    AcceptedArguments(w, c);
    match c
    case SetFeeSplit(_, splits) => SplitSame(w, splits);
    case AddToWhitelist(_, a) => WhitelistAdds(w, a);
    case RemoveFromWhitelist(_, a) => WhitelistRemoves(w, a);
    case FreezeMetadata(t, _) =>
      FreezePuts(w, t);
      TokenAdminSettings(w, t, 0);
    case Migrate(_) => MigrateInvisible(w);
    case BackfillCappedSupply(_, t, verified) =>
      BackfillSupplyRegistry(w, t, verified);
      SupplyReads(w, t);
      TokenAdminSettings(w, t, verified);
    case BackfillTokenAddress(t) =>
      BackfillAddressRegistry(w, t);
      TokenAdminSettings(w, t, 0);
    case _ =>
      NewStateSame(w, c);
      NewSettings(w.st, w.ledger, c);
  }

  lemma TokenAdminSettings(w: World, t: Address, verified: int)
    ensures FreezeWorld(w, t).st == w.st && BackfillSupplyWorld(w, t, verified).st == w.st
    ensures IndexOf(w, t).Some? ==> BackfillAddressWorld(w, t).st == w.st
  {
    hide PromotePers, PromoteInst, SupplyOf;
  }

  /**
   * An accepted unguarded call changes the settings and the registry as its name says, and the split
   * only if it sets it.
   */
  lemma AdminDoes(w: World, c: AdminCall)
    requires Tiers(w) && AdminStep(w, c).reply.Done?
    ensures var w1 := AdminStep(w, c).world;
      && SettingsBecome(w.st, w1.st, w.ledger, c) && RegistryBecomes(RegistryOf(w), RegistryOf(w1), c)
      && w1.split == (if c.SetFeeSplit? then c.splits else w.split) && w1.log == w.log && w1.ledger == w.ledger
  {
    hide AdminRefusal, AdminEffect, Tiers, RegistryOf, SettingsBecome, RegistryBecomes;
    AdminFrame(w, c);
    EffectDoes(w, c);
  }

  /** What passing versions 3, 4 and 5 resets, and that the stamp and the marker end together. */
  lemma MigrateResets(w: World)
    ensures var w1 := MigrateWorld(w);
      && (w.sv < 3 <= w1.sv ==> !w1.st.whitelistEnabled)
      && (w.sv < 4 <= w1.sv ==> w1.st.pendingAdmin.None? && w1.st.pendingAdminExpiry.None?)
      && (w.sv < 5 <= w1.sv ==> w1.st.pendingUpgradeHash.None? && w1.st.pendingUpgradeReadyAt.None?)
      && (w.sv != w1.sv ==> w1.st.schemaVersion == w1.sv)
  {
    hide MoveChunk, ChunkTarget;
    ChunkKeepsSettings(StampIfBelow(StampIfBelow(w, 1), 2));
  }

  lemma ChunkKeepsSettings(w: World)
    ensures MoveChunk(w).st == w.st && MoveChunk(w).sv == w.sv
  {
  }
}
