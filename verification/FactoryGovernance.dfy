/**
 * Two-step admin rotation and the upgrade timelock, over whole runs: why the
 * admin changed, and why an upgrade could execute.
 */
module FactoryGovernance {
  import opened Common
  import opened CreatorPages
  import opened FactoryModel
  import opened FactoryMigration
  import opened FactorySteps

  /** Event `i` of the run was accepted. */
  predicate Accepted(w: World, events: seq<Event>, i: nat)
    requires i < |events|
  {
    Apply(After(w, events, i), events[i]).reply.Done?
  }

  // ---- Guarded calls never touch governance ----

  lemma {:induction false} RecordAllState(w: World, creator: Address, items: seq<Item>, n: nat)
    requires n <= |items|
    ensures var b := RecordAll(w, creator, items, n);
      b.Recorded? ==> b.world.st == w.st.(tokenCount := b.world.st.tokenCount) && b.world.ledger == w.ledger
  {
    hide RecordError, Appended;
    if n > 0 { RecordAllState(w, creator, items, n - 1); }
  }

  lemma SingleStepState(w: World, c: Call)
    requires !c.Burn? && Step(w, c).reply.Done?
    ensures var w' := Step(w, c).world;
      w'.st == w.st.(tokenCount := w'.st.tokenCount) && w'.ledger == w.ledger
  {
    hide FeesFor, RecordAll, CreateBatchStep, CreateTokenStep, SetMetadataStep, MintStep, SetBurnEnabledStep;
    hide MintPrepared, MetadataPrepared, TouchRegistered, TouchOwner, RecordError, BatchParamsError, ParamsError;
    hide Registered, MintRefusal, VersionOf;
    match c
    case CreateToken(creator, item, pay, fee) => CreateDone(w, creator, item, pay, fee);
    case CreateTokensBatch(creator, items, pay, fee) =>
      BatchDone(w, creator, items, pay, fee);
      RecordAllState(w, creator, items, |items|);
    case SetMetadata(t, admin, uri, pay, fee) =>
      MetadataDone(w, t, admin, uri, pay, fee);
      PreparedState(w, t, 0);
    case MintTokens(t, admin, to, amount, pay, fee, mint) =>
      MintDone(w, t, admin, to, amount, pay, fee, mint);
      PreparedState(w, t, amount);
    case SetBurnEnabled(t, admin, enabled) =>
      BurnToggleDone(w, t, admin, enabled);
      TouchState(w, t);
      TouchState(TouchOwner(w, t), t);
  }

  lemma PreparedState(w: World, t: Address, amount: int)
    ensures MetadataPrepared(w, t).st == w.st && MetadataPrepared(w, t).ledger == w.ledger
    ensures Registered(w, t).Some? ==>
      MintPrepared(w, t, amount).st == w.st && MintPrepared(w, t, amount).ledger == w.ledger
  {
    hide PromotePers, PromoteInst, SupplyOf;
  }

  lemma TouchState(w: World, t: Address)
    ensures TouchOwner(w, t).st == w.st && TouchOwner(w, t).ledger == w.ledger
    ensures TouchRegistered(w, t).st == w.st && TouchRegistered(w, t).ledger == w.ledger
  {
    hide PromotePers, PromoteInst;
  }

  /** A guarded call changes nothing in the state record but the token count. */
  lemma {:induction false} StepState(w: World, c: Call)
    ensures var w' := Step(w, c).world;
      w'.st == w.st.(tokenCount := w'.st.tokenCount) && w'.ledger == w.ledger
    decreases c, 1
  {
    hide CreateTokenStep, CreateBatchStep, SetMetadataStep, MintStep, SetBurnEnabledStep, BurnRefusal, TouchRegistered;
    FailureIsSilent(w, c);
    if Step(w, c).reply.Done? {
      if c.Burn? {
        TouchState(w, c.token);
        ReenterState(TouchRegistered(w, c.token), c.balanceCall, |c.balanceCall.reenter|);
      } else {
        SingleStepState(w, c);
      }
    }
  }

  lemma {:induction false} ReenterState(w: World, k: Callee, n: nat)
    requires n <= |k.reenter|
    ensures var w' := Reenter(w, k, n);
      w'.st == w.st.(tokenCount := w'.st.tokenCount) && w'.ledger == w.ledger
    decreases k, n
  {
    hide Step;
    if n > 0 {
      ReenterState(w, k, n - 1);
      StepState(Reenter(w, k, n - 1), k.reenter[n - 1]);
    }
  }

  // ---- Admin rotation ----

  predicate RotationEvent(e: Event) {
    e.Admin? && (e.admin.ProposeAdmin? || e.admin.AcceptAdmin? || e.admin.CancelAdminProposal?)
  }

  predicate UpgradeEvent(e: Event) {
    e.Admin? && (e.admin.ProposeUpgrade? || e.admin.ExecuteUpgrade? || e.admin.CancelUpgrade?)
  }

  /** The pending admin proposal is as before, or gone. */
  predicate ProposalKeptOrGone(s: FactoryState, s': FactoryState) {
    (s'.pendingAdmin == s.pendingAdmin && s'.pendingAdminExpiry == s.pendingAdminExpiry) || s'.pendingAdmin.None?
  }

  predicate UpgradeKeptOrGone(s: FactoryState, s': FactoryState) {
    (s'.pendingUpgradeHash == s.pendingUpgradeHash && s'.pendingUpgradeReadyAt == s.pendingUpgradeReadyAt)
    || s'.pendingUpgradeHash.None?
  }

  predicate KeptOrGone(s: FactoryState, s': FactoryState) {
    ProposalKeptOrGone(s, s') && UpgradeKeptOrGone(s, s')
  }

  lemma StampKeeps(w: World, version: nat)
    ensures KeptOrGone(w.st, StampIfBelow(w, version).st)
  {
  }

  lemma MigrateKeeps(w: World)
    ensures KeptOrGone(w.st, MigrateWorld(w).st)
  {
    hide StampIfBelow, StepThree;
    StampKeeps(w, 1);
    var w1 := StampIfBelow(w, 1);
    StampKeeps(w1, 2);
    var w2 := StampIfBelow(w1, 2);
    StepThreeKeeps(w2);
    var w3 := if w2.sv < 3 then StepThree(w2) else w2;
    StampKeeps(w3, 4);
    StampKeeps(StampIfBelow(w3, 4), 5);
  }

  lemma StepThreeKeeps(w: World)
    ensures KeptOrGone(w.st, StepThree(w).st)
  {
    hide Stragglers;
  }

  lemma TokenAdminState(w: World, t: Address, verified: int)
    ensures FreezeWorld(w, t).st == w.st && BackfillSupplyWorld(w, t, verified).st == w.st
    ensures IndexOf(w, t).Some? ==> BackfillAddressWorld(w, t).st == w.st
  {
    hide PromotePers, PromoteInst, SupplyOf;
  }

  predicate GovernanceRule(e: Event, s: FactoryState, s': FactoryState) {
    && (!RotationEvent(e) ==> s'.admin == s.admin && ProposalKeptOrGone(s, s'))
    && (!UpgradeEvent(e) ==> s'.tokenWasmHash == s.tokenWasmHash && UpgradeKeptOrGone(s, s'))
  }

  lemma NewStateRule(st: FactoryState, ledger: nat, c: AdminCall)
    requires c.UpdateFees? ==>
      (c.baseFee.Some? ==> c.baseFee.value >= 0) && (c.metadataFee.Some? ==> c.metadataFee.value >= 0)
    ensures GovernanceRule(Admin(c), st, NewState(st, ledger, c))
  {
  }

  lemma EffectRule(w: World, c: AdminCall)
    requires AdminRefusal(w, c).None?
    ensures GovernanceRule(Admin(c), w.st, AdminEffect(w, c).st)
  {
    if c.BackfillTokenAddress? { BackfillIndexed(w, c.token); }
    NewStateRule(w.st, w.ledger, c);
    hide AdminRefusal, MigrateWorld, FreezeWorld, BackfillSupplyWorld, BackfillAddressWorld, IndexOf, NewState;
    match c
    case Migrate(_) => MigrateKeeps(w); MigratePreserves(w);
    case FreezeMetadata(t, _) => TokenAdminState(w, t, 0);
    case BackfillCappedSupply(_, t, verified) => TokenAdminState(w, t, verified);
    case BackfillTokenAddress(t) => TokenAdminState(w, t, 0);
    case _ =>
  }

  /** What any one event can do to the admin and to the two pending proposals. */
  lemma EventOnGovernance(w: World, e: Event)
    ensures GovernanceRule(e, w.st, Apply(w, e).world.st)
    ensures Apply(w, e).reply.Fail? ==> Apply(w, e).world.st == w.st
    ensures Apply(w, e).world.ledger == w.ledger + if e.Tick? then e.ledgers else 0
  {
    hide Step, AdminRefusal, AdminEffect;
    match e
    case Tick(_) =>
    case Guarded(c) =>
      StepState(w, c);
      FailureIsSilent(w, c);
    case Admin(c) =>
      AdminFrame(w, c);
      if AdminRefusal(w, c).None? { EffectRule(w, c); }
  }

  lemma BackfillIndexed(w: World, t: Address)
    requires AdminRefusal(w, BackfillTokenAddress(t)).None?
    ensures IndexOf(w, t).Some?
  {
  }

  /** Nothing about the rotation was accepted strictly between events `j` and `k`. */
  ghost predicate NoRotationBetween(w: World, events: seq<Event>, j: nat, k: nat)
    requires k <= |events|
  {
    forall i :: j < i < k ==> !(RotationEvent(events[i]) && Accepted(w, events, i))
  }

  /** The live proposal at `k` is the one accepted at `j`: same window, same admin, undisturbed since. */
  ghost predicate ProposedAt(w: World, events: seq<Event>, j: nat, k: nat)
    requires j < k <= |events|
  {
    var now, then_ := After(w, events, k).st, After(w, events, j);
    && Accepted(w, events, j)
    && now.pendingAdmin.Some?
    && events[j] == Admin(ProposeAdmin(then_.st.admin, now.pendingAdmin.value))
    && now.pendingAdminExpiry == Some(then_.ledger + ADMIN_PROPOSAL_TTL_LEDGERS)
    && now.admin == then_.st.admin
    && NoRotationBetween(w, events, j, k)
  }

  lemma ProposalCarries(w: World, events: seq<Event>, j: nat, k: nat)
    requires j < k < |events| && ProposedAt(w, events, j, k)
    requires After(w, events, k + 1).st.pendingAdmin.Some?
    requires !(RotationEvent(events[k]) && Accepted(w, events, k))
    ensures ProposedAt(w, events, j, k + 1)
  {
    hide Apply, UpgradeKeptOrGone, UpgradeEvent;
    EventOnGovernance(After(w, events, k), events[k]);
  }

  /** A live proposal traces back to the last accepted `propose_admin`. */
  lemma {:induction false} ProposalOrigin(w: World, events: seq<Event>, k: nat) returns (j: nat)
    requires k <= |events| && w.st.pendingAdmin.None?
    requires After(w, events, k).st.pendingAdmin.Some?
    ensures j < k && ProposedAt(w, events, j, k)
  {
    var before, e := After(w, events, k - 1), events[k - 1];
    if RotationEvent(e) && Accepted(w, events, k - 1) {
      RotationCases(before, e);
      j := k - 1;
    } else {
      assert before.st.pendingAdmin.Some? by { EventOnGovernance(before, e); }
      hide ProposedAt;
      j := ProposalOrigin(w, events, k - 1);
      ProposalCarries(w, events, j, k - 1);
    }
  }

  /** The accepted rotation events, one by one. */
  lemma RotationCases(w: World, e: Event)
    requires RotationEvent(e) && Apply(w, e).reply.Done?
    ensures var s, s' := w.st, Apply(w, e).world.st;
      match e.admin
      case ProposeAdmin(a, b) =>
        a == s.admin && a != b &&
        s' == s.(pendingAdmin := Some(b), pendingAdminExpiry := Some(w.ledger + ADMIN_PROPOSAL_TTL_LEDGERS))
      case AcceptAdmin(b) =>
        s.pendingAdmin == Some(b) && s.pendingAdminExpiry.Some? && w.ledger < s.pendingAdminExpiry.value &&
        s' == s.(pendingAdmin := None, pendingAdminExpiry := None, admin := b)
      case _ => s'.pendingAdmin.None? && s'.admin == s.admin
  {
  }

  /**
   * The admin moves from a to b only when b itself accepts a proposal that a
   * made while admin, strictly within the window, with no rotation event
   * accepted in between.
   */
  lemma AdminChangesOnlyByAcceptance(w: World, events: seq<Event>, k: nat) returns (j: nat)
    requires k < |events| && w.st.pendingAdmin.None?
    requires After(w, events, k + 1).st.admin != After(w, events, k).st.admin
    ensures var a, b := After(w, events, k).st.admin, After(w, events, k + 1).st.admin;
      && events[k] == Admin(AcceptAdmin(b)) && Accepted(w, events, k)
      && j < k && events[j] == Admin(ProposeAdmin(a, b)) && Accepted(w, events, j)
      && After(w, events, j).st.admin == a
      && After(w, events, k).ledger < After(w, events, j).ledger + 17_280
    ensures NoRotationBetween(w, events, j, k)
  {
    var now, e := After(w, events, k), events[k];
    EventOnGovernance(now, e);
    RotationCases(now, e);
    j := ProposalOrigin(w, events, k);
  }

  // ---- Upgrade timelock ----

  ghost predicate NoUpgradeBetween(w: World, events: seq<Event>, j: nat, k: nat)
    requires k <= |events|
  {
    forall i :: j < i < k ==> !(UpgradeEvent(events[i]) && Accepted(w, events, i))
  }

  lemma UpgradeCases(w: World, e: Event)
    requires UpgradeEvent(e) && Apply(w, e).reply.Done?
    ensures var s, s' := w.st, Apply(w, e).world.st;
      match e.admin
      case ProposeUpgrade(a, hash) =>
        a == s.admin &&
        s' == s.(pendingUpgradeHash := Some(hash), pendingUpgradeReadyAt := Some(w.ledger + UPGRADE_TIMELOCK_LEDGERS))
      case ExecuteUpgrade(a, hash, _) =>
        a == s.admin && s.pendingUpgradeHash == Some(hash) &&
        s.pendingUpgradeReadyAt.Some? && s.pendingUpgradeReadyAt.value <= w.ledger &&
        s' == s.(pendingUpgradeHash := None, pendingUpgradeReadyAt := None, tokenWasmHash := hash)
      case _ => s'.pendingUpgradeHash.None? && s'.tokenWasmHash == s.tokenWasmHash
  {
  }

  /** The pending upgrade at `k` is the one accepted at `j`, undisturbed since. */
  ghost predicate UpgradeProposedAt(w: World, events: seq<Event>, j: nat, k: nat)
    requires j < k <= |events|
  {
    var now, then_ := After(w, events, k).st, After(w, events, j);
    && Accepted(w, events, j)
    && now.pendingUpgradeHash.Some?
    && events[j] == Admin(ProposeUpgrade(then_.st.admin, now.pendingUpgradeHash.value))
    && now.pendingUpgradeReadyAt == Some(then_.ledger + UPGRADE_TIMELOCK_LEDGERS)
    && NoUpgradeBetween(w, events, j, k)
  }

  lemma UpgradeCarries(w: World, events: seq<Event>, j: nat, k: nat)
    requires j < k < |events| && UpgradeProposedAt(w, events, j, k)
    requires After(w, events, k + 1).st.pendingUpgradeHash.Some?
    requires !(UpgradeEvent(events[k]) && Accepted(w, events, k))
    ensures UpgradeProposedAt(w, events, j, k + 1)
  {
    hide Apply, ProposalKeptOrGone, RotationEvent;
    EventOnGovernance(After(w, events, k), events[k]);
  }

  lemma {:induction false} UpgradeOrigin(w: World, events: seq<Event>, k: nat) returns (j: nat)
    requires k <= |events| && w.st.pendingUpgradeHash.None?
    requires After(w, events, k).st.pendingUpgradeHash.Some?
    ensures j < k && UpgradeProposedAt(w, events, j, k)
  {
    var before, e := After(w, events, k - 1), events[k - 1];
    if UpgradeEvent(e) && Accepted(w, events, k - 1) {
      UpgradeCases(before, e);
      j := k - 1;
    } else {
      assert before.st.pendingUpgradeHash.Some? by { EventOnGovernance(before, e); }
      hide UpgradeProposedAt;
      j := UpgradeOrigin(w, events, k - 1);
      UpgradeCarries(w, events, j, k - 1);
    }
  }

  /**
   * An upgrade executes only the most recently proposed hash, at least the
   * timelock after that proposal, and at most once per proposal: nothing about
   * upgrades was accepted in between.
   */
  lemma UpgradeExecutesOnlyAfterTimelock(w: World, events: seq<Event>, k: nat) returns (j: nat)
    requires k < |events| && w.st.pendingUpgradeHash.None?
    requires events[k].Admin? && events[k].admin.ExecuteUpgrade? && Accepted(w, events, k)
    ensures j < k && Accepted(w, events, j)
    ensures events[j] == Admin(ProposeUpgrade(After(w, events, j).st.admin, events[k].admin.hash))
    ensures After(w, events, j).ledger + 17_280 <= After(w, events, k).ledger
    ensures NoUpgradeBetween(w, events, j, k)
    ensures After(w, events, k + 1).st.tokenWasmHash == events[k].admin.hash
  {
    UpgradeCases(After(w, events, k), events[k]);
    j := UpgradeOrigin(w, events, k);
  }

  /** The stored wasm hash changes by nothing else. */
  lemma WasmHashChangesOnlyByUpgrade(w: World, events: seq<Event>, k: nat)
    requires k < |events|
    requires After(w, events, k + 1).st.tokenWasmHash != After(w, events, k).st.tokenWasmHash
    ensures events[k].Admin? && events[k].admin.ExecuteUpgrade? && Accepted(w, events, k)
    ensures events[k].admin.hash == After(w, events, k + 1).st.tokenWasmHash
  {
    EventOnGovernance(After(w, events, k), events[k]);
    UpgradeCases(After(w, events, k), events[k]);
  }
}
