/**
 * When the two timelocks let a call through, over whole runs: an admin proposal
 * can be accepted, and a proposed upgrade executed, exactly inside its window.
 */
module FactoryTimelocks {
  import opened Common
  import opened CreatorPages
  import opened FactoryModel
  import opened FactoryMigration
  import opened FactorySteps
  import opened FactoryGovernance

  /** Event `i` is an accepted `migrate` that takes the stored version from below `version` to it or past it. */
  ghost predicate Passes(w: World, events: seq<Event>, i: nat, version: nat)
    requires i < |events|
  {
    && events[i].Admin? && events[i].admin.Migrate? && Accepted(w, events, i)
    && After(w, events, i).sv < version <= After(w, events, i + 1).sv
  }

  /**
   * Strictly between `j` and `k` no rotation call was accepted and no `migrate` passed version 4, which
   * drops proposals.
   */
  ghost predicate ProposalLeftAlone(w: World, events: seq<Event>, j: nat, k: nat)
    requires k <= |events|
  {
    forall i :: j < i < k ==> !(RotationEvent(events[i]) && Accepted(w, events, i)) && !Passes(w, events, i, 4)
  }

  /**
   * Strictly between `j` and `k` no upgrade call was accepted and no `migrate` passed version 5, which
   * drops upgrades.
   */
  ghost predicate UpgradeLeftAlone(w: World, events: seq<Event>, j: nat, k: nat)
    requires k <= |events|
  {
    forall i :: j < i < k ==> !(UpgradeEvent(events[i]) && Accepted(w, events, i)) && !Passes(w, events, i, 5)
  }

  // ---- One event ----

  lemma MigrateKeepsPending(w: World)
    ensures var s, w1 := w.st, MigrateWorld(w);
      && (!(w.sv < 4 <= w1.sv) ==>
            w1.st.pendingAdmin == s.pendingAdmin && w1.st.pendingAdminExpiry == s.pendingAdminExpiry)
      && (!(w.sv < 5 <= w1.sv) ==>
            w1.st.pendingUpgradeHash == s.pendingUpgradeHash && w1.st.pendingUpgradeReadyAt == s.pendingUpgradeReadyAt)
      && (w.sv < 4 <= w1.sv ==> w1.st.pendingAdmin.None?)
      && (w.sv < 5 <= w1.sv ==> w1.st.pendingUpgradeHash.None?)
  {
    hide MoveChunk, ChunkTarget;
    MoveKeepsState(StampIfBelow(StampIfBelow(w, 1), 2));
  }

  lemma MoveKeepsState(w: World)
    ensures MoveChunk(w).st == w.st && MoveChunk(w).sv == w.sv
  {
  }

  /**
   * What an accepted unguarded call that is neither about the rotation nor `migrate` leaves in place,
   * and about upgrades.
   */
  lemma EffectKeepsPending(w: World, c: AdminCall)
    requires AdminRefusal(w, c).None? && !c.Migrate?
    ensures var s, s' := w.st, AdminEffect(w, c).st;
      && (!RotationEvent(Admin(c)) ==>
            s'.pendingAdmin == s.pendingAdmin && s'.pendingAdminExpiry == s.pendingAdminExpiry)
      && (!UpgradeEvent(Admin(c)) ==>
            s'.pendingUpgradeHash == s.pendingUpgradeHash && s'.pendingUpgradeReadyAt == s.pendingUpgradeReadyAt)
  {
    hide AdminRefusal, FreezeWorld, BackfillSupplyWorld, BackfillAddressWorld, IndexOf;
    AcceptedArguments(w, c);
    match c
    case FreezeMetadata(t, _) => TokenAdminState(w, t, 0);
    case BackfillCappedSupply(_, t, verified) => TokenAdminState(w, t, verified);
    case BackfillTokenAddress(t) => TokenAdminState(w, t, 0);
    case _ =>
  }

  /** What each event leaves of the two proposals: all of it, unless it is a call about them or `migrate` drops them. */
  lemma EventKeepsPending(w: World, events: seq<Event>, i: nat)
    requires i < |events|
    ensures var s, s' := After(w, events, i).st, After(w, events, i + 1).st;
      && (!(RotationEvent(events[i]) && Accepted(w, events, i)) && !Passes(w, events, i, 4) ==>
            s'.pendingAdmin == s.pendingAdmin && s'.pendingAdminExpiry == s.pendingAdminExpiry)
      && (!(UpgradeEvent(events[i]) && Accepted(w, events, i)) && !Passes(w, events, i, 5) ==>
            s'.pendingUpgradeHash == s.pendingUpgradeHash && s'.pendingUpgradeReadyAt == s.pendingUpgradeReadyAt)
      && (Passes(w, events, i, 4) ==> s'.pendingAdmin.None?)
      && (Passes(w, events, i, 5) ==> s'.pendingUpgradeHash.None?)
  {
    hide Step, AdminRefusal, AdminEffect, MigrateWorld;
    var before := After(w, events, i);
    match events[i]
    case Guarded(c) => StepState(before, c);
    case Tick(_) =>
    case Admin(c) =>
      if AdminRefusal(before, c).None? {
        if c.Migrate? {
          MigrateKeepsPending(before);
          assert AdminEffect(before, c) == MigrateWorld(before) by { MigrateEffect(before, c); }
        } else {
          EffectKeepsPending(before, c);
        }
      }
  }

  lemma MigrateEffect(w: World, c: AdminCall)
    requires c.Migrate? && AdminRefusal(w, c).None?
    ensures AdminEffect(w, c) == MigrateWorld(w)
  {
  }

  /** A proposal comes up only by an accepted call about the rotation. */
  lemma {:induction false} NoProposalStays(w: World, events: seq<Event>, i: nat, k: nat)
    requires i <= k <= |events| && After(w, events, i).st.pendingAdmin.None?
    requires forall x :: i <= x < k ==> !(RotationEvent(events[x]) && Accepted(w, events, x))
    ensures After(w, events, k).st.pendingAdmin.None?
  {
    hide Apply, UpgradeKeptOrGone;
    if i < k {
      NoProposalStays(w, events, i, k - 1);
      EventOnGovernance(After(w, events, k - 1), events[k - 1]);
      assert !(RotationEvent(events[k - 1]) && Accepted(w, events, k - 1));
    }
  }

  lemma {:induction false} NoUpgradeStays(w: World, events: seq<Event>, i: nat, k: nat)
    requires i <= k <= |events| && After(w, events, i).st.pendingUpgradeHash.None?
    requires forall x :: i <= x < k ==> !(UpgradeEvent(events[x]) && Accepted(w, events, x))
    ensures After(w, events, k).st.pendingUpgradeHash.None?
  {
    hide Apply, ProposalKeptOrGone;
    if i < k {
      NoUpgradeStays(w, events, i, k - 1);
      EventOnGovernance(After(w, events, k - 1), events[k - 1]);
      assert !(UpgradeEvent(events[k - 1]) && Accepted(w, events, k - 1));
    }
  }

  // ---- The admin rotation window ----

  lemma AcceptIff(w: World, b: Address)
    ensures AdminStep(w, AcceptAdmin(b)).reply.Done? <==>
      && w.st.pendingAdmin == Some(b)
      && w.st.pendingAdminExpiry.Some? && w.ledger < w.st.pendingAdminExpiry.value
    ensures AdminStep(w, AcceptAdmin(b)).reply.Done? ==> AdminStep(w, AcceptAdmin(b)).world.st.admin == b
  {
  }

  lemma ProposeRecords(w: World, a: Address, b: Address)
    requires AdminStep(w, ProposeAdmin(a, b)).reply.Done?
    ensures var s := AdminStep(w, ProposeAdmin(a, b)).world.st;
      a == w.st.admin && s.pendingAdmin == Some(b) && s.pendingAdminExpiry == Some(w.ledger + 17_280)
  {
  }

  /** A proposal left alone is there as it was made. */
  lemma {:induction false} ProposalStays(w: World, events: seq<Event>, j: nat, k: nat)
    requires j < k <= |events| && events[j].Admin? && events[j].admin.ProposeAdmin? && Accepted(w, events, j)
    requires ProposalLeftAlone(w, events, j, k)
    ensures After(w, events, k).st.pendingAdmin == Some(events[j].admin.newAdmin)
    ensures After(w, events, k).st.pendingAdminExpiry == Some(After(w, events, j).ledger + 17_280)
  {
    hide Apply, Passes, RotationEvent;
    if k == j + 1 {
      FirstStep(w, events, j);
    } else {
      ProposalStays(w, events, j, k - 1);
      EventKeepsPending(w, events, k - 1);
    }
  }

  lemma FirstStep(w: World, events: seq<Event>, j: nat)
    requires j < |events| && events[j].Admin? && events[j].admin.ProposeAdmin? && Accepted(w, events, j)
    ensures After(w, events, j + 1).st.pendingAdmin == Some(events[j].admin.newAdmin)
    ensures After(w, events, j + 1).st.pendingAdminExpiry == Some(After(w, events, j).ledger + 17_280)
  {
    hide AdminStep;
    ProposeRecords(After(w, events, j), events[j].admin.admin, events[j].admin.newAdmin);
  }

  /**
   * A proposal left alone can be accepted by the proposed admin during the
   * 17280 ledgers after it was made, and not later; the admin is then that one.
   */
  lemma ProposalWindow(w: World, events: seq<Event>, j: nat, k: nat, a: Address, b: Address)
    requires j < k < |events| && events[j] == Admin(ProposeAdmin(a, b)) && Accepted(w, events, j)
    requires ProposalLeftAlone(w, events, j, k) && events[k] == Admin(AcceptAdmin(b))
    ensures Accepted(w, events, k) <==> After(w, events, k).ledger < After(w, events, j).ledger + 17_280
    ensures Accepted(w, events, k) ==> After(w, events, k + 1).st.admin == b
  {
    hide AdminStep, ProposalLeftAlone;
    ProposalStays(w, events, j, k);
    AcceptIff(After(w, events, k), b);
  }

  /**
   * `b`'s acceptance at `k` has its proposal at `j`: by the admin, left alone since, and less than 17280
   * ledgers old.
   */
  ghost predicate AcceptsProposal(w: World, events: seq<Event>, j: nat, k: nat, b: Address)
    requires k < |events|
  {
    && j < k && events[j] == Admin(ProposeAdmin(After(w, events, j).st.admin, b)) && Accepted(w, events, j)
    && ProposalLeftAlone(w, events, j, k) && After(w, events, k).ledger < After(w, events, j).ledger + 17_280
  }

  lemma OriginIsLeftAlone(w: World, events: seq<Event>, j: nat, k: nat)
    requires j < k <= |events| && NoRotationBetween(w, events, j, k)
    requires After(w, events, k).st.pendingAdmin.Some?
    ensures ProposalLeftAlone(w, events, j, k)
  {
    hide Passes, RotationEvent, Apply;
    forall i | j < i < k ensures !Passes(w, events, i, 4) {
      EventKeepsPending(w, events, i);
      if Passes(w, events, i, 4) { NoProposalStays(w, events, i + 1, k); }
    }
  }

  /** `accept_admin(b)` is accepted exactly when such a proposal stands behind it. */
  lemma AcceptanceIff(w: World, events: seq<Event>, k: nat, b: Address)
    requires k < |events| && w.st.pendingAdmin.None? && events[k] == Admin(AcceptAdmin(b))
    ensures Accepted(w, events, k) <==> exists j :: AcceptsProposal(w, events, j, k, b)
  {
    hide AdminStep, ProposalLeftAlone;
    AcceptIff(After(w, events, k), b);
    if Accepted(w, events, k) {
      var j := ProposalOrigin(w, events, k);
      OriginIsLeftAlone(w, events, j, k);
      assert AcceptsProposal(w, events, j, k, b);
    } else {
      forall j | AcceptsProposal(w, events, j, k, b) ensures false {
        ProposalWindow(w, events, j, k, After(w, events, j).st.admin, b);
      }
    }
  }

  // ---- The upgrade timelock ----

  lemma ExecuteIff(w: World, a: Address, hash: nat, installs: bool)
    ensures AdminStep(w, ExecuteUpgrade(a, hash, installs)).reply.Done? <==>
      && a == w.st.admin && installs && w.st.pendingUpgradeHash == Some(hash)
      && w.st.pendingUpgradeReadyAt.Some? && w.st.pendingUpgradeReadyAt.value <= w.ledger
    ensures AdminStep(w, ExecuteUpgrade(a, hash, installs)).reply.Done? ==>
      AdminStep(w, ExecuteUpgrade(a, hash, installs)).world.st.tokenWasmHash == hash
  {
  }

  lemma ProposeUpgradeRecords(w: World, a: Address, hash: nat)
    requires AdminStep(w, ProposeUpgrade(a, hash)).reply.Done?
    ensures var s := AdminStep(w, ProposeUpgrade(a, hash)).world.st;
      a == w.st.admin && s.pendingUpgradeHash == Some(hash) && s.pendingUpgradeReadyAt == Some(w.ledger + 17_280)
  {
  }

  lemma {:induction false} UpgradeStays(w: World, events: seq<Event>, j: nat, k: nat)
    requires j < k <= |events| && events[j].Admin? && events[j].admin.ProposeUpgrade? && Accepted(w, events, j)
    requires UpgradeLeftAlone(w, events, j, k)
    ensures After(w, events, k).st.pendingUpgradeHash == Some(events[j].admin.hash)
    ensures After(w, events, k).st.pendingUpgradeReadyAt == Some(After(w, events, j).ledger + 17_280)
  {
    hide Apply, Passes, UpgradeEvent;
    if k == j + 1 {
      FirstUpgradeStep(w, events, j);
    } else {
      UpgradeStays(w, events, j, k - 1);
      EventKeepsPending(w, events, k - 1);
    }
  }

  lemma FirstUpgradeStep(w: World, events: seq<Event>, j: nat)
    requires j < |events| && events[j].Admin? && events[j].admin.ProposeUpgrade? && Accepted(w, events, j)
    ensures After(w, events, j + 1).st.pendingUpgradeHash == Some(events[j].admin.hash)
    ensures After(w, events, j + 1).st.pendingUpgradeReadyAt == Some(After(w, events, j).ledger + 17_280)
  {
    hide AdminStep;
    ProposeUpgradeRecords(After(w, events, j), events[j].admin.admin, events[j].admin.hash);
  }

  /**
   * A proposed upgrade left alone can be executed by the admin from 17280
   * ledgers after the proposal on, with code that installs, and not earlier.
   */
  lemma UpgradeWindow(w: World, events: seq<Event>, j: nat, k: nat, a: Address, hash: nat)
    requires j < k < |events| && events[j] == Admin(ProposeUpgrade(a, hash)) && Accepted(w, events, j)
    requires UpgradeLeftAlone(w, events, j, k)
    requires events[k] == Admin(ExecuteUpgrade(After(w, events, k).st.admin, hash, true))
    ensures Accepted(w, events, k) <==> After(w, events, j).ledger + 17_280 <= After(w, events, k).ledger
    ensures Accepted(w, events, k) ==> After(w, events, k + 1).st.tokenWasmHash == hash
  {
    hide AdminStep, UpgradeLeftAlone;
    UpgradeStays(w, events, j, k);
    ExecuteIff(After(w, events, k), After(w, events, k).st.admin, hash, true);
  }

  /**
   * The execution at `k` has its proposal at `j`: of the same hash, left alone since, and at least 17280
   * ledgers old.
   */
  ghost predicate ExecutesProposal(w: World, events: seq<Event>, j: nat, k: nat, hash: nat)
    requires k < |events|
  {
    && j < k && events[j] == Admin(ProposeUpgrade(After(w, events, j).st.admin, hash)) && Accepted(w, events, j)
    && UpgradeLeftAlone(w, events, j, k) && After(w, events, j).ledger + 17_280 <= After(w, events, k).ledger
  }

  lemma UpgradeOriginIsLeftAlone(w: World, events: seq<Event>, j: nat, k: nat)
    requires j < k <= |events| && NoUpgradeBetween(w, events, j, k)
    requires After(w, events, k).st.pendingUpgradeHash.Some?
    ensures UpgradeLeftAlone(w, events, j, k)
  {
    hide Passes, UpgradeEvent, Apply;
    forall i | j < i < k ensures !Passes(w, events, i, 5) {
      EventKeepsPending(w, events, i);
      if Passes(w, events, i, 5) { NoUpgradeStays(w, events, i + 1, k); }
    }
  }

  /**
   * `execute_upgrade` is accepted exactly when the admin calls it, the code installs and such a proposal
   * stands behind it.
   */
  lemma ExecutionIff(w: World, events: seq<Event>, k: nat, a: Address, hash: nat, installs: bool)
    requires k < |events| && w.st.pendingUpgradeHash.None? && events[k] == Admin(ExecuteUpgrade(a, hash, installs))
    ensures Accepted(w, events, k) <==>
      a == After(w, events, k).st.admin && installs && exists j :: ExecutesProposal(w, events, j, k, hash)
  {
    hide AdminStep, UpgradeLeftAlone;
    ExecuteIff(After(w, events, k), a, hash, installs);
    if Accepted(w, events, k) {
      var j := UpgradeOrigin(w, events, k);
      UpgradeOriginIsLeftAlone(w, events, j, k);
      assert ExecutesProposal(w, events, j, k, hash);
    } else if a == After(w, events, k).st.admin && installs {
      forall j | ExecutesProposal(w, events, j, k, hash) ensures false {
        UpgradeWindow(w, events, j, k, After(w, events, j).st.admin, hash);
      }
    }
  }
}
