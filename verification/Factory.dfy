/**
 * The token factory's guarded entrypoints as the contract runs them: a local
 * copy of the state record, the lock written before the external calls, and
 * external contracts that may call back. Every contract below equates the
 * outcome with the atomic step of `FactoryModel`, which mentions neither the
 * lock nor the callbacks (except at `burn`'s balance query).
 */
module FactoryContract {
  import opened Common
  import FeeSplit
  import opened CreatorPages
  import opened FactoryModel

  class Factory {
    var st: FactoryState
    var inst: Tier
    var pers: Tier
    const creators: CreatorStore
    var split: seq<Share>
    var sv: nat
    var cursor: nat
    var deployed: set<Address>
    var log: seq<Effect>
    var ledger: nat

    constructor (w: World)
      ensures Snapshot() == w && fresh(creators)
    {
      st, inst, pers, split, sv, cursor := w.st, w.inst, w.pers, w.split, w.sv, w.cursor;
      deployed, log, ledger := w.deployed, w.log, w.ledger;
      creators := new CreatorStore(w.lists);
    }

    function Snapshot(): World
      reads this, creators
    {
      World(st, inst, pers, creators.View(), split, sv, cursor, deployed, log, ledger)
    }

    ghost predicate Valid()
      reads this, creators
    {
      WellFormed(Snapshot())
    }

    /** The host's rollback of a failed invocation. */
    method Restore(w: World)
      modifies this, creators
      ensures Snapshot() == w
    {
      st, inst, pers, split, sv, cursor := w.st, w.inst, w.pers, w.split, w.sv, w.cursor;
      deployed, log, ledger := w.deployed, w.log, w.ledger;
      creators.Restore(w.lists);
    }

    // ---- External calls ----

    /** Call another contract, which may call any guarded entrypoint before it returns. */
    method External(k: Callee) returns (ok: bool)
      requires Valid()
      modifies this, creators
      ensures ok == k.ok
      ensures Snapshot() == Reenter(old(Snapshot()), k, |k.reenter|)
      decreases k, 0
    {
      for i := 0 to |k.reenter|
        invariant Snapshot() == Reenter(old(Snapshot()), k, i)
      {
        ReenterKeepsWellFormed(old(Snapshot()), k, i);
        var _ := Invoke(k.reenter[i]);
      }
      ok := k.ok;
    }

    /** An external call made while the lock is stored: whatever the callee tries, nothing moves. */
    method LockedExternal(k: Callee) returns (ok: bool)
      requires Valid() && st.locked
      modifies this, creators
      ensures ok == k.ok
      ensures Snapshot() == old(Snapshot())
      decreases k, 1
    {
      LockedReenter(Snapshot(), k, |k.reenter|);
      ok := External(k);
    }

    /** One invocation of a guarded entrypoint, rolled back when it fails. */
    method Invoke(c: Call) returns (r: Reply)
      requires Valid()
      modifies this, creators
      ensures Turn(Snapshot(), r) == Step(old(Snapshot()), c)
      decreases c, 1
    {
      var saved := Snapshot();
      match c {
        case CreateToken(_, _, _, _) => r := CreateToken(c);
        case CreateTokensBatch(_, _, _, _) => r := CreateTokensBatch(c);
        case SetMetadata(_, _, _, _, _) => r := SetMetadata(c);
        case MintTokens(_, _, _, _, _, _, _) => r := MintTokens(c);
        case Burn(_, _, _, _, _, _) => r := Burn(c);
        case SetBurnEnabled(t, admin, enabled) => r := SetBurnEnabled(t, admin, enabled);
      }
      FailureIsSilent(saved, c);
      if r.Fail? { Restore(saved); }
    }

    // ---- Fees ----

    /** `distribute_fee`, for a caller that holds the lock. */
    method DistributeFee(payer: Address, amount: Amount, fee: FeeScript) returns (error: Option<Error>)
      requires Valid() && st.locked
      modifies this, creators
      ensures match FeesFor(old(split), old(st).treasury, payer, amount, fee)
        case NotCharged(e) => error == Some(e)
        case Charged(effects) => error == None && Snapshot() == old(Snapshot()).(log := old(log) + effects)
      decreases fee
    {
      var treasury := st.treasury;
      if split != [] {
        var shares, remainder := FeeSplit.Allocate(amount, Weights(split));
        if shares.None? { return Some(ArithmeticOverflow); }
        var extra;
        error, extra := PayRecipients(split, payer, amount, shares.value, remainder, fee);
        if error.Some? { return; }
        if extra > 0 {
          var ok := LockedExternal(fee.treasury);
          if !ok { return Some(TreasuryTransferFailed); }
          log := log + [Transfer(payer, treasury, extra)];
        }
      } else {
        var ok := LockedExternal(fee.treasury);
        if !ok { return Some(TreasuryTransferFailed); }
        log := log + [Transfer(payer, treasury, amount)];
      }
      error := None;
    }

    /** Third pass of `distribute_fee`: pay each recipient, collecting what could not be delivered. */
    method PayRecipients(recipients: seq<Share>, payer: Address, ghost amount: nat, shares: seq<int>,
                         remainder: int, fee: FeeScript)
      returns (error: Option<Error>, extra: int)
      requires Valid() && st.locked && split == recipients != [] && remainder == 0
      requires amount <= I128_MAX && shares == FeeSplit.Shares(amount, Weights(recipients))
      modifies this, creators
      ensures error == None && extra == Undelivered(shares, fee, |recipients|)
      ensures Snapshot() == old(Snapshot()).(log := old(log) + Payouts(recipients, shares, payer, fee, |recipients|))
      decreases fee, 0
    {
      hide FeeSplit.Shares, ValidLists, Payouts, Undelivered;
      NoPayouts(recipients, shares, payer, fee);
      extra := remainder;
      for i := 0 to |recipients|
        invariant extra == Undelivered(shares, fee, i)
        invariant Snapshot() == old(Snapshot()).(log := old(log) + Payouts(recipients, shares, payer, fee, i))
      {
        NextPayout(recipients, shares, payer, fee, i, old(log));
        if shares[i] > 0 {
          var ok := true;
          if i < |fee.recipients| { ok := LockedExternal(fee.recipients[i]); }
          if ok {
            log := log + [Transfer(payer, recipients[i].recipient, shares[i])];
          } else {
            UndeliveredFits(amount, Weights(recipients), shares, fee, i + 1);
            if extra + shares[i] > I128_MAX { return Some(ArithmeticOverflow), extra; }
            extra := extra + shares[i];
            log := log + [FeeRedirected(recipients[i].recipient, shares[i])];
          }
        }
      }
      error := None;
    }

    // ---- Token creation ----

    /** The external half of `record_token`: deploy, initialize, mint the initial supply. */
    method DeployToken(creator: Address, item: Item) returns (ok: bool)
      requires Valid() && st.locked
      modifies this, creators
      ensures var p, s, token := item.params, item.script, Derived(creator, item.params.salt);
        if !s.deploy.ok || token in old(deployed) || !s.init.ok || (p.initialSupply > 0 && !s.mint.ok) then !ok
        else ok && Snapshot() == old(Snapshot()).(
          deployed := old(deployed) + {token},
          log := old(log) + [Deploy(token)] +
            if p.initialSupply > 0 then [Mint(token, creator, p.initialSupply)] else [])
      decreases item, 0
    {
      var p := item.params;
      var token := Derived(creator, p.salt);
      ok := LockedExternal(item.script.deploy);
      if !ok || token in deployed { return false; }
      deployed := deployed + {token};
      log := log + [Deploy(token)];
      ok := LockedExternal(item.script.init);
      if !ok { return; }
      if p.initialSupply > 0 {
        ok := LockedExternal(item.script.mint);
        if !ok { return; }
        log := log + [Mint(token, creator, p.initialSupply)];
      }
    }

    /** `record_token`; the bumped count stays in the caller's local copy `s`. */
    method RecordToken(s: FactoryState, creator: Address, item: Item) returns (r: Reply, s': FactoryState)
      requires Valid() && st.locked
      modifies this, creators
      ensures var w := old(Snapshot()).(st := s);
        match RecordError(w, creator, item)
        case Some(e) => r == Fail(e)
        case None =>
          && r == Done([Derived(creator, item.params.salt)])
          && Snapshot().(st := s') == RegisterToken(w, creator, item.params)
          && st == old(st) && s'.locked == s.locked
      decreases item, 1
    {
      hide Appended;
      hide TokensOf;
      hide ValidLists;
      var p := item.params;
      s' := s;
      var token := Derived(creator, p.salt);
      var ok := DeployToken(creator, item);
      if !ok { return Fail(HostTrap), s; }
      if p.maxSupply.Some? {
        pers := pers.(supply := pers.supply[token := p.initialSupply]);
      }
      if s'.tokenCount + 1 > U32_MAX { return Fail(ArithmeticOverflow), s; }
      s' := s'.(tokenCount := s'.tokenCount + 1);
      var index := s'.tokenCount;
      var registered := Register(token, creator, index, InfoFor(creator, p));
      if !registered { return Fail(ArithmeticOverflow), s; }
      r := Done([token]);
    }

    /** `register_token`: every registry entry of a new token. */
    method Register(token: Address, creator: Address, index: nat, info: TokenInfo) returns (ok: bool)
      requires Valid()
      modifies this, creators
      ensures ok <==> |TokensOf(old(creators.View()), creator)| < U32_MAX
      ensures ok ==> Snapshot() == old(Snapshot()).(
        pers := old(pers).(tokenInfo := old(pers).tokenInfo[index := info],
                           tokenIndex := old(pers).tokenIndex[token := index],
                           tokenAddress := old(pers).tokenAddress[index := token],
                           owner := old(pers).owner[token := creator]),
        lists := Appended(old(creators.View()), creator, index))
    {
      pers := pers.(tokenInfo := pers.tokenInfo[index := info]);
      ok := creators.Append(creator, index);
      if !ok { return; }
      pers := pers.(tokenIndex := pers.tokenIndex[token := index]);
      pers := pers.(tokenAddress := pers.tokenAddress[index := token]);
      pers := pers.(owner := pers.owner[token := creator]);
    }

    /** `create_token` */
    method CreateToken(c: Call) returns (r: Reply)
      requires c.CreateToken? && Valid()
      modifies this, creators
      ensures r == Step(old(Snapshot()), c).reply
      ensures r.Done? ==> Snapshot() == Step(old(Snapshot()), c).world
      decreases c, 0
    {
      hide FeesFor;
      hide RegisterToken;
      hide RecordError;
      hide ParamsError;
      if st.paused { return Fail(ContractPaused); }
      var s := st;
      if s.locked { return Fail(Reentrancy); }
      if ParamsError(c.item.params).Some? { return Fail(ParamsError(c.item.params).value); }
      if c.feePayment < s.baseFee { return Fail(InsufficientFee); }
      if s.whitelistEnabled && !Whitelisted(Snapshot(), c.creator) { return Fail(NotWhitelisted); }
      if s.tokenCount + 1 > U32_MAX { return Fail(ArithmeticOverflow); }
      s := s.(locked := true);
      st := s;
      var error := DistributeFee(c.creator, s.baseFee, c.fee);
      if error.Some? {
        r := Fail(error.value);
      } else {
        LockCommutesOne(old(Snapshot()).(log := log), c.creator, c.item);
        r, s := RecordToken(s, c.creator, c.item);
      }
      s := s.(locked := false);
      st := s;
    }

    /** `create_tokens_batch` */
    method CreateTokensBatch(c: Call) returns (r: Reply)
      requires c.CreateTokensBatch? && Valid()
      modifies this, creators
      ensures r == Step(old(Snapshot()), c).reply
      ensures r.Done? ==> Snapshot() == Step(old(Snapshot()), c).world
      decreases c, 0
    {
      hide FeesFor;
      hide RecordAll;
      var refusal := BatchGate(c);
      if refusal.Some? { return Fail(refusal.value); }
      var s := st;
      var totalFee := BatchFee(Snapshot(), |c.items|);
      s := s.(locked := true);
      st := s;
      LockCommutes(old(Snapshot()), c.creator, c.items, |c.items|);
      r, s := RecordBatch(s, c.creator, c.items);
      if r.Fail? { return; }
      RecordAllKeepsWellFormed(Locked(old(Snapshot())), c.creator, c.items, |c.items|);
      assert s.locked && split == old(split);
      ghost var recorded := RecordAll(old(Snapshot()), c.creator, c.items, |c.items|).world;
      assert Snapshot().(st := s) == Locked(recorded);
      var error := DistributeFee(c.creator, totalFee, c.fee);
      if error.Some? { return Fail(error.value); }
      s := s.(locked := false);
      st := s;
    }

    /** The checks `create_tokens_batch` makes before it takes the lock. */
    method BatchGate(c: Call) returns (refusal: Option<Error>)
      requires c.CreateTokensBatch?
      ensures refusal == CreateBatchRefusal(Snapshot(), c.creator, c.items, c.feePayment)
    {
      if st.paused { return Some(ContractPaused); }
      if st.locked { return Some(Reentrancy); }
      if |c.items| == 0 { return Some(InvalidParameters); }
      if |c.items| > MAX_BATCH_SIZE { return Some(BatchSizeExceeded); }
      for i := 0 to |c.items|
        invariant BatchParamsError(c.items, i).None?
      {
        if ParamsError(c.items[i].params).Some? {
          FirstParamsError(c.items, i, |c.items|);
          return ParamsError(c.items[i].params);
        }
      }
      if st.tokenCount + |c.items| > U32_MAX { return Some(ArithmeticOverflow); }
      var totalFee := BatchFee(Snapshot(), |c.items|);
      if totalFee > I128_MAX { return Some(ArithmeticOverflow); }
      if c.feePayment < totalFee { return Some(InsufficientFee); }
      if st.whitelistEnabled && !Whitelisted(Snapshot(), c.creator) { return Some(NotWhitelisted); }
      refusal := None;
    }

    /** The deployment loop of `create_tokens_batch`. */
    method RecordBatch(s0: FactoryState, creator: Address, items: seq<Item>) returns (r: Reply, s: FactoryState)
      requires Valid() && st.locked && s0 == st
      modifies this, creators
      ensures match RecordAll(old(Snapshot()), creator, items, |items|)
        case NotRecorded(e) => r == Fail(e)
        case Recorded(w, tokens) => r == Done(tokens) && Snapshot().(st := s) == w && st == old(st)
      decreases items, 0
    {
      hide RegisterToken;
      hide RecordError;
      s := s0;
      var addresses: seq<Address> := [];
      for i := 0 to |items|
        invariant RecordAll(old(Snapshot()), creator, items, i) == Recorded(Snapshot().(st := s), addresses)
        invariant st == old(st)
      {
        RecordAllKeepsWellFormed(old(Snapshot()), creator, items, i);
        var one;
        one, s := RecordToken(s, creator, items[i]);
        if one.Fail? {
          StuckBatch(old(Snapshot()), creator, items, i + 1, |items|);
          return one, s;
        }
        addresses := addresses + one.tokens;
      }
      r := Done(addresses);
    }

    // ---- Per-token entrypoints ----

    /** `migrate_addr_keyed` for the token's index and record, as `registered_token` does. */
    method RegisteredToken(t: Address) returns (found: Option<(nat, TokenInfo)>)
      modifies this, creators
      ensures found == Registered(old(Snapshot()), t)
      ensures found.Some? ==> Snapshot() == TouchRegistered(old(Snapshot()), t)
    {
      var index := Lookup(pers.tokenIndex, inst.tokenIndex, t);
      inst, pers := inst.(tokenIndex := PromoteInst(pers.tokenIndex, inst.tokenIndex, t)),
                    pers.(tokenIndex := PromotePers(pers.tokenIndex, inst.tokenIndex, t));
      if index.None? { return None; }
      var info := Lookup(pers.tokenInfo, inst.tokenInfo, index.value);
      inst, pers := inst.(tokenInfo := PromoteInst(pers.tokenInfo, inst.tokenInfo, index.value)),
                    pers.(tokenInfo := PromotePers(pers.tokenInfo, inst.tokenInfo, index.value));
      if info.None? { return None; }
      found := Some((index.value, info.value));
    }

    /** `migrate_addr_keyed` for the owner entry, as `token_creator` does. */
    method TokenCreator(t: Address) returns (owner: Option<Address>)
      modifies this
      ensures owner == OwnerOf(old(Snapshot()), t)
      ensures Snapshot() == TouchOwner(old(Snapshot()), t)
    {
      owner := Lookup(pers.owner, inst.owner, t);
      inst, pers := inst.(owner := PromoteInst(pers.owner, inst.owner, t)),
                    pers.(owner := PromotePers(pers.owner, inst.owner, t));
    }

    /** The checks and lazy migrations of `set_metadata` before it takes the lock. */
    method MetadataGate(c: Call) returns (refusal: Option<Error>, version: nat)
      requires c.SetMetadata?
      modifies this, creators
      ensures refusal == SetMetadataRefusal(old(Snapshot()), c.token, c.admin, c.uri, c.feePayment)
      ensures refusal.None? ==> version == VersionOf(old(Snapshot()), c.token)
      ensures refusal.None? ==> Snapshot() == MetadataPrepared(old(Snapshot()), c.token)
    {
      version := 0;
      if st.paused { return Some(ContractPaused), version; }
      if st.locked { return Some(Reentrancy), version; }
      if c.feePayment < st.metadataFee { return Some(InsufficientFee), version; }
      if !ValidMetadataUri(c.uri) { return Some(InvalidMetadataUri), version; }
      var owner := TokenCreator(c.token);
      if owner.None? { return Some(TokenNotFound), version; }
      if owner.value != c.admin { return Some(Unauthorized), version; }
      var frozen := Frozen(Snapshot(), c.token);
      inst, pers := inst.(metadataFrozen := PromoteInst(pers.metadataFrozen, inst.metadataFrozen, c.token)),
                    pers.(metadataFrozen := PromotePers(pers.metadataFrozen, inst.metadataFrozen, c.token));
      if frozen { return Some(MetadataFrozen), version; }
      version := VersionOf(Snapshot(), c.token);
      inst, pers := inst.(metadataVersion := PromoteInst(pers.metadataVersion, inst.metadataVersion, c.token)),
                    pers.(metadataVersion := PromotePers(pers.metadataVersion, inst.metadataVersion, c.token));
      if version >= METADATA_MAX_UPDATES { return Some(MetadataFrozen), version; }
      refusal := None;
    }

    /** `set_metadata` */
    method SetMetadata(c: Call) returns (r: Reply)
      requires c.SetMetadata? && Valid()
      modifies this, creators
      ensures r == Step(old(Snapshot()), c).reply
      ensures r.Done? ==> Snapshot() == Step(old(Snapshot()), c).world
      decreases c, 0
    {
      hide FeesFor;
      hide SetMetadataRefusal;
      hide MetadataPrepared;
      var refusal, version := MetadataGate(c);
      if refusal.Some? { return Fail(refusal.value); }
      MetadataGateOpen(old(Snapshot()), c);
      var s := st;
      s := s.(locked := true);
      st := s;
      var error := DistributeFee(c.admin, s.metadataFee, c.fee);
      if error.Some? { return Fail(error.value); }
      pers := pers.(metadata := pers.metadata[c.token := c.uri]);
      pers := pers.(metadataVersion := pers.metadataVersion[c.token := version + 1]);
      s := s.(locked := false);
      st := s;
      r := Done([]);
    }

    /** The checks, lazy migrations and counter write of `mint_tokens` before it takes the lock. */
    method MintGate(c: Call) returns (refusal: Option<Error>)
      requires c.MintTokens?
      modifies this, creators
      ensures refusal == MintRefusal(old(Snapshot()), c.token, c.admin, c.amount, c.feePayment)
      ensures refusal.None? ==> Registered(old(Snapshot()), c.token).Some?
      ensures refusal.None? ==> Snapshot() == MintPrepared(old(Snapshot()), c.token, c.amount)
    {
      hide TouchRegistered;
      hide SetSupply;
      RegisteredTouchesOnly(Snapshot(), c.token);
      if st.paused { return Some(ContractPaused); }
      if c.amount <= 0 { return Some(InvalidParameters); }
      if st.locked { return Some(Reentrancy); }
      if c.feePayment < st.baseFee { return Some(InsufficientFee); }
      var found := RegisteredToken(c.token);
      if found.None? { return Some(TokenNotFound); }
      var owner := TokenCreator(c.token);
      if owner.None? { return Some(TokenNotFound); }
      if owner.value != c.admin { return Some(Unauthorized); }
      var cap := found.value.1.maxSupply;
      refusal := None;
      if cap.Some? { refusal := RaiseSupply(c.token, c.amount, cap.value); }
    }

    /** The cap check of `mint_tokens`, and the counter write it permits. */
    method RaiseSupply(t: Address, amount: I128, cap: I128) returns (refusal: Option<Error>)
      modifies this
      ensures var newTotal := SupplyOf(old(Snapshot()), t) + amount;
        if newTotal > I128_MAX then refusal == Some(ArithmeticOverflow)
        else if newTotal > cap then refusal == Some(MaxSupplyExceeded)
        else refusal == None && Snapshot() == SetSupply(old(Snapshot()), t, newTotal)
    {
      var current := SupplyOf(Snapshot(), t);
      inst, pers := inst.(supply := PromoteInst(pers.supply, inst.supply, t)),
                    pers.(supply := PromotePers(pers.supply, inst.supply, t));
      var newTotal := current + amount;
      if newTotal > I128_MAX { return Some(ArithmeticOverflow); }
      if newTotal > cap { return Some(MaxSupplyExceeded); }
      pers := pers.(supply := pers.supply[t := newTotal]);
      refusal := None;
    }

    /** `mint_tokens` */
    method MintTokens(c: Call) returns (r: Reply)
      requires c.MintTokens? && Valid()
      modifies this, creators
      ensures r == Step(old(Snapshot()), c).reply
      ensures r.Done? ==> Snapshot() == Step(old(Snapshot()), c).world
      decreases c, 0
    {
      hide FeesFor;
      hide MintRefusal;
      hide MintPrepared;
      var refusal := MintGate(c);
      if refusal.Some? { return Fail(refusal.value); }
      MintGateOpen(old(Snapshot()), c);
      var s := st;
      s := s.(locked := true);
      st := s;
      var error := DistributeFee(c.admin, s.baseFee, c.fee);
      if error.Some? { return Fail(error.value); }
      var ok := LockedExternal(c.mint);
      if !ok { return Fail(HostTrap); }
      log := log + [Mint(c.token, c.to, c.amount)];
      s := s.(locked := false);
      st := s;
      r := Done([]);
    }

    /** `burn`: the one entrypoint that makes an external call before it takes the lock. */
    method Burn(c: Call) returns (r: Reply)
      requires c.Burn? && Valid()
      modifies this, creators
      ensures r == Step(old(Snapshot()), c).reply
      ensures r.Done? ==> Snapshot() == Step(old(Snapshot()), c).world
      decreases c, 0
    {
      if c.amount <= 0 { return Fail(InvalidBurnAmount); }
      var found := RegisteredToken(c.token);
      if found.None? { return Fail(TokenNotFound); }
      if !found.value.1.burnEnabled { return Fail(Unauthorized); }
      var ok := External(c.balanceCall);
      ReenterKeepsWellFormed(TouchRegistered(old(Snapshot()), c.token), c.balanceCall, |c.balanceCall.reenter|);
      if !ok { return Fail(HostTrap); }
      if c.amount > c.balance { return Fail(BurnAmountExceedsBalance); }
      var s := st;
      if s.locked { return Fail(Reentrancy); }
      s := s.(locked := true);
      st := s;
      ok := LockedExternal(c.burn);
      if !ok { return Fail(HostTrap); }
      log := log + [Burned(c.token, c.from, c.amount)];
      s := s.(locked := false);
      st := s;
      r := Done([]);
    }

    /** The checks and lazy migrations of `set_burn_enabled` before it takes the lock. */
    method BurnToggleGate(t: Address, admin: Address) returns (refusal: Option<Error>, found: Option<(nat, TokenInfo)>)
      modifies this, creators
      ensures refusal.Some? ==> SetBurnEnabledStep(old(Snapshot()), t, admin, true).reply == Fail(refusal.value)
      ensures refusal.None? ==> !old(st).locked && OwnerOf(old(Snapshot()), t) == Some(admin)
      ensures refusal.None? ==> found == Registered(old(Snapshot()), t) && found.Some?
      ensures refusal.None? ==> Snapshot() == TouchRegistered(TouchOwner(old(Snapshot()), t), t)
    {
      found := None;
      if st.locked { return Some(Reentrancy), found; }
      var owner := TokenCreator(t);
      if owner.None? { return Some(TokenNotFound), found; }
      if owner.value != admin { return Some(Unauthorized), found; }
      found := RegisteredToken(t);
      if found.None? { return Some(TokenNotFound), found; }
      refusal := None;
    }

    /** `set_burn_enabled` */
    method SetBurnEnabled(t: Address, admin: Address, enabled: bool) returns (r: Reply)
      modifies this, creators
      ensures r == SetBurnEnabledStep(old(Snapshot()), t, admin, enabled).reply
      ensures r.Done? ==> Snapshot() == SetBurnEnabledStep(old(Snapshot()), t, admin, enabled).world
    {
      var refusal, found := BurnToggleGate(t, admin);
      if refusal.Some? { return Fail(refusal.value); }
      var s := st;
      s := s.(locked := true);
      st := s;
      var (index, info) := found.value;
      pers := pers.(tokenInfo := pers.tokenInfo[index := info.(burnEnabled := enabled)]);
      s := s.(locked := false);
      st := s;
      r := Done([]);
    }

    // ---- Time ----

    /** Ledgers close between invocations. */
    method CloseLedgers(n: nat)
      modifies this`ledger
      ensures Snapshot() == old(Snapshot()).(ledger := old(ledger) + n)
    {
      ledger := ledger + n;
    }

    // ---- Entrypoints that do not take the lock ----

    /** One invocation of an unguarded entrypoint, rolled back when it fails. */
    method InvokeAdmin(c: AdminCall) returns (r: Reply)
      modifies this, creators
      ensures Turn(Snapshot(), r) == AdminStep(old(Snapshot()), c)
    {
      var saved := Snapshot();
      match c {
        case Pause(a) => r := SetPaused(a, true);
        case Unpause(a) => r := SetPaused(a, false);
        case SetFeeSplit(a, splits) => r := SetFeeSplit(a, splits);
        case UpdateFees(a, base, meta) => r := UpdateFees(a, base, meta);
        case AddToWhitelist(a, address) => r := AddToWhitelist(a, address);
        case RemoveFromWhitelist(a, address) => r := RemoveFromWhitelist(a, address);
        case SetWhitelistEnabled(a, enabled) => r := SetWhitelistEnabled(a, enabled);
        case FreezeMetadata(t, a) => r := FreezeMetadata(t, a);
        case ProposeAdmin(a, newAdmin) => r := ProposeAdmin(a, newAdmin);
        case AcceptAdmin(newAdmin) => r := AcceptAdmin(newAdmin);
        case CancelAdminProposal(a) => r := CancelAdminProposal(a);
        case ProposeUpgrade(a, hash) => r := ProposeUpgrade(a, hash);
        case ExecuteUpgrade(a, hash, installs) => r := ExecuteUpgrade(a, hash, installs);
        case CancelUpgrade(a) => r := CancelUpgrade(a);
        case Migrate(a) => r := Migrate(a);
        case BackfillCappedSupply(a, t, verified) => r := BackfillCappedSupply(a, t, verified);
        case BackfillTokenAddress(t) => r := BackfillTokenAddress(t);
      }
      if r.Fail? { Restore(saved); }
    }

    /** `pause` and `unpause` */
    method SetPaused(admin: Address, paused: bool) returns (r: Reply)
      modifies this
      ensures var t := AdminStep(old(Snapshot()), if paused then Pause(admin) else Unpause(admin));
        r == t.reply && (r.Done? ==> Snapshot() == t.world)
    {
      var s := st;
      if s.admin != admin { return Fail(Unauthorized); }
      s := s.(paused := paused);
      st := s;
      r := Done([]);
    }

    /** `set_fee_split` */
    method SetFeeSplit(admin: Address, splits: seq<Share>) returns (r: Reply)
      modifies this
      ensures var t := AdminStep(old(Snapshot()), AdminCall.SetFeeSplit(admin, splits));
        r == t.reply && (r.Done? ==> Snapshot() == t.world)
    {
      if st.admin != admin { return Fail(Unauthorized); }
      if splits == [] {
        split := [];
        return Done([]);
      }
      if |splits| > FeeSplit.MAX_FEE_SPLIT_RECIPIENTS { return Fail(TooManyFeeSplitRecipients); }
      var total := 0;
      for i := 0 to |splits|
        invariant total == TotalBps(splits, i)
        invariant SplitScanError(splits, i).None?
      {
        if splits[i].bps == 0 {
          FirstScanError(splits, i + 1, |splits|);
          return Fail(ZeroFeeSplitEntry);
        }
        if total + splits[i].bps > U32_MAX {
          FirstScanError(splits, i + 1, |splits|);
          return Fail(ArithmeticOverflow);
        }
        total := total + splits[i].bps;
      }
      if total != 10_000 { return Fail(InvalidFeeSplit); }
      split := splits;
      r := Done([]);
    }

    /** `update_fees` */
    method UpdateFees(admin: Address, base: Option<I128>, meta: Option<I128>) returns (r: Reply)
      modifies this
      ensures var t := AdminStep(old(Snapshot()), AdminCall.UpdateFees(admin, base, meta));
        r == t.reply && (r.Done? ==> Snapshot() == t.world)
    {
      var s := st;
      if admin != s.admin { return Fail(Unauthorized); }
      if base.Some? {
        if base.value < 0 { return Fail(InvalidParameters); }
        s := s.(baseFee := base.value);
      }
      if meta.Some? {
        if meta.value < 0 { return Fail(InvalidParameters); }
        s := s.(metadataFee := meta.value);
      }
      st := s;
      r := Done([]);
    }

    /** `add_to_whitelist` */
    method AddToWhitelist(admin: Address, address: Address) returns (r: Reply)
      modifies this
      ensures var t := AdminStep(old(Snapshot()), AdminCall.AddToWhitelist(admin, address));
        r == t.reply && (r.Done? ==> Snapshot() == t.world)
    {
      if st.admin != admin { return Fail(Unauthorized); }
      pers := pers.(whitelist := pers.whitelist[address := true]);
      r := Done([]);
    }

    /** `remove_from_whitelist`: both tiers, so a stale entry cannot come back. */
    method RemoveFromWhitelist(admin: Address, address: Address) returns (r: Reply)
      modifies this
      ensures var t := AdminStep(old(Snapshot()), AdminCall.RemoveFromWhitelist(admin, address));
        r == t.reply && (r.Done? ==> Snapshot() == t.world)
    {
      if st.admin != admin { return Fail(Unauthorized); }
      pers := pers.(whitelist := pers.whitelist - {address});
      inst := inst.(whitelist := inst.whitelist - {address});
      r := Done([]);
    }

    /** `set_whitelist_enabled` */
    method SetWhitelistEnabled(admin: Address, enabled: bool) returns (r: Reply)
      modifies this
      ensures var t := AdminStep(old(Snapshot()), AdminCall.SetWhitelistEnabled(admin, enabled));
        r == t.reply && (r.Done? ==> Snapshot() == t.world)
    {
      var s := st;
      if s.admin != admin { return Fail(Unauthorized); }
      s := s.(whitelistEnabled := enabled);
      st := s;
      r := Done([]);
    }

    /** `freeze_metadata` */
    method FreezeMetadata(t: Address, admin: Address) returns (r: Reply)
      modifies this, creators
      ensures var turn := AdminStep(old(Snapshot()), AdminCall.FreezeMetadata(t, admin));
        r == turn.reply && (r.Done? ==> Snapshot() == turn.world)
    {
      if st.paused { return Fail(ContractPaused); }
      var owner := TokenCreator(t);
      if owner.None? { return Fail(TokenNotFound); }
      if owner.value != admin { return Fail(Unauthorized); }
      var frozen := Frozen(Snapshot(), t);
      inst, pers := inst.(metadataFrozen := PromoteInst(pers.metadataFrozen, inst.metadataFrozen, t)),
                    pers.(metadataFrozen := PromotePers(pers.metadataFrozen, inst.metadataFrozen, t));
      if frozen { return Done([]); }
      pers := pers.(metadataFrozen := pers.metadataFrozen[t := true]);
      r := Done([]);
    }

    /** `propose_admin`, also reached through the two deprecated aliases */
    method ProposeAdmin(admin: Address, newAdmin: Address) returns (r: Reply)
      modifies this
      ensures var t := AdminStep(old(Snapshot()), AdminCall.ProposeAdmin(admin, newAdmin));
        r == t.reply && (r.Done? ==> Snapshot() == t.world)
    {
      var s := st;
      if s.admin != admin { return Fail(Unauthorized); }
      if admin == newAdmin { return Fail(InvalidParameters); }
      if ledger + ADMIN_PROPOSAL_TTL_LEDGERS > U32_MAX { return Fail(ArithmeticOverflow); }
      var expiry := ledger + ADMIN_PROPOSAL_TTL_LEDGERS;
      s := s.(pendingAdmin := Some(newAdmin), pendingAdminExpiry := Some(expiry));
      st := s;
      r := Done([]);
    }

    /** `accept_admin` */
    method AcceptAdmin(newAdmin: Address) returns (r: Reply)
      modifies this
      ensures var t := AdminStep(old(Snapshot()), AdminCall.AcceptAdmin(newAdmin));
        r == t.reply && (r.Done? ==> Snapshot() == t.world)
    {
      var s := st;
      if s.pendingAdmin.None? { return Fail(NoPendingProposal); }
      if s.pendingAdmin.value != newAdmin { return Fail(NoPendingProposal); }
      var expiry := if s.pendingAdminExpiry.Some? then s.pendingAdminExpiry.value else 0;
      if ledger >= expiry { return Fail(ProposalExpired); }
      s := s.(pendingAdmin := None, pendingAdminExpiry := None);
      s := s.(admin := newAdmin);
      st := s;
      r := Done([]);
    }

    /** `cancel_admin_proposal` */
    method CancelAdminProposal(admin: Address) returns (r: Reply)
      modifies this
      ensures var t := AdminStep(old(Snapshot()), AdminCall.CancelAdminProposal(admin));
        r == t.reply && (r.Done? ==> Snapshot() == t.world)
    {
      var s := st;
      if s.admin != admin { return Fail(Unauthorized); }
      if s.pendingAdmin.None? { return Done([]); }
      s := s.(pendingAdmin := None);
      s := s.(pendingAdminExpiry := None);
      st := s;
      r := Done([]);
    }

    /** `propose_upgrade` */
    method ProposeUpgrade(admin: Address, hash: nat) returns (r: Reply)
      modifies this
      ensures var t := AdminStep(old(Snapshot()), AdminCall.ProposeUpgrade(admin, hash));
        r == t.reply && (r.Done? ==> Snapshot() == t.world)
    {
      var s := st;
      if s.admin != admin { return Fail(Unauthorized); }
      if ledger + UPGRADE_TIMELOCK_LEDGERS > U32_MAX { return Fail(ArithmeticOverflow); }
      var readyAt := ledger + UPGRADE_TIMELOCK_LEDGERS;
      s := s.(pendingUpgradeHash := Some(hash));
      s := s.(pendingUpgradeReadyAt := Some(readyAt));
      st := s;
      r := Done([]);
    }

    /** `execute_upgrade` */
    method ExecuteUpgrade(admin: Address, hash: nat, installs: bool) returns (r: Reply)
      modifies this
      ensures var t := AdminStep(old(Snapshot()), AdminCall.ExecuteUpgrade(admin, hash, installs));
        r == t.reply && (r.Done? ==> Snapshot() == t.world)
    {
      var s := st;
      if s.admin != admin { return Fail(Unauthorized); }
      if s.pendingUpgradeHash.None? { return Fail(NoUpgradePending); }
      var proposed := s.pendingUpgradeHash.value;
      if s.pendingUpgradeReadyAt.None? { return Fail(NoUpgradePending); }
      if ledger < s.pendingUpgradeReadyAt.value { return Fail(UpgradeNotReady); }
      if proposed != hash { return Fail(UpgradeHashMismatch); }
      s := s.(pendingUpgradeHash := None);
      s := s.(pendingUpgradeReadyAt := None);
      s := s.(tokenWasmHash := hash);
      st := s;
      // installing the new code comes last; a trap there undoes the call
      if !installs { return Fail(HostTrap); }
      r := Done([]);
    }

    /** `cancel_upgrade` */
    method CancelUpgrade(admin: Address) returns (r: Reply)
      modifies this
      ensures var t := AdminStep(old(Snapshot()), AdminCall.CancelUpgrade(admin));
        r == t.reply && (r.Done? ==> Snapshot() == t.world)
    {
      var s := st;
      if s.admin != admin { return Fail(Unauthorized); }
      if s.pendingUpgradeHash.None? { return Done([]); }
      s := s.(pendingUpgradeHash := None);
      s := s.(pendingUpgradeReadyAt := None);
      st := s;
      r := Done([]);
    }

    /** `complete_schema_step` */
    method CompleteSchemaStep(version: nat)
      modifies this
      ensures Snapshot() == Stamp(old(Snapshot()), version)
    {
      var s := st;
      if version == 3 { s := s.(whitelistEnabled := false); }
      if version == 4 { s := s.(pendingAdmin := None, pendingAdminExpiry := None); }
      if version == 5 { s := s.(pendingUpgradeHash := None, pendingUpgradeReadyAt := None); }
      s := s.(schemaVersion := version);
      st := s;
      sv := version;
    }

    /** `migrate` */
    method Migrate(admin: Address) returns (r: Reply)
      modifies this, creators
      ensures var t := AdminStep(old(Snapshot()), AdminCall.Migrate(admin));
        r == t.reply && (r.Done? ==> Snapshot() == t.world)
    {
      hide StepThree;
      hide StampIfBelow;
      if st.admin != admin { return Fail(Unauthorized); }
      EarlyStamps(Snapshot());
      StampBelow(1);
      StampBelow(2);
      if sv < 3 {
        var ok := SchemaStepThree();
        if !ok { return Fail(HostTrap); }
      }
      if sv < 3 { return Done([]); }
      StampBelow(4);
      StampBelow(5);
      r := Done([]);
    }

    method StampBelow(version: nat)
      modifies this
      ensures Snapshot() == StampIfBelow(old(Snapshot()), version)
    {
      if sv < version { CompleteSchemaStep(version); }
    }

    /** Schema step 3: one chunk, and the version stamp once the cursor has caught up. */
    method SchemaStepThree() returns (ok: bool)
      modifies this, creators
      ensures ok <==> ChunkTarget(old(Snapshot())) != U32_MAX
      ensures ok ==> Snapshot() == StepThree(old(Snapshot()))
    {
      var target := Min(Min(cursor + MIGRATE_TOKEN_INFO_CHUNK, U32_MAX), st.tokenCount);
      // at u32::MAX the saturating index would never pass the target
      if target == U32_MAX { return false; }
      WalkChunk(target);
      if target >= st.tokenCount { CompleteSchemaStep(3); }
      ok := true;
    }

    /** The chunked walk of schema step 3. */
    method WalkChunk(target: nat)
      requires target == ChunkTarget(Snapshot()) < U32_MAX
      modifies this, creators
      ensures Snapshot() == MoveChunk(old(Snapshot()))
    {
      var idx := Min(cursor + 1, U32_MAX);
      var persInfo, instInfo := MoveInfos(pers.tokenInfo, inst.tokenInfo, cursor, idx, target);
      pers := pers.(tokenInfo := persInfo);
      inst := inst.(tokenInfo := instInfo);
      cursor := target;
    }

    /** `backfill_capped_supply` */
    method BackfillCappedSupply(admin: Address, t: Address, verified: I128) returns (r: Reply)
      modifies this, creators
      ensures var turn := AdminStep(old(Snapshot()), AdminCall.BackfillCappedSupply(admin, t, verified));
        r == turn.reply && (r.Done? ==> Snapshot() == turn.world)
    {
      hide TouchRegistered;
      if st.admin != admin { return Fail(Unauthorized); }
      RegisteredTouchesOnly(Snapshot(), t);
      var found := RegisteredToken(t);
      if found.None? { return Fail(TokenNotFound); }
      var cap := found.value.1.maxSupply;
      if cap.None? { return Fail(InvalidParameters); }
      if verified < 0 || verified > cap.value { return Fail(InvalidParameters); }
      var refused := RaiseOnce(t, verified);
      r := if refused then Fail(AlreadyBackfilled) else Done([]);
    }

    /** The one-time counter write of `backfill_capped_supply`. */
    method RaiseOnce(t: Address, verified: I128) returns (already: bool)
      modifies this
      ensures already == Backfilled(old(Snapshot()), t)
      ensures !already ==>
        var w1 := TouchSupply(TouchBackfilled(old(Snapshot()), t), t);
        Snapshot() == w1.(pers := w1.pers.(
          supply := if verified > SupplyOf(old(Snapshot()), t) then w1.pers.supply[t := verified] else w1.pers.supply,
          backfilled := w1.pers.backfilled[t := true]))
    {
      already := Backfilled(Snapshot(), t);
      inst, pers := inst.(backfilled := PromoteInst(pers.backfilled, inst.backfilled, t)),
                    pers.(backfilled := PromotePers(pers.backfilled, inst.backfilled, t));
      if already { return; }
      var current := SupplyOf(Snapshot(), t);
      inst, pers := inst.(supply := PromoteInst(pers.supply, inst.supply, t)),
                    pers.(supply := PromotePers(pers.supply, inst.supply, t));
      if verified > current {
        pers := pers.(supply := pers.supply[t := verified]);
      }
      pers := pers.(backfilled := pers.backfilled[t := true]);
    }

    /** `backfill_token_address` */
    method BackfillTokenAddress(t: Address) returns (r: Reply)
      modifies this, creators
      ensures var turn := AdminStep(old(Snapshot()), AdminCall.BackfillTokenAddress(t));
        r == turn.reply && (r.Done? ==> Snapshot() == turn.world)
    {
      var index := Lookup(pers.tokenIndex, inst.tokenIndex, t);
      inst, pers := inst.(tokenIndex := PromoteInst(pers.tokenIndex, inst.tokenIndex, t)),
                    pers.(tokenIndex := PromotePers(pers.tokenIndex, inst.tokenIndex, t));
      if index.None? { return Fail(TokenNotFound); }
      if index.value in pers.tokenAddress { return Done([]); }
      pers := pers.(tokenAddress := pers.tokenAddress[index.value := t]);
      r := Done([]);
    }
  }

  // ---- Facts the methods lean on ----

  lemma MetadataGateOpen(w: World, c: Call)
    requires c.SetMetadata? && SetMetadataRefusal(w, c.token, c.admin, c.uri, c.feePayment).None?
    ensures !w.st.locked
    ensures var w1 := MetadataPrepared(w, c.token);
      w1 == w.(pers := w1.pers, inst := w1.inst)
  {
  }

  /** `registered_token` moves entries between tiers and changes nothing else. */
  lemma RegisteredTouchesOnly(w: World, t: Address)
    ensures var w1 := TouchRegistered(w, t);
      && w1 == w.(pers := w.pers.(tokenIndex := w1.pers.tokenIndex, tokenInfo := w1.pers.tokenInfo),
                  inst := w.inst.(tokenIndex := w1.inst.tokenIndex, tokenInfo := w1.inst.tokenInfo))
  {
  }

  lemma EarlyStamps(w: World)
    ensures var w2 := StampIfBelow(StampIfBelow(w, 1), 2);
      (w2.sv < 3 <==> w.sv < 3) && ChunkTarget(w2) == ChunkTarget(w)
  {
  }

  /** Persistent storage once the walk has moved what it finds up to `hi`. */
  function MovedTo(pers: map<nat, TokenInfo>, inst: map<nat, TokenInfo>, lo: nat, hi: nat): map<nat, TokenInfo> {
    pers + Stragglers(inst, lo, hi)
  }

  /** Instance storage once the walk has moved what it finds up to `hi`. */
  function LeftIn(inst: map<nat, TokenInfo>, lo: nat, hi: nat): map<nat, TokenInfo> {
    inst - Stragglers(inst, lo, hi).Keys
  }

  lemma NothingMoved(pers: map<nat, TokenInfo>, inst: map<nat, TokenInfo>, lo: nat, hi: nat)
    ensures hi <= lo ==> MovedTo(pers, inst, lo, hi) == pers && LeftIn(inst, lo, hi) == inst
  {
    if hi <= lo { assert Stragglers(inst, lo, hi) == map[]; }
  }

  lemma StragglerStep(pers: map<nat, TokenInfo>, inst: map<nat, TokenInfo>, lo: nat, idx: nat)
    requires lo < idx
    ensures var moved, left := MovedTo(pers, inst, lo, idx - 1), LeftIn(inst, lo, idx - 1);
      && (idx in left <==> idx in inst)
      && (idx in inst ==> left[idx] == inst[idx])
      && (idx in inst ==> moved[idx := inst[idx]] == MovedTo(pers, inst, lo, idx))
      && (idx in inst ==> left - {idx} == LeftIn(inst, lo, idx))
      && (idx !in inst ==> moved == MovedTo(pers, inst, lo, idx) && left == LeftIn(inst, lo, idx))
  {
    if idx !in inst { assert Stragglers(inst, lo, idx) == Stragglers(inst, lo, idx - 1); }
  }

  /** One record of the walk, if it is still in instance storage. */
  method MoveOne(pers: map<nat, TokenInfo>, inst: map<nat, TokenInfo>,
                 ghost pers0: map<nat, TokenInfo>, ghost inst0: map<nat, TokenInfo>, ghost lo: nat, idx: nat)
    returns (persInfo: map<nat, TokenInfo>, instInfo: map<nat, TokenInfo>)
    requires lo < idx && pers == MovedTo(pers0, inst0, lo, idx - 1) && inst == LeftIn(inst0, lo, idx - 1)
    ensures persInfo == MovedTo(pers0, inst0, lo, idx) && instInfo == LeftIn(inst0, lo, idx)
  {
    StragglerStep(pers0, inst0, lo, idx);
    hide MovedTo, LeftIn;
    persInfo, instInfo := pers, inst;
    if idx in inst {
      persInfo := pers[idx := inst[idx]];
      instInfo := inst - {idx};
    }
  }

  /** The loop of the walk, entry by entry from `idx0`. */
  method MoveInfos(pers0: map<nat, TokenInfo>, inst0: map<nat, TokenInfo>, lo: nat, idx0: nat, target: nat)
    returns (persInfo: map<nat, TokenInfo>, instInfo: map<nat, TokenInfo>)
    requires target < U32_MAX && idx0 == Min(lo + 1, U32_MAX)
    ensures persInfo == MovedTo(pers0, inst0, lo, target)
    ensures instInfo == LeftIn(inst0, lo, target)
  {
    hide MovedTo, LeftIn;
    NothingMoved(pers0, inst0, lo, idx0 - 1);
    NothingMoved(pers0, inst0, lo, target);
    var idx: nat := idx0;
    persInfo, instInfo := pers0, inst0;
    while idx <= target
      invariant lo <= target ==> lo < idx <= target + 1
      invariant lo > target ==> idx == idx0
      invariant persInfo == MovedTo(pers0, inst0, lo, idx - 1)
      invariant instInfo == LeftIn(inst0, lo, idx - 1)
      decreases target + 1 - idx
    {
      persInfo, instInfo := MoveOne(persInfo, instInfo, pers0, inst0, lo, idx);
      idx := Min(idx + 1, U32_MAX);
    }
  }

  lemma {:induction false} FirstScanError(splits: seq<Share>, i: nat, n: nat)
    requires 0 < i <= n <= |splits| && SplitScanError(splits, i).Some?
    ensures SplitScanError(splits, n) == SplitScanError(splits, i)
  {
    if n > i { FirstScanError(splits, i, n - 1); }
  }

  lemma MintGateOpen(w: World, c: Call)
    requires c.MintTokens? && MintRefusal(w, c.token, c.admin, c.amount, c.feePayment).None?
    ensures !w.st.locked && Registered(w, c.token).Some?
    ensures var w1 := MintPrepared(w, c.token, c.amount);
      w1 == w.(pers := w1.pers, inst := w1.inst)
  {
  }

  /** Registering a token neither reads nor writes the lock. */
  lemma LockCommutesOne(w: World, creator: Address, item: Item)
    ensures RecordError(Locked(w), creator, item) == RecordError(w, creator, item)
    ensures RegisterToken(Locked(w), creator, item.params) == Locked(RegisterToken(w, creator, item.params))
    ensures RegisterToken(w, creator, item.params).st.locked == w.st.locked
  {
    hide TokensOf;
    hide Appended;
  }

  lemma {:induction false} UndeliveredBound(shares: seq<int>, fee: FeeScript, k: nat)
    requires k <= |shares| && forall i :: 0 <= i < |shares| ==> shares[i] >= 0
    ensures 0 <= Undelivered(shares, fee, k) <= Sum(shares[..k])
  {
    if k > 0 {
      UndeliveredBound(shares, fee, k - 1);
      assert shares[..k][..k - 1] == shares[..k - 1];
    }
  }

  /** What is collected for the treasury never exceeds the amount, so the checked addition succeeds. */
  lemma NoPayouts(split: seq<Share>, shares: seq<int>, payer: Address, fee: FeeScript)
    requires |split| == |shares|
    ensures Payouts(split, shares, payer, fee, 0) == [] && Undelivered(shares, fee, 0) == 0
  {
  }

  /** What recipient `i`'s turn adds to the log and to the undelivered sum. */
  lemma NextPayout(split: seq<Share>, shares: seq<int>, payer: Address, fee: FeeScript, i: nat, log: seq<Effect>)
    requires i < |split| == |shares|
    ensures var before := log + Payouts(split, shares, payer, fee, i);
      log + Payouts(split, shares, payer, fee, i + 1) ==
        if shares[i] <= 0 then before
        else if Paid(fee, i) then before + [Transfer(payer, split[i].recipient, shares[i])]
        else before + [FeeRedirected(split[i].recipient, shares[i])]
    ensures Undelivered(shares, fee, i + 1) ==
      Undelivered(shares, fee, i) + if shares[i] > 0 && !Paid(fee, i) then shares[i] else 0
  {
  }

  lemma UndeliveredFits(amount: nat, w: seq<nat>, shares: seq<int>, fee: FeeScript, k: nat)
    requires FeeSplit.ValidWeights(w) && shares == FeeSplit.Shares(amount, w) && k <= |shares|
    ensures 0 <= Undelivered(shares, fee, k) <= amount
  {
    forall i | 0 <= i < |shares| ensures shares[i] >= 0 { FeeSplit.SharesFloorOrCeiling(amount, w, i); }
    UndeliveredBound(shares, fee, k);
    FeeSplit.PrefixSum(shares, k);
    FeeSplit.SharesSum(amount, w);
  }

  lemma {:induction false} FirstParamsError(items: seq<Item>, i: nat, n: nat)
    requires i < n <= |items|
    requires BatchParamsError(items, i).None? && ParamsError(items[i].params).Some?
    ensures BatchParamsError(items, n) == ParamsError(items[i].params)
  {
    if n > i + 1 { FirstParamsError(items, i, n - 1); }
  }

  lemma {:induction false} StuckBatch(w: World, creator: Address, items: seq<Item>, i: nat, n: nat)
    requires i <= n <= |items| && RecordAll(w, creator, items, i).NotRecorded?
    ensures RecordAll(w, creator, items, n) == RecordAll(w, creator, items, i)
  {
    if n > i { StuckBatch(w, creator, items, i, n - 1); }
  }

  function Locked(w: World): World { w.(st := w.st.(locked := true)) }

  /** Recording a batch neither reads nor writes the lock. */
  lemma {:induction false} LockCommutes(w: World, creator: Address, items: seq<Item>, n: nat)
    requires n <= |items| && !w.st.locked
    ensures match RecordAll(w, creator, items, n)
      case NotRecorded(e) => RecordAll(Locked(w), creator, items, n) == NotRecorded(e)
      case Recorded(w1, tokens) =>
        !w1.st.locked && RecordAll(Locked(w), creator, items, n) == Recorded(Locked(w1), tokens)
  {
    hide RegisterToken;
    hide RecordError;
    if n > 0 {
      LockCommutes(w, creator, items, n - 1);
      if RecordAll(w, creator, items, n - 1).Recorded? {
        LockCommutesOne(RecordAll(w, creator, items, n - 1).world, creator, items[n - 1]);
      }
    }
  }
}
