/**
 * What the reentrancy lock buys: callbacks made by external contracts during a
 * guarded entrypoint cannot be told apart from silence, except for callbacks
 * made from `burn`'s balance query, which runs before the lock is taken.
 */
module FactoryLock {
  import opened Common
  import FeeSplit
  import opened CreatorPages
  import opened FactoryModel

  // ---- The same call with well-behaved external contracts ----

  function Quiet(k: Callee): Callee { Callee([], k.ok) }

  function QuietAll(ks: seq<Callee>): (q: seq<Callee>)
    ensures |q| == |ks|
  {
    seq(|ks|, i requires 0 <= i < |ks| => Quiet(ks[i]))
  }

  function QuietFee(f: FeeScript): FeeScript { FeeScript(QuietAll(f.recipients), Quiet(f.treasury)) }

  function QuietItem(item: Item): Item {
    Item(item.params, TokenScript(Quiet(item.script.deploy), Quiet(item.script.init), Quiet(item.script.mint)))
  }

  function QuietItems(items: seq<Item>): (q: seq<Item>)
    ensures |q| == |items|
  {
    seq(|items|, i requires 0 <= i < |items| => QuietItem(items[i]))
  }

  /** Every external call made while the lock is held stays silent; `burn`'s balance query is left as it is. */
  function QuietCall(c: Call): Call {
    match c
    case CreateToken(creator, item, pay, fee) => CreateToken(creator, QuietItem(item), pay, QuietFee(fee))
    case CreateTokensBatch(creator, items, pay, fee) =>
      CreateTokensBatch(creator, QuietItems(items), pay, QuietFee(fee))
    case SetMetadata(t, admin, uri, pay, fee) => SetMetadata(t, admin, uri, pay, QuietFee(fee))
    case MintTokens(t, admin, to, amount, pay, fee, mint) =>
      MintTokens(t, admin, to, amount, pay, QuietFee(fee), Quiet(mint))
    case Burn(t, from, amount, balance, query, burn) => Burn(t, from, amount, balance, query, Quiet(burn))
    case SetBurnEnabled(_, _, _) => c
  }

  // ---- Non-interference ----

  lemma {:induction false} QuietPayouts(split: seq<Share>, shares: seq<int>, payer: Address, fee: FeeScript, k: nat)
    requires k <= |split| == |shares|
    ensures Payouts(split, shares, payer, QuietFee(fee), k) == Payouts(split, shares, payer, fee, k)
    ensures Undelivered(shares, QuietFee(fee), k) == Undelivered(shares, fee, k)
  {
    if k > 0 { QuietPayouts(split, shares, payer, fee, k - 1); }
  }

  lemma QuietFees(split: seq<Share>, treasury: Address, payer: Address, amount: Amount, fee: FeeScript)
    ensures FeesFor(split, treasury, payer, amount, QuietFee(fee)) == FeesFor(split, treasury, payer, amount, fee)
  {
    if split != [] {
      QuietPayouts(split, FeeSplit.Shares(amount, Weights(split)), payer, fee, |split|);
    }
  }

  lemma {:induction false} QuietBatchParams(items: seq<Item>, n: nat)
    requires n <= |items|
    ensures BatchParamsError(QuietItems(items), n) == BatchParamsError(items, n)
  {
    if n > 0 { QuietBatchParams(items, n - 1); }
  }

  lemma {:induction false} QuietRecordAll(w: World, creator: Address, items: seq<Item>, n: nat)
    requires n <= |items|
    ensures RecordAll(w, creator, QuietItems(items), n) == RecordAll(w, creator, items, n)
  {
    hide RegisterToken;
    if n > 0 { QuietRecordAll(w, creator, items, n - 1); }
  }

  lemma QuietCreate(w: World, creator: Address, item: Item, pay: I128, fee: FeeScript)
    ensures CreateTokenStep(w, creator, QuietItem(item), pay, QuietFee(fee)) ==
      CreateTokenStep(w, creator, item, pay, fee)
  {
    QuietFees(w.split, w.st.treasury, creator, w.st.baseFee, fee);
    hide FeesFor, RegisterToken, ParamsError, WhitelistError;
  }

  lemma QuietBatchRefusal(w: World, creator: Address, items: seq<Item>, pay: I128)
    ensures CreateBatchRefusal(w, creator, QuietItems(items), pay) == CreateBatchRefusal(w, creator, items, pay)
  {
    QuietBatchParams(items, |items|);
    hide BatchFee, WhitelistError, BatchParamsError;
  }

  lemma QuietBatch(w: World, creator: Address, items: seq<Item>, pay: I128, fee: FeeScript)
    ensures CreateBatchStep(w, creator, QuietItems(items), pay, QuietFee(fee)) ==
      CreateBatchStep(w, creator, items, pay, fee)
  {
    QuietBatchRefusal(w, creator, items, pay);
    QuietRecordAll(w, creator, items, |items|);
    if CreateBatchRefusal(w, creator, items, pay).None? {
      QuietFees(w.split, w.st.treasury, creator, BatchFee(w, |items|), fee);
    }
    hide FeesFor, RecordAll, BatchFee, QuietFee;
  }

  /** Callbacks made while the lock is held never change the outcome, the reply, or any stored or external effect. */
  lemma CallbacksChangeNothing(w: World, c: Call)
    ensures Step(w, QuietCall(c)) == Step(w, c)
  {
    hide FeesFor, CreateTokenStep, CreateBatchStep, SetMetadataRefusal, MintRefusal, BurnRefusal;
    hide MintPrepared, MetadataPrepared, SetBurnEnabledStep, TouchRegistered;
    match c
    case CreateToken(creator, item, pay, fee) => QuietCreate(w, creator, item, pay, fee);
    case CreateTokensBatch(creator, items, pay, fee) => QuietBatch(w, creator, items, pay, fee);
    case SetMetadata(_, admin, _, _, fee) => QuietFees(w.split, w.st.treasury, admin, w.st.metadataFee, fee);
    case MintTokens(_, admin, _, _, _, fee, _) => QuietFees(w.split, w.st.treasury, admin, w.st.baseFee, fee);
    case _ =>
  }

  /** The token's `burn_enabled` flag, false when the token is unknown. */
  predicate BurnsEnabled(w: World, t: Address) {
    Registered(w, t).Some? && Registered(w, t).value.1.burnEnabled
  }

  /**
   * The query is the one unguarded call: a creator disabling burns from inside
   * it lets the burn in flight finish, and leaves burns disabled.
   */
  lemma BalanceQueryIsNotGuarded(w: World, t: Address, creator: Address, holder: Address)
    requires !w.st.locked && OwnerOf(w, t) == Some(creator) && BurnsEnabled(w, t)
    ensures
      var toggle := SetBurnEnabled(t, creator, false);
      var c := Burn(t, holder, 1, 1, Callee([toggle], true), Callee([], true));
      var silent := Burn(t, holder, 1, 1, Callee([], true), Callee([], true));
      && Step(w, c).reply == Step(w, silent).reply == Done([])
      && BurnsEnabled(Step(w, silent).world, t)
      && !BurnsEnabled(Step(w, c).world, t)
  {
    var toggle := SetBurnEnabled(t, creator, false);
    var c := Burn(t, holder, 1, 1, Callee([toggle], true), Callee([], true));
    var silent := Burn(t, holder, 1, 1, Callee([], true), Callee([], true));
    var w1 := TouchRegistered(w, t);
    TouchKeepsToken(w, t);
    ToggleTurnsOff(w1, t, creator);
    assert Reenter(w1, silent.balanceCall, 0) == w1;
    assert Reenter(w1, c.balanceCall, 0) == w1;
    assert Reenter(w1, c.balanceCall, 1) == Step(w1, toggle).world;
    hide TouchRegistered, Registered, SetBurnEnabledStep, Reenter, Step;
    BurnReply(w, c);
    BurnReply(w, silent);
    LogIsNotRead(w1, w1.log + [Burned(t, holder, 1)], t);
    var w2 := Step(w1, toggle).world;
    LogIsNotRead(w2, w2.log + [Burned(t, holder, 1)], t);
  }

  /** The burn `c` with its balance query calling back `script`. */
  function Queried(c: Call, script: seq<Call>): Call
    requires c.Burn?
  {
    c.(balanceCall := Callee(script, c.balanceCall.ok))
  }

  /** Calling back `script` from the query gives another reply or leaves another world than staying silent. */
  ghost predicate QueryMatters(w: World, c: Call, script: seq<Call>)
    requires c.Burn?
  {
    Step(w, Queried(c, script)) != Step(w, Queried(c, []))
  }

  /** Everything else about the burn is in order. */
  predicate BurnGoesThrough(w: World, c: Call)
    requires c.Burn?
  {
    !w.st.locked && BurnRefusal(w, c.token, c.amount).None? && c.balanceCall.ok && c.amount <= c.balance && c.burn.ok
  }

  /**
   * The balance query of a burn can make a difference exactly when the burn
   * itself goes through; otherwise the whole frame, callbacks included, is
   * undone with the same error.
   */
  lemma BalanceQueryMattersIff(w: World, c: Call)
    requires c.Burn?
    ensures (exists script :: QueryMatters(w, c, script)) <==> BurnGoesThrough(w, c)
  {
    if BurnGoesThrough(w, c) {
      BurnAgain(w, c);
      assert QueryMatters(w, c, [Queried(c, [])]);
    } else {
      forall script ensures !QueryMatters(w, c, script) { DoomedBurn(w, c, script); }
    }
  }

  /** A burn that does not go through ends the same whatever its query calls back. */
  lemma DoomedBurn(w: World, c: Call, script: seq<Call>)
    requires c.Burn? && !BurnGoesThrough(w, c)
    ensures Step(w, Queried(c, script)) == Step(w, Queried(c, []))
  {
    hide TouchRegistered, Reenter;
    var w1, silent, loud := TouchRegistered(w, c.token), Queried(c, []), Queried(c, script);
    TouchState(w, c.token);
    if w.st.locked {
      LockedReenter(w1, silent.balanceCall, 0);
      LockedReenter(w1, loud.balanceCall, |script|);
    } else {
      ReenterKeepsUnlocked(w1, silent.balanceCall, 0);
      ReenterKeepsUnlocked(w1, loud.balanceCall, |script|);
    }
  }

  /** Burning once more from inside the query burns twice. */
  lemma BurnAgain(w: World, c: Call)
    requires c.Burn? && BurnGoesThrough(w, c)
    ensures |Step(w, Queried(c, [Queried(c, [])])).world.log| == |w.log| + 2
    ensures |Step(w, Queried(c, [])).world.log| == |w.log| + 1
  {
    var silent := Queried(c, []);
    SilentBurn(w, c);
    var w1 := TouchRegistered(w, c.token);
    TouchState(w, c.token);
    TouchKeepsRefusal(w, c.token, c.amount);
    SilentBurn(w1, c);
    StepKeepsUnlocked(w1, silent);
    var loud := Queried(c, [silent]);
    assert Reenter(w1, loud.balanceCall, 0) == w1;
    assert Reenter(w1, loud.balanceCall, 1) == Step(w1, silent).world;
    hide TouchRegistered, Reenter, Step;
    BurnAfterQuery(w, loud);
  }

  lemma BurnAfterQuery(w: World, c: Call)
    requires c.Burn? && BurnGoesThrough(w, c)
    requires !Reenter(TouchRegistered(w, c.token), c.balanceCall, |c.balanceCall.reenter|).st.locked
    ensures var w1 := Reenter(TouchRegistered(w, c.token), c.balanceCall, |c.balanceCall.reenter|);
      Step(w, c) == Turn(w1.(log := w1.log + [Burned(c.token, c.from, c.amount)]), Done([]))
  {
    hide TouchRegistered, Reenter;
  }

  lemma SilentBurn(w: World, c: Call)
    requires c.Burn? && BurnGoesThrough(w, c)
    ensures |Step(w, Queried(c, [])).world.log| == |w.log| + 1
  {
    TouchState(w, c.token);
    var silent := Queried(c, []);
    assert Reenter(TouchRegistered(w, c.token), silent.balanceCall, 0) == TouchRegistered(w, c.token);
    hide TouchRegistered, Reenter;
    BurnAfterQuery(w, silent);
  }

  lemma TouchState(w: World, t: Address)
    ensures TouchRegistered(w, t).st == w.st && TouchRegistered(w, t).log == w.log
  {
    hide PromotePers, PromoteInst;
  }

  lemma TouchKeepsRefusal(w: World, t: Address, amount: int)
    ensures BurnRefusal(TouchRegistered(w, t), t, amount) == BurnRefusal(w, t, amount)
  {
    TouchKeepsToken(w, t);
    hide TouchRegistered, Registered;
  }

  lemma BurnReply(w: World, c: Call)
    requires c.Burn? && c.amount == 1 && c.balance == 1 && c.balanceCall.ok && c.burn.ok && BurnsEnabled(w, c.token)
    requires !Reenter(TouchRegistered(w, c.token), c.balanceCall, |c.balanceCall.reenter|).st.locked
    ensures
      var w1 := Reenter(TouchRegistered(w, c.token), c.balanceCall, |c.balanceCall.reenter|);
      Step(w, c) == Turn(w1.(log := w1.log + [Burned(c.token, c.from, c.amount)]), Done([]))
  {
    hide TouchRegistered, Reenter;
  }

  lemma LogIsNotRead(w: World, log: seq<Effect>, t: Address)
    ensures BurnsEnabled(w.(log := log), t) == BurnsEnabled(w, t)
  {
  }

  lemma TouchKeepsToken(w: World, t: Address)
    ensures var w1 := TouchRegistered(w, t);
      Registered(w1, t) == Registered(w, t) && OwnerOf(w1, t) == OwnerOf(w, t) && w1.st == w.st
  {
  }

  lemma ToggleTurnsOff(w: World, t: Address, creator: Address)
    requires !w.st.locked && OwnerOf(w, t) == Some(creator) && Registered(w, t).Some?
    ensures var w1 := Step(w, SetBurnEnabled(t, creator, false)).world;
      !BurnsEnabled(w1, t) && !w1.st.locked
  {
  }

  // ---- The lock is never left stored as held ----

  lemma {:induction false} RecordAllKeepsLock(w: World, creator: Address, items: seq<Item>, n: nat)
    requires n <= |items|
    ensures RecordAll(w, creator, items, n).Recorded? ==>
      RecordAll(w, creator, items, n).world.st.locked == w.st.locked &&
      RecordAll(w, creator, items, n).world.st ==
        w.st.(tokenCount := RecordAll(w, creator, items, n).world.st.tokenCount)
  {
    hide RecordError, Appended;
    if n > 0 { RecordAllKeepsLock(w, creator, items, n - 1); }
  }

  lemma {:induction false} StepKeepsUnlocked(w: World, c: Call)
    requires !w.st.locked
    ensures !Step(w, c).world.st.locked
    decreases c, 1
  {
    match c
    case CreateTokensBatch(creator, items, _, _) => RecordAllKeepsLock(w, creator, items, |items|);
    case Burn(t, _, _, _, k, _) => ReenterKeepsUnlocked(TouchRegistered(w, t), k, |k.reenter|);
    case _ =>
  }

  lemma {:induction false} ReenterKeepsUnlocked(w: World, k: Callee, n: nat)
    requires !w.st.locked && n <= |k.reenter|
    ensures !Reenter(w, k, n).st.locked
    decreases k, n
  {
    if n > 0 {
      ReenterKeepsUnlocked(w, k, n - 1);
      StepKeepsUnlocked(Reenter(w, k, n - 1), k.reenter[n - 1]);
    }
  }

  /** At every top-level boundary of every run the stored lock is released. */
  lemma {:induction false} UnlockedAtEveryBoundary(w: World, events: seq<Event>, n: nat)
    requires !w.st.locked && n <= |events|
    ensures !After(w, events, n).st.locked
  {
    if n > 0 {
      UnlockedAtEveryBoundary(w, events, n - 1);
      var before := After(w, events, n - 1);
      if events[n - 1].Guarded? { StepKeepsUnlocked(before, events[n - 1].call); }
      if events[n - 1].Admin? { AdminFrame(before, events[n - 1].admin); }
    }
  }
}
