/**
 * A batch creation and the same creations one by one: same registry, same
 * addresses, same total fee.
 */
module FactoryBatch {
  import opened Common
  import FeeSplit
  import opened CreatorPages
  import opened FactoryModel
  import opened FactorySteps
  import opened FactoryFees

  /**
   * The world after creating the first `n` items one at a time, each paying `pay`, the fee token
   * behaving as `fees[i]`.
   */
  function Singles(w: World, creator: Address, items: seq<Item>, pay: I128, fees: seq<FeeScript>, n: nat): Turn
    requires n <= |items| == |fees|
  {
    if n == 0 then Turn(w, Done([]))
    else
      var prev := Singles(w, creator, items, pay, fees, n - 1);
      var one := CreateTokenStep(prev.world, creator, items[n - 1], pay, fees[n - 1]);
      if prev.reply.Fail? then prev
      else if one.reply.Fail? then one
      else Turn(one.world, Done(prev.reply.tokens + one.reply.tokens))
  }

  /** Everything the two worlds store, apart from the order of effects in the log. */
  predicate SameButLog(w: World, w': World) { w' == w.(log := w'.log) }

  lemma RegisterIgnoresLog(w: World, w': World, creator: Address, item: Item)
    requires SameButLog(w, w')
    ensures RecordError(w', creator, item) == RecordError(w, creator, item)
    ensures SameButLog(RegisterToken(w, creator, item.params), RegisterToken(w', creator, item.params))
  {
    hide Appended, InfoFor, TokensOf;
  }

  lemma RegisterKeepsGate(w: World, creator: Address, p: TokenParams)
    ensures var w' := RegisterToken(w, creator, p);
      && w'.st == w.st.(tokenCount := w.st.tokenCount + 1) && w'.split == w.split
      && w'.pers.whitelist == w.pers.whitelist && w'.inst.whitelist == w.inst.whitelist
  {
    hide Appended, InfoFor;
  }

  /** The fields a creation's gate reads, after `n` registrations. */
  predicate SameGate(w: World, w': World, n: nat) {
    && w'.st == w.st.(tokenCount := w.st.tokenCount + n) && w'.split == w.split
    && w'.pers.whitelist == w.pers.whitelist && w'.inst.whitelist == w.inst.whitelist
  }

  lemma {:induction false} RecordAllGate(w: World, creator: Address, items: seq<Item>, n: nat)
    requires n <= |items| && RecordAll(w, creator, items, n).Recorded?
    ensures SameGate(w, RecordAll(w, creator, items, n).world, n)
  {
    hide RegisterToken, RecordError;
    if n > 0 {
      RecordAllGate(w, creator, items, n - 1);
      RegisterKeepsGate(RecordAll(w, creator, items, n - 1).world, creator, items[n - 1].params);
    }
  }

  lemma {:induction false} EarlierRecorded(w: World, creator: Address, items: seq<Item>, n: nat, m: nat)
    requires n <= m <= |items| && RecordAll(w, creator, items, m).Recorded?
    ensures RecordAll(w, creator, items, n).Recorded?
  {
    hide RegisterToken, RecordError;
    if n < m { EarlierRecorded(w, creator, items, n, m - 1); }
  }

  lemma {:induction false} EachParamsFine(items: seq<Item>, n: nat, i: nat)
    requires i < n <= |items| && BatchParamsError(items, n).None?
    ensures ParamsError(items[i].params).None?
  {
    if i < n - 1 { EachParamsFine(items, n - 1, i); }
  }

  /** One more single creation goes through when the fee token accepts its charge. */
  lemma SingleGoesThrough(w: World, creator: Address, item: Item, pay: I128, fee: FeeScript)
    requires !w.st.paused && !w.st.locked && ParamsError(item.params).None? && pay >= w.st.baseFee
    requires WhitelistError(w, creator).None?
    requires FeesFor(w.split, w.st.treasury, creator, w.st.baseFee, fee).Charged?
    requires RecordError(w, creator, item).None?
    ensures var effects := FeesFor(w.split, w.st.treasury, creator, w.st.baseFee, fee).effects;
      CreateTokenStep(w, creator, item, pay, fee) ==
        Turn(RegisterToken(w.(log := w.log + effects), creator, item.params),
          Done([Derived(creator, item.params.salt)]))
  {
    RegisterIgnoresLog(w, w.(log := w.log + FeesFor(w.split, w.st.treasury, creator, w.st.baseFee, fee).effects),
      creator, item);
    CountFits(w, creator, item);
    hide FeesFor, RegisterToken, RecordError, ParamsError, WhitelistError;
  }

  lemma CountFits(w: World, creator: Address, item: Item)
    requires RecordError(w, creator, item).None?
    ensures w.st.tokenCount + 1 <= U32_MAX
  {
  }

  lemma WhitelistGate(w: World, w': World, creator: Address, n: nat)
    requires SameGate(w, w', n)
    ensures WhitelistError(w', creator) == WhitelistError(w, creator)
  {
  }

  lemma BatchFeeSteps(w: World, n: nat)
    ensures BatchFee(w, n) == if n == 0 then 0 else BatchFee(w, n - 1) + w.st.baseFee
  {
  }

  /** Creating the batch's items one by one succeeds and stores what recording them as a batch stores. */
  lemma {:induction false} SinglesFollowBatch(w: World, creator: Address, items: seq<Item>, pay: I128,
                                              fees: seq<FeeScript>, n: nat)
    requires WellFormed(w) && n <= |items| == |fees| && !w.st.paused && !w.st.locked && pay >= w.st.baseFee
    requires WhitelistError(w, creator).None? && BatchParamsError(items, |items|).None?
    requires forall i :: 0 <= i < |fees| ==> FeesFor(w.split, w.st.treasury, creator, w.st.baseFee, fees[i]).Charged?
    requires RecordAll(w, creator, items, n).Recorded?
    ensures var s, b := Singles(w, creator, items, pay, fees, n), RecordAll(w, creator, items, n);
      && s.reply == Done(b.tokens) && SameButLog(b.world, s.world)
      && w.log <= s.world.log && Moved(s.world.log[|w.log|..]) == BatchFee(w, n)
  {
    hide RegisterToken, RecordError, CreateTokenStep, WhitelistError, ParamsError, BatchParamsError, FeesFor, Moved,
      ValidLists, BatchFee;
    BatchFeeSteps(w, n);
    if n == 0 {
      NoTotals();
      assert w.log[|w.log|..] == [];
    } else {
      EarlierRecorded(w, creator, items, n - 1, n);
      SinglesFollowBatch(w, creator, items, pay, fees, n - 1);
      RecordAllGate(w, creator, items, n - 1);
      var b, s := RecordAll(w, creator, items, n - 1), Singles(w, creator, items, pay, fees, n - 1);
      WhitelistGate(w, s.world, creator, n - 1);
      RegisterIgnoresLog(b.world, s.world, creator, items[n - 1]);
      EachParamsFine(items, |items|, n - 1);
      OneMore(w, b.world, s.world, creator, items[n - 1], pay, fees[n - 1], n);
    }
  }

  /** The inductive step: one more item recorded both ways. */
  lemma OneMore(w: World, b: World, s: World, creator: Address, item: Item, pay: I128, fee: FeeScript, n: nat)
    requires n > 0 && SameButLog(b, s) && SameGate(w, b, n - 1) && WellFormed(w)
    requires !w.st.paused && !w.st.locked && pay >= w.st.baseFee && ParamsError(item.params).None?
    requires WhitelistError(s, creator).None? && RecordError(s, creator, item).None?
    requires FeesFor(w.split, w.st.treasury, creator, w.st.baseFee, fee).Charged?
    requires w.log <= s.log && Moved(s.log[|w.log|..]) == BatchFee(w, n - 1)
    ensures var one := CreateTokenStep(s, creator, item, pay, fee);
      && one.reply == Done([Derived(creator, item.params.salt)])
      && SameButLog(RegisterToken(b, creator, item.params), one.world)
      && w.log <= one.world.log && Moved(one.world.log[|w.log|..]) == BatchFee(w, n)
  {
    hide RegisterToken, RecordError, CreateTokenStep, WhitelistError, ParamsError, FeesFor, Moved, ValidLists, BatchFee;
    BatchFeeSteps(w, n);
    SingleGoesThrough(s, creator, item, pay, fee);
    var effects := FeesFor(w.split, w.st.treasury, creator, w.st.baseFee, fee).effects;
    var s1 := s.(log := s.log + effects);
    RegisterIgnoresLog(b, s1, creator, item);
    ChargeMovesExactly(w.split, w.st.treasury, creator, w.st.baseFee, fee);
    GrewBeforeStretch(w.log, s.log, effects);
    RegisterMovesNothing(s1, creator, item.params);
    var end := RegisterToken(s1, creator, item.params).log;
    assert end == s1.log + end[|s1.log|..];
    GrewBeforeStretch(w.log, s1.log, end[|s1.log|..]);
  }

  lemma GrewBeforeStretch(start: seq<Effect>, middle: seq<Effect>, tail: seq<Effect>)
    requires start <= middle
    ensures start <= middle + tail
    ensures Moved((middle + tail)[|start|..]) == Moved(middle[|start|..]) + Moved(tail)
  {
    hide Moved;
    assert (middle + tail)[|start|..] == middle[|start|..] + tail;
    TotalsConcat(middle[|start|..], tail);
  }

  lemma BatchGateFacts(w: World, creator: Address, items: seq<Item>, pay: I128, fee: FeeScript)
    requires CreateBatchStep(w, creator, items, pay, fee).reply.Done?
    ensures !w.st.paused && !w.st.locked && WhitelistError(w, creator).None? && |items| > 0
  {
    hide FeesFor, RecordAll, BatchParamsError, WhitelistError, BatchFee;
  }

  /**
   * A successful batch of n leaves what n successful single creations leave -
   * state record, both tiers, creator lists, deployed contracts - returns the
   * same addresses and debits the same total fee.
   */
  lemma BatchEqualsSingles(w: World, creator: Address, items: seq<Item>, payment: I128, fee: FeeScript,
                           pay: I128, fees: seq<FeeScript>)
    requires WellFormed(w) && |fees| == |items| && pay >= w.st.baseFee
    requires CreateBatchStep(w, creator, items, payment, fee).reply.Done?
    requires forall i :: 0 <= i < |fees| ==> FeesFor(w.split, w.st.treasury, creator, w.st.baseFee, fees[i]).Charged?
    ensures var batch := CreateBatchStep(w, creator, items, payment, fee);
      var singles := Singles(w, creator, items, pay, fees, |items|);
      && singles.reply == batch.reply && SameButLog(batch.world, singles.world)
      && w.log <= batch.world.log && w.log <= singles.world.log
      && Moved(batch.world.log[|w.log|..]) == Moved(singles.world.log[|w.log|..]) == BatchFee(w, |items|)
  {
    hide FeesFor, RecordAll, CreateBatchStep, BatchParamsError, WhitelistError, ValidLists, Moved, Singles, BatchFee;
    BatchGateFacts(w, creator, items, payment, fee);
    BatchDone(w, creator, items, payment, fee);
    SinglesFollowBatch(w, creator, items, pay, fees, |items|);
    BatchCharges(w, creator, items, payment, fee);
  }
}
