/**
 * Who pays and who is paid, read off the log alone: every fee-paying call takes
 * exactly its fee from its caller and from nobody else, and hands it to the fee
 * split's recipients and the treasury exactly as promised.
 */
module FactoryPayments {
  import opened Common
  import FeeSplit
  import opened CreatorPages
  import opened FactoryModel
  import opened FactorySteps
  import opened FactoryFees

  // ---- Accounts, from the log ----

  /** All that `a` has paid in fees. */
  function PaidBy(log: seq<Effect>, a: Address): int {
    if log == [] then 0
    else
      var last := log[|log| - 1];
      PaidBy(log[..|log| - 1], a) + if last.Transfer? && last.payer == a then last.amount else 0
  }

  /** All that `a` has received in fees. */
  function ReceivedBy(log: seq<Effect>, a: Address): int {
    if log == [] then 0
    else
      var last := log[|log| - 1];
      ReceivedBy(log[..|log| - 1], a) + if last.Transfer? && last.to == a then last.amount else 0
  }

  lemma {:induction false} AccountsConcat(x: seq<Effect>, y: seq<Effect>, a: Address)
    ensures PaidBy(x + y, a) == PaidBy(x, a) + PaidBy(y, a)
    ensures ReceivedBy(x + y, a) == ReceivedBy(x, a) + ReceivedBy(y, a)
  {
    if y == [] {
      assert x + y == x;
    } else {
      AccountsConcat(x, y[..|y| - 1], a);
      assert (x + y)[..|x + y| - 1] == x + y[..|y| - 1];
    }
  }

  lemma OneAccount(e: Effect, a: Address)
    ensures PaidBy([e], a) == if e.Transfer? && e.payer == a then e.amount else 0
    ensures ReceivedBy([e], a) == if e.Transfer? && e.to == a then e.amount else 0
  {
    assert [e][..0] == [];
  }

  lemma NoAccount(a: Address)
    ensures PaidBy([], a) == ReceivedBy([], a) == 0
  {
  }

  // ---- What is promised ----

  /** The transfer to recipient `i` goes through; a recipient the script does not mention accepts. */
  predicate Accepts(fee: FeeScript, i: nat) { i >= |fee.recipients| || fee.recipients[i].ok }

  /** The shares of the first `n` recipients that are `a` and accept them. */
  function DeliveredTo(split: seq<Share>, shares: seq<int>, fee: FeeScript, n: nat, a: Address): int
    requires n <= |split| == |shares|
  {
    if n == 0 then 0
    else
      DeliveredTo(split, shares, fee, n - 1, a) +
      if split[n - 1].recipient == a && Accepts(fee, n - 1) then shares[n - 1] else 0
  }

  /** The shares of the first `n` recipients that accept them, whoever they are. */
  function Delivered(shares: seq<int>, fee: FeeScript, n: nat): int
    requires n <= |shares|
  {
    if n == 0 then 0 else Delivered(shares, fee, n - 1) + if Accepts(fee, n - 1) then shares[n - 1] else 0
  }

  /**
   * What `a` is due of a fee: without a split the treasury gets it all; with
   * one, each recipient gets the shares it accepts and the treasury the rest.
   */
  function Due(split: seq<Share>, treasury: Address, amount: nat, fee: FeeScript, a: Address): int {
    if split == [] then if a == treasury then amount else 0
    else
      var shares := FeeSplit.Shares(amount, Weights(split));
      DeliveredTo(split, shares, fee, |split|, a) +
      if a == treasury then amount - Delivered(shares, fee, |split|) else 0
  }

  // ---- One charge ----

  lemma {:induction false} PayoutAccounts(split: seq<Share>, shares: seq<int>, payer: Address, fee: FeeScript,
                                          n: nat, a: Address)
    requires n <= |split| == |shares| && forall i :: 0 <= i < |shares| ==> shares[i] >= 0
    ensures var log := Payouts(split, shares, payer, fee, n);
      && PaidBy(log, a) == (if a == payer then Delivered(shares, fee, n) else 0)
      && ReceivedBy(log, a) == DeliveredTo(split, shares, fee, n, a)
    ensures Delivered(shares, fee, n) + Undelivered(shares, fee, n) == Sum(shares[..n])
  {
    hide PaidBy, ReceivedBy;
    NoAccount(a);
    if n > 0 {
      PayoutAccounts(split, shares, payer, fee, n - 1, a);
      assert shares[..n][..n - 1] == shares[..n - 1];
      var turn := Payout(split, shares, payer, fee, n - 1);
      AccountsConcat(Payouts(split, shares, payer, fee, n - 1), turn, a);
      if turn != [] { OneAccount(turn[0], a); }
    }
  }

  lemma {:induction false} PayoutsComeFromThePayer(split: seq<Share>, shares: seq<int>, payer: Address,
                                                   fee: FeeScript, n: nat)
    requires n <= |split| == |shares|
    ensures OnlyPayer(Payouts(split, shares, payer, fee, n), payer)
  {
    if n > 0 { PayoutsComeFromThePayer(split, shares, payer, fee, n - 1); }
  }

  /** Every transfer is made by `payer`. */
  predicate OnlyPayer(log: seq<Effect>, payer: Address) {
    forall k :: 0 <= k < |log| && log[k].Transfer? ==> log[k].payer == payer
  }

  /** A charge that goes through is paid by the payer alone, in full, and everyone receives what is due. */
  lemma ChargeAccounts(split: seq<Share>, treasury: Address, payer: Address, amount: Amount, fee: FeeScript, a: Address)
    requires split == [] || FeeSplit.ValidWeights(Weights(split))
    requires FeesFor(split, treasury, payer, amount, fee).Charged?
    ensures var effects := FeesFor(split, treasury, payer, amount, fee).effects;
      && OnlyPayer(effects, payer)
      && PaidBy(effects, a) == (if a == payer then amount else 0)
      && ReceivedBy(effects, a) == Due(split, treasury, amount, fee, a)
  {
    if split == [] {
      OneAccount(Transfer(payer, treasury, amount), a);
    } else {
      hide PaidBy, ReceivedBy, OnlyPayer, FeeSplit.ValidWeights;
      SplitAccounts(split, treasury, payer, amount, fee, a);
    }
  }

  lemma SharesAreFine(amount: nat, w: seq<nat>)
    requires FeeSplit.ValidWeights(w)
    ensures Sum(FeeSplit.Shares(amount, w)) == amount
    ensures forall i :: 0 <= i < |w| ==> FeeSplit.Shares(amount, w)[i] >= 0
  {
    hide FeeSplit.Shares;
    FeeSplit.SharesSum(amount, w);
    forall i | 0 <= i < |w| ensures FeeSplit.Shares(amount, w)[i] >= 0 { FeeSplit.SharesFloorOrCeiling(amount, w, i); }
  }

  lemma SplitAccounts(split: seq<Share>, treasury: Address, payer: Address, amount: Amount, fee: FeeScript, a: Address)
    requires split != [] && FeeSplit.ValidWeights(Weights(split))
    ensures var shares := FeeSplit.Shares(amount, Weights(split));
      var paid, rest := Payouts(split, shares, payer, fee, |split|), Undelivered(shares, fee, |split|);
      var effects := if rest <= 0 then paid else paid + [Transfer(payer, treasury, rest)];
      && OnlyPayer(effects, payer)
      && PaidBy(effects, a) == (if a == payer then amount else 0)
      && ReceivedBy(effects, a) == Due(split, treasury, amount, fee, a)
  {
    hide PaidBy, ReceivedBy, FeeSplit.Shares, Payouts, Undelivered, Delivered, DeliveredTo, FeeSplit.ValidWeights;
    var shares := FeeSplit.Shares(amount, Weights(split));
    SharesAreFine(amount, Weights(split));
    PayoutAccounts(split, shares, payer, fee, |split|, a);
    PayoutsComeFromThePayer(split, shares, payer, fee, |split|);
    assert shares[..|split|] == shares;
    NonNegativeUndelivered(shares, fee, |split|);
    var paid, rest := Payouts(split, shares, payer, fee, |split|), Undelivered(shares, fee, |split|);
    if rest > 0 {
      AccountsConcat(paid, [Transfer(payer, treasury, rest)], a);
      OneAccount(Transfer(payer, treasury, rest), a);
    }
  }

  /** Everything owed to recipients is accepted by them. */
  predicate AllAccept(shares: seq<int>, fee: FeeScript, n: nat)
    requires n <= |shares|
  {
    forall i :: 0 <= i < n && shares[i] > 0 ==> Accepts(fee, i)
  }

  lemma {:induction false} NothingUndeliveredIff(shares: seq<int>, fee: FeeScript, n: nat)
    requires n <= |shares|
    ensures Undelivered(shares, fee, n) >= 0 && (Undelivered(shares, fee, n) == 0 <==> AllAccept(shares, fee, n))
  {
    if n > 0 { NothingUndeliveredIff(shares, fee, n - 1); }
  }

  /**
   * Exactly when a charge goes through: its arithmetic stays within `i128`, and
   * the treasury accepts what comes its way, if anything does.
   */
  lemma ChargedIff(split: seq<Share>, treasury: Address, payer: Address, amount: Amount, fee: FeeScript)
    requires split == [] || FeeSplit.ValidWeights(Weights(split))
    ensures FeesFor(split, treasury, payer, amount, fee).Charged? <==>
      if split == [] then fee.treasury.ok
      else
        && (forall i :: 0 <= i < |split| ==> amount * split[i].bps <= I128_MAX)
        && (AllAccept(FeeSplit.Shares(amount, Weights(split)), fee, |split|) || fee.treasury.ok)
  {
    if split != [] {
      var w := Weights(split);
      NothingUndeliveredIff(FeeSplit.Shares(amount, w), fee, |split|);
      FitsIff(amount, w);
      hide FeeSplit.Shares, FeeSplit.Fits, Undelivered, AllAccept;
      assert forall i :: 0 <= i < |split| ==> w[i] == split[i].bps;
    }
  }

  lemma FitsIff(amount: nat, w: seq<nat>)
    ensures FeeSplit.Fits(amount, w) <==> forall i :: 0 <= i < |w| ==> amount * w[i] <= I128_MAX
  {
    forall i | 0 <= i < |w| ensures FeeSplit.Product(amount, w[i]) == amount * w[i] {}
  }

  // ---- Whole calls ----

  /** The log grew by entries among which only `payer` pays, exactly `amount`, and each address gets its due. */
  ghost predicate PaysExactly(w: World, log: seq<Effect>, log': seq<Effect>, payer: Address, amount: nat,
                              fee: FeeScript) {
    && log <= log' && OnlyPayer(log'[|log|..], payer)
    && (forall a :: PaidBy(log', a) == PaidBy(log, a) + if a == payer then amount else 0)
    && (forall a :: ReceivedBy(log', a) == ReceivedBy(log, a) + Due(w.split, w.st.treasury, amount, fee, a))
  }

  predicate NoTransfers(log: seq<Effect>) { forall k :: 0 <= k < |log| ==> !log[k].Transfer? }

  lemma {:induction false} NoTransfersNoAccounts(log: seq<Effect>, a: Address)
    requires NoTransfers(log)
    ensures PaidBy(log, a) == ReceivedBy(log, a) == 0
  {
    if log != [] { NoTransfersNoAccounts(log[..|log| - 1], a); }
  }

  /** A log that grew by a charge with entries around it that move no fee. */
  lemma ChargeAmong(w: World, before: seq<Effect>, after: seq<Effect>, payer: Address, amount: Amount, fee: FeeScript)
    requires WellFormed(w) && FeesFor(w.split, w.st.treasury, payer, amount, fee).Charged?
    requires NoTransfers(before) && NoTransfers(after)
    ensures var effects := FeesFor(w.split, w.st.treasury, payer, amount, fee).effects;
      PaysExactly(w, w.log, w.log + before + effects + after, payer, amount, fee)
  {
    var effects := FeesFor(w.split, w.st.treasury, payer, amount, fee).effects;
    var added := before + effects + after;
    var end := w.log + before + effects + after;
    assert end == w.log + added && end[|w.log|..] == added;
    hide FeesFor, PaidBy, ReceivedBy, Due;
    forall a
      ensures OnlyPayer(effects, payer)
      ensures PaidBy(end, a) == PaidBy(w.log, a) + if a == payer then amount else 0
      ensures ReceivedBy(end, a) == ReceivedBy(w.log, a) + Due(w.split, w.st.treasury, amount, fee, a)
    {
      ChargeAccounts(w.split, w.st.treasury, payer, amount, fee, a);
      NoTransfersNoAccounts(before, a);
      NoTransfersNoAccounts(after, a);
      AccountsConcat(w.log, before, a);
      AccountsConcat(w.log + before, effects, a);
      AccountsConcat(w.log + before + effects, after, a);
    }
    ChargeAccounts(w.split, w.st.treasury, payer, amount, fee, payer);
  }

  lemma {:induction false} RecordingIsQuiet(w: World, creator: Address, items: seq<Item>, n: nat)
    returns (added: seq<Effect>)
    requires n <= |items| && RecordAll(w, creator, items, n).Recorded?
    ensures NoTransfers(added) && RecordAll(w, creator, items, n).world.log == w.log + added
  {
    hide Appended, InfoFor, RecordError;
    added := [];
    if n > 0 {
      var earlier := RecordingIsQuiet(w, creator, items, n - 1);
      var p := items[n - 1].params;
      var one := [Deploy(Derived(creator, p.salt))] +
        if p.initialSupply > 0 then [Mint(Derived(creator, p.salt), creator, p.initialSupply)] else [];
      added := earlier + one;
    }
  }

  lemma CreatePaysExactly(w: World, creator: Address, item: Item, pay: I128, fee: FeeScript)
    requires WellFormed(w) && CreateTokenStep(w, creator, item, pay, fee).reply.Done?
    ensures PaysExactly(w, w.log, CreateTokenStep(w, creator, item, pay, fee).world.log, creator, w.st.baseFee, fee)
  {
    hide FeesFor, CreateTokenStep, RecordError, ValidLists, ParamsError, PaysExactly, Appended, InfoFor;
    CreateDone(w, creator, item, pay, fee);
    var p, token := item.params, Derived(creator, item.params.salt);
    var after := [Deploy(token)] + if p.initialSupply > 0 then [Mint(token, creator, p.initialSupply)] else [];
    ChargeAmong(w, [], after, creator, w.st.baseFee, fee);
    var effects := FeesFor(w.split, w.st.treasury, creator, w.st.baseFee, fee).effects;
    assert w.log + [] + effects + after == w.log + effects + after;
    assert RegisterToken(w.(log := w.log + effects), creator, p).log == w.log + effects + after;
  }

  lemma BatchPaysExactly(w: World, creator: Address, items: seq<Item>, pay: I128, fee: FeeScript)
    requires WellFormed(w) && CreateBatchStep(w, creator, items, pay, fee).reply.Done?
    ensures w.st.baseFee * |items| >= 0
    ensures PaysExactly(w, w.log, CreateBatchStep(w, creator, items, pay, fee).world.log, creator,
                        w.st.baseFee * |items|, fee)
  {
    hide FeesFor, RecordAll, CreateBatchStep, ValidLists, BatchParamsError, PaysExactly;
    BatchDone(w, creator, items, pay, fee);
    assert BatchFee(w, |items|) == w.st.baseFee * |items|;
    var before := RecordingIsQuiet(w, creator, items, |items|);
    ChargeAmong(w, before, [], creator, BatchFee(w, |items|), fee);
    var effects := FeesFor(w.split, w.st.treasury, creator, BatchFee(w, |items|), fee).effects;
    assert w.log + before + effects + [] == w.log + before + effects;
  }

  lemma MetadataPaysExactly(w: World, t: Address, admin: Address, uri: string, pay: I128, fee: FeeScript)
    requires WellFormed(w) && SetMetadataStep(w, t, admin, uri, pay, fee).reply.Done?
    ensures PaysExactly(w, w.log, SetMetadataStep(w, t, admin, uri, pay, fee).world.log, admin, w.st.metadataFee, fee)
  {
    hide FeesFor, SetMetadataStep, MetadataPrepared, ValidLists, VersionOf, PaysExactly;
    MetadataDone(w, t, admin, uri, pay, fee);
    ChargeAmong(w, [], [], admin, w.st.metadataFee, fee);
    var effects := FeesFor(w.split, w.st.treasury, admin, w.st.metadataFee, fee).effects;
    assert w.log + [] + effects + [] == w.log + effects;
  }

  lemma MintPaysExactly(w: World, t: Address, admin: Address, to: Address, amount: I128, pay: I128, fee: FeeScript,
                        mint: Callee)
    requires WellFormed(w) && MintStep(w, t, admin, to, amount, pay, fee, mint).reply.Done?
    ensures PaysExactly(w, w.log, MintStep(w, t, admin, to, amount, pay, fee, mint).world.log, admin, w.st.baseFee, fee)
  {
    hide FeesFor, MintStep, MintPrepared, ValidLists, Registered, MintRefusal, PaysExactly;
    MintDone(w, t, admin, to, amount, pay, fee, mint);
    ChargeAmong(w, [], [Mint(t, to, amount)], admin, w.st.baseFee, fee);
    var effects := FeesFor(w.split, w.st.treasury, admin, w.st.baseFee, fee).effects;
    assert w.log + [] + effects + [Mint(t, to, amount)] == w.log + effects + [Mint(t, to, amount)];
  }

  /**
   * Every fee-paying call that succeeds takes its fee from its caller alone and
   * hands it to the split's recipients and the treasury as due. The fee is the
   * base fee for a creation or a mint, n times that for a batch of n, and the
   * metadata fee for a metadata call.
   */
  lemma StepPaysExactly(w: World, c: Call)
    requires WellFormed(w)
    ensures Step(w, c).reply.Done? ==>
      match c
      case CreateToken(creator, _, _, fee) => PaysExactly(w, w.log, Step(w, c).world.log, creator, w.st.baseFee, fee)
      case CreateTokensBatch(creator, items, _, fee) =>
        w.st.baseFee * |items| >= 0 &&
        PaysExactly(w, w.log, Step(w, c).world.log, creator, w.st.baseFee * |items|, fee)
      case SetMetadata(_, admin, _, _, fee) => PaysExactly(w, w.log, Step(w, c).world.log, admin, w.st.metadataFee, fee)
      case MintTokens(_, admin, _, _, _, fee, _) =>
        PaysExactly(w, w.log, Step(w, c).world.log, admin, w.st.baseFee, fee)
      case _ => true
  {
    if Step(w, c).reply.Fail? { return; }
    hide CreateTokenStep, CreateBatchStep, SetMetadataStep, MintStep, WellFormed, PaysExactly;
    match c
    case CreateToken(creator, item, pay, fee) => CreatePaysExactly(w, creator, item, pay, fee);
    case CreateTokensBatch(creator, items, pay, fee) => BatchPaysExactly(w, creator, items, pay, fee);
    case SetMetadata(t, admin, uri, pay, fee) => MetadataPaysExactly(w, t, admin, uri, pay, fee);
    case MintTokens(t, admin, to, amount, pay, fee, mint) =>
      MintPaysExactly(w, t, admin, to, amount, pay, fee, mint);
    case _ =>
  }
}
