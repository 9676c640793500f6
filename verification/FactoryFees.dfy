/**
 * Fee conservation: for every pattern of recipient failures, a call that
 * succeeds has moved exactly the required fee, the treasury standing in for
 * exactly the recipients that failed.
 */
module FactoryFees {
  import opened Common
  import FeeSplit
  import opened CreatorPages
  import opened FactoryModel
  import opened FactorySteps

  /** Total of the transfers in a stretch of the log. */
  function Moved(log: seq<Effect>): int {
    if log == [] then 0
    else
      var last := log[|log| - 1];
      Moved(log[..|log| - 1]) + if last.Transfer? then last.amount else 0
  }

  /** Total of the redirected shares in a stretch of the log. */
  function Redirected(log: seq<Effect>): int {
    if log == [] then 0
    else
      var last := log[|log| - 1];
      Redirected(log[..|log| - 1]) + if last.FeeRedirected? then last.share else 0
  }

  lemma {:induction false} TotalsConcat(a: seq<Effect>, b: seq<Effect>)
    ensures Moved(a + b) == Moved(a) + Moved(b)
    ensures Redirected(a + b) == Redirected(a) + Redirected(b)
  {
    if b == [] {
      assert a + b == a;
    } else {
      TotalsConcat(a, b[..|b| - 1]);
      assert (a + b)[..|a + b| - 1] == a + b[..|b| - 1];
    }
  }

  lemma OneTotals(e: Effect)
    ensures Moved([e]) == if e.Transfer? then e.amount else 0
    ensures Redirected([e]) == if e.FeeRedirected? then e.share else 0
  {
    assert [e][..0] == [];
  }

  /** What recipient `i`'s turn contributes to the log. */
  function Payout(split: seq<Share>, shares: seq<int>, payer: Address, fee: FeeScript, i: nat): seq<Effect>
    requires i < |split| == |shares|
  {
    if shares[i] <= 0 then []
    else if Paid(fee, i) then [Transfer(payer, split[i].recipient, shares[i])]
    else [FeeRedirected(split[i].recipient, shares[i])]
  }

  lemma TurnTotals(split: seq<Share>, shares: seq<int>, payer: Address, fee: FeeScript, i: nat)
    requires i < |split| == |shares| && shares[i] >= 0
    ensures var turn := Payout(split, shares, payer, fee, i);
      && Moved(turn) + Redirected(turn) == shares[i]
      && Redirected(turn) == if Paid(fee, i) then 0 else shares[i]
  {
    var turn := Payout(split, shares, payer, fee, i);
    if turn != [] { OneTotals(turn[0]); }
  }

  lemma NoTotals()
    ensures Moved([]) == 0 && Redirected([]) == 0
  {
  }

  /** The recipients' turns account for every share, delivered or redirected. */
  lemma {:induction false} PayoutTotals(split: seq<Share>, shares: seq<int>, payer: Address, fee: FeeScript, k: nat)
    requires k <= |split| == |shares| && forall i :: 0 <= i < |shares| ==> shares[i] >= 0
    ensures var log := Payouts(split, shares, payer, fee, k);
      && Moved(log) + Undelivered(shares, fee, k) == Sum(shares[..k])
      && Redirected(log) == Undelivered(shares, fee, k)
  {
    hide Moved, Redirected;
    if k > 0 {
      PayoutTotals(split, shares, payer, fee, k - 1);
      assert shares[..k][..k - 1] == shares[..k - 1];
      TotalsConcat(Payouts(split, shares, payer, fee, k - 1), Payout(split, shares, payer, fee, k - 1));
      TurnTotals(split, shares, payer, fee, k - 1);
    } else {
      NoTotals();
    }
  }

  /** Redirect notices name exactly the recipients owed something whose transfer failed. */
  lemma {:induction false} NoticesNameTheFailed(split: seq<Share>, shares: seq<int>, payer: Address, fee: FeeScript,
                                                k: nat, a: Address, s: int)
    requires k <= |split| == |shares|
    ensures FeeRedirected(a, s) in Payouts(split, shares, payer, fee, k) <==>
      exists i :: 0 <= i < k && shares[i] > 0 && !Paid(fee, i) && split[i].recipient == a && shares[i] == s
  {
    if k > 0 {
      NoticesNameTheFailed(split, shares, payer, fee, k - 1, a, s);
      assert Payouts(split, shares, payer, fee, k) ==
        Payouts(split, shares, payer, fee, k - 1) + Payout(split, shares, payer, fee, k - 1);
    }
  }

  /** A charge that goes through moves exactly the amount. */
  lemma ChargeMovesExactly(split: seq<Share>, treasury: Address, payer: Address, amount: Amount, fee: FeeScript)
    requires split == [] || FeeSplit.ValidWeights(Weights(split))
    requires FeesFor(split, treasury, payer, amount, fee).Charged?
    ensures Moved(FeesFor(split, treasury, payer, amount, fee).effects) == amount
  {
    if split == [] {
      OneTotals(Transfer(payer, treasury, amount));
    } else {
      var w := Weights(split);
      var shares := FeeSplit.Shares(amount, w);
      forall i | 0 <= i < |shares| ensures shares[i] >= 0 { FeeSplit.SharesFloorOrCeiling(amount, w, i); }
      FeeSplit.SharesSum(amount, w);
      hide FeeSplit.Shares;
      PayoutTotals(split, shares, payer, fee, |split|);
      assert shares[..|split|] == shares;
      NonNegativeUndelivered(shares, fee, |split|);
      var paid, rest := Payouts(split, shares, payer, fee, |split|), Undelivered(shares, fee, |split|);
      if rest > 0 {
        TotalsConcat(paid, [Transfer(payer, treasury, rest)]);
        OneTotals(Transfer(payer, treasury, rest));
      }
    }
  }

  lemma {:induction false} NonNegativeUndelivered(shares: seq<int>, fee: FeeScript, k: nat)
    requires k <= |shares|
    ensures Undelivered(shares, fee, k) >= 0
  {
    if k > 0 { NonNegativeUndelivered(shares, fee, k - 1); }
  }

  /**
   * With a split, a charge that goes through pays each recipient its share or
   * redirects it, and then pays the treasury exactly what was redirected.
   */
  lemma TreasuryStandsInForTheFailed(split: seq<Share>, treasury: Address, payer: Address, amount: Amount,
                                     fee: FeeScript)
    requires split != [] && FeeSplit.ValidWeights(Weights(split))
    requires FeesFor(split, treasury, payer, amount, fee).Charged?
    ensures
      var shares := FeeSplit.Shares(amount, Weights(split));
      var paid := Payouts(split, shares, payer, fee, |split|);
      && FeesFor(split, treasury, payer, amount, fee).effects ==
           paid + (if Redirected(paid) > 0 then [Transfer(payer, treasury, Redirected(paid))] else [])
      && Sum(shares) == amount
      && (forall a, s :: FeeRedirected(a, s) in paid <==>
            exists i :: 0 <= i < |split| && shares[i] > 0 && !Paid(fee, i) && split[i].recipient == a && shares[i] == s)
  {
    var w := Weights(split);
    var shares := FeeSplit.Shares(amount, w);
    var paid := Payouts(split, shares, payer, fee, |split|);
    forall i | 0 <= i < |shares| ensures shares[i] >= 0 { FeeSplit.SharesFloorOrCeiling(amount, w, i); }
    FeeSplit.SharesSum(amount, w);
    PayoutTotals(split, shares, payer, fee, |split|);
    forall a, s
      ensures FeeRedirected(a, s) in paid <==>
        exists i :: 0 <= i < |split| && shares[i] > 0 && !Paid(fee, i) && split[i].recipient == a && shares[i] == s
    {
      NoticesNameTheFailed(split, shares, payer, fee, |split|, a, s);
    }
  }

  // ---- Call by call ----

  /** The fee an entrypoint requires; `feePayment` is only the caller's upper bound on it. */
  function RequiredFee(w: World, c: Call): int {
    match c
    case CreateToken(_, _, _, _) => w.st.baseFee
    case CreateTokensBatch(_, items, _, _) => BatchFee(w, |items|)
    case SetMetadata(_, _, _, _, _) => w.st.metadataFee
    case MintTokens(_, _, _, _, _, _, _) => w.st.baseFee
    case _ => 0
  }

  lemma {:induction false} RecordingMovesNothing(w: World, creator: Address, items: seq<Item>, n: nat)
    requires n <= |items| && RecordAll(w, creator, items, n).Recorded?
    ensures var w1 := RecordAll(w, creator, items, n).world;
      w.log <= w1.log && Moved(w1.log[|w.log|..]) == 0 && w1.st.treasury == w.st.treasury && w1.split == w.split
  {
    hide Appended, InfoFor, RecordError;
    if n > 0 {
      RecordingMovesNothing(w, creator, items, n - 1);
      var w0, p := RecordAll(w, creator, items, n - 1).world, items[n - 1].params;
      RegisterMovesNothing(w0, creator, p);
      var w1 := RegisterToken(w0, creator, p);
      assert w1.log[|w.log|..] == w0.log[|w.log|..] + w1.log[|w0.log|..];
      TotalsConcat(w0.log[|w.log|..], w1.log[|w0.log|..]);
    }
  }

  lemma RegisterMovesNothing(w: World, creator: Address, p: TokenParams)
    ensures var w1 := RegisterToken(w, creator, p);
      w.log <= w1.log && Moved(w1.log[|w.log|..]) == 0
  {
    hide Appended, InfoFor;
    var token := Derived(creator, p.salt);
    var tail := if p.initialSupply > 0 then [Mint(token, creator, p.initialSupply)] else [];
    assert RegisterToken(w, creator, p).log[|w.log|..] == [Deploy(token)] + tail;
    TotalsConcat([Deploy(token)], tail);
    OneTotals(Deploy(token));
    if tail != [] { OneTotals(tail[0]); }
  }

  /** A charge followed by a stretch that moves nothing. */
  lemma GrewAfterCharge(start: seq<Effect>, charge: seq<Effect>, end: seq<Effect>)
    requires start + charge <= end && Moved(end[|start + charge|..]) == 0
    ensures start <= end && Moved(end[|start|..]) == Moved(charge)
  {
    hide Moved;
    assert end[|start|..] == charge + end[|start + charge|..];
    TotalsConcat(charge, end[|start + charge|..]);
  }

  /** A stretch that moves nothing followed by a charge. */
  lemma GrewBeforeCharge(start: seq<Effect>, middle: seq<Effect>, charge: seq<Effect>)
    requires start <= middle && Moved(middle[|start|..]) == 0
    ensures start <= middle + charge && Moved((middle + charge)[|start|..]) == Moved(charge)
  {
    hide Moved;
    assert (middle + charge)[|start|..] == middle[|start|..] + charge;
    TotalsConcat(middle[|start|..], charge);
  }

  lemma CreateCharges(w: World, creator: Address, item: Item, pay: I128, fee: FeeScript)
    requires WellFormed(w) && CreateTokenStep(w, creator, item, pay, fee).reply.Done?
    ensures var w1 := CreateTokenStep(w, creator, item, pay, fee).world;
      w.log <= w1.log && Moved(w1.log[|w.log|..]) == w.st.baseFee <= pay
  {
    NoTotals();
    CreatePays(w, creator, item, pay, fee);
    hide FeesFor, RegisterToken, CreateTokenStep, RecordError, ValidLists, ParamsError, Moved;
    CreateDone(w, creator, item, pay, fee);
    ChargeMovesExactly(w.split, w.st.treasury, creator, w.st.baseFee, fee);
    var effects := FeesFor(w.split, w.st.treasury, creator, w.st.baseFee, fee).effects;
    var w0 := w.(log := w.log + effects);
    RegisterMovesNothing(w0, creator, item.params);
    GrewAfterCharge(w.log, effects, RegisterToken(w0, creator, item.params).log);
  }

  lemma CreatePays(w: World, creator: Address, item: Item, pay: I128, fee: FeeScript)
    requires CreateTokenStep(w, creator, item, pay, fee).reply.Done?
    ensures w.st.baseFee <= pay
  {
    hide FeesFor, RegisterToken, RecordError, ParamsError, WhitelistError;
  }

  lemma BatchCharges(w: World, creator: Address, items: seq<Item>, pay: I128, fee: FeeScript)
    requires WellFormed(w) && CreateBatchStep(w, creator, items, pay, fee).reply.Done?
    ensures var w1 := CreateBatchStep(w, creator, items, pay, fee).world;
      w.log <= w1.log && Moved(w1.log[|w.log|..]) == BatchFee(w, |items|) <= pay
  {
    NoTotals();
    BatchPays(w, creator, items, pay, fee);
    hide FeesFor, RecordAll, CreateBatchStep, ValidLists, BatchParamsError, BatchFee, Moved;
    BatchDone(w, creator, items, pay, fee);
    ChargeMovesExactly(w.split, w.st.treasury, creator, BatchFee(w, |items|), fee);
    var effects := FeesFor(w.split, w.st.treasury, creator, BatchFee(w, |items|), fee).effects;
    RecordingMovesNothing(w, creator, items, |items|);
    GrewBeforeCharge(w.log, RecordAll(w, creator, items, |items|).world.log, effects);
  }

  lemma BatchPays(w: World, creator: Address, items: seq<Item>, pay: I128, fee: FeeScript)
    requires CreateBatchStep(w, creator, items, pay, fee).reply.Done?
    ensures BatchFee(w, |items|) <= pay
  {
    hide FeesFor, RecordAll, BatchParamsError, WhitelistError, BatchFee;
  }

  lemma MetadataCharges(w: World, t: Address, admin: Address, uri: string, pay: I128, fee: FeeScript)
    requires WellFormed(w) && SetMetadataStep(w, t, admin, uri, pay, fee).reply.Done?
    ensures var w1 := SetMetadataStep(w, t, admin, uri, pay, fee).world;
      w.log <= w1.log && Moved(w1.log[|w.log|..]) == w.st.metadataFee <= pay
  {
    NoTotals();
    MetadataPays(w, t, admin, uri, pay, fee);
    hide FeesFor, SetMetadataStep, MetadataPrepared, ValidLists, VersionOf, Moved;
    MetadataDone(w, t, admin, uri, pay, fee);
    ChargeMovesExactly(w.split, w.st.treasury, admin, w.st.metadataFee, fee);
    var effects := FeesFor(w.split, w.st.treasury, admin, w.st.metadataFee, fee).effects;
    GrewBeforeCharge(w.log, w.log, effects);
  }

  lemma MetadataPays(w: World, t: Address, admin: Address, uri: string, pay: I128, fee: FeeScript)
    requires SetMetadataStep(w, t, admin, uri, pay, fee).reply.Done?
    ensures w.st.metadataFee <= pay
  {
    hide FeesFor, MetadataPrepared, VersionOf, OwnerOf, Frozen;
  }

  lemma MintCharges(w: World, t: Address, admin: Address, to: Address, amount: I128, pay: I128, fee: FeeScript,
                    mint: Callee)
    requires WellFormed(w) && MintStep(w, t, admin, to, amount, pay, fee, mint).reply.Done?
    ensures var w1 := MintStep(w, t, admin, to, amount, pay, fee, mint).world;
      w.log <= w1.log && Moved(w1.log[|w.log|..]) == w.st.baseFee <= pay
  {
    NoTotals();
    MintPays(w, t, admin, amount, pay);
    hide FeesFor, MintStep, MintPrepared, ValidLists, Registered, MintRefusal, Moved;
    MintDone(w, t, admin, to, amount, pay, fee, mint);
    ChargeMovesExactly(w.split, w.st.treasury, admin, w.st.baseFee, fee);
    var effects := FeesFor(w.split, w.st.treasury, admin, w.st.baseFee, fee).effects;
    OneTotals(Mint(t, to, amount));
    GrewAfterCharge(w.log, effects, w.log + effects + [Mint(t, to, amount)]);
  }

  lemma MintPays(w: World, t: Address, admin: Address, amount: I128, pay: I128)
    ensures MintRefusal(w, t, admin, amount, pay).None? ==> w.st.baseFee <= pay
  {
    hide Registered, OwnerOf, SupplyOf;
  }

  /**
   * Every fee-paying call that succeeds moves exactly its required fee, whatever the caller offered and
   * whoever failed.
   */
  lemma StepMovesRequiredFee(w: World, c: Call)
    requires WellFormed(w) && !c.Burn? && !c.SetBurnEnabled?
    ensures var w1 := Step(w, c).world;
      Step(w, c).reply.Done? ==>
        w.log <= w1.log && Moved(w1.log[|w.log|..]) == RequiredFee(w, c) <= c.feePayment
  {
    if Step(w, c).reply.Fail? { return; }
    hide CreateTokenStep, CreateBatchStep, SetMetadataStep, MintStep, WellFormed, BatchFee;
    match c
    case CreateToken(creator, item, pay, fee) => CreateCharges(w, creator, item, pay, fee);
    case CreateTokensBatch(creator, items, pay, fee) => BatchCharges(w, creator, items, pay, fee);
    case SetMetadata(t, admin, uri, pay, fee) => MetadataCharges(w, t, admin, uri, pay, fee);
    case MintTokens(t, admin, to, amount, pay, fee, mint) => MintCharges(w, t, admin, to, amount, pay, fee, mint);
  }
}
