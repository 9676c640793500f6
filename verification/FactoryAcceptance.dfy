/**
 * Exactly when each guarded call is accepted, in terms of what its caller can
 * look up beforehand, and what each error code says about a refused one.
 */
module FactoryAcceptance {
  import opened Common
  import FeeSplit
  import opened CreatorPages
  import opened FactoryModel
  import opened FactoryRegistry
  import opened FactorySteps
  import opened FactoryAccess
  import opened FactorySettings
  import opened FactoryPayments
  import opened FactoryGovernance

  // ---- What a call asks for ----

  predicate GoodParams(p: TokenParams) {
    && 1 <= |p.name| <= 32 && 1 <= |p.symbol| <= 12 && p.decimals <= 18 && p.initialSupply >= 0
    && (p.maxSupply.Some? ==> 0 < p.maxSupply.value && p.initialSupply <= p.maxSupply.value)
  }

  /**
   * The calls that set the token up succeed: deploying it, initialising it and, with an initial supply,
   * minting that.
   */
  predicate SetUpWorks(item: Item) {
    item.script.deploy.ok && item.script.init.ok && (item.params.initialSupply > 0 ==> item.script.mint.ok)
  }

  /** A fee of `amount` can be collected: it stays within `i128`, and the treasury accepts what comes its way. */
  predicate FeeDue(w: World, amount: nat, fee: FeeScript) {
    if w.split == [] then fee.treasury.ok
    else
      && (forall i :: 0 <= i < |w.split| ==> amount * w.split[i].bps <= I128_MAX)
      && (AllAccept(FeeSplit.Shares(amount, Weights(w.split)), fee, |w.split|) || fee.treasury.ok)
  }

  ghost predicate MayCreate(w: World, creator: Address) {
    w.st.whitelistEnabled ==> At(RegistryOf(w).whitelist, creator) == Some(true)
  }

  predicate FreshTokens(deployed: set<Address>, creator: Address, items: seq<Item>) {
    && (forall i :: 0 <= i < |items| ==> Derived(creator, items[i].params.salt) !in deployed)
    && (forall i, j :: 0 <= i < j < |items| ==>
          Derived(creator, items[i].params.salt) != Derived(creator, items[j].params.salt))
  }

  ghost predicate CreateDue(w: World, creator: Address, item: Item, pay: int, fee: FeeScript) {
    && !w.st.paused && !w.st.locked && GoodParams(item.params) && pay >= w.st.baseFee && MayCreate(w, creator)
    && w.st.tokenCount < 4_294_967_295 && |TokensOf(w.lists, creator)| < 4_294_967_295
    && FeeDue(w, w.st.baseFee, fee) && SetUpWorks(item) && Derived(creator, item.params.salt) !in w.deployed
  }

  ghost predicate BatchDue(w: World, creator: Address, items: seq<Item>, pay: int, fee: FeeScript) {
    var n := |items|;
    && !w.st.paused && !w.st.locked && 1 <= n <= 20
    && (forall i :: 0 <= i < n ==> GoodParams(items[i].params) && SetUpWorks(items[i]))
    && 0 <= w.st.baseFee * n <= I128_MAX && pay >= w.st.baseFee * n && MayCreate(w, creator)
    && w.st.tokenCount + n <= 4_294_967_295 && |TokensOf(w.lists, creator)| + n <= 4_294_967_295
    && FreshTokens(w.deployed, creator, items) && FeeDue(w, w.st.baseFee * n, fee)
  }

  ghost predicate MetadataDue(w: World, t: Address, admin: Address, uri: string, pay: int, fee: FeeScript) {
    var r := RegistryOf(w);
    && !w.st.paused && !w.st.locked && pay >= w.st.metadataFee
    && 8 <= |uri| <= 128 && uri[..7] == "ipfs://"
    && At(r.owner, t) == Some(admin) && At(r.frozen, t) != Some(true)
    && (t in r.version ==> r.version[t] < 5) && FeeDue(w, w.st.metadataFee, fee)
  }

  ghost predicate MintDue(w: World, t: Address, admin: Address, amount: int, pay: int, fee: FeeScript, mint: Callee) {
    var r := RegistryOf(w);
    && !w.st.paused && !w.st.locked && amount > 0 && pay >= w.st.baseFee
    && RecordOf(r, t).Some? && At(r.owner, t) == Some(admin)
    && (RecordOf(r, t).value.maxSupply.Some? ==>
          (if t in r.supply then r.supply[t] else 0) + amount <= RecordOf(r, t).value.maxSupply.value)
    && FeeDue(w, w.st.baseFee, fee) && mint.ok
  }

  ghost predicate BurnDue(w: World, c: Call)
    requires c.Burn?
  {
    var record := RecordOf(RegistryOf(w), c.token);
    0 < c.amount <= c.balance && record.Some? && record.value.burnEnabled && c.balanceCall.ok && c.burn.ok &&
      !w.st.locked
  }

  ghost predicate ToggleDue(w: World, t: Address, admin: Address) {
    !w.st.locked && At(RegistryOf(w).owner, t) == Some(admin) && RecordOf(RegistryOf(w), t).Some?
  }

  ghost predicate CallDue(w: World, c: Call) {
    match c
    case CreateToken(creator, item, pay, fee) => CreateDue(w, creator, item, pay, fee)
    case CreateTokensBatch(creator, items, pay, fee) => BatchDue(w, creator, items, pay, fee)
    case SetMetadata(t, admin, uri, pay, fee) => MetadataDue(w, t, admin, uri, pay, fee)
    case MintTokens(t, admin, _, amount, pay, fee, mint) => MintDue(w, t, admin, amount, pay, fee, mint)
    case Burn(_, _, _, _, _, _) => BurnDue(w, c)
    case SetBurnEnabled(t, admin, _) => ToggleDue(w, t, admin)
  }

  // ---- Call by call ----

  lemma ParamsIff(p: TokenParams)
    ensures ParamsError(p).None? <==> GoodParams(p)
  {
  }

  lemma FeeIff(w: World, payer: Address, amount: Amount, fee: FeeScript)
    requires WellFormed(w)
    ensures FeesFor(w.split, w.st.treasury, payer, amount, fee).Charged? <==> FeeDue(w, amount, fee)
  {
    hide FeesFor, FeeSplit.Shares, AllAccept, ValidLists, FeeSplit.ValidWeights;
    ChargedIff(w.split, w.st.treasury, payer, amount, fee);
  }

  lemma WhitelistIff(w: World, creator: Address)
    ensures WhitelistError(w, creator).None? <==> MayCreate(w, creator)
  {
    hide RegistryOf, Whitelisted;
    MarkReads(w, creator);
  }

  lemma RecordIff(w: World, creator: Address, item: Item)
    requires w.st.tokenCount < U32_MAX
    ensures RecordError(w, creator, item).None? <==>
      SetUpWorks(item) && Derived(creator, item.params.salt) !in w.deployed && |TokensOf(w.lists, creator)| < U32_MAX
  {
    hide TokensOf;
  }

  lemma CreateIff(w: World, creator: Address, item: Item, pay: I128, fee: FeeScript)
    requires WellFormed(w)
    ensures CreateTokenStep(w, creator, item, pay, fee).reply.Done? <==> CreateDue(w, creator, item, pay, fee)
  {
    hide FeesFor, FeeDue, WellFormed, RegistryOf, ParamsError, GoodParams, WhitelistError, MayCreate, RecordError,
      SetUpWorks, TokensOf, RegisterToken;
    ParamsIff(item.params);
    FeeIff(w, creator, w.st.baseFee, fee);
    WhitelistIff(w, creator);
    if w.st.tokenCount < U32_MAX && FeesFor(w.split, w.st.treasury, creator, w.st.baseFee, fee).Charged? {
      var effects := FeesFor(w.split, w.st.treasury, creator, w.st.baseFee, fee).effects;
      RecordIff(w.(log := w.log + effects), creator, item);
    }
  }

  lemma {:induction false} BatchParamsIff(items: seq<Item>, n: nat)
    requires n <= |items|
    ensures BatchParamsError(items, n).None? <==> forall i :: 0 <= i < n ==> GoodParams(items[i].params)
  {
    hide ParamsError, GoodParams;
    if n > 0 {
      BatchParamsIff(items, n - 1);
      ParamsIff(items[n - 1].params);
    }
  }

  predicate BatchRecords(w: World, creator: Address, items: seq<Item>, n: nat)
    requires n <= |items|
  {
    && (forall i :: 0 <= i < n ==> SetUpWorks(items[i]))
    && FreshTokens(w.deployed, creator, items[..n])
    && (n > 0 ==> |TokensOf(w.lists, creator)| + n <= U32_MAX)
  }

  lemma FreshExtends(deployed: set<Address>, creator: Address, items: seq<Item>, n: nat)
    requires 0 < n <= |items|
    ensures FreshTokens(deployed, creator, items[..n]) <==>
      && FreshTokens(deployed, creator, items[..n - 1])
      && Derived(creator, items[n - 1].params.salt) !in deployed
      && forall i :: 0 <= i < n - 1 ==>
           Derived(creator, items[i].params.salt) != Derived(creator, items[n - 1].params.salt)
  {
    var a, b := items[..n - 1], items[..n];
    assert b == a + [items[n - 1]];
    if FreshTokens(deployed, creator, b) {
      forall i | 0 <= i < n - 1
        ensures Derived(creator, items[i].params.salt) != Derived(creator, items[n - 1].params.salt)
      {
        assert b[i] == items[i] && b[n - 1] == items[n - 1];
      }
      forall i | 0 <= i < |a| ensures a[i] == b[i] {}
      assert Derived(creator, b[n - 1].params.salt) !in deployed;
    }
  }

  lemma RegisterLists(w: World, creator: Address, p: TokenParams)
    requires WellFormed(w)
    ensures |TokensOf(RegisterToken(w, creator, p).lists, creator)| == |TokensOf(w.lists, creator)| + 1
    ensures RegisterToken(w, creator, p).deployed == w.deployed + {Derived(creator, p.salt)}
    ensures RegisterToken(w, creator, p).st.tokenCount == w.st.tokenCount + 1
  {
    hide ValidLists, Appended, TokensOf;
    AppendedIsAppend(w.lists, creator, w.st.tokenCount + 1);
  }

  /** What the first `n` items leave behind. */
  lemma {:induction false} RecordAllLists(w: World, creator: Address, items: seq<Item>, n: nat)
    requires WellFormed(w) && n <= |items| && RecordAll(w, creator, items, n).Recorded?
    ensures var w1 := RecordAll(w, creator, items, n).world;
      && WellFormed(w1) && |TokensOf(w1.lists, creator)| == |TokensOf(w.lists, creator)| + n
      && w1.st.tokenCount == w.st.tokenCount + n
      && forall a :: a in w1.deployed <==>
           a in w.deployed || exists i :: 0 <= i < n && a == Derived(creator, items[i].params.salt)
  {
    hide RegisterToken, RecordError, WellFormed, TokensOf;
    if n > 0 {
      RecordAllLists(w, creator, items, n - 1);
      var w0 := RecordAll(w, creator, items, n - 1).world;
      RegisterKeepsWellFormed(w0, creator, items[n - 1].params);
      RegisterLists(w0, creator, items[n - 1].params);
    }
  }

  /** The batch loop records its items exactly when each can be set up at a fresh address and the list has room. */
  lemma {:induction false} RecordAllIff(w: World, creator: Address, items: seq<Item>, n: nat)
    requires WellFormed(w) && n <= |items| && w.st.tokenCount + n <= U32_MAX
    ensures RecordAll(w, creator, items, n).Recorded? <==> BatchRecords(w, creator, items, n)
  {
    hide RegisterToken, RecordError, WellFormed, TokensOf, FreshTokens, SetUpWorks;
    if n == 0 {
      assert items[..0] == [];
      NoneFresh(w.deployed, creator);
    } else {
      RecordAllIff(w, creator, items, n - 1);
      FreshExtends(w.deployed, creator, items, n);
      if RecordAll(w, creator, items, n - 1).Recorded? {
        RecordAllLists(w, creator, items, n - 1);
        var w0 := RecordAll(w, creator, items, n - 1).world;
        RecordIff(w0, creator, items[n - 1]);
        assert Derived(creator, items[n - 1].params.salt) in w0.deployed <==>
          Derived(creator, items[n - 1].params.salt) in w.deployed ||
          exists i ::
            0 <= i < n - 1 && Derived(creator, items[n - 1].params.salt) == Derived(creator, items[i].params.salt);
      }
    }
  }

  lemma NoneFresh(deployed: set<Address>, creator: Address)
    ensures FreshTokens(deployed, creator, [])
  {
  }

  lemma BatchIff(w: World, creator: Address, items: seq<Item>, pay: I128, fee: FeeScript)
    requires WellFormed(w)
    ensures CreateBatchStep(w, creator, items, pay, fee).reply.Done? <==> BatchDue(w, creator, items, pay, fee)
  {
    hide FeesFor, FeeDue, WellFormed, RegistryOf, BatchParamsError, GoodParams, WhitelistError, MayCreate, RecordAll,
      SetUpWorks, FreshTokens, TokensOf;
    BatchParamsIff(items, |items|);
    WhitelistIff(w, creator);
    assert items[..|items|] == items;
    assert BatchFee(w, |items|) == w.st.baseFee * |items|;
    if w.st.tokenCount + |items| <= U32_MAX { RecordAllIff(w, creator, items, |items|); }
    if BatchFee(w, |items|) <= I128_MAX { FeeIff(w, creator, BatchFee(w, |items|), fee); }
  }

  lemma MetadataIff(w: World, t: Address, admin: Address, uri: string, pay: I128, fee: FeeScript)
    requires WellFormed(w)
    ensures SetMetadataStep(w, t, admin, uri, pay, fee).reply.Done? <==> MetadataDue(w, t, admin, uri, pay, fee)
  {
    hide FeesFor, FeeDue, WellFormed, RegistryOf, OwnerOf, Frozen, VersionOf, MetadataPrepared;
    TokenReads(w, t);
    FeeIff(w, admin, w.st.metadataFee, fee);
  }

  lemma MintRefusalIff(w: World, t: Address, admin: Address, amount: I128, pay: I128)
    ensures var r := RegistryOf(w);
      MintRefusal(w, t, admin, amount, pay).None? <==>
      && !w.st.paused && !w.st.locked && amount > 0 && pay >= w.st.baseFee
      && RecordOf(r, t).Some? && At(r.owner, t) == Some(admin)
      && (RecordOf(r, t).value.maxSupply.Some? ==>
            (if t in r.supply then r.supply[t] else 0) + amount <= RecordOf(r, t).value.maxSupply.value)
  {
    hide RegistryOf, Registered, OwnerOf, SupplyOf, RecordOf;
    TokenReads(w, t);
  }

  lemma MintIff(w: World, t: Address, admin: Address, to: Address, amount: I128, pay: I128, fee: FeeScript,
                mint: Callee)
    requires WellFormed(w)
    ensures MintStep(w, t, admin, to, amount, pay, fee, mint).reply.Done? <==>
      MintDue(w, t, admin, amount, pay, fee, mint)
  {
    hide FeesFor, FeeDue, WellFormed, RegistryOf, MintRefusal, MintPrepared, RecordOf, Registered;
    MintRefusalIff(w, t, admin, amount, pay);
    FeeIff(w, admin, w.st.baseFee, fee);
  }

  lemma BurnIff(w: World, c: Call)
    requires c.Burn?
    ensures Step(w, c).reply.Done? <==> BurnDue(w, c)
  {
    hide RegistryOf, Registered, TouchRegistered, RecordOf, Reenter;
    TokenReads(w, c.token);
    TouchState(w, c.token);
    ReenterState(TouchRegistered(w, c.token), c.balanceCall, |c.balanceCall.reenter|);
  }

  lemma ToggleIff(w: World, t: Address, admin: Address, enabled: bool)
    ensures SetBurnEnabledStep(w, t, admin, enabled).reply.Done? <==> ToggleDue(w, t, admin)
  {
    hide RegistryOf, Registered, TouchRegistered, TouchOwner, RecordOf, OwnerOf;
    TokenReads(w, t);
  }

  /** Every guarded call is accepted exactly when what it asks for is there. */
  lemma CallAcceptedIff(w: World, c: Call)
    requires WellFormed(w)
    ensures Step(w, c).reply.Done? <==> CallDue(w, c)
  {
    hide WellFormed, CreateTokenStep, CreateBatchStep, SetMetadataStep, MintStep, SetBurnEnabledStep, BurnStep;
    hide CreateDue, BatchDue, MetadataDue, MintDue, ToggleDue, BurnDue;
    match c
    case CreateToken(creator, item, pay, fee) => CreateIff(w, creator, item, pay, fee);
    case CreateTokensBatch(creator, items, pay, fee) => BatchIff(w, creator, items, pay, fee);
    case SetMetadata(t, admin, uri, pay, fee) => MetadataIff(w, t, admin, uri, pay, fee);
    case MintTokens(t, admin, to, amount, pay, fee, mint) => MintIff(w, t, admin, to, amount, pay, fee, mint);
    case Burn(_, _, _, _, _, _) => BurnIff(w, c);
    case SetBurnEnabled(t, admin, enabled) => ToggleIff(w, t, admin, enabled);
  }

  // ---- What an error says ----

  function ItemsOf(c: Call): seq<Item> {
    match c
    case CreateToken(_, item, _, _) => [item]
    case CreateTokensBatch(_, items, _, _) => items
    case _ => []
  }

  /** The caller's authorised upper bound for the fee, and the fee itself. */
  function Offered(c: Call): int
    requires !c.Burn? && !c.SetBurnEnabled?
  {
    c.feePayment
  }

  function Required(w: World, c: Call): int {
    match c
    case CreateTokensBatch(_, items, _, _) => w.st.baseFee * |items|
    case SetMetadata(_, _, _, _, _) => w.st.metadataFee
    case _ => w.st.baseFee
  }

  predicate ActsOnToken(c: Call) { c.SetMetadata? || c.MintTokens? || c.SetBurnEnabled? || c.Burn? }

  /** Some name is not 1 to 32 long, or some symbol not 1 to 12. */
  predicate BadNames(items: seq<Item>) {
    exists i :: 0 <= i < |items| &&
      !(1 <= |items[i].params.name| <= 32 && 1 <= |items[i].params.symbol| <= 12)
  }

  predicate BadDecimals(items: seq<Item>) { exists i :: 0 <= i < |items| && items[i].params.decimals > 18 }

  predicate BadSupplies(items: seq<Item>) { exists i :: 0 <= i < |items| && BadSupply(items[i].params) }

  predicate BadSupply(p: TokenParams) {
    p.initialSupply < 0 || (p.maxSupply.Some? && (p.maxSupply.value <= 0 || p.maxSupply.value < p.initialSupply))
  }

  /** Something outside the factory failed, or an address for a new token is taken. */
  predicate OutsideFails(w: World, c: Call) {
    match c
    case CreateToken(creator, item, _, _) => !SetUpWorks(item) || Derived(creator, item.params.salt) in w.deployed
    case CreateTokensBatch(creator, items, _, _) =>
      !FreshTokens(w.deployed, creator, items) || exists i :: 0 <= i < |items| && !SetUpWorks(items[i])
    case MintTokens(_, _, _, _, _, _, mint) => !mint.ok
    case Burn(_, _, _, _, k, burn) => !k.ok || !burn.ok
    case _ => false
  }

  /** A counter, a list, a fee or a supply would leave its integer range. */
  ghost predicate Overflows(w: World, c: Call) {
    match c
    case CreateToken(creator, _, _, _) =>
      w.st.tokenCount >= 4_294_967_295 || |TokensOf(w.lists, creator)| >= 4_294_967_295 ||
        FeeOverflows(w, Required(w, c))
    case CreateTokensBatch(creator, items, _, _) =>
      || w.st.tokenCount + |items| > 4_294_967_295 || |TokensOf(w.lists, creator)| + |items| > 4_294_967_295
      || Required(w, c) > I128_MAX || FeeOverflows(w, Required(w, c))
    case SetMetadata(_, _, _, _, _) => FeeOverflows(w, Required(w, c))
    case MintTokens(t, _, _, amount, _, _, _) =>
      (t in RegistryOf(w).supply && RegistryOf(w).supply[t] + amount > I128_MAX) || FeeOverflows(w, Required(w, c))
    case _ => false
  }

  predicate FeeOverflows(w: World, amount: int) {
    exists i :: 0 <= i < |w.split| && amount * w.split[i].bps > I128_MAX
  }

  function FeeOf(c: Call): FeeScript
    requires !c.Burn? && !c.SetBurnEnabled?
  {
    c.fee
  }

  /** What each error code, reported by this call, tells about it. */
  ghost predicate Explains(w: World, c: Call, e: Error) {
    var r := RegistryOf(w);
    match e
    case ContractPaused => w.st.paused && !c.Burn? && !c.SetBurnEnabled?
    case Reentrancy => w.st.locked
    case InvalidTokenParams => BadNames(ItemsOf(c))
    case InvalidDecimals => BadDecimals(ItemsOf(c))
    case InvalidParameters =>
      BadSupplies(ItemsOf(c)) || (c.CreateTokensBatch? && c.items == []) || (c.MintTokens? && c.amount <= 0)
    case BatchSizeExceeded => |ItemsOf(c)| > 20
    case InsufficientFee => !c.Burn? && !c.SetBurnEnabled? && Offered(c) < Required(w, c)
    case NotWhitelisted => ItemsOf(c) != [] && w.st.whitelistEnabled && At(r.whitelist, c.creator) != Some(true)
    case TokenNotFound => ActsOnToken(c) && (RecordOf(r, c.token).None? || c.token !in r.owner)
    case Unauthorized =>
      || ((c.SetMetadata? || c.MintTokens? || c.SetBurnEnabled?) && At(r.owner, c.token) != Some(c.admin))
      || (c.Burn? && RecordOf(r, c.token).Some? && !RecordOf(r, c.token).value.burnEnabled)
    case InvalidMetadataUri => c.SetMetadata? && !(8 <= |c.uri| <= 128 && c.uri[..7] == "ipfs://")
    case MetadataFrozen =>
      c.SetMetadata? && (At(r.frozen, c.token) == Some(true) || (c.token in r.version && r.version[c.token] >= 5))
    case MaxSupplyExceeded =>
      c.MintTokens? && RecordOf(r, c.token).Some? && RecordOf(r, c.token).value.maxSupply.Some? &&
      (if c.token in r.supply then r.supply[c.token] else 0) + c.amount > RecordOf(r, c.token).value.maxSupply.value
    case InvalidBurnAmount => c.Burn? && c.amount <= 0
    case BurnAmountExceedsBalance => c.Burn? && c.amount > c.balance
    case TreasuryTransferFailed => !c.Burn? && !c.SetBurnEnabled? && !FeeOf(c).treasury.ok
    case ArithmeticOverflow => Overflows(w, c)
    case HostTrap => OutsideFails(w, c)
    case _ => false
  }

  lemma ParamsExplain(p: TokenParams, items: seq<Item>, i: nat)
    requires i < |items| && items[i].params == p && ParamsError(p).Some?
    ensures match ParamsError(p).value
            case InvalidTokenParams => BadNames(items)
            case InvalidDecimals => BadDecimals(items)
            case InvalidParameters => BadSupplies(items)
            case _ => false
  {
    hide BadNames, BadDecimals, BadSupplies;
    if ParamsError(p).value == InvalidTokenParams {
      BadNameAt(items, i);
    } else if ParamsError(p).value == InvalidDecimals {
      BadDecimalsAt(items, i);
    } else {
      BadSupplyAt(items, i);
    }
  }

  lemma BadNameAt(items: seq<Item>, i: nat)
    requires i < |items| && !(1 <= |items[i].params.name| <= 32 && 1 <= |items[i].params.symbol| <= 12)
    ensures BadNames(items)
  {
  }

  lemma BadDecimalsAt(items: seq<Item>, i: nat)
    requires i < |items| && items[i].params.decimals > 18
    ensures BadDecimals(items)
  {
  }

  lemma BadSupplyAt(items: seq<Item>, i: nat)
    requires i < |items| && BadSupply(items[i].params)
    ensures BadSupplies(items)
  {
  }

  lemma {:induction false} BatchParamsExplain(items: seq<Item>, n: nat)
    requires n <= |items| && BatchParamsError(items, n).Some?
    ensures match BatchParamsError(items, n).value
            case InvalidTokenParams => BadNames(items)
            case InvalidDecimals => BadDecimals(items)
            case InvalidParameters => BadSupplies(items)
            case _ => false
  {
    hide ParamsError, BadNames, BadDecimals, BadSupplies;
    if BatchParamsError(items, n - 1).Some? {
      BatchParamsExplain(items, n - 1);
    } else {
      ParamsExplain(items[n - 1].params, items, n - 1);
    }
  }

  lemma FeeExplains(w: World, payer: Address, amount: Amount, fee: FeeScript)
    requires FeesFor(w.split, w.st.treasury, payer, amount, fee).NotCharged?
    ensures match FeesFor(w.split, w.st.treasury, payer, amount, fee).error
            case TreasuryTransferFailed => !fee.treasury.ok
            case ArithmeticOverflow => FeeOverflows(w, amount)
            case _ => false
  {
    hide FeeSplit.Shares, FeeSplit.Fits, Payouts, Undelivered;
    if !FeeSplit.Fits(amount, Weights(w.split)) {
      FitsIff(amount, Weights(w.split));
      assert forall i :: 0 <= i < |w.split| ==> Weights(w.split)[i] == w.split[i].bps;
    }
  }

  lemma CreateExplains(w: World, creator: Address, item: Item, pay: I128, fee: FeeScript)
    requires CreateTokenStep(w, creator, item, pay, fee).reply.Fail?
    ensures Explains(w, CreateToken(creator, item, pay, fee), CreateTokenStep(w, creator, item, pay, fee).reply.error)
  {
    hide FeesFor, RegistryOf, ParamsError, WhitelistError, TokensOf, RegisterToken, FeeOverflows, BadNames,
      BadDecimals, BadSupplies, MayCreate;
    WhitelistIff(w, creator);
    WhitelistGate(w, creator);
    if ParamsError(item.params).Some? { ParamsExplain(item.params, [item], 0); }
    if FeesFor(w.split, w.st.treasury, creator, w.st.baseFee, fee).NotCharged? {
      FeeExplains(w, creator, w.st.baseFee, fee);
    }
  }

  lemma WhitelistGate(w: World, creator: Address)
    ensures !MayCreate(w, creator) ==> w.st.whitelistEnabled && At(RegistryOf(w).whitelist, creator) != Some(true)
    ensures WhitelistError(w, creator).Some? ==> WhitelistError(w, creator) == Some(NotWhitelisted)
  {
  }

  lemma {:induction false} RecordingExplains(w: World, creator: Address, items: seq<Item>, n: nat)
    requires WellFormed(w) && n <= |items| && w.st.tokenCount + |items| <= U32_MAX
    requires RecordAll(w, creator, items, n).NotRecorded?
    ensures match RecordAll(w, creator, items, n).error
            case HostTrap => !FreshTokens(w.deployed, creator, items) || exists i :: 0 <= i < n && !SetUpWorks(items[i])
            case ArithmeticOverflow => |TokensOf(w.lists, creator)| + |items| > U32_MAX
            case _ => false
  {
    hide RegisterToken, WellFormed, TokensOf, FreshTokens;
    if RecordAll(w, creator, items, n - 1).NotRecorded? {
      RecordingExplains(w, creator, items, n - 1);
    } else {
      RecordAllLists(w, creator, items, n - 1);
      var w0 := RecordAll(w, creator, items, n - 1).world;
      if Derived(creator, items[n - 1].params.salt) in w0.deployed {
        TakenIsNotFresh(w.deployed, creator, items, n - 1);
      }
    }
  }

  lemma TakenIsNotFresh(deployed: set<Address>, creator: Address, items: seq<Item>, n: nat)
    requires n < |items|
    requires
      || Derived(creator, items[n].params.salt) in deployed
      || exists i :: 0 <= i < n && Derived(creator, items[n].params.salt) == Derived(creator, items[i].params.salt)
    ensures !FreshTokens(deployed, creator, items)
  {
  }

  lemma BatchExplains(w: World, creator: Address, items: seq<Item>, pay: I128, fee: FeeScript)
    requires WellFormed(w) && CreateBatchStep(w, creator, items, pay, fee).reply.Fail?
    ensures Explains(w, CreateTokensBatch(creator, items, pay, fee),
                     CreateBatchStep(w, creator, items, pay, fee).reply.error)
  {
    hide FeesFor, RegistryOf, BatchParamsError, WhitelistError, TokensOf, RecordAll, FeeOverflows, BadNames,
      BadDecimals, BadSupplies, MayCreate, FreshTokens, WellFormed;
    WhitelistIff(w, creator);
    WhitelistGate(w, creator);
    assert BatchFee(w, |items|) == w.st.baseFee * |items|;
    if BatchParamsError(items, |items|).Some? { BatchParamsExplain(items, |items|); }
    if CreateBatchRefusal(w, creator, items, pay).None? {
      if RecordAll(w, creator, items, |items|).NotRecorded? {
        RecordingExplains(w, creator, items, |items|);
      } else {
        FeeExplains(w, creator, BatchFee(w, |items|), fee);
      }
    }
  }

  lemma MetadataExplains(w: World, t: Address, admin: Address, uri: string, pay: I128, fee: FeeScript)
    requires SetMetadataStep(w, t, admin, uri, pay, fee).reply.Fail?
    ensures Explains(w, SetMetadata(t, admin, uri, pay, fee), SetMetadataStep(w, t, admin, uri, pay, fee).reply.error)
  {
    hide FeesFor, RegistryOf, OwnerOf, Frozen, VersionOf, MetadataPrepared, FeeOverflows, RecordOf;
    TokenReads(w, t);
    if FeesFor(w.split, w.st.treasury, admin, w.st.metadataFee, fee).NotCharged? {
      FeeExplains(w, admin, w.st.metadataFee, fee);
    }
  }

  lemma MintExplains(w: World, t: Address, admin: Address, to: Address, amount: I128, pay: I128, fee: FeeScript,
                     mint: Callee)
    requires MintStep(w, t, admin, to, amount, pay, fee, mint).reply.Fail?
    ensures Explains(w, MintTokens(t, admin, to, amount, pay, fee, mint),
                     MintStep(w, t, admin, to, amount, pay, fee, mint).reply.error)
  {
    hide FeesFor, RegistryOf, Registered, OwnerOf, SupplyOf, MintPrepared, FeeOverflows, RecordOf;
    TokenReads(w, t);
    if FeesFor(w.split, w.st.treasury, admin, w.st.baseFee, fee).NotCharged? {
      FeeExplains(w, admin, w.st.baseFee, fee);
    }
  }

  lemma BurnExplains(w: World, c: Call)
    requires c.Burn? && Step(w, c).reply.Fail?
    ensures Explains(w, c, Step(w, c).reply.error)
  {
    hide RegistryOf, Registered, TouchRegistered, RecordOf, Reenter;
    TokenReads(w, c.token);
    TouchState(w, c.token);
    ReenterState(TouchRegistered(w, c.token), c.balanceCall, |c.balanceCall.reenter|);
  }

  lemma ToggleExplains(w: World, t: Address, admin: Address, enabled: bool)
    requires SetBurnEnabledStep(w, t, admin, enabled).reply.Fail?
    ensures Explains(w, SetBurnEnabled(t, admin, enabled), SetBurnEnabledStep(w, t, admin, enabled).reply.error)
  {
    hide RegistryOf, Registered, TouchRegistered, TouchOwner, RecordOf, OwnerOf;
    TokenReads(w, t);
  }

  /** A refused call reports an error that is true of it, and only errors its entrypoint documents. */
  lemma RefusalTellsWhy(w: World, c: Call)
    requires WellFormed(w) && Step(w, c).reply.Fail?
    ensures Explains(w, c, Step(w, c).reply.error)
  {
    hide WellFormed, CreateTokenStep, CreateBatchStep, SetMetadataStep, MintStep, SetBurnEnabledStep, BurnStep,
      Explains;
    match c
    case CreateToken(creator, item, pay, fee) => CreateExplains(w, creator, item, pay, fee);
    case CreateTokensBatch(creator, items, pay, fee) => BatchExplains(w, creator, items, pay, fee);
    case SetMetadata(t, admin, uri, pay, fee) => MetadataExplains(w, t, admin, uri, pay, fee);
    case MintTokens(t, admin, to, amount, pay, fee, mint) => MintExplains(w, t, admin, to, amount, pay, fee, mint);
    case Burn(_, _, _, _, _, _) => BurnExplains(w, c);
    case SetBurnEnabled(t, admin, enabled) => ToggleExplains(w, t, admin, enabled);
  }
}
