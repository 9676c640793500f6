/**
 * The token factory as a state machine over values: what one entrypoint call
 * does to everything the contract stores, as one atomic step. `Factory.dfy`
 * proves the entrypoints, with their lock and their external calls, equal to
 * these steps.
 */
module FactoryModel {
  import opened Common
  import FeeSplit
  import opened CreatorPages

  const ADMIN_PROPOSAL_TTL_LEDGERS: nat := 17_280
  const UPGRADE_TIMELOCK_LEDGERS: nat := 17_280
  const MAX_BATCH_SIZE: nat := 20
  const METADATA_URI_MAX_LEN: nat := 128
  const METADATA_MAX_UPDATES: nat := 5
  const MIGRATE_TOKEN_INFO_CHUNK: nat := 20
  const CURRENT_SCHEMA_VERSION: nat := 5

  // ---- Stored data ----

  /** The contract's typed errors, and a host trap (which reverts like an error). */
  datatype Error =
    | InsufficientFee | Unauthorized | InvalidParameters | TokenNotFound | BurnAmountExceedsBalance
    | InvalidBurnAmount | ContractPaused | Reentrancy | ArithmeticOverflow | InvalidTokenParams
    | InvalidDecimals | MaxSupplyExceeded | InvalidFeeSplit | TooManyFeeSplitRecipients
    | AlreadyBackfilled | NotWhitelisted | InvalidMetadataUri | ZeroFeeSplitEntry | MetadataFrozen
    | TreasuryTransferFailed | BatchSizeExceeded | NoPendingProposal | ProposalExpired
    | UpgradeNotReady | NoUpgradePending | UpgradeHashMismatch | HostTrap

  datatype TokenInfo = TokenInfo(
    name: string, symbol: string, decimals: nat, creator: Address, burnEnabled: bool, maxSupply: Option<I128>)

  datatype FactoryState = FactoryState(
    admin: Address, paused: bool, locked: bool, treasury: Address, feeToken: Address,
    baseFee: Amount, metadataFee: Amount, tokenWasmHash: nat, tokenCount: nat, schemaVersion: nat,
    whitelistEnabled: bool, pendingAdmin: Option<Address>, pendingAdminExpiry: Option<nat>,
    pendingUpgradeHash: Option<nat>, pendingUpgradeReadyAt: Option<nat>)

  /** One storage tier's address- and index-keyed entries. */
  datatype Tier = Tier(
    tokenInfo: map<nat, TokenInfo>, tokenIndex: map<Address, nat>, tokenAddress: map<nat, Address>,
    owner: map<Address, Address>, supply: map<Address, int>, metadata: map<Address, string>,
    metadataVersion: map<Address, nat>, metadataFrozen: map<Address, bool>,
    backfilled: map<Address, bool>, whitelist: map<Address, bool>)

  datatype Share = Share(recipient: Address, bps: nat)

  /** What a step did outside the factory's own storage, in order. */
  datatype Effect =
    | Transfer(payer: Address, to: Address, amount: int)
    | FeeRedirected(recipient: Address, share: int)
    | Deploy(token: Address)
    | Mint(token: Address, to: Address, amount: int)
    | Burned(token: Address, from: Address, amount: int)

  /**
   * Everything an entrypoint can read or write: the state record, both storage
   * tiers, the creator lists, the fee split (`[]` when the key is absent), the
   * `sv` and `mig3cur` markers, the existing contracts, the effects so far and
   * the ledger number.
   */
  datatype World = World(
    st: FactoryState, inst: Tier, pers: Tier, lists: Lists, split: seq<Share>, sv: nat, cursor: nat,
    deployed: set<Address>, log: seq<Effect>, ledger: nat)

  // ---- Calls ----

  /** How one external call behaves: the factory calls it makes back, then success or failure. */
  datatype Callee = Callee(reenter: seq<Call>, ok: bool)

  /** The fee token's behaviour at each recipient's transfer and at the transfer to the treasury. */
  datatype FeeScript = FeeScript(recipients: seq<Callee>, treasury: Callee)

  datatype TokenScript = TokenScript(deploy: Callee, init: Callee, mint: Callee)

  datatype TokenParams = TokenParams(
    salt: nat, name: string, symbol: string, decimals: nat, initialSupply: I128, maxSupply: Option<I128>)

  datatype Item = Item(params: TokenParams, script: TokenScript)

  /** The six guarded entrypoints. The caller argument is the address that authorised the call. */
  datatype Call =
    | CreateToken(creator: Address, item: Item, feePayment: I128, fee: FeeScript)
    | CreateTokensBatch(creator: Address, items: seq<Item>, feePayment: I128, fee: FeeScript)
    | SetMetadata(token: Address, admin: Address, uri: string, feePayment: I128, fee: FeeScript)
    | MintTokens(token: Address, admin: Address, to: Address, amount: I128, feePayment: I128, fee: FeeScript,
                 mint: Callee)
    | Burn(token: Address, from: Address, amount: I128, balance: I128, balanceCall: Callee, burn: Callee)
    | SetBurnEnabled(token: Address, admin: Address, enabled: bool)

  /** The entrypoints that do not take the lock. */
  datatype AdminCall =
    | Pause(admin: Address)
    | Unpause(admin: Address)
    | SetFeeSplit(admin: Address, splits: seq<Share>)
    | UpdateFees(admin: Address, baseFee: Option<I128>, metadataFee: Option<I128>)
    | AddToWhitelist(admin: Address, address: Address)
    | RemoveFromWhitelist(admin: Address, address: Address)
    | SetWhitelistEnabled(admin: Address, enabled: bool)
    | FreezeMetadata(token: Address, admin: Address)
    | ProposeAdmin(admin: Address, newAdmin: Address)
    | AcceptAdmin(newAdmin: Address)
    | CancelAdminProposal(admin: Address)
    | ProposeUpgrade(admin: Address, hash: nat)
    | ExecuteUpgrade(admin: Address, hash: nat, installs: bool)
    | CancelUpgrade(admin: Address)
    | Migrate(admin: Address)
    | BackfillCappedSupply(admin: Address, token: Address, verifiedSupply: I128)
    | BackfillTokenAddress(token: Address)

  datatype Reply = Done(tokens: seq<Address>) | Fail(error: Error)

  datatype Turn = Turn(world: World, reply: Reply)

  /** An error or trap reverts everything the invocation wrote. */
  function Refuse(w: World, e: Error): Turn { Turn(w, Fail(e)) }

  // ---- Two-tier lookup and lazy migration ----

  /** `read_addr_keyed`: persistent first, then instance. */
  function Lookup<K, V>(pers: map<K, V>, inst: map<K, V>, k: K): Option<V> {
    if k in pers then Some(pers[k]) else if k in inst then Some(inst[k]) else None
  }

  /** The persistent half of `migrate_addr_keyed`'s writes. */
  function PromotePers<K, V>(pers: map<K, V>, inst: map<K, V>, k: K): map<K, V> {
    if k !in pers && k in inst then pers[k := inst[k]] else pers
  }

  /** The instance half of `migrate_addr_keyed`'s writes. */
  function PromoteInst<K, V>(pers: map<K, V>, inst: map<K, V>, k: K): map<K, V> {
    if k !in pers && k in inst then inst - {k} else inst
  }

  function IndexOf(w: World, t: Address): Option<nat> { Lookup(w.pers.tokenIndex, w.inst.tokenIndex, t) }
  function InfoAt(w: World, i: nat): Option<TokenInfo> { Lookup(w.pers.tokenInfo, w.inst.tokenInfo, i) }
  function OwnerOf(w: World, t: Address): Option<Address> { Lookup(w.pers.owner, w.inst.owner, t) }
  function SupplyOf(w: World, t: Address): int {
    match Lookup(w.pers.supply, w.inst.supply, t) case Some(s) => s case None => 0
  }
  function Frozen(w: World, t: Address): bool {
    Lookup(w.pers.metadataFrozen, w.inst.metadataFrozen, t) == Some(true)
  }
  function VersionOf(w: World, t: Address): nat {
    match Lookup(w.pers.metadataVersion, w.inst.metadataVersion, t) case Some(v) => v case None => 0
  }
  function Backfilled(w: World, t: Address): bool { Lookup(w.pers.backfilled, w.inst.backfilled, t) == Some(true) }
  function Whitelisted(w: World, a: Address): bool { Lookup(w.pers.whitelist, w.inst.whitelist, a) == Some(true) }

  function TouchIndex(w: World, t: Address): World {
    w.(pers := w.pers.(tokenIndex := PromotePers(w.pers.tokenIndex, w.inst.tokenIndex, t)),
       inst := w.inst.(tokenIndex := PromoteInst(w.pers.tokenIndex, w.inst.tokenIndex, t)))
  }
  function TouchInfo(w: World, i: nat): World {
    w.(pers := w.pers.(tokenInfo := PromotePers(w.pers.tokenInfo, w.inst.tokenInfo, i)),
       inst := w.inst.(tokenInfo := PromoteInst(w.pers.tokenInfo, w.inst.tokenInfo, i)))
  }
  function TouchOwner(w: World, t: Address): World {
    w.(pers := w.pers.(owner := PromotePers(w.pers.owner, w.inst.owner, t)),
       inst := w.inst.(owner := PromoteInst(w.pers.owner, w.inst.owner, t)))
  }
  function TouchSupply(w: World, t: Address): World {
    w.(pers := w.pers.(supply := PromotePers(w.pers.supply, w.inst.supply, t)),
       inst := w.inst.(supply := PromoteInst(w.pers.supply, w.inst.supply, t)))
  }
  function TouchFrozen(w: World, t: Address): World {
    w.(pers := w.pers.(metadataFrozen := PromotePers(w.pers.metadataFrozen, w.inst.metadataFrozen, t)),
       inst := w.inst.(metadataFrozen := PromoteInst(w.pers.metadataFrozen, w.inst.metadataFrozen, t)))
  }
  function TouchVersion(w: World, t: Address): World {
    w.(pers := w.pers.(metadataVersion := PromotePers(w.pers.metadataVersion, w.inst.metadataVersion, t)),
       inst := w.inst.(metadataVersion := PromoteInst(w.pers.metadataVersion, w.inst.metadataVersion, t)))
  }
  function TouchBackfilled(w: World, t: Address): World {
    w.(pers := w.pers.(backfilled := PromotePers(w.pers.backfilled, w.inst.backfilled, t)),
       inst := w.inst.(backfilled := PromoteInst(w.pers.backfilled, w.inst.backfilled, t)))
  }

  /** `registered_token`: both entries a token resolves through, or nothing. */
  function Registered(w: World, t: Address): Option<(nat, TokenInfo)> {
    match IndexOf(w, t)
    case None => None
    case Some(i) =>
      match InfoAt(w, i)
      case None => None
      case Some(info) => Some((i, info))
  }

  /** What a successful `registered_token` lookup leaves in storage. */
  function TouchRegistered(w: World, t: Address): World {
    match IndexOf(w, t)
    case None => w
    case Some(i) => TouchInfo(TouchIndex(w, t), i)
  }

  // ---- Fees ----

  function Weights(split: seq<Share>): (s: seq<nat>)
    ensures |s| == |split|
  {
    seq(|split|, i requires 0 <= i < |split| => split[i].bps)
  }

  /** Whether the transfer to recipient `i` succeeds. */
  function Paid(fee: FeeScript, i: nat): bool { i < |fee.recipients| ==> fee.recipients[i].ok }

  /** The first `k` recipients' transfers, a redirect notice standing for each that fails. */
  function Payouts(split: seq<Share>, shares: seq<int>, payer: Address, fee: FeeScript, k: nat): seq<Effect>
    requires k <= |split| == |shares|
  {
    if k == 0 then []
    else
      Payouts(split, shares, payer, fee, k - 1) +
      if shares[k - 1] <= 0 then []
      else if Paid(fee, k - 1) then [Transfer(payer, split[k - 1].recipient, shares[k - 1])]
      else [FeeRedirected(split[k - 1].recipient, shares[k - 1])]
  }

  /** The sum of the shares among the first `k` that could not be delivered. */
  function Undelivered(shares: seq<int>, fee: FeeScript, k: nat): int
    requires k <= |shares|
  {
    if k == 0 then 0
    else Undelivered(shares, fee, k - 1) + if shares[k - 1] > 0 && !Paid(fee, k - 1) then shares[k - 1] else 0
  }

  datatype Fees = Charged(effects: seq<Effect>) | NotCharged(error: Error)

  /** `distribute_fee`: the transfers it makes, or why it fails. */
  function FeesFor(split: seq<Share>, treasury: Address, payer: Address, amount: Amount, fee: FeeScript): Fees {
    if split == [] then
      if fee.treasury.ok then Charged([Transfer(payer, treasury, amount)]) else NotCharged(TreasuryTransferFailed)
    else if !FeeSplit.Fits(amount, Weights(split)) then NotCharged(ArithmeticOverflow)
    else
      var shares := FeeSplit.Shares(amount, Weights(split));
      var paid := Payouts(split, shares, payer, fee, |split|);
      var rest := Undelivered(shares, fee, |split|);
      if rest <= 0 then Charged(paid)
      else if fee.treasury.ok then Charged(paid + [Transfer(payer, treasury, rest)])
      else NotCharged(TreasuryTransferFailed)
  }

  // ---- Registering tokens ----

  function ParamsError(p: TokenParams): Option<Error> {
    if p.name == "" || |p.name| > 32 then Some(InvalidTokenParams)
    else if p.symbol == "" || |p.symbol| > 12 then Some(InvalidTokenParams)
    else if p.decimals > 18 then Some(InvalidDecimals)
    else if p.initialSupply < 0 then Some(InvalidParameters)
    else if p.maxSupply.Some? && (p.maxSupply.value <= 0 || p.initialSupply > p.maxSupply.value)
    then Some(InvalidParameters)
    else None
  }

  function InfoFor(creator: Address, p: TokenParams): TokenInfo {
    TokenInfo(p.name, p.symbol, p.decimals, creator, true, p.maxSupply)
  }

  /** Every entry written for a newly deployed token. */
  function RegisterToken(w: World, creator: Address, p: TokenParams): World {
    var token, index := Derived(creator, p.salt), w.st.tokenCount + 1;
    w.(st := w.st.(tokenCount := index),
       pers := w.pers.(
         supply := if p.maxSupply.Some? then w.pers.supply[token := p.initialSupply] else w.pers.supply,
         tokenInfo := w.pers.tokenInfo[index := InfoFor(creator, p)],
         tokenIndex := w.pers.tokenIndex[token := index],
         tokenAddress := w.pers.tokenAddress[index := token],
         owner := w.pers.owner[token := creator]),
       lists := Appended(w.lists, creator, index),
       deployed := w.deployed + {token},
       log := w.log + [Deploy(token)] + if p.initialSupply > 0 then [Mint(token, creator, p.initialSupply)] else [])
  }

  /** Why `record_token` fails, if it does. */
  function RecordError(w: World, creator: Address, item: Item): Option<Error> {
    var p, s := item.params, item.script;
    if !s.deploy.ok || Derived(creator, p.salt) in w.deployed then Some(HostTrap)
    else if !s.init.ok then Some(HostTrap)
    else if p.initialSupply > 0 && !s.mint.ok then Some(HostTrap)
    else if w.st.tokenCount + 1 > U32_MAX then Some(ArithmeticOverflow)
    else if |TokensOf(w.lists, creator)| >= U32_MAX then Some(ArithmeticOverflow)
    else None
  }

  datatype Batch = Recorded(world: World, tokens: seq<Address>) | NotRecorded(error: Error)

  /** The loop of `create_tokens_batch`: the first `n` items recorded in order. */
  function RecordAll(w: World, creator: Address, items: seq<Item>, n: nat): Batch
    requires n <= |items|
  {
    if n == 0 then Recorded(w, [])
    else
      match RecordAll(w, creator, items, n - 1)
      case NotRecorded(e) => NotRecorded(e)
      case Recorded(w1, tokens) =>
        match RecordError(w1, creator, items[n - 1])
        case Some(e) => NotRecorded(e)
        case None =>
          Recorded(RegisterToken(w1, creator, items[n - 1].params),
            tokens + [Derived(creator, items[n - 1].params.salt)])
  }

  function WhitelistError(w: World, creator: Address): Option<Error> {
    if w.st.whitelistEnabled && !Whitelisted(w, creator) then Some(NotWhitelisted) else None
  }

  // ---- The guarded entrypoints: refusal, then effect ----

  function CreateTokenStep(w: World, creator: Address, item: Item, feePayment: I128, fee: FeeScript): Turn {
    if w.st.paused then Refuse(w, ContractPaused)
    else if w.st.locked then Refuse(w, Reentrancy)
    else if ParamsError(item.params).Some? then Refuse(w, ParamsError(item.params).value)
    else if feePayment < w.st.baseFee then Refuse(w, InsufficientFee)
    else if WhitelistError(w, creator).Some? then Refuse(w, NotWhitelisted)
    else if w.st.tokenCount + 1 > U32_MAX then Refuse(w, ArithmeticOverflow)
    else
      match FeesFor(w.split, w.st.treasury, creator, w.st.baseFee, fee)
      case NotCharged(e) => Refuse(w, e)
      case Charged(effects) =>
        var w1 := w.(log := w.log + effects);
        match RecordError(w1, creator, item)
        case Some(e) => Refuse(w, e)
        case None => Turn(RegisterToken(w1, creator, item.params), Done([Derived(creator, item.params.salt)]))
  }

  /** The error of the first item that fails validation, if any. */
  function BatchParamsError(items: seq<Item>, n: nat): Option<Error>
    requires n <= |items|
  {
    if n == 0 then None
    else if BatchParamsError(items, n - 1).Some? then BatchParamsError(items, n - 1)
    else ParamsError(items[n - 1].params)
  }

  /** `base_fee` once per token of the batch. */
  function BatchFee(w: World, n: nat): nat { w.st.baseFee * n }

  function CreateBatchRefusal(w: World, creator: Address, items: seq<Item>, feePayment: I128): Option<Error> {
    if w.st.paused then Some(ContractPaused)
    else if w.st.locked then Some(Reentrancy)
    else if |items| == 0 then Some(InvalidParameters)
    else if |items| > MAX_BATCH_SIZE then Some(BatchSizeExceeded)
    else if BatchParamsError(items, |items|).Some? then BatchParamsError(items, |items|)
    else if w.st.tokenCount + |items| > U32_MAX then Some(ArithmeticOverflow)
    else if BatchFee(w, |items|) > I128_MAX then Some(ArithmeticOverflow)
    else if feePayment < BatchFee(w, |items|) then Some(InsufficientFee)
    else WhitelistError(w, creator)
  }

  function CreateBatchStep(w: World, creator: Address, items: seq<Item>, feePayment: I128, fee: FeeScript): Turn {
    match CreateBatchRefusal(w, creator, items, feePayment)
    case Some(e) => Refuse(w, e)
    case None =>
      match RecordAll(w, creator, items, |items|)
      case NotRecorded(e) => Refuse(w, e)
      case Recorded(w1, tokens) =>
        match FeesFor(w.split, w.st.treasury, creator, BatchFee(w, |items|), fee)
        case NotCharged(e) => Refuse(w, e)
        case Charged(effects) => Turn(w1.(log := w1.log + effects), Done(tokens))
  }

  predicate ValidMetadataUri(uri: string) {
    7 < |uri| <= METADATA_URI_MAX_LEN && uri[..7] == "ipfs://"
  }

  function SetMetadataRefusal(w: World, t: Address, admin: Address, uri: string, feePayment: I128): Option<Error> {
    if w.st.paused then Some(ContractPaused)
    else if w.st.locked then Some(Reentrancy)
    else if feePayment < w.st.metadataFee then Some(InsufficientFee)
    else if !ValidMetadataUri(uri) then Some(InvalidMetadataUri)
    else if OwnerOf(w, t).None? then Some(TokenNotFound)
    else if OwnerOf(w, t) != Some(admin) then Some(Unauthorized)
    else if Frozen(w, t) then Some(MetadataFrozen)
    else if VersionOf(w, t) >= METADATA_MAX_UPDATES then Some(MetadataFrozen)
    else None
  }

  /** The lazy migrations `set_metadata` performs before it charges. */
  function MetadataPrepared(w: World, t: Address): World { TouchVersion(TouchFrozen(TouchOwner(w, t), t), t) }

  function SetMetadataStep(w: World, t: Address, admin: Address, uri: string, feePayment: I128, fee: FeeScript): Turn {
    match SetMetadataRefusal(w, t, admin, uri, feePayment)
    case Some(e) => Refuse(w, e)
    case None =>
      match FeesFor(w.split, w.st.treasury, admin, w.st.metadataFee, fee)
      case NotCharged(e) => Refuse(w, e)
      case Charged(effects) =>
        var w1 := MetadataPrepared(w, t);
        Turn(w1.(log := w.log + effects,
                 pers := w1.pers.(metadata := w1.pers.metadata[t := uri],
                                  metadataVersion := w1.pers.metadataVersion[t := VersionOf(w, t) + 1])),
             Done([]))
  }

  function MintRefusal(w: World, t: Address, admin: Address, amount: I128, feePayment: I128): Option<Error> {
    if w.st.paused then Some(ContractPaused)
    else if amount <= 0 then Some(InvalidParameters)
    else if w.st.locked then Some(Reentrancy)
    else if feePayment < w.st.baseFee then Some(InsufficientFee)
    else if Registered(w, t).None? then Some(TokenNotFound)
    else if OwnerOf(w, t).None? then Some(TokenNotFound)
    else if OwnerOf(w, t) != Some(admin) then Some(Unauthorized)
    else
      var cap := Registered(w, t).value.1.maxSupply;
      if cap.None? then None
      else if SupplyOf(w, t) + amount > I128_MAX then Some(ArithmeticOverflow)
      else if SupplyOf(w, t) + amount > cap.value then Some(MaxSupplyExceeded)
      else None
  }

  /** The cap counter after a mint or a back-fill. */
  function SetSupply(w: World, t: Address, total: int): World {
    var w1 := TouchSupply(w, t);
    w1.(pers := w1.pers.(supply := w1.pers.supply[t := total]))
  }

  /** The lazy migrations and the counter write `mint_tokens` performs before it charges. */
  function MintPrepared(w: World, t: Address, amount: int): World
    requires Registered(w, t).Some?
  {
    var w1 := TouchOwner(TouchRegistered(w, t), t);
    if Registered(w, t).value.1.maxSupply.Some? then SetSupply(w1, t, SupplyOf(w, t) + amount) else w1
  }

  function MintStep(w: World, t: Address, admin: Address, to: Address, amount: I128, feePayment: I128,
                    fee: FeeScript, mint: Callee): Turn {
    match MintRefusal(w, t, admin, amount, feePayment)
    case Some(e) => Refuse(w, e)
    case None =>
      match FeesFor(w.split, w.st.treasury, admin, w.st.baseFee, fee)
      case NotCharged(e) => Refuse(w, e)
      case Charged(effects) =>
        if !mint.ok then Refuse(w, HostTrap)
        else
          Turn(MintPrepared(w, t, amount).(log := w.log + effects + [Mint(t, to, amount)]), Done([]))
  }

  function SetBurnEnabledStep(w: World, t: Address, admin: Address, enabled: bool): Turn {
    if w.st.locked then Refuse(w, Reentrancy)
    else if OwnerOf(w, t).None? then Refuse(w, TokenNotFound)
    else if OwnerOf(w, t) != Some(admin) then Refuse(w, Unauthorized)
    else
      match Registered(w, t)
      case None => Refuse(w, TokenNotFound)
      case Some((i, info)) =>
        var w1 := TouchRegistered(TouchOwner(w, t), t);
        Turn(w1.(pers := w1.pers.(tokenInfo := w1.pers.tokenInfo[i := info.(burnEnabled := enabled)])), Done([]))
  }

  function BurnRefusal(w: World, t: Address, amount: int): Option<Error> {
    if amount <= 0 then Some(InvalidBurnAmount)
    else
      match Registered(w, t)
      case None => Some(TokenNotFound)
      case Some((i, info)) => if info.burnEnabled then None else Some(Unauthorized)
  }

  /** `burn` reads the balance before it takes the lock, so that one call's re-entries really run. */
  function BurnStep(w: World, c: Call): Turn
    requires c.Burn?
    decreases c, 0
  {
    match BurnRefusal(w, c.token, c.amount)
    case Some(e) => Refuse(w, e)
    case None =>
      var w1 := Reenter(TouchRegistered(w, c.token), c.balanceCall, |c.balanceCall.reenter|);
      if !c.balanceCall.ok then Refuse(w, HostTrap)
      else if c.amount > c.balance then Refuse(w, BurnAmountExceedsBalance)
      else if w1.st.locked then Refuse(w, Reentrancy)
      else if !c.burn.ok then Refuse(w, HostTrap)
      else Turn(w1.(log := w1.log + [Burned(c.token, c.from, c.amount)]), Done([]))
  }

  /** One guarded call, as one atomic step. */
  function Step(w: World, c: Call): Turn
    decreases c, 1
  {
    match c
    case CreateToken(creator, item, feePayment, fee) => CreateTokenStep(w, creator, item, feePayment, fee)
    case CreateTokensBatch(creator, items, feePayment, fee) => CreateBatchStep(w, creator, items, feePayment, fee)
    case SetMetadata(t, admin, uri, feePayment, fee) => SetMetadataStep(w, t, admin, uri, feePayment, fee)
    case MintTokens(t, admin, to, amount, feePayment, fee, mint) =>
      MintStep(w, t, admin, to, amount, feePayment, fee, mint)
    case Burn(_, _, _, _, _, _) => BurnStep(w, c)
    case SetBurnEnabled(t, admin, enabled) => SetBurnEnabledStep(w, t, admin, enabled)
  }

  /** The first `n` calls a callee makes back, each an atomic step. */
  function Reenter(w: World, k: Callee, n: nat): World
    requires n <= |k.reenter|
    decreases k, n
  {
    if n == 0 then w else Step(Reenter(w, k, n - 1), k.reenter[n - 1]).world
  }

  // ---- Fee-split validation ----

  function TotalBps(splits: seq<Share>, n: nat): nat
    requires n <= |splits|
  {
    if n == 0 then 0 else TotalBps(splits, n - 1) + splits[n - 1].bps
  }

  function SplitScanError(splits: seq<Share>, n: nat): Option<Error>
    requires n <= |splits|
  {
    if n == 0 then None
    else if SplitScanError(splits, n - 1).Some? then SplitScanError(splits, n - 1)
    else if splits[n - 1].bps == 0 then Some(ZeroFeeSplitEntry)
    else if TotalBps(splits, n) > U32_MAX then Some(ArithmeticOverflow)
    else None
  }

  function SplitError(splits: seq<Share>): Option<Error> {
    if splits == [] then None
    else if |splits| > FeeSplit.MAX_FEE_SPLIT_RECIPIENTS then Some(TooManyFeeSplitRecipients)
    else if SplitScanError(splits, |splits|).Some? then SplitScanError(splits, |splits|)
    else if TotalBps(splits, |splits|) != 10_000 then Some(InvalidFeeSplit)
    else None
  }

  // ---- Schema migration ----

  /** One completed schema step: the state's version stamp and the `sv` marker move together. */
  function Stamp(w: World, version: nat): World {
    var st := w.st.(schemaVersion := version);
    var st' :=
      if version == 3 then st.(whitelistEnabled := false)
      else if version == 4 then st.(pendingAdmin := None, pendingAdminExpiry := None)
      else if version == 5 then st.(pendingUpgradeHash := None, pendingUpgradeReadyAt := None)
      else st;
    w.(st := st', sv := version)
  }

  function StampIfBelow(w: World, version: nat): World { if w.sv < version then Stamp(w, version) else w }

  function ChunkTarget(w: World): nat {
    Min(Min(w.cursor + MIGRATE_TOKEN_INFO_CHUNK, U32_MAX), w.st.tokenCount)
  }

  /** The `TokenInfo` entries still in instance storage with an index in `(lo, hi]`. */
  function Stragglers(inst: map<nat, TokenInfo>, lo: nat, hi: nat): map<nat, TokenInfo> {
    map i | i in inst && lo < i <= hi :: inst[i]
  }

  /** The bounded walk of schema step 3. */
  function MoveChunk(w: World): World {
    var moved := Stragglers(w.inst.tokenInfo, w.cursor, ChunkTarget(w));
    w.(pers := w.pers.(tokenInfo := w.pers.tokenInfo + moved),
       inst := w.inst.(tokenInfo := w.inst.tokenInfo - moved.Keys),
       cursor := ChunkTarget(w))
  }

  function StepThree(w: World): World {
    var w1 := MoveChunk(w);
    if ChunkTarget(w) >= w.st.tokenCount then Stamp(w1, 3) else w1
  }

  function MigrateWorld(w: World): World {
    var w2 := StampIfBelow(StampIfBelow(w, 1), 2);
    var w3 := if w2.sv < 3 then StepThree(w2) else w2;
    if w3.sv < 3 then w3 else StampIfBelow(StampIfBelow(w3, 4), 5)
  }

  /** With `u32::MAX` tokens the saturating walk index never passes its target, so the host stops the call. */
  predicate WalkNeverEnds(w: World) { w.sv < 3 && ChunkTarget(w) == U32_MAX }

  // ---- The unguarded entrypoints ----

  function AdminOnly(w: World, caller: Address): Option<Error> {
    if w.st.admin != caller then Some(Unauthorized) else None
  }

  function AdminRefusal(w: World, c: AdminCall): Option<Error> {
    match c
    case Pause(a) => AdminOnly(w, a)
    case Unpause(a) => AdminOnly(w, a)
    case SetFeeSplit(a, splits) => if w.st.admin != a then Some(Unauthorized) else SplitError(splits)
    case UpdateFees(a, base, meta) =>
      if w.st.admin != a then Some(Unauthorized)
      else if base.Some? && base.value < 0 then Some(InvalidParameters)
      else if meta.Some? && meta.value < 0 then Some(InvalidParameters)
      else None
    case AddToWhitelist(a, _) => AdminOnly(w, a)
    case RemoveFromWhitelist(a, _) => AdminOnly(w, a)
    case SetWhitelistEnabled(a, _) => AdminOnly(w, a)
    case FreezeMetadata(t, a) =>
      if w.st.paused then Some(ContractPaused)
      else if OwnerOf(w, t).None? then Some(TokenNotFound)
      else if OwnerOf(w, t) != Some(a) then Some(Unauthorized)
      else None
    case ProposeAdmin(a, newAdmin) =>
      if w.st.admin != a then Some(Unauthorized)
      else if a == newAdmin then Some(InvalidParameters)
      else if w.ledger + ADMIN_PROPOSAL_TTL_LEDGERS > U32_MAX then Some(ArithmeticOverflow)
      else None
    case AcceptAdmin(newAdmin) =>
      if w.st.pendingAdmin != Some(newAdmin) then Some(NoPendingProposal)
      else if w.st.pendingAdminExpiry.None? || w.ledger >= w.st.pendingAdminExpiry.value then Some(ProposalExpired)
      else None
    case CancelAdminProposal(a) => AdminOnly(w, a)
    case ProposeUpgrade(a, _) =>
      if w.st.admin != a then Some(Unauthorized)
      else if w.ledger + UPGRADE_TIMELOCK_LEDGERS > U32_MAX then Some(ArithmeticOverflow)
      else None
    case ExecuteUpgrade(a, hash, installs) =>
      if w.st.admin != a then Some(Unauthorized)
      else if w.st.pendingUpgradeHash.None? || w.st.pendingUpgradeReadyAt.None? then Some(NoUpgradePending)
      else if w.ledger < w.st.pendingUpgradeReadyAt.value then Some(UpgradeNotReady)
      else if w.st.pendingUpgradeHash != Some(hash) then Some(UpgradeHashMismatch)
      else if !installs then Some(HostTrap)
      else None
    case CancelUpgrade(a) => AdminOnly(w, a)
    case Migrate(a) =>
      if w.st.admin != a then Some(Unauthorized)
      else if WalkNeverEnds(w) then Some(HostTrap)
      else None
    case BackfillCappedSupply(a, t, verified) =>
      if w.st.admin != a then Some(Unauthorized)
      else if Registered(w, t).None? then Some(TokenNotFound)
      else if Registered(w, t).value.1.maxSupply.None? then Some(InvalidParameters)
      else if verified < 0 || verified > Registered(w, t).value.1.maxSupply.value then Some(InvalidParameters)
      else if Backfilled(w, t) then Some(AlreadyBackfilled)
      else None
    case BackfillTokenAddress(t) => if IndexOf(w, t).None? then Some(TokenNotFound) else None
  }

  /** The lazy migrations `backfill_capped_supply` performs before it writes. */
  function BackfillPrepared(w: World, t: Address): World { TouchSupply(TouchBackfilled(TouchRegistered(w, t), t), t) }

  function BackfillSupplyWorld(w: World, t: Address, verified: int): World {
    var w1 := BackfillPrepared(w, t);
    w1.(pers := w1.pers.(
      supply := if verified > SupplyOf(w, t) then w1.pers.supply[t := verified] else w1.pers.supply,
      backfilled := w1.pers.backfilled[t := true]))
  }

  function BackfillAddressWorld(w: World, t: Address): World
    requires IndexOf(w, t).Some?
  {
    var w1, i := TouchIndex(w, t), IndexOf(w, t).value;
    if i in w1.pers.tokenAddress then w1
    else w1.(pers := w1.pers.(tokenAddress := w1.pers.tokenAddress[i := t]))
  }

  /** The state record after an accepted call that only edits that record. */
  function NewState(st: FactoryState, ledger: nat, c: AdminCall): FactoryState
    requires c.UpdateFees? ==>
      (c.baseFee.Some? ==> c.baseFee.value >= 0) && (c.metadataFee.Some? ==> c.metadataFee.value >= 0)
  {
    match c
    case Pause(_) => st.(paused := true)
    case Unpause(_) => st.(paused := false)
    case UpdateFees(_, base, meta) =>
      st.(baseFee := if base.Some? then base.value else st.baseFee,
          metadataFee := if meta.Some? then meta.value else st.metadataFee)
    case SetWhitelistEnabled(_, enabled) => st.(whitelistEnabled := enabled)
    case ProposeAdmin(_, newAdmin) =>
      st.(pendingAdmin := Some(newAdmin), pendingAdminExpiry := Some(ledger + ADMIN_PROPOSAL_TTL_LEDGERS))
    case AcceptAdmin(newAdmin) => st.(pendingAdmin := None, pendingAdminExpiry := None, admin := newAdmin)
    case CancelAdminProposal(_) =>
      if st.pendingAdmin.None? then st else st.(pendingAdmin := None, pendingAdminExpiry := None)
    case ProposeUpgrade(_, hash) =>
      st.(pendingUpgradeHash := Some(hash), pendingUpgradeReadyAt := Some(ledger + UPGRADE_TIMELOCK_LEDGERS))
    case ExecuteUpgrade(_, hash, _) =>
      st.(pendingUpgradeHash := None, pendingUpgradeReadyAt := None, tokenWasmHash := hash)
    case CancelUpgrade(_) =>
      if st.pendingUpgradeHash.None? then st else st.(pendingUpgradeHash := None, pendingUpgradeReadyAt := None)
    case _ => st
  }

  function FreezeWorld(w: World, t: Address): World {
    var w1 := TouchFrozen(TouchOwner(w, t), t);
    if Frozen(w, t) then w1 else w1.(pers := w1.pers.(metadataFrozen := w1.pers.metadataFrozen[t := true]))
  }

  /** What an accepted unguarded call does. */
  function AdminEffect(w: World, c: AdminCall): World
    requires AdminRefusal(w, c).None?
  {
    match c
    case SetFeeSplit(_, splits) => w.(split := splits)
    case AddToWhitelist(_, a) => w.(pers := w.pers.(whitelist := w.pers.whitelist[a := true]))
    case RemoveFromWhitelist(_, a) =>
      w.(pers := w.pers.(whitelist := w.pers.whitelist - {a}), inst := w.inst.(whitelist := w.inst.whitelist - {a}))
    case FreezeMetadata(t, _) => FreezeWorld(w, t)
    case Migrate(_) => MigrateWorld(w)
    case BackfillCappedSupply(_, t, verified) => BackfillSupplyWorld(w, t, verified)
    case BackfillTokenAddress(t) => BackfillAddressWorld(w, t)
    case _ => w.(st := NewState(w.st, w.ledger, c))
  }

  function AdminStep(w: World, c: AdminCall): Turn {
    if AdminRefusal(w, c).Some? then Refuse(w, AdminRefusal(w, c).value) else Turn(AdminEffect(w, c), Done([]))
  }

  // ---- Runs ----

  /** What can happen between two top-level boundaries: a call, or ledgers closing. */
  datatype Event = Guarded(call: Call) | Admin(admin: AdminCall) | Tick(ledgers: nat)

  function Apply(w: World, e: Event): Turn {
    match e
    case Guarded(c) => Step(w, c)
    case Admin(c) => AdminStep(w, c)
    case Tick(n) => Turn(w.(ledger := w.ledger + n), Done([]))
  }

  /** The world after the first `n` events. */
  function After(w: World, events: seq<Event>, n: nat): World
    requires n <= |events|
  {
    if n == 0 then w else Apply(After(w, events, n - 1), events[n - 1]).world
  }

  // ---- Well-formed storage: what the fee loop and the page loops rely on ----

  ghost predicate WellFormed(w: World) {
    ValidLists(w.lists) && (w.split == [] || FeeSplit.ValidWeights(Weights(w.split)))
  }

  lemma RegisterKeepsWellFormed(w: World, creator: Address, p: TokenParams)
    requires WellFormed(w)
    ensures WellFormed(RegisterToken(w, creator, p)) && RegisterToken(w, creator, p).split == w.split
  {
    hide ValidLists;
    hide Appended;
    hide TokensOf;
    AppendedIsAppend(w.lists, creator, w.st.tokenCount + 1);
  }

  lemma {:induction false} RecordAllKeepsWellFormed(w: World, creator: Address, items: seq<Item>, n: nat)
    requires WellFormed(w) && n <= |items|
    ensures RecordAll(w, creator, items, n).Recorded? ==>
      WellFormed(RecordAll(w, creator, items, n).world) && RecordAll(w, creator, items, n).world.split == w.split
  {
    hide RegisterToken;
    hide WellFormed;
    hide RecordError;
    if n > 0 && RecordAll(w, creator, items, n).Recorded? {
      RecordAllKeepsWellFormed(w, creator, items, n - 1);
      RegisterKeepsWellFormed(RecordAll(w, creator, items, n - 1).world, creator, items[n - 1].params);
    }
  }

  lemma {:induction false} StepKeepsWellFormed(w: World, c: Call)
    requires WellFormed(w)
    ensures WellFormed(Step(w, c).world)
    decreases c, 1
  {
    hide ValidLists;
    hide RegisterToken;
    hide RecordAll;
    hide RecordError;
    match c
    case CreateToken(creator, item, _, fee) =>
      if FeesFor(w.split, w.st.treasury, creator, w.st.baseFee, fee).Charged? {
        var effects := FeesFor(w.split, w.st.treasury, creator, w.st.baseFee, fee).effects;
        RegisterKeepsWellFormed(w.(log := w.log + effects), creator, item.params);
      }
    case CreateTokensBatch(creator, items, _, _) => RecordAllKeepsWellFormed(w, creator, items, |items|);
    case Burn(t, _, _, _, k, _) => ReenterKeepsWellFormed(TouchRegistered(w, t), k, |k.reenter|);
    case _ =>
  }

  lemma {:induction false} ReenterKeepsWellFormed(w: World, k: Callee, n: nat)
    requires WellFormed(w) && n <= |k.reenter|
    ensures WellFormed(Reenter(w, k, n))
    decreases k, n
  {
    if n > 0 {
      ReenterKeepsWellFormed(w, k, n - 1);
      StepKeepsWellFormed(Reenter(w, k, n - 1), k.reenter[n - 1]);
    }
  }

  lemma {:induction false} SplitTotal(splits: seq<Share>, n: nat)
    requires n <= |splits|
    ensures TotalBps(splits, n) == Sum(Weights(splits)[..n])
  {
    if n > 0 {
      SplitTotal(splits, n - 1);
      assert Weights(splits)[..n][..n - 1] == Weights(splits)[..n - 1];
    }
  }

  lemma {:induction false} ScannedPositive(splits: seq<Share>, n: nat)
    requires n <= |splits| && SplitScanError(splits, n).None?
    ensures forall i :: 0 <= i < n ==> splits[i].bps > 0
  {
    if n > 0 { ScannedPositive(splits, n - 1); }
  }

  /** A map `set_fee_split` accepts is exactly what the award loop needs. */
  lemma AcceptedSplitIsValid(splits: seq<Share>)
    requires splits != []
    ensures SplitError(splits).None? <==> FeeSplit.ValidWeights(Weights(splits))
  {
    SplitTotal(splits, |splits|);
    assert Weights(splits)[..|splits|] == Weights(splits);
    if SplitError(splits).None? { ScannedPositive(splits, |splits|); }
    if FeeSplit.ValidWeights(Weights(splits)) { NoScanError(splits, |splits|); }
  }

  lemma {:induction false} NoScanError(splits: seq<Share>, n: nat)
    requires n <= |splits| && FeeSplit.ValidWeights(Weights(splits))
    ensures SplitScanError(splits, n).None?
  {
    if n > 0 {
      NoScanError(splits, n - 1);
      SplitTotal(splits, n);
      FeeSplit.PrefixSum(Weights(splits), n);
      assert Weights(splits)[n - 1] > 0;
    }
  }

  /** Everything but the storage tiers and the governance fields is as before. */
  predicate SameFrame(w: World, w1: World) {
    && w1.st.locked == w.st.locked && w1.st.tokenCount == w.st.tokenCount
    && w1.lists == w.lists && w1.deployed == w.deployed && w1.log == w.log && w1.ledger == w.ledger
  }

  lemma StampFrame(w: World, version: nat)
    ensures SameFrame(w, StampIfBelow(w, version)) && StampIfBelow(w, version).split == w.split
  {
  }

  lemma StepThreeFrame(w: World)
    ensures SameFrame(w, StepThree(w)) && StepThree(w).split == w.split
  {
    hide Stragglers;
  }

  lemma MigrateFrame(w: World)
    ensures SameFrame(w, MigrateWorld(w)) && MigrateWorld(w).split == w.split
  {
    StampFrame(w, 1);
    var w1 := StampIfBelow(w, 1);
    StampFrame(w1, 2);
    var w2 := StampIfBelow(w1, 2);
    StepThreeFrame(w2);
    var w3 := if w2.sv < 3 then StepThree(w2) else w2;
    StampFrame(w3, 4);
    StampFrame(StampIfBelow(w3, 4), 5);
    hide StampIfBelow, StepThree;
  }

  lemma TokenAdminFrame(w: World, t: Address, verified: int)
    ensures SameFrame(w, FreezeWorld(w, t)) && FreezeWorld(w, t).split == w.split
    ensures SameFrame(w, BackfillSupplyWorld(w, t, verified)) && BackfillSupplyWorld(w, t, verified).split == w.split
    ensures IndexOf(w, t).Some? ==>
      SameFrame(w, BackfillAddressWorld(w, t)) && BackfillAddressWorld(w, t).split == w.split
  {
    hide PromotePers, PromoteInst, SupplyOf;
  }

  /** What acceptance tells about the call's arguments. */
  lemma AcceptedArguments(w: World, c: AdminCall)
    requires AdminRefusal(w, c).None?
    ensures c.BackfillTokenAddress? ==> IndexOf(w, c.token).Some?
    ensures c.UpdateFees? ==>
      (c.baseFee.Some? ==> c.baseFee.value >= 0) && (c.metadataFee.Some? ==> c.metadataFee.value >= 0)
  {
    hide IndexOf, Registered, OwnerOf, SplitError, WalkNeverEnds, Backfilled;
  }

  lemma EffectFrame(w: World, c: AdminCall)
    requires AdminRefusal(w, c).None?
    ensures var w1 := AdminEffect(w, c);
      SameFrame(w, w1) && w1.split == if c.SetFeeSplit? then c.splits else w.split
  {
    hide AdminRefusal, NewState, IndexOf, MigrateWorld, BackfillSupplyWorld, BackfillAddressWorld, FreezeWorld;
    AcceptedArguments(w, c);
    match c
    case Migrate(_) => MigrateFrame(w);
    case FreezeMetadata(t, _) => TokenAdminFrame(w, t, 0);
    case BackfillCappedSupply(_, t, verified) => TokenAdminFrame(w, t, verified);
    case BackfillTokenAddress(t) => TokenAdminFrame(w, t, 0);
    case _ => NewStateFrame(w.st, w.ledger, c);
  }

  /** What no unguarded entrypoint touches. */
  lemma AdminFrame(w: World, c: AdminCall)
    ensures var w1 := AdminStep(w, c).world;
      SameFrame(w, w1) && w1.split == if c.SetFeeSplit? && AdminRefusal(w, c).None? then c.splits else w.split
  {
    hide AdminRefusal, AdminEffect;
    if AdminRefusal(w, c).None? { EffectFrame(w, c); }
  }

  lemma NewStateFrame(st: FactoryState, ledger: nat, c: AdminCall)
    requires c.UpdateFees? ==>
      (c.baseFee.Some? ==> c.baseFee.value >= 0) && (c.metadataFee.Some? ==> c.metadataFee.value >= 0)
    ensures NewState(st, ledger, c).locked == st.locked && NewState(st, ledger, c).tokenCount == st.tokenCount
  {
  }

  lemma AdminStepKeepsWellFormed(w: World, c: AdminCall)
    requires WellFormed(w)
    ensures WellFormed(AdminStep(w, c).world)
  {
    AdminFrame(w, c);
    hide ValidLists, AdminEffect, AdminStep;
    if c.SetFeeSplit? && c.splits != [] { AcceptedSplitIsValid(c.splits); }
  }

  // ---- Failure and the lock ----

  /** A call that fails leaves nothing behind. */
  lemma FailureIsSilent(w: World, c: Call)
    ensures Step(w, c).reply.Fail? ==> Step(w, c).world == w
  {
  }

  /** While the lock is held every guarded entrypoint refuses. */
  lemma {:induction false} LockedRefuses(w: World, c: Call)
    requires w.st.locked
    ensures Step(w, c).reply.Fail? && Step(w, c).world == w
    decreases c, 1
  {
    if c.Burn? && BurnRefusal(w, c.token, c.amount).None? {
      LockedReenter(TouchRegistered(w, c.token), c.balanceCall, |c.balanceCall.reenter|);
    }
  }

  lemma {:induction false} LockedReenter(w: World, k: Callee, n: nat)
    requires w.st.locked && n <= |k.reenter|
    ensures Reenter(w, k, n) == w
    decreases k, n
  {
    if n > 0 {
      LockedReenter(w, k, n - 1);
      LockedRefuses(w, k.reenter[n - 1]);
    }
  }
}
