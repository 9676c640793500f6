# StellarForge, modelled and proved in Dafny

StellarForge is a token factory on Soroban together with the services around it: an event
indexer, a job that deletes orphaned IPFS pins, a rate limiter, an image header check and a
CSV export. This project models the parts of it that keep state or do arithmetic, and proves
what their documentation and comments promise.

## How the model is built

- **The factory contract.** `FactoryModel` gives every entrypoint an atomic step on a `World`
  (the state record, the two storage tiers, the creator lists, the fee split, the schema
  version and migration cursor, the deployed contracts, the log of external effects and the
  ledger number). External contracts are scripts: each call succeeds or fails as the script
  says, and may call any guarded entrypoint before it returns, to any depth. `FactoryContract`
  is the contract as written: a class whose methods keep a local copy of the state record,
  store the lock, make the external calls one by one and store the result. Each method is
  proved to end exactly where the atomic step ends. The steps mention neither the lock nor
  the callbacks (except at `burn`'s balance query), so that equality is the non-interference
  theorem. A run is a sequence of guarded calls, unguarded calls and ledger ticks, in any
  order and by any caller; the invariants are proved for every run.
- **What the steps amount to.** `FactoryAcceptance` and `FactorySettings` say exactly when each
  call is accepted, in numbers and lookups, what each error code means and what each unguarded
  call changes; `FactoryPayments` reads off the log who paid whom; `FactoryAccess` says by whose
  authority anything about a token changes, over every run; `FactoryGates` what pausing, freezing
  and switching burns off hold back; `FactoryTimelocks` exactly when the two timelocks let go.
- **The storage tiers.** A lookup reads `persistent` and falls back to `instance`. `RegistryOf`
  is the merged view; transparency of migration means that the merged view does not move.
- **The fee split.** `FeeSplit` has the three passes of `distribute_fee` as loops and a
  specification by position in a queue ordered by fraction, then by map position.
- **Creator lists.** `CreatorPages` has the page, count and legacy keys as maps and the list
  they spell; the legacy list is packed into pages at the next append.
- **The indexer.** `IndexerStore` is the in-memory store and its keyset listing, `IndexerReplay`
  the algebra of its writes, `Ingest` the paged walk cut short by a budget of store and chain
  operations, `IngestEvents` what the events of the stream say about a token, `IngestConvergence`
  the bounded back-fill and the whole cycle.
- **From events to deletions.** `PinSafety` composes whole ingest runs, the keyset walk and pin
  reconciliation: what the event stream says is live is not deleted.
- **Running the object.** `FactoryExecution` runs event sequences on the contract object and ties
  them to the runs the theorems speak of; `FactoryMigrationRuns` follows the schema migration
  through such runs.
- **Pin reconciliation, rate limiter, JPEG probe, image acceptance, CSV** are one module each.
  Pinata, the key-value store and the clock are parameters: every reply, failure and time is
  arbitrary.

## What is worth knowing

- `burn` asks for the holder's balance before it takes the lock. A callback from that query is
  the only one that can change anything, and it can exactly when the burn itself goes through
  (`FactoryLock.BalanceQueryMattersIff`).
- The comment on `distribute_fee` calls the split independent of the map's order. It is, exactly
  when no tie of fractions lies between the rewarded and the unrewarded
  (`FeeSplitOrder.OrderIndependentIff`).
- The comment on `get_tokens_by_creator` tells callers to stop at the first answer shorter than
  their limit. That rule loses tokens whenever the limit is above 50 and the list is longer than
  50; it is right exactly otherwise (`CreatorPages.WalkUntilShortIsCompleteIff`). Stopping at an
  empty answer is always right.
- From a gap-free prefix a run closes `min(missing, 225)` indices only while the store's back-fill
  flag is unset. With the flag set the first run closes 25; if that leaves gaps it clears the
  flag, and on a quiet stream later runs close 225 each again (`IngestConvergence.RunRepeatedly`).
- Replay of events is safe exactly when every token the stream creates gets no metadata URI from
  it or gets one at or after its creation (`IndexerReplay.CrashReplayIff`). A `meta` event a page
  before its `created` event, with none after it, breaks this.
- With rows that share an index, a keyset walk loses rows exactly when a page ends between them
  (`IndexerStore.WalkCompleteIff`).
- The CID of a pin is protected by `ipfs://<cid>` exactly when it is one non-empty line
  (`Reconciliation.ReferenceProtectsIff`).
- A 15-minute interval admits at most `2 * limit - 1` requests, one fewer than twice the limit,
  and some trace attains that (`RateLimit.WindowBoundIsAttained`).
- `migrate` walks with a saturating index. If the token count were `u32::MAX` the last walk would
  never pass its target; the model has the host stop that call, so the migration never completes.
  Below that count it takes an exact number of accepted calls, whatever happens in between short
  of a creation (`FactoryMigrationRuns.MigrationOverRun`).
- The PNG probe compares the chunk name after ASCII decoding, which drops each byte's top bit
  (`ImageFile.IhdrTopBitsIgnored`).
- `migrate` resets the whitelist switch, the pending admin and the pending upgrade when it passes
  versions 3, 4 and 5 (`FactoryMigration.MigratePreserves` says what it leaves alone). A pending
  upgrade survives a change of admin, and executing one also replaces the token wasm hash.

## Model

| member | source | states |
|---|---|---|
| FeeSplit.SharesSum | contracts/token-factory/src/lib.rs:501-550 | for every amount and every accepted split the shares add up to the amount |
| FeeSplit.SharesFloorOrCeiling | contracts/token-factory/src/lib.rs:505-550 | each share is the floor or the ceiling of the exact proportional share, and lies between 0 and the amount |
| FeeSplit.AwardedIsFractional | contracts/token-factory/src/lib.rs:542-549 | a leftover stroop never goes to a recipient whose exact share is whole |
| FeeSplit.AwardsFollowTheQueue | contracts/token-factory/src/lib.rs:531-550 | every rewarded recipient has at least the fraction of every unrewarded one, ties going to the lower map position |
| FeeSplit.SharesOptimal | contracts/token-factory/src/lib.rs:501-550 | no integer allocation of the whole amount is closer, in total absolute distance, to the exact proportional shares |
| FeeSplit.LeftoverBound | contracts/token-factory/src/lib.rs:522-531 | a positive remainder is smaller than the number of recipients with a non-zero fraction, so the award loop can place all of it |
| FeeSplit.FloorPass | contracts/token-factory/src/lib.rs:501-520 | the first pass computes floors, fractions and their total, and fails exactly when some product leaves i128 |
| FeeSplit.Scan | contracts/token-factory/src/lib.rs:532-541 | the inner loop finds the first position of the largest remaining fraction |
| FeeSplit.AwardPass | contracts/token-factory/src/lib.rs:530-550 | the award loop ends with remainder 0, never by its early exit, and gives one more to exactly the first entries of the queue |
| FeeSplit.Allocate | contracts/token-factory/src/lib.rs:501-550 | both passes: the specified shares and remainder 0, or the overflow error |
| FeeSplitOrder.OrderIndependentIff | contracts/token-factory/src/lib.rs:462-465 | every reordering of the recipients gives each of them the same share exactly when no rewarded recipient has the same fraction as an unrewarded one |
| FeeSplitOrder.SwapKeepsShares | contracts/token-factory/src/lib.rs:531-550 | without such a tie, exchanging two recipients exchanges their shares and makes no tie |
| FactoryModel.AcceptedSplitIsValid | contracts/token-factory/src/lib.rs:1481-1508 | `set_fee_split` accepts a non-empty map exactly when it has at most ten recipients with positive weights adding up to 10000 |
| FactoryModel.LockedRefuses | contracts/token-factory/src/lib.rs:443-455 | while the lock is stored, each of the six guarded entrypoints is refused without effect, whatever its own callees do |
| FactoryModel.StepKeepsWellFormed | contracts/token-factory/src/lib.rs:867-1442 | every guarded call keeps the split valid, the page layout intact and the fees in range |
| FactoryModel.AdminFrame | contracts/token-factory/src/lib.rs:1444-2171 | no unguarded entrypoint touches the lock, the token count, the creator lists, deployed contracts or external effects, and only `set_fee_split` changes the split |
| FactoryLock.CallbacksChangeNothing | contracts/token-factory/src/lib.rs:443-455 | the atomic step of every guarded call is the same with callees that re-enter under the lock as with silent ones; `FactoryContract.Factory.Invoke` says the contract takes that step |
| FactoryExecution.InvokeBoth | contracts/token-factory/src/lib.rs:443-455 | run on two factory objects in the same world, a guarded call whose locked callees call back and the same call with silent ones give the same reply and the same world |
| FactoryLock.BalanceQueryIsNotGuarded | contracts/token-factory/src/lib.rs:1370-1397 | a concrete instance: from `burn`'s balance query a creator can disable burns and the burn in flight still completes |
| FactoryLock.BalanceQueryMattersIff | contracts/token-factory/src/lib.rs:1350-1401 | some callback from a burn's balance query changes its outcome exactly when the burn goes through: unlocked, no refusal, query answered, amount within the balance, burn accepted |
| FactoryLock.DoomedBurn | contracts/token-factory/src/lib.rs:1350-1401 | a burn that does not go through ends with the same reply and world whatever its balance query calls back |
| FactoryLock.StepKeepsUnlocked | contracts/token-factory/src/lib.rs:452-455 | a guarded call that starts unlocked ends unlocked, on success and on failure |
| FactoryLock.UnlockedAtEveryBoundary | contracts/token-factory/src/lib.rs:443-455 | in every run the stored lock is released at every top-level boundary |
| FactoryContract.Factory.External | contracts/token-factory/src/lib.rs:443-455 | a call to another contract may invoke any guarded entrypoints before returning; the store moves as those invocations say |
| FactoryContract.Factory.LockedExternal | contracts/token-factory/src/lib.rs:443-455 | made while the lock is stored, such a call changes nothing |
| FactoryContract.Factory.Invoke | contracts/token-factory/src/lib.rs:867-1442 | each guarded entrypoint, run step by step with the lock and re-entrant callees, ends with the reply and the world of its atomic step |
| FactoryContract.Factory.CreateToken | contracts/token-factory/src/lib.rs:867-958 | as above, for a single creation: gates, lock, fee, deployment, registration, unlock |
| FactoryContract.Factory.CreateTokensBatch | contracts/token-factory/src/lib.rs:1065-1141 | as above, for a batch: every item checked first, tokens recorded on the caller's copy of the state, one fee of n times the base fee |
| FactoryContract.Factory.RecordToken | contracts/token-factory/src/lib.rs:997-1063 | deploys and registers one token on a state copy, with its exact errors |
| FactoryContract.Factory.Register | contracts/token-factory/src/lib.rs:742-755 | writes record, list entry, index, address and owner of a new token, failing exactly when the list is full |
| FactoryContract.Factory.SetMetadata | contracts/token-factory/src/lib.rs:1168-1238 | as above, for metadata: frozen, owner and fee checks, fee paid under the lock, version bumped |
| FactoryContract.Factory.MintTokens | contracts/token-factory/src/lib.rs:1275-1334 | as above, for minting: the owner check, the cap check and the counter write before the fee and the mint; `FactoryAcceptance.CallAcceptedIff` and `FactoryAccess.AccessOverEvent` say who can mint, and when |
| FactoryContract.Factory.Burn | contracts/token-factory/src/lib.rs:1336-1408 | as above, for burning: the balance query before the lock, the burn under it |
| FactoryContract.Factory.SetBurnEnabled | contracts/token-factory/src/lib.rs:1410-1442 | only the owner toggles burns; nothing but the flag and the record's tier changes |
| FactoryContract.Factory.DistributeFee | contracts/token-factory/src/lib.rs:479-588 | makes the specified transfers and redirects or fails with the specified error; `FactoryPayments.ChargeAccounts` says who pays and who is paid |
| FactoryContract.Factory.PayRecipients | contracts/token-factory/src/lib.rs:557-570 | each positive share is paid or, if its transfer fails, redirected and added to the treasury's part, without overflow |
| FactoryContract.Factory.InvokeAdmin | contracts/token-factory/src/lib.rs:808-2171 | every unguarded entrypoint, run step by step, ends with the reply and the world of its atomic step |
| FactoryExecution.RunAll | contracts/token-factory/src/lib.rs:808-2171 | any sequence of invocations and closing ledgers on the object gives the replies and ends in the world of that run, with every invariant of runs kept |
| FactoryContract.Factory.SetFeeSplit | contracts/token-factory/src/lib.rs:1472-1517 | validates the map entry by entry in order and stores it, or clears the split |
| FactoryContract.Factory.ProposeAdmin | contracts/token-factory/src/lib.rs:1927-1966 | records the proposed admin with its expiry ledger |
| FactoryContract.Factory.AcceptAdmin | contracts/token-factory/src/lib.rs:1968-2004 | the proposed admin takes over strictly before the expiry; `FactoryTimelocks.AcceptanceIff` says exactly when that goes through |
| FactoryContract.Factory.ProposeUpgrade | contracts/token-factory/src/lib.rs:1575-1614 | records the hash and the first ledger at which it may execute |
| FactoryContract.Factory.ExecuteUpgrade | contracts/token-factory/src/lib.rs:1616-1662 | executes the recorded hash once its ledger is reached and clears it; a trap while installing the code undoes the call |
| FactoryContract.Factory.Migrate | contracts/token-factory/src/lib.rs:1688-1843 | runs the pending schema steps in one call, stopping after one chunk of step 3 |
| FactoryContract.Factory.WalkChunk | contracts/token-factory/src/lib.rs:1757-1771 | moves exactly the records of one chunk to persistent storage and sets the cursor |
| FactoryContract.MoveInfos | contracts/token-factory/src/lib.rs:1762-1770 | the loop of the walk moves exactly the records found between its bounds |
| FactoryContract.Factory.BackfillCappedSupply | contracts/token-factory/src/lib.rs:1872-1905 | raises an old capped token's counter once, never lowers it, and refuses a value above the cap |
| FactoryContract.Factory.BackfillTokenAddress | contracts/token-factory/src/lib.rs:2156-2171 | restores the missing address entry of a registered token and nothing else |
| CreatorPages.CreatorStore.Append | contracts/token-factory/src/lib.rs:663-726 | migrates a legacy list if there is no count, rewrites only the tail page, and fails exactly when the list is full |
| CreatorPages.AppendedIsAppend | contracts/token-factory/src/lib.rs:663-726 | afterwards the creator's pages spell the list, legacy part first, followed by the new index; pages stay full but for the last and other creators are untouched |
| CreatorPages.PackPages | contracts/token-factory/src/lib.rs:684-709 | the migration loop lays a legacy list out in pages of 50 |
| CreatorPages.CreatorStore.GetTokensByCreator | contracts/token-factory/src/lib.rs:2219-2265 | returns exactly the slice of the list from the offset, at most 50 long; empty for a creator without a count |
| FactoryExecution.TokensByCreator | contracts/token-factory/src/lib.rs:2219-2265 | on the object, wherever a run has taken it, the answer is exactly the slice |
| FactoryMigrationRuns.CreatorCountsFit | contracts/token-factory/src/lib.rs:713-724 | in every run a creator's stored count is the length of its list and fits `u32` |
| CreatorPages.ReadRange | contracts/token-factory/src/lib.rs:2242-2264 | the read loop returns the entries between its bounds and never meets a short page |
| CreatorPages.WalkUntilEmptyIsComplete | contracts/token-factory/src/lib.rs:2219-2265 | advancing the offset by the answer's length until it is empty enumerates every entry once, in order, for every limit |
| CreatorPages.WalkUntilShortIsCompleteIff | contracts/token-factory/src/lib.rs:2199-2218 | stopping at the first short answer is complete exactly when the limit is at most 50 or the list fits in one page |
| FactoryRegistry.TouchesAreInvisible | contracts/token-factory/src/lib.rs:638-654 | the same for each kind of key the entrypoints migrate on access |
| FactoryRegistry.SameRegistrySameLookups | contracts/token-factory/src/lib.rs:627-636 | two worlds with the same merged view answer every kind of lookup alike |
| FactoryRegistry.AddKeepsConsistent | contracts/token-factory/src/lib.rs:742-755 | registering a token keeps every registry invariant |
| FactoryRegistry.ListsPartitionNewTokens | contracts/token-factory/src/lib.rs:742-769 | in a consistent registry each token this code registered is on exactly one list, its creator's, exactly once |
| FactoryMigration.MigrateInvisible | contracts/token-factory/src/lib.rs:1688-1843 | `migrate` changes no lookup, keeps every record in one tier, and never leaves one behind the cursor |
| FactoryMigration.MigratePreserves | contracts/token-factory/src/lib.rs:1688-1860 | the state fields `migrate` leaves alone, by starting version; at version 5 it changes nothing |
| FactoryMigrationRuns.MigrationOverRun | contracts/token-factory/src/lib.rs:1688-1843 | in every run that creates no token, whatever else it does, a factory below version 3 stays there, the cursor 20 further per accepted `migrate`, until max(1, ceil((token_count - cursor) / 20)) of them; from then on it is at version 5 with no record in instance storage |
| FactoryMigrationRuns.MigrateAcceptedIff | contracts/token-factory/src/lib.rs:1688-1798 | in such a run each call by the admin is accepted, except the last one needed when there are `u32::MAX` tokens |
| FactoryMigrationRuns.MigrateInRunIsInvisible | contracts/token-factory/src/lib.rs:1688-1843 | a `migrate` anywhere in any run changes no lookup |
| FactoryMigrationRuns.StepSchema | contracts/token-factory/src/lib.rs:867-1442 | guarded calls, re-entrant ones included, leave version and cursor alone and never lower the token count |
| FactoryMigration.MidMigration | contracts/token-factory/src/lib.rs:1755-1798 | back to back: after k calls the cursor has moved 20k, the version is still below 3 and no lookup has changed |
| FactoryMigration.MigrationCompletes | contracts/token-factory/src/lib.rs:1688-1843 | back to back: that many calls reach version 5 with every lookup unchanged, and further calls do nothing |
| FactoryMigration.MigrateCallsAccepted | contracts/token-factory/src/lib.rs:1688-1693 | back to back: each of those calls by the admin is accepted |
| FactoryRuns.StepKeepsTiers | contracts/token-factory/src/lib.rs:618-654 | every guarded call keeps every record in one tier |
| FactoryRuns.StepKeepsSafe | contracts/token-factory/src/lib.rs:867-1442 | every guarded call, re-entrant or not, keeps the registry consistent and the supply counters covered |
| FactoryRuns.AdminKeepsSafe | contracts/token-factory/src/lib.rs:1872-2171 | so does every unguarded entrypoint |
| FactoryRuns.RunKeepsInv | contracts/token-factory/src/lib.rs:867-2171 | so does every run, from any consistent start, including one with legacy lists and records still in instance storage |
| FactoryRuns.IssuedNeverExceedsCap | contracts/token-factory/src/lib.rs:1025-1027 | in every run, what the factory issued of a capped token is at most its counter, and the counter at most its cap |
| FactorySteps.MintIssues | contracts/token-factory/src/lib.rs:1306-1327 | a successful mint issues exactly its amount of exactly its token |
| FactorySteps.CreateRegistry | contracts/token-factory/src/lib.rs:867-1063 | a successful creation changes the registry by exactly one new token |
| FactorySteps.MetadataRegistry | contracts/token-factory/src/lib.rs:1168-1238 | a successful metadata call changes only that token's URI and version |
| FactorySteps.MintRegistry | contracts/token-factory/src/lib.rs:1275-1334 | a successful mint changes at most that token's counter |
| FactorySteps.BurnToggleRegistry | contracts/token-factory/src/lib.rs:1410-1442 | a successful toggle changes only the flag in that token's record |
| FactoryGates.CreatedAsAsked | contracts/token-factory/src/lib.rs:742-755 | a successful creation registers the token at the next index with the name, symbol, decimals, creator and cap asked for, burns on, a counter only if capped, and writes no other entry |
| FactoryGates.BatchAsAsked | contracts/token-factory/src/lib.rs:1065-1141 | a successful batch registers its tokens in order at consecutive indices, each as asked |
| FactoryGates.StepDeeds | contracts/token-factory/src/lib.rs:997-1334 | what a successful creation, batch, metadata or mint call does outside the factory, fees aside: deploy the token and mint its initial supply to the creator, once per item; nothing; mint the amount to the recipient |
| FactoryGates.BurnDeeds | contracts/token-factory/src/lib.rs:1336-1408 | a successful burn does exactly that burn, of a registered token with burns on and of a positive amount within the balance |
| FactorySupply.SupplyNeverDecreases | contracts/token-factory/src/lib.rs:1306-1316 | between any two boundaries of any run no supply counter has gone down |
| FactoryAccess.StepAttributed | contracts/token-factory/src/lib.rs:867-1442 | whatever differs about a token after a guarded call, callbacks included, is the work of its creation or of a call made by the owner the registry has for it; the owner never changes |
| FactoryAccess.AdminTouchesNoToken | contracts/token-factory/src/lib.rs:1444-2171 | an unguarded call changes no owner, URI, version, record or issue; a counter only by the factory admin's back-fill of that token |
| FactoryAccess.AccessOverEvent | contracts/token-factory/src/lib.rs:867-2171 | for every event: units of a token are issued only by its creation or a mint its owner makes, its counter moves only so or by the admin's back-fill, its URI and version only by its owner, its record only at creation or by its owner |
| FactoryAccess.AccessOverRun | contracts/token-factory/src/lib.rs:867-2171 | over any run a token that has an owner looks different only if some event in between was such a call |
| FactoryAccess.OwnerIsForever | contracts/token-factory/src/lib.rs:742-755 | over any run the owner of a token stays the owner |
| FactoryGates.PausedHoldsBack | contracts/token-factory/src/lib.rs:867-1334 | while paused no call, callbacks included, creates, issues or describes anything: all lookups stay but for burn switches |
| FactoryGates.FrozenIsFinal | contracts/token-factory/src/lib.rs:1196-1263 | over any run a frozen token stays frozen, with the URI and version it had |
| FactoryGates.OffMeansNoBurn | contracts/token-factory/src/lib.rs:1365-1368 | no call burns a token that has no record or one with burns off, unless that call or one inside it first creates the token or switches its burns on |
| FactoryAcceptance.CallAcceptedIff | contracts/token-factory/src/lib.rs:867-1442 | each guarded call is accepted exactly when what it asks for is there: the gates, limits and fees in numbers, the owner, the record, the cap and the marks as lookups answer, and outside calls that succeed |
| FactoryAcceptance.RecordAllIff | contracts/token-factory/src/lib.rs:1117-1131 | the batch loop records its items exactly when each can be set up, their addresses are new and different, and the creator's list has room for all |
| FactoryAcceptance.RefusalTellsWhy | contracts/token-factory/src/lib.rs:867-1442 | a refused guarded call reports an error code that is true of it, and only codes its entrypoint can mean |
| FactorySettings.AdminAcceptedIff | contracts/token-factory/src/lib.rs:1444-2171 | each unguarded call is accepted exactly when its caller, arguments, ledger and pending proposal allow it, in numbers |
| FactorySettings.AdminRefusalTellsWhy | contracts/token-factory/src/lib.rs:1444-2171 | a refused unguarded call reports an error code that is true of it |
| FactorySettings.AdminDoes | contracts/token-factory/src/lib.rs:1444-2171 | an accepted unguarded call changes the settings, the lookups and the split exactly as its name says |
| FactorySettings.SplitAcceptedIff | contracts/token-factory/src/lib.rs:1481-1508 | a fee split is accepted exactly when it is empty, or has at most ten positive weights that add up to 10000 |
| FactorySettings.MigrateResets | contracts/token-factory/src/lib.rs:1773-1840 | `migrate` switches the whitelist off, drops the pending admin and drops the pending upgrade on passing versions 3, 4 and 5 |
| FactoryGovernance.StepState | contracts/token-factory/src/lib.rs:867-1442 | guarded calls change nothing in the state record but the token count |
| FactoryGovernance.ProposalOrigin | contracts/token-factory/src/lib.rs:1927-2023 | a live proposal traces back to the last accepted `propose_admin` of the current admin |
| FactoryGovernance.AdminChangesOnlyByAcceptance | contracts/token-factory/src/lib.rs:1927-2023 | over every run the admin changes from a to b only when b accepts a proposal a made while admin, strictly fewer than 17280 ledgers earlier, with no accepted rotation call in between |
| FactoryGovernance.UpgradeExecutesOnlyAfterTimelock | contracts/token-factory/src/lib.rs:1575-1686 | over every run an upgrade executes only the most recent proposal's hash, at least 17280 ledgers after it, and at most once per proposal |
| FactoryGovernance.WasmHashChangesOnlyByUpgrade | contracts/token-factory/src/lib.rs:1652-1658 | the token wasm hash changes only by an accepted execution, to its hash |
| FactoryTimelocks.ProposalWindow | contracts/token-factory/src/lib.rs:1968-2004 | over every run, a proposal that no later rotation call or version-4 migration touches can be accepted by the proposed admin during exactly the 17280 ledgers after it, and makes it the admin |
| FactoryTimelocks.AcceptanceIff | contracts/token-factory/src/lib.rs:1968-2004 | over every run, `accept_admin` is accepted exactly when such a proposal by the then admin, less than 17280 ledgers old, stands behind it |
| FactoryTimelocks.UpgradeWindow | contracts/token-factory/src/lib.rs:1616-1662 | over every run, a proposed upgrade that no later upgrade call or version-5 migration touches can be executed by the admin exactly from 17280 ledgers on, and sets the wasm hash |
| FactoryTimelocks.ExecutionIff | contracts/token-factory/src/lib.rs:1616-1662 | over every run, `execute_upgrade` is accepted exactly when the admin calls it, the code installs, and such a proposal of the same hash, at least 17280 ledgers old, stands behind it |
| FactoryFees.NoticesNameTheFailed | contracts/token-factory/src/lib.rs:557-570 | redirect notices name exactly the recipients with a positive share whose transfer failed |
| FactoryFees.ChargeMovesExactly | contracts/token-factory/src/lib.rs:479-588 | for every pattern of recipient failures, a charge that goes through moves exactly its amount |
| FactoryFees.TreasuryStandsInForTheFailed | contracts/token-factory/src/lib.rs:552-580 | with a split, the treasury is paid exactly the sum of the failed shares, and only if there is one |
| FactoryFees.StepMovesRequiredFee | contracts/token-factory/src/lib.rs:935-1323 | every fee-paying call that succeeds moves exactly its required fee, never the caller's upper bound |
| FactoryPayments.ChargeAccounts | contracts/token-factory/src/lib.rs:479-588 | read off the log alone: a charge that goes through is paid by the payer and nobody else, in full; without a split the treasury receives all of it, with one each address receives the sum of the shares it accepted and the treasury the rest |
| FactoryPayments.ChargedIff | contracts/token-factory/src/lib.rs:479-588 | a charge goes through exactly when its products fit `i128` and either every positive share is accepted or the treasury accepts what is left; without a split, exactly when the treasury accepts |
| FactoryPayments.StepPaysExactly | contracts/token-factory/src/lib.rs:867-1334 | each fee-paying entrypoint that succeeds takes exactly its fee (base, n times base, metadata, base) from its caller alone, and every address receives exactly what it is due |
| FactoryBatch.SinglesFollowBatch | contracts/token-factory/src/lib.rs:1065-1141 | if a batch can record n items, n single creations succeed and store the same |
| FactoryBatch.BatchEqualsSingles | contracts/token-factory/src/lib.rs:1065-1141 | a successful batch of n leaves what n single creations leave, returns the same addresses and moves the same total fee |
| IndexerStore.DescendingSortsWeakly | api/_lib/indexer/memoryStore.ts:56-59 | the listing's order keeps every row once and never rises, equal indices included |
| IndexerStore.ListPage | api/_lib/indexer/memoryStore.ts:53-71 | filter, sort, clamp and slice give the specified page and next cursor |
| IndexerStore.PageFacts | api/_lib/indexer/memoryStore.ts:53-71 | a page holds exactly the matching rows down to its next cursor, and that cursor is below the previous one |
| IndexerStore.PageExactly | api/_lib/indexer/memoryStore.ts:53-71 | for every creator filter, cursor and limit: a page holds exactly the rows of that creator below the cursor and down to its next cursor, highest first, at most the limit clamped to 1..100; a next cursor, the last index returned, is given exactly when rows are left, and then the page is full |
| IndexerStore.WalkDescends | api/cron/reconcile-pins.ts:48-65 | following the cursor over a changing store ends and returns strictly descending indices |
| IndexerStore.WalkComplete | api/cron/reconcile-pins.ts:48-65 | an index present throughout is returned, as its row was at some page, whatever else changes |
| IndexerStore.WalkOfStableStore | api/_lib/indexer/memoryStore.ts:53-71 | on an unchanging store every limit gives the same walk, the whole sorted table |
| IndexerStore.WalkCompleteIff | api/_lib/indexer/memoryStore.ts:53-71 | with rows that may share an index, the walk of an unchanging store returns every row exactly when no page ends between two rows of one index |
| IndexerStore.PageCoversIff | api/_lib/indexer/memoryStore.ts:53-71 | a page and the rows below its next cursor hold everything exactly when its cut is clean |
| IndexerStore.MemoryTokenStore.UpsertTokens | api/_lib/indexer/memoryStore.ts:31-42 | upserts in order; a row without a URI keeps the one already known |
| IndexerStore.MemoryTokenStore.SetMetadataUri | api/_lib/indexer/memoryStore.ts:44-47 | sets the URI of a known token and ignores an unknown one |
| IndexerStore.MemoryTokenStore.PresentIndices | api/_lib/indexer/memoryStore.ts:77-84 | the asked-for indices that have a row |
| IndexerReplay.ReplayClosedForm | api/_lib/indexer/memoryStore.ts:31-47 | after any stream a row is the last one put, carrying the last URI that was written when it had a row |
| IndexerReplay.Absorb | api/_lib/indexer/ingest.ts:10-15 | making a write early changes nothing if the stream makes it again and settles the URI of a row it creates |
| IndexerReplay.CrashReplayEquivalence | api/_lib/indexer/ingest.ts:185-234 | on a settled stream any schedule of crashes between writes and resumptions from earlier points that reaches the end leaves the table of one uninterrupted pass |
| IndexerReplay.ReplayingASuffixIsIdempotent | api/_lib/indexer/ingest.ts:12-15 | on a settled stream replaying any suffix already applied changes nothing |
| IndexerReplay.ReplayTwiceIff | api/_lib/indexer/ingest.ts:12-15 | replaying a whole stream changes nothing exactly when it is settled: each token it creates gets no URI from it, or gets one at or after its creation |
| IndexerReplay.CrashReplayIff | api/_lib/indexer/ingest.ts:185-234 | every schedule of crashes that reaches the end leaves the table of one pass exactly when the stream is settled |
| IndexerReplay.UnsettledIsNotReplaySafe | api/_lib/indexer/ingest.ts:203-211 | a concrete unsettled stream: a `meta` event before its `created` event is lost once and kept on replay |
| IndexerReplay.SettledWithoutGrounding | api/_lib/indexer/ingest.ts:203-211 | an early `meta` event does no harm when another follows the creation |
| IndexerReplay.ReplayKeepsUris | api/_lib/indexer/memoryStore.ts:31-47 | a known metadata URI never becomes null |
| Ingest.OrderedStreamIsGrounded | api/_lib/indexer/ingest.ts:203-211 | when no `meta` event comes a page before its token's `created` event, every URI write finds its row |
| Ingest.OrderedStreamIsSettled | api/_lib/indexer/ingest.ts:203-211 | a stream in that order is settled |
| Ingest.RunSteadyState | api/_lib/indexer/ingest.ts:189-234 | stopped anywhere, a run has applied a contiguous stretch of the stream from the saved cursor, and the new cursor is not past what was applied |
| Ingest.ApplyPage | api/_lib/indexer/ingest.ts:203-214 | stopped anywhere, a page has applied a prefix of its writes, rows before URIs; `IngestEvents` says what those writes are, event by event |
| IngestEvents.LastUriOfEvents | api/_lib/indexer/ingest.ts:203-214 | the last URI the stream writes for a token is the one its last event brings it: the `meta` event's, or a `created` row's own; a page's rows come before its URIs |
| IngestEvents.LastRowOfEvents | api/_lib/indexer/ingest.ts:203-211 | the last row the stream writes for a token is that of its last `created` event, marked as coming from an event |
| IngestEvents.UriAtTheHead | api/_lib/indexer/ingest.ts:203-214 | after a whole pass a token that had a row by its last URI event carries exactly that URI |
| IngestEvents.RowAtTheHead | api/_lib/indexer/ingest.ts:203-211 | after a whole pass a created token has the row of its last `created` event, up to the URI |
| IngestEvents.UntouchedAtTheHead | api/_lib/indexer/ingest.ts:203-214 | after a whole pass a token no event speaks of has the row it had, if any |
| Ingest.RunsUnderCrashes | api/_lib/indexer/ingest.ts:189-234 | from any cursor earlier runs left and however often runs are cut short, once one reaches the head the table is that of one uninterrupted pass |
| Ingest.RunToHead | api/_lib/indexer/ingest.ts:189-234 | runs that are not cut short reach the head after exactly ceil(pages left / 20) of them |
| IngestConvergence.CountPlusMissing | api/_lib/indexer/ingest.ts:262-281 | the row count and the number of missing indices add up to the token count |
| IngestConvergence.AlignedReplay | api/_lib/indexer/ingest.ts:189-234 | applying events keeps every row in agreement with the chain and loses no index |
| IngestConvergence.BackfillIndices | api/_lib/indexer/ingest.ts:124-146 | on success the asked-for indices without a row have exactly the chain's own rows, marked as back-filled, and every other row is as it was; 0 is returned exactly when all had rows; a failure at any read writes nothing |
| IngestConvergence.RunBackfill | api/_lib/indexer/ingest.ts:153-183 | loses no index, however it fails; on success it has closed the next 200 of a gap-free prefix, or all |
| IngestConvergence.FirstMissing | api/_lib/indexer/ingest.ts:266-273 | the reconciliation batch is min(25, missing) distinct missing indices |
| IngestConvergence.Reconcile | api/_lib/indexer/ingest.ts:262-287 | on success the missing indices have dropped by exactly min(missing, 25), and completion is reported exactly when none is left |
| IngestConvergence.RunIngest | api/_lib/indexer/ingest.ts:244-296 | failing at any operation, a run loses no index and no URI, leaves the completion flag alone and a usable cursor; not failing, it closes at least min(missing, 25), from a gap-free prefix min(missing, 225) while back-fill is not marked complete, and marks completion exactly when nothing is missing; when events create nothing it keeps the prefix gap-free |
| IngestConvergence.RunRepeatedly | api/_lib/indexer/ingest.ts:244-296 | among any runs the failed ones undo nothing and each other one closes 25 more gaps until none is left; when events create nothing, from a gap-free prefix each closes 225 more, except that the first closes 25 if completion was marked before |
| Reconciliation.CidOfExactly | api/_lib/pinReconciliation.ts:234-250 | which URIs yield which CID, both directions, character by character |
| Reconciliation.ExtractCids | api/_lib/pinReconciliation.ts:234-250 | the set of CIDs some URI yields |
| Reconciliation.GetMetadataUris | api/cron/reconcile-pins.ts:48-65 | fails exactly when some page the walk reads throws, and otherwise collects the URIs of the whole walk over the changing store |
| Reconciliation.ClassifyPins | api/_lib/pinReconciliation.ts:153-188 | the deletion list is exactly the orphans, in order, and every other pin is counted as preserved |
| Reconciliation.OrphansExactly | api/_lib/pinReconciliation.ts:162-184 | a CID is on the list exactly when some pin of it is unreferenced with a known age above 24 hours |
| Reconciliation.OrphanCount | api/_lib/pinReconciliation.ts:162-184 | there is one candidate per pin that is unreferenced and known to be over 24 hours old |
| Reconciliation.UnusedIff | api/_lib/pinReconciliation.ts:234-250 | the reference set leaves out exactly the CIDs that no row of the walk names |
| Reconciliation.LimitExactly | api/_lib/pinReconciliation.ts:352-360 | the breaker lets five deletions through, or as many as the given share of the account, a tenth when none is given, and no more |
| Reconciliation.UnpinCids | api/_lib/pinReconciliation.ts:195-228 | one request per CID; cleaned counts the replies that deleted it or found it gone, errors the refusals and network failures; the message names the last failure |
| Reconciliation.RunReconciliation | api/_lib/pinReconciliation.ts:273-407 | the whole summary and the deletions, case by case: a gate that throws or answers not ready stops everything with nothing checked; without a gate or past a ready one, a failed listing, a failed reference set, the breaker and a dry run each stop with their own report, and otherwise exactly the orphans are deleted |
| Reconciliation.ReferencedIsInUse | api/cron/reconcile-pins.ts:48-65 | a CID on a stored row throughout the walk is in the reference set |
| Reconciliation.ReferenceProtectsIff | api/_lib/pinReconciliation.ts:153-250 | for any pins and URIs, exactly which CIDs would be deleted: those with an old pin that no URI names, as `ipfs://<cid>` with the CID one non-empty line, or bare |
| Reconciliation.ReconcilePins | api/cron/reconcile-pins.ts:67-93 | end to end: a CID is deleted exactly when the gate is absent or ready, the run is real, the account and every page could be read, the breaker lets the number through, some pin of it is known to be over 24 hours old, and no row of the walk names it; so nothing referenced throughout the walk is deleted, and at the default ratio at most five pins or a tenth |
| PinSafety.WriteKeepsTracked | api/_lib/indexer/ingest.ts:203-211 | every write of the stream keeps each token on course to carry its last URI, however far runs fall back |
| PinSafety.RunKeepsTracked | api/_lib/indexer/ingest.ts:244-296 | so does every whole run, its back-fill and reconciliation included, wherever it fails |
| PinSafety.StillRefers | api/_lib/indexer/memoryStore.ts:31-47 | a row keeps its reference and its index through later writes that give its token no other URI |
| PinSafety.LatestIsRecorded | api/_lib/indexer/ingest.ts:203-214 | the last event of the pages to bring a token a URI is the last write that does, and finds its row |
| PinSafety.IngestThenReconcile | api/cron/reconcile-pins.ts:48-93 | after any whole ingest runs, from any cursor and failing anywhere, the last of which reached the head, every row carries the URI of the last event that brought its token one, and no CID that is a token's latest metadata by the events is deleted, even while further events arrive between the pages of the walk |
| RateLimit.SpreadBoundsEveryInterval | api/_lib/rateLimit.ts:97-180 | if admissions m apart are a length apart in time, no half-open interval of that length holds more than m |
| RateLimit.Limiter.IsRateLimited | api/_lib/rateLimit.ts:97-159 | one request against the store, with any call failing before or after it is applied; unconfigured production denies everything |
| RateLimit.Limiter.IsRateLimitedInMemory | api/_lib/rateLimit.ts:169-180 | one request against the in-memory bucket |
| RateLimit.Limiter.ServeAll | api/_lib/rateLimit.ts:97-180 | serving a trace admits exactly the admissions the bounds below speak of |
| RateLimit.WindowBound | api/_lib/rateLimit.ts:125-140 | any half-open 15 minutes admit at most 2 max(1, limit) - 1 requests, for every sequential trace, with lifetimes refreshed by every write and any faults |
| RateLimit.WindowBoundIsAttained | api/_lib/rateLimit.ts:125-140 | for every limit some trace admits exactly that many |
| RateLimit.DayBound | api/_lib/rateLimit.ts:142-151 | any half-open 24 hours admit at most max(1, limit) requests |
| RateLimit.InMemoryWindowBound | api/_lib/rateLimit.ts:169-180 | the window bound holds for the in-memory fallback |
| RateLimit.UnderTheLimitsAdmitted | api/_lib/rateLimit.ts:119-153 | a client under both limits is let through: no fault, at most the window limit of requests in the last 15 minutes and at most the day limit since the last 24 hours without one |
| RateLimit.RefusalsCostNothing | api/_lib/rateLimit.ts:125-140 | while nothing fails and the day limit is out of reach, a request is let through whenever fewer than the window limit were admitted in the last 15 minutes, however many were refused |
| RateLimit.AfreshADayLater | api/_lib/rateLimit.ts:142-151 | 24 hours after the last admission the day limit does not stop a client, whatever was refused in between |
| RateLimit.FaultsRefuse | api/_lib/rateLimit.ts:154-158 | a request during which any store call fails is refused |
| RateLimit.UnderTheLimitAdmittedInMemory | api/_lib/rateLimit.ts:169-180 | the in-memory fallback lets a client under the window limit through |
| Jpeg.ProbeJpeg | api/_lib/fileValidation.ts:97-134 | on every buffer the walk ends, reads in bounds and returns what its specification returns |
| Jpeg.ProbeFindsFrame | api/_lib/fileValidation.ts:97-134 | after any fill bytes, standalone markers and non-frame segments, the frame header's own size is returned |
| Jpeg.ProbedHeader | api/_lib/fileValidation.ts:97-134 | whenever a size is returned, the buffer is such a header |
| Jpeg.ProbeIff | api/_lib/fileValidation.ts:97-134 | both directions together, with the frame, standalone and ending markers listed |
| ImageFile.Sniff | api/_lib/fileValidation.ts:54-64 | the type whose signature the file starts with, byte by byte, or none |
| ImageFile.ProbePng | api/_lib/fileValidation.ts:84-89 | a size is returned exactly for 24 bytes with the header chunk's name, and is the big-endian bytes 16 to 23 |
| ImageFile.ProbeGif | api/_lib/fileValidation.ts:91-95 | a size is returned exactly for 10 bytes, and is the little-endian bytes 6 to 9 |
| ImageFile.Validate | api/_lib/fileValidation.ts:147-189 | which files are accepted as which type, and which are refused as too small, unrecognised, mismatched, malformed or too large, each exactly |
| Csv.FieldRoundTrip | frontend/src/utils/csv.ts:24-30 | whatever a field holds, reading its encoding gives it back and stops at the separator |
| Csv.DocumentRoundTrip | frontend/src/utils/csv.ts:13-34 | any records of two fields or more parse back to themselves under RFC 4180, section 2 |
| Csv.SerializeRoundTrip | frontend/src/utils/csv.ts:10-35 | a reader gets the header row and exactly the guarded fields, in order |
| Csv.CellsAsExported | frontend/src/utils/csv.ts:10-35 | a reader gets the five column names, then date, type, token, amount and hash of each transaction in that order, behind an apostrophe exactly when they start like a formula |
| Csv.EncodedExactly | frontend/src/utils/csv.ts:24-30 | a field is quoted exactly when it holds a quote, a comma or a line break |
| Csv.PlainExport | frontend/src/utils/csv.ts:10-35 | a transaction with nothing to quote or guard is its five fields between commas, on a line below the column names |
| Csv.NoParsedCellIsAFormula | frontend/src/utils/csv.ts:17-23 | no cell a reader gets starts with `=`, `+`, `-`, `@`, tab or CR |
| Csv.GuardCollidesIff | frontend/src/utils/csv.ts:21-23 | two texts look alike after guarding exactly when one is the other, a formula, with an apostrophe in front |

## Left out

- An uninitialised factory: the constructor is atomic here, so `StateNotFound` and `AlreadyInitialized` cannot occur.
- Soroban host details: TTL extension and archival, signatures behind `require_auth` (an authorised caller is an argument), wasm deployment and hashing, resource budgets. Deployed addresses are injective in deployer and salt, and deploying twice fails.
- `created_at`, view getters, string length limits beyond those the creation gates check, the test-only token seeding entrypoint, and event payloads other than fee redirects.
- Re-entry through entrypoints that do not check the lock: the host refuses it, the contract does not.
- Old-shape state records: the state has the current fields when `migrate` runs.
- Mints made directly on a token contract by its creator: only what the factory issues is counted.
- FactoryBatch.BatchEqualsSingles: the two worlds agree on everything stored but not on the order of external effects, which differs.
- FactoryMigrationRuns.MigrationOverRun: covers runs that create no token, where the number of calls is fixed; with creations in between the cursor still moves 20 a call towards a count that has grown, and no exact number is stated.
- Ingest.RunSteadyState: being cut short stands for every failure; the recorded error text, run time, ledger and lag fields are not modelled.
- Ingest.RunsUnderCrashes: covers the event phase; back-fill between its runs rewrites rows from the chain, so the tables then agree only in what `IngestConvergence.RunIngest` and `PinSafety.RunKeepsTracked` say of them.
- IngestConvergence.RunIngest: assumes a chain whose reader resolves every index up to the token count and events and stored rows that agree with it; rows stored under index 0 are outside that.
- `upsertEvents`, `listEvents`, the Postgres store, Soroban RPC and the readiness check behind the deletion gate.
- The order of rows with equal indices among themselves, and string cursors: a cursor is a number here.
- Reconciliation.RunReconciliation: takes the pin listing as one result, so paging through the Pinata account is not modelled; the breaker's ratio is compared over reals.
- Image CIDs inside metadata JSON and URIs with a path after the CID are not in the reference set, and nothing is claimed about them.
- RateLimit.WindowBound: holds for sequential traces with a clock that does not run backwards; concurrent interleavings of the read and the write are not modelled, nor is parsing the limits from the environment. An entry is gone from the instant its lifetime ends.
- ImageFile.Validate: takes the declared type already folded to lower case.
- FactoryContract.Factory.CreateToken: counts the length of names, symbols and URIs in characters, where the contract counts bytes.
- React components, contexts, hooks, authentication, challenge and token cryptography, and deployment scripts.
