# The clearing core, verified

A Dafny model of MoleOption's clearing: the money arithmetic, the dormant bucket store with its eager
and lazy distributions, the two-sided clearing engine, the account runtime that mirrors the chain, the
indexer that replays its events, and three parts around them: Base58 and `${VAR}` decoding of the
market registry, and the keeper's leader lease.

Everything is stated twice. The functions (`Dormant`, `Engine`, `Onchain`, `ChainMirror`, `Indexer`)
say what each operation does to a value; the classes (`DormantStore`, `PoolObject` and `SubPoolObject`,
`ChainRuntime`, `IndexerState`, `KeeperLeaderLock`) do it as the source does, by loops and assignments
to fields, and every method is proved to leave exactly the state, result and error of its function. The
results are proved about the functions, over all inputs and all runs:

- **The store.** Lazy and eager distributions are the same store seen from outside, for any mix of
  replays and compactions (`DormantRefinement`, `DormantRuns`, `DormantCompaction`). The common
  reference is a store without ledger, to which every bucket, once caught up, corresponds. The two
  modes part only where the ledger is full, and `CapacityParts` says when.
- **The engine.** Pool totals are sums over the positions, buckets are backed by the positions rotated
  into them, value is conserved, and no run-time check can fail (`EngineInvariant` to `EngineRuns`).
  With a full drain between operations, a lazy and an eager engine are in lockstep (`EngineModes`).
- **The runtime.** Every instruction is atomic and keeps the vault equal to what the accounts answer
  for (`ChainRuns`, `ChainVault`), with one exception: a strict sync whose write-back lacks a slot is not
  rolled back. `ChainStrict` says exactly when that leaves accounts changed, from the state before the
  call, `ChainTorn` reaches it from a new runtime, and runs that initialise their ticks first avoid it.
- **The indexer.** Fed only with events, it mirrors every sub pool after every such run
  (`IndexerChain`), and cannot overflow in fewer than 2^32 instructions (`IndexerBounds`).
- **The amounts.** What a bucket is worth, what a sync moves, where a rotation files, what an open
  charges, what leaving releases, what crosses the vaults and what each indexer view is credited are also
  stated to the unit, as inequalities between products that name none of the functions above
  (`DormantTerms`, `EngineTerms`, `EngineLeaving`, `EngineBands`, `ChainTerms`, `IndexerTerms`).
- **The lease.** At most one keeper leads at any slot, unless a release reports a slot in the past
  (`LeaderLock`).

Arithmetic on 128-bit amounts is modelled with its overflow checks; a `HashMap` or `BTreeMap` is a map,
and loops over one take their keys in any order unless the source sorts them. Clocks, prices and
environment variables are parameters. `dafny verify dfyconfig.toml` checks the whole project.

Where code and documentation disagree the model follows the code: the header of
`crates/clearing-core/src/dormant.rs:13-18` says that every eager distribution moves all replay indices
to the head of the ledger, while only the activated buckets move (`DormantTerms.DistributionTouches`).

## Model

| member | source | states |
|---|---|---|
| MoleMath.ComputeMulDivFloor | crates/molemath/src/lib.rs:54-59 | returns the exact floor of `a * b / d` for all 128-bit operands; `DivByZero` exactly for `d = 0`, `Overflow` exactly when the floor needs more than 128 bits |
| MoleMath.ComputeMulDivCeil | crates/molemath/src/lib.rs:62-67 | the same for the ceiling |
| MoleMath.MulToU256 | crates/molemath/src/lib.rs:102-129 | the two 128-bit limbs are the exact 256-bit product, and none of the 128-bit additions on the way overflows |
| MoleMath.Div256 | crates/molemath/src/lib.rs:134-161 | the shift-subtract loop returns the quotient and remainder of a 256-bit number, and fails exactly when the quotient needs more than 128 bits |
| MoleMath.PnlSigns | crates/molemath/src/lib.rs:185-214 | a price move never gives both sides a gain, and gives them opposite amounts when their notionals agree |
| MoleMath.PnlIsExact | crates/molemath/src/lib.rs:185-214 | the increment is `notional * |move| / old price` rounded towards zero, with the sign of the move as the direction sees it; it fails exactly without an old price or beyond 127 bits |
| MoleMath.PriceMoveIsExact | crates/molemath/src/lib.rs:221-232 | the move in basis points of the old price is rounded down to the unit, and fails exactly beyond 64 bits |
| DormantStoreModule.DormantStore.InsertOrMergeBucket | crates/clearing-core/src/dormant.rs:380-421 | drains an existing bucket before adding to it, else inserts at the head of the ledger; new state and every error as `Dormant.InsertOrMerge`, which `InsertOrMergeRefines` relates to a store without ledger |
| DormantStoreModule.DormantStore.TotalOutstandingClaimAt | crates/clearing-core/src/dormant.rs:427-452 | the sum of the outstanding claims of the activated buckets, or an overflow exactly when a claim or the sum needs more than 128 bits; `DormantTerms.TotalClaimIs` says in plain arithmetic what that sum is |
| DormantStoreModule.DormantStore.DistributeEager | crates/clearing-core/src/dormant.rs:465-610 | the whole new state, receipt and errors of an eager distribution: room, drain of the activated buckets, floored shares, residual, logged event |
| DormantStoreModule.DormantStore.DistributeLazy | crates/clearing-core/src/dormant.rs:642-771 | the same for a lazy distribution, which credits nothing and adds to the in-flight total |
| DormantStoreModule.DormantStore.ApplyPendingToAll | crates/clearing-core/src/dormant.rs:778-785 | every bucket caught up, the credited and the in-flight total moved by what was owed |
| DormantStoreModule.DormantStore.PendingForBucket | crates/clearing-core/src/dormant.rs:804-855 | exactly what replaying the unapplied events would credit; none of its checks can fail on a well-formed store |
| DormantStoreModule.DormantStore.ApplyPendingToBucket | crates/clearing-core/src/dormant.rs:872-946 | the replay loop with all its checks, event by event, and the number of events applied |
| DormantStoreModule.DormantStore.CompactLedger | crates/clearing-core/src/dormant.rs:956-971 | drops exactly the prefix below the lowest replay index, and reports its length |
| DormantStoreModule.DormantStore.CheckInvariants | crates/clearing-core/src/dormant.rs:1024-1065 | succeeds if and only if no index, total or window disagrees and no sum overflows |
| DormantStoreModule.DormantStore.RedeemShares | crates/clearing-core/src/dormant.rs:1079-1131 | drains the bucket, then pays and burns in proportion, removing an emptied bucket; every error; `DormantTerms.RedemptionPays` bounds each part to the unit |
| DormantStoreModule.DormantStore.TotalRecoveryShares | crates/clearing-core/src/dormant.rs:360-365 | the sum of the shares of all buckets |
| DormantInvariant.CaughtUpIs | crates/clearing-core/src/dormant.rs:872-946 | replaying any number of logged events credits a bucket the share of the oldest one alone, because later ones never activated it |
| DormantInvariant.ApplyKeysRefines | crates/clearing-core/src/dormant.rs:872-946 | catching up any set of buckets keeps the invariant, changes no view, moves value from in flight to credited and makes none |
| DormantInvariant.CheckStoreIs | crates/clearing-core/src/dormant.rs:1024-1065 | on every store that keeps the invariant the run-time check finds no discrepancy; only the sum of the ledger window can be too large |
| DormantInvariant.PendingWithinWindow | crates/clearing-core/src/dormant.rs:1024-1065 | what is in flight never exceeds what the live ledger window set aside |
| DormantRefinement.DistributeRefines | crates/clearing-core/src/dormant.rs:465-771 | in either mode a distribution does to the view what the ledger-free store does and returns its receipt; it fails where that succeeds only for ledger room, 128-bit totals or event indices |
| DormantRefinement.InsertOrMergeRefines | crates/clearing-core/src/dormant.rs:380-421 | a merge does to the view what the ledger-free store does, errors included |
| DormantRefinement.RedeemRefines | crates/clearing-core/src/dormant.rs:1079-1131 | a redemption pays from the view what the ledger-free store pays, errors included |
| DormantRuns.StepRefines | crates/clearing-core/src/dormant.rs:380-1131 | one operation in any mode keeps the invariant and agrees with the ledger-free store on view, receipt, payout and error, unless the ledger had no room |
| DormantRuns.RunRefines | crates/clearing-core/src/dormant.rs:380-1131 | so does every run of merges, distributions in either mode, redemptions, replays and compactions, overflows included |
| DormantRuns.LazyRefinesEager | crates/clearing-core/src/dormant.rs:465-771 | two runs of the same issued operations, with any modes, replays and compactions, show their callers the same receipts, payouts and errors and end with the same view; only a ledger capacity rejection is excluded, and overflows agree when the money fits 128 and the events fit 64 bits |
| DormantRuns.LazyMatchesEager | crates/clearing-core/src/dormant.rs:465-771 | the same from the inputs alone: money below 2^128, events below 2^64, ledgers that can hold the events |
| DormantRuns.EagerBucketIsLazyPlusPending | crates/clearing-core/src/dormant.rs:465-855 | bucket by bucket, what an eager run has credited is what a lazy run has credited plus what it still owes, and all other fields but the replay index are equal |
| DormantRuns.InFlightIsExact | crates/clearing-core/src/dormant.rs:642-1065 | after any run from an empty store the tracked in-flight total is the sum of what the buckets are owed, lies within the ledger window, and the credited total is exact |
| DormantRuns.RoomIsLag | crates/clearing-core/src/dormant.rs:956-971 | the ledger has room for an event, if need be after compaction, exactly when no bucket lags by the capacity or more |
| DormantInvariant.DrainThenCompact | crates/clearing-core/src/dormant.rs:956-971 | once every bucket is caught up, a compaction empties the ledger |
| DormantRuns.DrainingMakesRoom | crates/clearing-core/src/dormant.rs:778-785 | draining all buckets clears every capacity rejection |
| DormantRuns.ModesPartAtCapacity | crates/clearing-core/src/dormant.rs:493-515 | with room for one event a second lazy distribution to the same buckets is always turned away, the eager one never |
| DormantRuns.CapacityParts | crates/clearing-core/src/dormant.rs:465-771 | that disagreement is reached from an empty store, whatever the bucket, price and amount: a merge and two distributions, the last rejected in lazy mode and paid in eager mode |
| DormantRuns.CapacityPartsForOneShare | crates/clearing-core/src/dormant.rs:465-771 | a concrete instance: one share anchored at 1, paid one unit at price 2 |
| DormantCompaction.RoomAgrees | crates/clearing-core/src/dormant.rs:956-971 | compacting neither makes nor takes ledger room |
| DormantCompaction.CompactionIsInvisible | crates/clearing-core/src/dormant.rs:956-971 | compacting first changes no later outcome, rejections included, and no bucket, total, event counter, view or pending share, after any run |
| DormantCompaction.GcNeverMatters | crates/clearing-core/src/dormant.rs:956-971 | compactions may be inserted or left out anywhere in a run |
| DormantClaims.DistributionBounds | crates/clearing-core/src/dormant.rs:465-771 | a distribution pays at most what was allocated, leaves less than one unit per claimant when the claims are not covered, and pays all claims in full when they are |
| DormantClaims.HoldersReceiveEverything | crates/clearing-core/src/dormant.rs:1079-1131 | when the holders of a bucket redeem one after the other, in any portions, they receive together exactly what it had accrued, all its notional is burned, and the bucket is gone |
| DormantClaims.RedeemProtectsOthers | crates/clearing-core/src/dormant.rs:1079-1131 | a redemption never lowers what is left per share |
| DormantClaims.ClaimsMonotone | crates/clearing-core/src/dormant.rs:115-141 | the total claim never falls when the price moves in its favour |
| DormantTerms.TotalClaimIs | crates/clearing-core/src/dormant.rs:115-141 | the total claim is the sum, over all buckets, of `notional * favourable move / anchor` rounded down, less what was credited: nothing where the price has not moved in favour; it overflows exactly when a worth or the sum does |
| DormantTerms.DistributionPays | crates/clearing-core/src/dormant.rs:465-771 | with enough funds, in either mode, every bucket of the view is credited exactly what it is due; otherwise its proportional part rounded down; nothing else of it changes |
| DormantTerms.DistributionTouches | crates/clearing-core/src/dormant.rs:465-771 | a distribution leaves every bucket untouched that the price has not moved in favour of, and only in eager mode moves the others past the new event |
| DormantTerms.MergeAdds | crates/clearing-core/src/dormant.rs:380-421 | a merge is refused for the cap exactly when it would make one bucket too many; otherwise it adds exactly the shares, notional and count to the one bucket, which keeps anchor and accrual |
| DormantTerms.RedemptionPays | crates/clearing-core/src/dormant.rs:1079-1131 | redeeming succeeds exactly for shares the bucket has; the accrual and the notional released are `burn / shares` of what was there, rounded down, the rest stays, and the last shares take all |
| DormantTerms.OthersKeepTheirPart | crates/clearing-core/src/dormant.rs:1079-1131 | after any number of holders redeemed in turn, those who stay have per share no less accrual and notional than before, and together at most one unit more for each redemption |
| Onchain.PackDormantStore | crates/clearing-core/src/onchain.rs:257-316 | the records in tick order and the ledger record of a store, or the capacity error |
| Onchain.UnpackDormantStore | crates/clearing-core/src/onchain.rs:323-404 | every check of the unpacking and of `from_onchain_parts` in the order of the source, and the rebuilt store |
| Onchain.RoundTrip | crates/clearing-core/src/onchain.rs:257-404 | unpacking what was packed gives the store back, with any dead slots in between |
| Onchain.UnpackAccepts | crates/clearing-core/src/onchain.rs:323-404 | whatever unpacking accepts is well formed: gapless entries, one direction, each live slot a bucket of its own field by field and every bucket from a slot, totals as recorded, and the run-time checks pass |
| EngineObject.PoolObject.PayRecovery | crates/clearing-core/src/engine.rs:258-279 | the dormant part of a transfer: distributed over the buckets, the residual kept as dust |
| EngineObject.PoolObject.RotateActiveToRecovery | crates/clearing-core/src/engine.rs:403-460 | moves all active shares and notional into the bucket of the price and closes the generation with a record; `EngineTerms.SyncFiles` says which bucket that is |
| EngineObject.PoolObject.FindRotateRecord | crates/clearing-core/src/market.rs:298-310 | the first record of a generation |
| EngineObject.PoolObject.LazyMigratePosition | crates/clearing-core/src/engine.rs:467-500 | moves a position of an ended generation to the bucket its record names |
| EngineObject.SubPoolObject.CheckInvariants | crates/clearing-core/src/invariants.rs:12-70 | both zero-iff conditions, both share sums and both store checks, first failure first |
| EngineObject.SubPoolObject.MeasureDemand | crates/clearing-core/src/engine.rs:194-244 | what each side asks of the other when the price moves, active and in total; `EngineTerms.DemandIs` says how much that is |
| EngineObject.SubPoolObject.TransferTo | crates/clearing-core/src/engine.rs:246-322 | the paying side is charged the demand or all it has; the receiver gets the proportional active part and its buckets the rest |
| EngineObject.SubPoolObject.SyncPool | crates/clearing-core/src/engine.rs:141-397 | the whole sync: guards, settlement, rotations, check and events; new state and every error |
| EngineObject.SubPoolObject.OpenPosition | crates/clearing-core/src/engine.rs:608-745 | the whole open with its fee, mint and dust; `EngineTerms.OpenCharges` says how much each of them is |
| EngineObject.SubPoolObject.ClosePosition | crates/clearing-core/src/engine.rs:777-875 | the whole close, active and recovery part |
| EngineObject.SubPoolObject.ForceCloseZeroValuePosition | crates/clearing-core/src/engine.rs:878-980 | the whole forced close, with what is forfeited to dust |
| EngineObject.SubPoolObject.ClaimDormantRecovery | crates/clearing-core/src/engine.rs:988-1043 | the whole recovery claim |
| EngineObject.SubPoolObject.PreSyncDormantBucket | crates/clearing-core/src/engine.rs:519-591 | the catch-up of one bucket within the budget, and the events applied |
| EngineObject.SubPoolObject.HarvestDust | crates/clearing-core/src/engine.rs:1064-1086 | the dust of one side is taken out |
| EngineSync.OneSidedDemand | crates/clearing-core/src/engine.rs:194-244 | in any sync at most one side asks for funds, whatever is floored, saturated or activated; so the exclusive arms of the transfer lose nothing |
| EngineSync.SyncKeepsWorld | crates/clearing-core/src/engine.rs:141-397 | a sync keeps every pool total a sum over the positions and every bucket backed by the positions rotated into it, and no run-time check inside it fails |
| EnginePositions.SyncConserves | crates/clearing-core/src/engine.rs:141-397 | a sync neither makes nor loses value: equities, buckets, in-flight amounts and dust add up to the same |
| EngineTerms.SyncRefuses | crates/clearing-core/src/engine.rs:141-181 | which guard turns a sync away, in their order, the move limit as an inequality in whole basis points |
| EngineTerms.DemandIs | crates/clearing-core/src/engine.rs:194-244 | the favoured side asks for `notional * move / old price` rounded down for its pool, and on top of that for the rise of what its buckets are due; the other side asks for nothing |
| EngineTerms.SyncPays | crates/clearing-core/src/engine.rs:194-322 | every sync to another price: the payer gives that demand or all it has, the winning pool receives `active / total` of it rounded down, and both equities and the dust move by exactly that |
| EngineTerms.PlainSyncPays | crates/clearing-core/src/engine.rs:194-322 | without buckets on the favoured side the whole payment, the exact gain capped by the funds of the payer, goes to its pool |
| EngineTerms.SyncCredits | crates/clearing-core/src/engine.rs:258-279 | the buckets of the favoured side are credited their cuts of what is paid for them |
| EngineTerms.TickIsBand | crates/clearing-core/src/engine.rs:593-600 | a tick `t` is the number of the band its price lies in, `t * width <= price < (t + 1) * width` with the width `price_tick * aggregation`; from 2^63 on it wraps to `t - 2^64` |
| EngineTerms.TicksAgree | crates/clearing-core/src/engine.rs:593-600 | two prices get one tick exactly when they lie in one band |
| EngineTerms.SyncFiles | crates/clearing-core/src/engine.rs:345-460 | a sync rotates a side exactly when it paid away all its equity; the shares and notional then rest in the bucket of the band of the new price, which keeps its anchor if it was there, and record and event carry that tick |
| EngineTerms.OpenCharges | crates/clearing-core/src/engine.rs:608-745 | every successful open: the fee is `gross * open_fee_bps / 10000` rounded up, the rest within the margin limits, the notional its leverage rounded down, the shares what it pays for rounded down, and the pool grows by exactly that |
| EngineTerms.OpenRefuses | crates/clearing-core/src/engine.rs:608-680 | which check turns an open away, in terms of the fee the amount would cost |
| EngineTerms.MigrationIs | crates/clearing-core/src/engine.rs:467-500 | a position of an ended generation moves all active shares to the bucket that generation was filed in and remembers its price; others only follow the generation |
| EngineTerms.PreSyncCatchesUp | crates/clearing-core/src/engine.rs:519-591 | a pre-sync is refused for its budget exactly when the bucket lags by more events; else the bucket is caught up completely |
| EngineTerms.ChecksCatch | crates/clearing-core/src/invariants.rs:12-70 | any one book of a passing sub pool put out of step with the rest makes the run-time checks fail |
| EngineLeaving.CloseReleases | crates/clearing-core/src/engine.rs:777-875 | a close pays the active shares their part of the equity and the recovery shares what their bucket releases, both rounded down, and takes exactly that from the side |
| EngineLeaving.ForceCloseReleases | crates/clearing-core/src/engine.rs:878-980 | a forced close burns active shares only when their part of the equity rounds to nothing, and what the bucket releases stays as dust |
| EngineLeaving.ClaimReleases | crates/clearing-core/src/engine.rs:988-1043 | a claim pays what the bucket releases and touches nothing else |
| EngineLeaving.LeavingRefuses | crates/clearing-core/src/engine.rs:777-1043 | which check turns a close, a forced close or a claim away, in their order |
| EngineBands.StepKeepsBands | crates/clearing-core/src/engine.rs:141-1086 | every operation keeps each bucket under the tick of its anchor and each ended generation logged with the tick of its price |
| EngineBands.OneBucketOneBand | crates/clearing-core/src/engine.rs:593-600 | so two generations of a side rest in one bucket exactly when they ended at prices of one band |
| EngineRuns.StepKeepsWorld | crates/clearing-core/src/engine.rs:141-1086 | every operation keeps that population, accounts for every unit that enters or leaves, and can fail a run-time check only for a missing tick size or a force-close of a position with value |
| EngineClaims.OpenProtectsHolders | crates/clearing-core/src/engine.rs:643-692 | an open never raises the value per share and costs the prior holders together less than one unit |
| EngineClaims.CloseProtectsHolders | crates/clearing-core/src/engine.rs:777-875 | a close never lowers the value per share of those who stay |
| EngineClaims.OpenThenClose | crates/clearing-core/src/engine.rs:608-875 | opening and closing at one price pays exactly what was credited and restores equity, shares, notional and stores; the close fails exactly when nothing was credited |
| EngineModes.StepModes | crates/clearing-core/src/engine.rs:141-1086 | one operation on the same sub pool in either mode, whatever is pending: the same error, or the same effect, positions, ledgers and views |
| EngineModes.ModesAgree | crates/clearing-core/src/engine.rs:141-1086 | with a full drain after every operation two engines that differ only in their mode are in lockstep: every reply, effect or error, and the final state are equal; refused operations change nothing and the run goes on |
| EngineModes.LazyEngineIsEager | crates/clearing-core/src/engine.rs:141-1086 | from a fresh sub pool that holds for every run of at most 2^64 operations, whatever the amounts, prices and capacities |
| EngineModes.PreSyncIsNil | crates/clearing-core/src/engine.rs:519-591 | on a drained sub pool a pre-sync changes nothing |
| Capacity.StepStored | crates/clearing-core/src/engine.rs:141-1086 | every successful operation leaves both stores within the bucket and ledger capacities and past the checks, so they can be written back |
| ChainAccounts.BuildIs | crates/chain-mirror/src/lib.rs:582-671 | a sub pool written to its accounts is rebuilt exactly |
| ChainAccounts.WriteIs | crates/chain-mirror/src/lib.rs:673-835 | a write-back stores the sub pool and touches nothing else; it fails exactly in strict mode when a bucket has no slot |
| ChainAccounts.RestoreUndoes | crates/chain-mirror/src/lib.rs:840-882 | restoring a snapshot undoes every write to the accounts of its sub pool |
| ChainObject.ChainRuntime.Sync | crates/chain-mirror/src/lib.rs:887-904 | rebuild, sync, write back; the snapshot is restored on an engine error but not on a failed write-back |
| ChainObject.ChainRuntime.Open | crates/chain-mirror/src/lib.rs:907-963 | the open handler: id counter, vault, fee vault, rollback |
| ChainObject.ChainRuntime.Close | crates/chain-mirror/src/lib.rs:966-1020 | the close handler: payout, rollback |
| ChainObject.ChainRuntime.ForceClose | crates/chain-mirror/src/lib.rs:1023-1073 | the forced-close handler |
| ChainObject.ChainRuntime.ClaimRecovery | crates/chain-mirror/src/lib.rs:1076-1127 | the claim handler |
| ChainObject.ChainRuntime.HarvestDust | crates/chain-mirror/src/lib.rs:1130-1155 | the harvest handler |
| ChainObject.ChainRuntime.PreSyncBucket | crates/chain-mirror/src/lib.rs:1158-1194 | the pre-sync handler |
| ChainObject.ChainRuntime.PreInitDormantBucket | crates/chain-mirror/src/lib.rs:333-358 | creates a dead slot once |
| ChainObject.ChainRuntime.CloseDormantBucket | crates/chain-mirror/src/lib.rs:369-403 | closes a slot only when it is dead and has nothing pending |
| ChainObject.ChainRuntime.AddSubPool | crates/chain-mirror/src/lib.rs:497-515 | empty accounts for a sub pool; an id in use is overwritten |
| ChainObject.ChainRuntime.CheckVaultDecomposition | crates/chain-mirror/src/lib.rs:552-574 | true exactly when the vault is the sum of equities, accruals, in-flight amounts and dust; always true on coherent accounts |
| ChainRuns.ExecuteIs | crates/chain-mirror/src/lib.rs:887-1194 | every instruction keeps the runtime coherent and is atomic, the failed write-back of a strict sync excepted; no vault underflow and no missing ledger can occur |
| ChainRuns.RunKeeps | crates/chain-mirror/src/lib.rs:887-1194 | every state reached by a run without such a sync is coherent |
| ChainRuns.LooseIsClean | crates/chain-mirror/src/lib.rs:744-770 | in loose mode there is no such sync |
| ChainVault.VaultDecomposition | crates/chain-mirror/src/lib.rs:552-574 | in every coherent state the vault is exactly the equities, accruals, in-flight amounts and dust, and deposits are withdrawals plus vault plus fee vault |
| ChainVault.LooseRunsAreSolvent | crates/chain-mirror/src/lib.rs:552-574 | so after every run of the loose runtime |
| ChainVault.ReaddingLosesFunds | crates/chain-mirror/src/lib.rs:497-515 | adding a sub pool under an id in use breaks the decomposition by exactly what is overwritten |
| ChainTerms.OpenMoves | crates/chain-mirror/src/lib.rs:907-963 | an open puts the fee, `gross * open_fee_bps / 10000` rounded up, into the fee vault and the rest into the vault, and stores the position under the next id |
| ChainTerms.CloseMoves | crates/chain-mirror/src/lib.rs:966-1020 | a close pays exactly the withdrawable value out of the vault and moves nothing else |
| ChainTerms.ClaimMoves | crates/chain-mirror/src/lib.rs:1076-1127 | so does a claim with what it redeems |
| ChainTerms.HarvestMoves | crates/chain-mirror/src/lib.rs:1130-1155 | a harvest moves the dust of the side from the vault to the fee vault |
| ChainTerms.OthersMoveNothing | crates/chain-mirror/src/lib.rs:887-1194 | no other instruction moves anything between the vaults |
| ChainTerms.HandleShows | crates/chain-mirror/src/lib.rs:673-835 | after an engine instruction the account of the sub pool shows its new books, field by field |
| ChainTerms.SlotCloses | crates/chain-mirror/src/lib.rs:369-403 | a slot closes exactly when all its value fields are zero and it has no logged event to catch up with |
| ChainTerms.SlotOpens | crates/chain-mirror/src/lib.rs:333-358 | a slot is created exactly when its sub pool is known and it is not there, with all fields zero |
| ChainTerms.RebuiltByBand | crates/chain-mirror/src/lib.rs:887-1194 | after every clean run whatever a sub pool is rebuilt to has its buckets and rotate logs filed by band |
| ChainStrict.StrictSyncAtomicity | crates/chain-mirror/src/lib.rs:887-904 | from the accounts before the call: an accepted strict sync fails exactly when it rotates a side into a tick without slot, and has then changed accounts exactly when that side is the short one and the long buckets are due a payment |
| ChainStrict.ProvisionedIsClean | crates/chain-mirror/src/lib.rs:774-834 | a strict run in which every sync finds the tick of its price initialised on both sides has no half-written sync |
| ChainStrict.ProvisionedRunKeeps | crates/chain-mirror/src/lib.rs:774-834 | so it only reaches coherent states |
| ChainTorn.TornSync | crates/chain-mirror/src/lib.rs:887-904 | the failure is reachable: for every twofold market, margin and price, five instructions from a new runtime lead to a sync that fails with accounts changed |
| ChainTorn.TornSyncExample | crates/chain-mirror/src/lib.rs:887-904 | a concrete instance: margin 1, prices 2, 1, 2 |
| IndexerObject.IndexerState.ApplyOpen | crates/indexer/src/lib.rs:450-485 | the view of a new position |
| IndexerObject.IndexerState.ApplyPoolSync | crates/indexer/src/lib.rs:487-568 | all four legs of a sync event in order |
| IndexerObject.IndexerState.DistributeActiveProfit | crates/indexer/src/lib.rs:570-601 | every active view of the side gets its floored share; errors of the loop |
| IndexerObject.IndexerState.DistributeActiveLoss | crates/indexer/src/lib.rs:603-650 | every active view bears its share, profit first, capped at the principal |
| IndexerObject.IndexerState.DistributeRecoveryProfit | crates/indexer/src/lib.rs:652-725 | activated buckets and the views resting in them get their shares of the inflow |
| IndexerObject.IndexerState.ApplyRotate | crates/indexer/src/lib.rs:727-784 | active views of the ended generation rest in the bucket |
| IndexerObject.IndexerState.ApplyLeave | crates/indexer/src/lib.rs:786-856 | a position leaves by a close or a forced close |
| IndexerObject.IndexerState.ApplyClaim | crates/indexer/src/lib.rs:858-886 | a recovery claim |
| IndexerObject.IndexerState.BurnFromBucket | crates/indexer/src/lib.rs:894-920 | a bucket view loses shares, notional and value, and goes when empty |
| IndexerObject.IndexerState.Apply | crates/indexer/src/lib.rs:417-436 | the dispatch of an event |
| IndexerObject.IndexerState.ApplyAll | crates/indexer/src/lib.rs:439-444 | a list of events, stopped at the first error |
| IndexerRuns.StepReplayed | crates/indexer/src/lib.rs:417-436 | replaying the events of any engine operation makes the indexer mirror the new sub pool and positions; only a profit counter at 2^128 can stop it |
| IndexerTerms.SyncSpreads | crates/indexer/src/lib.rs:487-725 | replaying a sync, each holder gains or loses its part of the flow rounded down, profit used up before margin, each resting view its part of what its bucket received, and the holders together get what the pool received up to less than one unit each |
| IndexerTerms.ClaimTakes | crates/indexer/src/lib.rs:858-886 | a claim lowers the profit of its view by what was paid, never below zero, and touches no other view |
| IndexerChain.IndexerMirrorsRuns | crates/indexer/src/lib.rs:417-444 | fed the events of every successful instruction of a clean run, the indexer mirrors every sub pool as its accounts stand |
| IndexerChain.IndexerMirrorsLooseRuns | crates/indexer/src/lib.rs:417-444 | in particular of every loose run |
| IndexerBounds.InflowBound | crates/indexer/src/lib.rs:487-568 | what all syncs of a run report is at most the deposits times the number of instructions |
| IndexerBounds.IndexerKeepsUp | crates/indexer/src/lib.rs:417-444 | so if that is below 2^128 the replay never fails |
| IndexerBounds.IndexerKeepsUpWithLooseRuns | crates/indexer/src/lib.rs:417-444 | no loose run of fewer than 2^32 instructions can make it fail |
| IndexerBounds.IndexerKeepsUpWithProvisionedRuns | crates/indexer/src/lib.rs:417-444 | nor a strict run whose syncs find their slots |
| Base58.Base58Decode | crates/keeper-rpc/src/market_registry.rs:614-653 | the in-place carry loop computes the base-256 digits of the number, one zero byte per leading 1, or names the first bad character |
| Base58.DecodeEncoded | crates/keeper-rpc/src/market_registry.rs:614-653 | decoding what the reference encoder wrote gives the bytes back, for all bytes |
| Base58.EncodeDecoded | crates/keeper-rpc/src/market_registry.rs:614-653 | encoding what was decoded gives the text back, for every text without whitespace that decodes |
| Base58.WhitespaceIgnored | crates/keeper-rpc/src/market_registry.rs:614-653 | whitespace is passed over wherever it stands |
| Base58.AlphabetIs | crates/keeper-rpc/src/market_registry.rs:611-619 | the alphabet is exactly the ASCII letters and digits without 0, O, I and l, in ascending order |
| Base58.DecodesExactly | crates/keeper-rpc/src/market_registry.rs:614-653 | a text decodes exactly when all its characters are of that alphabet or whitespace |
| EnvSubstitution.SubstituteEnvVars | crates/keeper-rpc/src/market_registry.rs:293-363 | the byte loop never cuts a character and computes the expansion, or the first error with its offset |
| EnvSubstitution.DoubledRoundTrip | crates/keeper-rpc/src/market_registry.rs:293-363 | expanding a text whose dollars were doubled gives the text back |
| EnvSubstitution.TemplateRoundTrip | crates/keeper-rpc/src/market_registry.rs:293-363 | expanding a rendered template of literals and references gives its value under the lookup |
| EnvSubstitution.VarNamesAre | crates/keeper-rpc/src/market_registry.rs:365-377 | a name is valid exactly when it is a non-empty ASCII word that does not start with a digit |
| EnvSubstitution.BadReference | crates/keeper-rpc/src/market_registry.rs:293-363 | a reference with an empty or invalid name is that error, at the offset of its dollar |
| LeaderLock.KeeperLeaderLock.TryHeartbeat | crates/keeper-decoder/src/leader_lock.rs:240-287 | the new lock and outcome; a rejected heartbeat changes nothing |
| LeaderLock.KeeperLeaderLock.TryRelease | crates/keeper-decoder/src/leader_lock.rs:299-316 | the new lock and outcome; a rejected release changes nothing |
| LeaderLock.LeasesAreOrdered | crates/keeper-decoder/src/leader_lock.rs:240-316 | in every run whose releases never report an earlier slot, each lease is over before the next begins |
| LeaderLock.OneLeaderAtATime | crates/keeper-decoder/src/leader_lock.rs:240-316 | at any slot at most one lease is in force |
| LeaderLock.HolderHasTheLease | crates/keeper-decoder/src/leader_lock.rs:128-143 | the lock reports a holder exactly when that holder has the lease in force |
| LeaderLock.ReleaseMustNotRegress | crates/keeper-decoder/src/leader_lock.rs:299-316 | a release keeps that order for whatever heartbeat follows if and only if its slot is not behind the recorded one, which the source does not check |
| LeaderLock.PredictionIsExact | crates/keeper-decoder/src/leader_lock.rs:343-355 | a bot that predicts it should submit becomes leader exactly when its slot is not behind the recorded one |
| LeaderLock.BackoffIsExact | crates/keeper-decoder/src/leader_lock.rs:240-287 | a rejected keeper is told exactly how long it stays rejected |

## Left out

- ChainTorn.TornSync: shows one family of torn runs; which syncs tear in general is `ChainStrict.StrictSyncAtomicity`.
- ChainRuns.RunKeeps: a sub pool is added once per run; adding an id in use is accepted by `add_sub_pool` and overwrites live accounts, which `ChainVault.ReaddingLosesFunds` describes.
- ChainRuns.ExecuteIs: a sync, open or harvest of an unknown sub pool panics in the source when its snapshot is taken and is not an instruction of the model.
- IndexerChain.IndexerMirrorsRuns: says of the indexer's profit and locked loss only that they stay in range, since its per-position floors are not those of the engine's pool shares; what one sync adds to them is `IndexerTerms.SyncSpreads`. `equity` and `remaining_margin` of a view are not modelled.
- DormantRuns.LazyRefinesEager: excludes ledger capacity rejections, where the modes do part.
- EngineModes.ModesAgree: drains all buckets between operations; without that `EngineModes.StepModes` still gives the agreement of each single operation.
- The 32- and 64-bit counters other than the event index (generations, position and sub pool ids, bucket counts of a sub pool) and the 128-bit vault counters are unbounded naturals.
- The direction and price tick stored inside a bucket are its place in the store.
- A failed operation of a store, engine or indexer object leaves its fields unspecified, as the runtime discards or restores them; the runtime's own failures are exact.
- Several checks with messages of their own share one error value: the drifts found by `check_invariants`, the two sides of the zero-iff and share-sum checks.
- `rewind_bucket_for_replay_test` and other test helpers.
- Governance: pausing, freezing, schema bumps and the migration of positions to a new schema; the flags and versions themselves are parameters of a market and fixed during a run.
- Telemetry fields, owners, slots of positions, and the statistics and projections of the indexer.
- The TOML reader of the market registry, its entries and the derivation of program addresses.
- The byte layout of accounts, the on-chain program, RPC and the keeper bots.
