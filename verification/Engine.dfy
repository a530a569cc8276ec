/**
  The clearing engine (crates/clearing-core/src/engine.rs, market.rs, invariants.rs) as functions
  of its state: two directional share pools with their dormant stores, rotated generations and
  lazily migrated positions. `EngineObject` holds the same operations as methods that update
  fields.
*/
module Engine {
  import opened Wrappers
  import opened MoleMath
  import opened Clearing
  import opened Sums
  import opened Dormant

  const SCHEMA_VERSION_CURRENT: nat := 1
  const I64_LIMIT: nat := 0x8000_0000_0000_0000

  /** `MarketParams`, the fields the engine reads. */
  datatype Market = Market(
    leverageBps: nat, minMargin: nat, maxMargin: nat, openFeeBps: nat, maxMoveBps: nat,
    priceTick: nat, aggregation: nat, maxBuckets: nat, mode: Mode, maxPendingApply: nat,
    ledgerCap: nat, dilutionBps: nat, schemaVersion: nat, paused: bool, frozen: bool)

  datatype Envelope = Envelope(pNow: u64, slot: nat, expectedMin: nat, expectedMax: nat)

  datatype RotateRecord = RotateRecord(generation: nat, tick: int, anchor: nat)

  /** One direction of a sub pool; `log[i]` is written when a generation ends. */
  datatype Pool = Pool(
    equity: nat, shares: nat, notional: nat, recovery: nat, dust: nat,
    generation: nat, log: seq<RotateRecord>, store: Store)

  datatype SubPool = SubPool(id: nat, long: Pool, short: Pool, lastPrice: nat, lastSlot: nat) {
    function Side(d: Direction): Pool {
      if d.Long? then long else short
    }

    function With(d: Direction, p: Pool): SubPool {
      if d.Long? then this.(long := p) else this.(short := p)
    }
  }

  datatype Status = Open | Resting | Closed

  datatype Position = Position(
    id: nat, direction: Direction, status: Status, principal: nat, notional: nat,
    active: nat, recovery: nat, tick: Option<int>, zeroPrice: nat, generation: nat, schemaVersion: nat)

  /** What one side receives in a sync to `price`. */
  datatype Flow = Flow(price: nat, toPool: nat, toRecovery: nat, residual: nat)

  datatype EngineEvent =
    | PoolSync(subPool: nat, pNow: nat, longSharesBefore: nat, shortSharesBefore: nat, long: Flow, short: Flow)
    | PositionOpened(subPool: nat, id: nat, direction: Direction, principal: nat, notional: nat,
                     shares: nat, generation: nat)
    | PositionClosed(subPool: nat, id: nat, direction: Direction, activeBurned: nat, recoveryBurned: nat,
                     recoveryNotionalBurned: nat, activeValue: nat, recoveryValue: nat)
    | PositionForceClosed(subPool: nat, id: nat, direction: Direction, activeBurned: nat, recoveryBurned: nat,
                          recoveryNotionalBurned: nat, forfeited: nat)
    | DormantRecoveryClaimed(subPool: nat, id: nat, direction: Direction, tick: int, recoveryBurned: nat,
                             recoveryNotionalBurned: nat, redeemable: nat)
    | ActiveRotatedToRecovery(subPool: nat, direction: Direction, tick: int, anchor: nat, shares: nat,
                              notional: nat, generation: nat)
    | DustHarvested(subPool: nat, direction: Direction, amount: nat)
    | DormantBucketPendingApplied(subPool: nat, direction: Direction, tick: int, applied: nat)

  // ---------------------------------------------------------------- run-time checks

  ghost function CheckPool(p: Pool): ClearingResult<()> {
    if p.recovery != Sum(BucketShares(p.store.buckets)) then Err(Invariant(RecoverySumBroken)) else Ok(())
  }

  /** `check_subpool_invariants`. */
  ghost function CheckSubPool(sp: SubPool): ClearingResult<()> {
    if (sp.long.equity == 0) != (sp.long.shares == 0) then Err(Invariant(ZeroIffBroken))
    else if (sp.short.equity == 0) != (sp.short.shares == 0) then Err(Invariant(ZeroIffBroken))
    else
      var _ :- CheckPool(sp.long);
      var _ :- CheckPool(sp.short);
      var _ :- CheckStore(sp.long.store);
      CheckStore(sp.short.store)
  }

  // ---------------------------------------------------------------- sync

  function SyncGuard(m: Market, env: Envelope): ClearingResult<()> {
    if m.schemaVersion != SCHEMA_VERSION_CURRENT then Err(SchemaVersionMismatch)
    else if m.paused then Err(MarketPaused)
    else if env.pNow == 0 then Err(OraclePriceZero)
    else if env.pNow < env.expectedMin || env.pNow > env.expectedMax then Err(PriceProtectionFailed)
    else Ok(())
  }

  /** Positive part of a signed increment. */
  function Gain(x: int): nat {
    if x > 0 then x else 0
  }

  /** What each side asks of the other; `total` includes the dormant buckets. */
  datatype Demand = Demand(longActive: nat, longTotal: nat, shortActive: nat, shortTotal: nat)

  ghost function ClaimAt(s: Store, price: nat): ClearingResult<nat> {
    TotalOutstandingClaim(s.direction, s.buckets, price)
  }

  /** The demands of both sides when the price moves from the last one to `pNow`. */
  ghost function Demands(sp: SubPool, pNow: nat): ClearingResult<Demand> {
    var preLong :- ClaimAt(sp.long.store, sp.lastPrice);
    var preShort :- ClaimAt(sp.short.store, sp.lastPrice);
    var longPnl :- FromMath(SignedPnlIncrement(Long.Sign(), sp.long.notional, sp.lastPrice, pNow));
    var shortPnl :- FromMath(SignedPnlIncrement(Short.Sign(), sp.short.notional, sp.lastPrice, pNow));
    var postLong :- ClaimAt(sp.long.store, pNow);
    var postShort :- ClaimAt(sp.short.store, pNow);
    var longTotal :- FromMath(CheckedAdd(Gain(longPnl), SaturatingSub(postLong, preLong)));
    var shortTotal :- FromMath(CheckedAdd(Gain(shortPnl), SaturatingSub(postShort, preShort)));
    Ok(Demand(Gain(longPnl), longTotal, Gain(shortPnl), shortTotal))
  }

  /** Everything a side receives, and so everything the other side pays. */
  function Amount(f: Flow): nat {
    f.toPool + f.toRecovery + f.residual
  }

  function NoFlow(price: nat): Flow {
    Flow(price, 0, 0, 0)
  }

  /** The dormant part of a transfer: distributed over the winner's buckets, the rest to dust. */
  ghost function PayRecovery(m: Market, p: Pool, pNow: nat, amount: nat): ClearingResult<(Pool, Receipt)> {
    var paid :- Distribute(p.store, m.mode, pNow, amount, m.ledgerCap);
    var dust :- if paid.1.residual > 0 then FromMath(CheckedAdd(p.dust, paid.1.residual)) else Ok(p.dust);
    Ok((p.(store := paid.0, dust := dust), paid.1))
  }

  /** Side `d` wins: the other side pays `total`, or all it has. */
  ghost function Transfer(m: Market, sp: SubPool, d: Direction, active: nat, total: nat, pNow: nat)
    : ClearingResult<(SubPool, Flow)>
    requires total > 0
  {
    var winner, loser := sp.Side(d), sp.Side(d.Opposite());
    var transfer := Min(total, loser.equity);
    if transfer == 0 then Ok((sp, NoFlow(pNow)))
    else
      var toActive :- FromMath(MulDivFloor(transfer, active, total));
      var toRecovery: nat :- FromMath(CheckedSub(transfer, toActive));
      var equity :- FromMath(CheckedAdd(winner.equity, toActive));
      var charged := sp.With(d.Opposite(), loser.(equity := loser.equity - transfer));
      if toRecovery == 0 then Ok((charged.With(d, winner.(equity := equity)), Flow(pNow, toActive, 0, 0)))
      else
        var paid :- PayRecovery(m, winner.(equity := equity), pNow, toRecovery);
        var inflow: nat :- FromMath(CheckedSub(toRecovery, paid.1.residual));
        Ok((charged.With(d, paid.0), Flow(pNow, toActive, inflow, paid.1.residual)))
  }

  /** The mutually exclusive arms of the transfer. */
  ghost function Settle(m: Market, sp: SubPool, demand: Demand, pNow: nat): ClearingResult<(SubPool, Flow, Flow)> {
    if demand.longTotal > 0 then
      var r :- Transfer(m, sp, Long, demand.longActive, demand.longTotal, pNow);
      Ok((r.0, r.1, NoFlow(pNow)))
    else if demand.shortTotal > 0 then
      var r :- Transfer(m, sp, Short, demand.shortActive, demand.shortTotal, pNow);
      Ok((r.0, NoFlow(pNow), r.1))
    else Ok((sp, NoFlow(pNow), NoFlow(pNow)))
  }

  /** `bucket_tick_of`, with the wrapping cast to `i64`. */
  function BucketTick(m: Market, price: u64): ClearingResult<int> {
    if m.priceTick == 0 || m.aggregation == 0 then Err(Invariant(NoTickSize))
    else
      var q := FloorDiv(price, 1, m.priceTick * m.aggregation);
      Ok(if q < I64_LIMIT then q else q - U64)
  }

  /** `rotate_active_to_recovery`. */
  ghost function Rotate(m: Market, p: Pool, pNow: u64): ClearingResult<Pool> {
    if p.shares == 0 then Ok(p)
    else
      var tick :- BucketTick(m, pNow);
      var store :- InsertOrMerge(p.store, tick, pNow, p.shares, p.notional, 1, m.maxBuckets);
      var recovery :- FromMath(CheckedAdd(p.recovery, p.shares));
      Ok(p.(store := store, recovery := recovery, shares := 0, notional := 0,
            log := p.log + [RotateRecord(p.generation, tick, pNow)], generation := p.generation + 1))
  }

  /** The rotation of one side at the end of a sync, with its event. */
  ghost function RotateIfEmpty(m: Market, id: nat, d: Direction, p: Pool, pNow: u64)
    : ClearingResult<(Pool, seq<EngineEvent>)>
  {
    if p.equity == 0 && p.shares > 0 then
      var tick :- BucketTick(m, pNow);
      var p' :- Rotate(m, p, pNow);
      Ok((p', [ActiveRotatedToRecovery(id, d, tick, pNow, p.shares, p.notional, p.generation)]))
    else Ok((p, []))
  }

  /** Both rotations. */
  ghost function RotateBoth(m: Market, sp: SubPool, pNow: u64): ClearingResult<(SubPool, seq<EngineEvent>)> {
    var l :- RotateIfEmpty(m, sp.id, Long, sp.long, pNow);
    var s :- RotateIfEmpty(m, sp.id, Short, sp.short, pNow);
    Ok((sp.(long := l.0, short := s.0), l.1 + s.1))
  }

  datatype SyncOutcome = SyncOutcome(long: Flow, short: Flow, events: seq<EngineEvent>)

  function Quiet(price: nat): SyncOutcome {
    SyncOutcome(NoFlow(price), NoFlow(price), [])
  }

  /** `sync_pool`. */
  ghost function SyncPool(m: Market, sp: SubPool, env: Envelope): ClearingResult<(SubPool, SyncOutcome)> {
    var _ :- SyncGuard(m, env);
    if sp.lastPrice == 0 || env.pNow == sp.lastPrice then
      var sp' := sp.(lastPrice := env.pNow, lastSlot := env.slot);
      var _ :- CheckSubPool(sp');
      Ok((sp', Quiet(env.pNow)))
    else
      var bps :- FromMath(PriceMoveBps(sp.lastPrice, env.pNow));
      if bps > m.maxMoveBps then Err(PriceMoveTooLarge) else MovePrice(m, sp, env)
  }

  /** `sync_pool` once the new price is accepted. */
  ghost function MovePrice(m: Market, sp: SubPool, env: Envelope): ClearingResult<(SubPool, SyncOutcome)>
    requires sp.lastPrice > 0
  {
    var demand :- Demands(sp, env.pNow);
    var settled :- Settle(m, sp, demand, env.pNow);
    var sp1 := settled.0.(lastPrice := env.pNow, lastSlot := env.slot);
    var rotated :- RotateBoth(m, sp1, env.pNow);
    var _ :- CheckSubPool(rotated.0);
    var event := PoolSync(sp.id, env.pNow, sp.long.shares, sp.short.shares, settled.1, settled.2);
    Ok((rotated.0, SyncOutcome(settled.1, settled.2, [event] + rotated.1)))
  }

  // ---------------------------------------------------------------- positions

  /** `find_rotate_record`: the first record of that generation. */
  function FindRecord(log: seq<RotateRecord>, generation: nat): Option<RotateRecord> {
    if log == [] then None
    else if log[0].generation == generation then Some(log[0])
    else FindRecord(log[1..], generation)
  }

  /** `lazy_migrate_position`. */
  function LazyMigrate(p: Pool, pos: Position): ClearingResult<Position> {
    if pos.active == 0 then Ok(pos.(generation := p.generation))
    else if pos.generation == p.generation then Ok(pos)
    else
      var record := FindRecord(p.log, pos.generation);
      if record.None? then Err(Invariant(MissingRecord))
      else
        var recovery :- FromMath(CheckedAdd(pos.recovery, pos.active));
        Ok(pos.(recovery := recovery, tick := Some(record.value.tick), zeroPrice := record.value.anchor,
                active := 0, notional := 0, status := Resting, generation := p.generation))
  }

  /** Shares minted, principal credited and dust of an open. */
  datatype Mint = Mint(shares: nat, principal: nat, dust: nat)

  function MintShares(m: Market, p: Pool, principal: nat): ClearingResult<Mint> {
    if p.equity == 0 then
      if p.shares != 0 then Err(Invariant(SharesWithoutEquity)) else Ok(Mint(principal, principal, 0))
    else
      var lhs :- FromMath(CheckedMul(p.equity, BPS_SCALE));
      var rhs :- FromMath(CheckedMul(p.shares, m.dilutionBps));
      if lhs < rhs then Err(DilutionRiskTooHigh)
      else
        var shares: nat :- FromMath(MulDivFloor(principal, p.shares, p.equity));
        if shares == 0 then Err(SharesMintedTooSmall)
        else
          var accounted: nat :- FromMath(MulDivFloor(shares, p.equity, p.shares));
          var dust: nat :- FromMath(CheckedSub(principal, accounted));
          Ok(Mint(shares, accounted, dust))
  }

  datatype OpenOutcome = OpenOutcome(mint: Mint, notional: nat, fee: nat, events: seq<EngineEvent>)

  /** The fee, and the principal left of the gross amount. */
  function Principal(m: Market, gross: u64): ClearingResult<(nat, nat)> {
    if gross == 0 then Err(MarginBelowMinimum)
    else
      var fee: nat :- FromMath(MulDivCeil(gross, m.openFeeBps, BPS_SCALE));
      if fee >= U64 || fee > gross then Err(MathOverflow)
      else if gross - fee < m.minMargin then Err(MarginBelowMinimum)
      else if gross - fee > m.maxMargin then Err(MarginAboveMaximum)
      else Ok((fee, gross - fee))
  }

  /** The pool after `mint` shares with `notional` have been added. */
  function AddShares(p: Pool, mint: Mint, notional: nat): ClearingResult<Pool> {
    var equity :- FromMath(CheckedAdd(p.equity, mint.principal));
    var shares :- FromMath(CheckedAdd(p.shares, mint.shares));
    var total :- FromMath(CheckedAdd(p.notional, notional));
    var dust :- FromMath(CheckedAdd(p.dust, mint.dust));
    Ok(p.(equity := equity, shares := shares, notional := total, dust := dust))
  }

  /** `open_position`. */
  ghost function OpenPosition(m: Market, sp: SubPool, env: Envelope, d: Direction, gross: u64, id: nat)
    : ClearingResult<(SubPool, Position, OpenOutcome)>
  {
    if m.schemaVersion != SCHEMA_VERSION_CURRENT then Err(SchemaVersionMismatch)
    else if m.frozen then Err(FrozenNewPosition)
    else
      var synced :- SyncPool(m, sp, env);
      var charge :- Principal(m, gross);
      var mint :- MintShares(m, synced.0.Side(d), charge.1);
      var notional :- FromMath(MulDivFloor(charge.1, m.leverageBps, BPS_SCALE));
      var p :- AddShares(synced.0.Side(d), mint, notional);
      var sp' := synced.0.With(d, p);
      var _ :- CheckSubPool(sp');
      var pos := Position(id, d, Open, charge.1, notional, mint.shares, 0, None, 0, p.generation, m.schemaVersion);
      var event := PositionOpened(sp.id, id, d, charge.1, notional, mint.shares, p.generation);
      Ok((sp', pos, OpenOutcome(mint, notional, charge.0, synced.1.events + [event])))
  }

  /** Active shares are redeemed in proportion to the pool's equity. */
  function CloseActive(p: Pool, pos: Position): ClearingResult<(Pool, Position, nat)> {
    if pos.active == 0 || p.shares == 0 || p.equity == 0 then Ok((p, pos, 0))
    else
      var value: nat :- FromMath(MulDivFloor(p.equity, pos.active, p.shares));
      var equity: nat :- FromMath(CheckedSub(p.equity, value));
      var shares: nat :- FromMath(CheckedSub(p.shares, pos.active));
      var notional: nat :- FromMath(CheckedSub(p.notional, pos.notional));
      Ok((p.(equity := equity, shares := shares, notional := notional), pos.(active := 0), value))
  }

  /** Recovery shares are redeemed against their bucket. */
  ghost function RedeemRecovery(p: Pool, pos: Position): ClearingResult<(Pool, Position, RedeemReceipt)> {
    if pos.recovery == 0 then Ok((p, pos, RedeemReceipt(0, 0, 0)))
    else if pos.tick.None? then Err(Invariant(NoBucket))
    else
      var r :- Redeem(p.store, pos.tick.value, pos.recovery);
      var recovery: nat :- FromMath(CheckedSub(p.recovery, r.1.burnedShares));
      Ok((p.(store := r.0, recovery := recovery), pos.(recovery := 0, tick := None), r.1))
  }

  datatype CloseOutcome = CloseOutcome(activeValue: nat, recoveryValue: nat, withdrawable: nat, events: seq<EngineEvent>)

  /** `close_position`. */
  ghost function ClosePosition(m: Market, sp: SubPool, env: Envelope, pos: Position)
    : ClearingResult<(SubPool, Position, CloseOutcome)>
  {
    if m.schemaVersion != SCHEMA_VERSION_CURRENT || pos.schemaVersion != m.schemaVersion
    then Err(SchemaVersionMismatch)
    else if pos.status.Closed? then Err(PositionNotOpen)
    else
      var synced :- SyncPool(m, sp, env);
      CloseSynced(sp.id, synced.0, pos, synced.1.events)
  }

  /** `close_position` after its sync, which reported `events`. */
  ghost function CloseSynced(id: nat, sp: SubPool, pos: Position, events: seq<EngineEvent>)
    : ClearingResult<(SubPool, Position, CloseOutcome)>
  {
    var d := pos.direction;
    var pos1 :- LazyMigrate(sp.Side(d), pos);
    var a :- CloseActive(sp.Side(d), pos1);
    var r :- RedeemRecovery(a.0, a.1);
    var withdrawable :- FromMath(CheckedAdd(a.2, r.2.redeemable));
    if withdrawable == 0 then Err(WithdrawableZero)
    else
      var sp' := sp.With(d, r.0);
      var _ :- CheckSubPool(sp');
      var event := PositionClosed(id, pos.id, d, pos1.active, r.2.burnedShares, r.2.burnedNotional, a.2, r.2.redeemable);
      Ok((sp', r.1.(notional := 0, status := Closed),
          CloseOutcome(a.2, r.2.redeemable, withdrawable, events + [event])))
  }

  /** Active shares that are worth nothing are burned. */
  function BurnWorthless(p: Pool, pos: Position): ClearingResult<(Pool, Position)> {
    if pos.active == 0 then Ok((p, pos))
    else
      var value: nat :-
        if p.shares > 0 && p.equity > 0 then FromMath(MulDivFloor(p.equity, pos.active, p.shares)) else Ok(0);
      if value > 0 then Err(Invariant(ForceClosePositive))
      else
        var shares: nat :- FromMath(CheckedSub(p.shares, pos.active));
        var notional: nat :- FromMath(CheckedSub(p.notional, pos.notional));
        Ok((p.(shares := shares, notional := notional), pos.(active := 0)))
  }

  datatype ForceCloseOutcome = ForceCloseOutcome(
    activeBurned: nat, recoveryBurned: nat, forfeited: nat, events: seq<EngineEvent>)

  /** `force_close_zero_value_position`. */
  ghost function ForceClose(m: Market, sp: SubPool, env: Envelope, pos: Position, acknowledged: bool)
    : ClearingResult<(SubPool, Position, ForceCloseOutcome)>
  {
    if m.schemaVersion != SCHEMA_VERSION_CURRENT || pos.schemaVersion != m.schemaVersion
    then Err(SchemaVersionMismatch)
    else if !acknowledged then Err(ForfeitAcknowledgementRequired)
    else if pos.status.Closed? then Err(PositionNotOpen)
    else
      var synced :- SyncPool(m, sp, env);
      ForceCloseSynced(sp.id, synced.0, pos, synced.1.events)
  }

  /** `force_close_zero_value_position` after its sync, which reported `events`. */
  ghost function ForceCloseSynced(id: nat, sp: SubPool, pos: Position, events: seq<EngineEvent>)
    : ClearingResult<(SubPool, Position, ForceCloseOutcome)>
  {
    var d := pos.direction;
    var pos1 :- LazyMigrate(sp.Side(d), pos);
    var a :- BurnWorthless(sp.Side(d), pos1);
    var r :- RedeemRecovery(a.0, a.1);
    var dust :-
      if r.2.redeemable > 0 then FromMath(CheckedAdd(r.0.dust, r.2.redeemable)) else Ok(r.0.dust);
    var sp' := sp.With(d, r.0.(dust := dust));
    var _ :- CheckSubPool(sp');
    var event := PositionForceClosed(id, pos.id, d, pos1.active, r.2.burnedShares, r.2.burnedNotional, r.2.redeemable);
    Ok((sp', r.1.(notional := 0, status := Closed),
        ForceCloseOutcome(pos1.active, r.2.burnedShares, r.2.redeemable, events + [event])))
  }

  datatype ClaimOutcome = ClaimOutcome(redeemable: nat, recoveryBurned: nat, events: seq<EngineEvent>)

  /** `claim_dormant_recovery`. */
  ghost function ClaimRecovery(m: Market, sp: SubPool, env: Envelope, pos: Position)
    : ClearingResult<(SubPool, Position, ClaimOutcome)>
  {
    if m.schemaVersion != SCHEMA_VERSION_CURRENT || pos.schemaVersion != m.schemaVersion
    then Err(SchemaVersionMismatch)
    else
      var synced :- SyncPool(m, sp, env);
      ClaimSynced(sp.id, synced.0, pos, synced.1.events)
  }

  /** `claim_dormant_recovery` after its sync, which reported `events`. */
  ghost function ClaimSynced(id: nat, sp: SubPool, pos: Position, events: seq<EngineEvent>)
    : ClearingResult<(SubPool, Position, ClaimOutcome)>
  {
    var d := pos.direction;
    var pos1 :- LazyMigrate(sp.Side(d), pos);
    if pos1.recovery == 0 then Err(PositionNotOpen)
    else
      var r :- RedeemRecovery(sp.Side(d), pos1);
      var sp' := sp.With(d, r.0);
      var _ :- CheckSubPool(sp');
      var event := DormantRecoveryClaimed(
        id, pos.id, d, if pos1.tick.Some? then pos1.tick.value else 0,
        r.2.burnedShares, r.2.burnedNotional, r.2.redeemable);
      Ok((sp', r.1, ClaimOutcome(r.2.redeemable, r.2.burnedShares, events + [event])))
  }

  /** `pre_sync_dormant_bucket`; returns the number of events applied. */
  ghost function PreSyncBucket(m: Market, sp: SubPool, d: Direction, tick: int): ClearingResult<(SubPool, nat)> {
    var s := sp.Side(d).store;
    if m.schemaVersion != SCHEMA_VERSION_CURRENT then Err(SchemaVersionMismatch)
    else if m.paused then Err(MarketPaused)
    else if tick !in s.buckets then Err(DormantBucketMissing)
    else if s.buckets[tick].applied > s.nextIndex then Err(Invariant(AheadOfLedger))
    else if s.nextIndex - s.buckets[tick].applied > m.maxPendingApply then Err(DormantPendingBudgetExceeded)
    else
      var store :- ApplyBucket(s, tick);
      var sp' := sp.With(d, sp.Side(d).(store := store));
      var _ :- CheckSubPool(sp');
      Ok((sp', s.nextIndex - s.buckets[tick].applied))
  }

  /** `harvest_dust`. */
  ghost function HarvestDust(m: Market, sp: SubPool, d: Direction): ClearingResult<(SubPool, nat)> {
    if m.schemaVersion != SCHEMA_VERSION_CURRENT then Err(SchemaVersionMismatch)
    else if m.paused then Err(MarketPaused)
    else
      var sp' := sp.With(d, sp.Side(d).(dust := 0));
      var _ :- CheckSubPool(sp');
      Ok((sp', sp.Side(d).dust))
  }

  /** `SubPool::new`. */
  function NewPool(d: Direction): Pool {
    Pool(0, 0, 0, 0, 0, 0, [], EmptyStore(d))
  }

  function NewSubPool(id: nat, lastPrice: nat, lastSlot: nat): SubPool {
    SubPool(id, NewPool(Long), NewPool(Short), lastPrice, lastSlot)
  }
}
