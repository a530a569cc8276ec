/**
  The clearing engine as the mutable objects of engine.rs and market.rs: a sub pool with two pool
  sides, each with its dormant store, and positions. Every method updates fields step by step and
  is proved to do what the function of the same name in `Engine` says.
*/
module EngineObject {
  import opened Wrappers
  import opened MoleMath
  import opened Clearing
  import opened Sums
  import opened Dormant
  import opened DormantInvariant
  import DormantRefinement
  import DormantSteps
  import opened DormantStoreModule
  import opened Engine
  import opened Holdings
  import StoreShares
  import opened EngineInvariant
  import opened EngineSync
  import opened EnginePositions
  import opened EngineOperations

  // ---------------------------------------------------------------- positions

  /** `Position`. */
  class PositionObject {
    const id: nat
    const direction: Direction
    const principal: nat
    const schemaVersion: nat
    var status: Status
    var notional: nat
    var active: nat
    var recovery: nat
    var tick: Option<int>
    var zeroPrice: nat
    var generation: nat

    function State(): Position
      reads this
    {
      Position(id, direction, status, principal, notional, active, recovery, tick, zeroPrice, generation, schemaVersion)
    }

    constructor (p: Position)
      ensures State() == p
    {
      id, direction, principal, schemaVersion := p.id, p.direction, p.principal, p.schemaVersion;
      status, notional, active, recovery, tick := p.status, p.notional, p.active, p.recovery, p.tick;
      zeroPrice, generation := p.zeroPrice, p.generation;
    }
  }

  // ---------------------------------------------------------------- one side

  /** The fields of a `SubPool` that belong to one direction. */
  class PoolObject {
    const store: DormantStore
    var equity: nat
    var shares: nat
    var notional: nat
    var recovery: nat
    var dust: nat
    var generation: nat
    var log: seq<RotateRecord>

    function State(): Pool
      reads this, store
    {
      Pool(equity, shares, notional, recovery, dust, generation, log, store.State())
    }

    constructor (p: Pool)
      requires Inv(p.store)
      ensures State() == p && fresh(store)
    {
      var s := new DormantStore.Load(p.store);
      store := s;
      equity, shares, notional, recovery, dust := p.equity, p.shares, p.notional, p.recovery, p.dust;
      generation, log := p.generation, p.log;
    }

    /** The side without its store, as the minting arithmetic needs it. */
    function Face(): Pool
      reads this
    {
      Pool(equity, shares, notional, recovery, dust, generation, log, EmptyStore(Long))
    }

    /** The dormant part of a transfer: distributed in the market's mode, the residual to dust. */
    method PayRecovery(m: Market, pNow: nat, amount: nat) returns (r: ClearingResult<Receipt>)
      requires Inv(store.State()) && amount < U128
      modifies this, store
      ensures
        var spec := Engine.PayRecovery(m, old(State()), pNow, amount);
        if spec.Ok? then r == Ok(spec.value.1) && State() == spec.value.0 else r == Err(spec.error)
    {
      hide Inv, Distribute;
      var paid: ClearingResult<Receipt>;
      match m.mode {
        case Eager => paid := store.DistributeEager(pNow, amount, m.ledgerCap);
        case Lazy => paid := store.DistributeLazy(pNow, amount, m.ledgerCap);
      }
      if paid.Err? {
        return Err(paid.error);
      }
      if paid.value.residual > 0 {
        if dust + paid.value.residual >= U128 {
          return Err(MathOverflow);
        }
        dust := dust + paid.value.residual;
      }
      return Ok(paid.value);
    }

    /** `rotate_active_to_recovery` with `push_rotate_record`. */
    method RotateActiveToRecovery(m: Market, pNow: u64) returns (r: ClearingResult<()>)
      requires Inv(store.State()) && shares < U128 && notional < U128
      modifies this, store
      ensures
        var spec := Rotate(m, old(State()), pNow);
        if spec.Ok? then r == Ok(()) && State() == spec.value else r == Err(spec.error)
    {
      hide Inv, InsertOrMerge, BucketTick;
      if shares == 0 {
        return Ok(());
      }
      var tick := BucketTick(m, pNow);
      if tick.Err? {
        return Err(tick.error);
      }
      var merged := store.InsertOrMergeBucket(tick.value, pNow, shares, notional, 1, m.maxBuckets);
      if merged.Err? {
        return Err(merged.error);
      }
      if recovery + shares >= U128 {
        return Err(MathOverflow);
      }
      recovery := recovery + shares;
      shares := 0;
      notional := 0;
      log := log + [RotateRecord(generation, tick.value, pNow)];
      generation := generation + 1;
      return Ok(());
    }

    /** The rotation of a side whose equity is gone, at the end of a sync. */
    method RotateWhenEmpty(m: Market, id: nat, d: Direction, pNow: u64) returns (r: ClearingResult<seq<EngineEvent>>)
      requires Inv(store.State()) && shares < U128 && notional < U128
      modifies this, store
      ensures
        var spec := RotateIfEmpty(m, id, d, old(State()), pNow);
        if spec.Ok? then r == Ok(spec.value.1) && State() == spec.value.0 else r == Err(spec.error)
    {
      hide Inv, Rotate, BucketTick;
      if equity != 0 || shares == 0 {
        return Ok([]);
      }
      var movedShares, movedNotional, ended := shares, notional, generation;
      var tick := BucketTick(m, pNow);
      if tick.Err? {
        return Err(tick.error);
      }
      var rotated := RotateActiveToRecovery(m, pNow);
      if rotated.Err? {
        return Err(rotated.error);
      }
      return Ok([ActiveRotatedToRecovery(id, d, tick.value, pNow, movedShares, movedNotional, ended)]);
    }

    /** `find_rotate_record`. */
    method FindRotateRecord(ended: nat) returns (r: Option<RotateRecord>)
      ensures r == FindRecord(log, ended)
    {
      var i := 0;
      assert log[0..] == log;
      while i < |log|
        invariant 0 <= i <= |log|
        invariant FindRecord(log[i..], ended) == FindRecord(log, ended)
      {
        if log[i].generation == ended {
          return Some(log[i]);
        }
        assert log[i..][1..] == log[i + 1..];
        i := i + 1;
      }
      return None;
    }

    /** `lazy_migrate_position`; returns whether the position was migrated. */
    method LazyMigratePosition(pos: PositionObject) returns (r: ClearingResult<bool>)
      modifies pos
      ensures
        var spec := LazyMigrate(State(), old(pos.State()));
        if spec.Ok? then r.Ok? && pos.State() == spec.value else r == Err(spec.error)
    {
      hide FindRecord;
      if pos.active == 0 {
        pos.generation := generation;
        return Ok(false);
      }
      if pos.generation == generation {
        return Ok(false);
      }
      var record := FindRotateRecord(pos.generation);
      if record.None? {
        return Err(Invariant(MissingRecord));
      }
      if pos.recovery + pos.active >= U128 {
        return Err(MathOverflow);
      }
      pos.recovery := pos.recovery + pos.active;
      pos.tick := Some(record.value.tick);
      pos.zeroPrice := record.value.anchor;
      pos.active := 0;
      pos.notional := 0;
      pos.status := Resting;
      pos.generation := generation;
      return Ok(true);
    }

    /** The shares, equity, notional and dust an open adds. */
    method Mint(mint: Mint, added: nat) returns (r: ClearingResult<()>)
      modifies this
      ensures
        var spec := AddShares(old(State()), mint, added);
        if spec.Ok? then r == Ok(()) && State() == spec.value else r == Err(spec.error)
    {
      if equity + mint.principal >= U128 {
        return Err(MathOverflow);
      }
      equity := equity + mint.principal;
      if shares + mint.shares >= U128 {
        return Err(MathOverflow);
      }
      shares := shares + mint.shares;
      if notional + added >= U128 {
        return Err(MathOverflow);
      }
      notional := notional + added;
      if dust + mint.dust >= U128 {
        return Err(MathOverflow);
      }
      dust := dust + mint.dust;
      return Ok(());
    }

    /** A close's active part. */
    method RedeemActive(pos: PositionObject) returns (r: ClearingResult<nat>)
      requires equity < U128 && shares < U128 && pos.active < U128
      modifies this, pos
      ensures
        var spec := CloseActive(old(State()), old(pos.State()));
        if spec.Ok? then r == Ok(spec.value.2) && State() == spec.value.0 && pos.State() == spec.value.1 else r == Err(spec.error)
    {
      hide FloorDiv;
      if pos.active == 0 || shares == 0 || equity == 0 {
        return Ok(0);
      }
      var value := ComputeMulDivFloor(equity, pos.active, shares);
      if value.Err? {
        return Err(FromMath(value).error);
      }
      if value.value > equity || pos.active > shares || pos.notional > notional {
        return Err(MathOverflow);
      }
      equity := equity - value.value;
      shares := shares - pos.active;
      notional := notional - pos.notional;
      pos.active := 0;
      return Ok(value.value);
    }

    /** A forced close's active part: shares that are worth nothing are burned. */
    method BurnActive(pos: PositionObject) returns (r: ClearingResult<()>)
      requires equity < U128 && shares < U128 && pos.active < U128
      modifies this, pos
      ensures
        var spec := BurnWorthless(old(State()), old(pos.State()));
        if spec.Ok? then r == Ok(()) && State() == spec.value.0 && pos.State() == spec.value.1 else r == Err(spec.error)
    {
      hide FloorDiv;
      if pos.active == 0 {
        return Ok(());
      }
      var value: nat := 0;
      if shares > 0 && equity > 0 {
        var computed := ComputeMulDivFloor(equity, pos.active, shares);
        if computed.Err? {
          return Err(FromMath(computed).error);
        }
        value := computed.value;
      }
      if value > 0 {
        return Err(Invariant(ForceClosePositive));
      }
      if pos.active > shares || pos.notional > notional {
        return Err(MathOverflow);
      }
      shares := shares - pos.active;
      notional := notional - pos.notional;
      pos.active := 0;
      return Ok(());
    }

    /** Forfeited funds become dust, if they fit. */
    method KeepAsDust(amount: nat) returns (fits: bool)
      modifies this
      ensures fits == (amount > 0 ==> old(dust) + amount < U128)
      ensures State() == if fits then Forfeited(old(State()), amount) else old(State())
    {
      if amount > 0 {
        if dust + amount >= U128 {
          return false;
        }
        dust := dust + amount;
      }
      return true;
    }

    /** Recovery shares are redeemed against their bucket. */
    method RedeemDormant(pos: PositionObject) returns (r: ClearingResult<RedeemReceipt>)
      requires Inv(store.State())
      modifies this, store, pos
      ensures
        var spec := RedeemRecovery(old(State()), old(pos.State()));
        if spec.Ok? then r == Ok(spec.value.2) && State() == spec.value.0 && pos.State() == spec.value.1 else r == Err(spec.error)
    {
      hide Inv, Redeem;
      if pos.recovery == 0 {
        return Ok(RedeemReceipt(0, 0, 0));
      }
      if pos.tick.None? {
        return Err(Invariant(NoBucket));
      }
      var receipt := store.RedeemShares(pos.tick.value, pos.recovery);
      if receipt.Err? {
        return Err(receipt.error);
      }
      if receipt.value.burnedShares > recovery {
        return Err(MathOverflow);
      }
      recovery := recovery - receipt.value.burnedShares;
      pos.recovery := 0;
      pos.tick := None;
      return Ok(receipt.value);
    }
  }

  // ---------------------------------------------------------------- the sub pool

  /** `SubPool`, with every position ever opened in it as ghost state. */
  class SubPoolObject {
    const id: nat
    const long: PoolObject
    const short: PoolObject
    var lastPrice: nat
    var lastSlot: nat
    ghost var population: map<nat, Position>

    ghost function Repr(): set<object> {
      {this, long, short, long.store, short.store}
    }

    function State(): SubPool
      reads Repr()
    {
      SubPool(id, long.State(), short.State(), lastPrice, lastSlot)
    }

    /** The two sides share nothing. */
    ghost predicate Separate() {
      long != short && long.store != short.store
    }

    /** The population invariant. */
    ghost predicate Valid()
      reads Repr()
    {
      Separate() && WorldOk(State(), population)
    }

    constructor (sp: SubPool, ghost ps: map<nat, Position>)
      requires WorldOk(sp, ps)
      ensures Valid() && State() == sp && population == ps && fresh(Repr())
    {
      hide WorldOk, Inv;
      StoresInv(sp, ps);
      id, lastPrice, lastSlot, population := sp.id, sp.lastPrice, sp.lastSlot, ps;
      var l := new PoolObject(sp.long);
      var s := new PoolObject(sp.short);
      long, short := l, s;
    }

    function Side(d: Direction): PoolObject {
      if d.Long? then long else short
    }

    /** `check_subpool_invariants`. */
    method CheckInvariants() returns (r: ClearingResult<()>)
      requires Consistent(long.store.State()) && Consistent(short.store.State())
      ensures r == CheckSubPool(State())
    {
      hide Consistent, CheckStore, Sum, BucketShares;
      if (long.equity == 0) != (long.shares == 0) {
        return Err(Invariant(ZeroIffBroken));
      }
      if (short.equity == 0) != (short.shares == 0) {
        return Err(Invariant(ZeroIffBroken));
      }
      var longTotal := long.store.TotalRecoveryShares();
      if longTotal != long.recovery {
        return Err(Invariant(RecoverySumBroken));
      }
      var shortTotal := short.store.TotalRecoveryShares();
      if shortTotal != short.recovery {
        return Err(Invariant(RecoverySumBroken));
      }
      r := long.store.CheckInvariants();
      if r.Ok? {
        r := short.store.CheckInvariants();
      }
    }

    /** What each side asks of the other when the price moves to `pNow`. */
    method MeasureDemand(pNow: u64) returns (r: ClearingResult<Demand>)
      requires Inv(long.store.State()) && Inv(short.store.State())
      requires long.store.direction == Long && short.store.direction == Short
      ensures r == Demands(State(), pNow)
    {
      hide Inv, TotalOutstandingClaim;
      var preLong := long.store.TotalOutstandingClaimAt(lastPrice);
      if preLong.Err? {
        return Err(preLong.error);
      }
      var preShort := short.store.TotalOutstandingClaimAt(lastPrice);
      if preShort.Err? {
        return Err(preShort.error);
      }
      var longPnl := SignedPnlIncrement(Long.Sign(), long.notional, lastPrice, pNow);
      if longPnl.Err? {
        return Err(FromMath(longPnl).error);
      }
      var shortPnl := SignedPnlIncrement(Short.Sign(), short.notional, lastPrice, pNow);
      if shortPnl.Err? {
        return Err(FromMath(shortPnl).error);
      }
      var postLong := long.store.TotalOutstandingClaimAt(pNow);
      if postLong.Err? {
        return Err(postLong.error);
      }
      var postShort := short.store.TotalOutstandingClaimAt(pNow);
      if postShort.Err? {
        return Err(postShort.error);
      }
      var longTotal := Gain(longPnl.value) + SaturatingSub(postLong.value, preLong.value);
      if longTotal >= U128 {
        return Err(MathOverflow);
      }
      var shortTotal := Gain(shortPnl.value) + SaturatingSub(postShort.value, preShort.value);
      if shortTotal >= U128 {
        return Err(MathOverflow);
      }
      return Ok(Demand(Gain(longPnl.value), longTotal, Gain(shortPnl.value), shortTotal));
    }

    /** Side `d` wins: the other side pays `total`, or all it has. */
    method TransferTo(m: Market, d: Direction, active: nat, total: nat, pNow: nat) returns (r: ClearingResult<Flow>)
      requires Separate() && Inv(Side(d).store.State())
      requires 0 < total < U128 && active <= total && Side(d.Opposite()).equity < U128
      modifies Repr() - {this}
      ensures
        var spec := Transfer(m, old(State()), d, active, total, pNow);
        if spec.Ok? then r == Ok(spec.value.1) && State() == spec.value.0 else r == Err(spec.error)
    {
      hide Inv, FloorDiv, MulDivFloor, Engine.PayRecovery;
      var winner, loser := Side(d), Side(d.Opposite());
      var transfer := Min(total, loser.equity);
      if transfer == 0 {
        return Ok(NoFlow(pNow));
      }
      var toActive := ComputeMulDivFloor(transfer, active, total);
      if toActive.Err? {
        return Err(FromMath(toActive).error);
      }
      if toActive.value > transfer {
        return Err(MathOverflow);
      }
      var toRecovery: nat := transfer - toActive.value;
      if winner.equity + toActive.value >= U128 {
        return Err(MathOverflow);
      }
      winner.equity := winner.equity + toActive.value;
      loser.equity := loser.equity - transfer;
      if toRecovery == 0 {
        return Ok(Flow(pNow, toActive.value, 0, 0));
      }
      var paid := winner.PayRecovery(m, pNow, toRecovery);
      if paid.Err? {
        return Err(paid.error);
      }
      if paid.value.residual > toRecovery {
        return Err(MathOverflow);
      }
      return Ok(Flow(pNow, toActive.value, toRecovery - paid.value.residual, paid.value.residual));
    }

    /** The mutually exclusive arms of the transfer. */
    method SettleDemand(m: Market, demand: Demand, pNow: nat) returns (r: ClearingResult<(Flow, Flow)>)
      requires Separate() && Inv(long.store.State()) && Inv(short.store.State())
      requires demand.longActive <= demand.longTotal < U128 && demand.shortActive <= demand.shortTotal < U128
      requires long.equity < U128 && short.equity < U128
      modifies Repr() - {this}
      ensures
        var spec := Settle(m, old(State()), demand, pNow);
        if spec.Ok? then r == Ok((spec.value.1, spec.value.2)) && State() == spec.value.0 else r == Err(spec.error)
    {
      hide Inv, Transfer;
      if demand.longTotal > 0 {
        var paid := TransferTo(m, Long, demand.longActive, demand.longTotal, pNow);
        return if paid.Ok? then Ok((paid.value, NoFlow(pNow))) else Err(paid.error);
      } else if demand.shortTotal > 0 {
        var paid := TransferTo(m, Short, demand.shortActive, demand.shortTotal, pNow);
        return if paid.Ok? then Ok((NoFlow(pNow), paid.value)) else Err(paid.error);
      } else {
        return Ok((NoFlow(pNow), NoFlow(pNow)));
      }
    }

    /** Both rotations at the end of a sync. */
    method RotateSides(m: Market, pNow: u64) returns (r: ClearingResult<seq<EngineEvent>>)
      requires Separate() && Inv(long.store.State()) && Inv(short.store.State())
      requires InRange(long.State()) && InRange(short.State())
      modifies Repr() - {this}
      ensures
        var spec := RotateBoth(m, old(State()), pNow);
        if spec.Ok? then r == Ok(spec.value.1) && State() == spec.value.0 else r == Err(spec.error)
    {
      hide Inv, RotateIfEmpty;
      var first := long.RotateWhenEmpty(m, id, Long, pNow);
      if first.Err? {
        return first;
      }
      var second := short.RotateWhenEmpty(m, id, Short, pNow);
      if second.Err? {
        return second;
      }
      return Ok(first.value + second.value);
    }

    /** `sync_pool`. */
    method SyncPool(m: Market, env: Envelope) returns (r: ClearingResult<SyncOutcome>)
      requires Valid()
      modifies Repr()
      ensures
        var spec := Engine.SyncPool(m, old(State()), env);
        if spec.Ok? then r == Ok(spec.value.1) && State() == spec.value.0 else r == Err(spec.error)
      ensures population == old(population) && (r.Ok? ==> Valid())
    {
      hide WorldOk, MovePrice, CheckSubPool, PriceMoveBps, Exchanged, Midway, Inv, Consistent;
      var guard := SyncGuard(m, env);
      if guard.Err? {
        return Err(guard.error);
      }
      if lastPrice == 0 || env.pNow == lastPrice {
        QuietKeepsWorld(m, State(), env, population);
        lastPrice := env.pNow;
        lastSlot := env.slot;
        WorldConsistent(State(), population);
        var check := CheckInvariants();
        return if check.Ok? then Ok(Quiet(env.pNow)) else Err(check.error);
      }
      var bps := PriceMoveBps(lastPrice, env.pNow);
      if bps.Err? {
        return Err(FromMath(bps).error);
      }
      if bps.value > m.maxMoveBps {
        return Err(PriceMoveTooLarge);
      }
      r := MoveTo(m, env);
    }

    /** `sync_pool` once the new price is accepted. */
    method MoveTo(m: Market, env: Envelope) returns (r: ClearingResult<SyncOutcome>)
      requires Valid() && Moved(State(), env)
      modifies Repr()
      ensures
        var spec := MovePrice(m, old(State()), env);
        if spec.Ok? then r == Ok(spec.value.1) && State() == spec.value.0 else r == Err(spec.error)
      ensures population == old(population) && (r.Ok? ==> Valid())
    {
      hide WorldOk, PoolCore, CheckSubPool, Exchanged, Midway, Inv, Consistent, Demands, Settle, RotateBoth, InRange,
        MovePrice;
      ghost var s := State();
      StoresInv(s, population);
      OneSidedDemand(s, env.pNow);
      MovePriceUnfolds(m, s, env);
      var longBefore, shortBefore := long.shares, short.shares;
      var demand := MeasureDemand(env.pNow);
      if demand.Err? {
        return Err(demand.error);
      }
      var flows := SettleDemand(m, demand.value, env.pNow);
      if flows.Err? {
        return Err(flows.error);
      }
      SettledSides(m, s, demand.value, env.pNow, population);
      RotatedSound(m, s, State(), flows.value.0, flows.value.1, env, population);
      lastPrice := env.pNow;
      lastSlot := env.slot;
      var event := PoolSync(id, env.pNow, longBefore, shortBefore, flows.value.0, flows.value.1);
      var rotated := RotateSides(m, env.pNow);
      if rotated.Err? {
        return Err(rotated.error);
      }
      var check := CheckInvariants();
      if check.Err? {
        return Err(check.error);
      }
      return Ok(SyncOutcome(flows.value.0, flows.value.1, [event] + rotated.value));
    }

    // -------------------------------------------------------------- operations

    /** `open_position`. */
    method OpenPosition(m: Market, env: Envelope, d: Direction, gross: u64, positionId: nat)
      returns (r: ClearingResult<(PositionObject, OpenOutcome)>)
      requires Valid() && positionId !in population
      modifies Repr()
      ensures
        var spec := Engine.OpenPosition(m, old(State()), env, d, gross, positionId);
        && (spec.Err? ==> r == Err(spec.error))
        && (spec.Ok? ==>
              && r.Ok? && fresh(r.value.0)
              && (State(), r.value.0.State(), r.value.1) == spec.value
              && population == old(population)[positionId := spec.value.1]
              && Valid())
    {
      hide WorldOk, Engine.SyncPool, Principal, MintShares, AddShares, MulDivFloor, CheckSubPool, Consistent, OpenedIn;
      ghost var s, ps := State(), population;
      if m.schemaVersion != SCHEMA_VERSION_CURRENT {
        return Err(SchemaVersionMismatch);
      }
      if m.frozen {
        return Err(FrozenNewPosition);
      }
      var synced := SyncPool(m, env);
      if synced.Err? {
        return Err(synced.error);
      }
      var charge := Principal(m, gross);
      if charge.Err? {
        return Err(charge.error);
      }
      var (fee, principal) := charge.value;
      var side := Side(d);
      var mint := MintShares(m, side.Face(), principal);
      MintReads(m, side.Face(), side.State(), principal);
      if mint.Err? {
        return Err(mint.error);
      }
      var added := MulDivFloor(principal, m.leverageBps, BPS_SCALE);
      if added.Err? {
        return Err(FromMath(added).error);
      }
      WorldConsistent(State(), population);
      var minted := side.Mint(mint.value, added.value);
      if minted.Err? {
        return Err(minted.error);
      }
      var p := Position(positionId, d, Open, principal, added.value, mint.value.shares, 0, None, 0, side.generation,
                        m.schemaVersion);
      var event := PositionOpened(id, positionId, d, principal, added.value, mint.value.shares, side.generation);
      var check := CheckInvariants();
      if check.Err? {
        return Err(check.error);
      }
      var pos := new PositionObject(p);
      population := population[positionId := p];
      OpenKeepsWorld(m, s, env, d, gross, positionId, ps);
      return Ok((pos, OpenOutcome(mint.value, added.value, fee, synced.value.events + [event])));
    }

    /** `pos` is the position the population records under its id. */
    ghost predicate Holds(pos: PositionObject)
      reads this, pos
    {
      pos.id in population && population[pos.id] == pos.State()
    }

    /** The middle of a close: migrate, redeem the active shares, redeem the recovery shares. */
    method CashOutPosition(pos: PositionObject) returns (r: ClearingResult<(nat, nat, RedeemReceipt)>)
      requires Valid() && Holds(pos)
      modifies Repr() - {this}, pos
      ensures
        var d, sp1 := pos.direction, old(State());
        && LazyMigrate(sp1.Side(d), old(pos.State())).Ok?
        && var pos1 := LazyMigrate(sp1.Side(d), old(pos.State())).value;
        && CloseActive(sp1.Side(d), pos1).Ok?
        && var a := CloseActive(sp1.Side(d), pos1).value;
        && var cashed := RedeemRecovery(a.0, a.1);
        && (cashed.Err? ==> r == Err(cashed.error))
        && (cashed.Ok? ==>
              && r == Ok((pos1.active, a.2, cashed.value.2))
              && State() == sp1.With(d, cashed.value.0) && pos.State() == cashed.value.1
              && WorldOk(State(), population[pos.id := cashed.value.1.(notional := 0, status := Closed)]))
    {
      hide WorldOk, LazyMigrate, CloseActive, RedeemRecovery, CheckSubPool, Inv, PaidOff;
      ReadyToLeave(State(), population, pos.id);
      CashOutKeepsWorld(State(), population, pos.id);
      var side := Side(pos.direction);
      var migrated := side.LazyMigratePosition(pos);
      var activeBurned := pos.active;
      var active := side.RedeemActive(pos);
      var receipt := side.RedeemDormant(pos);
      if receipt.Err? {
        return Err(receipt.error);
      }
      return Ok((activeBurned, active.value, receipt.value));
    }

    /** `close_position`. */
    method ClosePosition(m: Market, env: Envelope, pos: PositionObject) returns (r: ClearingResult<CloseOutcome>)
      requires Valid() && Holds(pos)
      modifies Repr(), pos
      ensures
        var spec := Engine.ClosePosition(m, old(State()), env, old(pos.State()));
        && (spec.Err? ==> r == Err(spec.error))
        && (spec.Ok? ==>
              && r.Ok? && (State(), pos.State(), r.value) == spec.value
              && population == old(population)[pos.id := spec.value.1]
              && Valid())
    {
      hide WorldOk, Engine.SyncPool, CloseSynced;
      SyncedKeepsId(m, State(), env, population);
      if m.schemaVersion != SCHEMA_VERSION_CURRENT || pos.schemaVersion != m.schemaVersion {
        return Err(SchemaVersionMismatch);
      }
      if pos.status.Closed? {
        return Err(PositionNotOpen);
      }
      var synced := SyncPool(m, env);
      if synced.Err? {
        return Err(synced.error);
      }
      r := FinishClose(pos, synced.value.events);
    }

    /** `close_position` after its sync. */
    method FinishClose(pos: PositionObject, events: seq<EngineEvent>) returns (r: ClearingResult<CloseOutcome>)
      requires Valid() && Holds(pos)
      modifies Repr(), pos
      ensures
        var spec := CloseSynced(id, old(State()), old(pos.State()), events);
        && (spec.Err? ==> r == Err(spec.error))
        && (spec.Ok? ==>
              && r.Ok? && (State(), pos.State(), r.value) == spec.value
              && population == old(population)[pos.id := spec.value.1]
              && Valid())
    {
      hide WorldOk, LazyMigrate, CloseActive, RedeemRecovery, CheckSubPool, Consistent;
      ghost var ps := population;
      var cashed := CashOutPosition(pos);
      if cashed.Err? {
        return Err(cashed.error);
      }
      var (activeBurned, active, receipt) := cashed.value;
      if active + receipt.redeemable >= U128 {
        return Err(MathOverflow);
      }
      var withdrawable := active + receipt.redeemable;
      if withdrawable == 0 {
        return Err(WithdrawableZero);
      }
      pos.notional := 0;
      pos.status := Closed;
      var event := PositionClosed(
        id, pos.id, pos.direction, activeBurned, receipt.burnedShares, receipt.burnedNotional, active, receipt.redeemable);
      WorldConsistent(State(), ps[pos.id := pos.State()]);
      var check := CheckInvariants();
      if check.Err? {
        return Err(check.error);
      }
      population := population[pos.id := pos.State()];
      return Ok(CloseOutcome(active, receipt.redeemable, withdrawable, events + [event]));
    }

    /** The middle of a forced close: migrate, burn worthless active shares, redeem the recovery shares. */
    method BurnPosition(pos: PositionObject) returns (r: ClearingResult<(nat, RedeemReceipt)>)
      requires Valid() && Holds(pos)
      modifies Repr() - {this}, pos
      ensures
        var d, sp1 := pos.direction, old(State());
        && LazyMigrate(sp1.Side(d), old(pos.State())).Ok?
        && var pos1 := LazyMigrate(sp1.Side(d), old(pos.State())).value;
        && var a := BurnWorthless(sp1.Side(d), pos1);
        && (a.Err? ==> r == Err(a.error))
        && (a.Ok? ==>
              var cashed := RedeemRecovery(a.value.0, a.value.1);
              && (cashed.Err? ==> r == Err(cashed.error))
              && (cashed.Ok? ==>
                    && r == Ok((pos1.active, cashed.value.2))
                    && State() == sp1.With(d, cashed.value.0) && pos.State() == cashed.value.1
                    && var amount := cashed.value.2.redeemable;
                    && ((amount > 0 ==> cashed.value.0.dust + amount < U128) ==>
                          WorldOk(sp1.With(d, Forfeited(cashed.value.0, amount)),
                                  population[pos.id := cashed.value.1.(notional := 0, status := Closed)]))))
    {
      hide WorldOk, LazyMigrate, BurnWorthless, RedeemRecovery, CheckSubPool, Inv, StoreLeft, HasValue, Funds;
      ReadyToLeave(State(), population, pos.id);
      BurnOutKeepsWorld(State(), population, pos.id);
      var side := Side(pos.direction);
      var migrated := side.LazyMigratePosition(pos);
      var activeBurned := pos.active;
      var burned := side.BurnActive(pos);
      if burned.Err? {
        return Err(burned.error);
      }
      var receipt := side.RedeemDormant(pos);
      if receipt.Err? {
        return Err(receipt.error);
      }
      return Ok((activeBurned, receipt.value));
    }

    /** `force_close_zero_value_position`. */
    method ForceCloseZeroValuePosition(m: Market, env: Envelope, pos: PositionObject, acknowledged: bool)
      returns (r: ClearingResult<ForceCloseOutcome>)
      requires Valid() && Holds(pos)
      modifies Repr(), pos
      ensures
        var spec := ForceClose(m, old(State()), env, old(pos.State()), acknowledged);
        && (spec.Err? ==> r == Err(spec.error))
        && (spec.Ok? ==>
              && r.Ok? && (State(), pos.State(), r.value) == spec.value
              && population == old(population)[pos.id := spec.value.1]
              && Valid())
    {
      hide WorldOk, Engine.SyncPool, ForceCloseSynced;
      SyncedKeepsId(m, State(), env, population);
      if m.schemaVersion != SCHEMA_VERSION_CURRENT || pos.schemaVersion != m.schemaVersion {
        return Err(SchemaVersionMismatch);
      }
      if !acknowledged {
        return Err(ForfeitAcknowledgementRequired);
      }
      if pos.status.Closed? {
        return Err(PositionNotOpen);
      }
      var synced := SyncPool(m, env);
      if synced.Err? {
        return Err(synced.error);
      }
      r := FinishForceClose(pos, synced.value.events);
    }

    /** `force_close_zero_value_position` after its sync. */
    method FinishForceClose(pos: PositionObject, events: seq<EngineEvent>) returns (r: ClearingResult<ForceCloseOutcome>)
      requires Valid() && Holds(pos)
      modifies Repr(), pos
      ensures
        var spec := ForceCloseSynced(id, old(State()), old(pos.State()), events);
        && (spec.Err? ==> r == Err(spec.error))
        && (spec.Ok? ==>
              && r.Ok? && (State(), pos.State(), r.value) == spec.value
              && population == old(population)[pos.id := spec.value.1]
              && Valid())
    {
      hide WorldOk, LazyMigrate, BurnWorthless, RedeemRecovery, CheckSubPool, Consistent, ForceCloseSynced, Forfeited;
      ghost var ps := population;
      ForceCloseSteps(id, State(), pos.State(), events);
      var burned := BurnPosition(pos);
      if burned.Err? {
        return Err(burned.error);
      }
      var (activeBurned, receipt) := burned.value;
      var side := Side(pos.direction);
      var kept := side.KeepAsDust(receipt.redeemable);
      if !kept {
        return Err(MathOverflow);
      }
      pos.notional := 0;
      pos.status := Closed;
      var event := PositionForceClosed(
        id, pos.id, pos.direction, activeBurned, receipt.burnedShares, receipt.burnedNotional, receipt.redeemable);
      WorldConsistent(State(), ps[pos.id := pos.State()]);
      var check := CheckInvariants();
      if check.Err? {
        return Err(check.error);
      }
      population := population[pos.id := pos.State()];
      return Ok(ForceCloseOutcome(activeBurned, receipt.burnedShares, receipt.redeemable, events + [event]));
    }

    /** `claim_dormant_recovery`. */
    method ClaimDormantRecovery(m: Market, env: Envelope, pos: PositionObject) returns (r: ClearingResult<ClaimOutcome>)
      requires Valid() && Holds(pos)
      modifies Repr(), pos
      ensures
        var spec := ClaimRecovery(m, old(State()), env, old(pos.State()));
        && (spec.Err? ==> r == Err(spec.error))
        && (spec.Ok? ==>
              && r.Ok? && (State(), pos.State(), r.value) == spec.value
              && population == old(population)[pos.id := spec.value.1]
              && Valid())
    {
      hide WorldOk, Engine.SyncPool, ClaimSynced;
      SyncedKeepsId(m, State(), env, population);
      if m.schemaVersion != SCHEMA_VERSION_CURRENT || pos.schemaVersion != m.schemaVersion {
        return Err(SchemaVersionMismatch);
      }
      var synced := SyncPool(m, env);
      if synced.Err? {
        return Err(synced.error);
      }
      r := FinishClaim(pos, synced.value.events);
    }

    /** `claim_dormant_recovery` after its sync. */
    method FinishClaim(pos: PositionObject, events: seq<EngineEvent>) returns (r: ClearingResult<ClaimOutcome>)
      requires Valid() && Holds(pos)
      modifies Repr(), pos
      ensures
        var spec := ClaimSynced(id, old(State()), old(pos.State()), events);
        && (spec.Err? ==> r == Err(spec.error))
        && (spec.Ok? ==>
              && r.Ok? && (State(), pos.State(), r.value) == spec.value
              && population == old(population)[pos.id := spec.value.1]
              && Valid())
    {
      hide WorldOk, LazyMigrate, RedeemRecovery, CheckSubPool, Consistent, Inv, RedeemedFrom;
      ghost var ps := population;
      var side := Side(pos.direction);
      ReadyToLeave(State(), ps, pos.id);
      ClaimKeepsSide(State(), ps, pos.id);
      var migrated := side.LazyMigratePosition(pos);
      if pos.recovery == 0 {
        return Err(PositionNotOpen);
      }
      var tick := if pos.tick.Some? then pos.tick.value else 0;
      var receipt := side.RedeemDormant(pos);
      if receipt.Err? {
        return Err(receipt.error);
      }
      var event := DormantRecoveryClaimed(
        id, pos.id, pos.direction, tick, receipt.value.burnedShares, receipt.value.burnedNotional, receipt.value.redeemable);
      WorldConsistent(State(), ps[pos.id := pos.State()]);
      var check := CheckInvariants();
      if check.Err? {
        return Err(check.error);
      }
      population := population[pos.id := pos.State()];
      return Ok(ClaimOutcome(receipt.value.redeemable, receipt.value.burnedShares, events + [event]));
    }

    /** `pre_sync_dormant_bucket`; returns the number of events applied. */
    method PreSyncDormantBucket(m: Market, d: Direction, tick: int) returns (r: ClearingResult<nat>)
      requires Valid()
      modifies Repr()
      ensures
        var spec := PreSyncBucket(m, old(State()), d, tick);
        && (spec.Err? ==> r == Err(spec.error))
        && (spec.Ok? ==> r.Ok? && (State(), r.value) == spec.value)
      ensures population == old(population) && (r.Ok? ==> Valid())
    {
      hide WorldOk, ApplyBucket, DormantSteps.ApplyBucketChecked, CheckSubPool, Consistent, Inv;
      ghost var s := State();
      var store := Side(d).store;
      if m.schemaVersion != SCHEMA_VERSION_CURRENT {
        return Err(SchemaVersionMismatch);
      }
      if m.paused {
        return Err(MarketPaused);
      }
      if tick !in store.buckets {
        return Err(DormantBucketMissing);
      }
      if store.buckets[tick].applied > store.nextIndex {
        return Err(Invariant(AheadOfLedger));
      }
      var pending := store.nextIndex - store.buckets[tick].applied;
      if pending > m.maxPendingApply {
        return Err(DormantPendingBudgetExceeded);
      }
      StoresInv(s, population);
      DormantSteps.ReadyToApply(store.State(), tick);
      AppliedSound(s, d, tick, population);
      var applied := store.ApplyPendingToBucket(tick);
      if applied.Err? {
        return Err(applied.error);
      }
      var check := CheckInvariants();
      if check.Err? {
        return Err(check.error);
      }
      return Ok(pending);
    }

    /** `harvest_dust`. */
    method HarvestDust(m: Market, d: Direction) returns (r: ClearingResult<nat>)
      requires Valid()
      modifies Repr()
      ensures
        var spec := Engine.HarvestDust(m, old(State()), d);
        && (spec.Err? ==> r == Err(spec.error))
        && (spec.Ok? ==> r.Ok? && (State(), r.value) == spec.value)
      ensures population == old(population) && (r.Ok? ==> Valid())
    {
      hide WorldOk, CheckSubPool, Consistent, Inv, Funds;
      HarvestKeepsWorld(m, State(), d, population);
      WorldConsistent(State(), population);
      if m.schemaVersion != SCHEMA_VERSION_CURRENT {
        return Err(SchemaVersionMismatch);
      }
      if m.paused {
        return Err(MarketPaused);
      }
      var side := Side(d);
      var amount := side.dust;
      side.dust := 0;
      var check := CheckInvariants();
      if check.Err? {
        return Err(check.error);
      }
      return Ok(amount);
    }
  }

  /** The stores of a sound sub pool are well formed. */
  lemma StoresInv(sp: SubPool, ps: map<nat, Position>)
    requires WorldOk(sp, ps)
    ensures Inv(sp.long.store) && Inv(sp.short.store)
    ensures sp.long.store.direction == Long && sp.short.store.direction == Short
    ensures InRange(sp.long) && InRange(sp.short)
    ensures sp.long.equity < U128 && sp.short.equity < U128
  {
    hide Inv, PositionsOk, PoolBacked, HoldingsOf, LogOk;
  }

  lemma WorldConsistent(sp: SubPool, ps: map<nat, Position>)
    requires WorldOk(sp, ps)
    ensures Consistent(sp.long.store) && Consistent(sp.short.store)
  {
    hide WorldOk, Consistent;
    StoresInv(sp, ps);
    CheckStoreIs(sp.long.store);
    CheckStoreIs(sp.short.store);
  }

  /** The sides after the transfer can still be rotated. */
  lemma SettledSides(m: Market, sp: SubPool, demand: Demand, pNow: nat, ps: map<nat, Position>)
    requires WorldOk(sp, ps) && Demands(sp, pNow) == Ok(demand) && Settle(m, sp, demand, pNow).Ok?
    ensures
      var (mid, long, short) := Settle(m, sp, demand, pNow).value;
      && Exchanged(sp, mid, long, short, pNow)
      && Inv(mid.long.store) && Inv(mid.short.store) && InRange(mid.long) && InRange(mid.short)
  {
    hide WorldOk, PoolCore, SideExchanged, Inv, InRange, Demands, Settle;
    SidesCore(sp, ps);
    SettleIs(m, sp, demand, pNow);
    CoreOf(Settle(m, sp, demand, pNow).value.0.long, Long);
    CoreOf(Settle(m, sp, demand, pNow).value.0.short, Short);
  }

  lemma CoreOf(p: Pool, d: Direction)
    requires PoolCore(p, d)
    ensures Inv(p.store) && InRange(p)
  {
    hide Inv, InRange, LogOk, Sum;
  }

  /** After both rotations the population is sound again. */
  lemma RotatedSound(m: Market, sp: SubPool, mid: SubPool, long: Flow, short: Flow, env: Envelope, ps: map<nat, Position>)
    requires WorldOk(sp, ps) && Exchanged(sp, mid, long, short, env.pNow)
    ensures
      var r := RotateBoth(m, Priced(mid, env), env.pNow);
      r.Ok? ==> WorldOk(r.value.0, ps) && Consistent(r.value.0.long.store) && Consistent(r.value.0.short.store)
  {
    hide WorldOk, Exchanged, RotateBoth, Consistent, CheckSubPool, SideRotated, RotationEvents;
    RotationKeepsWorld(m, sp, mid, long, short, env, ps);
    if RotateBoth(m, Priced(mid, env), env.pNow).Ok? {
      WorldConsistent(RotateBoth(m, Priced(mid, env), env.pNow).value.0, ps);
    }
  }

  /** A position about to leave a sound sub pool. */
  lemma ReadyToLeave(sp: SubPool, ps: map<nat, Position>, id: nat)
    requires WorldOk(sp, ps) && id in ps
    ensures Inv(sp.long.store) && Inv(sp.short.store) && ps[id].id == id
    ensures
      var p := sp.Side(ps[id].direction);
      && p.equity < U128 && p.shares < U128
      && (LazyMigrate(p, ps[id]).Ok? ==> LazyMigrate(p, ps[id]).value.active < U128)
  {
    hide WorldOk, Inv, PoolOk, PoolBacked, HoldingsOf, EnginePositions.Holds, LazyMigrate, LogOk;
    StoresInv(sp, ps);
    MigratedHolds(sp, ps, id);
  }

  /** A drained bucket leaves the population sound. */
  lemma AppliedSound(sp: SubPool, d: Direction, tick: int, ps: map<nat, Position>)
    requires WorldOk(sp, ps)
    ensures
      var applied := ApplyBucket(sp.Side(d).store, tick);
      applied.Ok? ==>
        var sp' := sp.With(d, sp.Side(d).(store := applied.value));
        WorldOk(sp', ps) && Consistent(sp'.long.store) && Consistent(sp'.short.store)
  {
    hide WorldOk, ApplyBucket, Inv, View, Consistent, StoreShares.SharesOf, CheckSubPool;
    var s := sp.Side(d).store;
    StoresInv(sp, ps);
    DormantRefinement.AppliedBucket(s, tick);
    if ApplyBucket(s, tick).Ok? {
      StoreShares.ApplyKeepsShares(s, tick);
      SideReplaced(sp, sp.Side(d).(store := ApplyBucket(s, tick).value), d, ps);
      WorldConsistent(sp.With(d, sp.Side(d).(store := ApplyBucket(s, tick).value)), ps);
    }
  }

  /** Minting reads equity and shares only. */
  lemma MintReads(m: Market, p: Pool, p': Pool, principal: nat)
    requires p.equity == p'.equity && p.shares == p'.shares
    ensures MintShares(m, p, principal) == MintShares(m, p', principal)
  {
    hide MulDivFloor;
  }

  lemma SyncedKeepsId(m: Market, sp: SubPool, env: Envelope, ps: map<nat, Position>)
    requires WorldOk(sp, ps)
    ensures Engine.SyncPool(m, sp, env).Ok? ==> Engine.SyncPool(m, sp, env).value.0.id == sp.id
  {
    hide WorldOk, Engine.SyncPool, Midway, Exchanged, SideRotated, SyncEvents;
    SyncKeepsWorld(m, sp, env, ps);
  }

  /** The steps of a forced close after its sync. */
  lemma ForceCloseSteps(id: nat, sp: SubPool, pos: Position, events: seq<EngineEvent>)
    ensures
      var r := ForceCloseSynced(id, sp, pos, events);
      var d := pos.direction;
      var migrated := LazyMigrate(sp.Side(d), pos);
      migrated.Ok? ==>
        var a := BurnWorthless(sp.Side(d), migrated.value);
        && (a.Err? ==> r == Err(a.error))
        && (a.Ok? ==>
              var cashed := RedeemRecovery(a.value.0, a.value.1);
              && (cashed.Err? ==> r == Err(cashed.error))
              && (cashed.Ok? ==>
                    var (p', pos', receipt) := cashed.value;
                    var fits := receipt.redeemable > 0 ==> p'.dust + receipt.redeemable < U128;
                    && (!fits ==> r == Err(MathOverflow))
                    && (fits ==>
                          var sp' := sp.With(d, Forfeited(p', receipt.redeemable));
                          var check := CheckSubPool(sp');
                          && (check.Err? ==> r == Err(check.error))
                          && (check.Ok? ==>
                                var event := PositionForceClosed(
                                  id, pos.id, d, migrated.value.active, receipt.burnedShares, receipt.burnedNotional,
                                  receipt.redeemable);
                                r == Ok((sp', pos'.(notional := 0, status := Closed),
                                         ForceCloseOutcome(migrated.value.active, receipt.burnedShares, receipt.redeemable,
                                                           events + [event])))))))
  {
    hide LazyMigrate, BurnWorthless, RedeemRecovery, CheckSubPool;
  }
}
