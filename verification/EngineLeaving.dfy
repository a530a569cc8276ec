/** What closes, forced closes and claims release, in plain arithmetic and to the unit. */
module EngineLeaving {
  import opened Wrappers
  import opened MoleMath
  import opened Clearing
  import opened Dormant
  import opened DormantInvariant
  import opened DormantTerms
  import opened Engine
  import opened Holdings
  import opened EngineInvariant
  import opened EngineSync
  import opened EnginePositions
  import opened EngineOperations

  /** `p'` is `p` once recovery shares of `pos`, if it has any, were redeemed for `receipt`. */
  ghost predicate RecoveryFreed(p: Pool, p': Pool, pos: Position, receipt: RedeemReceipt) {
    if pos.recovery > 0 then
      pos.tick.Some? && Released(View(p.store), View(p'.store), pos.tick.value, pos.recovery, receipt)
    else p'.store == p.store && receipt == RedeemReceipt(0, 0, 0)
  }

  /** Active shares of `pos` are worth `value`: their part of the equity, rounded down. */
  ghost predicate IsActiveValue(p: Pool, pos: Position, value: nat) {
    if pos.active > 0 then pos.active <= p.shares && IsFloor(value, p.equity, pos.active, p.shares) else value == 0
  }

  lemma StoreFreed(p: Pool, p': Pool, pos: Position, receipt: RedeemReceipt)
    requires StoreLeft(p, p', pos, receipt)
    ensures RecoveryFreed(p, p', pos, receipt)
  {
    hide View, IdealRedeem, Released;
    if pos.recovery > 0 {
      IdealReleases(View(p.store), pos.tick.value, pos.recovery);
    }
  }

  lemma PaidOffFrees(p: Pool, p': Pool, pos: Position, value: nat, receipt: RedeemReceipt)
    requires PaidOff(p, p', pos, value, receipt) && (pos.active > 0 ==> pos.recovery == 0)
    ensures RecoveryFreed(p, p', pos, receipt) && IsActiveValue(p, pos, value)
    ensures p'.log == p.log && p'.generation == p.generation
    ensures p'.equity == p.equity - value && p'.dust == p.dust && p'.recovery == p.recovery - pos.recovery
  {
    hide View, IdealRedeem, FloorDiv, IsFloor, RecoveryFreed;
    PaidOffStore(p, p', pos, value, receipt);
    StoreFreed(p, p', pos, receipt);
    if pos.active > 0 {
      FloorIs(value, p.equity, pos.active, p.shares);
    }
  }

  /** A migrated position holds active or recovery shares, never both. */
  lemma MigratedExclusive(sp: SubPool, ps: map<nat, Position>, id: nat)
    requires WorldOk(sp, ps) && id in ps
    ensures
      var r := LazyMigrate(sp.Side(ps[id].direction), ps[id]);
      r.Ok? && (r.value.active > 0 ==> r.value.recovery == 0)
  {
    hide WorldOk, PoolOk, PoolBacked, HoldingsOf, LazyMigrate, Holds;
    MigratedHolds(sp, ps, id);
  }

  /**
    A close pays the active shares' part of the equity and what the recovery shares redeem for, both
    rounded down, and takes exactly that from the side.
  */
  lemma CloseReleases(m: Market, sp: SubPool, env: Envelope, ps: map<nat, Position>, id: nat)
    returns (receipt: RedeemReceipt)
    requires WorldOk(sp, ps) && id in ps && ClosePosition(m, sp, env, ps[id]).Ok?
    ensures
      var (sp', pos', out) := ClosePosition(m, sp, env, ps[id]).value;
      && SyncPool(m, sp, env).Ok?
      && var d := ps[id].direction;
      var p, p' := SyncPool(m, sp, env).value.0.Side(d), sp'.Side(d);
      && sp' == SyncPool(m, sp, env).value.0.With(d, p')
      && LazyMigrate(p, ps[id]).Ok?
      && var pos := LazyMigrate(p, ps[id]).value;
      && IsActiveValue(p, pos, out.activeValue) && RecoveryFreed(p, p', pos, receipt)
      && out.recoveryValue == receipt.redeemable && out.withdrawable == out.activeValue + receipt.redeemable
      && p'.equity == p.equity - out.activeValue && p'.dust == p.dust && p'.log == p.log
  {
    hide WorldOk, SyncPool, ClosePosition, Synced, Funds, PaidOff, LazyMigrate, RecoveryFreed, IsActiveValue;
    SyncKeepsWorld(m, sp, env, ps);
    CloseKeepsWorld(m, sp, env, ps, id);
    var sp1 := SyncPool(m, sp, env).value.0;
    var (sp', pos', out) := ClosePosition(m, sp, env, ps[id]).value;
    var d := ps[id].direction;
    var pos := LazyMigrate(sp1.Side(d), ps[id]).value;
    MigratedExclusive(sp1, ps, id);
    var r: RedeemReceipt :| PaidOff(sp1.Side(d), sp'.Side(d), pos, out.activeValue, r) && r.redeemable == out.recoveryValue;
    PaidOffFrees(sp1.Side(d), sp'.Side(d), pos, out.activeValue, r);
    receipt := r;
  }

  /** A claim pays what the recovery shares redeem for, rounded down, and touches nothing but their bucket. */
  lemma ClaimReleases(m: Market, sp: SubPool, env: Envelope, ps: map<nat, Position>, id: nat)
    returns (receipt: RedeemReceipt)
    requires WorldOk(sp, ps) && id in ps && ClaimRecovery(m, sp, env, ps[id]).Ok?
    ensures
      var (sp', pos', out) := ClaimRecovery(m, sp, env, ps[id]).value;
      && SyncPool(m, sp, env).Ok?
      && var d := ps[id].direction;
      var p, p' := SyncPool(m, sp, env).value.0.Side(d), sp'.Side(d);
      && sp' == SyncPool(m, sp, env).value.0.With(d, p')
      && p' == p.(store := p'.store, recovery := p'.recovery)
      && LazyMigrate(p, ps[id]).Ok?
      && var pos := LazyMigrate(p, ps[id]).value;
      && pos.recovery > 0 && RecoveryFreed(p, p', pos, receipt) && out.redeemable == receipt.redeemable
      && p'.recovery == p.recovery - pos.recovery
  {
    hide WorldOk, SyncPool, ClaimRecovery, Synced, Funds, LazyMigrate, View, IdealRedeem, Released, Value;
    SyncKeepsWorld(m, sp, env, ps);
    ClaimKeepsWorld(m, sp, env, ps, id);
    var sp1 := SyncPool(m, sp, env).value.0;
    var (sp', pos', out) := ClaimRecovery(m, sp, env, ps[id]).value;
    var d := ps[id].direction;
    var p, p' := sp1.Side(d), sp'.Side(d);
    var pos := LazyMigrate(p, ps[id]).value;
    var r: RedeemReceipt :| RedeemedFrom(p, p', pos.tick.value, pos.recovery, r) && r.redeemable == out.redeemable;
    IdealReleases(View(p.store), pos.tick.value, pos.recovery);
    receipt := r;
  }

  /**
    A forced close burns active shares only when their part of the equity rounds to nothing; what
    the recovery shares redeem for stays in the side as dust.
  */
  lemma ForceCloseReleases(m: Market, sp: SubPool, env: Envelope, ps: map<nat, Position>, id: nat, ack: bool)
    returns (receipt: RedeemReceipt)
    requires WorldOk(sp, ps) && id in ps && ForceClose(m, sp, env, ps[id], ack).Ok?
    ensures
      var (sp', pos', out) := ForceClose(m, sp, env, ps[id], ack).value;
      && ack && SyncPool(m, sp, env).Ok?
      && var d := ps[id].direction;
      var p, p' := SyncPool(m, sp, env).value.0.Side(d), sp'.Side(d);
      && sp' == SyncPool(m, sp, env).value.0.With(d, p')
      && LazyMigrate(p, ps[id]).Ok?
      && var pos := LazyMigrate(p, ps[id]).value;
      && (p.shares > 0 ==> p.equity * pos.active < p.shares)
      && RecoveryFreed(p, p', pos, receipt) && out.forfeited == receipt.redeemable
      && p'.dust == p.dust + receipt.redeemable && p'.equity == p.equity && p'.log == p.log
  {
    hide WorldOk, SyncPool, ForceClose, Synced, Funds, LazyMigrate, BurnWorthless, RedeemRecovery, CheckSubPool,
      StoreLeft, RecoveryFreed, HasValue;
    SyncKeepsWorld(m, sp, env, ps);
    ForceCloseUnfolds(m, sp, env, ps[id], ack);
    var sp1 := SyncPool(m, sp, env).value.0;
    BurnOutKeepsWorld(sp1, ps, id);
    var d := ps[id].direction;
    var p := sp1.Side(d);
    var pos := LazyMigrate(p, ps[id]).value;
    Worthless(p, pos);
    BurnedPool(p, pos);
    var a := BurnWorthless(p, pos).value;
    var r := RedeemRecovery(a.0, a.1).value;
    RedeemedPool(a.0, a.1);
    StoreFreed(p, r.0, pos, r.2);
    receipt := r.2;
    SameStoreFreed(p, r.0, Forfeited(r.0, r.2.redeemable), pos, r.2);
  }

  lemma Worthless(p: Pool, pos: Position)
    requires !HasValue(p, pos)
    ensures p.shares > 0 ==> p.equity * pos.active < p.shares
  {
    if p.shares > 0 && pos.active > 0 {
      FloorBelow(p.equity, pos.active, p.shares, 1);
    }
  }

  lemma BurnedPool(p: Pool, pos: Position)
    requires BurnWorthless(p, pos).Ok?
    ensures
      var p' := BurnWorthless(p, pos).value.0;
      p'.equity == p.equity && p'.dust == p.dust && p'.log == p.log
  {
    hide MulDivFloor;
  }

  lemma RedeemedPool(p: Pool, pos: Position)
    requires RedeemRecovery(p, pos).Ok?
    ensures
      var p' := RedeemRecovery(p, pos).value.0;
      p'.equity == p.equity && p'.dust == p.dust && p'.log == p.log
  {
    hide Redeem;
  }

  lemma SameStoreFreed(p: Pool, p': Pool, q: Pool, pos: Position, receipt: RedeemReceipt)
    requires RecoveryFreed(p, p', pos, receipt) && q.store == p'.store
    ensures RecoveryFreed(p, q, pos, receipt)
  {
    hide View, Released;
  }

  // ---------------------------------------------------------------- what is refused

  /**
    Closing, forced closing and claiming are refused, in this order, for a schema the position or the
    engine does not have, for a missing acknowledgement, for a closed position, and for what the sync is
    refused for; a claim also for a position that rests nowhere.
  */
  lemma LeavingRefuses(m: Market, sp: SubPool, env: Envelope, pos: Position, ack: bool)
    ensures
      var close, force, claim :=
        ClosePosition(m, sp, env, pos), ForceClose(m, sp, env, pos, ack), ClaimRecovery(m, sp, env, pos);
      var synced := SyncPool(m, sp, env);
      if m.schemaVersion != SCHEMA_VERSION_CURRENT || pos.schemaVersion != SCHEMA_VERSION_CURRENT then
        && close == Err(SchemaVersionMismatch) && force == Err(SchemaVersionMismatch)
        && claim == Err(SchemaVersionMismatch)
      else
        && (!ack ==> force == Err(ForfeitAcknowledgementRequired))
        && (pos.status.Closed? ==> close == Err(PositionNotOpen) && (ack ==> force == Err(PositionNotOpen)))
        && (synced.Err? ==>
              && (!pos.status.Closed? ==> close == Err(synced.error) && (ack ==> force == Err(synced.error)))
              && claim == Err(synced.error))
        && (synced.Ok? && pos.active == 0 && pos.recovery == 0 ==> claim == Err(PositionNotOpen))
  {
    hide SyncPool, CloseSynced, ForceCloseSynced, RedeemRecovery, CheckSubPool, FindRecord;
  }

  /** Pre-syncs and harvests are refused for the schema, a paused market, and a bucket that is not there. */
  lemma KeeperRefuses(m: Market, sp: SubPool, d: Direction, tick: int)
    ensures
      var apply, harvest := PreSyncBucket(m, sp, d, tick), HarvestDust(m, sp, d);
      if m.schemaVersion != SCHEMA_VERSION_CURRENT then
        apply == Err(SchemaVersionMismatch) && harvest == Err(SchemaVersionMismatch)
      else if m.paused then apply == Err(MarketPaused) && harvest == Err(MarketPaused)
      else
        && (tick !in sp.Side(d).store.buckets ==> apply == Err(DormantBucketMissing))
        && (harvest.Ok? ==>
              && harvest.value.1 == sp.Side(d).dust
              && harvest.value.0 == sp.With(d, sp.Side(d).(dust := 0)))
  {
    hide ApplyBucket, CheckSubPool;
  }
}
