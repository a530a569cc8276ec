/**
  Every successful engine operation leaves both stores within the market's capacities and past the
  run-time checks, so that they can be written back to their accounts.
*/
module Capacity {
  import opened Wrappers
  import opened MoleMath
  import opened Clearing
  import opened Dormant
  import opened DormantInvariant
  import DormantRefinement
  import opened Engine
  import opened Holdings
  import StoreShares
  import opened EngineInvariant
  import opened EngineSync
  import EnginePositions
  import opened EngineOperations
  import opened EngineRuns

  predicate Roomy(m: Market, s: Store) {
    |s.buckets| <= m.maxBuckets && |s.ledger| <= m.ledgerCap
  }

  predicate Fits(m: Market, sp: SubPool) {
    Roomy(m, sp.long.store) && Roomy(m, sp.short.store)
  }

  // ---------------------------------------------------------------- stores

  lemma SharesSize(s: Store)
    ensures |StoreShares.SharesOf(s)| == |s.buckets|
  {
    assert StoreShares.SharesOf(s).Keys == s.buckets.Keys;
    assert |StoreShares.SharesOf(s)| == |StoreShares.SharesOf(s).Keys| && |s.buckets| == |s.buckets.Keys|;
  }

  lemma SameSharesSameSize(s: Store, s': Store)
    requires StoreShares.SharesOf(s') == StoreShares.SharesOf(s)
    ensures |s'.buckets| == |s.buckets|
  {
    hide BucketShares;
    SharesSize(s);
    SharesSize(s');
  }

  lemma PayOutLedger(s: Store, mode: Mode, price: nat, alloc: nat)
    requires PayOut(s, mode, price, alloc).Ok?
    ensures |PayOut(s, mode, price, alloc).value.0.ledger| <= |s.ledger| + 1
  {
    hide ClaimsFit, TotalOutstanding, Shares;
  }

  lemma DistributeRoomy(m: Market, s: Store, price: nat, alloc: nat)
    requires Inv(s) && alloc < U128 && Roomy(m, s)
    requires Distribute(s, m.mode, price, alloc, m.ledgerCap).Ok?
    ensures Roomy(m, Distribute(s, m.mode, price, alloc, m.ledgerCap).value.0)
  {
    hide Prepared, PayOut, Inv, View, BucketShares;
    StoreShares.DistributeKeepsShares(s, m.mode, price, alloc, m.ledgerCap);
    var s' := Distribute(s, m.mode, price, alloc, m.ledgerCap).value.0;
    SameSharesSameSize(s, s');
    if alloc > 0 {
      DormantRefinement.PreparedRefines(s, price, m.ledgerCap);
      PayOutLedger(Prepared(s, price, m.ledgerCap).value, m.mode, price, alloc);
    }
  }

  lemma MergeRoomy(m: Market, s: Store, tick: int, anchor: nat, shares: nat, notional: nat)
    requires Inv(s) && Roomy(m, s) && shares < U128 && notional < U128
    requires InsertOrMerge(s, tick, anchor, shares, notional, 1, m.maxBuckets).Ok?
    ensures Roomy(m, InsertOrMerge(s, tick, anchor, shares, notional, 1, m.maxBuckets).value)
  {
    hide ApplyBucket, Inv, View;
    var s' := InsertOrMerge(s, tick, anchor, shares, notional, 1, m.maxBuckets).value;
    if tick in s.buckets {
      DormantRefinement.AppliedBucket(s, tick);
      assert s'.buckets.Keys == s.buckets.Keys;
      assert |s'.buckets| == |s'.buckets.Keys| && |s.buckets| == |s.buckets.Keys|;
    } else {
      assert s'.buckets.Keys == s.buckets.Keys + {tick};
      assert |s'.buckets.Keys| == |s.buckets.Keys| + 1;
      assert |s'.buckets| == |s'.buckets.Keys| && |s.buckets| == |s.buckets.Keys|;
    }
  }

  lemma RedeemRoomy(m: Market, s: Store, tick: int, burn: nat)
    requires Inv(s) && Roomy(m, s) && Redeem(s, tick, burn).Ok?
    ensures Roomy(m, Redeem(s, tick, burn).value.0)
  {
    hide ApplyBucket, Inv, View, RedeemFrom;
    DormantRefinement.AppliedBucket(s, tick);
    var s' := Redeem(s, tick, burn).value.0;
    assert s'.buckets.Keys <= s.buckets.Keys;
    SubsetSize(s'.buckets, s.buckets);
  }

  lemma SubsetSize<K, V, W>(a: map<K, V>, b: map<K, W>)
    requires a.Keys <= b.Keys
    ensures |a| <= |b|
  {
    KeysSize(a.Keys, b.Keys);
    assert |a| == |a.Keys| && |b| == |b.Keys|;
  }

  lemma KeysSize<K>(a: set<K>, b: set<K>)
    requires a <= b
    ensures |a| <= |b|
  {
    assert b == a + (b - a);
  }

  // ---------------------------------------------------------------- sync

  lemma ReceiveRoomy(m: Market, p: Pool, d: Direction, pNow: nat, toActive: nat, toRecovery: nat)
    requires PoolCore(p, d) && toRecovery < U128 && Roomy(m, p.store)
    requires Receive(m, p, pNow, toActive, toRecovery).Ok?
    ensures Roomy(m, Receive(m, p, pNow, toActive, toRecovery).value.0.store)
  {
    hide PoolCore, Distribute, Roomy;
    StoreIsInv(p, d);
    if toRecovery > 0 && Distribute(p.store, m.mode, pNow, toRecovery, m.ledgerCap).Ok? {
      DistributeRoomy(m, p.store, pNow, toRecovery);
    }
  }

  lemma StoreIsInv(p: Pool, d: Direction)
    requires PoolCore(p, d)
    ensures Inv(p.store) && p.shares < U128 && p.notional < U128 && p.recovery < U128 && p.equity < U128
  {
    hide Inv;
  }

  lemma TransferFits(m: Market, sp: SubPool, d: Direction, active: nat, total: nat, pNow: nat)
    requires PoolCore(sp.long, Long) && PoolCore(sp.short, Short) && Fits(m, sp)
    requires 0 < total && active <= total && Transfer(m, sp, d, active, total, pNow).Ok?
    ensures Fits(m, Transfer(m, sp, d, active, total, pNow).value.0)
  {
    hide PoolCore, Transfer, Receive, FloorDiv, Roomy;
    StoreIsInv(sp.Side(d.Opposite()), d.Opposite());
    TransferUnfolds(m, sp, d, active, total, pNow);
    var transfer := Min(total, sp.Side(d.Opposite()).equity);
    if transfer > 0 {
      ReceiveRoomy(m, sp.Side(d), d, pNow, FloorDiv(transfer, active, total), transfer - FloorDiv(transfer, active, total));
    }
  }

  lemma SettleFits(m: Market, sp: SubPool, demand: Demand, pNow: nat)
    requires PoolCore(sp.long, Long) && PoolCore(sp.short, Short) && Fits(m, sp)
    requires sp.long.store.direction.Long? && sp.short.store.direction.Short?
    requires Demands(sp, pNow) == Ok(demand) && Settle(m, sp, demand, pNow).Ok?
    ensures Fits(m, Settle(m, sp, demand, pNow).value.0)
  {
    hide PoolCore, Transfer, Demands, Fits;
    OneSidedDemand(sp, pNow);
    if demand.longTotal > 0 {
      TransferFits(m, sp, Long, demand.longActive, demand.longTotal, pNow);
    } else if demand.shortTotal > 0 {
      TransferFits(m, sp, Short, demand.shortActive, demand.shortTotal, pNow);
    }
  }

  lemma RotateRoomy(m: Market, id: nat, d: Direction, p: Pool, pNow: u64)
    requires PoolCore(p, d) && Roomy(m, p.store) && RotateIfEmpty(m, id, d, p, pNow).Ok?
    ensures Roomy(m, RotateIfEmpty(m, id, d, p, pNow).value.0.store)
  {
    StoreIsInv(p, d);
    if p.equity == 0 && p.shares > 0 {
      RotateUnfolds(m, p, pNow);
      hide PoolCore, Rotate, BucketTick, InsertOrMerge, Roomy;
      MergeRoomy(m, p.store, BucketTick(m, pNow).value, pNow, p.shares, p.notional);
    }
  }

  lemma RotateBothFits(m: Market, sp: SubPool, pNow: u64)
    requires PoolCore(sp.long, Long) && PoolCore(sp.short, Short) && Fits(m, sp) && RotateBoth(m, sp, pNow).Ok?
    ensures Fits(m, RotateBoth(m, sp, pNow).value.0)
  {
    hide PoolCore, RotateIfEmpty, Roomy;
    RotateRoomy(m, sp.id, Long, sp.long, pNow);
    RotateRoomy(m, sp.id, Short, sp.short, pNow);
  }

  /** A successful sync has passed its own checks. */
  lemma SyncChecked(m: Market, sp: SubPool, env: Envelope)
    requires SyncPool(m, sp, env).Ok?
    ensures CheckSubPool(SyncPool(m, sp, env).value.0).Ok?
  {
    hide CheckSubPool, Demands, Settle, RotateBoth, PriceMoveBps;
  }

  lemma SyncFits(m: Market, sp: SubPool, env: Envelope, ps: map<nat, Position>)
    requires WorldOk(sp, ps) && Fits(m, sp) && SyncPool(m, sp, env).Ok?
    ensures Fits(m, SyncPool(m, sp, env).value.0)
  {
    hide WorldOk, PoolCore, SyncPool, MovePrice, Demands, Settle, RotateBoth, CheckSubPool, Roomy, SideOk, PositionsOk;
    SyncUnfolds(m, sp, env);
    SidesCore(sp, ps);
    if Moved(sp, env) {
      MovePriceUnfolds(m, sp, env);
      var demand := Demands(sp, env.pNow).value;
      SettleIs(m, sp, demand, env.pNow);
      SettleFits(m, sp, demand, env.pNow);
      var mid := Settle(m, sp, demand, env.pNow).value.0;
      RotateBothFits(m, Priced(mid, env), env.pNow);
    }
  }

  // ---------------------------------------------------------------- operations

  /** What every successful operation ends with. */
  ghost predicate Stored(m: Market, sp: SubPool) {
    Fits(m, sp) && CheckSubPool(sp).Ok?
  }

  lemma RedeemRecoveryRoomy(m: Market, p: Pool, pos: Position)
    requires Inv(p.store) && Roomy(m, p.store) && RedeemRecovery(p, pos).Ok?
    ensures Roomy(m, RedeemRecovery(p, pos).value.0.store)
  {
    if pos.recovery > 0 {
      RedeemRoomy(m, p.store, pos.tick.value, pos.recovery);
    }
    hide Redeem, Roomy, Inv;
  }

  lemma SideFits(m: Market, sp: SubPool, d: Direction, p: Pool)
    requires Fits(m, sp) && Roomy(m, p.store)
    ensures Fits(m, sp.With(d, p)) && Roomy(m, sp.Side(d).store)
  {
  }

  lemma KeepsStore(p: Pool, pos: Position, mint: Mint, notional: nat, amount: nat)
    ensures CloseActive(p, pos).Ok? ==> CloseActive(p, pos).value.0.store == p.store
    ensures BurnWorthless(p, pos).Ok? ==> BurnWorthless(p, pos).value.0.store == p.store
    ensures AddShares(p, mint, notional).Ok? ==> AddShares(p, mint, notional).value.store == p.store
    ensures Forfeited(p, amount).store == p.store
  {
    hide FloorDiv;
  }

  lemma SyncedStores(m: Market, sp: SubPool, env: Envelope, ps: map<nat, Position>, d: Direction)
    requires WorldOk(sp, ps) && Fits(m, sp) && SyncPool(m, sp, env).Ok?
    ensures Fits(m, SyncPool(m, sp, env).value.0)
    ensures Inv(SyncPool(m, sp, env).value.0.Side(d).store) && Roomy(m, SyncPool(m, sp, env).value.0.Side(d).store)
  {
    hide WorldOk, SyncPool, PoolCore, SideOk, PositionsOk, Synced, Inv, Roomy;
    SyncFits(m, sp, env, ps);
    SyncKeepsWorld(m, sp, env, ps);
    var sp1 := SyncPool(m, sp, env).value.0;
    SidesCore(sp1, ps);
    StoreIsInv(sp1.Side(d), d);
  }

  lemma OpenFits(m: Market, sp: SubPool, env: Envelope, d: Direction, gross: u64, id: nat, ps: map<nat, Position>)
    requires WorldOk(sp, ps) && Fits(m, sp) && OpenPosition(m, sp, env, d, gross, id).Ok?
    ensures Stored(m, OpenPosition(m, sp, env, d, gross, id).value.0)
  {
    hide WorldOk, SyncPool, OpenPosition, CheckSubPool, Principal, MintShares, AddShares, MulDivFloor, Roomy;
    OpenUnfolds(m, sp, env, d, gross, id);
    SyncedStores(m, sp, env, ps, d);
    var (sp', pos, out) := OpenPosition(m, sp, env, d, gross, id).value;
    var sp1 := SyncPool(m, sp, env).value.0;
    KeepsStore(sp1.Side(d), pos, out.mint, out.notional, 0);
    SideFits(m, sp1, d, AddShares(sp1.Side(d), out.mint, out.notional).value);
  }

  lemma CloseFits(m: Market, sp: SubPool, env: Envelope, ps: map<nat, Position>, id: nat)
    requires WorldOk(sp, ps) && id in ps && Fits(m, sp) && ClosePosition(m, sp, env, ps[id]).Ok?
    ensures Stored(m, ClosePosition(m, sp, env, ps[id]).value.0)
  {
    hide WorldOk, SyncPool, ClosePosition, CheckSubPool, LazyMigrate, CloseActive, RedeemRecovery, Roomy, Synced,
      PaidOff, Inv;
    CloseUnfolds(m, sp, env, ps[id]);
    CloseChecked(m, sp, env, ps[id]);
    var d := ps[id].direction;
    SyncedStores(m, sp, env, ps, d);
    SyncKeepsWorld(m, sp, env, ps);
    var sp1 := SyncPool(m, sp, env).value.0;
    CashOutKeepsWorld(sp1, ps, id);
    var pos := LazyMigrate(sp1.Side(d), ps[id]).value;
    KeepsStore(sp1.Side(d), pos, Mint(pos.active, 0, 0), 0, 0);
    var a := CloseActive(sp1.Side(d), pos).value;
    RedeemRecoveryRoomy(m, a.0, a.1);
    SideFits(m, sp1, d, RedeemRecovery(a.0, a.1).value.0);
  }

  lemma CloseChecked(m: Market, sp: SubPool, env: Envelope, pos: Position)
    requires ClosePosition(m, sp, env, pos).Ok?
    ensures CheckSubPool(ClosePosition(m, sp, env, pos).value.0).Ok?
  {
    hide SyncPool, LazyMigrate, CloseActive, RedeemRecovery, CheckSubPool;
  }

  lemma ForceCloseFits(m: Market, sp: SubPool, env: Envelope, ps: map<nat, Position>, id: nat, ack: bool)
    requires WorldOk(sp, ps) && id in ps && Fits(m, sp) && ForceClose(m, sp, env, ps[id], ack).Ok?
    ensures Stored(m, ForceClose(m, sp, env, ps[id], ack).value.0)
  {
    hide WorldOk, SyncPool, ForceClose, CheckSubPool, LazyMigrate, BurnWorthless, RedeemRecovery, Roomy, Synced, Inv,
      HasValue, Forfeited, EnginePositions.Funds;
    ForceCloseUnfolds(m, sp, env, ps[id], ack);
    ForceCloseChecked(m, sp, env, ps[id], ack);
    var d := ps[id].direction;
    SyncedStores(m, sp, env, ps, d);
    SyncKeepsWorld(m, sp, env, ps);
    var sp1 := SyncPool(m, sp, env).value.0;
    BurnOutKeepsWorld(sp1, ps, id);
    var pos := LazyMigrate(sp1.Side(d), ps[id]).value;
    KeepsStore(sp1.Side(d), pos, Mint(pos.active, 0, 0), 0, 0);
    var a := BurnWorthless(sp1.Side(d), pos).value;
    RedeemRecoveryRoomy(m, a.0, a.1);
    var r := RedeemRecovery(a.0, a.1).value;
    KeepsStore(r.0, pos, Mint(pos.active, 0, 0), 0, r.2.redeemable);
    SideFits(m, sp1, d, Forfeited(r.0, r.2.redeemable));
  }

  lemma ForceCloseChecked(m: Market, sp: SubPool, env: Envelope, pos: Position, ack: bool)
    requires ForceClose(m, sp, env, pos, ack).Ok?
    ensures CheckSubPool(ForceClose(m, sp, env, pos, ack).value.0).Ok?
  {
    hide SyncPool, LazyMigrate, BurnWorthless, RedeemRecovery, CheckSubPool;
  }

  lemma ClaimFits(m: Market, sp: SubPool, env: Envelope, ps: map<nat, Position>, id: nat)
    requires WorldOk(sp, ps) && id in ps && Fits(m, sp) && ClaimRecovery(m, sp, env, ps[id]).Ok?
    ensures Stored(m, ClaimRecovery(m, sp, env, ps[id]).value.0)
  {
    hide WorldOk, SyncPool, ClaimRecovery, CheckSubPool, LazyMigrate, RedeemRecovery, Roomy, Synced, Inv,
      EnginePositions.RedeemedFrom;
    ClaimUnfolds(m, sp, env, ps[id]);
    ClaimChecked(m, sp, env, ps[id]);
    var d := ps[id].direction;
    SyncedStores(m, sp, env, ps, d);
    SyncKeepsWorld(m, sp, env, ps);
    var sp1 := SyncPool(m, sp, env).value.0;
    ClaimKeepsSide(sp1, ps, id);
    var pos := LazyMigrate(sp1.Side(d), ps[id]).value;
    RedeemRecoveryRoomy(m, sp1.Side(d), pos);
    SideFits(m, sp1, d, RedeemRecovery(sp1.Side(d), pos).value.0);
  }

  lemma ClaimChecked(m: Market, sp: SubPool, env: Envelope, pos: Position)
    requires ClaimRecovery(m, sp, env, pos).Ok?
    ensures CheckSubPool(ClaimRecovery(m, sp, env, pos).value.0).Ok?
  {
    hide SyncPool, LazyMigrate, RedeemRecovery, CheckSubPool;
  }

  lemma ApplyRoomy(m: Market, s: Store, tick: int)
    requires Inv(s) && Roomy(m, s) && ApplyBucket(s, tick).Ok?
    ensures Roomy(m, ApplyBucket(s, tick).value)
  {
    DormantRefinement.AppliedBucket(s, tick);
    hide ApplyBucket, Inv, View;
    var s' := ApplyBucket(s, tick).value;
    assert |s'.buckets| == |s'.buckets.Keys| && |s.buckets| == |s.buckets.Keys|;
  }

  lemma PreSyncChecked(m: Market, sp: SubPool, d: Direction, tick: int)
    requires PreSyncBucket(m, sp, d, tick).Ok?
    ensures CheckSubPool(PreSyncBucket(m, sp, d, tick).value.0).Ok?
    ensures ApplyBucket(sp.Side(d).store, tick).Ok?
    ensures PreSyncBucket(m, sp, d, tick).value.0
         == sp.With(d, sp.Side(d).(store := ApplyBucket(sp.Side(d).store, tick).value))
  {
    hide ApplyBucket, CheckSubPool;
  }

  lemma PreSyncFits(m: Market, sp: SubPool, d: Direction, tick: int, ps: map<nat, Position>)
    requires WorldOk(sp, ps) && Fits(m, sp) && PreSyncBucket(m, sp, d, tick).Ok?
    ensures Stored(m, PreSyncBucket(m, sp, d, tick).value.0)
  {
    hide WorldOk, ApplyBucket, CheckSubPool, Inv, PoolCore, SideOk, PositionsOk, PreSyncBucket, Roomy;
    SidesCore(sp, ps);
    StoreIsInv(sp.Side(d), d);
    PreSyncChecked(m, sp, d, tick);
    SideFits(m, sp, d, sp.Side(d));
    ApplyRoomy(m, sp.Side(d).store, tick);
    SideFits(m, sp, d, sp.Side(d).(store := ApplyBucket(sp.Side(d).store, tick).value));
  }

  lemma HarvestFits(m: Market, sp: SubPool, d: Direction)
    requires Fits(m, sp) && HarvestDust(m, sp, d).Ok?
    ensures Stored(m, HarvestDust(m, sp, d).value.0)
  {
    hide CheckSubPool;
  }

  /** Every successful step leaves a sub pool that fits its accounts and has passed the checks. */
  lemma StepStored(m: Market, w: World, op: EngineOp)
    requires Sound(w) && Applicable(w, op) && Fits(m, w.sp) && EngineStep(m, w, op).Ok?
    ensures Stored(m, EngineStep(m, w, op).value.0.sp)
  {
    hide WorldOk, SyncPool, OpenPosition, ClosePosition, ForceClose, ClaimRecovery, PreSyncBucket, HarvestDust,
      CheckSubPool, Fits;
    match op
    case SyncOp(env) =>
      SyncFits(m, w.sp, env, w.ps);
      SyncChecked(m, w.sp, env);
    case OpenOp(env, d, gross, id) => OpenFits(m, w.sp, env, d, gross, id, w.ps);
    case CloseOp(env, id) => CloseFits(m, w.sp, env, w.ps, id);
    case ForceCloseOp(env, id, ack) => ForceCloseFits(m, w.sp, env, w.ps, id, ack);
    case ClaimOp(env, id) => ClaimFits(m, w.sp, env, w.ps, id);
    case PreSyncOp(d, tick) => PreSyncFits(m, w.sp, d, tick, w.ps);
    case HarvestOp(d) => HarvestFits(m, w.sp, d);
  }
}
