/**
  What every run keeps of the buckets: each is filed under the band of its anchor, and so is every
  ended generation, so two generations rest in one bucket exactly when they ended in one band.
*/
module EngineBands {
  import opened Wrappers
  import opened MoleMath
  import opened Clearing
  import opened Dormant
  import opened DormantInvariant
  import opened DormantTerms
  import opened Engine
  import opened Holdings
  import StoreShares
  import opened EngineInvariant
  import opened EngineSync
  import opened EnginePositions
  import opened EngineOperations
  import opened EngineRuns
  import Capacity
  import opened EngineTerms
  import opened EngineLeaving

  /** Every bucket lies under the tick of its anchor. */
  ghost predicate BucketsBanded(m: Market, bs: map<int, Bucket>) {
    forall t :: t in bs ==> IsTick(m, t, bs[t].anchor)
  }

  /** Every ended generation is logged with the tick of the price it ended at. */
  ghost predicate LogBanded(m: Market, log: seq<RotateRecord>) {
    forall i :: 0 <= i < |log| ==> IsTick(m, log[i].tick, log[i].anchor)
  }

  ghost predicate Banded(m: Market, p: Pool) {
    BucketsBanded(m, View(p.store)) && LogBanded(m, p.log)
  }

  ghost predicate BothBanded(m: Market, sp: SubPool) {
    Banded(m, sp.long) && Banded(m, sp.short)
  }

  /** No bucket is new, and none has another anchor. */
  ghost predicate AnchorsKept(bs: map<int, Bucket>, bs': map<int, Bucket>) {
    forall t :: t in bs' ==> t in bs && bs'[t].anchor == bs[t].anchor
  }

  lemma StaysBanded(m: Market, p: Pool, p': Pool)
    requires Banded(m, p) && p'.log == p.log && AnchorsKept(View(p.store), View(p'.store))
    ensures Banded(m, p')
  {
    hide View, IsTick;
  }

  lemma CreditKeepsAnchors(d: Direction, bs: map<int, Bucket>, price: nat, alloc: nat)
    requires IdealDistribute(d, bs, price, alloc).Ok?
    ensures AnchorsKept(bs, IdealDistribute(d, bs, price, alloc).value.0)
  {
    hide AreWorths, Dues, IsCut, Sums.Sum;
    var worths := WorthsExist(d, bs, price);
    IdealPays(d, bs, price, alloc, worths);
    hide IdealDistribute;
  }

  lemma ReleaseKeepsAnchors(bs: map<int, Bucket>, bs': map<int, Bucket>, tick: int, burn: nat, receipt: RedeemReceipt)
    requires Released(bs, bs', tick, burn, receipt)
    ensures AnchorsKept(bs, bs')
  {
    hide IsFloor;
  }

  lemma FiledIsBanded(m: Market, p: Pool, p': Pool, price: nat, tick: int)
    requires Banded(m, p) && Filed(m, p, p', price, tick)
    ensures Banded(m, p')
  {
    hide View, IsTick;
  }

  /** One side in a sync. */
  lemma SideStaysBanded(m: Market, p: Pool, mid: Pool, p': Pool, own: Flow, other: Flow, price: u64)
    requires SideExchanged(p, mid, own, other, price) && SideRotated(m, mid, p', price) && Banded(m, p)
    ensures Banded(m, p')
  {
    hide Banded, RotatedTo, BucketTick, View, Filed, AnchorsKept, IdealDistribute, StoreShares.SharesOf, Value;
    CreditKeepsAnchors(p.store.direction, View(p.store), price, own.toRecovery + own.residual);
    StaysBanded(m, p, mid);
    if mid.equity == 0 && mid.shares > 0 {
      RotationFiles(m, mid, p', price);
      FiledIsBanded(m, mid, p', price, BucketTick(m, price).value);
    }
  }

  lemma SyncStaysBanded(m: Market, sp: SubPool, env: Envelope, ps: map<nat, Position>)
    requires WorldOk(sp, ps) && BothBanded(m, sp) && SyncPool(m, sp, env).Ok?
    ensures BothBanded(m, SyncPool(m, sp, env).value.0) && WorldOk(SyncPool(m, sp, env).value.0, ps)
  {
    hide WorldOk, SyncPool, Midway, PoolCore, SideExchanged, SideRotated, SyncEvents, Banded;
    SyncKeepsWorld(m, sp, env, ps);
    var (sp', out) := SyncPool(m, sp, env).value;
    var mid := Midway(m, sp, env);
    SideStaysBanded(m, sp.long, mid.long, sp'.long, out.long, out.short, env.pNow);
    SideStaysBanded(m, sp.short, mid.short, sp'.short, out.short, out.long, env.pNow);
  }

  lemma OtherSideBanded(m: Market, sp: SubPool, d: Direction, p': Pool)
    requires BothBanded(m, sp) && Banded(m, p')
    ensures BothBanded(m, sp.With(d, p'))
  {
    hide Banded;
  }

  lemma FreedIsBanded(m: Market, p: Pool, p': Pool, pos: Position, receipt: RedeemReceipt)
    requires Banded(m, p) && RecoveryFreed(p, p', pos, receipt) && p'.log == p.log
    ensures Banded(m, p')
  {
    hide Banded, View, Released, AnchorsKept;
    if pos.recovery > 0 {
      ReleaseKeepsAnchors(View(p.store), View(p'.store), pos.tick.value, pos.recovery, receipt);
    } else {
      SameAnchors(View(p.store));
    }
    StaysBanded(m, p, p');
  }

  lemma SameAnchors(bs: map<int, Bucket>)
    ensures AnchorsKept(bs, bs)
  {
  }

  lemma BooksStayBanded(m: Market, p: Pool, p': Pool)
    requires Banded(m, p) && p'.log == p.log && View(p'.store) == View(p.store)
    ensures Banded(m, p')
  {
    hide View, IsTick;
  }

  lemma LeavingStaysBanded(m: Market, sp1: SubPool, sp': SubPool, d: Direction, pos: Position, receipt: RedeemReceipt)
    requires BothBanded(m, sp1) && sp' == sp1.With(d, sp'.Side(d))
    requires RecoveryFreed(sp1.Side(d), sp'.Side(d), pos, receipt) && sp'.Side(d).log == sp1.Side(d).log
    ensures BothBanded(m, sp')
  {
    hide Banded, RecoveryFreed;
    FreedIsBanded(m, sp1.Side(d), sp'.Side(d), pos, receipt);
    OtherSideBanded(m, sp1, d, sp'.Side(d));
  }

  lemma OpenStaysBanded(m: Market, sp: SubPool, env: Envelope, d: Direction, gross: u64, id: nat, ps: map<nat, Position>)
    requires WorldOk(sp, ps) && BothBanded(m, sp) && id !in ps && OpenPosition(m, sp, env, d, gross, id).Ok?
    ensures BothBanded(m, OpenPosition(m, sp, env, d, gross, id).value.0)
  {
    hide WorldOk, SyncPool, OpenPosition, BothBanded, Synced, Funds;
    OpenKeepsWorld(m, sp, env, d, gross, id, ps);
    SyncStaysBanded(m, sp, env, ps);
    var sp1 := SyncPool(m, sp, env).value.0;
    var sp' := OpenPosition(m, sp, env, d, gross, id).value.0;
    SideBanded(m, sp1, d);
    BooksStayBanded(m, sp1.Side(d), sp'.Side(d));
    OtherSideBanded(m, sp1, d, sp'.Side(d));
  }

  lemma SideBanded(m: Market, sp: SubPool, d: Direction)
    requires BothBanded(m, sp)
    ensures Banded(m, sp.Side(d))
  {
    hide Banded;
  }

  lemma PreSyncStaysBanded(m: Market, sp: SubPool, d: Direction, tick: int, ps: map<nat, Position>)
    requires WorldOk(sp, ps) && BothBanded(m, sp) && PreSyncBucket(m, sp, d, tick).Ok?
    ensures BothBanded(m, PreSyncBucket(m, sp, d, tick).value.0)
  {
    hide WorldOk, PreSyncBucket, BothBanded, ApplyBucket, PoolCore, SideOk, PositionsOk, Inv, View, StoreShares.SharesOf;
    SidesCore(sp, ps);
    SideParts(sp.Side(d), d, ps);
    PoolParts(sp.Side(d), d);
    Capacity.PreSyncChecked(m, sp, d, tick);
    AppliedView(sp.Side(d).store, tick);
    SideBanded(m, sp, d);
    var p' := sp.Side(d).(store := ApplyBucket(sp.Side(d).store, tick).value);
    BooksStayBanded(m, sp.Side(d), p');
    OtherSideBanded(m, sp, d, p');
  }

  lemma AppliedView(s: Store, tick: int)
    requires Inv(s) && ApplyBucket(s, tick).Ok?
    ensures View(ApplyBucket(s, tick).value) == View(s)
  {
    hide Inv, View, ApplyKeys;
    ApplyKeysRefines(s, {tick});
  }

  /** Every operation keeps the buckets and the rotate logs of both sides filed by band. */
  lemma StepKeepsBands(m: Market, w: World, op: EngineOp)
    requires Sound(w) && Applicable(w, op) && BothBanded(m, w.sp) && EngineStep(m, w, op).Ok?
    ensures BothBanded(m, EngineStep(m, w, op).value.0.sp)
  {
    hide WorldOk, BothBanded, SyncPool, OpenPosition, ClosePosition, ForceClose, ClaimRecovery, PreSyncBucket, LazyMigrate,
      RecoveryFreed, IsActiveValue;
    match op
    case SyncOp(env) => SyncStaysBanded(m, w.sp, env, w.ps);
    case OpenOp(env, d, gross, id) => OpenStaysBanded(m, w.sp, env, d, gross, id, w.ps);
    case CloseOp(env, id) =>
      var receipt := CloseReleases(m, w.sp, env, w.ps, id);
      Leaving(m, w.sp, env, w.ps, id, ClosePosition(m, w.sp, env, w.ps[id]).value.0, receipt);
    case ForceCloseOp(env, id, ack) =>
      var receipt := ForceCloseReleases(m, w.sp, env, w.ps, id, ack);
      Leaving(m, w.sp, env, w.ps, id, ForceClose(m, w.sp, env, w.ps[id], ack).value.0, receipt);
    case ClaimOp(env, id) =>
      var receipt := ClaimReleases(m, w.sp, env, w.ps, id);
      Leaving(m, w.sp, env, w.ps, id, ClaimRecovery(m, w.sp, env, w.ps[id]).value.0, receipt);
    case PreSyncOp(d, tick) => PreSyncStaysBanded(m, w.sp, d, tick, w.ps);
    case HarvestOp(d) => HarvestStaysBanded(m, w.sp, d);
  }

  lemma Leaving(m: Market, sp: SubPool, env: Envelope, ps: map<nat, Position>, id: nat, sp': SubPool, receipt: RedeemReceipt)
    requires WorldOk(sp, ps) && BothBanded(m, sp) && id in ps && SyncPool(m, sp, env).Ok?
    requires
      var d := ps[id].direction;
      var sp1 := SyncPool(m, sp, env).value.0;
      && sp' == sp1.With(d, sp'.Side(d)) && sp'.Side(d).log == sp1.Side(d).log
      && LazyMigrate(sp1.Side(d), ps[id]).Ok?
      && RecoveryFreed(sp1.Side(d), sp'.Side(d), LazyMigrate(sp1.Side(d), ps[id]).value, receipt)
    ensures BothBanded(m, sp')
  {
    hide WorldOk, BothBanded, SyncPool, LazyMigrate, RecoveryFreed;
    SyncStaysBanded(m, sp, env, ps);
    var d := ps[id].direction;
    var sp1 := SyncPool(m, sp, env).value.0;
    LeavingStaysBanded(m, sp1, sp', d, LazyMigrate(sp1.Side(d), ps[id]).value, receipt);
  }

  lemma HarvestStaysBanded(m: Market, sp: SubPool, d: Direction)
    requires BothBanded(m, sp) && HarvestDust(m, sp, d).Ok?
    ensures BothBanded(m, HarvestDust(m, sp, d).value.0)
  {
    hide BothBanded, CheckSubPool, View;
    SideBanded(m, sp, d);
    BooksStayBanded(m, sp.Side(d), sp.Side(d).(dust := 0));
    OtherSideBanded(m, sp, d, sp.Side(d).(dust := 0));
  }

  lemma NewIsBanded(m: Market, id: nat, lastPrice: nat, lastSlot: nat)
    ensures BothBanded(m, NewSubPool(id, lastPrice, lastSlot))
  {
  }

  /** Two generations of a side rest in one bucket exactly when they ended at prices of one band. */
  lemma OneBucketOneBand(m: Market, p: Pool, i: nat, j: nat)
    requires Banded(m, p) && i < |p.log| && j < |p.log|
    ensures
      p.log[i].tick == p.log[j].tick <==>
      exists n: nat :: InBand(m, n, p.log[i].anchor) && InBand(m, n, p.log[j].anchor)
  {
    hide View, IsTick, InBand;
    TicksAgree(m, p.log[i].anchor, p.log[j].anchor, p.log[i].tick, p.log[j].tick);
  }
}
