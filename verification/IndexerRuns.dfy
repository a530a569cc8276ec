/** The indexer beside the runtime: after every clean run it mirrors every sub pool. */
module IndexerRuns {
  import opened Wrappers
  import opened MoleMath
  import opened Clearing
  import opened Dormant
  import opened DormantInvariant
  import DormantRefinement
  import opened Engine
  import opened Holdings
  import opened EngineInvariant
  import opened EngineSync
  import opened EnginePositions
  import opened EngineOperations
  import opened EngineRuns
  import opened ChainMirror
  import opened Indexer
  import opened IndexerViews
  import IndexerReplay
  import opened IndexerSteps

  // ---------------------------------------------------------------- open

  /** A fresh view among the others. */
  lemma OpenedElsewhere(x: State, x': State, id: nat, p: nat, v: PositionView, bound: nat)
    requires x'.positions == x.positions[p := v] && v.subPool == id && p !in x.positions && x'.buckets == x.buckets
    requires forall j: nat :: SubPoolAt(x', j) == SubPoolAt(x, j)
    requires MoneyOk(x) && ProfitsWithin(x, bound) && v.profit == 0 && v.lockedLoss == 0 && v.principal < U128
    ensures Elsewhere(x, x', id) && MoneyOk(x') && ProfitsWithin(x', bound)
  {
    hide SubPoolAt;
  }

  lemma OpenedShown(x: State, x': State, id: nat, sp: SubPool, sp': SubPool, ps: map<nat, Position>, pos: Position, v: PositionView)
    requires ShowsPositions(x, id, sp, ps) && x'.positions == x.positions[pos.id := v]
    requires pos.id !in ps
    requires sp'.long.log == sp.long.log && sp'.short.log == sp.short.log
    requires sp'.long.generation == sp.long.generation && sp'.short.generation == sp.short.generation
    requires ShowsPosition(v, id, sp'.Side(pos.direction), pos)
    ensures ShowsPositions(x', id, sp', ps[pos.id := pos])
  {
    hide SubPoolAt;
    IndexerReplay.ShownAlike(x, id, sp, sp', ps);
    hide ShowsPosition;
    forall i | i in ps[pos.id := pos]
      ensures i in x'.positions
      ensures ShowsPosition(x'.positions[i], id, sp'.Side(ps[pos.id := pos][i].direction), ps[pos.id := pos][i])
    {
    }
  }

  lemma OpenedView(pos: Position, id: nat, p: Pool)
    requires LogOk(p.log, p.generation) && pos.generation == p.generation && pos.recovery == 0 && pos.tick.None? && pos.status.Open?
    ensures ShowsPosition(
      PositionView(id, pos.direction, pos.principal, pos.notional, pos.active, 0, None, pos.generation, 0, 0, false), id, p, pos)
  {
  }

  lemma OpenKeepsSubPools(x: State, id: nat, p: nat, d: Direction, principal: nat, notional: nat, shares: nat, generation: nat)
    requires SubPoolAt(x, id).Side(d).generation == generation
    ensures
      var x' := ApplyOpen(x, id, p, d, principal, notional, shares, generation);
      && (forall j: nat :: SubPoolAt(x', j) == SubPoolAt(x, j))
      && x'.buckets == x.buckets
      && x'.positions == x.positions[p := PositionView(id, d, principal, notional, shares, 0, None, generation, 0, 0, false)]
  {
  }

  /** Equal stores and logs, equal sides. */
  lemma SideUnmoved(x: State, x': State, id: nat, d: Direction, p: Pool, p': Pool)
    requires ShowsSide(x, id, d, p) && x'.buckets == x.buckets && SubPoolAt(x', id) == SubPoolAt(x, id)
    requires View(p'.store) == View(p.store) && p'.log == p.log && p'.generation == p.generation
    ensures ShowsSide(x', id, d, p')
  {
    IndexerReplay.BucketsDecide(x, x', id, d);
    hide SideBuckets, Stripped, View, SubPoolAt;
  }

  /** A `PositionOpened` event, replayed. */
  lemma OpenReplayed(x: State, m: Market, sp1: SubPool, sp': SubPool, d: Direction, gross: u64, pos: Position, out: OpenOutcome,
                     ps: map<nat, Position>, bound: nat)
    requires WorldOk(sp1, ps) && Mirrors(x, sp1.id, sp1, ps) && ProfitsWithin(x, bound)
    requires OpenedIn(m, sp1, sp', d, gross, pos, out) && pos.id !in ps && pos.id !in x.positions
    ensures
      var e := PositionOpened(sp1.id, pos.id, d, pos.principal, out.notional, out.mint.shares, pos.generation);
      Replayed(x, ApplyEvents(x, [e]), sp1.id, sp', ps[pos.id := pos], bound, 0)
  {
    hide WorldOk, PoolCore, SideOk, PositionsOk, ShowsSide, ShowsPositions, MoneyOk, ProfitsWithin, Elsewhere,
      OpenedIn, ApplyEvents, SubPoolAt, LogOk, ApplyOpen;
    SidesCore(sp1, ps);
    CoreParts(sp1.Side(d), d);
    OpenedParts(m, sp1, sp', d, gross, pos, out);
    var id := sp1.id;
    OpenedEvent(x, id, pos.id, d, pos.principal, out.notional, out.mint.shares, pos.generation);
    ShownGeneration(x, id, d, sp1.Side(d));
    OpenKeepsSubPools(x, id, pos.id, d, pos.principal, out.notional, out.mint.shares, pos.generation);
    var x' := ApplyOpen(x, id, pos.id, d, pos.principal, out.notional, out.mint.shares, pos.generation);
    OpenedView(pos, id, sp'.Side(d));
    var v := PositionView(id, d, pos.principal, pos.notional, pos.active, 0, None, pos.generation, 0, 0, false);
    OpenedElsewhere(x, x', id, pos.id, v, bound);
    OpenedShown(x, x', id, sp1, sp', ps, pos, v);
    SideUnmoved(x, x', id, Long, sp1.long, sp'.long);
    SideUnmoved(x, x', id, Short, sp1.short, sp'.short);
  }

  lemma ShownGeneration(x: State, id: nat, d: Direction, p: Pool)
    requires ShowsSide(x, id, d, p)
    ensures SubPoolAt(x, id).Side(d).generation == p.generation
  {
  }

  lemma OpenedEvent(x: State, id: nat, p: nat, d: Direction, principal: nat, notional: nat, shares: nat, generation: nat)
    ensures ApplyEvents(x, [PositionOpened(id, p, d, principal, notional, shares, generation)])
         == Ok(ApplyOpen(x, id, p, d, principal, notional, shares, generation))
  {
    OneEvent(x, PositionOpened(id, p, d, principal, notional, shares, generation));
    hide ApplyEvents, ApplyOpen;
  }

  lemma OpenedParts(m: Market, sp1: SubPool, sp': SubPool, d: Direction, gross: u64, pos: Position, out: OpenOutcome)
    requires OpenedIn(m, sp1, sp', d, gross, pos, out)
    ensures sp'.long.store == sp1.long.store && sp'.short.store == sp1.short.store
    ensures sp'.long.log == sp1.long.log && sp'.short.log == sp1.short.log
    ensures sp'.long.generation == sp1.long.generation && sp'.short.generation == sp1.short.generation
    ensures pos.direction == d && pos.generation == sp1.Side(d).generation && pos.principal < U128
    ensures pos.recovery == 0 && pos.tick.None? && pos.status.Open? && pos.active == out.mint.shares && pos.notional == out.notional
  {
  }

  // ---------------------------------------------------------------- leaving

  lemma IdealRedeemUnfolds(vb: map<int, Bucket>, t: int, burn: nat, vb': map<int, Bucket>, receipt: RedeemReceipt)
    requires burn > 0 && IdealRedeem(vb, t, burn) == Ok((vb', receipt))
    ensures t in vb && burn <= vb[t].shares
    ensures
      var (b', paid) := RedeemFrom(vb[t], burn);
      receipt == paid && vb' == if b'.shares == 0 && b'.accrued == 0 then vb - {t} else vb[t := b']
  {
    hide RedeemFrom;
  }

  /** What is left of a bucket view. */
  function BurnedFrom(v: BucketView, receipt: RedeemReceipt): BucketView
    requires receipt.burnedShares <= v.shares
  {
    v.(shares := v.shares - receipt.burnedShares, notional := SaturatingSub(v.notional, receipt.burnedNotional),
       accrued := SaturatingSub(v.accrued, receipt.redeemable))
  }

  lemma BurnFromUnfolds(x: State, k: Key, receipt: RedeemReceipt)
    requires k in x.buckets && receipt.burnedShares <= x.buckets[k].shares
    ensures
      var v' := BurnedFrom(x.buckets[k], receipt);
      BurnFrom(x, k, receipt.burnedShares, receipt.burnedNotional, receipt.redeemable)
        == Ok(x.(buckets := if v'.shares == 0 && v'.accrued == 0 then x.buckets - {k} else x.buckets[k := v']))
  {
  }

  /** The bucket a view shows loses the same shares, notional and value. */
  lemma BurnedBucket(v: BucketView, b: Bucket, burn: nat)
    requires AsBucket(v) == b.(count := 0, applied := 0) && 0 < burn <= b.shares
    ensures
      var (b', receipt) := RedeemFrom(b, burn);
      && receipt.burnedShares == burn <= v.shares
      && AsBucket(BurnedFrom(v, receipt)) == b'.(count := 0, applied := 0)
  {
    PartBound(b.accrued, burn, b.shares);
    PartBound(b.notional, burn, b.shares);
    hide FloorDiv;
  }

  lemma ViewBehind(x: State, id: nat, d: Direction, vb: map<int, Bucket>, t: int)
    requires SideBuckets(x, id, d) == Stripped(vb) && t in vb
    ensures Key(id, d, t) in x.buckets && AsBucket(x.buckets[Key(id, d, t)]) == vb[t].(count := 0, applied := 0)
  {
    SideBucketsAt(x, id, d, t);
    assert t in Stripped(vb) && Stripped(vb)[t] == vb[t].(count := 0, applied := 0);
    hide SideBuckets, Stripped, AsBucket;
  }

  /** Burning from a bucket view does what the ledger-free store does to the bucket. */
  ghost predicate BurnMirrored(x: State, id: nat, d: Direction, r: IndexerResult<State>, vb': map<int, Bucket>) {
    && r.Ok?
    && r.value == x.(buckets := r.value.buckets)
    && SideBuckets(r.value, id, d) == Stripped(vb')
    && SideBuckets(r.value, id, d.Opposite()) == SideBuckets(x, id, d.Opposite())
    && (forall k: Key :: k.subPool != id ==>
          (k in r.value.buckets <==> k in x.buckets) && (k in x.buckets ==> r.value.buckets[k] == x.buckets[k]))
  }

  lemma BurnShown(x: State, id: nat, d: Direction, vb: map<int, Bucket>, t: int, burn: nat, vb': map<int, Bucket>, receipt: RedeemReceipt)
    requires SideBuckets(x, id, d) == Stripped(vb) && burn > 0
    requires IdealRedeem(vb, t, burn) == Ok((vb', receipt))
    ensures BurnMirrored(
      x, id, d, BurnFrom(x, Key(id, d, t), receipt.burnedShares, receipt.burnedNotional, receipt.redeemable), vb')
  {
    hide SideBuckets, Stripped, RedeemFrom, AsBucket, IdealRedeem, BurnFrom, BurnedFrom;
    IdealRedeemUnfolds(vb, t, burn, vb', receipt);
    ViewBehind(x, id, d, vb, t);
    var k := Key(id, d, t);
    BurnedBucket(x.buckets[k], vb[t], burn);
    BurnFromUnfolds(x, k, receipt);
    var (b', v') := (RedeemFrom(vb[t], burn).0, BurnedFrom(x.buckets[k], receipt));
    SameEmptiness(v', b');
    StrippedSet(vb, t, b');
    var x' := BurnFrom(x, k, receipt.burnedShares, receipt.burnedNotional, receipt.redeemable).value;
    if b'.shares == 0 && b'.accrued == 0 {
      DropBucketView(x, x', id, d, t);
    } else {
      SetBucketView(x, x', id, d, t, v');
    }
  }

  lemma SameEmptiness(v: BucketView, b: Bucket)
    requires AsBucket(v) == b.(count := 0, applied := 0)
    ensures v.shares == b.shares && v.accrued == b.accrued
  {
  }

  /** A migrated position's tick. */
  lemma MigratedTick(p: Pool, pos: Position)
    requires LogOk(p.log, p.generation) && PosOk(p.generation, pos)
    ensures LazyMigrate(p, pos).Ok? && LazyMigrate(p, pos).value.tick == TickOf(p, pos)
    ensures LazyMigrate(p, pos).value.status.Closed? ==> pos.status.Closed?
  {
    if pos.active > 0 && pos.generation < p.generation {
      FindFrom(p.log, 0, pos.generation);
    }
  }

  /** One position view is replaced by `v'`. */
  lemma ReplacedShown(x: State, x': State, id: nat, sp: SubPool, sp': SubPool, ps: map<nat, Position>, i: nat, pos': Position, v': PositionView)
    requires ShowsPositions(x, id, sp, ps) && i in ps && x'.positions == x.positions[i := v']
    requires sp'.long.log == sp.long.log && sp'.short.log == sp.short.log
    requires sp'.long.generation == sp.long.generation && sp'.short.generation == sp.short.generation
    requires ShowsPosition(v', id, sp'.Side(pos'.direction), pos')
    ensures ShowsPositions(x', id, sp', ps[i := pos'])
  {
    IndexerReplay.ShownAlike(x, id, sp, sp', ps);
    hide ShowsPosition, SubPoolAt;
    forall j | j in ps[i := pos']
      ensures j in x'.positions
      ensures ShowsPosition(x'.positions[j], id, sp'.Side(ps[i := pos'][j].direction), ps[i := pos'][j])
    {
    }
  }

  lemma ReplacedElsewhere(x: State, x': State, id: nat, i: nat, v': PositionView, bound: nat)
    requires i in x.positions && x.positions[i].subPool == id && v'.subPool == id && x'.positions == x.positions[i := v']
    requires x'.subPools == x.subPools
    requires forall k: Key :: k.subPool != id ==>
      (k in x'.buckets <==> k in x.buckets) && (k in x.buckets ==> x'.buckets[k] == x.buckets[k])
    requires MoneyOk(x) && ProfitsWithin(x, bound)
    requires v'.profit <= x.positions[i].profit && v'.lockedLoss == x.positions[i].lockedLoss && v'.principal == x.positions[i].principal
    ensures Elsewhere(x, x', id) && MoneyOk(x') && ProfitsWithin(x', bound)
  {
  }

  /** Both sides after one of them was burned from. */
  lemma SidesShown(x: State, x': State, id: nat, d: Direction, sp: SubPool, sp': SubPool)
    requires ShowsSide(x, id, Long, sp.long) && ShowsSide(x, id, Short, sp.short)
    requires sp' == sp.With(d, sp'.Side(d)) && x'.subPools == x.subPools
    requires sp'.Side(d).log == sp.Side(d).log && sp'.Side(d).generation == sp.Side(d).generation
    requires SideBuckets(x', id, d) == Stripped(View(sp'.Side(d).store))
    requires SideBuckets(x', id, d.Opposite()) == SideBuckets(x, id, d.Opposite())
    ensures ShowsSide(x', id, Long, sp'.long) && ShowsSide(x', id, Short, sp'.short)
  {
    hide SideBuckets, Stripped, View, LogShown;
  }

  /** The bucket views once a position's recovery shares are burned, if it has any. */
  lemma LeftShown(x: State, id: nat, d: Direction, p: Pool, p': Pool, pos: Position, receipt: RedeemReceipt)
    requires SideBuckets(x, id, d) == Stripped(View(p.store)) && StoreLeft(p, p', pos, receipt)
    ensures pos.recovery == 0 ==> SideBuckets(x, id, d) == Stripped(View(p'.store)) && receipt == RedeemReceipt(0, 0, 0)
    ensures pos.recovery > 0 ==>
      && pos.tick.Some? && receipt.burnedShares == pos.recovery
      && BurnMirrored(
           x, id, d, BurnFrom(x, Key(id, d, pos.tick.value), pos.recovery, receipt.burnedNotional, receipt.redeemable),
           View(p'.store))
  {
    hide SideBuckets, Stripped, View, IdealRedeem, BurnFrom, BurnMirrored;
    if pos.recovery > 0 {
      BurnShown(x, id, d, View(p.store), pos.tick.value, pos.recovery, View(p'.store), receipt);
    }
  }

  /** The view of a position that is about to leave. */
  lemma LeaverShown(x: State, id: nat, sp: SubPool, ps: map<nat, Position>, i: nat)
    requires WorldOk(sp, ps) && ShowsPositions(x, id, sp, ps) && i in ps
    ensures i in x.positions
    ensures
      var p := sp.Side(ps[i].direction);
      && LazyMigrate(p, ps[i]).Ok?
      && var pos1 := LazyMigrate(p, ps[i]).value;
      && var v := x.positions[i];
      && v.subPool == id && v.direction == ps[i].direction && v.principal == pos1.principal
      && v.active == pos1.active && v.recovery == pos1.recovery && v.tick == pos1.tick
      && v.closed == ps[i].status.Closed?
      && pos1.direction == ps[i].direction && pos1.id == i
      && (pos1.active > 0 ==> pos1.recovery == 0) && (pos1.recovery > 0 ==> pos1.tick.Some?)
      && (pos1.recovery == 0 ==> pos1.tick.None?)
      && (pos1.active == 0 ==> pos1.notional == 0)
      && (ps[i].status.Closed? ==> pos1.recovery == 0)
      && (pos1.status.Closed? ==> ps[i].status.Closed?)
      && (pos1.recovery > 0 ==> pos1.active == 0)
  {
    var d := ps[i].direction;
    SidesCore(sp, ps);
    CoreParts(sp.Side(d), d);
    OnePosition(sp, ps, i);
    MigratedTick(sp.Side(d), ps[i]);
    LazyMigrateIs(sp.Side(d), ps[i]);
    assert ShowsPosition(x.positions[i], id, sp.Side(d), ps[i]);
    hide WorldOk, PoolCore, SideOk, LogOk, PositionsOk, FindRecord, LazyMigrate;
  }

  lemma OnePosition(sp: SubPool, ps: map<nat, Position>, i: nat)
    requires PositionsOk(sp, ps) && i in ps
    ensures PosOk(sp.Side(ps[i].direction).generation, ps[i]) && ps[i].id == i
  {
    hide PosOk;
  }

  /** The view left behind by a position that gives up everything it holds. */
  function LeftView(v: PositionView, profit: nat, closed: bool): PositionView {
    v.(active := 0, recovery := 0, tick := None, profit := profit, closed := closed)
  }

  /** The state once a position's view has been replaced and its bucket burned from. */
  ghost predicate LeftState(x: State, x': State, id: nat, d: Direction, i: nat, v': PositionView, vb': map<int, Bucket>) {
    && x'.positions == x.positions[i := v'] && x'.subPools == x.subPools
    && SideBuckets(x', id, d) == Stripped(vb')
    && SideBuckets(x', id, d.Opposite()) == SideBuckets(x, id, d.Opposite())
    && (forall k: Key :: k.subPool != id ==>
          (k in x'.buckets <==> k in x.buckets) && (k in x.buckets ==> x'.buckets[k] == x.buckets[k]))
  }

  lemma BurnedState(x: State, x1: State, x': State, id: nat, d: Direction, i: nat, v': PositionView, vb': map<int, Bucket>)
    requires BurnMirrored(x, id, d, Ok(x1), vb') && x' == x1.(positions := x1.positions[i := v'])
    ensures LeftState(x, x', id, d, i, v', vb')
  {
    IndexerReplay.BucketsDecide(x1, x', id, d);
    IndexerReplay.BucketsDecide(x1, x', id, d.Opposite());
    hide SideBuckets, Stripped;
  }

  lemma UnburnedState(x: State, x': State, id: nat, d: Direction, i: nat, v': PositionView, vb': map<int, Bucket>)
    requires SideBuckets(x, id, d) == Stripped(vb') && x' == x.(positions := x.positions[i := v'])
    ensures LeftState(x, x', id, d, i, v', vb')
  {
    IndexerReplay.BucketsDecide(x, x', id, d);
    IndexerReplay.BucketsDecide(x, x', id, d.Opposite());
    hide SideBuckets, Stripped;
  }

  lemma EmptiedShown(v: PositionView, id: nat, p: Pool, pos: Position)
    requires v.subPool == id && v.direction == pos.direction && v.principal == pos.principal
    requires v.active == 0 && v.recovery == 0 && v.tick.None?
    requires pos.active == 0 && pos.recovery == 0 && pos.tick.None? && v.closed == pos.status.Closed?
    ensures ShowsPosition(v, id, p, pos)
  {
  }

  /** From the replaced view and the burned bucket to the whole relation. */
  lemma LeftMirrors(
    x: State, x': State, id: nat, d: Direction, sp: SubPool, sp': SubPool, ps: map<nat, Position>, i: nat, pos': Position,
    v': PositionView, bound: nat)
    requires Mirrors(x, id, sp, ps) && ProfitsWithin(x, bound) && i in ps && i in x.positions
    requires sp' == sp.With(d, sp'.Side(d)) && pos'.direction == d
    requires sp'.Side(d).log == sp.Side(d).log && sp'.Side(d).generation == sp.Side(d).generation
    requires LeftState(x, x', id, d, i, v', View(sp'.Side(d).store))
    requires x.positions[i].subPool == id && v'.subPool == id
    requires v'.profit <= x.positions[i].profit && v'.lockedLoss == x.positions[i].lockedLoss && v'.principal == x.positions[i].principal
    requires ShowsPosition(v', id, sp'.Side(d), pos')
    ensures Mirrors(x', id, sp', ps[i := pos']) && Elsewhere(x, x', id) && ProfitsWithin(x', bound)
  {
    hide ShowsSide, ShowsPositions, MoneyOk, ProfitsWithin, Elsewhere, SideBuckets, Stripped, View, ShowsPosition;
    ReplacedShown(x, x', id, sp, sp', ps, i, pos', v');
    ReplacedElsewhere(x, x', id, i, v', bound);
    SidesShown(x, x', id, d, sp, sp');
  }

  lemma LeaveUnfolds(x: State, id: nat, i: nat, d: Direction, active: nat, recovery: nat, notional: nat, value: nat)
    requires i in x.positions && !x.positions[i].closed && active == x.positions[i].active && recovery == x.positions[i].recovery
    requires recovery > 0 ==> x.positions[i].tick.Some?
    ensures
      var r := ApplyLeave(x, id, i, d, active, recovery, notional, value);
      var v' := LeftView(x.positions[i], x.positions[i].profit, true);
      && (recovery == 0 ==> r == Ok(x.(positions := x.positions[i := v'])))
      && (recovery > 0 ==>
            var b := BurnFrom(x, Key(id, d, x.positions[i].tick.value), recovery, notional, value);
            b.Ok? ==> r == Ok(b.value.(positions := b.value.positions[i := v'])))
  {
    hide BurnFrom;
    var v := x.positions[i];
    var b := BurnFrom(x, Key(id, d, if v.tick.Some? then v.tick.value else 0), recovery, notional, value);
    if recovery > 0 && b.Ok? {
      BurnKeepsPositions(x, Key(id, d, v.tick.value), recovery, notional, value);
    }
  }

  lemma BurnKeepsPositions(x: State, k: Key, shares: nat, notional: nat, value: nat)
    requires BurnFrom(x, k, shares, notional, value).Ok?
    ensures BurnFrom(x, k, shares, notional, value).value.positions == x.positions
  {
  }

  /** The event of a close or of a forced close, replayed. */
  lemma LeaveReplayed(
    x: State, sp1: SubPool, sp': SubPool, ps: map<nat, Position>, i: nat, pos': Position, receipt: RedeemReceipt, bound: nat)
    requires WorldOk(sp1, ps) && Mirrors(x, sp1.id, sp1, ps) && ProfitsWithin(x, bound) && i in ps && !ps[i].status.Closed?
    requires
      var d := ps[i].direction;
      && sp' == sp1.With(d, sp'.Side(d))
      && LazyMigrate(sp1.Side(d), ps[i]).Ok?
      && var pos1 := LazyMigrate(sp1.Side(d), ps[i]).value;
      && StoreLeft(sp1.Side(d), sp'.Side(d), pos1, receipt)
      && pos' == pos1.(active := 0, recovery := 0, tick := None, notional := 0, status := Closed)
    ensures
      var d := ps[i].direction;
      var active := LazyMigrate(sp1.Side(d), ps[i]).value.active;
      Replayed(x, ApplyLeave(x, sp1.id, i, d, active, receipt.burnedShares, receipt.burnedNotional, receipt.redeemable),
               sp1.id, sp', ps[i := pos'], bound, 0)
  {
    hide WorldOk, ShowsSide, ShowsPositions, MoneyOk, ProfitsWithin, Elsewhere, SideBuckets, Stripped, View,
      ShowsPosition, ApplyLeave, LazyMigrate, StoreLeft, BurnFrom, BurnMirrored, LeftState;
    var d, id := ps[i].direction, sp1.id;
    var pos1 := LazyMigrate(sp1.Side(d), ps[i]).value;
    LeaverShown(x, id, sp1, ps, i);
    SideShown(x, id, sp1, d);
    LeftShown(x, id, d, sp1.Side(d), sp'.Side(d), pos1, receipt);
    StoreLeftLog(sp1.Side(d), sp'.Side(d), pos1, receipt);
    LeaveUnfolds(x, id, i, d, pos1.active, pos1.recovery, receipt.burnedNotional, receipt.redeemable);
    var r := ApplyLeave(x, id, i, d, pos1.active, receipt.burnedShares, receipt.burnedNotional, receipt.redeemable);
    var v' := LeftView(x.positions[i], x.positions[i].profit, true);
    if pos1.recovery > 0 {
      var b := BurnFrom(x, Key(id, d, pos1.tick.value), pos1.recovery, receipt.burnedNotional, receipt.redeemable);
      BurnMirroredOk(x, id, d, b, View(sp'.Side(d).store));
      BurnedState(x, b.value, r.value, id, d, i, v', View(sp'.Side(d).store));
    } else {
      UnburnedState(x, r.value, id, d, i, v', View(sp'.Side(d).store));
    }
    EmptiedShown(v', id, sp'.Side(d), pos');
    LeftMirrors(x, r.value, id, d, sp1, sp', ps, i, pos', v', bound);
  }

  lemma BurnMirroredOk(x: State, id: nat, d: Direction, r: IndexerResult<State>, vb': map<int, Bucket>)
    requires BurnMirrored(x, id, d, r, vb')
    ensures r.Ok?
  {
  }

  lemma SideShown(x: State, id: nat, sp: SubPool, d: Direction)
    requires ShowsSide(x, id, Long, sp.long) && ShowsSide(x, id, Short, sp.short)
    ensures SideBuckets(x, id, d) == Stripped(View(sp.Side(d).store))
  {
    hide SideBuckets, Stripped, View;
  }

  lemma StoreLeftLog(p: Pool, p': Pool, pos: Position, receipt: RedeemReceipt)
    requires StoreLeft(p, p', pos, receipt)
    ensures p'.log == p.log && p'.generation == p.generation
    ensures receipt.burnedShares == pos.recovery
  {
    hide View, IdealRedeem;
  }

  // ---------------------------------------------------------------- claiming

  lemma ClaimUnfoldsIx(x: State, id: nat, i: nat, d: Direction, recovery: nat, notional: nat, value: nat, tick: int)
    requires i in x.positions && !x.positions[i].closed && recovery == x.positions[i].recovery && x.positions[i].active == 0
    ensures
      var r := ApplyClaim(x, id, i, d, tick, recovery, notional, value);
      var v' := LeftView(x.positions[i], SaturatingSub(x.positions[i].profit, value), false);
      var b := BurnFrom(x, Key(id, d, tick), recovery, notional, value);
      b.Ok? ==> r == Ok(b.value.(positions := b.value.positions[i := v']))
  {
    hide BurnFrom;
    if BurnFrom(x, Key(id, d, tick), recovery, notional, value).Ok? {
      BurnKeepsPositions(x, Key(id, d, tick), recovery, notional, value);
    }
  }

  /** The event of a claim, replayed. */
  lemma ClaimReplayed(
    x: State, sp1: SubPool, sp': SubPool, ps: map<nat, Position>, i: nat, pos': Position, receipt: RedeemReceipt, bound: nat)
    requires WorldOk(sp1, ps) && Mirrors(x, sp1.id, sp1, ps) && ProfitsWithin(x, bound) && i in ps
    requires
      var d := ps[i].direction;
      && sp' == sp1.With(d, sp'.Side(d))
      && LazyMigrate(sp1.Side(d), ps[i]).Ok?
      && var pos1 := LazyMigrate(sp1.Side(d), ps[i]).value;
      && pos1.recovery > 0 && pos1.tick.Some?
      && StoreLeft(sp1.Side(d), sp'.Side(d), pos1, receipt)
      && pos' == pos1.(recovery := 0, tick := None)
    ensures
      var d := ps[i].direction;
      var tick := LazyMigrate(sp1.Side(d), ps[i]).value.tick.value;
      Replayed(x, ApplyClaim(x, sp1.id, i, d, tick, receipt.burnedShares, receipt.burnedNotional, receipt.redeemable),
               sp1.id, sp', ps[i := pos'], bound, 0)
  {
    hide WorldOk, ShowsSide, ShowsPositions, MoneyOk, ProfitsWithin, Elsewhere, SideBuckets, Stripped, View,
      ShowsPosition, ApplyClaim, LazyMigrate, StoreLeft, BurnFrom, BurnMirrored, LeftState;
    var d, id := ps[i].direction, sp1.id;
    var pos1 := LazyMigrate(sp1.Side(d), ps[i]).value;
    LeaverShown(x, id, sp1, ps, i);
    SideShown(x, id, sp1, d);
    LeftShown(x, id, d, sp1.Side(d), sp'.Side(d), pos1, receipt);
    StoreLeftLog(sp1.Side(d), sp'.Side(d), pos1, receipt);
    ClaimUnfoldsIx(x, id, i, d, pos1.recovery, receipt.burnedNotional, receipt.redeemable, pos1.tick.value);
    var r := ApplyClaim(x, id, i, d, pos1.tick.value, receipt.burnedShares, receipt.burnedNotional, receipt.redeemable);
    var v' := LeftView(x.positions[i], SaturatingSub(x.positions[i].profit, receipt.redeemable), false);
    var b := BurnFrom(x, Key(id, d, pos1.tick.value), pos1.recovery, receipt.burnedNotional, receipt.redeemable);
    BurnMirroredOk(x, id, d, b, View(sp'.Side(d).store));
    BurnedState(x, b.value, r.value, id, d, i, v', View(sp'.Side(d).store));
    EmptiedShown(v', id, sp'.Side(d), pos');
    LeftMirrors(x, r.value, id, d, sp1, sp', ps, i, pos', v', bound);
  }

  // ---------------------------------------------------------------- one operation

  /** What a sync event credits to all holders together. */
  function InflowOf(e: EngineEvent): nat {
    match e
    case PoolSync(_, _, _, _, long, short) => Amount(long) + Amount(short)
    case _ => 0
  }

  function Inflow(events: seq<EngineEvent>): nat {
    if events == [] then 0 else InflowOf(events[0]) + Inflow(events[1..])
  }

  lemma {:induction false} InflowConcat(a: seq<EngineEvent>, b: seq<EngineEvent>)
    ensures Inflow(a + b) == Inflow(a) + Inflow(b)
  {
    if a == [] {
      assert a + b == b;
    } else {
      assert (a + b)[1..] == a[1..] + b;
      InflowConcat(a[1..], b);
    }
  }

  lemma InflowOne(e: EngineEvent)
    ensures Inflow([e]) == InflowOf(e)
  {
    assert [e][1..] == [];
  }

  lemma RotationInflow(m: Market, id: nat, d: Direction, p: Pool, pNow: u64)
    ensures Inflow(RotationEvents(m, id, d, p, pNow)) == 0
  {
    hide BucketTick;
    var events := RotationEvents(m, id, d, p, pNow);
    if events != [] {
      InflowOne(events[0]);
      assert events == [events[0]];
    }
  }

  /** The events of a sync report exactly what it transferred. */
  lemma SyncInflow(m: Market, sp: SubPool, env: Envelope, ps: map<nat, Position>)
    requires WorldOk(sp, ps) && SyncPool(m, sp, env).Ok?
    ensures Inflow(SyncPool(m, sp, env).value.1.events) == Transferred(SyncPool(m, sp, env).value.1)
  {
    hide WorldOk, SyncPool, Midway, Exchanged, SideRotated, RotationEvents, Inflow;
    SyncKeepsWorld(m, sp, env, ps);
    var (sp', out) := SyncPool(m, sp, env).value;
    var mid := Midway(m, sp, env);
    if Moved(sp, env) {
      var event := PoolSync(sp.id, env.pNow, sp.long.shares, sp.short.shares, out.long, out.short);
      var l, s := RotationEvents(m, sp.id, Long, mid.long, env.pNow), RotationEvents(m, sp.id, Short, mid.short, env.pNow);
      InflowOne(event);
      InflowConcat([event], l + s);
      InflowConcat(l, s);
      RotationInflow(m, sp.id, Long, mid.long, env.pNow);
      RotationInflow(m, sp.id, Short, mid.short, env.pNow);
    } else {
      QuietInflow(m, sp, env);
    }
  }

  lemma QuietInflow(m: Market, sp: SubPool, env: Envelope)
    requires !Moved(sp, env) && SyncPool(m, sp, env).Ok?
    ensures Inflow(SyncPool(m, sp, env).value.1.events) == Transferred(SyncPool(m, sp, env).value.1)
  {
    hide SyncPool, CheckSubPool;
    SyncUnfolds(m, sp, env);
  }

  /** One replay after another. */
  lemma ReplayedThen(
    x: State, a: seq<EngineEvent>, b: seq<EngineEvent>, id: nat, sp1: SubPool, ps: map<nat, Position>, sp': SubPool,
    ps': map<nat, Position>, bound: nat, more: nat)
    requires Replayed(x, ApplyEvents(x, a), id, sp1, ps, bound, more)
    requires ApplyEvents(x, a).Ok? ==>
      Replayed(ApplyEvents(x, a).value, ApplyEvents(ApplyEvents(x, a).value, b), id, sp', ps', bound + more, 0)
    ensures Replayed(x, ApplyEvents(x, a + b), id, sp', ps', bound, more)
  {
    hide Mirrors, Elsewhere, ProfitsWithin, ApplyEvents;
    ApplyConcat(x, a, b);
    if ApplyEvents(x, a).Ok? && ApplyEvents(x, a + b).Ok? {
      ElsewhereTwice(x, ApplyEvents(x, a).value, ApplyEvents(x, a + b).value, id);
    }
  }

  lemma LastInflow(a: seq<EngineEvent>, e: EngineEvent)
    requires InflowOf(e) == 0
    ensures Inflow(a + [e]) == Inflow(a)
  {
    InflowConcat(a, [e]);
    InflowOne(e);
  }

  /** A position the indexer did not know before a sync it does not know after it. */
  lemma StillUnknown(x: State, x1: State, id: nat, sp: SubPool, ps: map<nat, Position>, p: nat)
    requires Elsewhere(x, x1, id) && Mirrors(x1, id, sp, ps) && p !in x.positions && p !in ps
    ensures p !in x1.positions
  {
    hide ShowsSide, ShowsPosition, MoneyOk, SubPoolAt;
  }

  lemma SyncStep(m: Market, sp: SubPool, env: Envelope, ps: map<nat, Position>)
    requires WorldOk(sp, ps) && SyncPool(m, sp, env).Ok?
    ensures WorldOk(SyncPool(m, sp, env).value.0, ps) && SyncPool(m, sp, env).value.0.id == sp.id
  {
    hide WorldOk, SyncPool, Midway, Exchanged, SideRotated, SyncEvents;
    SyncKeepsWorld(m, sp, env, ps);
  }

  /** What replaying the events of a whole operation achieves. */
  ghost predicate StepMirrored(x: State, w: World, w': World, e: Effect, bound: nat) {
    Replayed(x, ApplyEvents(x, e.events), w.sp.id, w'.sp, w'.ps, bound, Inflow(e.events))
  }

  lemma OpenStepReplayed(x: State, m: Market, w: World, env: Envelope, d: Direction, gross: u64, id: nat, bound: nat)
    requires Sound(w) && Mirrors(x, w.sp.id, w.sp, w.ps) && ProfitsWithin(x, bound)
    requires id !in w.ps && id !in x.positions && OpenPosition(m, w.sp, env, d, gross, id).Ok?
    ensures
      var (sp', pos, out) := OpenPosition(m, w.sp, env, d, gross, id).value;
      Replayed(x, ApplyEvents(x, out.events), w.sp.id, sp', w.ps[id := pos], bound, Inflow(out.events))
  {
    hide WorldOk, Mirrors, ProfitsWithin, Elsewhere, SyncPool, OpenPosition, Principal, MintShares, MulDivFloor,
      AddShares, CheckSubPool, OpenedIn, ApplyEvents, Funds, Inflow, Transferred;
    OpenUnfolds(m, w.sp, env, d, gross, id);
    SyncStep(m, w.sp, env, w.ps);
    SyncEventsReplayed(x, m, w.sp, env, w.ps, bound);
    SyncInflow(m, w.sp, env, w.ps);
    OpenKeepsWorld(m, w.sp, env, d, gross, id, w.ps);
    var (sp1, synced) := SyncPool(m, w.sp, env).value;
    var (sp', pos, out) := OpenPosition(m, w.sp, env, d, gross, id).value;
    var e := PositionOpened(w.sp.id, id, d, pos.principal, out.notional, out.mint.shares, pos.generation);
    LastInflow(synced.events, e);
    if ApplyEvents(x, synced.events).Ok? {
      var x1 := ApplyEvents(x, synced.events).value;
      StillUnknown(x, x1, w.sp.id, sp1, w.ps, id);
      OpenReplayed(x1, m, sp1, sp', d, gross, pos, out, w.ps, bound + Transferred(synced));
    }
    ReplayedThen(x, synced.events, [e], w.sp.id, sp1, w.ps, sp', w.ps[id := pos], bound, Transferred(synced));
  }

  lemma LeaveEvents(x: State, id: nat, i: nat, d: Direction, active: nat, recovery: nat, notional: nat, first: nat, value: nat)
    ensures ApplyEvents(x, [PositionClosed(id, i, d, active, recovery, notional, first, value)])
         == ApplyLeave(x, id, i, d, active, recovery, notional, value)
    ensures ApplyEvents(x, [PositionForceClosed(id, i, d, active, recovery, notional, value)])
         == ApplyLeave(x, id, i, d, active, recovery, notional, value)
  {
    OneEvent(x, PositionClosed(id, i, d, active, recovery, notional, first, value));
    OneEvent(x, PositionForceClosed(id, i, d, active, recovery, notional, value));
    hide ApplyEvents, ApplyLeave;
  }

  lemma ClaimEvent(x: State, id: nat, i: nat, d: Direction, tick: int, recovery: nat, notional: nat, value: nat)
    ensures ApplyEvents(x, [DormantRecoveryClaimed(id, i, d, tick, recovery, notional, value)])
         == ApplyClaim(x, id, i, d, tick, recovery, notional, value)
  {
    OneEvent(x, DormantRecoveryClaimed(id, i, d, tick, recovery, notional, value));
    hide ApplyEvents, ApplyClaim;
  }

  /** Cashing out leaves the store as the relation needs it. */
  lemma CashOutLeaves(sp: SubPool, ps: map<nat, Position>, id: nat)
    requires WorldOk(sp, ps) && id in ps
    ensures
      var d := ps[id].direction;
      && LazyMigrate(sp.Side(d), ps[id]).Ok?
      && var pos1 := LazyMigrate(sp.Side(d), ps[id]).value;
      && CloseActive(sp.Side(d), pos1).Ok?
      && var a := CloseActive(sp.Side(d), pos1).value;
      && var r := RedeemRecovery(a.0, a.1);
      && (r.Ok? ==>
            && StoreLeft(sp.Side(d), r.value.0, pos1, r.value.2)
            && r.value.1 == pos1.(active := 0, recovery := 0, tick := None))
  {
    hide WorldOk, LazyMigrate, CloseActive, RedeemRecovery, CheckSubPool, PaidOff, StoreLeft, PoolOk, PoolBacked,
      HoldingsOf, Holds;
    CashOutKeepsWorld(sp, ps, id);
    MigratedHolds(sp, ps, id);
    var d := ps[id].direction;
    var pos1 := LazyMigrate(sp.Side(d), ps[id]).value;
    var a := CloseActive(sp.Side(d), pos1).value;
    var r := RedeemRecovery(a.0, a.1);
    if r.Ok? {
      PaidOffStore(sp.Side(d), r.value.0, pos1, a.2, r.value.2);
    }
  }

  lemma CloseStepReplayed(x: State, m: Market, w: World, env: Envelope, id: nat, bound: nat)
    requires Sound(w) && Mirrors(x, w.sp.id, w.sp, w.ps) && ProfitsWithin(x, bound)
    requires id in w.ps && ClosePosition(m, w.sp, env, w.ps[id]).Ok?
    ensures
      var (sp', pos', out) := ClosePosition(m, w.sp, env, w.ps[id]).value;
      Replayed(x, ApplyEvents(x, out.events), w.sp.id, sp', w.ps[id := pos'], bound, Inflow(out.events))
  {
    hide WorldOk, Mirrors, ProfitsWithin, Elsewhere, SyncPool, ClosePosition, LazyMigrate, CloseActive,
      RedeemRecovery, CheckSubPool, StoreLeft, ApplyEvents, ApplyLeave, Inflow, Transferred;
    CloseUnfolds(m, w.sp, env, w.ps[id]);
    SyncStep(m, w.sp, env, w.ps);
    SyncEventsReplayed(x, m, w.sp, env, w.ps, bound);
    SyncInflow(m, w.sp, env, w.ps);
    var (sp1, synced) := SyncPool(m, w.sp, env).value;
    PositionIds(sp1, w.ps, id);
    CashOutLeaves(sp1, w.ps, id);
    var (sp', pos', out) := ClosePosition(m, w.sp, env, w.ps[id]).value;
    var d := w.ps[id].direction;
    var pos1 := LazyMigrate(sp1.Side(d), w.ps[id]).value;
    var a := CloseActive(sp1.Side(d), pos1).value;
    var receipt := RedeemRecovery(a.0, a.1).value.2;
    var e := PositionClosed(w.sp.id, id, d, pos1.active, receipt.burnedShares, receipt.burnedNotional, a.2, receipt.redeemable);
    LastInflow(synced.events, e);
    if ApplyEvents(x, synced.events).Ok? {
      var x1 := ApplyEvents(x, synced.events).value;
      LeaveReplayed(x1, sp1, sp', w.ps, id, pos', receipt, bound + Transferred(synced));
      LeaveEvents(x1, w.sp.id, id, d, pos1.active, receipt.burnedShares, receipt.burnedNotional, a.2, receipt.redeemable);
    }
    ReplayedThen(x, synced.events, [e], w.sp.id, sp1, w.ps, sp', w.ps[id := pos'], bound, Transferred(synced));
  }

  lemma PositionIds(sp: SubPool, ps: map<nat, Position>, id: nat)
    requires WorldOk(sp, ps) && id in ps
    ensures ps[id].id == id
  {
    hide SideOk, PosOk;
  }

  lemma ForfeitLeaves(p: Pool, p': Pool, pos: Position, receipt: RedeemReceipt, amount: nat)
    requires StoreLeft(p, p', pos, receipt)
    ensures StoreLeft(p, Forfeited(p', amount), pos, receipt)
  {
    hide View, IdealRedeem;
  }

  lemma ForceCloseStepReplayed(x: State, m: Market, w: World, env: Envelope, id: nat, ack: bool, bound: nat)
    requires Sound(w) && Mirrors(x, w.sp.id, w.sp, w.ps) && ProfitsWithin(x, bound)
    requires id in w.ps && ForceClose(m, w.sp, env, w.ps[id], ack).Ok?
    ensures
      var (sp', pos', out) := ForceClose(m, w.sp, env, w.ps[id], ack).value;
      Replayed(x, ApplyEvents(x, out.events), w.sp.id, sp', w.ps[id := pos'], bound, Inflow(out.events))
  {
    hide WorldOk, Mirrors, ProfitsWithin, Elsewhere, SyncPool, ForceClose, LazyMigrate, BurnWorthless, RedeemRecovery,
      CheckSubPool, StoreLeft, ApplyEvents, ApplyLeave, Inflow, Transferred, HasValue, Funds;
    ForceCloseUnfolds(m, w.sp, env, w.ps[id], ack);
    SyncStep(m, w.sp, env, w.ps);
    SyncEventsReplayed(x, m, w.sp, env, w.ps, bound);
    SyncInflow(m, w.sp, env, w.ps);
    var (sp1, synced) := SyncPool(m, w.sp, env).value;
    PositionIds(sp1, w.ps, id);
    BurnOutKeepsWorld(sp1, w.ps, id);
    var (sp', pos', out) := ForceClose(m, w.sp, env, w.ps[id], ack).value;
    var d := w.ps[id].direction;
    var pos1 := LazyMigrate(sp1.Side(d), w.ps[id]).value;
    var a := BurnWorthless(sp1.Side(d), pos1).value;
    var (p', _, receipt) := RedeemRecovery(a.0, a.1).value;
    var e := PositionForceClosed(w.sp.id, id, d, pos1.active, receipt.burnedShares, receipt.burnedNotional, receipt.redeemable);
    LastInflow(synced.events, e);
    ForfeitLeaves(sp1.Side(d), p', pos1, receipt, receipt.redeemable);
    if ApplyEvents(x, synced.events).Ok? {
      var x1 := ApplyEvents(x, synced.events).value;
      LeaveReplayed(x1, sp1, sp', w.ps, id, pos', receipt, bound + Transferred(synced));
      LeaveEvents(x1, w.sp.id, id, d, pos1.active, receipt.burnedShares, receipt.burnedNotional, 0, receipt.redeemable);
    }
    ReplayedThen(x, synced.events, [e], w.sp.id, sp1, w.ps, sp', w.ps[id := pos'], bound, Transferred(synced));
  }

  lemma RedeemedStore(p: Pool, p': Pool, pos: Position, receipt: RedeemReceipt)
    requires pos.recovery > 0 && pos.tick.Some? && RedeemedFrom(p, p', pos.tick.value, pos.recovery, receipt)
    ensures StoreLeft(p, p', pos, receipt)
  {
    hide View, IdealRedeem, Value;
  }

  lemma ClaimStepReplayed(x: State, m: Market, w: World, env: Envelope, id: nat, bound: nat)
    requires Sound(w) && Mirrors(x, w.sp.id, w.sp, w.ps) && ProfitsWithin(x, bound)
    requires id in w.ps && ClaimRecovery(m, w.sp, env, w.ps[id]).Ok?
    ensures
      var (sp', pos', out) := ClaimRecovery(m, w.sp, env, w.ps[id]).value;
      Replayed(x, ApplyEvents(x, out.events), w.sp.id, sp', w.ps[id := pos'], bound, Inflow(out.events))
  {
    hide WorldOk, Mirrors, ProfitsWithin, Elsewhere, SyncPool, ClaimRecovery, LazyMigrate, RedeemRecovery, CheckSubPool,
      StoreLeft, RedeemedFrom, ApplyEvents, ApplyClaim, Inflow, Transferred;
    ClaimUnfolds(m, w.sp, env, w.ps[id]);
    SyncStep(m, w.sp, env, w.ps);
    SyncEventsReplayed(x, m, w.sp, env, w.ps, bound);
    SyncInflow(m, w.sp, env, w.ps);
    var (sp1, synced) := SyncPool(m, w.sp, env).value;
    PositionIds(sp1, w.ps, id);
    ClaimKeepsSide(sp1, w.ps, id);
    var (sp', pos', out) := ClaimRecovery(m, w.sp, env, w.ps[id]).value;
    var d := w.ps[id].direction;
    var pos1 := LazyMigrate(sp1.Side(d), w.ps[id]).value;
    var (p', _, receipt) := RedeemRecovery(sp1.Side(d), pos1).value;
    var e := DormantRecoveryClaimed(
      w.sp.id, id, d, pos1.tick.value, receipt.burnedShares, receipt.burnedNotional, receipt.redeemable);
    LastInflow(synced.events, e);
    RedeemedStore(sp1.Side(d), p', pos1, receipt);
    if ApplyEvents(x, synced.events).Ok? {
      var x1 := ApplyEvents(x, synced.events).value;
      ClaimReplayed(x1, sp1, sp', w.ps, id, pos', receipt, bound + Transferred(synced));
      ClaimEvent(x1, w.sp.id, id, d, pos1.tick.value, receipt.burnedShares, receipt.burnedNotional, receipt.redeemable);
    }
    ReplayedThen(x, synced.events, [e], w.sp.id, sp1, w.ps, sp', w.ps[id := pos'], bound, Transferred(synced));
  }

  /** Nothing the indexer shows has changed. */
  lemma SilentReplayed(x: State, sp: SubPool, sp': SubPool, d: Direction, ps: map<nat, Position>, e: EngineEvent, bound: nat)
    requires Mirrors(x, sp.id, sp, ps) && ProfitsWithin(x, bound)
    requires e.DustHarvested? || e.DormantBucketPendingApplied?
    requires sp' == sp.With(d, sp'.Side(d))
    requires
      var p, p' := sp.Side(d), sp'.Side(d);
      View(p'.store) == View(p.store) && p'.log == p.log && p'.generation == p.generation
    ensures Replayed(x, ApplyEvents(x, [e]), sp.id, sp', ps, bound, Inflow([e]))
  {
    OneEvent(x, e);
    InflowOne(e);
    ElsewhereSame(x, sp.id);
    hide View, ApplyEvents, Elsewhere, ProfitsWithin, ShowsSide, MoneyOk, ShowsPositions, Inflow;
    SideUnmoved(x, x, sp.id, Long, sp.long, sp'.long);
    SideUnmoved(x, x, sp.id, Short, sp.short, sp'.short);
    IndexerReplay.ShownAlike(x, sp.id, sp, sp', ps);
  }

  lemma PreSyncStepReplayed(x: State, m: Market, w: World, d: Direction, tick: int, bound: nat)
    requires Sound(w) && Mirrors(x, w.sp.id, w.sp, w.ps) && ProfitsWithin(x, bound) && PreSyncBucket(m, w.sp, d, tick).Ok?
    ensures
      var (sp', applied) := PreSyncBucket(m, w.sp, d, tick).value;
      var events := [DormantBucketPendingApplied(w.sp.id, d, tick, applied)];
      Replayed(x, ApplyEvents(x, events), w.sp.id, sp', w.ps, bound, Inflow(events))
  {
    hide WorldOk, Mirrors, ProfitsWithin, Replayed, ApplyBucket, CheckSubPool, View, Inv, PoolOk, PoolBacked,
      HoldingsOf, PreSyncBucket, SideOk;
    var s := w.sp.Side(d).store;
    SidesCore(w.sp, w.ps);
    SideParts(w.sp.Side(d), d, w.ps);
    PoolParts(w.sp.Side(d), d);
    DormantRefinement.AppliedBucket(s, tick);
    BucketInWindow(s, tick);
    PreSyncUnfolds(m, w.sp, d, tick);
    var (sp', applied) := PreSyncBucket(m, w.sp, d, tick).value;
    SilentReplayed(x, w.sp, sp', d, w.ps, DormantBucketPendingApplied(w.sp.id, d, tick, applied), bound);
  }

  lemma HarvestStepReplayed(x: State, m: Market, w: World, d: Direction, bound: nat)
    requires Sound(w) && Mirrors(x, w.sp.id, w.sp, w.ps) && ProfitsWithin(x, bound) && HarvestDust(m, w.sp, d).Ok?
    ensures
      var (sp', amount) := HarvestDust(m, w.sp, d).value;
      var events := [DustHarvested(w.sp.id, d, amount)];
      Replayed(x, ApplyEvents(x, events), w.sp.id, sp', w.ps, bound, Inflow(events))
  {
    hide WorldOk, Mirrors, ProfitsWithin, Replayed, CheckSubPool, View;
    var (sp', amount) := HarvestDust(m, w.sp, d).value;
    SilentReplayed(x, w.sp, sp', d, w.ps, DustHarvested(w.sp.id, d, amount), bound);
  }

  /**
    Replay refinement, one operation: fed the events of any successful operation, an indexer that
    mirrors the sub pool mirrors it again, and touches nothing of any other sub pool. Its only
    possible error is a profit of 2^128 or more.
  */
  lemma StepReplayed(x: State, m: Market, w: World, op: EngineOp, bound: nat)
    requires Sound(w) && Applicable(w, op) && Mirrors(x, w.sp.id, w.sp, w.ps) && ProfitsWithin(x, bound)
    requires op.OpenOp? ==> op.id !in x.positions
    requires EngineStep(m, w, op).Ok?
    ensures StepMirrored(x, w, EngineStep(m, w, op).value.0, EngineStep(m, w, op).value.1, bound)
  {
    hide WorldOk, Mirrors, ProfitsWithin, Replayed, SyncPool, OpenPosition, ClosePosition, ForceClose, ClaimRecovery,
      PreSyncBucket, HarvestDust, ApplyEvents, Inflow, Transferred;
    match op
    case SyncOp(env) =>
      SyncEventsReplayed(x, m, w.sp, env, w.ps, bound);
      SyncInflow(m, w.sp, env, w.ps);
    case OpenOp(env, d, gross, id) => OpenStepReplayed(x, m, w, env, d, gross, id, bound);
    case CloseOp(env, id) => CloseStepReplayed(x, m, w, env, id, bound);
    case ForceCloseOp(env, id, ack) => ForceCloseStepReplayed(x, m, w, env, id, ack, bound);
    case ClaimOp(env, id) => ClaimStepReplayed(x, m, w, env, id, bound);
    case PreSyncOp(d, tick) => PreSyncStepReplayed(x, m, w, d, tick, bound);
    case HarvestOp(d) => HarvestStepReplayed(x, m, w, d, bound);
  }
}
