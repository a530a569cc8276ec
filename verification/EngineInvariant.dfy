/**
  What every engine operation keeps: pool totals are sums over the positions, buckets are backed by
  the positions that rotated into them, and rotate record `i` ends generation `i`. It follows that
  no run-time check of the engine can fail.
*/
module EngineInvariant {
  import opened Wrappers
  import opened MoleMath
  import opened Clearing
  import opened Sums
  import opened Dormant
  import opened DormantInvariant
  import opened DormantRefinement
  import opened Engine
  import opened Holdings
  import StoreShares

  // ---------------------------------------------------------------- the invariant

  /** Rotate record `i` ended generation `i`. */
  ghost predicate LogOk(log: seq<RotateRecord>, generation: nat) {
    && |log| == generation
    && forall i :: 0 <= i < |log| ==> log[i].generation == i
  }

  ghost predicate InRange(p: Pool) {
    p.equity < U128 && p.shares < U128 && p.notional < U128 && p.recovery < U128 && p.dust < U128
  }

  /** All of `PoolOk` but the zero-iff condition, which a sync restores only at its end. */
  ghost predicate PoolCore(p: Pool, d: Direction) {
    && Inv(p.store) && p.store.direction == d
    && LogOk(p.log, p.generation) && InRange(p)
    && p.recovery == Sum(StoreShares.SharesOf(p.store))
  }

  /** Equity without shares or shares without equity never outlive an operation. */
  predicate ZeroIff(p: Pool) {
    (p.equity == 0) == (p.shares == 0)
  }

  ghost predicate PoolOk(p: Pool, d: Direction) {
    PoolCore(p, d) && ZeroIff(p)
  }

  /** What a position holds once its rotations have been applied to it. */
  function HoldingOf(p: Pool, pos: Position): Holding {
    if pos.active > 0 && pos.generation < |p.log| then Holding(0, 0, pos.active, p.log[pos.generation].tick)
    else Holding(pos.active, pos.notional, pos.recovery, if pos.tick.Some? then pos.tick.value else 0)
  }

  function HoldingsOf(p: Pool, d: Direction, ps: map<nat, Position>): map<nat, Holding> {
    map id | id in ps :: if ps[id].direction == d then HoldingOf(p, ps[id]) else NOTHING
  }

  predicate PosOk(generation: nat, pos: Position) {
    && pos.generation <= generation
    && pos.active < U128 && pos.recovery < U128
    && (pos.active > 0 ==> pos.recovery == 0)
    && (pos.active == 0 ==> pos.notional == 0)
    && (pos.recovery > 0 <==> pos.tick.Some?)
    && (pos.status.Closed? ==> pos.active == 0 && pos.recovery == 0)
  }

  ghost predicate PositionsOk(sp: SubPool, ps: map<nat, Position>) {
    forall id :: id in ps ==> ps[id].id == id && PosOk(sp.Side(ps[id].direction).generation, ps[id])
  }

  ghost predicate PoolBacked(p: Pool, hs: map<nat, Holding>) {
    Backed(p.shares, p.notional, StoreShares.SharesOf(p.store), hs)
  }

  ghost predicate SideOk(p: Pool, d: Direction, ps: map<nat, Position>) {
    PoolOk(p, d) && PoolBacked(p, HoldingsOf(p, d, ps))
  }

  /** A sub pool together with every position ever opened in it. */
  ghost predicate WorldOk(sp: SubPool, ps: map<nat, Position>) {
    && SideOk(sp.long, Long, ps)
    && SideOk(sp.short, Short, ps)
    && PositionsOk(sp, ps)
  }

  lemma NewWorldOk(id: nat, lastPrice: nat, lastSlot: nat)
    ensures WorldOk(NewSubPool(id, lastPrice, lastSlot), map[])
  {
    hide SideOk, EmptyStore;
    NewPoolOk(Long);
    NewPoolOk(Short);
  }

  lemma NewPoolOk(d: Direction)
    ensures SideOk(NewPool(d), d, map[])
  {
    EmptyInv(d);
    var hs := HoldingsOf(NewPool(d), d, map[]);
    SumZero(StoreShares.SharesOf(EmptyStore(d)));
    SumZero(Actives(hs));
    SumZero(Notionals(hs));
  }

  // ---------------------------------------------------------------- run-time checks

  /** Only the sum of a ledger window can stop the checks at the end of an operation. */
  lemma ChecksPass(sp: SubPool)
    requires PoolOk(sp.long, Long) && PoolOk(sp.short, Short)
    ensures CheckSubPool(sp) ==
      if TotalAllotted(sp.long.store.ledger) < U128 && TotalAllotted(sp.short.store.ledger) < U128
      then Ok(()) else Err(MathOverflow)
  {
    CheckStoreIs(sp.long.store);
    CheckStoreIs(sp.short.store);
    hide CheckStore, Inv, LogOk, InRange, TotalAllotted;
  }

  // ---------------------------------------------------------------- rotation

  /** A result that is no failed run-time check. */
  predicate Benign<T>(r: ClearingResult<T>) {
    r.Err? ==> !r.error.Invariant?
  }

  predicate TickConfigured(m: Market) {
    m.priceTick > 0 && m.aggregation > 0
  }

  /** The pool with all its active shares moved into the bucket at `tick`. */
  ghost predicate RotatedTo(p: Pool, p': Pool, tick: int, anchor: nat) {
    && p' == p.(store := p'.store, recovery := p'.recovery, shares := 0, notional := 0,
                log := p.log + [RotateRecord(p.generation, tick, anchor)], generation := p.generation + 1)
    && p'.recovery == p.recovery + p.shares
    && p'.store.direction == p.store.direction
    && StoreShares.SharesOf(p'.store) == Raised(StoreShares.SharesOf(p.store), tick, p.shares)
    && IdealMerge(View(p.store), tick, anchor, p.shares, p.notional, 1, |p'.store.buckets|) == Ok(View(p'.store))
    && Value(p'.store) == Value(p.store)
  }

  lemma RaisedSum(buckets: map<int, nat>, tick: int, added: nat)
    ensures Sum(Raised(buckets, tick, added)) == Sum(buckets) + added
  {
    SumUpdate(buckets, tick, (if tick in buckets then buckets[tick] else 0) + added);
  }

  lemma MergeWithinCap(
    bs: map<int, Bucket>, tick: int, anchor: nat, shares: nat, notional: nat, count: nat, maxBuckets: nat)
    requires IdealMerge(bs, tick, anchor, shares, notional, count, maxBuckets).Ok?
    ensures
      var bs' := IdealMerge(bs, tick, anchor, shares, notional, count, maxBuckets).value;
      IdealMerge(bs, tick, anchor, shares, notional, count, |bs'|) == Ok(bs')
  {
    var bs' := IdealMerge(bs, tick, anchor, shares, notional, count, maxBuckets).value;
    if tick !in bs {
      assert bs'.Keys == bs.Keys + {tick};
      assert |bs'.Keys| == |bs.Keys| + 1;
    }
  }

  /** The steps of a rotation. */
  lemma RotateUnfolds(m: Market, p: Pool, pNow: u64)
    requires p.shares > 0 && p.recovery < U128
    ensures
      var r := Rotate(m, p, pNow);
      && (!TickConfigured(m) ==> r == Err(Invariant(NoTickSize)))
      && (TickConfigured(m) ==>
            && BucketTick(m, pNow).Ok?
            && var tick := BucketTick(m, pNow).value;
            && var merged := InsertOrMerge(p.store, tick, pNow, p.shares, p.notional, 1, m.maxBuckets);
            && (merged.Err? ==> r == Err(merged.error))
            && (merged.Ok? && r.Err? ==> r.error == MathOverflow)
            && (r.Ok? ==>
                  && merged.Ok? && p.recovery + p.shares < U128
                  && r.value == p.(store := merged.value, recovery := p.recovery + p.shares, shares := 0, notional := 0,
                                   log := p.log + [RotateRecord(p.generation, tick, pNow)],
                                   generation := p.generation + 1)))
  {
    hide InsertOrMerge, FloorDiv;
  }

  lemma MergeIs(s: Store, tick: int, anchor: nat, shares: nat, notional: nat, maxBuckets: nat)
    requires Inv(s) && shares < U128 && notional < U128
    ensures
      var r := InsertOrMerge(s, tick, anchor, shares, notional, 1, maxBuckets);
      && Benign(r)
      && (r.Ok? ==>
            && Inv(r.value) && r.value.direction == s.direction && Value(r.value) == Value(s)
            && StoreShares.SharesOf(r.value) == Raised(StoreShares.SharesOf(s), tick, shares)
            && IdealMerge(View(s), tick, anchor, shares, notional, 1, |r.value.buckets|) == Ok(View(r.value)))
  {
    hide InsertOrMerge, Inv, View, IdealMerge, BucketShares, Raised;
    var r := InsertOrMerge(s, tick, anchor, shares, notional, 1, maxBuckets);
    InsertOrMergeRefines(s, tick, anchor, shares, notional, 1, maxBuckets);
    MergeErrors(s, tick, anchor, shares, notional, 1, maxBuckets);
    if r.Ok? {
      StoreShares.MergeRaisesShares(s, tick, anchor, shares, notional, 1, maxBuckets);
      MergeWithinCap(View(s), tick, anchor, shares, notional, 1, maxBuckets);
      ViewSize(r.value);
    }
  }

  lemma RotateIs(m: Market, p: Pool, d: Direction, pNow: u64)
    requires PoolCore(p, d) && p.shares > 0
    ensures
      var r := Rotate(m, p, pNow);
      && (r.Ok? ==> BucketTick(m, pNow).Ok? && PoolCore(r.value, d) && RotatedTo(p, r.value, BucketTick(m, pNow).value, pNow))
      && (TickConfigured(m) ==> Benign(r))
      && (!TickConfigured(m) ==> r == Err(Invariant(NoTickSize)))
  {
    hide Rotate, BucketTick, InsertOrMerge, Inv, View, Raised, IdealMerge, Sum, BucketShares, LogOk, MulDivFloor;
    RotateUnfolds(m, p, pNow);
    var r := Rotate(m, p, pNow);
    if TickConfigured(m) {
      var tick := BucketTick(m, pNow).value;
      MergeIs(p.store, tick, pNow, p.shares, p.notional, m.maxBuckets);
      if r.Ok? {
        RaisedSum(StoreShares.SharesOf(p.store), tick, p.shares);
        RotatedLog(p, r.value, tick, pNow);
      }
    }
  }

  lemma RotatedLog(p: Pool, p': Pool, tick: int, anchor: nat)
    requires LogOk(p.log, p.generation)
    requires p'.log == p.log + [RotateRecord(p.generation, tick, anchor)] && p'.generation == p.generation + 1
    ensures LogOk(p'.log, p'.generation)
  {
  }

  lemma MergeErrors(s: Store, tick: int, anchor: nat, shares: nat, notional: nat, count: nat, maxBuckets: nat)
    requires Inv(s)
    ensures Benign(InsertOrMerge(s, tick, anchor, shares, notional, count, maxBuckets))
  {
    hide ApplyBucket, Inv, View;
    AppliedBucket(s, tick);
  }

  /** The tick stamped on the last rotation, seen from a position of an earlier generation. */
  lemma RotatedHolding(p: Pool, p': Pool, tick: int, anchor: nat, pos: Position)
    requires LogOk(p.log, p.generation) && PosOk(p.generation, pos)
    requires p'.log == p.log + [RotateRecord(p.generation, tick, anchor)]
    ensures HoldingOf(p', pos) == Rest(HoldingOf(p, pos), tick)
  {
  }

  lemma RotatedHoldings(p: Pool, p': Pool, d: Direction, ps: map<nat, Position>, tick: int, anchor: nat)
    requires LogOk(p.log, p.generation) && p'.log == p.log + [RotateRecord(p.generation, tick, anchor)]
    requires forall id :: id in ps && ps[id].direction == d ==> PosOk(p.generation, ps[id])
    ensures HoldingsOf(p', d, ps) == RestAll(HoldingsOf(p, d, ps), tick)
  {
    hide HoldingOf, LogOk, PosOk;
    forall id | id in ps
      ensures HoldingsOf(p', d, ps)[id] == RestAll(HoldingsOf(p, d, ps), tick)[id]
    {
      if ps[id].direction == d {
        RotatedHolding(p, p', tick, anchor, ps[id]);
      }
    }
  }

  /** Holdings of one direction are read off the positions and the rotate log alone. */
  lemma SameLogSameHoldings(p: Pool, p': Pool, d: Direction, ps: map<nat, Position>)
    requires p'.log == p.log
    ensures HoldingsOf(p', d, ps) == HoldingsOf(p, d, ps)
  {
  }

  /** One side after its conditional rotation. */
  ghost predicate SideRotated(m: Market, p: Pool, p': Pool, pNow: u64) {
    if p.equity == 0 && p.shares > 0 then
      BucketTick(m, pNow).Ok? && RotatedTo(p, p', BucketTick(m, pNow).value, pNow)
    else p' == p
  }

  /** The event of that rotation, if there is one. */
  function RotationEvents(m: Market, id: nat, d: Direction, p: Pool, pNow: u64): seq<EngineEvent> {
    if p.equity == 0 && p.shares > 0 && BucketTick(m, pNow).Ok? then
      [ActiveRotatedToRecovery(id, d, BucketTick(m, pNow).value, pNow, p.shares, p.notional, p.generation)]
    else []
  }

  lemma RotateSide(m: Market, id: nat, d: Direction, p: Pool, pNow: u64, ps: map<nat, Position>)
    requires PoolCore(p, d) && PoolBacked(p, HoldingsOf(p, d, ps))
    requires p.shares == 0 ==> p.equity == 0
    requires forall id :: id in ps && ps[id].direction == d ==> PosOk(p.generation, ps[id])
    ensures
      var r := RotateIfEmpty(m, id, d, p, pNow);
      && (r.Ok? ==>
            && SideOk(r.value.0, d, ps) && SideRotated(m, p, r.value.0, pNow)
            && r.value.1 == RotationEvents(m, id, d, p, pNow)
            && r.value.0.generation >= p.generation)
      && (TickConfigured(m) ==> Benign(r))
      && (!Benign(r) ==> r == Err(Invariant(NoTickSize)))
  {
    var r := RotateIfEmpty(m, id, d, p, pNow);
    if p.equity == 0 && p.shares > 0 {
      RotateIs(m, p, d, pNow);
      if r.Ok? {
        RotatedSide(p, r.value.0, d, ps, BucketTick(m, pNow).value, pNow);
      }
    }
    hide Rotate, PoolCore, Backed, BucketTick, BucketShares, Raised, IdealMerge, View, HoldingsOf, Inv, Sum;
  }

  lemma RotatedSide(p: Pool, p': Pool, d: Direction, ps: map<nat, Position>, tick: int, anchor: nat)
    requires PoolCore(p, d) && PoolBacked(p, HoldingsOf(p, d, ps)) && p.shares > 0 && p.equity == 0
    requires forall id :: id in ps && ps[id].direction == d ==> PosOk(p.generation, ps[id])
    requires PoolCore(p', d) && RotatedTo(p, p', tick, anchor)
    ensures SideOk(p', d, ps)
  {
    RotatedHoldings(p, p', d, ps, tick, anchor);
    hide HoldingsOf, RestAll, PosOk, BucketShares, Backed, Inv, Sum, IdealMerge, View, Raised;
    Rotated(p.shares, p.notional, StoreShares.SharesOf(p.store), HoldingsOf(p, d, ps), tick);
  }
}
