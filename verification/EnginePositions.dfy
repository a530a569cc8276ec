/**
  Opening, closing, force-closing and claiming keep the population, never fail a run-time check,
  and pay out exactly what leaves the sub pool.
*/
module EnginePositions {
  import opened Wrappers
  import opened MoleMath
  import opened Clearing
  import opened Sums
  import opened Dormant
  import opened DormantInvariant
  import DormantRefinement
  import opened Engine
  import opened Holdings
  import opened StoreShares
  import opened EngineInvariant
  import opened EngineSync

  // ---------------------------------------------------------------- funds

  /** Funds a side answers for. */
  function SideFunds(p: Pool): nat {
    p.equity + Value(p.store) + p.dust
  }

  /** Pool equities, bucket accruals, in-flight distributions and dust. */
  function Funds(sp: SubPool): nat {
    SideFunds(sp.long) + SideFunds(sp.short)
  }

  lemma RotationKeepsFunds(m: Market, p: Pool, p': Pool, pNow: u64)
    requires SideRotated(m, p, p', pNow)
    ensures SideFunds(p') == SideFunds(p)
  {
    hide IdealMerge, View, BucketShares, Raised, BucketTick;
  }

  lemma ExchangeKeepsFunds(p: Pool, p': Pool, own: Flow, other: Flow, pNow: nat)
    requires SideExchanged(p, p', own, other, pNow)
    ensures SideFunds(p') + Amount(other) == SideFunds(p) + Amount(own)
  {
    hide IdealDistribute, View, BucketShares;
  }

  /** A successful sync moves value between the pools, the buckets and dust, but never makes or loses any. */
  lemma SyncConserves(m: Market, sp: SubPool, env: Envelope, ps: map<nat, Position>)
    requires WorldOk(sp, ps) && SyncPool(m, sp, env).Ok?
    ensures Funds(SyncPool(m, sp, env).value.0) == Funds(sp)
  {
    hide WorldOk, SyncPool, Midway, SideExchanged, SideRotated, PoolCore, SyncEvents, SideFunds;
    SyncKeepsWorld(m, sp, env, ps);
    var (sp', out) := SyncPool(m, sp, env).value;
    var mid := Midway(m, sp, env);
    ExchangeKeepsFunds(sp.long, mid.long, out.long, out.short, env.pNow);
    ExchangeKeepsFunds(sp.short, mid.short, out.short, out.long, env.pNow);
    RotationKeepsFunds(m, mid.long, sp'.long, env.pNow);
    RotationKeepsFunds(m, mid.short, sp'.short, env.pNow);
  }

  // ---------------------------------------------------------------- lazy migration

  lemma {:induction false} FindFrom(log: seq<RotateRecord>, base: nat, generation: nat)
    requires forall i :: 0 <= i < |log| ==> log[i].generation == base + i
    requires base <= generation < base + |log|
    ensures FindRecord(log, generation) == Some(log[generation - base])
    decreases |log|
  {
    if generation != base {
      FindFrom(log[1..], base + 1, generation);
    }
  }

  /** What a position shows of itself, ignoring the rotate log. */
  function Shown(pos: Position): Holding {
    Holding(pos.active, pos.notional, pos.recovery, if pos.tick.Some? then pos.tick.value else 0)
  }

  /**
    `lazy_migrate_position` never misses its rotate record, and the position then shows exactly
    what it held all along.
  */
  lemma LazyMigrateIs(p: Pool, pos: Position)
    requires LogOk(p.log, p.generation) && PosOk(p.generation, pos)
    ensures
      var r := LazyMigrate(p, pos);
      && r.Ok?
      && PosOk(p.generation, r.value) && r.value.generation == p.generation
      && Shown(r.value) == HoldingOf(p, pos) == HoldingOf(p, r.value)
      && r.value.id == pos.id && r.value.direction == pos.direction
      && r.value.schemaVersion == pos.schemaVersion && r.value.principal == pos.principal
      && (r.value.status.Closed? ==> pos.status.Closed?)
  {
    if pos.active > 0 && pos.generation < p.generation {
      FindFrom(p.log, 0, pos.generation);
    }
  }

  // ---------------------------------------------------------------- one position changes

  lemma SetPosition(p: Pool, d: Direction, ps: map<nat, Position>, id: nat, pos: Position)
    ensures HoldingsOf(p, d, ps[id := pos])
         == HoldingsOf(p, d, ps)[id := if pos.direction == d then HoldingOf(p, pos) else NOTHING]
  {
  }

  /** The other side does not notice. */
  lemma OtherSideKeeps(p: Pool, d: Direction, ps: map<nat, Position>, id: nat, pos: Position)
    requires SideOk(p, d, ps) && pos.direction != d
    requires id in ps ==> ps[id].direction == pos.direction
    ensures SideOk(p, d, ps[id := pos])
  {
    hide PoolOk, HoldingOf, BucketShares, Backed;
    SetPosition(p, d, ps, id, pos);
    Minted(p.shares, p.notional, SharesOf(p.store), HoldingsOf(p, d, ps), id, 0, 0);
  }

  lemma WorldAfter(sp: SubPool, sp': SubPool, ps: map<nat, Position>, d: Direction, id: nat, pos: Position)
    requires WorldOk(sp, ps)
    requires sp' == sp.With(d, sp'.Side(d))
    requires sp'.Side(d).log == sp.Side(d).log && sp'.Side(d).generation == sp.Side(d).generation
    requires PoolOk(sp'.Side(d), d)
    requires PoolBacked(sp'.Side(d), HoldingsOf(sp.Side(d), d, ps)[id := HoldingOf(sp.Side(d), pos)])
    requires pos.id == id && pos.direction == d && PosOk(sp.Side(d).generation, pos)
    requires id in ps ==> ps[id].direction == d
    ensures WorldOk(sp', ps[id := pos])
  {
    hide PoolOk, PoolBacked, HoldingsOf, PosOk, HoldingOf, SideOk;
    var p, p' := sp.Side(d), sp'.Side(d);
    assert SideOk(p', d, ps[id := pos]) by {
      SameHolding(p, p', pos);
      SameLogSameHoldings(p, p', d, ps);
      SetPosition(p', d, ps, id, pos);
      SideFrom(p', d, ps[id := pos]);
    }
    OtherSideKeeps(sp.Side(d.Opposite()), d.Opposite(), ps, id, pos);
  }

  lemma SideFrom(p: Pool, d: Direction, ps: map<nat, Position>)
    requires PoolOk(p, d) && PoolBacked(p, HoldingsOf(p, d, ps))
    ensures SideOk(p, d, ps)
  {
    hide PoolOk, PoolBacked, HoldingsOf;
  }

  lemma SameHolding(p: Pool, p': Pool, pos: Position)
    requires p'.log == p.log
    ensures HoldingOf(p', pos) == HoldingOf(p, pos)
  {
  }

  // ---------------------------------------------------------------- redeeming

  /** The holding of position `id` is what the position shows. */
  ghost predicate Holds(hs: map<nat, Holding>, pos: Position) {
    pos.id in hs && hs[pos.id] == Shown(pos)
  }

  /** `p'` is `p` after `receipt` was redeemed from the bucket at `tick`. */
  ghost predicate RedeemedFrom(p: Pool, p': Pool, tick: int, burn: nat, receipt: RedeemReceipt) {
    && p' == p.(store := p'.store, recovery := p'.recovery)
    && p'.recovery + burn == p.recovery
    && receipt.burnedShares == burn
    && receipt.redeemable <= Value(p.store)
    && Value(p'.store) == Value(p.store) - receipt.redeemable
    && IdealRedeem(View(p.store), tick, burn) == Ok((View(p'.store), receipt))
  }

  lemma TakenSum(buckets: map<int, nat>, tick: int, burn: nat)
    requires tick in buckets && burn <= buckets[tick]
    ensures Sum(Taken(buckets, tick, burn)) + burn == Sum(buckets)
  {
    SumSplit(buckets, tick);
    SumUpdate(buckets, tick, buckets[tick] - burn);
  }

  /** A redemption of shares a bucket has. */
  lemma RedeemIs(s: Store, tick: int, burn: nat)
    requires Inv(s) && burn > 0 && tick in SharesOf(s) && burn <= SharesOf(s)[tick]
    ensures
      var r := Redeem(s, tick, burn);
      && (r.Err? ==> r.error == MathOverflow)
      && (r.Ok? ==>
            var (s', receipt) := r.value;
            && Inv(s') && s'.direction == s.direction
            && IdealRedeem(View(s), tick, burn) == Ok((View(s'), receipt))
            && receipt.redeemable <= Value(s) && Value(s') == Value(s) - receipt.redeemable
            && receipt.burnedShares == burn
            && SharesOf(s') == Taken(SharesOf(s), tick, burn))
  {
    DormantRefinement.RedeemRefines(s, tick, burn);
    RedeemNeverInvariant(s, tick, burn);
    hide Redeem, Inv, View, IdealRedeem, Taken;
    if Redeem(s, tick, burn).Ok? {
      RedeemTakesShares(s, tick, burn);
    }
  }

  /** The steps of `RedeemRecovery` when there is something to redeem. */
  lemma RedeemRecoveryUnfolds(p: Pool, pos: Position)
    requires pos.recovery > 0 && pos.tick.Some?
    ensures
      var r := RedeemRecovery(p, pos);
      var redeemed := Redeem(p.store, pos.tick.value, pos.recovery);
      && (redeemed.Err? ==> r == Err(redeemed.error))
      && (r.Ok? ==> redeemed.Ok? && redeemed.value.1.burnedShares <= p.recovery)
      && (redeemed.Ok? && redeemed.value.1.burnedShares <= p.recovery ==>
            && r.Ok?
            && r.value.0 == p.(store := redeemed.value.0, recovery := p.recovery - redeemed.value.1.burnedShares)
            && r.value.1 == pos.(recovery := 0, tick := None)
            && r.value.2 == redeemed.value.1)
  {
    hide Redeem;
  }

  /** A position's recovery shares can always be redeemed: the bucket is there and has enough. */
  lemma RedeemRecoveryIs(p: Pool, d: Direction, pos: Position, hs: map<nat, Holding>)
    requires PoolOk(p, d) && PoolBacked(p, hs) && Holds(hs, pos)
    requires PosOk(p.generation, pos) && pos.recovery > 0
    ensures
      var r := RedeemRecovery(p, pos);
      && (r.Err? ==> r.error == MathOverflow)
      && (r.Ok? ==>
            && PoolOk(r.value.0, d) && PoolBacked(r.value.0, hs[pos.id := NOTHING])
            && r.value.1 == pos.(recovery := 0, tick := None)
            && pos.tick.Some?
            && RedeemedFrom(p, r.value.0, pos.tick.value, pos.recovery, r.value.2))
  {
    hide RedeemRecovery, Redeem, Inv, View, IdealRedeem, Taken, Backed, BucketShares, SharesOf, PoolOk;
    var tick := pos.tick.value;
    PoolParts(p, d);
    Redeemed(p.shares, p.notional, SharesOf(p.store), hs, pos.id);
    RedeemIs(p.store, tick, pos.recovery);
    TakenSum(SharesOf(p.store), tick, pos.recovery);
    RedeemRecoveryUnfolds(p, pos);
    var r := RedeemRecovery(p, pos);
    if r.Ok? {
      PoolRedeemed(p, r.value.0, d);
    }
  }

  lemma PoolParts(p: Pool, d: Direction)
    requires PoolOk(p, d)
    ensures Inv(p.store) && p.store.direction == d && p.recovery == Sum(SharesOf(p.store))
    ensures ZeroIff(p) && InRange(p) && LogOk(p.log, p.generation)
  {
    hide Inv, LogOk, Sum, InRange, ZeroIff;
  }

  lemma PoolRedeemed(p: Pool, p': Pool, d: Direction)
    requires PoolOk(p, d) && p' == p.(store := p'.store, recovery := p'.recovery)
    requires Inv(p'.store) && p'.store.direction == d
    requires p'.recovery <= p.recovery && p'.recovery == Sum(SharesOf(p'.store))
    ensures PoolOk(p', d)
  {
    hide Inv, LogOk, Sum, BucketShares;
  }

  lemma PoolShrinks(p: Pool, p': Pool, d: Direction)
    requires PoolOk(p, d) && p' == p.(equity := p'.equity, shares := p'.shares, notional := p'.notional)
    requires p'.equity <= p.equity && p'.shares <= p.shares && p'.notional <= p.notional
    requires ZeroIff(p')
    ensures PoolOk(p', d)
  {
    hide Inv, LogOk, Sum, BucketShares;
  }

  // ---------------------------------------------------------------- closing

  /** Burning a strict part of the shares leaves equity, burning all leaves none. */
  lemma PartLeaves(equity: nat, active: nat, shares: nat)
    requires 0 < active <= shares && 0 < equity
    ensures FloorDiv(equity, active, shares) <= equity
    ensures FloorDiv(equity, active, shares) == equity <==> active == shares
  {
    PartBound(equity, active, shares);
    var v := FloorDiv(equity, active, shares);
    FloorDivBounds(equity, active, shares);
    if active < shares && v == equity {
      MulStrict(active, shares, equity);
    }
  }

  lemma MulStrict(x: nat, y: nat, c: nat)
    requires x < y && 0 < c
    ensures c * x < c * y
  {
  }

  /** Closing the active part never overflows and keeps the pool consistent. */
  lemma CloseActiveIs(p: Pool, d: Direction, pos: Position, hs: map<nat, Holding>)
    requires PoolOk(p, d) && PoolBacked(p, hs) && Holds(hs, pos) && pos.active > 0
    ensures 0 < p.shares && pos.active <= p.shares && 0 < p.equity && pos.notional <= p.notional
    ensures
      var value := FloorDiv(p.equity, pos.active, p.shares);
      && value <= p.equity
      && CloseActive(p, pos) ==
           Ok((p.(equity := p.equity - value, shares := p.shares - pos.active, notional := p.notional - pos.notional),
               pos.(active := 0), value))
      && PoolOk(CloseActive(p, pos).value.0, d)
      && PoolBacked(CloseActive(p, pos).value.0, hs[pos.id := NOTHING])
  {
    hide PoolOk, LogOk, Backed, SharesOf, Sum, FloorDiv;
    PoolParts(p, d);
    Burned(p.shares, p.notional, SharesOf(p.store), hs, pos.id);
    PartLeaves(p.equity, pos.active, p.shares);
    PoolShrinks(p, CloseActive(p, pos).value.0, d);
  }

  /** Worthless active shares can be burned; shares worth something are refused. */
  lemma BurnWorthlessIs(p: Pool, d: Direction, pos: Position, hs: map<nat, Holding>)
    requires PoolOk(p, d) && PoolBacked(p, hs) && Holds(hs, pos) && pos.active > 0
    ensures 0 < p.shares && pos.active <= p.shares && 0 < p.equity && pos.notional <= p.notional
    ensures FloorDiv(p.equity, pos.active, p.shares) > 0 ==> BurnWorthless(p, pos) == Err(Invariant(ForceClosePositive))
    ensures FloorDiv(p.equity, pos.active, p.shares) == 0 ==>
      && BurnWorthless(p, pos) ==
           Ok((p.(shares := p.shares - pos.active, notional := p.notional - pos.notional), pos.(active := 0)))
      && PoolOk(BurnWorthless(p, pos).value.0, d)
      && PoolBacked(BurnWorthless(p, pos).value.0, hs[pos.id := NOTHING])
  {
    hide PoolOk, LogOk, Backed, SharesOf, Sum, FloorDiv;
    PoolParts(p, d);
    Burned(p.shares, p.notional, SharesOf(p.store), hs, pos.id);
    PartLeaves(p.equity, pos.active, p.shares);
    if FloorDiv(p.equity, pos.active, p.shares) == 0 {
      PoolShrinks(p, BurnWorthless(p, pos).value.0, d);
    }
  }
}
