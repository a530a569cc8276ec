/**
  What a sync moves, where a rotation files it and what an open charges, in plain arithmetic and
  to the unit.
*/
module EngineTerms {
  import opened Wrappers
  import opened MoleMath
  import opened Clearing
  import opened Sums
  import opened Dormant
  import opened DormantInvariant
  import opened DormantTerms
  import opened Engine
  import opened Holdings
  import opened EngineInvariant
  import opened EngineSync
  import EnginePositions
  import opened EngineOperations

  // ---------------------------------------------------------------- demand

  /** What the buckets of a store are worth at `price` beyond what they have been credited. */
  ghost predicate IsClaim(s: Store, price: nat, claim: nat) {
    exists worths :: AreWorths(s.direction, s.buckets, price, worths) && claim == Sum(Dues(s.buckets, worths))
  }

  lemma ClaimIs(s: Store, price: nat, claim: nat)
    requires ClaimAt(s, price).Ok?
    ensures IsClaim(s, price, claim) <==> claim == ClaimAt(s, price).value
  {
    hide IsWorth, Dues, TotalOutstandingClaim, Sum;
    var worths := WorthsExist(s.direction, s.buckets, price);
    TotalClaimIs(s.direction, s.buckets, price, worths);
    if IsClaim(s, price, claim) {
      var other :| AreWorths(s.direction, s.buckets, price, other) && claim == Sum(Dues(s.buckets, other));
      TotalClaimIs(s.direction, s.buckets, price, other);
    }
  }

  /**
    What a side asks for when the price moves from `pLast` to `pNow`: for its pool, the notional
    times the favourable move over the old price, rounded down; on top of that the rise of the claims
    of its buckets.
  */
  ghost predicate IsDemand(p: Pool, pLast: nat, pNow: nat, active: nat, total: nat) {
    && IsFloor(active, p.notional, Favour(p.store.direction, pLast, pNow), pLast)
    && exists before: nat, after: nat :: IsClaim(p.store, pLast, before) && IsClaim(p.store, pNow, after)
         && total == active + (if after > before then after - before else 0)
  }

  lemma GainIs(d: Direction, notional: nat, pLast: nat, pNow: nat)
    requires pLast > 0 && SignedPnlIncrement(d.Sign(), notional, pLast, pNow).Ok?
    ensures IsFloor(Gain(SignedPnlIncrement(d.Sign(), notional, pLast, pNow).value), notional, Favour(d, pLast, pNow), pLast)
  {
    PnlIsExact(d.Sign(), notional, pLast, pNow);
    FloorIs(0, notional, 0, pLast);
    ZeroProduct(notional, 0, pLast);
    hide SignedPnlIncrement, IsFloor;
  }

  lemma DemandFrom(p: Pool, pLast: nat, pNow: nat, active: nat, total: nat)
    requires ClaimAt(p.store, pLast).Ok? && ClaimAt(p.store, pNow).Ok?
    requires IsFloor(active, p.notional, Favour(p.store.direction, pLast, pNow), pLast)
    requires total == active + SaturatingSub(ClaimAt(p.store, pNow).value, ClaimAt(p.store, pLast).value)
    ensures IsDemand(p, pLast, pNow, active, total)
  {
    hide IsFloor, IsClaim, ClaimAt;
    ClaimIs(p.store, pLast, ClaimAt(p.store, pLast).value);
    ClaimIs(p.store, pNow, ClaimAt(p.store, pNow).value);
  }

  /** Both demands of a price move, whenever it does not overflow; the side it goes against asks for nothing. */
  lemma DemandIs(sp: SubPool, pNow: nat)
    requires sp.lastPrice > 0 && sp.long.store.direction.Long? && sp.short.store.direction.Short?
    requires Demands(sp, pNow).Ok?
    ensures
      var demand := Demands(sp, pNow).value;
      && IsDemand(sp.long, sp.lastPrice, pNow, demand.longActive, demand.longTotal)
      && IsDemand(sp.short, sp.lastPrice, pNow, demand.shortActive, demand.shortTotal)
      && (pNow >= sp.lastPrice ==> demand.shortActive == 0 == demand.shortTotal)
      && (pNow <= sp.lastPrice ==> demand.longActive == 0 == demand.longTotal)
  {
    hide ClaimAt, SignedPnlIncrement, IsDemand, IsFloor;
    OneSidedDemand(sp, pNow);
    GainIs(Long, sp.long.notional, sp.lastPrice, pNow);
    GainIs(Short, sp.short.notional, sp.lastPrice, pNow);
    var demand := Demands(sp, pNow).value;
    DemandFrom(sp.long, sp.lastPrice, pNow, demand.longActive, demand.longTotal);
    DemandFrom(sp.short, sp.lastPrice, pNow, demand.shortActive, demand.shortTotal);
  }

  // ---------------------------------------------------------------- what a sync moves

  /** The side a price move favours. */
  function Winner(pLast: nat, pNow: nat): Direction {
    if pNow > pLast then Long else Short
  }

  function FlowTo(out: SyncOutcome, d: Direction): Flow {
    if d.Long? then out.long else out.short
  }

  /** `f` is what is paid for a demand of `active` and `total` by a side that has `funds`. */
  ghost predicate IsPayment(f: Flow, active: nat, total: nat, funds: nat) {
    && Amount(f) == (if total <= funds then total else funds)
    && (if total == 0 then f.toPool == 0 else IsFloor(f.toPool, Amount(f), active, total))
  }

  lemma TransferPays(m: Market, sp: SubPool, d: Direction, active: nat, total: nat, pNow: nat)
    requires PoolCore(sp.long, Long) && PoolCore(sp.short, Short)
    requires 0 < total && active <= total && Transfer(m, sp, d, active, total, pNow).Ok?
    ensures IsPayment(Transfer(m, sp, d, active, total, pNow).value.1, active, total, sp.Side(d.Opposite()).equity)
  {
    hide PoolCore, Transfer, SideExchanged, IsFloor, FloorDiv;
    TransferIs(m, sp, d, active, total, pNow);
    var f := Transfer(m, sp, d, active, total, pNow).value.1;
    FloorIs(f.toPool, Amount(f), active, total);
  }

  lemma SettlePays(m: Market, sp: SubPool, demand: Demand, pNow: nat)
    requires PoolCore(sp.long, Long) && PoolCore(sp.short, Short)
    requires Demands(sp, pNow) == Ok(demand) && Settle(m, sp, demand, pNow).Ok?
    ensures
      var (_, long, short) := Settle(m, sp, demand, pNow).value;
      && IsPayment(long, demand.longActive, demand.longTotal, sp.short.equity)
      && IsPayment(short, demand.shortActive, demand.shortTotal, sp.long.equity)
  {
    OneSidedDemand(sp, pNow) by {
      hide Inv, LogOk, InRange, Sum;
    }
    hide PoolCore, Transfer, Demands, IsFloor;
    if demand.longTotal > 0 {
      TransferPays(m, sp, Long, demand.longActive, demand.longTotal, pNow);
    } else if demand.shortTotal > 0 {
      TransferPays(m, sp, Short, demand.shortActive, demand.shortTotal, pNow);
    }
  }

  /** A successful sync to another price ran its settlement. */
  lemma SyncSettles(m: Market, sp: SubPool, env: Envelope)
    requires Moved(sp, env) && SyncPool(m, sp, env).Ok?
    ensures Demands(sp, env.pNow).Ok? && Settle(m, sp, Demands(sp, env.pNow).value, env.pNow).Ok?
    ensures
      var settled := Settle(m, sp, Demands(sp, env.pNow).value, env.pNow).value;
      var out := SyncPool(m, sp, env).value.1;
      out.long == settled.1 && out.short == settled.2
  {
    hide SyncPool, MovePrice, Demands, Settle, RotateBoth, CheckSubPool, Midway;
    SyncUnfolds(m, sp, env);
    MovePriceUnfolds(m, sp, env);
  }

  /**
    What a sync to another price moves, to the unit: the side the move favours asks for the whole
    part of notional * move / old price for its pool and for the rise of its buckets' claims; the
    other side pays that or all it has; the pool receives its proportion of the payment, rounded down.
  */
  lemma SyncPays(m: Market, sp: SubPool, env: Envelope, ps: map<nat, Position>) returns (active: nat, total: nat)
    requires WorldOk(sp, ps) && Moved(sp, env) && SyncPool(m, sp, env).Ok?
    ensures
      var (sp', out) := SyncPool(m, sp, env).value;
      var d := Winner(sp.lastPrice, env.pNow);
      var own := FlowTo(out, d);
      && IsDemand(sp.Side(d), sp.lastPrice, env.pNow, active, total)
      && IsPayment(own, active, total, sp.Side(d.Opposite()).equity)
      && Amount(FlowTo(out, d.Opposite())) == 0
      && sp'.Side(d).equity == sp.Side(d).equity + own.toPool
      && sp'.Side(d.Opposite()).equity == sp.Side(d.Opposite()).equity - Amount(own)
      && sp'.Side(d).dust == sp.Side(d).dust + own.residual
  {
    hide WorldOk, SyncPool, Demands, Settle, IsDemand, IsPayment, PoolCore, SideOk, PositionsOk;
    SidesCore(sp, ps);
    SyncSettles(m, sp, env);
    DemandIs(sp, env.pNow);
    var demand := Demands(sp, env.pNow).value;
    SettlePays(m, sp, demand, env.pNow);
    SyncMoves(m, sp, env, ps);
    NothingPaid(FlowTo(SyncPool(m, sp, env).value.1, Winner(sp.lastPrice, env.pNow).Opposite()),
                sp.Side(Winner(sp.lastPrice, env.pNow)).equity);
    if env.pNow > sp.lastPrice {
      active, total := demand.longActive, demand.longTotal;
    } else {
      active, total := demand.shortActive, demand.shortTotal;
    }
  }

  lemma NothingPaid(f: Flow, funds: nat)
    ensures IsPayment(f, 0, 0, funds) ==> Amount(f) == 0 && f.toPool == 0 && f.residual == 0
  {
    hide IsFloor;
  }

  /** The books of both sides after a sync. */
  lemma SyncMoves(m: Market, sp: SubPool, env: Envelope, ps: map<nat, Position>)
    requires WorldOk(sp, ps) && SyncPool(m, sp, env).Ok?
    ensures
      var (sp', out) := SyncPool(m, sp, env).value;
      && sp'.long.equity + Amount(out.short) == sp.long.equity + out.long.toPool
      && sp'.short.equity + Amount(out.long) == sp.short.equity + out.short.toPool
      && sp'.long.dust == sp.long.dust + out.long.residual
      && sp'.short.dust == sp.short.dust + out.short.residual
  {
    hide WorldOk, SyncPool, Midway, PoolCore, SyncEvents, Credited, BucketTick, IdealMerge, View, Raised;
    SyncKeepsWorld(m, sp, env, ps);
  }

  lemma NoClaims(s: Store, price: nat, claim: nat)
    requires s.buckets == map[] && IsClaim(s, price, claim)
    ensures claim == 0
  {
    var worths :| AreWorths(s.direction, s.buckets, price, worths) && claim == Sum(Dues(s.buckets, worths));
    SumZero(Dues(s.buckets, worths));
  }

  lemma PlainDemand(p: Pool, pLast: nat, pNow: nat, active: nat, total: nat)
    requires p.store.buckets == map[] && IsDemand(p, pLast, pNow, active, total)
    ensures total == active
  {
    hide IsClaim, IsFloor;
    var before: nat, after: nat :| IsClaim(p.store, pLast, before) && IsClaim(p.store, pNow, after)
      && total == active + (if after > before then after - before else 0);
    NoClaims(p.store, pLast, before);
    NoClaims(p.store, pNow, after);
  }

  lemma PlainPayment(f: Flow, active: nat, funds: nat)
    requires IsPayment(f, active, active, funds)
    ensures f.toPool == (if active <= funds then active else funds) && f.toRecovery == 0 == f.residual
  {
    if active > 0 {
      FloorIs(f.toPool, Amount(f), active, active);
      FromQuotient(Amount(f), active, active, Amount(f), 0);
    }
  }

  /** Without buckets on the favoured side the whole payment goes to its pool. */
  lemma PlainSyncPays(m: Market, sp: SubPool, env: Envelope, ps: map<nat, Position>) returns (gain: nat)
    requires WorldOk(sp, ps) && Moved(sp, env) && SyncPool(m, sp, env).Ok?
    requires sp.Side(Winner(sp.lastPrice, env.pNow)).store.buckets == map[]
    ensures
      var out := SyncPool(m, sp, env).value.1;
      var d := Winner(sp.lastPrice, env.pNow);
      var funds := sp.Side(d.Opposite()).equity;
      && IsFloor(gain, sp.Side(d).notional, Distance(sp.lastPrice, env.pNow), sp.lastPrice)
      && FlowTo(out, d).toPool == (if gain <= funds then gain else funds)
      && FlowTo(out, d).toRecovery == 0 == FlowTo(out, d).residual
      && Amount(FlowTo(out, d.Opposite())) == 0
  {
    hide WorldOk, SyncPool, IsPayment, IsFloor, IsClaim;
    var total: nat;
    gain, total := SyncPays(m, sp, env, ps);
    var d := Winner(sp.lastPrice, env.pNow);
    var out := SyncPool(m, sp, env).value.1;
    DirectionOf(sp, ps, d);
    PlainDemand(sp.Side(d), sp.lastPrice, env.pNow, gain, total);
    PlainPayment(FlowTo(out, d), gain, sp.Side(d.Opposite()).equity);
  }

  lemma DirectionOf(sp: SubPool, ps: map<nat, Position>, d: Direction)
    requires WorldOk(sp, ps)
    ensures sp.Side(d).store.direction == d
  {
    SidesCore(sp, ps);
    hide WorldOk, PoolCore, SideOk, PositionsOk;
  }

  /** A sync credits the buckets of the favoured side their cuts of what is paid for them, and no others. */
  lemma SyncCredits(m: Market, sp: SubPool, env: Envelope, ps: map<nat, Position>, worths: map<int, nat>)
    requires WorldOk(sp, ps) && Moved(sp, env) && SyncPool(m, sp, env).Ok?
    requires
      var s := sp.Side(Winner(sp.lastPrice, env.pNow)).store;
      AreWorths(s.direction, View(s), env.pNow, worths)
    ensures
      var (sp', out) := SyncPool(m, sp, env).value;
      var d := Winner(sp.lastPrice, env.pNow);
      var own := FlowTo(out, d);
      CutsCredited(View(sp.Side(d).store), View(sp'.Side(d).store), Dues(View(sp.Side(d).store), worths),
                   own.toRecovery + own.residual)
  {
    hide WorldOk, SyncPool, Midway, PoolCore, SideOk, PositionsOk, SyncEvents, IdealDistribute, RotatedTo, AreWorths,
      CutsCredited, Dues, View, IsDemand, IsPayment, StoreShares.SharesOf, Value, RotationEvents;
    var d := Winner(sp.lastPrice, env.pNow);
    var active, total := SyncPays(m, sp, env, ps);
    SidesCore(sp, ps);
    SyncKeepsWorld(m, sp, env, ps);
    var own := FlowTo(SyncPool(m, sp, env).value.1, d);
    IdealPays(d, View(sp.Side(d).store), env.pNow, own.toRecovery + own.residual, worths);
  }

  // ---------------------------------------------------------------- what a sync accepts

  /** The move from `pLast` to `pNow` in whole basis points does not exceed `limit`. */
  predicate MoveWithin(pLast: nat, pNow: nat, limit: nat) {
    Distance(pLast, pNow) * BPS_SCALE < (limit + 1) * pLast
  }

  lemma BpsWithin(pLast: nat, pNow: nat, limit: nat)
    requires pLast > 0 && PriceMoveBps(pLast, pNow).Ok?
    ensures PriceMoveBps(pLast, pNow).value <= limit <==> MoveWithin(pLast, pNow, limit)
  {
    PriceMoveIsExact(pLast, pNow);
    var q := PriceMoveBps(pLast, pNow).value;
    FloorIs(q, Distance(pLast, pNow), BPS_SCALE, pLast);
    FloorBelow(Distance(pLast, pNow), BPS_SCALE, pLast, limit + 1);
    hide FloorDiv, IsFloor, PriceMoveBps;
  }

  /**
    A sync is turned away, in this order, for the schema, a paused market, a zero price, a price outside
    the caller's bounds, and a move of more whole basis points than the market allows; a sync that
    succeeds has passed all of these.
  */
  lemma SyncRefuses(m: Market, sp: SubPool, env: Envelope)
    ensures
      var r := SyncPool(m, sp, env);
      if m.schemaVersion != SCHEMA_VERSION_CURRENT then r == Err(SchemaVersionMismatch)
      else if m.paused then r == Err(MarketPaused)
      else if env.pNow == 0 then r == Err(OraclePriceZero)
      else if env.pNow < env.expectedMin || env.expectedMax < env.pNow then r == Err(PriceProtectionFailed)
      else if Moved(sp, env) && Distance(sp.lastPrice, env.pNow) * BPS_SCALE >= U64 * sp.lastPrice
      then r == Err(MathOverflow)
      else if Moved(sp, env) && !MoveWithin(sp.lastPrice, env.pNow, m.maxMoveBps) then r == Err(PriceMoveTooLarge)
      else Moved(sp, env) ==> r == MovePrice(m, sp, env)
  {
    PriceMoveIsExact(sp.lastPrice, env.pNow);
    if Moved(sp, env) && PriceMoveBps(sp.lastPrice, env.pNow).Ok? {
      BpsWithin(sp.lastPrice, env.pNow, m.maxMoveBps);
    }
    hide PriceMoveBps, MovePrice, CheckSubPool, MoveWithin, IsFloor;
  }

  // ---------------------------------------------------------------- where a rotation files

  /** A price lies in band `n` of a market: the bands are as wide as the tick times the aggregation. */
  predicate InBand(m: Market, n: nat, price: nat) {
    n * (m.priceTick * m.aggregation) <= price < (n + 1) * (m.priceTick * m.aggregation)
  }

  /** The band a 64-bit tick stands for; a negative tick is one that has wrapped around. */
  function Band(tick: int): nat
    requires 0 <= tick + I64_LIMIT < U64
  {
    if tick >= 0 then tick else tick + U64
  }

  /** A tick is the number of the band its price lies in, as a signed 64-bit number. */
  ghost predicate IsTick(m: Market, tick: int, price: nat) {
    0 <= tick + I64_LIMIT < U64 && InBand(m, Band(tick), price)
  }

  lemma TickIsBand(m: Market, price: u64)
    ensures BucketTick(m, price).Ok? <==> TickConfigured(m)
    ensures TickConfigured(m) ==>
      && IsTick(m, BucketTick(m, price).value, price)
      && (price < I64_LIMIT ==> BucketTick(m, price).value >= 0)
  {
    if TickConfigured(m) {
      var width := m.priceTick * m.aggregation;
      assert width > 0;
      var q := FloorDiv(price, 1, width);
      FloorDivBounds(price, 1, width);
      MulMonotone(1, width, q);
      assert (q + 1) * width == q * width + width;
      hide FloorDiv;
    }
  }

  /** A price lies in one band only. */
  lemma OneBand(m: Market, j: nat, n: nat, price: nat)
    requires InBand(m, j, price) && InBand(m, n, price)
    ensures j == n
  {
    var width := m.priceTick * m.aggregation;
    CancelFactor(j, n + 1, width);
    CancelFactor(n, j + 1, width);
  }

  /** Two prices share a bucket exactly when they lie in one band. */
  lemma TicksAgree(m: Market, p: nat, q: nat, i: int, j: int)
    requires IsTick(m, i, p) && IsTick(m, j, q)
    ensures i == j <==> exists n: nat :: InBand(m, n, p) && InBand(m, n, q)
  {
    hide InBand;
    if i == j {
      assert InBand(m, Band(i), p) && InBand(m, Band(i), q);
    }
    if n: nat :| InBand(m, n, p) && InBand(m, n, q) {
      OneBand(m, n, Band(i), p);
      OneBand(m, n, Band(j), q);
    }
  }

  /** The bucket a rotation of `p` at `price` leaves at its tick. */
  function Rested(p: Pool, bs: map<int, Bucket>, tick: int, price: nat): Bucket {
    if tick in bs then
      var b := bs[tick];
      b.(shares := b.shares + p.shares, notional := b.notional + p.notional, count := b.count + 1)
    else Bucket(price, p.shares, p.notional, 0, 1, 0)
  }

  /**
    `p'` is `p` with its active shares and notional resting in the bucket of the band of `price`: new
    buckets are anchored at the price, others keep their anchor; no other bucket changes, and the
    generation that ends is logged with that tick.
  */
  ghost predicate Filed(m: Market, p: Pool, p': Pool, price: nat, tick: int) {
    && IsTick(m, tick, price)
    && p'.log == p.log + [RotateRecord(p.generation, tick, price)] && p'.generation == p.generation + 1
    && p'.equity == 0 && p'.shares == 0 && p'.notional == 0 && p'.recovery == p.recovery + p.shares
    && View(p'.store) == View(p.store)[tick := Rested(p, View(p.store), tick, price)]
  }

  lemma RotationFiles(m: Market, p: Pool, p': Pool, price: u64)
    requires SideRotated(m, p, p', price) && p.equity == 0 && p.shares > 0
    ensures BucketTick(m, price).Ok? && Filed(m, p, p', price, BucketTick(m, price).value)
  {
    hide BucketTick, View, IsTick, Raised, StoreShares.SharesOf, Value;
    TickIsBand(m, price);
  }

  /** In a sync side `d` pays away all its equity while it has shares. */
  predicate WipedOut(sp: SubPool, out: SyncOutcome, d: Direction) {
    && sp.Side(d).shares > 0
    && sp.Side(d).equity + FlowTo(out, d).toPool == Amount(FlowTo(out, d.Opposite()))
  }

  /** One side between the prices and after the rotation, in terms of the side before. */
  lemma SideFiles(m: Market, p: Pool, mid: Pool, p': Pool, own: Flow, other: Flow, price: u64)
    requires SideExchanged(p, mid, own, other, price) && SideRotated(m, mid, p', price)
    requires Amount(other) > 0 ==> mid.store == p.store
    requires p.shares > 0 ==> p.equity > 0
    ensures
      if p.shares > 0 && p.equity + own.toPool == Amount(other)
      then BucketTick(m, price).Ok? && Filed(m, p, p', price, BucketTick(m, price).value)
      else p'.log == p.log && p'.generation == p.generation && p'.shares == p.shares && p'.notional == p.notional
  {
    hide Credited, RotatedTo, BucketTick, View, IsTick;
    if mid.equity == 0 && mid.shares > 0 {
      RotationFiles(m, mid, p', price);
    }
  }

  /**
    A sync rotates a side exactly when that side paid away all its equity; its shares then rest in the
    bucket of the band of the new price, and the rotation is reported with that tick.
  */
  lemma SyncFiles(m: Market, sp: SubPool, env: Envelope, ps: map<nat, Position>, d: Direction)
    requires WorldOk(sp, ps) && SyncPool(m, sp, env).Ok?
    ensures
      var (sp', out) := SyncPool(m, sp, env).value;
      var p, p' := sp.Side(d), sp'.Side(d);
      if WipedOut(sp, out, d) then
        exists tick ::
          && Filed(m, p, p', env.pNow, tick)
          && ActiveRotatedToRecovery(sp.id, d, tick, env.pNow, p.shares, p.notional, p.generation) in out.events
      else p'.log == p.log && p'.generation == p.generation && p'.shares == p.shares && p'.notional == p.notional
  {
    hide WorldOk, SyncPool, Midway, PoolCore, SideExchanged, SideRotated, BucketTick, SideOk, PositionsOk, Filed;
    SidesCore(sp, ps);
    SyncKeepsWorld(m, sp, env, ps);
    var (sp', out) := SyncPool(m, sp, env).value;
    var mid := Midway(m, sp, env);
    SideFiles(m, sp.Side(d), mid.Side(d), sp'.Side(d), FlowTo(out, d), FlowTo(out, d.Opposite()), env.pNow);
    if WipedOut(sp, out, d) {
      WipedEquity(m, sp, env, ps, d);
      var tick := BucketTick(m, env.pNow).value;
      assert ActiveRotatedToRecovery(sp.id, d, tick, env.pNow, sp.Side(d).shares, sp.Side(d).notional, sp.Side(d).generation)
             in RotationEvents(m, sp.id, d, mid.Side(d), env.pNow);
    }
  }

  /** A side that paid away all its equity stands at zero between the prices, and the price has moved. */
  lemma WipedEquity(m: Market, sp: SubPool, env: Envelope, ps: map<nat, Position>, d: Direction)
    requires WorldOk(sp, ps) && SyncPool(m, sp, env).Ok? && WipedOut(sp, SyncPool(m, sp, env).value.1, d)
    ensures
      var p, mid := sp.Side(d), Midway(m, sp, env).Side(d);
      && mid.equity == 0 && mid.shares == p.shares && mid.notional == p.notional && mid.generation == p.generation
      && Moved(sp, env)
  {
    hide WorldOk, SyncPool, Midway, PoolCore, Credited, SideRotated, SideOk, PositionsOk, SyncEvents, MovePrice,
      CheckSubPool;
    SidesCore(sp, ps);
    SyncKeepsWorld(m, sp, env, ps);
    SyncUnfolds(m, sp, env);
  }

  // ---------------------------------------------------------------- what an open charges

  /** What an open of `gross` costs and leaves: the fee is rounded up, the margin within its limits. */
  ghost predicate IsCharge(m: Market, gross: nat, fee: nat, principal: nat) {
    && 0 < gross == fee + principal
    && IsCeil(fee, gross, m.openFeeBps, BPS_SCALE)
    && m.minMargin <= principal <= m.maxMargin
  }

  /**
    `mint` is what `principal` buys of pool `p`: everything at par in an empty pool, else the whole
    shares it pays for, credited at their whole value; the remainder is dust. A pool whose shares are
    worth less than the market's dilution limit sells none.
  */
  ghost predicate IsMint(m: Market, p: Pool, principal: nat, mint: Mint) {
    && mint.principal + mint.dust == principal
    && (p.equity == 0 ==> p.shares == 0 && mint.shares == principal && mint.dust == 0)
    && (p.equity > 0 ==>
          && p.equity * BPS_SCALE >= p.shares * m.dilutionBps
          && mint.shares > 0 && IsFloor(mint.shares, principal, p.shares, p.equity)
          && IsFloor(mint.principal, mint.shares, p.equity, p.shares))
  }

  lemma ChargeIs(m: Market, gross: u64)
    requires Principal(m, gross).Ok?
    ensures IsCharge(m, gross, Principal(m, gross).value.0, Principal(m, gross).value.1)
  {
    CeilIs(Principal(m, gross).value.0, gross, m.openFeeBps, BPS_SCALE);
    hide CeilDiv, IsCeil;
  }

  lemma MintBuys(m: Market, p: Pool, principal: nat)
    requires MintShares(m, p, principal).Ok?
    ensures IsMint(m, p, principal, MintShares(m, p, principal).value)
  {
    var mint := MintShares(m, p, principal).value;
    if p.equity > 0 {
      FloorIs(mint.shares, principal, p.shares, p.equity);
      if p.shares == 0 {
        ZeroProduct(principal, 0, p.equity);
      } else {
        FloorIs(mint.principal, mint.shares, p.equity, p.shares);
      }
    }
    hide FloorDiv, IsFloor;
  }

  /** Every successful open, to the unit: fee and margin, leverage, shares, and the books of its pool. */
  lemma OpenCharges(m: Market, sp: SubPool, env: Envelope, d: Direction, gross: u64, id: nat)
    requires OpenPosition(m, sp, env, d, gross, id).Ok?
    ensures
      var (sp', pos, out) := OpenPosition(m, sp, env, d, gross, id).value;
      && IsCharge(m, gross, out.fee, pos.principal)
      && IsFloor(out.notional, pos.principal, m.leverageBps, BPS_SCALE)
      && pos.notional == out.notional && pos.active == out.mint.shares && pos.recovery == 0
      && SyncPool(m, sp, env).Ok?
      && var p, p' := SyncPool(m, sp, env).value.0.Side(d), sp'.Side(d);
      && IsMint(m, p, pos.principal, out.mint)
      && p'.equity == p.equity + out.mint.principal && p'.dust == p.dust + out.mint.dust
      && p'.shares == p.shares + out.mint.shares && p'.notional == p.notional + out.notional
  {
    hide SyncPool, OpenPosition, Principal, MintShares, CheckSubPool, FloorDiv, IsFloor, IsCharge, IsMint;
    OpenUnfolds(m, sp, env, d, gross, id);
    ChargeIs(m, gross);
    var (sp', pos, out) := OpenPosition(m, sp, env, d, gross, id).value;
    var p := SyncPool(m, sp, env).value.0.Side(d);
    MintBuys(m, p, pos.principal);
    FloorIs(out.notional, pos.principal, m.leverageBps, BPS_SCALE);
  }

  /** What an open is refused for once its sync went through, with the fee the amount would cost. */
  lemma OpenRefuses(m: Market, sp: SubPool, env: Envelope, d: Direction, gross: u64, id: nat, fee: nat)
    requires SyncPool(m, sp, env).Ok? && IsCeil(fee, gross, m.openFeeBps, BPS_SCALE)
    ensures
      var r := OpenPosition(m, sp, env, d, gross, id);
      var p := SyncPool(m, sp, env).value.0.Side(d);
      if m.frozen then r == Err(FrozenNewPosition)
      else if gross == 0 then r == Err(MarginBelowMinimum)
      else if fee > gross then r == Err(MathOverflow)
      else if gross - fee < m.minMargin then r == Err(MarginBelowMinimum)
      else if gross - fee > m.maxMargin then r == Err(MarginAboveMaximum)
      else if p.equity > 0 && p.equity * BPS_SCALE < U128 && p.shares * m.dilutionBps < U128
              && p.equity * BPS_SCALE < p.shares * m.dilutionBps
      then r == Err(DilutionRiskTooHigh)
      else r.Ok? ==> r.value.1.principal == gross - fee
  {
    SyncRefuses(m, sp, env);
    CeilIs(fee, gross, m.openFeeBps, BPS_SCALE);
    hide SyncPool, MovePrice, CeilDiv, FloorDiv, IsCeil, CheckSubPool, AddShares, MulDivFloor;
  }

  // ---------------------------------------------------------------- migration, pre-sync, checks

  /**
    Migration moves all active shares of a position of an ended generation to the bucket that
    generation was filed in, and remembers the price it was rotated at; a position of the current
    generation, or without active shares, only follows the generation.
  */
  lemma MigrationIs(p: Pool, pos: Position)
    requires LogOk(p.log, p.generation) && PosOk(p.generation, pos)
    ensures LazyMigrate(p, pos) == Ok(
      if pos.active > 0 && pos.generation < p.generation then
        var record := p.log[pos.generation];
        pos.(recovery := pos.active, tick := Some(record.tick), zeroPrice := record.anchor, active := 0, notional := 0,
             status := Resting, generation := p.generation)
      else pos.(generation := p.generation))
  {
    if pos.active > 0 && pos.generation < p.generation {
      EnginePositions.FindFrom(p.log, 0, pos.generation);
    }
  }

  /**
    A pre-sync is refused exactly when the bucket lags by more events than the budget; else it
    catches that bucket up completely and reports how many events that took.
  */
  lemma PreSyncCatchesUp(m: Market, sp: SubPool, d: Direction, tick: int)
    requires Inv(sp.Side(d).store) && tick in sp.Side(d).store.buckets
    requires m.schemaVersion == SCHEMA_VERSION_CURRENT && !m.paused
    ensures
      var s := sp.Side(d).store;
      var lag := s.nextIndex - s.buckets[tick].applied;
      var r := PreSyncBucket(m, sp, d, tick);
      && lag >= 0
      && (r == Err(DormantPendingBudgetExceeded) <==> lag > m.maxPendingApply)
      && (r.Ok? ==>
            var s' := r.value.0.Side(d).store;
            && r.value.1 == lag
            && tick in View(s)
            && s'.buckets == s.buckets[tick := View(s)[tick].(applied := s.nextIndex)]
            && View(s') == View(s))
  {
    hide ApplyBucket, CheckSubPool, Inv, View, HeadShare;
    var s := sp.Side(d).store;
    BucketInWindow(s, tick);
    BucketCatchesUp(s, tick);
    CheckErrors(sp);
    if ApplyBucket(s, tick).Ok? {
      CheckErrors(sp.With(d, sp.Side(d).(store := ApplyBucket(s, tick).value)));
    }
  }

  lemma BucketCatchesUp(s: Store, tick: int)
    requires Inv(s) && tick in s.buckets
    ensures ApplyBucket(s, tick).Err? ==> ApplyBucket(s, tick).error == MathOverflow
    ensures tick in View(s)
    ensures ApplyBucket(s, tick).Ok? ==>
      && ApplyBucket(s, tick).value.buckets == s.buckets[tick := View(s)[tick].(applied := s.nextIndex)]
      && View(ApplyBucket(s, tick).value) == View(s)
  {
    hide ApplyKeys, Inv, View, Settled;
    ApplyKeysRefines(s, {tick});
    SettledIsView(s, tick);
    if ApplyBucket(s, tick).Ok? {
      var bs := s.buckets[tick := View(s)[tick].(applied := s.nextIndex)];
      forall k | k in bs
        ensures k in SettledBuckets(s, {tick}) && SettledBuckets(s, {tick})[k] == bs[k]
      {
      }
      assert SettledBuckets(s, {tick}).Keys == bs.Keys;
    }
  }

  /** The run-time checks have no error but a broken check and an overflow. */
  lemma CheckErrors(sp: SubPool)
    ensures CheckSubPool(sp).Err? ==> CheckSubPool(sp).error.Invariant? || CheckSubPool(sp).error == MathOverflow
  {
    hide Consistent, Summable, Sum;
  }

  /** `p'` is `p` with one book out of step with the rest. */
  ghost predicate Tampered(p: Pool, p': Pool) {
    || (p' == p.(equity := p'.equity) && (p'.equity == 0) != (p.equity == 0))
    || (p' == p.(shares := p'.shares) && (p'.shares == 0) != (p.shares == 0))
    || (p' == p.(recovery := p'.recovery) && p'.recovery != p.recovery)
    || (p' == p.(store := p.store.(accruedTotal := p'.store.accruedTotal)) && p'.store.accruedTotal != p.store.accruedTotal)
    || (p' == p.(store := p.store.(nextIndex := p'.store.nextIndex)) && p'.store.nextIndex != p.store.nextIndex)
    || (p' == p.(store := p.store.(gcOffset := p'.store.gcOffset)) && p'.store.gcOffset != p.store.gcOffset)
    || (p' == p.(store := p.store.(pendingTotal := p'.store.pendingTotal))
        && p'.store.pendingTotal > TotalAllotted(p.store.ledger))
    || (p' == p.(store := p.store.(buckets := p'.store.buckets))
        && exists k :: k in p'.store.buckets && !(p.store.gcOffset <= p'.store.buckets[k].applied <= p.store.nextIndex))
  }

  /** The run-time checks catch every such change to a sub pool that passes them. */
  lemma ChecksCatch(sp: SubPool, d: Direction, p': Pool)
    requires CheckSubPool(sp).Ok? && Tampered(sp.Side(d), p')
    ensures CheckSubPool(sp.With(d, p')).Err?
  {
    hide Sum, TotalAllotted, BucketShares, Accruals;
  }
}
