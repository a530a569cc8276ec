/**
  A run of the strict runtime that ends in a torn sync. The price halves and empties the long side,
  whose bucket has a slot; then it doubles, the short side owes that bucket everything it has, and
  its own bucket has no slot: the sync fails with the long accounts already written.
*/
module ChainTorn {
  import opened Wrappers
  import opened MoleMath
  import opened Clearing
  import opened Sums
  import opened Dormant
  import opened DormantInvariant
  import opened DormantRefinement
  import DormantRuns
  import opened Onchain
  import opened Engine
  import opened Holdings
  import opened EngineInvariant
  import opened EngineSync
  import EngineOperations
  import opened EngineRuns
  import Capacity
  import opened ChainMirror
  import ChainAccounts
  import opened ChainRuns
  import opened ChainStrict

  /** A market with twofold leverage and no fee that takes a margin of `g` and lets the price double. */
  predicate Suits(m: Market, g: u64) {
    && m.schemaVersion == SCHEMA_VERSION_CURRENT && !m.paused && !m.frozen
    && m.openFeeBps == 0 && m.leverageBps == 2 * BPS_SCALE
    && 0 < g && m.minMargin <= g <= m.maxMargin && m.maxMoveBps >= BPS_SCALE
    && m.priceTick == 1 && m.aggregation == 1 && m.maxBuckets >= 1 && m.ledgerCap >= 1
  }

  function At(price: u64): Envelope {
    Envelope(price, 0, price, price)
  }

  // ---------------------------------------------------------------- the engine along the run

  /** A side with `g` shares of notional `2 * g`. */
  function Opened(d: Direction, g: nat, equity: nat): Pool {
    NewPool(d).(equity := equity, shares := g, notional := 2 * g)
  }

  /** The long side after its rotation at price `p`. */
  function Rested(g: nat, p: nat): Pool {
    NewPool(Long).(recovery := g, generation := 1, log := [RotateRecord(0, p, p)], store := RestedStore(g, p))
  }

  function RestedBucket(g: nat, p: nat): Bucket {
    Bucket(p, g, 2 * g, 0, 1, 0)
  }

  function RestedStore(g: nat, p: nat): Store {
    DormantRuns.OneBucket(Long, p, RestedBucket(g, p))
  }

  lemma QuietSync(m: Market, sp: SubPool, p: u64)
    requires m.schemaVersion == SCHEMA_VERSION_CURRENT && !m.paused && p > 0 && sp.lastPrice == p
    requires CheckSubPool(sp).Ok?
    ensures SyncPool(m, sp, At(p)) == Ok((Priced(sp, At(p)), Quiet(p)))
  {
    CheckIgnoresPrice(sp, At(p));
    hide CheckSubPool;
  }

  lemma CheckIgnoresPrice(sp: SubPool, env: Envelope)
    ensures CheckSubPool(Priced(sp, env)) == CheckSubPool(sp)
  {
    hide CheckPool, CheckStore;
  }

  /** The margin is taken whole and doubled. */
  lemma MarginIs(m: Market, g: u64, p: Pool)
    requires Suits(m, g) && p.equity == 0 && p.shares == 0
    ensures Principal(m, g) == Ok((0, g))
    ensures MintShares(m, p, g) == Ok(Mint(g, g, 0))
    ensures MulDivFloor(g, m.leverageBps, BPS_SCALE) == Ok(2 * g)
  {
    ZeroProduct(g, 0, BPS_SCALE);
    FromQuotient(g, 2 * BPS_SCALE, BPS_SCALE, 2 * g, 0);
    hide FloorDiv, CeilDiv;
  }

  /** An open into an empty side. */
  lemma OpenStep(m: Market, sp: SubPool, d: Direction, g: u64, p: u64, id: nat, ps: map<nat, Position>)
    requires Suits(m, g) && p > 0 && sp.lastPrice == p && WorldOk(sp, ps) && id !in ps
    requires CheckSubPool(sp).Ok? && sp.long.store.ledger == [] && sp.short.store.ledger == []
    requires sp.Side(d).equity == 0 && sp.Side(d).shares == 0 && sp.Side(d).notional == 0 && sp.Side(d).dust == 0
    ensures
      var r := OpenPosition(m, sp, At(p), d, g, id);
      r.Ok? && r.value.0 == Priced(sp, At(p)).With(d, sp.Side(d).(equity := g, shares := g, notional := 2 * g))
  {
    hide WorldOk, SyncPool, Principal, MintShares, MulDivFloor, CheckSubPool, PoolOk;
    QuietSync(m, sp, p);
    MarginIs(m, g, sp.Side(d));
    var sp1 := Priced(sp, At(p));
    SyncKeepsWorld(m, sp, At(p), ps);
    EngineOperations.OpenAfterSync(m, sp1, d, g, id, ps, Mint(g, g, 0), 2 * g);
    var q := sp1.Side(d).(equity := g, shares := g, notional := 2 * g);
    assert AddShares(sp1.Side(d), Mint(g, g, 0), 2 * g) == Ok(q);
    EmptyLedgersPass(sp1.With(d, q));
  }

  lemma EmptyLedgersPass(sp: SubPool)
    requires PoolOk(sp.long, Long) && PoolOk(sp.short, Short) && sp.long.store.ledger == [] && sp.short.store.ledger == []
    ensures CheckSubPool(sp).Ok?
  {
    hide PoolOk, CheckSubPool;
    assert TotalAllotted([]) == 0;
    ChecksPass(sp);
  }

  /** Halving the price makes the short side gain `g`, which is all the long side has. */
  lemma HalvingGains(g: u64, p: nat)
    requires 0 < g && 0 < p
    ensures SignedPnlIncrement(Long.Sign(), 2 * g, 2 * p, p) == Ok(0 - g)
    ensures SignedPnlIncrement(Short.Sign(), 2 * g, 2 * p, p) == Ok(g)
    ensures PriceMoveBps(2 * p, p) == Ok(5_000)
  {
    assert 2 * g * p == g * (2 * p);
    FromQuotient(2 * g, p, 2 * p, g, 0);
    assert p * BPS_SCALE == 5_000 * (2 * p);
    FromQuotient(p, BPS_SCALE, 2 * p, 5_000, 0);
    hide FloorDiv;
  }

  /** Doubling it back gives the rested bucket a claim of `2 * g`, and the short side a loss. */
  lemma DoublingGains(g: u64, p: nat)
    requires 0 < g && 0 < p
    ensures SignedPnlIncrement(Long.Sign(), 0, p, 2 * p) == Ok(0)
    ensures SignedPnlIncrement(Short.Sign(), 2 * g, p, 2 * p) == Ok(0 - 2 * g)
    ensures PriceMoveBps(p, 2 * p) == Ok(BPS_SCALE)
    ensures Intrinsic(Long, RestedBucket(g, p), p) == 0 && Intrinsic(Long, RestedBucket(g, p), 2 * p) == 2 * g
  {
    FromQuotient(2 * g, p, p, 2 * g, 0);
    FromQuotient(p, BPS_SCALE, p, BPS_SCALE, 0);
    ZeroProduct(0, p, p);
    hide FloorDiv;
  }

  lemma NoClaims(s: Store, price: nat)
    requires s.buckets == map[]
    ensures ClaimAt(s, price) == Ok(0)
  {
    SumZero(Outstandings(s.direction, s.buckets, price));
  }

  lemma NewPoolFields(d: Direction)
    ensures
      var p := NewPool(d);
      && p.equity == 0 && p.shares == 0 && p.notional == 0 && p.recovery == 0 && p.dust == 0
      && p.generation == 0 && p.log == [] && p.store == EmptyStore(d)
    ensures EmptyStore(d).buckets == map[] && EmptyStore(d).ledger == [] && EmptyStore(d).direction == d
  {
  }

  /** The sub pool with both sides open. */
  function BothOpen(id: nat, g: nat, p: nat): SubPool {
    SubPool(id, Opened(Long, g, g), Opened(Short, g, g), 2 * p, 0)
  }

  /** After the price has halved. */
  function LongRested(id: nat, g: nat, p: nat): SubPool {
    SubPool(id, Rested(g, p), Opened(Short, g, 2 * g), p, 0)
  }

  lemma TickIs(m: Market, price: u64)
    requires m.priceTick == 1 && m.aggregation == 1
    ensures BucketTick(m, price) == Ok(if price < I64_LIMIT then price else price - U64)
  {
    assert FloorDiv(price, 1, 1) == price by { FromQuotient(price, 1, 1, price, 0); }
  }

  lemma HalvingDemand(id: nat, g: u64, p: u64)
    requires 0 < g && 0 < p
    ensures Demands(BothOpen(id, g, p), p) == Ok(Demand(0, 0, g, g))
  {
    hide NewPool, EmptyStore, ClaimAt, SignedPnlIncrement;
    NewPoolFields(Long);
    NewPoolFields(Short);
    forall d: Direction, price: nat
      ensures ClaimAt(EmptyStore(d), price) == Ok(0)
    {
      NewPoolFields(d);
      NoClaims(EmptyStore(d), price);
    }
    HalvingGains(g, p);
  }

  lemma HalvingSettles(m: Market, id: nat, g: u64, p: u64)
    requires 0 < g
    ensures
      var r := Settle(m, BothOpen(id, g, p), Demand(0, 0, g, g), p);
      && r.Ok?
      && r.value.0 == Halved(id, g, p)
  {
    hide PayRecovery, NewPool;
    NewPoolFields(Long);
    NewPoolFields(Short);
    PartBound(g, g, g);
    hide FloorDiv;
    var sp := BothOpen(id, g, p);
    assert sp.Side(Long).equity == g && sp.Side(Short).equity == g;
    assert MulDivFloor(g, g, g) == Ok(g);
  }

  /** The long side moves into its bucket. */
  lemma LongRotates(m: Market, id: nat, g: u64, p: u64)
    requires Suits(m, g) && 0 < p < I64_LIMIT
    ensures
      var r := RotateIfEmpty(m, id, Long, Opened(Long, g, 0), p);
      r.Ok? && r.value.0 == Rested(g, p)
  {
    hide BucketTick, InsertOrMerge, EmptyStore, DormantRuns.OneBucket;
    TickIs(m, p);
    NewPoolFields(Long);
    DormantRuns.FirstBucket(Long, p, RestedBucket(g, p));
    MergeIgnoresCap(EmptyStore(Long), p, RestedBucket(g, p), m.maxBuckets);
  }

  lemma MergeIgnoresCap(s: Store, tick: int, b: Bucket, maxBuckets: nat)
    requires s.buckets == map[] && maxBuckets >= 1
    ensures InsertOrMerge(s, tick, b.anchor, b.shares, b.notional, b.count, maxBuckets)
         == InsertOrMerge(s, tick, b.anchor, b.shares, b.notional, b.count, 1)
  {
  }

  /** The sub pool between the prices. */
  function Halved(id: nat, g: nat, p: nat): SubPool {
    BothOpen(id, g, p).(long := Opened(Long, g, 0), short := Opened(Short, g, 2 * g))
  }

  lemma HalvedRotates(m: Market, id: nat, g: u64, p: u64)
    requires Suits(m, g) && 0 < p < I64_LIMIT
    ensures
      var r := RotateBoth(m, Priced(Halved(id, g, p), At(p)), p);
      r.Ok? && r.value.0 == LongRested(id, g, p)
  {
    hide Rotate, BucketTick, EmptyStore, Rested;
    LongRotates(m, id, g, p);
    var short := Opened(Short, g, 2 * g);
    assert RotateIfEmpty(m, id, Short, short, p) == Ok((short, [])) by { NewPoolFields(Short); }
    hide RotateIfEmpty, Opened;
  }

  /** The first sync: the long side is wiped out and rests. */
  lemma HalvingSync(m: Market, id: nat, g: u64, p: u64, ps: map<nat, Position>)
    requires Suits(m, g) && 0 < p && 2 * p < U64 && WorldOk(BothOpen(id, g, p), ps)
    ensures
      var r := SyncPool(m, BothOpen(id, g, p), At(p));
      r.Ok? && r.value.0 == LongRested(id, g, p)
  {
    hide WorldOk, MovePrice, Demands, Settle, RotateBoth, CheckSubPool, PriceMoveBps, PoolCore, PoolOk, Exchanged,
      Opened, Rested;
    var sp, sp', demand := BothOpen(id, g, p), LongRested(id, g, p), Demand(0, 0, g, g);
    HalvingGains(g, p);
    HalvingDemand(id, g, p);
    HalvingSettles(m, id, g, p);
    HalvedRotates(m, id, g, p);
    SidesCore(sp, ps);
    SettleIs(m, sp, demand, p);
    var settled := Settle(m, sp, demand, p).value;
    RotationKeepsWorld(m, sp, settled.0, settled.1, settled.2, At(p), ps);
    WorldPoolsOk(sp', ps);
    RestedLedger(g, p);
    EmptyLedgersPass(sp');
    SyncMoves(m, sp, At(p));
    MovePriceUnfolds(m, sp, At(p));
  }

  /** An accepted price that moves. */
  lemma SyncMoves(m: Market, sp: SubPool, env: Envelope)
    requires m.schemaVersion == SCHEMA_VERSION_CURRENT && !m.paused && 0 < env.pNow
    requires env.expectedMin <= env.pNow <= env.expectedMax && Moved(sp, env)
    requires PriceMoveBps(sp.lastPrice, env.pNow).Ok? && PriceMoveBps(sp.lastPrice, env.pNow).value <= m.maxMoveBps
    ensures SyncPool(m, sp, env) == MovePrice(m, sp, env)
  {
    hide MovePrice, PriceMoveBps;
  }

  lemma WorldPoolsOk(sp: SubPool, ps: map<nat, Position>)
    requires WorldOk(sp, ps)
    ensures PoolOk(sp.long, Long) && PoolOk(sp.short, Short)
  {
    hide PoolOk, PoolBacked, PositionsOk;
  }

  lemma RestedLedger(g: nat, p: nat)
    ensures Rested(g, p).store.ledger == [] && Opened(Short, g, 2 * g).store.ledger == []
  {
  }

  // ---------------------------------------------------------------- the second sync

  lemma RestedClaims(g: u64, p: nat)
    requires 0 < g && 0 < p
    ensures ClaimAt(RestedStore(g, p), p) == Ok(0) && ClaimAt(RestedStore(g, p), 2 * p) == Ok(2 * g)
  {
    hide Intrinsic;
    DoublingGains(g, p);
    DormantRuns.OneBucketIs(Long, p, RestedBucket(g, p));
    DormantRuns.SingleClaim(Long, p, RestedBucket(g, p), p);
    DormantRuns.SingleClaim(Long, p, RestedBucket(g, p), 2 * p);
    DormantRuns.OutstandingBound(Long, RestedBucket(g, p), p);
    DormantRuns.OutstandingBound(Long, RestedBucket(g, p), 2 * p);
    hide ClaimsFit, TotalOutstanding, DormantRuns.OneBucket, Outstanding;
  }

  lemma DoublingDemand(id: nat, g: u64, p: u64)
    requires 0 < g && 0 < p
    ensures Demands(LongRested(id, g, p), 2 * p) == Ok(Demand(0, 2 * g, 0, 0))
  {
    hide NewPool, EmptyStore, ClaimAt, SignedPnlIncrement, RestedStore;
    NewPoolFields(Long);
    NewPoolFields(Short);
    NoClaims(EmptyStore(Short), p);
    NoClaims(EmptyStore(Short), 2 * p);
    RestedClaims(g, p);
    DoublingGains(g, p);
  }

  /** The rested bucket can be paid, in either mode. */
  lemma RestedPays(m: Market, g: u64, p: u64)
    requires Suits(m, g) && 0 < p
    ensures
      var r := Distribute(RestedStore(g, p), m.mode, 2 * p, 2 * g, m.ledgerCap);
      && r.Ok? && r.value.1.residual <= 2 * g && TotalAllotted(r.value.0.ledger) < U128
  {
    hide Intrinsic, Distribute, View, Inv, HasRoom, DormantRuns.OneBucket, InsertOrMerge, ClaimsFit, Outstanding;
    var s, b := RestedStore(g, p), RestedBucket(g, p);
    DoublingGains(g, p);
    DormantRuns.FirstBucket(Long, p, b);
    DormantRuns.OneBucketIs(Long, p, b);
    RestedStoreLog(g, p);
    DormantRuns.RoomIsLag(s, m.ledgerCap);
    DormantRuns.SingleDistribution(s, m.mode, p, b, 2 * p, 2 * g, m.ledgerCap);
    DistributeRefines(s, m.mode, 2 * p, 2 * g, m.ledgerCap);
    FirstEvent(s, m.mode, 2 * p, 2 * g, m.ledgerCap);
  }

  lemma RestedStoreLog(g: nat, p: nat)
    ensures RestedStore(g, p).ledger == [] && RestedStore(g, p).nextIndex == 0
    ensures forall k :: k in RestedStore(g, p).buckets ==> RestedStore(g, p).buckets[k].applied == 0
  {
  }

  /** A distribution to an empty ledger logs at most one event, of no more than it hands out. */
  lemma FirstEvent(s: Store, mode: Mode, price: nat, alloc: nat, cap: nat)
    requires Inv(s) && s.ledger == [] && cap >= 1 && 0 < alloc < U128 && Distribute(s, mode, price, alloc, cap).Ok?
    ensures TotalAllotted(Distribute(s, mode, price, alloc, cap).value.0.ledger) <= alloc
  {
    hide Inv, View, ApplyKeys, PayOut, ActivatedKeys;
    assert MakeRoom(s, cap) == Ok(s);
    ApplyKeysRefines(s, ActivatedKeys(s, price));
    var s2 := ApplyKeys(s, ActivatedKeys(s, price)).value;
    PayOutIs(s2, mode, price, alloc);
    PayOutLog(s2, mode, price, alloc);
    assert TotalAllotted([NewEntry(s2, price, alloc)]) == NewEntry(s2, price, alloc).allotted by {
      assert TotalAllotted([]) == 0;
    }
  }

  lemma PayOutLog(s: Store, mode: Mode, price: nat, alloc: nat)
    requires s.ledger == [] && PayOut(s, mode, price, alloc).Ok?
    ensures
      var s' := PayOut(s, mode, price, alloc).value.0;
      s'.ledger == [] || s'.ledger == [NewEntry(s, price, alloc)]
  {
    hide TotalOutstanding, ClaimsFit, Shares, Sum, ActivatedKeys;
  }

  /** The long side after the payment. */
  ghost function PaidLong(m: Market, g: u64, p: u64): Pool
    requires Distribute(RestedStore(g, p), m.mode, 2 * p, 2 * g, m.ledgerCap).Ok?
  {
    var paid := Distribute(RestedStore(g, p), m.mode, 2 * p, 2 * g, m.ledgerCap).value;
    Rested(g, p).(store := paid.0, dust := paid.1.residual)
  }

  lemma DoublingSettles(m: Market, id: nat, g: u64, p: u64)
    requires Suits(m, g) && 0 < p
    ensures Distribute(RestedStore(g, p), m.mode, 2 * p, 2 * g, m.ledgerCap).Ok?
    ensures
      var r := Settle(m, LongRested(id, g, p), Demand(0, 2 * g, 0, 0), 2 * p);
      r.Ok? && r.value.0 == LongRested(id, g, p).(long := PaidLong(m, g, p), short := Opened(Short, g, 0))
  {
    hide Distribute, NewPool, RestedStore, FloorDiv;
    RestedPays(m, g, p);
    NewPoolFields(Long);
    NewPoolFields(Short);
    ZeroProduct(2 * g, 0, 2 * g);
    var sp := LongRested(id, g, p);
    assert sp.Side(Long).equity == 0 && sp.Side(Short).equity == 2 * g;
    assert MulDivFloor(2 * g, 0, 2 * g) == Ok(0);
    var equity := Rested(g, p).(equity := 0);
    assert equity == Rested(g, p);
    assert PayRecovery(m, Rested(g, p), 2 * p, 2 * g).Ok? && PayRecovery(m, Rested(g, p), 2 * p, 2 * g).value.0 == PaidLong(m, g, p);
  }

  /** The short side can be rotated too. */
  lemma ShortRotates(m: Market, id: nat, g: u64, price: u64)
    requires Suits(m, g)
    ensures
      var r := RotateIfEmpty(m, id, Short, Opened(Short, g, 0), price);
      r.Ok? && r.value.0.store.ledger == []
  {
    hide BucketTick, InsertOrMerge, EmptyStore, DormantRuns.OneBucket;
    TickIs(m, price);
    NewPoolFields(Short);
    var tick, b := BucketTick(m, price).value, Bucket(price, g, 2 * g, 0, 1, 0);
    DormantRuns.FirstBucket(Short, tick, b);
    MergeIgnoresCap(EmptyStore(Short), tick, b, m.maxBuckets);
    assert DormantRuns.OneBucket(Short, tick, b).ledger == [] by { OneBucketLog(Short, tick, b); }
  }

  lemma OneBucketLog(d: Direction, tick: int, b: Bucket)
    ensures DormantRuns.OneBucket(d, tick, b).ledger == []
  {
  }

  /** The sub pool between the prices of the second sync. */
  ghost function BetweenPrices(m: Market, id: nat, g: u64, p: u64): SubPool
    requires Distribute(RestedStore(g, p), m.mode, 2 * p, 2 * g, m.ledgerCap).Ok?
  {
    LongRested(id, g, p).(long := PaidLong(m, g, p), short := Opened(Short, g, 0))
  }

  lemma DoubledRotates(m: Market, id: nat, g: u64, p: u64)
    requires Suits(m, g) && 0 < p && 2 * p < U64
    requires Distribute(RestedStore(g, p), m.mode, 2 * p, 2 * g, m.ledgerCap).Ok?
    ensures
      var r := RotateBoth(m, Priced(BetweenPrices(m, id, g, p), At(2 * p)), 2 * p);
      r.Ok? && r.value.0.long == PaidLong(m, g, p) && r.value.0.short.store.ledger == []
  {
    hide Rotate, BucketTick, EmptyStore, Distribute, RestedStore;
    ShortRotates(m, id, g, 2 * p);
    assert RotateIfEmpty(m, id, Long, PaidLong(m, g, p), 2 * p) == Ok((PaidLong(m, g, p), [])) by { NewPoolFields(Long); }
    hide RotateIfEmpty, Opened, PaidLong;
  }

  lemma LedgersPass(sp: SubPool)
    requires PoolOk(sp.long, Long) && PoolOk(sp.short, Short)
    requires TotalAllotted(sp.long.store.ledger) < U128 && sp.short.store.ledger == []
    ensures CheckSubPool(sp).Ok?
  {
    hide PoolOk, CheckSubPool;
    assert TotalAllotted([]) == 0;
    ChecksPass(sp);
  }

  /** The engine accepts the second sync. */
  lemma DoublingSync(m: Market, id: nat, g: u64, p: u64, ps: map<nat, Position>)
    requires Suits(m, g) && 0 < p && 2 * p < U64 && WorldOk(LongRested(id, g, p), ps)
    ensures SyncPool(m, LongRested(id, g, p), At(2 * p)).Ok?
  {
    hide WorldOk, MovePrice, Demands, Settle, RotateBoth, CheckSubPool, PriceMoveBps, PoolCore, PoolOk, Exchanged,
      Opened, Rested, PaidLong, RestedStore, Distribute;
    var sp, demand := LongRested(id, g, p), Demand(0, 2 * g, 0, 0);
    DoublingGains(g, p);
    DoublingDemand(id, g, p);
    DoublingSettles(m, id, g, p);
    DoubledRotates(m, id, g, p);
    SidesCore(sp, ps);
    SettleIs(m, sp, demand, 2 * p);
    var settled := Settle(m, sp, demand, 2 * p).value;
    RotationKeepsWorld(m, sp, settled.0, settled.1, settled.2, At(2 * p), ps);
    var sp' := RotateBoth(m, Priced(settled.0, At(2 * p)), 2 * p).value.0;
    WorldPoolsOk(sp', ps);
    RestedPays(m, g, p);
    PaidLedger(m, g, p);
    LedgersPass(sp');
    SyncMoves(m, sp, At(2 * p));
    MovePriceUnfolds(m, sp, At(2 * p));
  }

  lemma PaidLedger(m: Market, g: u64, p: u64)
    requires Distribute(RestedStore(g, p), m.mode, 2 * p, 2 * g, m.ledgerCap).Ok?
    ensures PaidLong(m, g, p).store == Distribute(RestedStore(g, p), m.mode, 2 * p, 2 * g, m.ledgerCap).value.0
  {
    hide Distribute, Rested, RestedStore;
  }

  /** It empties the short side, and owes all of that to the rested bucket. */
  lemma DoublingTells(id: nat, g: u64, p: u64)
    requires 0 < g && 0 < p && 2 * p < U64
    ensures Wiped(LongRested(id, g, p), Short, At(2 * p))
    ensures RecoveryDue(LongRested(id, g, p), Long, At(2 * p)) > 0
  {
    hide Demands, Rested, FloorDiv;
    DoublingDemand(id, g, p);
    ZeroProduct(2 * g, 0, 2 * g);
    assert Opened(Short, g, 2 * g).equity == 2 * g;
    hide Opened;
  }

  // ---------------------------------------------------------------- the runtime along the run

  /** The runtime holds one sub pool, `sp`, and one slot. */
  ghost predicate HoldsOnly(c: Chain, m: Market, id: nat, sp: SubPool, slot: Key) {
    && CanSnapshot(c, id) && c.strict && c.market == m && c.buckets.Keys == {slot}
    && ChainOk(c, map[id := sp])
  }

  lemma StrictSideKeys(c: Chain, id: nat, d: Direction, s: Store)
    requires c.strict
    ensures WriteSide(c, id, d, s).0.buckets.Keys == c.buckets.Keys && WriteSide(c, id, d, s).0.strict
  {
    hide PackBuckets, PackLedger, PackChecks, MissingSlots;
  }

  /** A strict write-back fills slots; it neither opens nor closes any. */
  lemma StrictWriteKeys(c: Chain, id: nat, sp: SubPool)
    requires c.strict
    ensures Write(c, id, sp).0.buckets.Keys == c.buckets.Keys
  {
    hide WriteSide, AccountOf;
    StrictSideKeys(c, id, Long, sp.long.store);
    StrictSideKeys(WriteSide(c, id, Long, sp.long.store).0, id, Short, sp.short.store);
  }

  lemma StrictHandleKeys(c: Chain, id: nat, op: EngineOp, sp: SubPool)
    requires c.strict && Ready(c, id, op) && Build(Counted(c, op), id) == Ok(sp) && Handle(c, id, op).1.Ok?
    ensures Handle(c, id, op).0.buckets.Keys == c.buckets.Keys
  {
    hide Build, EngineStep, Write, PutOwn, Own, Restore, Ready, Handle;
    HandleUnfolds(c, id, op, sp);
    var w := World(sp, Own(c.positions, id));
    if EngineStep(c.market, w, op).Ok? {
      StrictWriteKeys(Counted(c, op), id, EngineStep(c.market, w, op).value.0.sp);
    }
  }

  /** One handler that succeeds on the only sub pool. */
  lemma HoldsAfter(c: Chain, m: Market, id: nat, sp: SubPool, slot: Key, op: EngineOp, sp': SubPool)
    requires HoldsOnly(c, m, id, sp, slot) && Ready(c, id, op) && ChainAccounts.AllSlots(c, id, sp')
    requires StepsTo(c, id, sp, op, sp')
    ensures HoldsOnly(Handle(c, id, op).0, m, id, sp', slot)
  {
    hide ChainOk, Handle, ChainAccounts.AllSlots, Ready, EngineStep, CanSnapshot, Own, Build;
    HandleIs(c, map[id := sp], id, op);
    OnlyBuilds(c, m, id, sp, slot, op);
    StrictHandleKeys(c, id, op, sp);
    assert map[id := sp][id := sp'] == map[id := sp'];
    PoolSnapshots(Handle(c, id, op).0, map[id := sp'], id);
  }

  /** The engine takes `sp` to `sp'`. */
  ghost predicate StepsTo(c: Chain, id: nat, sp: SubPool, op: EngineOp, sp': SubPool) {
    var w := World(sp, Own(c.positions, id));
    Applicable(w, op) && EngineStep(c.market, w, op).Ok? && EngineStep(c.market, w, op).value.0.sp == sp'
  }

  lemma OnlyBuilds(c: Chain, m: Market, id: nat, sp: SubPool, slot: Key, op: EngineOp)
    requires HoldsOnly(c, m, id, sp, slot)
    ensures Build(Counted(c, op), id) == Ok(sp)
  {
    hide ChainOk, PoolFine, Build, CanSnapshot, ChainAccounts.PoolStored, ChainAccounts.AllSlots;
    PoolAt(c, map[id := sp], id);
    FineBuilds(c, id, sp);
    StoredReads(c, Counted(c, op), id, sp);
  }

  lemma NoBucketsHaveSlots(c: Chain, id: nat, sp: SubPool)
    requires forall d: Direction, t :: t in sp.Side(d).store.buckets ==> Key(id, d, t) in c.buckets
    ensures ChainAccounts.AllSlots(c, id, sp)
  {
    forall t | t in sp.Side(Long).store.buckets
      ensures Key(id, Long, t) in c.buckets
    {
    }
    forall t | t in sp.Side(Short).store.buckets
      ensures Key(id, Short, t) in c.buckets
    {
    }
    assert MissingSlots(c.buckets, id, Long, PackBuckets(sp.long.store)) == {};
    assert MissingSlots(c.buckets, id, Short, PackBuckets(sp.short.store)) == {};
  }

  /** What the only sub pool's world looks like to the engine. */
  lemma OnlyWorld(c: Chain, m: Market, id: nat, sp: SubPool, slot: Key)
    requires HoldsOnly(c, m, id, sp, slot)
    ensures Sound(World(sp, Own(c.positions, id))) && CheckSubPool(sp).Ok?
    ensures CanSnapshot(c, id) && c.nextId !in c.positions && c.nextId !in Own(c.positions, id)
    ensures Coherent(c) && Build(c, id) == Ok(sp)
  {
    hide ChainOk, PoolFine, Sound, Capacity.Stored, Build, CanSnapshot, CheckSubPool, ChainAccounts.PoolStored;
    PoolAt(c, map[id := sp], id);
    FineParts(c, id, sp);
    FineBuilds(c, id, sp);
    FineChecks(c, id, sp);
    PoolSnapshots(c, map[id := sp], id);
    OpenIsReady(c, map[id := sp]);
  }

  lemma FineChecks(c: Chain, id: nat, sp: SubPool)
    requires PoolFine(c, id, sp)
    ensures CheckSubPool(sp).Ok?
  {
    hide CheckSubPool, ChainAccounts.PoolStored, Sound, Capacity.Roomy;
  }

  /** A sub pool and a slot in a new runtime. */
  lemma StartHolds(m: Market, id: nat, price: nat, slot: Key)
    requires slot.subPool == id
    ensures
      var c := Execute(NewChain(m, true), AddSubPoolIx(id, price, 0)).0;
      HoldsOnly(Execute(c, PreInitIx(slot)).0, m, id, NewSubPool(id, price, 0), slot)
  {
    hide ChainOk, NewSubPool, EmptyLedger, AccountOf, DeadRecord;
    var c0, none := NewChain(m, true), map[];
    NewChainOk(m, true);
    AddPoolKeeps(c0, none, id, price, 0);
    var c := AddPool(c0, id, price, 0);
    var pools := map[id := NewSubPool(id, price, 0)];
    assert none[id := NewSubPool(id, price, 0)] == pools;
    DeadSlotKeeps(c, PreInitBucket(c, slot).0, pools, slot);
    assert PreInitBucket(c, slot).0.buckets.Keys == {slot};
  }

  /** An open into an empty side of the only sub pool. */
  lemma OpenHolds(c: Chain, m: Market, id: nat, sp: SubPool, slot: Key, d: Direction, g: u64, p: u64)
    requires HoldsOnly(c, m, id, sp, slot) && Suits(m, g) && p > 0 && sp.lastPrice == p && sp.lastSlot == 0
    requires sp.long.store == EmptyStore(Long) && sp.short.store == EmptyStore(Short)
    requires sp.Side(d).equity == 0 && sp.Side(d).shares == 0 && sp.Side(d).notional == 0 && sp.Side(d).dust == 0
    ensures
      var c' := Execute(c, OpenIx(id, d, g, At(p))).0;
      HoldsOnly(c', m, id, sp.With(d, sp.Side(d).(equity := g, shares := g, notional := 2 * g)), slot)
  {
    hide HoldsOnly, WorldOk, CheckSubPool, OpenPosition, Handle, Own, ChainAccounts.AllSlots, CanSnapshot, EmptyStore,
      Build, Coherent;
    OnlyWorld(c, m, id, sp, slot);
    OnlyMarket(c, m, id, sp, slot);
    NewPoolFields(Long);
    NewPoolFields(Short);
    var op := OpenOp(At(p), d, g, c.nextId);
    OpenStep(m, sp, d, g, p, c.nextId, Own(c.positions, id));
    var sp' := sp.With(d, sp.Side(d).(equity := g, shares := g, notional := 2 * g));
    assert Priced(sp, At(p)) == sp;
    assert StepsTo(c, id, sp, op, sp');
    NoBucketsHaveSlots(c, id, sp');
    HoldsAfter(c, m, id, sp, slot, op, sp');
  }

  lemma OnlyMarket(c: Chain, m: Market, id: nat, sp: SubPool, slot: Key)
    requires HoldsOnly(c, m, id, sp, slot)
    ensures c.market == m && c.strict && (forall k :: k in c.buckets <==> k == slot)
  {
    hide ChainOk;
  }

  /** The first sync goes through: the long bucket has its slot. */
  lemma HalvingHolds(c: Chain, m: Market, id: nat, g: u64, p: u64)
    requires Suits(m, g) && 0 < p && 2 * p < U64
    requires HoldsOnly(c, m, id, BothOpen(id, g, p), Key(id, Long, p))
    ensures HoldsOnly(Execute(c, SyncIx(id, At(p))).0, m, id, LongRested(id, g, p), Key(id, Long, p))
  {
    hide HoldsOnly, WorldOk, CheckSubPool, SyncPool, Handle, Own, ChainAccounts.AllSlots, CanSnapshot, BothOpen,
      LongRested, Build, Coherent;
    var slot := Key(id, Long, p);
    OnlyWorld(c, m, id, BothOpen(id, g, p), slot);
    OnlyMarket(c, m, id, BothOpen(id, g, p), slot);
    HalvingSync(m, id, g, p, Own(c.positions, id));
    RestedSlots(c, id, g, p);
    assert StepsTo(c, id, BothOpen(id, g, p), SyncOp(At(p)), LongRested(id, g, p));
    HoldsAfter(c, m, id, BothOpen(id, g, p), slot, SyncOp(At(p)), LongRested(id, g, p));
  }

  lemma RestedSlots(c: Chain, id: nat, g: nat, p: nat)
    requires Key(id, Long, p) in c.buckets
    ensures ChainAccounts.AllSlots(c, id, LongRested(id, g, p))
  {
    hide ChainAccounts.AllSlots, MissingSlots;
    var sp := LongRested(id, g, p);
    forall d: Direction, t | t in sp.Side(d).store.buckets
      ensures Key(id, d, t) in c.buckets
    {
      assert d.Long? && t == p;
    }
    NoBucketsHaveSlots(c, id, sp);
  }

  /** The second sync is torn. */
  lemma DoublingTears(c: Chain, m: Market, id: nat, g: u64, p: u64)
    requires Suits(m, g) && 0 < p && 2 * p < U64
    requires HoldsOnly(c, m, id, LongRested(id, g, p), Key(id, Long, p))
    ensures Issuable(c, SyncIx(id, At(2 * p)))
    ensures
      var (c', res) := Execute(c, SyncIx(id, At(2 * p)));
      res.Err? && res.error.BucketSlotExhausted? && c' != c
  {
    hide HoldsOnly, WorldOk, CheckSubPool, SyncPool, Handle, Own, CanSnapshot, LongRested, Build, Coherent, Wiped,
      RecoveryDue, BucketTick;
    OnlyWorld(c, m, id, LongRested(id, g, p), Key(id, Long, p));
    OnlyMarket(c, m, id, LongRested(id, g, p), Key(id, Long, p));
    DoublingSync(m, id, g, p, Own(c.positions, id));
    DoublingTells(id, g, p);
    TickIs(m, 2 * p);
    StrictSyncAtomicity(c, id, At(2 * p));
  }

  /** The run up to the torn sync. */
  function Prelude(id: nat, g: u64, p: u64): seq<Instruction>
    requires 2 * p < U64
  {
    [AddSubPoolIx(id, 2 * p, 0), PreInitIx(Key(id, Long, p)), OpenIx(id, Long, g, At(2 * p)), OpenIx(id, Short, g, At(2 * p)),
     SyncIx(id, At(p))]
  }

  lemma FiveSteps(c: Chain, code: seq<Instruction>)
    requires |code| == 5 && Issuable(c, code[0])
    requires
      var c1 := Execute(c, code[0]).0;
      && Issuable(c1, code[1])
      && var c2 := Execute(c1, code[1]).0;
      && Issuable(c2, code[2])
      && var c3 := Execute(c2, code[2]).0;
      && Issuable(c3, code[3])
      && var c4 := Execute(c3, code[3]).0;
      Issuable(c4, code[4])
    ensures
      var c1 := Execute(c, code[0]).0;
      var c2 := Execute(c1, code[1]).0;
      var c3 := Execute(c2, code[2]).0;
      var c4 := Execute(c3, code[3]).0;
      Run(c, code) == Execute(c4, code[4]).0
  {
    hide Execute, Issuable;
    var c1 := Execute(c, code[0]).0;
    var c2 := Execute(c1, code[1]).0;
    var c3 := Execute(c2, code[2]).0;
    var c4 := Execute(c3, code[3]).0;
    RunFrom(c, code);
    RunFrom(c1, code[1..]);
    RunFrom(c2, code[1..][1..]);
    RunFrom(c3, code[1..][1..][1..]);
    RunFrom(c4, code[1..][1..][1..][1..]);
    assert code[1..][1..][1..][1..][1..] == [];
  }

  lemma RunFrom(c: Chain, code: seq<Instruction>)
    requires code != [] && Issuable(c, code[0])
    ensures Run(c, code) == Run(Execute(c, code[0]).0, code[1..])
  {
    hide Execute, Issuable;
  }

  lemma OpenedIs(d: Direction, g: nat)
    ensures NewPool(d).(equity := g, shares := g, notional := 2 * g) == Opened(d, g, g)
  {
  }

  /** Where that run leads. */
  lemma PreludeHolds(m: Market, id: nat, g: u64, p: u64)
    requires Suits(m, g) && 0 < p && 2 * p < U64
    ensures HoldsOnly(Run(NewChain(m, true), Prelude(id, g, p)), m, id, LongRested(id, g, p), Key(id, Long, p))
  {
    hide HoldsOnly, Execute, NewPool, EmptyStore, CanSnapshot, LongRested, Suits, CheckSubPool, Sound, Own, Build,
      Coherent;
    var slot, code := Key(id, Long, p), Prelude(id, g, p);
    var sp0 := NewSubPool(id, 2 * p, 0);
    var sp1 := sp0.(long := Opened(Long, g, g));
    NewPoolFields(Long);
    NewPoolFields(Short);
    OpenedIs(Long, g);
    OpenedIs(Short, g);
    var c1 := Execute(NewChain(m, true), code[0]).0;
    var c2 := Execute(c1, code[1]).0;
    StartHolds(m, id, 2 * p, slot);
    OnlyWorld(c2, m, id, sp0, slot);
    var c3 := Execute(c2, code[2]).0;
    OpenHolds(c2, m, id, sp0, slot, Long, g, 2 * p);
    OnlyWorld(c3, m, id, sp1, slot);
    var c4 := Execute(c3, code[3]).0;
    OpenHolds(c3, m, id, sp1, slot, Short, g, 2 * p);
    assert sp1.(short := Opened(Short, g, g)) == BothOpen(id, g, p);
    OnlyWorld(c4, m, id, BothOpen(id, g, p), slot);
    HalvingHolds(c4, m, id, g, p);
    FiveSteps(NewChain(m, true), code);
  }

  /**
    The strict runtime is not atomic: in every such market, for every margin and every price, the
    run below leads from a new runtime to a sync that fails and leaves accounts changed.
  */
  lemma TornSync(m: Market, id: nat, g: u64, p: u64)
    requires Suits(m, g) && 0 < p && 2 * p < U64
    ensures
      var c := Run(NewChain(m, true), Prelude(id, g, p));
      Issuable(c, SyncIx(id, At(2 * p)))
      && var (c', res) := Execute(c, SyncIx(id, At(2 * p)));
      res.Err? && res.error.BucketSlotExhausted? && c' != c
  {
    hide HoldsOnly, Execute, NewChain, Run, Prelude, Suits, LongRested;
    PreludeHolds(m, id, g, p);
    DoublingTears(Run(NewChain(m, true), Prelude(id, g, p)), m, id, g, p);
  }

  /** Such a market, in either mode. */
  function TwofoldMarket(mode: Mode): Market {
    Market(2 * BPS_SCALE, 1, 1_000_000, 0, BPS_SCALE, 1, 1, 8, mode, 8, 8, 0, SCHEMA_VERSION_CURRENT, false, false)
  }

  /** For instance a margin of one unit at prices 2, 1 and 2 again. */
  lemma TornSyncExample(mode: Mode)
    ensures
      var c := Run(NewChain(TwofoldMarket(mode), true), Prelude(0, 1, 1));
      Issuable(c, SyncIx(0, At(2)))
      && var (c', res) := Execute(c, SyncIx(0, At(2)));
      res.Err? && c' != c
  {
    hide Execute, NewChain, Run, Prelude, At;
    assert Suits(TwofoldMarket(mode), 1);
    hide TwofoldMarket, Suits;
    TornSync(TwofoldMarket(mode), 0, 1, 1);
  }
}
