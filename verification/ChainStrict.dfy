/**
  The one handler that does not restore its snapshot: a strict-mode sync whose write-back finds a
  slot missing. When that leaves the accounts as they were, and when it does not.
*/
module ChainStrict {
  import opened Wrappers
  import opened MoleMath
  import opened Clearing
  import opened Sums
  import opened Dormant
  import opened DormantInvariant
  import DormantRefinement
  import opened Onchain
  import opened Engine
  import opened Holdings
  import StoreShares
  import opened EngineInvariant
  import opened EngineSync
  import opened EngineRuns
  import Capacity
  import opened ChainMirror
  import opened ChainAccounts
  import opened ChainRuns

  // ---------------------------------------------------------------- what a sync adds

  /** `s'` is `s` with one more bucket. */
  ghost predicate GainsBucket(s: Store, s': Store) {
    exists t :: t in s'.buckets && t !in s.buckets && s' == s.(buckets := s.buckets[t := s'.buckets[t]])
  }

  lemma SameKeys(s: Store, s': Store)
    requires StoreShares.SharesOf(s').Keys == StoreShares.SharesOf(s).Keys
    ensures s'.buckets.Keys == s.buckets.Keys
  {
    assert StoreShares.SharesOf(s).Keys == s.buckets.Keys;
    assert StoreShares.SharesOf(s').Keys == s'.buckets.Keys;
  }

  /** A rotation adds a bucket exactly when its tick has none. */
  lemma RotationAdds(m: Market, id: nat, d: Direction, p: Pool, pNow: u64)
    requires PoolCore(p, d) && RotateIfEmpty(m, id, d, p, pNow).Ok?
    ensures
      var s' := RotateIfEmpty(m, id, d, p, pNow).value.0.store;
      s'.buckets.Keys == p.store.buckets.Keys || (p.equity == 0 && p.shares > 0 && GainsBucket(p.store, s'))
  {
    hide PoolCore, Rotate, BucketTick, InsertOrMerge, View, IdealMerge, BucketShares, GainsBucket;
    var s' := RotateIfEmpty(m, id, d, p, pNow).value.0.store;
    if p.equity == 0 && p.shares > 0 {
      Capacity.StoreIsInv(p, d);
      RotateUnfolds(m, p, pNow);
      RotateIs(m, p, d, pNow);
      var tick := BucketTick(m, pNow).value;
      if tick in p.store.buckets {
        RotatedKeys(p, Rotate(m, p, pNow).value, tick, pNow);
        assert p.store.buckets.Keys + {tick} == p.store.buckets.Keys;
      } else {
        FreshBucket(p.store, tick, pNow, p.shares, p.notional, m.maxBuckets);
      }
    }
  }

  lemma FreshBucket(s: Store, tick: int, anchor: nat, shares: nat, notional: nat, maxBuckets: nat)
    requires tick !in s.buckets && InsertOrMerge(s, tick, anchor, shares, notional, 1, maxBuckets).Ok?
    ensures GainsBucket(s, InsertOrMerge(s, tick, anchor, shares, notional, 1, maxBuckets).value)
  {
    var s' := InsertOrMerge(s, tick, anchor, shares, notional, 1, maxBuckets).value;
    assert s'.buckets == s.buckets[tick := Bucket(anchor, shares, notional, 0, 1, s.nextIndex)];
    assert tick in s'.buckets && s' == s.(buckets := s.buckets[tick := s'.buckets[tick]]);
  }

  /** A side that ends a transfer with shares and no equity was the one that paid. */
  lemma EmptiedPaid(p: Pool, p': Pool, own: Flow, other: Flow, pNow: nat)
    requires SideExchanged(p, p', own, other, pNow) && ZeroIff(p)
    requires p'.equity == 0 && p'.shares > 0
    ensures Amount(other) > 0
  {
    hide IdealDistribute, View, BucketShares;
  }

  /** A sync gives a side a new bucket only when the side lost, and then its store gains nothing else. */
  lemma SyncAddsBucket(m: Market, sp: SubPool, env: Envelope, ps: map<nat, Position>, d: Direction)
    requires WorldOk(sp, ps) && SyncPool(m, sp, env).Ok?
    ensures
      var s, s' := sp.Side(d).store, SyncPool(m, sp, env).value.0.Side(d).store;
      s'.buckets.Keys == s.buckets.Keys || GainsBucket(s, s')
  {
    hide WorldOk, SyncPool, MovePrice, Demands, Settle, RotateBoth, CheckSubPool, PoolCore, SideExchanged, SideOk,
      PositionsOk, GainsBucket, ZeroIff, BucketShares;
    SyncUnfolds(m, sp, env);
    SidesCore(sp, ps);
    if Moved(sp, env) {
      MovePriceUnfolds(m, sp, env);
      var demand := Demands(sp, env.pNow).value;
      SettleIs(m, sp, demand, env.pNow);
      var (mid, long, short) := Settle(m, sp, demand, env.pNow).value;
      RotationsAdd(m, Priced(mid, env), env.pNow, d);
      SideExchangedKeys(sp.Side(d), mid.Side(d), if d.Long? then long else short, if d.Long? then short else long, env.pNow);
      if mid.Side(d).equity == 0 && mid.Side(d).shares > 0 {
        EmptiedPaid(sp.Side(d), mid.Side(d), if d.Long? then long else short, if d.Long? then short else long, env.pNow);
      }
    }
  }

  lemma SideExchangedKeys(p: Pool, p': Pool, own: Flow, other: Flow, pNow: nat)
    requires SideExchanged(p, p', own, other, pNow)
    ensures p'.store.buckets.Keys == p.store.buckets.Keys
  {
    SameKeys(p.store, p'.store);
    hide IdealDistribute, View, BucketShares;
  }

  lemma RotationsAdd(m: Market, sp: SubPool, pNow: u64, d: Direction)
    requires PoolCore(sp.long, Long) && PoolCore(sp.short, Short) && RotateBoth(m, sp, pNow).Ok?
    ensures
      var p, s' := sp.Side(d), RotateBoth(m, sp, pNow).value.0.Side(d).store;
      s'.buckets.Keys == p.store.buckets.Keys || (p.equity == 0 && p.shares > 0 && GainsBucket(p.store, s'))
  {
    hide PoolCore, RotateIfEmpty, GainsBucket;
    RotationAdds(m, sp.id, Long, sp.long, pNow);
    RotationAdds(m, sp.id, Short, sp.short, pNow);
  }

  // ---------------------------------------------------------------- writing a side that changed little

  /** Stored ticks have slots, so only a new bucket can lack one. */
  lemma OldTicksHaveSlots(bs: map<Key, BucketRecord>, id: nat, d: Direction, s: Store, s': Store)
    requires SlotsHold(bs, id, d, PackBuckets(s)) && s'.buckets.Keys == s.buckets.Keys
    ensures HasSlots(bs, id, d, s')
  {
    forall t | t in PackBuckets(s')
      ensures Key(id, d, t) in bs
    {
      assert t in PackBuckets(s);
    }
  }

  /** A side that only gained the bucket without a slot is left exactly as it was. */
  lemma MissingSlotWritesNothing(c: Chain, id: nat, d: Direction, s: Store, s': Store)
    requires c.strict && SideStored(c.market, c.buckets, c.ledgers, id, d, s) && s.direction == d && AllLive(s)
    requires GainsBucket(s, s') && !HasSlots(c.buckets, id, d, s')
    requires |s'.buckets| <= c.market.maxBuckets && |s'.ledger| <= c.market.ledgerCap
    ensures WriteSide(c, id, d, s').0 == c
  {
    WriteSideUnfolds(c, id, d, s');
    var t :| t in s'.buckets && t !in s.buckets && s' == s.(buckets := s.buckets[t := s'.buckets[t]]);
    var b := s'.buckets[t];
    var packed := PackBuckets(s');
    hide WriteSide;
    OnlyNewMissing(c.buckets, id, d, s, s', t, b);
    var limit := LeastOf(MissingSlots(c.buckets, id, d, packed));
    assert limit == t;
    PlacedSame(c.buckets, id, d, s, s', t, b);
  }

  lemma OnlyNewMissing(bs: map<Key, BucketRecord>, id: nat, d: Direction, s: Store, s': Store, t: int, b: Bucket)
    requires SlotsHold(bs, id, d, PackBuckets(s)) && t !in s.buckets && s' == s.(buckets := s.buckets[t := b])
    requires !HasSlots(bs, id, d, s')
    ensures MissingSlots(bs, id, d, PackBuckets(s')) == {t}
  {
    forall u | u in MissingSlots(bs, id, d, PackBuckets(s'))
      ensures u == t
    {
      assert u in s.buckets <==> u in PackBuckets(s);
      assert u in PackBuckets(s) ==> Key(id, d, u) in bs;
    }
    var missing := MissingSlots(bs, id, d, PackBuckets(s'));
    assert missing != {};
    var u :| u in missing;
    assert t in missing;
  }

  lemma PlacedSame(bs: map<Key, BucketRecord>, id: nat, d: Direction, s: Store, s': Store, t: int, b: Bucket)
    requires SlotsHold(bs, id, d, PackBuckets(s)) && t !in s.buckets && s' == s.(buckets := s.buckets[t := b])
    ensures PlacedBelow(bs, id, d, PackBuckets(s'), t) == bs
  {
    forall k | k in bs
      ensures PlacedBelow(bs, id, d, PackBuckets(s'), t)[k] == bs[k]
    {
      if k.subPool == id && k.direction == d && k.tick in PackBuckets(s') && k.tick < t {
        assert k.tick in PackBuckets(s);
        assert k == Key(id, d, k.tick);
      }
    }
  }

  /** Writing an unchanged side changes nothing. */
  lemma RewriteSame(c: Chain, id: nat, d: Direction, s: Store)
    requires c.strict && SideStored(c.market, c.buckets, c.ledgers, id, d, s)
    requires |s.buckets| <= c.market.maxBuckets && |s.ledger| <= c.market.ledgerCap
    ensures WriteSide(c, id, d, s).0 == c
  {
    WriteSideUnfolds(c, id, d, s);
    OldTicksHaveSlots(c.buckets, id, d, s, s);
    StrictSame(c.buckets, id, d, PackBuckets(s));
    hide WriteSide, PackBuckets, StrictBuckets, PackLedger, HasSlots;
  }

  lemma StrictSame(bs: map<Key, BucketRecord>, id: nat, d: Direction, packed: map<int, BucketRecord>)
    requires SlotsHold(bs, id, d, packed)
    ensures StrictBuckets(bs, id, d, packed) == bs
  {
    forall k | k in bs
      ensures StrictBuckets(bs, id, d, packed)[k] == bs[k]
    {
      if k.subPool == id && k.direction == d {
        assert k == Key(id, d, k.tick);
      }
    }
  }

  /** The accounts of a side determine its store. */
  lemma StoredUnique(c: Chain, id: nat, d: Direction, s: Store, s': Store)
    requires SideStored(c.market, c.buckets, c.ledgers, id, d, s) && SideStored(c.market, c.buckets, c.ledgers, id, d, s')
    requires s.direction == d && s'.direction == d && AllLive(s) && AllLive(s')
    ensures s == s'
  {
    SameBuckets(c.buckets, id, d, s, s');
    SameBuckets(c.buckets, id, d, s', s);
    EqualMaps(s.buckets, s'.buckets);
  }

  /** Maps are equal when they agree on both domains. */
  lemma EqualMaps(a: map<int, Bucket>, b: map<int, Bucket>)
    requires forall t :: t in a ==> t in b && b[t] == a[t]
    requires forall t :: t in b ==> t in a && a[t] == b[t]
    ensures a == b
  {
    forall t | t in a
      ensures t in b && b[t] == a[t]
    {
    }
    forall t | t in b
      ensures t in a && b[t] == a[t]
    {
    }
    assert a.Keys == b.Keys;
  }

  lemma SameBuckets(bs: map<Key, BucketRecord>, id: nat, d: Direction, s: Store, s': Store)
    requires SlotsHold(bs, id, d, PackBuckets(s)) && SlotsHold(bs, id, d, PackBuckets(s')) && AllLive(s)
    ensures forall t :: t in s.buckets ==> t in s'.buckets && s'.buckets[t] == s.buckets[t]
  {
    PackedLive(s);
    forall t | t in s.buckets
      ensures t in s'.buckets && s'.buckets[t] == s.buckets[t]
    {
      assert t in PackBuckets(s);
      assert bs[Key(id, d, t)] == PackBuckets(s)[t];
      assert t in PackBuckets(s');
      assert PackBuckets(s')[t] == PackBuckets(s)[t];
      assert BucketOf(PackBuckets(s)[t]) == s.buckets[t] && BucketOf(PackBuckets(s')[t]) == s'.buckets[t];
    }
  }

  // ---------------------------------------------------------------- the guard, read before the call

  /** What side `d` asks of the other side, and the part of it for its active shares. */
  function Asked(x: Demand, d: Direction): nat {
    if d.Long? then x.longTotal else x.shortTotal
  }

  function AskedActive(x: Demand, d: Direction): nat {
    if d.Long? then x.longActive else x.shortActive
  }

  /** The sync will rotate side `d`: the other side asks for everything it has. */
  ghost predicate Wiped(sp: SubPool, d: Direction, env: Envelope) {
    && Moved(sp, env) && Demands(sp, env.pNow).Ok?
    && 0 < sp.Side(d).equity <= Asked(Demands(sp, env.pNow).value, d.Opposite())
  }

  /** What the sync will hand to the buckets of side `d`. */
  ghost function RecoveryDue(sp: SubPool, d: Direction, env: Envelope): nat {
    if Moved(sp, env) && Demands(sp, env.pNow).Ok? && Asked(Demands(sp, env.pNow).value, d) > 0 then
      var x := Demands(sp, env.pNow).value;
      var transfer := Min(Asked(x, d), sp.Side(d.Opposite()).equity);
      SaturatingSub(transfer, FloorDiv(transfer, AskedActive(x, d), Asked(x, d)))
    else 0
  }

  /** A transfer to side `d`, and what it does to its store. */
  lemma TransferStore(m: Market, sp: SubPool, d: Direction, active: nat, total: nat, pNow: nat)
    requires PoolCore(sp.long, Long) && PoolCore(sp.short, Short)
    requires 0 < total && active <= total && Transfer(m, sp, d, active, total, pNow).Ok?
    requires active < total ==> TotalOutstanding(d, sp.Side(d).store.buckets, pNow) > 0
    ensures
      var transfer := Min(total, sp.Side(d.Opposite()).equity);
      var toRecovery := SaturatingSub(transfer, FloorDiv(transfer, active, total));
      Transfer(m, sp, d, active, total, pNow).value.0.Side(d).store != sp.Side(d).store <==> toRecovery > 0
  {
    hide PoolCore, Transfer, Distribute, FloorDiv, TotalOutstanding;
    Capacity.StoreIsInv(sp.long, Long);
    Capacity.StoreIsInv(sp.short, Short);
    StoreFaces(sp);
    TransferUnfolds(m, sp, d, active, total, pNow);
    var p, transfer := sp.Side(d), Min(total, sp.Side(d.Opposite()).equity);
    if transfer > 0 {
      var toActive := FloorDiv(transfer, active, total);
      if transfer > toActive {
        PartBound(transfer, active, total);
        DistributionMoves(p.store, m.mode, pNow, transfer - toActive, m.ledgerCap);
      }
    }
  }

  lemma StoreFaces(sp: SubPool)
    requires PoolCore(sp.long, Long) && PoolCore(sp.short, Short)
    ensures forall d: Direction :: sp.Side(d).store.direction == d
    ensures sp.long.store.direction.Long? && sp.short.store.direction.Short?
  {
    hide Inv, LogOk, InRange, Sum;
    forall d: Direction
      ensures sp.Side(d).store.direction == d
    {
      assert d.Long? || d.Short?;
    }
  }

  /** A distribution to a store with an open claim changes it: it pays, or it credits what was pending. */
  lemma DistributionMoves(s: Store, mode: Mode, price: nat, alloc: nat, cap: nat)
    requires Inv(s) && alloc > 0 && Distribute(s, mode, price, alloc, cap).Ok?
    requires TotalOutstanding(s.direction, s.buckets, price) > 0
    ensures Distribute(s, mode, price, alloc, cap).value.0 != s
  {
    hide Inv, View, Prepared, PayOut, TotalOutstanding, DormantRefinement.HasRoom;
    DormantRefinement.PreparedRefines(s, price, cap);
    var s2 := Prepared(s, price, cap).value;
    PayOutIndex(s2, mode, price, alloc);
  }

  lemma PayOutIndex(s: Store, mode: Mode, price: nat, alloc: nat)
    requires PayOut(s, mode, price, alloc).Ok?
    ensures
      var s' := PayOut(s, mode, price, alloc).value.0;
      if TotalOutstanding(s.direction, s.buckets, price) == 0 then s' == s else s'.nextIndex == s.nextIndex + 1
  {
    hide TotalOutstanding, ClaimsFit, Shares, Sum, ActivatedKeys;
  }

  /** A side that asks for more than its active gain has buckets with an open claim. */
  lemma AskingClaims(sp: SubPool, pNow: nat, d: Direction)
    requires Demands(sp, pNow).Ok? && sp.long.store.direction.Long? && sp.short.store.direction.Short?
    requires AskedActive(Demands(sp, pNow).value, d) < Asked(Demands(sp, pNow).value, d)
    ensures TotalOutstanding(d, sp.Side(d).store.buckets, pNow) > 0
  {
    hide ClaimsFit, TotalOutstanding, SignedPnlIncrement;
  }

  /** The side that is asked pays all that is asked of it, or all it has. */
  lemma MidwaySides(m: Market, sp: SubPool, env: Envelope, d: Direction)
    requires PoolCore(sp.long, Long) && PoolCore(sp.short, Short)
    requires Moved(sp, env) && MovePrice(m, sp, env).Ok?
    ensures Demands(sp, env.pNow).Ok?
    ensures
      var x, p, q := Demands(sp, env.pNow).value, sp.Side(d), Midway(m, sp, env).Side(d);
      && q.shares == p.shares
      && (Asked(x, d.Opposite()) == 0 ==> q.equity >= p.equity)
      && (Asked(x, d.Opposite()) > 0 ==> q.equity == p.equity - Min(Asked(x, d.Opposite()), p.equity) && q.store == p.store)
      && (q.store != p.store <==> RecoveryDue(sp, d, env) > 0)
  {
    hide PoolCore, MovePrice, Settle, Transfer, SideExchanged, Demands, FloorDiv, RotateBoth, CheckSubPool;
    MovePriceUnfolds(m, sp, env);
    StoreFaces(sp);
    OneSidedDemand(sp, env.pNow);
    var x := Demands(sp, env.pNow).value;
    SettledBy(m, sp, x, env.pNow);
    if Asked(x, Long) > 0 {
      WinnerSides(m, sp, env, Long);
    } else if Asked(x, Short) > 0 {
      WinnerSides(m, sp, env, Short);
    }
  }

  /** Which transfer a settlement is. */
  lemma SettledBy(m: Market, sp: SubPool, x: Demand, pNow: nat)
    requires Settle(m, sp, x, pNow).Ok?
    ensures x.longTotal > 0 ==>
      && Transfer(m, sp, Long, x.longActive, x.longTotal, pNow).Ok?
      && Settle(m, sp, x, pNow).value.0 == Transfer(m, sp, Long, x.longActive, x.longTotal, pNow).value.0
    ensures x.longTotal == 0 && x.shortTotal > 0 ==>
      && Transfer(m, sp, Short, x.shortActive, x.shortTotal, pNow).Ok?
      && Settle(m, sp, x, pNow).value.0 == Transfer(m, sp, Short, x.shortActive, x.shortTotal, pNow).value.0
    ensures x.longTotal == 0 && x.shortTotal == 0 ==> Settle(m, sp, x, pNow).value.0 == sp
  {
    hide Transfer;
  }

  /** When side `w` asks: it gains, the other side pays, and only its store can change. */
  lemma WinnerSides(m: Market, sp: SubPool, env: Envelope, w: Direction)
    requires PoolCore(sp.long, Long) && PoolCore(sp.short, Short)
    requires Demands(sp, env.pNow).Ok? && Moved(sp, env)
    requires
      var x := Demands(sp, env.pNow).value;
      && 0 < Asked(x, w) && AskedActive(x, w) <= Asked(x, w)
      && Transfer(m, sp, w, AskedActive(x, w), Asked(x, w), env.pNow).Ok?
    ensures
      var x := Demands(sp, env.pNow).value;
      var mid, o := Transfer(m, sp, w, AskedActive(x, w), Asked(x, w), env.pNow).value.0, w.Opposite();
      && mid.Side(w).shares == sp.Side(w).shares && mid.Side(o).shares == sp.Side(o).shares
      && mid.Side(w).equity >= sp.Side(w).equity
      && mid.Side(o).equity == sp.Side(o).equity - Min(Asked(x, w), sp.Side(o).equity)
      && mid.Side(o).store == sp.Side(o).store
      && (mid.Side(w).store != sp.Side(w).store <==> RecoveryDue(sp, w, env) > 0)
  {
    hide PoolCore, Transfer, Demands, FloorDiv, Credited, TotalOutstanding;
    var x := Demands(sp, env.pNow).value;
    StoreFaces(sp);
    if AskedActive(x, w) < Asked(x, w) {
      AskingClaims(sp, env.pNow, w);
    }
    TransferIs(m, sp, w, AskedActive(x, w), Asked(x, w), env.pNow);
    TransferStore(m, sp, w, AskedActive(x, w), Asked(x, w), env.pNow);
  }

  /** What a sync does to the ticks and the store of a side, told by the guard. */
  lemma SyncSides(m: Market, sp: SubPool, env: Envelope, ps: map<nat, Position>, d: Direction)
    requires WorldOk(sp, ps) && SyncPool(m, sp, env).Ok?
    ensures
      var s, s' := sp.Side(d).store, SyncPool(m, sp, env).value.0.Side(d).store;
      && (Wiped(sp, d, env) ==>
            BucketTick(m, env.pNow).Ok? && s'.buckets.Keys == s.buckets.Keys + {BucketTick(m, env.pNow).value})
      && (!Wiped(sp, d, env) ==>
            s'.buckets.Keys == s.buckets.Keys && (s' != s <==> RecoveryDue(sp, d, env) > 0))
  {
    hide WorldOk, SyncPool, MovePrice, Demands, PoolCore, SideExchanged, RotatedTo, BucketTick, Midway, RecoveryDue;
    SyncKeepsWorld(m, sp, env, ps);
    SidesCore(sp, ps);
    SyncUnfolds(m, sp, env);
    var sp', out := SyncPool(m, sp, env).value.0, SyncPool(m, sp, env).value.1;
    var mid := Midway(m, sp, env);
    ExchangedKeys(sp, mid, out.long, out.short, env.pNow, d);
    SideZeroIff(sp, ps, d);
    if Moved(sp, env) {
      MidwaySides(m, sp, env, d);
    } else {
      QuietKeepsWorld(m, sp, env, ps);
      NothingDue(sp, d, env);
    }
    if SideRotates(mid.Side(d)) {
      RotatedKeys(mid.Side(d), sp'.Side(d), BucketTick(m, env.pNow).value, env.pNow);
    }
  }

  predicate SideRotates(p: Pool) {
    p.equity == 0 && p.shares > 0
  }

  lemma NothingDue(sp: SubPool, d: Direction, env: Envelope)
    requires !Moved(sp, env)
    ensures RecoveryDue(sp, d, env) == 0
  {
  }

  lemma SideZeroIff(sp: SubPool, ps: map<nat, Position>, d: Direction)
    requires WorldOk(sp, ps)
    ensures sp.Side(d).equity == 0 <==> sp.Side(d).shares == 0
  {
    hide PoolCore, PoolBacked, PositionsOk;
  }

  lemma ExchangedKeys(sp: SubPool, mid: SubPool, long: Flow, short: Flow, pNow: nat, d: Direction)
    requires Exchanged(sp, mid, long, short, pNow)
    ensures mid.Side(d).store.buckets.Keys == sp.Side(d).store.buckets.Keys
  {
    hide PoolCore, SideExchanged;
    SideExchangedKeys(sp.long, mid.long, long, short, pNow);
    SideExchangedKeys(sp.short, mid.short, short, long, pNow);
  }

  lemma RotatedKeys(p: Pool, p': Pool, tick: int, anchor: nat)
    requires RotatedTo(p, p', tick, anchor)
    ensures p'.store.buckets.Keys == p.store.buckets.Keys + {tick}
  {
    hide View, IdealMerge;
    assert StoreShares.SharesOf(p'.store).Keys == p'.store.buckets.Keys && StoreShares.SharesOf(p.store).Keys == p.store.buckets.Keys;
    assert Raised(StoreShares.SharesOf(p.store), tick, p.shares).Keys == StoreShares.SharesOf(p.store).Keys + {tick};
  }

  /** Only the tick of a rotation can lack a slot. */
  lemma SlotsAfter(bs: map<Key, BucketRecord>, id: nat, d: Direction, s: Store, s': Store, ticks: set<int>)
    requires SlotsHold(bs, id, d, PackBuckets(s)) && s'.buckets.Keys == s.buckets.Keys + ticks
    ensures HasSlots(bs, id, d, s') <==> forall t :: t in ticks ==> Key(id, d, t) in bs
  {
    forall t | t in s.buckets
      ensures Key(id, d, t) in bs
    {
      assert t in PackBuckets(s);
    }
    forall t | t in ticks
      ensures t in PackBuckets(s')
    {
      assert t in s'.buckets.Keys;
    }
    var missing := MissingSlots(bs, id, d, PackBuckets(s'));
    forall t | t in missing
      ensures t in ticks && Key(id, d, t) !in bs
    {
      assert t in s'.buckets.Keys;
    }
    forall t | t in ticks && Key(id, d, t) !in bs
      ensures t in missing
    {
    }
  }

  // ---------------------------------------------------------------- the exact condition

  /** The side whose slot is missing writes nothing. */
  lemma MissingSideIs(c: Chain, id: nat, d: Direction, s: Store, s': Store)
    requires c.strict && SideStored(c.market, c.buckets, c.ledgers, id, d, s)
    requires Writable(c.market, s, d) && Writable(c.market, s', d)
    requires s'.buckets.Keys == s.buckets.Keys || GainsBucket(s, s')
    requires !HasSlots(c.buckets, id, d, s')
    ensures WriteSide(c, id, d, s') == (c, Err(BucketSlotExhausted(SideKey(id, d))))
  {
    hide Inv, AllLive, TotalAllotted, HasSlots, PackLedger, PackBuckets, SlotsHold, GainsBucket;
    if s'.buckets.Keys == s.buckets.Keys {
      OldTicksHaveSlots(c.buckets, id, d, s, s');
    } else {
      MissingSlotWritesNothing(c, id, d, s, s');
      WriteSideUnfolds(c, id, d, s');
      hide WriteSide;
    }
  }

  /** Writing a side with all slots changes the accounts exactly when the store changed. */
  lemma FullWriteChanges(c: Chain, id: nat, d: Direction, s: Store, s': Store)
    requires c.strict && SideStored(c.market, c.buckets, c.ledgers, id, d, s)
    requires Writable(c.market, s, d) && Writable(c.market, s', d) && HasSlots(c.buckets, id, d, s')
    ensures WriteSide(c, id, d, s').0 == c <==> s' == s
  {
    hide Inv, AllLive, TotalAllotted, HasSlots, WriteSide, SideStored;
    WriteSideIs(c, id, d, s', s);
    RewriteSame(c, id, d, s);
    if WriteSide(c, id, d, s').0 == c {
      StoredUnique(c, id, d, s, s');
    }
  }

  /** The write-back of a sub pool with a missing slot. */
  lemma HalfWriteIs(c: Chain, id: nat, sp: SubPool, sp': SubPool)
    requires c.strict && PoolStored(c, id, sp) && PoolWritable(c.market, sp) && PoolWritable(c.market, sp')
    requires sp'.long.store.buckets.Keys == sp.long.store.buckets.Keys || GainsBucket(sp.long.store, sp'.long.store)
    requires sp'.short.store.buckets.Keys == sp.short.store.buckets.Keys || GainsBucket(sp.short.store, sp'.short.store)
    requires !AllSlots(c, id, sp')
    ensures Write(c, id, sp').1.Err?
    ensures Write(c, id, sp').0 == c <==>
      !HasSlots(c.buckets, id, Long, sp'.long.store) || sp'.long.store == sp.long.store
  {
    hide SideStored, Writable, WriteSide, HasSlots, GainsBucket, AccountOf;
    if !HasSlots(c.buckets, id, Long, sp'.long.store) {
      MissingSideIs(c, id, Long, sp.long.store, sp'.long.store);
    } else {
      FullWriteChanges(c, id, Long, sp.long.store, sp'.long.store);
      WriteSideIs(c, id, Long, sp'.long.store, sp.long.store);
      var c1 := WriteSide(c, id, Long, sp'.long.store).0;
      SideFields(c, c1, id, Long);
      SideUnaffected(c, c1, id, Long, id, Short, sp.short.store);
      SlotsUnaffected(c, c1, id, Long, Short, sp'.short.store);
      MissingSideIs(c1, id, Short, sp.short.store, sp'.short.store);
    }
  }

  /** A strict sync whose engine step succeeds but whose write-back lacks a slot. */
  lemma HalfWrittenSync(c: Chain, pools: map<nat, SubPool>, id: nat, env: Envelope)
    requires ChainOk(c, pools) && id in pools && c.strict && Issuable(c, SyncIx(id, env))
    requires SyncPool(c.market, pools[id], env).Ok?
    requires !AllSlots(c, id, SyncPool(c.market, pools[id], env).value.0)
    ensures
      var sp' := SyncPool(c.market, pools[id], env).value.0;
      var (c', res) := Execute(c, SyncIx(id, env));
      && HalfWritten(c, SyncIx(id, env), res)
      && (c' == c <==> !HasSlots(c.buckets, id, Long, sp'.long.store) || sp'.long.store == pools[id].long.store)
  {
    hide ChainOk, PoolFine, Sound, Capacity.Stored, PoolStored, PoolWritable, Build, Handle, SyncPool, Write, Restore,
      MoveFunds, PutOwn, Own, AllSlots, CanSnapshot, HasSlots, GainsBucket, WorldOk;
    var sp, op := pools[id], SyncOp(env);
    var sp' := SyncPool(c.market, sp, env).value.0;
    var w := World(sp, Own(c.positions, id));
    PoolAt(c, pools, id);
    FineParts(c, id, sp);
    FineBuilds(c, id, sp);
    SoundWorld(w);
    FineIsWritable(c.market, sp, w.ps);
    StepKeepsWorld(c.market, w, op);
    StepStaysStored(c.market, w, op);
    FineIsWritable(c.market, sp', w.ps);
    SyncAddsBucket(c.market, sp, env, w.ps, Long);
    SyncAddsBucket(c.market, sp, env, w.ps, Short);
    HalfWriteIs(c, id, sp, sp');
    HandleIs(c, pools, id, op);
    SyncWrites(c, id, env, sp);
  }

  lemma SoundWorld(w: World)
    requires Sound(w)
    ensures WorldOk(w.sp, w.ps)
  {
    hide WorldOk;
  }

  lemma SyncWrites(c: Chain, id: nat, env: Envelope, sp: SubPool)
    requires CanSnapshot(c, id) && Build(c, id) == Ok(sp) && SyncPool(c.market, sp, env).Ok?
    requires Write(c, id, SyncPool(c.market, sp, env).value.0).1.Err?
    ensures Handle(c, id, SyncOp(env)).0 == Write(c, id, SyncPool(c.market, sp, env).value.0).0
  {
    hide Build, SyncPool, Write, Restore, MoveFunds, PutOwn;
  }

  /** Side `d` is about to be rotated into a bucket that has no slot. */
  ghost predicate LacksSlot(c: Chain, id: nat, sp: SubPool, d: Direction, env: Envelope) {
    && Wiped(sp, d, env) && BucketTick(c.market, env.pNow).Ok?
    && Key(id, d, BucketTick(c.market, env.pNow).value) !in c.buckets
  }

  lemma SlotsTold(c: Chain, pools: map<nat, SubPool>, id: nat, env: Envelope, d: Direction)
    requires ChainOk(c, pools) && id in pools && SyncPool(c.market, pools[id], env).Ok?
    ensures
      HasSlots(c.buckets, id, d, SyncPool(c.market, pools[id], env).value.0.Side(d).store) <==>
        !LacksSlot(c, id, pools[id], d, env)
  {
    hide ChainOk, PoolFine, WorldOk, SyncPool, HasSlots, Wiped, BucketTick, SlotsHold;
    var sp, w := pools[id], World(pools[id], Own(c.positions, id));
    PoolAt(c, pools, id);
    FineParts(c, id, sp);
    SoundWorld(w);
    SyncSides(c.market, sp, env, w.ps, d);
    SideSlots(c, id, sp, d);
    var s, s' := sp.Side(d).store, SyncPool(c.market, sp, env).value.0.Side(d).store;
    if Wiped(sp, d, env) {
      SlotsAfter(c.buckets, id, d, s, s', {BucketTick(c.market, env.pNow).value});
    } else {
      assert s.buckets.Keys + {} == s.buckets.Keys;
      SlotsAfter(c.buckets, id, d, s, s', {});
    }
  }

  lemma SideSlots(c: Chain, id: nat, sp: SubPool, d: Direction)
    requires PoolStored(c, id, sp)
    ensures SlotsHold(c.buckets, id, d, PackBuckets(sp.Side(d).store))
  {
    hide SlotsHold, PackBuckets, PackLedger, AccountOf;
  }

  /** A sync that empties one side does not empty the other. */
  lemma OneSideWiped(sp: SubPool, env: Envelope)
    requires sp.long.store.direction.Long? && sp.short.store.direction.Short?
    ensures !(Wiped(sp, Long, env) && Wiped(sp, Short, env))
  {
    OneSidedDemand(sp, env.pNow);
    hide Demands;
  }

  lemma PoolDirections(sp: SubPool, ps: map<nat, Position>)
    requires WorldOk(sp, ps)
    ensures sp.long.store.direction.Long? && sp.short.store.direction.Short?
  {
    hide WorldOk, PoolCore;
    SidesCore(sp, ps);
    StoreFaces(sp);
  }

  /** The outcome `c'`, `res` of a strict sync of the sub pool `sp`, told from the state before it. */
  ghost predicate StrictSyncTold(c: Chain, id: nat, sp: SubPool, env: Envelope, c': Chain, res: MirrorResult<Effect>) {
    var accepted := SyncPool(c.market, sp, env).Ok?;
    var long, short := LacksSlot(c, id, sp, Long, env), LacksSlot(c, id, sp, Short, env);
    && (res.Ok? <==> accepted && !long && !short)
    && (HalfWritten(c, SyncIx(id, env), res) <==> accepted && (long || short))
    && (res.Err? && c' != c <==> accepted && short && RecoveryDue(sp, Long, env) > 0)
  }

  /**
    A strict sync, decided before the call from the accounts alone; `Build` reads the sub pool they
    hold. Once the engine accepts the sync, it fails exactly when it rotates a side into a tick
    without a slot; and the failed sync has changed accounts exactly when that side is the short one
    and the buckets of the long side are due a payment, for they are written first and nothing
    restores them.
  */
  lemma StrictSyncAtomicity(c: Chain, id: nat, env: Envelope)
    requires Coherent(c) && c.strict && Issuable(c, SyncIx(id, env))
    ensures Build(c, id).Ok?
    ensures
      var (c', res) := Execute(c, SyncIx(id, env));
      StrictSyncTold(c, id, Build(c, id).value, env, c', res)
  {
    hide ChainOk, PoolFine, Build, Handle, SyncPool, LacksSlot, RecoveryDue, HasSlots, CanSnapshot, WorldOk;
    var pools :| ChainOk(c, pools);
    SnapshotKnown(c, pools, id);
    var sp, ps := pools[id], Own(c.positions, id);
    PoolAt(c, pools, id);
    FineParts(c, id, sp);
    FineBuilds(c, id, sp);
    SoundWorld(World(sp, ps));
    hide Own;
    HandleIs(c, pools, id, SyncOp(env));
    if SyncPool(c.market, sp, env).Ok? {
      SlotsTold(c, pools, id, env, Long);
      SlotsTold(c, pools, id, env, Short);
      WipedOnce(c, id, sp, ps, env);
      SyncSides(c.market, sp, env, ps, Long);
      if !AllSlots(c, id, SyncPool(c.market, sp, env).value.0) {
        HalfWrittenSync(c, pools, id, env);
      }
    }
  }

  lemma SnapshotKnown(c: Chain, pools: map<nat, SubPool>, id: nat)
    requires ChainOk(c, pools) && CanSnapshot(c, id)
    ensures id in pools
  {
    hide PoolFine, Balanced, Housed;
  }

  /** When the short side lacks its slot, the long side is not rotated. */
  lemma WipedOnce(c: Chain, id: nat, sp: SubPool, ps: map<nat, Position>, env: Envelope)
    requires WorldOk(sp, ps)
    ensures LacksSlot(c, id, sp, Short, env) ==> !LacksSlot(c, id, sp, Long, env) && !Wiped(sp, Long, env)
  {
    hide WorldOk, Wiped, BucketTick;
    PoolDirections(sp, ps);
    OneSideWiped(sp, env);
  }

  // ---------------------------------------------------------------- runs without half-written syncs

  /** Both sides have a slot at the tick of the price that is being synced to. */
  predicate SlotsReady(c: Chain, id: nat, env: Envelope) {
    BucketTick(c.market, env.pNow).Ok? ==>
      var tick := BucketTick(c.market, env.pNow).value;
      Key(id, Long, tick) in c.buckets && Key(id, Short, tick) in c.buckets
  }

  /** Whoever issues a sync in strict mode has initialised the tick of its price on both sides first. */
  ghost predicate Provisioned(c: Chain, code: seq<Instruction>)
    decreases |code|
  {
    code == []
    || (if Issuable(c, code[0])
        then (c.strict && code[0].SyncIx? ==> SlotsReady(c, code[0].subPool, code[0].env))
             && Provisioned(Execute(c, code[0]).0, code[1..])
        else Provisioned(c, code[1..]))
  }

  lemma ReadyIsWhole(c: Chain, i: Instruction)
    requires Coherent(c) && Issuable(c, i)
    requires c.strict && i.SyncIx? ==> SlotsReady(c, i.subPool, i.env)
    ensures !HalfWritten(c, i, Execute(c, i).1)
  {
    hide Coherent, Build, SyncPool, Wiped, BucketTick, RecoveryDue, CanSnapshot, Handle;
    if c.strict && i.SyncIx? {
      StrictSyncAtomicity(c, i.subPool, i.env);
    }
  }

  lemma {:induction false} ProvisionedIsClean(c: Chain, code: seq<Instruction>)
    requires Coherent(c) && Provisioned(c, code)
    ensures Clean(c, code)
    decreases |code|
  {
    if code == [] {
    } else {
      hide Coherent, Execute, SlotsReady, HalfWritten;
      if Issuable(c, code[0]) {
        ReadyIsWhole(c, code[0]);
        WholeKeeps(c, code[0]);
        ProvisionedIsClean(Execute(c, code[0]).0, code[1..]);
      } else {
        ProvisionedIsClean(c, code[1..]);
      }
    }
  }

  lemma WholeKeeps(c: Chain, i: Instruction)
    requires Coherent(c) && Issuable(c, i) && !HalfWritten(c, i, Execute(c, i).1)
    ensures Coherent(Execute(c, i).0)
  {
    hide Coherent, Execute;
    ExecuteIs(c, i);
  }

  /** A provisioned run of a new runtime, strict or not, only reaches coherent states. */
  lemma ProvisionedRunKeeps(m: Market, strict: bool, code: seq<Instruction>)
    requires Provisioned(NewChain(m, strict), code)
    ensures Coherent(Run(NewChain(m, strict), code))
  {
    hide Coherent, NewChain, Run, Clean, Provisioned;
    NewChainCoherent(m, strict);
    ProvisionedIsClean(NewChain(m, strict), code);
    RunKeeps(NewChain(m, strict), code);
  }
}
