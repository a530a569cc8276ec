/**
  Eager and lazy engines in lockstep. Started from the same sub pool, two markets that differ only in
  their distribution mode answer every operation alike, effect or error; and once every bucket has
  been brought up to date, they are in the very same state again.
*/
module EngineModes {
  import opened Wrappers
  import opened MoleMath
  import opened Clearing
  import opened Sums
  import opened Dormant
  import opened DormantInvariant
  import opened DormantRefinement
  import opened Engine
  import opened Holdings
  import StoreShares
  import opened EngineInvariant
  import opened EngineSync
  import opened EnginePositions
  import opened EngineOperations
  import opened EngineRuns

  // ---------------------------------------------------------------- faces

  /** Equal but for what is credited and what is still owed: same log, same views, same total. */
  ghost predicate Twin(s: Store, t: Store) {
    Inv(s) && Inv(t) && SameLog(s, t) && View(t) == View(s) && Value(t) == Value(s)
  }

  ghost predicate SameFace(p: Pool, q: Pool) {
    q == p.(store := q.store) && Twin(p.store, q.store)
  }

  ghost predicate Alike(sp: SubPool, sq: SubPool) {
    && sq == sp.(long := sq.long, short := sq.short)
    && SameFace(sp.long, sq.long)
    && SameFace(sp.short, sq.short)
  }

  /** The same error, or the same answer and sub pools that look alike. */
  ghost predicate SameAnswer<T>(r: ClearingResult<(SubPool, T)>, t: ClearingResult<(SubPool, T)>) {
    match r
    case Err(_) => t == r
    case Ok(v) => t.Ok? && t.value.1 == v.1 && Alike(v.0, t.value.0)
  }

  /** The same for one side. */
  ghost predicate SamePaid<T>(r: ClearingResult<(Pool, T)>, t: ClearingResult<(Pool, T)>) {
    match r
    case Err(_) => t == r
    case Ok(v) => t.Ok? && t.value.1 == v.1 && SameFace(v.0, t.value.0)
  }

  lemma TwinSelf(s: Store)
    requires Inv(s)
    ensures Twin(s, s)
  {
    hide Inv, View;
  }

  lemma FaceSelf(p: Pool)
    requires Inv(p.store)
    ensures SameFace(p, p)
  {
    hide Twin;
    TwinSelf(p.store);
  }

  lemma FaceFields(p: Pool, q: Pool)
    requires SameFace(p, q)
    ensures q.equity == p.equity && q.shares == p.shares && q.notional == p.notional && q.dust == p.dust
    ensures q.generation == p.generation && q.log == p.log && q.recovery == p.recovery
    ensures Inv(p.store) && Inv(q.store) && Value(q.store) == Value(p.store)
    ensures q.store.direction == p.store.direction && View(q.store) == View(p.store)
  {
    hide Inv, View, Value;
  }

  lemma AlikeSide(sp: SubPool, sq: SubPool, d: Direction)
    requires Alike(sp, sq)
    ensures SameFace(sp.Side(d), sq.Side(d))
  {
    hide SameFace;
  }

  lemma AlikeWith(sp: SubPool, sq: SubPool, d: Direction, p: Pool, q: Pool)
    requires Alike(sp, sq) && SameFace(p, q)
    ensures Alike(sp.With(d, p), sq.With(d, q))
  {
    hide SameFace;
  }

  // ---------------------------------------------------------------- one distribution, both modes

  lemma LoggedSameLog(s: Store, a: Mode, b: Mode, price: nat, alloc: nat)
    ensures SameLog(Logged(s, a, price, alloc), Logged(s, b, price, alloc))
  {
    hide TotalOutstanding, Shares, Sum, ActivatedKeys;
  }

  /** On the same store both modes refuse or pay the same, as long as the totals have room. */
  lemma PayOutModes(s: Store, a: Mode, b: Mode, price: nat, alloc: nat)
    requires Value(s) + alloc < U128
    ensures
      var r, t := PayOut(s, a, price, alloc), PayOut(s, b, price, alloc);
      && (r.Err? ==> t == r)
      && (r.Ok? ==> t.Ok? && t.value.1 == r.value.1 && SameLog(r.value.0, t.value.0))
  {
    SharesWithinInput(s.direction, s.buckets, price, alloc);
    LoggedSameLog(s, a, b, price, alloc);
    hide TotalOutstanding, Shares, Sum, ClaimsFit, Logged;
  }

  lemma DistributeModes(s: Store, a: Mode, b: Mode, price: nat, alloc: nat, cap: nat)
    requires Inv(s) && Value(s) + alloc < U128
    ensures
      var r, t := Distribute(s, a, price, alloc, cap), Distribute(s, b, price, alloc, cap);
      && (r.Err? ==> t == r)
      && (r.Ok? ==> t.Ok? && t.value.1 == r.value.1 && Twin(r.value.0, t.value.0))
  {
    hide Prepared, PayOut, Inv, View, IdealDistribute, HasRoom;
    DistributeRefines(s, a, price, alloc, cap);
    DistributeRefines(s, b, price, alloc, cap);
    if alloc > 0 && Prepared(s, price, cap).Ok? {
      PreparedRefines(s, price, cap);
      PayOutModes(Prepared(s, price, cap).value, a, b, price, alloc);
    }
  }

  // ---------------------------------------------------------------- sync

  lemma PayRecoveryModes(m: Market, n: Market, p: Pool, pNow: nat, amount: nat)
    requires n == m.(mode := n.mode) && Inv(p.store) && Value(p.store) + amount < U128
    ensures SamePaid(PayRecovery(m, p, pNow, amount), PayRecovery(n, p, pNow, amount))
  {
    hide Distribute, Twin;
    DistributeModes(p.store, m.mode, n.mode, pNow, amount, m.ledgerCap);
  }

  lemma TransferModes(m: Market, n: Market, sp: SubPool, d: Direction, active: nat, total: nat, pNow: nat)
    requires n == m.(mode := n.mode) && 0 < total
    requires Inv(sp.long.store) && Inv(sp.short.store)
    requires Value(sp.Side(d).store) + sp.Side(d.Opposite()).equity < U128
    ensures SameAnswer(Transfer(m, sp, d, active, total, pNow), Transfer(n, sp, d, active, total, pNow))
  {
    hide PayRecovery, MulDivFloor, SameFace, Inv, Value;
    var winner, loser := sp.Side(d), sp.Side(d.Opposite());
    FaceSelf(sp.long);
    FaceSelf(sp.short);
    var transfer := Min(total, loser.equity);
    if transfer > 0 && MulDivFloor(transfer, active, total).Ok? {
      var toActive := MulDivFloor(transfer, active, total).value;
      FaceSelf(loser.(equity := loser.equity - transfer));
      if toActive <= transfer && winner.equity + toActive < U128 {
        var paid := winner.(equity := winner.equity + toActive);
        FaceSelf(paid);
        PayRecoveryModes(m, n, paid, pNow, transfer - toActive);
      }
    }
  }

  /** The same error, or the same flows and sub pools that look alike. */
  ghost predicate SameSettled(r: ClearingResult<(SubPool, Flow, Flow)>, t: ClearingResult<(SubPool, Flow, Flow)>) {
    match r
    case Err(_) => t == r
    case Ok(v) => t.Ok? && t.value.1 == v.1 && t.value.2 == v.2 && Alike(v.0, t.value.0)
  }

  lemma SettleModes(m: Market, n: Market, sp: SubPool, demand: Demand, pNow: nat)
    requires n == m.(mode := n.mode) && Inv(sp.long.store) && Inv(sp.short.store) && Funds(sp) < U128
    ensures SameSettled(Settle(m, sp, demand, pNow), Settle(n, sp, demand, pNow))
  {
    hide Transfer, SameFace, Inv, Value;
    if demand.longTotal > 0 {
      TransferModes(m, n, sp, Long, demand.longActive, demand.longTotal, pNow);
    } else if demand.shortTotal > 0 {
      TransferModes(m, n, sp, Short, demand.shortActive, demand.shortTotal, pNow);
    } else {
      FaceSelf(sp.long);
      FaceSelf(sp.short);
    }
  }

  lemma MergeKeepsLog(s: Store, tick: int, anchor: nat, shares: nat, notional: nat, count: nat, maxBuckets: nat)
    requires InsertOrMerge(s, tick, anchor, shares, notional, count, maxBuckets).Ok?
    ensures SameLog(s, InsertOrMerge(s, tick, anchor, shares, notional, count, maxBuckets).value)
  {
    hide PendingsOf, CaughtUpAll, Sum;
  }

  lemma MergeTwins(s: Store, t: Store, tick: int, anchor: nat, shares: nat, notional: nat, maxBuckets: nat)
    requires Twin(s, t) && Value(s) < U128 && shares < U128 && notional < U128
    ensures
      var r, q := InsertOrMerge(s, tick, anchor, shares, notional, 1, maxBuckets),
                  InsertOrMerge(t, tick, anchor, shares, notional, 1, maxBuckets);
      && (r.Err? ==> q == r)
      && (r.Ok? ==> q.Ok? && Twin(r.value, q.value))
  {
    hide InsertOrMerge, Inv, View, IdealMerge, Value;
    InsertOrMergeRefines(s, tick, anchor, shares, notional, 1, maxBuckets);
    InsertOrMergeRefines(t, tick, anchor, shares, notional, 1, maxBuckets);
    if InsertOrMerge(s, tick, anchor, shares, notional, 1, maxBuckets).Ok? {
      MergeKeepsLog(s, tick, anchor, shares, notional, 1, maxBuckets);
    }
    if InsertOrMerge(t, tick, anchor, shares, notional, 1, maxBuckets).Ok? {
      MergeKeepsLog(t, tick, anchor, shares, notional, 1, maxBuckets);
    }
  }

  lemma RotateModes(m: Market, n: Market, id: nat, d: Direction, p: Pool, q: Pool, pNow: u64)
    requires n == m.(mode := n.mode) && SameFace(p, q)
    requires Value(p.store) < U128 && p.shares < U128 && p.notional < U128
    ensures SamePaid(RotateIfEmpty(m, id, d, p, pNow), RotateIfEmpty(n, id, d, q, pNow))
  {
    hide InsertOrMerge, BucketTick, Twin, Value;
    assert BucketTick(n, pNow) == BucketTick(m, pNow) by { SameTick(m, n, pNow); }
    if BucketTick(m, pNow).Ok? {
      MergeTwins(p.store, q.store, BucketTick(m, pNow).value, pNow, p.shares, p.notional, m.maxBuckets);
    }
  }

  lemma SameTick(m: Market, n: Market, pNow: u64)
    requires n == m.(mode := n.mode)
    ensures BucketTick(n, pNow) == BucketTick(m, pNow)
  {
    hide FloorDiv;
  }

  lemma RotateBothModes(m: Market, n: Market, sp: SubPool, sq: SubPool, pNow: u64)
    requires n == m.(mode := n.mode) && Alike(sp, sq)
    requires Value(sp.long.store) < U128 && sp.long.shares < U128 && sp.long.notional < U128
    requires Value(sp.short.store) < U128 && sp.short.shares < U128 && sp.short.notional < U128
    ensures SameAnswer(RotateBoth(m, sp, pNow), RotateBoth(n, sq, pNow))
  {
    hide RotateIfEmpty, SameFace, Value;
    RotateModes(m, n, sp.id, Long, sp.long, sq.long, pNow);
    RotateModes(m, n, sp.id, Short, sp.short, sq.short, pNow);
  }

  /** The checks at the end of an operation look at the face alone. */
  lemma ChecksAlike(sp: SubPool, sq: SubPool)
    requires Alike(sp, sq)
    ensures CheckSubPool(sq) == CheckSubPool(sp)
  {
    hide CheckPool, CheckStore, SameFace;
    StoreCheckSame(sp.long, sq.long);
    StoreCheckSame(sp.short, sq.short);
  }

  lemma StoreCheckSame(p: Pool, q: Pool)
    requires SameFace(p, q)
    ensures CheckStore(q.store) == CheckStore(p.store) && CheckPool(q) == CheckPool(p)
    ensures q.equity == p.equity && q.shares == p.shares
  {
    hide Inv, View, CheckStore, Sum;
    CheckStoreIs(p.store);
    CheckStoreIs(q.store);
    StoreShares.ViewShares(p.store);
    StoreShares.ViewShares(q.store);
  }

  lemma InvOfWorld(sp: SubPool, ps: map<nat, Position>)
    requires WorldOk(sp, ps)
    ensures Inv(sp.long.store) && Inv(sp.short.store)
  {
    hide WorldOk, PoolCore;
    SidesCore(sp, ps);
    CoreBounds(sp.long, Long);
    CoreBounds(sp.short, Short);
  }

  lemma CoreBounds(p: Pool, d: Direction)
    requires PoolCore(p, d)
    ensures Inv(p.store) && p.shares < U128 && p.notional < U128
  {
    hide Inv, LogOk, Sum;
  }

  /** What a transfer leaves in a store is still within the funds of the sub pool. */
  lemma MidwayFits(sp: SubPool, mid: SubPool, long: Flow, short: Flow, pNow: nat)
    requires Exchanged(sp, mid, long, short, pNow) && Funds(sp) < U128
    ensures Value(mid.long.store) < U128 && mid.long.shares < U128 && mid.long.notional < U128
    ensures Value(mid.short.store) < U128 && mid.short.shares < U128 && mid.short.notional < U128
  {
    hide PoolCore, SideExchanged, SideFunds;
    CoreBounds(mid.long, Long);
    CoreBounds(mid.short, Short);
    ExchangeKeepsFunds(sp.long, mid.long, long, short, pNow);
    ExchangeKeepsFunds(sp.short, mid.short, short, long, pNow);
    StoreWithinSide(mid.long);
    StoreWithinSide(mid.short);
  }

  lemma StoreWithinSide(p: Pool)
    ensures Value(p.store) <= SideFunds(p)
  {
  }

  lemma MoveModes(m: Market, n: Market, sp: SubPool, env: Envelope, ps: map<nat, Position>)
    requires n == m.(mode := n.mode) && WorldOk(sp, ps) && Funds(sp) < U128 && Moved(sp, env)
    ensures SameAnswer(MovePrice(m, sp, env), MovePrice(n, sp, env))
  {
    hide WorldOk, MovePrice, Demands, Settle, RotateBoth, CheckSubPool, PoolCore, Exchanged, Alike, Funds, Inv,
      Midway, Value;
    MovePriceUnfolds(m, sp, env);
    MovePriceUnfolds(n, sp, env);
    InvOfWorld(sp, ps);
    SidesCore(sp, ps);
    if Demands(sp, env.pNow).Ok? {
      var demand := Demands(sp, env.pNow).value;
      SettleModes(m, n, sp, demand, env.pNow);
      SettleIs(m, sp, demand, env.pNow);
      var r := Settle(m, sp, demand, env.pNow);
      if r.Ok? {
        var t := Settle(n, sp, demand, env.pNow);
        MidwayFits(sp, r.value.0, r.value.1, r.value.2, env.pNow);
        RotateSettled(m, n, r.value.0, t.value.0, env);
      }
    }
  }

  lemma RotateSettled(m: Market, n: Market, mid: SubPool, mid2: SubPool, env: Envelope)
    requires n == m.(mode := n.mode) && Alike(mid, mid2)
    requires Value(mid.long.store) < U128 && mid.long.shares < U128 && mid.long.notional < U128
    requires Value(mid.short.store) < U128 && mid.short.shares < U128 && mid.short.notional < U128
    ensures
      var r, t := RotateBoth(m, Priced(mid, env), env.pNow), RotateBoth(n, Priced(mid2, env), env.pNow);
      SameAnswer(r, t) && (r.Ok? ==> CheckSubPool(t.value.0) == CheckSubPool(r.value.0))
  {
    hide RotateBoth, CheckSubPool, Value, SameFace;
    RotateBothModes(m, n, Priced(mid, env), Priced(mid2, env), env.pNow);
    var r, t := RotateBoth(m, Priced(mid, env), env.pNow), RotateBoth(n, Priced(mid2, env), env.pNow);
    if r.Ok? {
      ChecksAlike(r.value.0, t.value.0);
    }
  }

  /** A sync in either mode: the same refusal, or the same events and faces. */
  lemma SyncModes(m: Market, n: Market, sp: SubPool, env: Envelope, ps: map<nat, Position>)
    requires n == m.(mode := n.mode) && WorldOk(sp, ps) && Funds(sp) < U128
    ensures SameAnswer(SyncPool(m, sp, env), SyncPool(n, sp, env))
  {
    hide WorldOk, MovePrice, CheckSubPool, Funds, SameFace, Inv, PriceMoveBps;
    InvOfWorld(sp, ps);
    if Moved(sp, env) {
      MoveModes(m, n, sp, env, ps);
    } else {
      FaceSelf(sp.long);
      FaceSelf(sp.short);
    }
  }

  // ---------------------------------------------------------------- positions

  lemma AddSharesSame(p: Pool, q: Pool, mint: Mint, notional: nat)
    requires SameFace(p, q)
    ensures
      var r, t := AddShares(p, mint, notional), AddShares(q, mint, notional);
      && (r.Err? ==> t == r)
      && (r.Ok? ==> t.Ok? && SameFace(r.value, t.value) && r.value.generation == p.generation && t.value.generation == p.generation)
  {
    hide Twin;
  }

  /** The part of an open after its sync. */
  ghost function OpenSynced(m: Market, spId: nat, sp: SubPool, d: Direction, gross: u64, id: nat, events: seq<EngineEvent>)
    : ClearingResult<(SubPool, (Position, OpenOutcome))>
  {
    var charge :- Principal(m, gross);
    var mint :- MintShares(m, sp.Side(d), charge.1);
    var notional :- FromMath(MulDivFloor(charge.1, m.leverageBps, BPS_SCALE));
    var p :- AddShares(sp.Side(d), mint, notional);
    var sp' := sp.With(d, p);
    var _ :- CheckSubPool(sp');
    var pos := Position(id, d, Open, charge.1, notional, mint.shares, 0, None, 0, p.generation, m.schemaVersion);
    var event := PositionOpened(spId, id, d, charge.1, notional, mint.shares, p.generation);
    Ok((sp', (pos, OpenOutcome(mint, notional, charge.0, events + [event]))))
  }

  /** Three-part results as pairs. */
  function Paired<A, B, C>(r: ClearingResult<(A, B, C)>): ClearingResult<(A, (B, C))> {
    match r
    case Err(e) => Err(e)
    case Ok(v) => Ok((v.0, (v.1, v.2)))
  }

  lemma OpenIs(m: Market, sp: SubPool, env: Envelope, d: Direction, gross: u64, id: nat)
    ensures
      Paired(OpenPosition(m, sp, env, d, gross, id)) ==
        if m.schemaVersion != SCHEMA_VERSION_CURRENT then Err(SchemaVersionMismatch)
        else if m.frozen then Err(FrozenNewPosition)
        else
          var synced :- SyncPool(m, sp, env);
          OpenSynced(m, sp.id, synced.0, d, gross, id, synced.1.events)
  {
    hide SyncPool, Principal, MintShares, MulDivFloor, AddShares, CheckSubPool;
  }

  lemma OpenSyncedSame(
    m: Market, n: Market, spId: nat, sp: SubPool, sq: SubPool, d: Direction, gross: u64, id: nat, events: seq<EngineEvent>)
    requires n == m.(mode := n.mode) && Alike(sp, sq)
    ensures SameAnswer(OpenSynced(m, spId, sp, d, gross, id, events), OpenSynced(n, spId, sq, d, gross, id, events))
  {
    hide Alike, SameFace, MulDivFloor, CheckSubPool, AddShares;
    AlikeSide(sp, sq, d);
    var p, q := sp.Side(d), sq.Side(d);
    SameMint(m, n, p, q, gross);
    hide Principal, MintShares;
    if Principal(m, gross).Ok? && MintShares(m, p, Principal(m, gross).value.1).Ok? {
      var principal := Principal(m, gross).value.1;
      var mint := MintShares(m, p, principal).value;
      if MulDivFloor(principal, m.leverageBps, BPS_SCALE).Ok? {
        var notional := MulDivFloor(principal, m.leverageBps, BPS_SCALE).value;
        AddSharesSame(p, q, mint, notional);
        var r, t := AddShares(p, mint, notional), AddShares(q, mint, notional);
        if r.Ok? {
          AlikeWith(sp, sq, d, r.value, t.value);
          ChecksAlike(sp.With(d, r.value), sq.With(d, t.value));
        }
      }
    }
  }

  lemma SameMint(m: Market, n: Market, p: Pool, q: Pool, gross: u64)
    requires n == m.(mode := n.mode) && SameFace(p, q)
    ensures Principal(n, gross) == Principal(m, gross)
    ensures Principal(m, gross).Ok? ==>
      MintShares(n, q, Principal(m, gross).value.1) == MintShares(m, p, Principal(m, gross).value.1)
  {
    hide SameFace, MulDivFloor, MulDivCeil;
    FaceFields(p, q);
  }

  lemma OpenModes(
    m: Market, n: Market, sp: SubPool, env: Envelope, d: Direction, gross: u64, id: nat, ps: map<nat, Position>)
    requires n == m.(mode := n.mode) && WorldOk(sp, ps) && Funds(sp) < U128
    ensures SameAnswer(Paired(OpenPosition(m, sp, env, d, gross, id)), Paired(OpenPosition(n, sp, env, d, gross, id)))
  {
    hide WorldOk, SyncPool, OpenPosition, OpenSynced, Alike, Funds, Paired;
    OpenIs(m, sp, env, d, gross, id);
    OpenIs(n, sp, env, d, gross, id);
    SyncModes(m, n, sp, env, ps);
    var r, t := SyncPool(m, sp, env), SyncPool(n, sp, env);
    if r.Ok? {
      OpenSyncedSame(m, n, sp.id, r.value.0, t.value.0, d, gross, id, r.value.1.events);
    }
  }

  lemma RedeemKeepsLog(s: Store, tick: int, burn: nat)
    requires Redeem(s, tick, burn).Ok?
    ensures SameLog(s, Redeem(s, tick, burn).value.0)
  {
    hide PendingsOf, CaughtUpAll, Sum, RedeemFrom;
  }

  lemma RedeemTwins(s: Store, t: Store, tick: int, burn: nat)
    requires Twin(s, t) && Value(s) < U128
    ensures
      var r, q := Redeem(s, tick, burn), Redeem(t, tick, burn);
      && (r.Err? ==> q == r)
      && (r.Ok? ==> q.Ok? && q.value.1 == r.value.1 && Twin(r.value.0, q.value.0))
  {
    hide Redeem, Inv, View, IdealRedeem, Value;
    RedeemRefines(s, tick, burn);
    RedeemRefines(t, tick, burn);
    if Redeem(s, tick, burn).Ok? {
      RedeemKeepsLog(s, tick, burn);
    }
    if Redeem(t, tick, burn).Ok? {
      RedeemKeepsLog(t, tick, burn);
    }
  }

  lemma RedeemSame(p: Pool, q: Pool, pos: Position)
    requires SameFace(p, q) && Value(p.store) < U128
    ensures SamePaid(Paired(RedeemRecovery(p, pos)), Paired(RedeemRecovery(q, pos)))
  {
    hide Redeem, Twin, Value;
    if pos.recovery > 0 && pos.tick.Some? {
      RedeemTwins(p.store, q.store, pos.tick.value, pos.recovery);
    }
  }

  lemma CloseActiveSame(p: Pool, q: Pool, pos: Position)
    requires SameFace(p, q)
    ensures LazyMigrate(q, pos) == LazyMigrate(p, pos)
    ensures SamePaid(Paired(CloseActive(p, pos)), Paired(CloseActive(q, pos)))
    ensures CloseActive(p, pos).Ok? ==> CloseActive(p, pos).value.0.store == p.store
    ensures SamePaid(BurnWorthless(p, pos), BurnWorthless(q, pos))
    ensures BurnWorthless(p, pos).Ok? ==> BurnWorthless(p, pos).value.0.store == p.store
  {
    hide Twin, MulDivFloor, FindRecord;
  }

  lemma CloseSyncedSame(id: nat, sp: SubPool, sq: SubPool, pos: Position, events: seq<EngineEvent>)
    requires Alike(sp, sq) && Value(sp.Side(pos.direction).store) < U128
    ensures SameAnswer(Paired(CloseSynced(id, sp, pos, events)), Paired(CloseSynced(id, sq, pos, events)))
  {
    hide Alike, SameFace, CheckSubPool, LazyMigrate, CloseActive, RedeemRecovery, Value;
    var d := pos.direction;
    AlikeSide(sp, sq, d);
    if LazyMigrate(sp.Side(d), pos).Ok? {
      var pos1 := LazyMigrate(sp.Side(d), pos).value;
      CloseActiveSame(sp.Side(d), sq.Side(d), pos);
      CloseActiveSame(sp.Side(d), sq.Side(d), pos1);
      var a, b := CloseActive(sp.Side(d), pos1), CloseActive(sq.Side(d), pos1);
      if a.Ok? {
        RedeemSame(a.value.0, b.value.0, a.value.1);
        var r, t := RedeemRecovery(a.value.0, a.value.1), RedeemRecovery(b.value.0, b.value.1);
        if r.Ok? {
          AlikeWith(sp, sq, d, r.value.0, t.value.0);
          ChecksAlike(sp.With(d, r.value.0), sq.With(d, t.value.0));
        }
      }
    } else {
      CloseActiveSame(sp.Side(d), sq.Side(d), pos);
    }
  }

  /** A store after a sync is within the funds. */
  lemma SyncedFits(m: Market, sp: SubPool, env: Envelope, ps: map<nat, Position>, d: Direction)
    requires WorldOk(sp, ps) && Funds(sp) < U128 && SyncPool(m, sp, env).Ok?
    ensures Value(SyncPool(m, sp, env).value.0.Side(d).store) < U128
  {
    hide WorldOk, SyncPool, SideFunds;
    SyncConserves(m, sp, env, ps);
    StoreWithinSide(SyncPool(m, sp, env).value.0.Side(d));
  }

  lemma CloseModes(m: Market, n: Market, sp: SubPool, env: Envelope, pos: Position, ps: map<nat, Position>)
    requires n == m.(mode := n.mode) && WorldOk(sp, ps) && Funds(sp) < U128
    ensures SameAnswer(Paired(ClosePosition(m, sp, env, pos)), Paired(ClosePosition(n, sp, env, pos)))
  {
    hide WorldOk, SyncPool, CloseSynced, Alike, Funds, Value;
    SyncModes(m, n, sp, env, ps);
    var r, t := SyncPool(m, sp, env), SyncPool(n, sp, env);
    if r.Ok? {
      SyncedFits(m, sp, env, ps, pos.direction);
      CloseSyncedSame(sp.id, r.value.0, t.value.0, pos, r.value.1.events);
    }
  }

  lemma DustSame(p: Pool, q: Pool, dust: nat)
    requires SameFace(p, q)
    ensures SameFace(p.(dust := dust), q.(dust := dust))
  {
    hide Twin;
  }

  lemma ForceCloseSyncedSame(id: nat, sp: SubPool, sq: SubPool, pos: Position, events: seq<EngineEvent>)
    requires Alike(sp, sq) && Value(sp.Side(pos.direction).store) < U128
    ensures SameAnswer(Paired(ForceCloseSynced(id, sp, pos, events)), Paired(ForceCloseSynced(id, sq, pos, events)))
  {
    hide Alike, SameFace, CheckSubPool, LazyMigrate, BurnWorthless, RedeemRecovery, Value;
    var d := pos.direction;
    AlikeSide(sp, sq, d);
    CloseActiveSame(sp.Side(d), sq.Side(d), pos);
    if LazyMigrate(sp.Side(d), pos).Ok? {
      var pos1 := LazyMigrate(sp.Side(d), pos).value;
      CloseActiveSame(sp.Side(d), sq.Side(d), pos1);
      var a, b := BurnWorthless(sp.Side(d), pos1), BurnWorthless(sq.Side(d), pos1);
      if a.Ok? {
        RedeemSame(a.value.0, b.value.0, a.value.1);
        var r, t := RedeemRecovery(a.value.0, a.value.1), RedeemRecovery(b.value.0, b.value.1);
        if r.Ok? {
          FaceFields(r.value.0, t.value.0);
          var dust := if r.value.2.redeemable > 0 then r.value.0.dust + r.value.2.redeemable else r.value.0.dust;
          DustSame(r.value.0, t.value.0, dust);
          AlikeWith(sp, sq, d, r.value.0.(dust := dust), t.value.0.(dust := dust));
          ChecksAlike(sp.With(d, r.value.0.(dust := dust)), sq.With(d, t.value.0.(dust := dust)));
        }
      }
    }
  }

  lemma ForceCloseModes(m: Market, n: Market, sp: SubPool, env: Envelope, pos: Position, ack: bool, ps: map<nat, Position>)
    requires n == m.(mode := n.mode) && WorldOk(sp, ps) && Funds(sp) < U128
    ensures SameAnswer(Paired(ForceClose(m, sp, env, pos, ack)), Paired(ForceClose(n, sp, env, pos, ack)))
  {
    hide WorldOk, SyncPool, ForceCloseSynced, Alike, Funds, Value;
    SyncModes(m, n, sp, env, ps);
    var r, t := SyncPool(m, sp, env), SyncPool(n, sp, env);
    if r.Ok? {
      SyncedFits(m, sp, env, ps, pos.direction);
      ForceCloseSyncedSame(sp.id, r.value.0, t.value.0, pos, r.value.1.events);
    }
  }

  lemma ClaimSyncedSame(id: nat, sp: SubPool, sq: SubPool, pos: Position, events: seq<EngineEvent>)
    requires Alike(sp, sq) && Value(sp.Side(pos.direction).store) < U128
    ensures SameAnswer(Paired(ClaimSynced(id, sp, pos, events)), Paired(ClaimSynced(id, sq, pos, events)))
  {
    hide Alike, SameFace, CheckSubPool, LazyMigrate, RedeemRecovery, Value;
    var d := pos.direction;
    AlikeSide(sp, sq, d);
    CloseActiveSame(sp.Side(d), sq.Side(d), pos);
    if LazyMigrate(sp.Side(d), pos).Ok? {
      var pos1 := LazyMigrate(sp.Side(d), pos).value;
      RedeemSame(sp.Side(d), sq.Side(d), pos1);
      var r, t := RedeemRecovery(sp.Side(d), pos1), RedeemRecovery(sq.Side(d), pos1);
      if r.Ok? {
        AlikeWith(sp, sq, d, r.value.0, t.value.0);
        ChecksAlike(sp.With(d, r.value.0), sq.With(d, t.value.0));
      }
    }
  }

  lemma ClaimModes(m: Market, n: Market, sp: SubPool, env: Envelope, pos: Position, ps: map<nat, Position>)
    requires n == m.(mode := n.mode) && WorldOk(sp, ps) && Funds(sp) < U128
    ensures SameAnswer(Paired(ClaimRecovery(m, sp, env, pos)), Paired(ClaimRecovery(n, sp, env, pos)))
  {
    hide WorldOk, SyncPool, ClaimSynced, Alike, Funds, Value;
    SyncModes(m, n, sp, env, ps);
    var r, t := SyncPool(m, sp, env), SyncPool(n, sp, env);
    if r.Ok? {
      SyncedFits(m, sp, env, ps, pos.direction);
      ClaimSyncedSame(sp.id, r.value.0, t.value.0, pos, r.value.1.events);
    }
  }

  /** A pre-sync and a harvest do not look at the mode at all. */
  lemma ModelessOps(m: Market, n: Market, sp: SubPool, d: Direction, tick: int)
    requires n == m.(mode := n.mode)
    ensures PreSyncBucket(n, sp, d, tick) == PreSyncBucket(m, sp, d, tick)
    ensures HarvestDust(n, sp, d) == HarvestDust(m, sp, d)
  {
    hide CheckSubPool, ApplyBucket;
  }

  // ---------------------------------------------------------------- steps

  /** The same refusal, or the same effect on worlds that look alike. */
  ghost predicate SameStep(r: ClearingResult<(World, Effect)>, t: ClearingResult<(World, Effect)>) {
    match r
    case Err(_) => t == r
    case Ok((w, e)) => t.Ok? && t.value.1 == e && t.value.0.ps == w.ps && Alike(w.sp, t.value.0.sp)
  }

  lemma SameAnswerOk<T>(r: ClearingResult<(SubPool, T)>)
    requires r.Ok? ==> Inv(r.value.0.long.store) && Inv(r.value.0.short.store)
    ensures SameAnswer(r, r)
  {
    hide Inv, SameFace;
    if r.Ok? {
      FaceSelf(r.value.0.long);
      FaceSelf(r.value.0.short);
    }
  }

  /**
    One operation on the same world in either mode, whatever is pending in it: the same error, or
    the same effect, positions and faces.
  */
  lemma StepModes(m: Market, n: Market, w: World, op: EngineOp)
    requires n == m.(mode := n.mode) && Sound(w) && Applicable(w, op) && Funds(w.sp) < U128
    ensures SameStep(EngineStep(m, w, op), EngineStep(n, w, op))
  {
    hide WorldOk, Alike, SyncPool, OpenPosition, ClosePosition, ForceClose, ClaimRecovery, PreSyncBucket, HarvestDust,
      Funds;
    match op
    case SyncOp(env) => SyncModes(m, n, w.sp, env, w.ps);
    case OpenOp(env, d, gross, id) => OpenModes(m, n, w.sp, env, d, gross, id, w.ps);
    case CloseOp(env, id) => CloseModes(m, n, w.sp, env, w.ps[id], w.ps);
    case ForceCloseOp(env, id, ack) => ForceCloseModes(m, n, w.sp, env, w.ps[id], ack, w.ps);
    case ClaimOp(env, id) => ClaimModes(m, n, w.sp, env, w.ps[id], w.ps);
    case PreSyncOp(d, tick) =>
      ModelessOps(m, n, w.sp, d, tick);
      PreSyncKeepsWorld(m, w.sp, d, tick, w.ps);
      if PreSyncBucket(m, w.sp, d, tick).Ok? {
        InvOfWorld(PreSyncBucket(m, w.sp, d, tick).value.0, w.ps);
      }
      SameAnswerOk(PreSyncBucket(m, w.sp, d, tick));
    case HarvestOp(d) =>
      ModelessOps(m, n, w.sp, d, 0);
      HarvestKeepsWorld(m, w.sp, d, w.ps);
      if HarvestDust(m, w.sp, d).Ok? {
        InvOfWorld(HarvestDust(m, w.sp, d).value.0, w.ps);
      }
      SameAnswerOk(HarvestDust(m, w.sp, d));
  }

  // ---------------------------------------------------------------- draining

  /** `apply_pending_to_all` on both stores. */
  ghost function DrainAll(sp: SubPool): ClearingResult<SubPool> {
    var l :- ApplyAll(sp.long.store);
    var s :- ApplyAll(sp.short.store);
    Ok(sp.(long := sp.long.(store := l), short := sp.short.(store := s)))
  }

  ghost predicate AllDrained(s: Store) {
    && s.pendingTotal == 0
    && forall k :: k in s.buckets ==> Drained(s, s.buckets[k])
  }

  lemma DrainStore(s: Store)
    requires Inv(s) && Value(s) < U128
    ensures ApplyAll(s).Ok?
    ensures
      var s' := ApplyAll(s).value;
      && Inv(s') && View(s') == View(s) && SameLog(s, s') && Value(s') == Value(s) && AllDrained(s')
  {
    hide ApplyKeys, Inv, View, HeadShare, Value;
    ApplyKeysRefines(s, s.buckets.Keys);
    var s' := ApplyAll(s).value;
    forall k | k in s'.buckets
      ensures Drained(s', s'.buckets[k])
    {
    }
    NothingOwed(s');
  }

  lemma NothingOwed(s: Store)
    requires Inv(s) && forall k :: k in s.buckets ==> Drained(s, s.buckets[k])
    ensures s.pendingTotal == 0
  {
    hide Inv, HeadShare, Sum;
    forall k | k in s.buckets
      ensures HeadShares(s)[k] == 0
    {
      DrainedOwesNothing(s, k);
    }
    SumZero(HeadShares(s));
    PendingIsHeads(s);
  }

  /** A drained store is determined by its log, its view and its total. */
  lemma DrainedUnique(s: Store, t: Store)
    requires Inv(s) && Inv(t) && AllDrained(s) && AllDrained(t)
    requires SameLog(s, t) && View(t) == View(s) && Value(t) == Value(s)
    ensures t == s
  {
    hide Inv, View, HeadShare;
    ViewSize(s);
    ViewSize(t);
    forall k | k in s.buckets
      ensures t.buckets[k] == s.buckets[k]
    {
      ViewAt(s, k);
      ViewAt(t, k);
      DrainedOwesNothing(s, k);
      DrainedOwesNothing(t, k);
    }
    assert t.buckets == s.buckets;
  }

  lemma DrainTwins(s: Store, t: Store)
    requires Twin(s, t) && Value(s) < U128
    ensures ApplyAll(s).Ok? && ApplyAll(t) == ApplyAll(s)
  {
    hide ApplyAll, Inv, View, Value, AllDrained;
    DrainStore(s);
    DrainStore(t);
    DrainedUnique(ApplyAll(s).value, ApplyAll(t).value);
  }

  /** Sub pools that look alike are the same once drained. */
  lemma DrainAlike(sp: SubPool, sq: SubPool)
    requires Alike(sp, sq) && Funds(sp) < U128
    ensures DrainAll(sp).Ok? && DrainAll(sq) == DrainAll(sp)
  {
    hide ApplyAll, Twin, Value;
    DrainTwins(sp.long.store, sq.long.store);
    DrainTwins(sp.short.store, sq.short.store);
  }

  lemma DrainSide(p: Pool, p': Pool, d: Direction, ps: map<nat, Position>)
    requires SideOk(p, d, ps) && Value(p.store) < U128
    requires ApplyAll(p.store).Ok? && p' == p.(store := ApplyAll(p.store).value)
    ensures SideOk(p', d, ps) && SideFunds(p') == SideFunds(p) && AllDrained(p'.store)
  {
    hide PoolOk, PoolBacked, HoldingsOf, SideOk, Inv, StoreShares.SharesOf, ApplyAll, View, Value, AllDrained;
    SideParts(p, d, ps);
    PoolParts(p, d);
    DrainStore(p.store);
    StoreShares.ViewShares(p.store);
    StoreShares.ViewShares(p'.store);
    SharesOnlyMatter(p, p', d, HoldingsOf(p, d, ps));
    SameLogSameHoldings(p, p', d, ps);
    SideFrom(p', d, ps);
  }

  ghost predicate FullyDrained(sp: SubPool) {
    AllDrained(sp.long.store) && AllDrained(sp.short.store)
  }

  lemma DrainIs(sp: SubPool, ps: map<nat, Position>)
    requires WorldOk(sp, ps) && Funds(sp) < U128
    ensures DrainAll(sp).Ok? && WorldOk(DrainAll(sp).value, ps)
    ensures FullyDrained(DrainAll(sp).value) && Funds(DrainAll(sp).value) == Funds(sp)
  {
    hide SideOk, SideFunds, ApplyAll, PosOk, Value, Inv, AllDrained;
    InvOfWorld(sp, ps);
    StoreWithinSide(sp.long);
    StoreWithinSide(sp.short);
    DrainStore(sp.long.store);
    DrainStore(sp.short.store);
    var sp' := DrainAll(sp).value;
    DrainSide(sp.long, sp'.long, Long, ps);
    DrainSide(sp.short, sp'.short, Short, ps);
  }

  /** On a drained sub pool a pre-sync has nothing to do. */
  lemma PreSyncIsNil(m: Market, w: World, d: Direction, tick: int)
    requires Sound(w) && FullyDrained(w.sp) && EngineStep(m, w, PreSyncOp(d, tick)).Ok?
    ensures
      EngineStep(m, w, PreSyncOp(d, tick))
        == Ok((w, Effect(0, 0, 0, 0, [DormantBucketPendingApplied(w.sp.id, d, tick, 0)])))
  {
    hide WorldOk, Inv, CheckSubPool, ApplyBucket;
    InvOfWorld(w.sp, w.ps);
    DrainedApply(w.sp.Side(d).store, tick);
  }

  lemma DrainedApply(s: Store, tick: int)
    requires Inv(s) && AllDrained(s)
    ensures ApplyBucket(s, tick) == Ok(s)
  {
    hide Inv, View, HeadShare, ApplyKeys, SettledBuckets;
    ApplyKeysRefines(s, {tick});
    TotalsBound(s);
    NothingOwed(s);
    assert Value(s) < U128;
    var s' := ApplyBucket(s, tick).value;
    SettledDrained(s, tick);
    assert forall k :: k in s'.buckets ==> Drained(s', s'.buckets[k]);
    NothingOwed(s');
  }

  lemma SettledDrained(s: Store, tick: int)
    requires Inv(s) && AllDrained(s)
    ensures SettledBuckets(s, {tick}) == s.buckets
  {
    hide Inv, HeadShare;
    forall k | k in s.buckets
      ensures SettledBuckets(s, {tick})[k] == s.buckets[k]
    {
      DrainedOwesNothing(s, k);
    }
  }

  // ---------------------------------------------------------------- runs

  /** What the caller of one operation sees; an operation on a position that does not exist is not issued. */
  datatype Reply = Done(effect: Effect) | Refused(error: ClearingError) | Unissued

  /** One operation, then a full drain; a refused operation leaves the world as it was. */
  ghost function DrainedStep(m: Market, w: World, op: EngineOp): (World, Reply) {
    if !Applicable(w, op) then (w, Unissued)
    else
      match EngineStep(m, w, op)
      case Err(e) => (w, Refused(e))
      case Ok((w', effect)) =>
        match DrainAll(w'.sp)
        case Err(e) => (w, Refused(e))
        case Ok(sp) => (w'.(sp := sp), Done(effect))
  }

  ghost function DrainedRun(m: Market, w: World, ops: seq<EngineOp>): (World, seq<Reply>)
    decreases |ops|
  {
    if ops == [] then (w, [])
    else
      var (w1, reply) := DrainedStep(m, w, ops[0]);
      var (w2, replies) := DrainedRun(m, w1, ops[1..]);
      (w2, [reply] + replies)
  }

  function Deposit(op: EngineOp): nat {
    if op.OpenOp? then op.gross else 0
  }

  /** All that a run may bring in. */
  function Deposits(ops: seq<EngineOp>): nat
    decreases |ops|
  {
    if ops == [] then 0 else Deposit(ops[0]) + Deposits(ops[1..])
  }

  /** One drained step: the two engines do exactly the same. */
  lemma DrainedStepModes(m: Market, n: Market, w: World, op: EngineOp)
    requires n == m.(mode := n.mode) && Sound(w) && Funds(w.sp) + Deposit(op) < U128
    ensures DrainedStep(n, w, op) == DrainedStep(m, w, op)
    ensures
      var (w', reply) := DrainedStep(m, w, op);
      && Sound(w') && Funds(w'.sp) <= Funds(w.sp) + Deposit(op)
      && (reply.Done? ==> FullyDrained(w'.sp))
      && (reply.Refused? ==> EngineStep(m, w, op) == Err(reply.error))
  {
    hide WorldOk, Alike, EngineStep, DrainAll, Funds, FullyDrained;
    if Applicable(w, op) {
      StepModes(m, n, w, op);
      StepKeepsWorld(m, w, op);
      if EngineStep(m, w, op).Ok? {
        var w', v' := EngineStep(m, w, op).value.0, EngineStep(n, w, op).value.0;
        DrainIs(w'.sp, w'.ps);
        DrainAlike(w'.sp, v'.sp);
      }
    }
  }

  /**
    Whole-engine agreement: with a full drain after every operation, two markets that differ only
    in their distribution mode are in lockstep. Every operation gets the same reply, effect or
    error, and the final worlds are equal; the only bound is that the money fits 128 bits.
  */
  lemma {:induction false} ModesAgree(m: Market, n: Market, w: World, ops: seq<EngineOp>)
    requires n == m.(mode := n.mode) && Sound(w) && Funds(w.sp) + Deposits(ops) < U128
    ensures DrainedRun(n, w, ops) == DrainedRun(m, w, ops)
    decreases |ops|
  {
    if ops == [] {
    } else {
      hide Sound, DrainedStep, Funds, FullyDrained;
      DrainedStepModes(m, n, w, ops[0]);
      ModesAgree(m, n, DrainedStep(m, w, ops[0]).0, ops[1..]);
    }
  }

  lemma {:induction false} DepositsBound(ops: seq<EngineOp>)
    ensures Deposits(ops) <= |ops| * (U64 - 1)
    decreases |ops|
  {
    if ops == [] {
    } else {
      DepositsBound(ops[1..]);
      assert |ops| == 1 + |ops[1..]|;
    }
  }

  lemma FreshFundsAreNil(id: nat, price: nat, slot: nat)
    ensures Funds(NewSubPool(id, price, slot)) == 0
  {
  }

  /**
    In particular from a fresh sub pool, for every run of at most 2^64 operations, whatever the
    prices, the amounts and the capacities.
  */
  lemma LazyEngineIsEager(m: Market, n: Market, id: nat, price: nat, slot: nat, ops: seq<EngineOp>)
    requires m.mode.Eager? && n == m.(mode := Lazy) && |ops| <= U64
    ensures
      var start := World(NewSubPool(id, price, slot), map[]);
      DrainedRun(n, start, ops) == DrainedRun(m, start, ops)
  {
    hide WorldOk, DrainedRun, NewSubPool, Funds, Deposits;
    NewWorldOk(id, price, slot);
    FreshFundsAreNil(id, price, slot);
    DepositsBound(ops);
    assert |ops| * (U64 - 1) <= U64 * (U64 - 1) < U128;
    ModesAgree(m, n, World(NewSubPool(id, price, slot), map[]), ops);
  }
}
