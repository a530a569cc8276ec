/**
  Replay refinement: fed with the events of an engine operation, the indexer again mirrors the sub
  pool, and it can fail only when the profit it books for a position exceeds 128 bits.
*/
module IndexerReplay {
  import opened Wrappers
  import opened MoleMath
  import opened Clearing
  import opened Sums
  import opened Dormant
  import opened DormantInvariant
  import DormantRefinement
  import opened Engine
  import opened Holdings
  import StoreShares
  import opened EngineInvariant
  import opened EngineSync
  import EnginePositions
  import EngineOperations
  import opened EngineRuns
  import opened ChainMirror
  import opened Indexer
  import opened IndexerViews
  import opened IndexerEvents

  // ---------------------------------------------------------------- views against the population

  lemma ActiveViewsWithin(x: State, id: nat, sp: SubPool, ps: map<nat, Position>, d: Direction)
    requires ShowsPositions(x, id, sp, ps) && PoolBacked(sp.Side(d), HoldingsOf(sp.Side(d), d, ps))
    ensures ActiveWithin(x, id, d, sp.Side(d).shares)
  {
    var p := sp.Side(d);
    var hs := HoldingsOf(p, d, ps);
    hide HoldingOf, Recoveries, Sum, BucketShares, SubPoolAt;
    forall i | i in x.positions && IsActive(x.positions[i], id, d, SubPoolAt(x, id).Side(d).generation)
      ensures x.positions[i].active <= p.shares
    {
      assert i in ps && ShowsPosition(x.positions[i], id, sp.Side(ps[i].direction), ps[i]);
      SumAtLeast(Actives(hs), i);
    }
  }

  lemma RestingViewsWithin(x: State, id: nat, sp: SubPool, ps: map<nat, Position>, d: Direction)
    requires ShowsPositions(x, id, sp, ps) && PositionsOk(sp, ps)
    requires SideBuckets(x, id, d) == Stripped(View(sp.Side(d).store)) && Inv(sp.Side(d).store)
    requires PoolBacked(sp.Side(d), HoldingsOf(sp.Side(d), d, ps)) && LogOk(sp.Side(d).log, sp.Side(d).generation)
    ensures RestsWithin(x, id, d)
  {
    hide HoldingsOf, Backed, LogOk, SideBuckets, View, Inv, SubPoolAt;
    var p := sp.Side(d);
    forall i | i in x.positions && HomeKey(x.positions[i]) in x.buckets && x.positions[i].subPool == id
               && x.positions[i].direction == d && RestsIn(x.positions[i], HomeKey(x.positions[i]))
      ensures x.positions[i].recovery <= x.buckets[HomeKey(x.positions[i])].shares
    {
      var v := x.positions[i];
      assert i in ps && ShowsPosition(v, id, sp.Side(ps[i].direction), ps[i]);
      var t := v.tick.value;
      RestingAt(p, d, ps, i, t);
      SideBucketsAt(x, id, d, t);
      StoreShares.ViewShares(p.store);
      StrippedShares(p.store, t);
    }
  }

  /** A holding's recovery shares are within its bucket's. */
  lemma RestingAt(p: Pool, d: Direction, ps: map<nat, Position>, i: nat, t: int)
    requires i in ps && ps[i].direction == d && PosOk(p.generation, ps[i]) && LogOk(p.log, p.generation)
    requires PoolBacked(p, HoldingsOf(p, d, ps))
    requires TickOf(p, ps[i]) == Some(t) && HoldingOf(p, ps[i]).recovery > 0
    ensures t in StoreShares.SharesOf(p.store) && HoldingOf(p, ps[i]).recovery <= StoreShares.SharesOf(p.store)[t]
  {
    var hs := HoldingsOf(p, d, ps);
    assert hs[i] == HoldingOf(p, ps[i]) && hs[i].tick == t;
    SumAtLeast(Recoveries(hs, t), i);
    hide Sum, BucketShares;
  }

  lemma StrippedShares(s: Store, t: int)
    requires Inv(s) && t in StoreShares.SharesOf(s)
    ensures t in Stripped(View(s)) && Stripped(View(s))[t].shares == StoreShares.SharesOf(s)[t]
  {
    DormantRefinement.ViewAt(s, t);
    hide View, Inv;
  }

  lemma ViewFacts(p: Pool, d: Direction, ps: map<nat, Position>)
    requires SideOk(p, d, ps)
    ensures forall t :: t in View(p.store) ==> View(p.store)[t].shares > 0
  {
    EngineOperations.SideParts(p, d, ps);
    EnginePositions.PoolParts(p, d);
    StoreShares.ViewShares(p.store);
    hide View, Inv, HoldingsOf, PoolOk;
    forall t | t in View(p.store)
      ensures View(p.store)[t].shares > 0
    {
      assert t in BucketShares(View(p.store));
      assert StoreShares.SharesOf(p.store)[t] > 0;
    }
  }

  lemma ViewAccruals(s: Store)
    requires Inv(s)
    ensures forall t :: t in View(s) ==> View(s)[t].accrued < U128
  {
    forall t | t in View(s)
      ensures View(s)[t].accrued < U128
    {
      DormantRefinement.ViewAt(s, t);
      assert BucketOk(s, s.buckets[t]);
      HeadStaysInRange(s, s.buckets[t]);
    }
  }

  // ---------------------------------------------------------------- gains of one side

  /** Outside one side, bucket views are the same. */
  ghost predicate SameBucketsElsewhere(x: State, x': State, id: nat, d: Direction) {
    forall k: Key :: !(k.subPool == id && k.direction == d) ==>
      (k in x'.buckets <==> k in x.buckets) && (k in x.buckets ==> x'.buckets[k] == x.buckets[k])
  }

  lemma MoneyKeepsWithin(x: State, x': State, id: nat, d: Direction, total: nat)
    requires OnlyMoney(x, x', id)
    ensures ActiveWithin(x, id, d, total) ==> ActiveWithin(x', id, d, total)
    ensures RestsWithin(x, id, d) && (forall k: Key :: k.subPool == id && k.direction == d ==>
        (k in x'.buckets <==> k in x.buckets) && (k in x.buckets ==> x'.buckets[k] == x.buckets[k]))
      ==> RestsWithin(x', id, d)
  {
    hide SubPoolAt;
  }

  lemma MoneyTwice(x: State, y: State, z: State, id: nat)
    requires OnlyMoney(x, y, id) && OnlyMoney(y, z, id)
    ensures OnlyMoney(x, z, id)
  {
    hide SubPoolAt;
  }

  lemma WiderProfits(x: State, a: nat, b: nat)
    requires ProfitsWithin(x, a) && a <= b
    ensures ProfitsWithin(x, b)
  {
  }

  /** What replaying the gains of a side achieves. */
  ghost predicate SideGained(x: State, r: IndexerResult<State>, id: nat, d: Direction, s': Store, bound: nat, more: nat) {
    && (r.Err? ==> r.error == IndexerOverflow)
    && (bound + more < U128 ==> r.Ok?)
    && (r.Ok? ==>
          && OnlyMoney(x, r.value, id) && SameBucketsElsewhere(x, r.value, id, d)
          && SideBuckets(r.value, id, d) == Stripped(View(s'))
          && MoneyOk(r.value) && ProfitsWithin(r.value, bound + more))
  }

  /** The steps of `SideGains`. */
  lemma SideGainsUnfolds(x: State, id: nat, d: Direction, f: Flow, shares: nat, price: nat)
    requires f.toRecovery + f.residual < U128
    ensures
      var r := SideGains(x, id, d, f, shares, price);
      var first := if f.toPool > 0 then ActiveProfit(x, id, d, f.toPool, shares) else Ok(x);
      var amount := f.toRecovery + f.residual;
      && (first.Err? || amount == 0 ==> r == first)
      && (first.Ok? && amount > 0 ==> r == RecoveryProfit(first.value, id, d, amount, price))
  {
    hide ActiveProfit, RecoveryProfit;
  }

  /** The dormant part of the gains. */
  lemma RecoveryGained(
    x: State, id: nat, d: Direction, p: Pool, p': Pool, own: Flow, other: Flow, ps: map<nat, Position>, pNow: nat, bound: nat)
    requires SideOk(p, d, ps) && SideExchanged(p, p', own, other, pNow) && Inv(p'.store)
    requires SideBuckets(x, id, d) == Stripped(View(p.store)) && own.toRecovery + own.residual > 0
    requires RestsWithin(x, id, d) && MoneyOk(x) && ProfitsWithin(x, bound)
    ensures
      var amount := own.toRecovery + own.residual;
      SideGained(x, RecoveryProfit(x, id, d, amount, pNow), id, d, p'.store, bound, amount)
  {
    hide RecoveryProfit, SideBuckets, View, Inv, SideOk, OnlyMoney, MoneyOk, ProfitsWithin, RestsWithin, Stripped,
      SideExchanged, IdealDistribute;
    ExchangedIdeal(p, p', own, other, pNow);
    StoreParts(p, d, ps);
    ViewFacts(p, d, ps);
    ViewAccruals(p'.store);
    RecoveryProfitIs(x, id, d, own.toRecovery + own.residual, pNow, View(p.store), View(p'.store),
                     Receipt(own.toRecovery, own.residual), bound);
  }

  /** The active part of the gains. */
  lemma ActiveGained(x: State, id: nat, d: Direction, inflow: nat, shares: nat, bound: nat)
    requires inflow > 0 ==> shares > 0
    requires inflow < U128 && ActiveWithin(x, id, d, shares) && RestsWithin(x, id, d) && MoneyOk(x) && ProfitsWithin(x, bound)
    ensures
      var first := if inflow > 0 then ActiveProfit(x, id, d, inflow, shares) else Ok(x);
      && (first.Err? ==> first.error == IndexerOverflow)
      && (bound + inflow < U128 ==> first.Ok?)
      && (first.Ok? ==>
            var x1 := first.value;
            && OnlyMoney(x, x1, id) && x1.buckets == x.buckets
            && MoneyOk(x1) && ProfitsWithin(x1, bound + inflow) && RestsWithin(x1, id, d)
            && SideBuckets(x1, id, d) == SideBuckets(x, id, d))
  {
    hide ActiveProfit, SideBuckets, OnlyMoney, MoneyOk, ProfitsWithin, ActiveWithin, RestsWithin, SubPoolAt;
    SameMoney(x, id, bound, inflow);
    if inflow > 0 {
      ActiveProfitIs(x, id, d, inflow, shares, bound);
    }
    var first := if inflow > 0 then ActiveProfit(x, id, d, inflow, shares) else Ok(x);
    if first.Ok? {
      MoneyKeepsWithin(x, first.value, id, d, shares);
      BucketsDecide(x, first.value, id, d);
    }
  }

  /** A side that gains, replayed. */
  lemma SideGainsIs(
    x: State, id: nat, d: Direction, p: Pool, p': Pool, own: Flow, other: Flow, ps: map<nat, Position>, pNow: nat, bound: nat)
    requires SideOk(p, d, ps) && SideExchanged(p, p', own, other, pNow) && Inv(p'.store)
    requires own.toPool > 0 ==> p.shares > 0
    requires Amount(own) < U128
    requires SideBuckets(x, id, d) == Stripped(View(p.store))
    requires ActiveWithin(x, id, d, p.shares) && RestsWithin(x, id, d) && MoneyOk(x) && ProfitsWithin(x, bound)
    ensures SideGained(x, SideGains(x, id, d, own, p.shares, pNow), id, d, p'.store, bound, Amount(own))
  {
    hide ActiveProfit, RecoveryProfit, SideGains, SideBuckets, View, Inv, SideOk, OnlyMoney, MoneyOk, ProfitsWithin,
      ActiveWithin, RestsWithin, Stripped, SideExchanged;
    var amount := own.toRecovery + own.residual;
    SideGainsUnfolds(x, id, d, own, p.shares, pNow);
    ActiveGained(x, id, d, own.toPool, p.shares, bound);
    ExchangedIdeal(p, p', own, other, pNow);
    var first := if own.toPool > 0 then ActiveProfit(x, id, d, own.toPool, p.shares) else Ok(x);
    if first.Ok? && amount > 0 {
      RecoveryGained(first.value, id, d, p, p', own, other, ps, pNow, bound + own.toPool);
      MoneyAfter(x, first.value, SideGains(x, id, d, own, p.shares, pNow), id);
    }
  }

  lemma MoneyAfter(x: State, y: State, r: IndexerResult<State>, id: nat)
    requires OnlyMoney(x, y, id)
    ensures r.Ok? && OnlyMoney(y, r.value, id) ==> OnlyMoney(x, r.value, id)
  {
    hide SubPoolAt;
  }

  lemma BucketsDecide(x: State, x': State, id: nat, d: Direction)
    requires x'.buckets == x.buckets
    ensures SideBuckets(x', id, d) == SideBuckets(x, id, d)
  {
  }

  lemma StoreParts(p: Pool, d: Direction, ps: map<nat, Position>)
    requires SideOk(p, d, ps)
    ensures Inv(p.store) && p.store.direction == d
  {
    EngineOperations.SideParts(p, d, ps);
    EnginePositions.PoolParts(p, d);
  }

  lemma ExchangedIdeal(p: Pool, p': Pool, own: Flow, other: Flow, pNow: nat)
    requires SideExchanged(p, p', own, other, pNow)
    ensures IdealDistribute(p.store.direction, View(p.store), pNow, own.toRecovery + own.residual)
         == Ok((View(p'.store), Receipt(own.toRecovery, own.residual)))
    ensures own.toRecovery + own.residual == 0 ==> View(p'.store) == View(p.store)
    ensures p'.shares == p.shares && p'.log == p.log && p'.generation == p.generation
  {
    hide View;
  }

  // ---------------------------------------------------------------- the whole sync event

  /** Positions are shown the same against pools with the same logs. */
  lemma ShownAlike(x: State, id: nat, sp: SubPool, mid: SubPool, ps: map<nat, Position>)
    requires ShowsPositions(x, id, sp, ps)
    requires mid.long.log == sp.long.log && mid.short.log == sp.short.log
    requires mid.long.generation == sp.long.generation && mid.short.generation == sp.short.generation
    ensures ShowsPositions(x, id, mid, ps)
  {
    hide SubPoolAt;
    forall i | i in ps
      ensures i in x.positions && ShowsPosition(x.positions[i], id, mid.Side(ps[i].direction), ps[i])
    {
      EnginePositions.SameHolding(sp.Side(ps[i].direction), mid.Side(ps[i].direction), ps[i]);
    }
  }

  lemma ShownSideMoney(x: State, x': State, id: nat, d: Direction, p: Pool, p': Pool)
    requires ShowsSide(x, id, d, p) && OnlyMoney(x, x', id)
    requires SideBuckets(x', id, d) == Stripped(View(p'.store)) && p'.log == p.log && p'.generation == p.generation
    ensures ShowsSide(x', id, d, p')
  {
    hide SideBuckets, Stripped, View, SubPoolAt;
  }

  /** The transfer of a sync, replayed: first the gains of both sides, then the losses. */
  lemma GainsReplayed(
    x: State, id: nat, sp: SubPool, mid: SubPool, ps: map<nat, Position>, long: Flow, short: Flow, pNow: nat, bound: nat)
    requires WorldOk(sp, ps) && Mirrors(x, id, sp, ps) && Exchanged(sp, mid, long, short, pNow) && ProfitsWithin(x, bound)
    ensures
      var r := SideGains(x, id, Long, long, sp.long.shares, pNow);
      && (r.Err? ==> r.error == IndexerOverflow)
      && (bound + Amount(long) < U128 ==> r.Ok?)
      && (r.Ok? ==>
            var r2 := SideGains(r.value, id, Short, short, sp.short.shares, pNow);
            && (r2.Err? ==> r2.error == IndexerOverflow)
            && (bound + Amount(long) + Amount(short) < U128 ==> r2.Ok?)
            && (r2.Ok? ==>
                  && OnlyMoney(x, r2.value, id) && MoneyOk(r2.value)
                  && SideBuckets(r2.value, id, Long) == Stripped(View(mid.long.store))
                  && SideBuckets(r2.value, id, Short) == Stripped(View(mid.short.store))
                  && (forall k: Key :: k.subPool != id ==>
                        (k in r2.value.buckets <==> k in x.buckets) && (k in x.buckets ==> r2.value.buckets[k] == x.buckets[k]))
                  && ProfitsWithin(r2.value, bound + Amount(long) + Amount(short))))
  {
    hide WorldOk, PoolCore, SideGains, SideBuckets, View, SideOk, OnlyMoney, MoneyOk, ProfitsWithin, ActiveWithin,
      RestsWithin, Stripped, SideExchanged, SubPoolAt, ShowsPositions, PositionsOk, Inv, PoolBacked, PoolOk,
      HoldingsOf;
    SidesCore(sp, ps);
    EngineOperations.SideParts(sp.long, Long, ps);
    EngineOperations.SideParts(sp.short, Short, ps);
    EnginePositions.PoolParts(sp.long, Long);
    EnginePositions.PoolParts(sp.short, Short);
    ActiveViewsWithin(x, id, sp, ps, Long);
    ActiveViewsWithin(x, id, sp, ps, Short);
    RestingViewsWithin(x, id, sp, ps, Long);
    RestingViewsWithin(x, id, sp, ps, Short);
    FlowsFit(sp, mid, long, short, pNow, ps);
    SideGainsIs(x, id, Long, sp.long, mid.long, long, short, ps, pNow, bound);
    var r := SideGains(x, id, Long, long, sp.long.shares, pNow);
    if r.Ok? {
      var x1 := r.value;
      MoneyKeepsWithin(x, x1, id, Short, sp.short.shares);
      SameSideBuckets(x, x1, id, Short);
      SideGainsIs(x1, id, Short, sp.short, mid.short, short, long, ps, pNow, bound + Amount(long));
      var r2 := SideGains(x1, id, Short, short, sp.short.shares, pNow);
      if r2.Ok? {
        MoneyTwice(x, x1, r2.value, id);
        SameSideBuckets(x1, r2.value, id, Long);
      }
    }
  }

  /** Flows are paid out of equity that has shares behind it. */
  lemma FlowsFit(sp: SubPool, mid: SubPool, long: Flow, short: Flow, pNow: nat, ps: map<nat, Position>)
    requires WorldOk(sp, ps) && Exchanged(sp, mid, long, short, pNow)
    ensures Amount(long) < U128 && Amount(short) < U128
    ensures Amount(long) > 0 ==> sp.short.shares > 0
    ensures Amount(short) > 0 ==> sp.long.shares > 0
    ensures long.toPool > 0 ==> sp.long.shares > 0
    ensures short.toPool > 0 ==> sp.short.shares > 0
    ensures Inv(mid.long.store) && Inv(mid.short.store)
  {
    hide WorldOk, PoolOk, PoolBacked, SideExchanged, SideOk, PositionsOk, HoldingsOf;
    SidesCore(sp, ps);
    EngineOperations.SideParts(sp.long, Long, ps);
    EngineOperations.SideParts(sp.short, Short, ps);
    EnginePositions.PoolParts(sp.long, Long);
    EnginePositions.PoolParts(sp.short, Short);
    NoNotional(sp.long, Long, ps);
    NoNotional(sp.short, Short, ps);
    PaidWithin(sp.long, mid.long, long, short, pNow);
    PaidWithin(sp.short, mid.short, short, long, pNow);
  }

  lemma NoNotional(p: Pool, d: Direction, ps: map<nat, Position>)
    requires PoolBacked(p, HoldingsOf(p, d, ps))
    ensures p.shares == 0 ==> p.notional == 0
  {
    if p.shares == 0 {
      NoSharesNoNotional(p.shares, p.notional, StoreShares.SharesOf(p.store), HoldingsOf(p, d, ps));
    }
  }

  lemma PaidWithin(p: Pool, p': Pool, own: Flow, other: Flow, pNow: nat)
    requires SideExchanged(p, p', own, other, pNow)
    ensures Amount(other) <= p.equity
  {
    hide Credited;
  }

  lemma LossReplayed(x: State, id: nat, d: Direction, outflow: nat, total: nat, bound: nat)
    requires outflow < U128 && (outflow > 0 ==> total > 0)
    requires ActiveWithin(x, id, d, total) && MoneyOk(x) && ProfitsWithin(x, bound)
    ensures
      var r := if outflow > 0 then ActiveLoss(x, id, d, outflow, total) else Ok(x);
      && r.Ok? && OnlyMoney(x, r.value, id) && r.value.buckets == x.buckets && MoneyOk(r.value) && ProfitsWithin(r.value, bound)
  {
    SameMoney(x, id, bound, 0);
    hide ActiveLoss, OnlyMoney, MoneyOk, ProfitsWithin, ActiveWithin;
    if outflow > 0 {
      ActiveLossIs(x, id, d, outflow, total, bound);
    }
  }

  /** A `PoolSync` event, replayed. */
  lemma SyncReplayed(
    x: State, id: nat, sp: SubPool, mid: SubPool, ps: map<nat, Position>, long: Flow, short: Flow, pNow: nat, bound: nat)
    requires WorldOk(sp, ps) && Mirrors(x, id, sp, ps) && Exchanged(sp, mid, long, short, pNow) && ProfitsWithin(x, bound)
    ensures
      var r := ApplySync(x, id, pNow, sp.long.shares, sp.short.shares, long, short);
      && (r.Err? ==> r.error == IndexerOverflow)
      && (bound + Amount(long) + Amount(short) < U128 ==> r.Ok?)
      && (r.Ok? ==>
            && Mirrors(r.value, id, mid, ps) && Elsewhere(x, r.value, id)
            && ProfitsWithin(r.value, bound + Amount(long) + Amount(short)))
  {
    hide WorldOk, PoolCore, SideGains, SideBuckets, View, SideOk, OnlyMoney, MoneyOk, ProfitsWithin, ActiveWithin,
      RestsWithin, Stripped, SideExchanged, SubPoolAt, ShowsPositions, PositionsOk, Inv, PoolBacked, PoolOk,
      HoldingsOf, ActiveLoss, Elsewhere, ShowsSide, Exchanged;
    GainsReplayed(x, id, sp, mid, ps, long, short, pNow, bound);
    FlowsFit(sp, mid, long, short, pNow, ps);
    SameLogs(sp, mid, long, short, pNow);
    SidesCore(sp, ps);
    EngineOperations.SideParts(sp.long, Long, ps);
    EngineOperations.SideParts(sp.short, Short, ps);
    ActiveViewsWithin(x, id, sp, ps, Long);
    ActiveViewsWithin(x, id, sp, ps, Short);
    var r1 := SideGains(x, id, Long, long, sp.long.shares, pNow);
    if r1.Ok? && SideGains(r1.value, id, Short, short, sp.short.shares, pNow).Ok? {
      var x2 := SideGains(r1.value, id, Short, short, sp.short.shares, pNow).value;
      var b := bound + Amount(long) + Amount(short);
      MoneyKeepsWithin(x, x2, id, Short, sp.short.shares);
      MoneyKeepsWithin(x, x2, id, Long, sp.long.shares);
      LossReplayed(x2, id, Short, Amount(long), sp.short.shares, b);
      var x3 := (if Amount(long) > 0 then ActiveLoss(x2, id, Short, Amount(long), sp.short.shares) else Ok(x2)).value;
      MoneyKeepsWithin(x2, x3, id, Long, sp.long.shares);
      LossReplayed(x3, id, Long, Amount(short), sp.long.shares, b);
      var x4 := (if Amount(short) > 0 then ActiveLoss(x3, id, Long, Amount(short), sp.long.shares) else Ok(x3)).value;
      MoneyTwice(x, x2, x3, id);
      MoneyTwice(x, x3, x4, id);
      BucketsDecide(x2, x4, id, Long);
      BucketsDecide(x2, x4, id, Short);
      MoneyElsewhere(x, x4, id);
      MirrorsAfterMoney(x, x4, id, sp, mid, ps);
    }
  }

  lemma SameLogs(sp: SubPool, mid: SubPool, long: Flow, short: Flow, pNow: nat)
    requires Exchanged(sp, mid, long, short, pNow)
    ensures mid.long.log == sp.long.log && mid.short.log == sp.short.log
    ensures mid.long.generation == sp.long.generation && mid.short.generation == sp.short.generation
  {
    hide PoolCore, Credited;
  }

  lemma MirrorsAfterMoney(x: State, x': State, id: nat, sp: SubPool, mid: SubPool, ps: map<nat, Position>)
    requires Mirrors(x, id, sp, ps) && OnlyMoney(x, x', id) && MoneyOk(x')
    requires SideBuckets(x', id, Long) == Stripped(View(mid.long.store))
    requires SideBuckets(x', id, Short) == Stripped(View(mid.short.store))
    requires mid.long.log == sp.long.log && mid.short.log == sp.short.log
    requires mid.long.generation == sp.long.generation && mid.short.generation == sp.short.generation
    ensures Mirrors(x', id, mid, ps)
  {
    hide SideBuckets, Stripped, View, ShowsPositions, OnlyMoney, ShowsSide, MoneyOk;
    ShownSideMoney(x, x', id, Long, sp.long, mid.long);
    ShownSideMoney(x, x', id, Short, sp.short, mid.short);
    MoneyKeepsPositions(x, x', id, sp, ps);
    ShownAlike(x', id, sp, mid, ps);
  }
}
