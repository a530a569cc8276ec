/**
  What a sync event credits and charges every position view, in plain arithmetic, and that the views
  of a side together are credited what its pool received, up to less than one unit each.
*/
module IndexerTerms {
  import opened Wrappers
  import opened MoleMath
  import opened Clearing
  import opened Sums
  import opened Dormant
  import opened Engine
  import opened Holdings
  import opened EngineInvariant
  import opened EngineSync
  import opened EngineTerms
  import opened ChainMirror
  import opened Indexer
  import opened IndexerViews
  import opened IndexerEvents
  import opened IndexerReplay

  // ---------------------------------------------------------------- one view

  /** A holder gains its part of `inflow`, rounded down. */
  ghost predicate IsGain(v: PositionView, v': PositionView, inflow: nat, total: nat) {
    && v' == v.(profit := v'.profit) && v'.profit >= v.profit
    && IsFloor(v'.profit - v.profit, inflow, v.active, total)
  }

  /** `v'` is `v` after a loss of `loss`: profit goes first, the rest is locked, up to the principal. */
  ghost predicate IsLossOf(v: PositionView, v': PositionView, loss: nat) {
    && v' == v.(profit := v'.profit, lockedLoss := v'.lockedLoss)
    && v'.profit <= v.profit && v'.lockedLoss >= v.lockedLoss
    && (v'.lockedLoss > v.lockedLoss ==> v'.profit == 0 && v'.lockedLoss <= v.principal)
    && (v.profit - v'.profit) + (v'.lockedLoss - v.lockedLoss) <= loss
    && (v.profit >= loss ==> v'.profit == v.profit - loss)
    && (v.profit < loss ==>
          && v'.profit == 0
          && (v'.lockedLoss >= v.principal || v'.lockedLoss - v.lockedLoss == loss - v.profit))
  }

  /** A holder loses its part of `outflow`, rounded down. */
  ghost predicate IsLoss(v: PositionView, v': PositionView, outflow: nat, total: nat) {
    exists loss: nat :: IsFloor(loss, outflow, v.active, total) && IsLossOf(v, v', loss)
  }

  lemma GainedIs(v: PositionView, inflow: nat, total: nat)
    requires total > 0 && Gained(v, inflow, total).Ok?
    ensures IsGain(v, Gained(v, inflow, total).value, inflow, total)
  {
    FloorIs(FloorDiv(inflow, v.active, total), inflow, v.active, total);
    hide FloorDiv, IsFloor;
  }

  lemma LostIs(v: PositionView, outflow: nat, total: nat)
    requires total > 0 && Lost(v, outflow, total).Ok?
    ensures IsLoss(v, Lost(v, outflow, total).value, outflow, total)
  {
    var loss := FloorDiv(outflow, v.active, total);
    FloorIs(loss, outflow, v.active, total);
    hide FloorDiv, IsFloor;
    assert IsLossOf(v, Lost(v, outflow, total).value, loss);
  }

  // ---------------------------------------------------------------- one leg

  /** The active holders of a side in `x`. */
  predicate Holder(x: State, id: nat, d: Direction, p: nat) {
    p in x.positions && IsActive(x.positions[p], id, d, SubPoolAt(x, id).Side(d).generation)
  }

  lemma SubPoolsDecide(x: State, x': State, id: nat)
    requires x'.subPools == x.subPools
    ensures SubPoolAt(x', id) == SubPoolAt(x, id)
  {
  }

  lemma ProfitReaches(x: State, id: nat, d: Direction, inflow: nat, total: nat, p: nat)
    requires ActiveProfit(x, id, d, inflow, total).Ok? && p in x.positions
    ensures
      var x' := ActiveProfit(x, id, d, inflow, total).value;
      && x'.buckets == x.buckets && p in x'.positions && SubPoolAt(x', id) == SubPoolAt(x, id)
      && (if Holder(x, id, d, p) then IsGain(x.positions[p], x'.positions[p], inflow, total)
          else x'.positions[p] == x.positions[p])
  {
    hide Gained, SubPoolAt, IsGain;
    TouchSame(x, id, id);
    SubPoolsDecide(Touch(x, id), ActiveProfit(x, id, d, inflow, total).value, id);
    if Holder(x, id, d, p) {
      GainedIs(x.positions[p], inflow, total);
    }
  }

  lemma LossReaches(x: State, id: nat, d: Direction, outflow: nat, total: nat, p: nat)
    requires ActiveLoss(x, id, d, outflow, total).Ok? && p in x.positions
    ensures
      var x' := ActiveLoss(x, id, d, outflow, total).value;
      && x'.buckets == x.buckets && p in x'.positions && SubPoolAt(x', id) == SubPoolAt(x, id)
      && (if Holder(x, id, d, p) then IsLoss(x.positions[p], x'.positions[p], outflow, total)
          else x'.positions[p] == x.positions[p])
  {
    hide Lost, SubPoolAt, IsLoss;
    TouchSame(x, id, id);
    SubPoolsDecide(Touch(x, id), ActiveLoss(x, id, d, outflow, total).value, id);
    if Holder(x, id, d, p) {
      LostIs(x.positions[p], outflow, total);
    }
  }

  /** A resting view gains its part of what its bucket view was credited, rounded down. */
  ghost predicate IsRestGain(x: State, x': State, v: PositionView, v': PositionView) {
    var k := HomeKey(v);
    && k in x.buckets && k in x'.buckets && x'.buckets[k].accrued >= x.buckets[k].accrued
    && v' == v.(profit := v'.profit) && v'.profit >= v.profit
    && IsFloor(v'.profit - v.profit, x'.buckets[k].accrued - x.buckets[k].accrued, v.recovery, x.buckets[k].shares)
  }

  /** Where a recovery distribution leaves a view and its bucket view. */
  lemma RecoveryStates(x: State, id: nat, d: Direction, amount: nat, price: nat, p: nat)
    requires RecoveryProfit(x, id, d, amount, price).Ok? && p in x.positions
    ensures
      var x' := RecoveryProfit(x, id, d, amount, price).value;
      var total := TotalOutstanding(d, SideBuckets(x, id, d), price);
      var k := HomeKey(x.positions[p]);
      && x'.subPools == x.subPools
      && (total == 0 ==> x' == x)
      && (total > 0 ==>
            && p in x'.positions && x'.positions[p] == RestedPosition(x, x.positions[p], id, d, price, amount, total)
            && (AtHome(x, x.positions[p], id, d) ==>
                  && k in x'.buckets
                  && x'.buckets[k].accrued
                       == x.buckets[k].accrued + BucketPart(AsBucket(x.buckets[k]), d, price, amount, total)))
  {
    hide ClaimsFit, TotalOutstanding, RestedPosition, BucketPart, SideBuckets;
    RecoveryUnfolds(x, id, d, amount, price);
  }

  lemma RecoveryReaches(x: State, id: nat, d: Direction, amount: nat, price: nat, p: nat)
    requires RecoveryProfit(x, id, d, amount, price).Ok? && p in x.positions
    ensures
      var x' := RecoveryProfit(x, id, d, amount, price).value;
      && p in x'.positions && x'.subPools == x.subPools
      && (if AtHome(x, x.positions[p], id, d) then IsRestGain(x, x', x.positions[p], x'.positions[p])
          else x'.positions[p] == x.positions[p])
  {
    hide RecoveryProfit, TotalOutstanding, RestedPosition, BucketPart, SideBuckets, RestGain, IsFloor, RestsIn;
    var v := x.positions[p];
    var total := TotalOutstanding(d, SideBuckets(x, id, d), price);
    RecoveryStates(x, id, d, amount, price, p);
    RestedUnfolds(x, v, id, d, price, amount, total);
    if AtHome(x, v, id, d) {
      var b := AsBucket(x.buckets[HomeKey(v)]);
      RestGainIsFloor(v, b, BucketPart(b, d, price, amount, total));
      RestGainIsFloor(v, b, 0);
    }
  }

  lemma RestGainIsFloor(v: PositionView, b: Bucket, part: nat)
    requires b.shares > 0
    ensures IsFloor(RestGain(v, b, part), part, v.recovery, b.shares)
    ensures part == 0 ==> RestGain(v, b, part) == 0
  {
    FloorIs(RestGain(v, b, part), part, v.recovery, b.shares);
    if part == 0 {
      ZeroProduct(0, v.recovery, b.shares);
    }
    hide IsFloor;
  }

  // ---------------------------------------------------------------- the whole event

  /** No view of the sub pool holds active and recovery shares at once. */
  ghost predicate Exclusive(x: State, id: nat) {
    forall p :: p in x.positions && x.positions[p].subPool == id && x.positions[p].active > 0 ==> x.positions[p].recovery == 0
  }

  /** What a gain of side `d` does to the view `p`. */
  ghost predicate GainReached(x: State, x': State, id: nat, d: Direction, own: Flow, total: nat, p: nat) {
    && p in x.positions && p in x'.positions
    && var v, v' := x.positions[p], x'.positions[p];
    if Holder(x, id, d, p) then
      (if own.toPool > 0 then IsGain(v, v', own.toPool, total) else v' == v)
    else if AtHome(x, v, id, d) then
      (if own.toRecovery + own.residual > 0 then IsRestGain(x, x', v, v') else v' == v)
    else v' == v
  }

  lemma GainReaches(x: State, id: nat, d: Direction, own: Flow, total: nat, price: nat, p: nat)
    requires SideGains(x, id, d, own, total, price).Ok? && p in x.positions && Exclusive(x, id)
    ensures
      var x' := SideGains(x, id, d, own, total, price).value;
      SubPoolAt(x', id) == SubPoolAt(x, id) && GainReached(x, x', id, d, own, total, p)
  {
    hide ActiveProfit, RecoveryProfit, SubPoolAt, IsGain, IsFloor;
    var x1 := if own.toPool > 0 then ActiveProfit(x, id, d, own.toPool, total).value else x;
    if own.toPool > 0 {
      ProfitReaches(x, id, d, own.toPool, total, p);
    }
    var amount := own.toRecovery + own.residual;
    if amount > 0 {
      var x2 := RecoveryProfit(x1, id, d, amount, price).value;
      RecoveryReaches(x1, id, d, amount, price, p);
      SubPoolsDecide(x1, x2, id);
      if Holder(x, id, d, p) {
        ActiveNotAtHome(x, x1, id, d, p, own.toPool, total);
      }
    }
  }

  /** A holder that gained still rests nowhere. */
  lemma ActiveNotAtHome(x: State, x1: State, id: nat, d: Direction, p: nat, inflow: nat, total: nat)
    requires Exclusive(x, id) && Holder(x, id, d, p) && p in x1.positions
    requires x1.positions[p] == x.positions[p] || IsGain(x.positions[p], x1.positions[p], inflow, total)
    ensures !AtHome(x1, x1.positions[p], id, d)
  {
    hide IsFloor, SubPoolAt;
  }

  /** A sync event with one paying side: the gains of the other side, then the losses. */
  lemma OneSidedEvent(x: State, id: nat, price: nat, longBefore: nat, shortBefore: nat, long: Flow, short: Flow, d: Direction)
    requires ApplySync(x, id, price, longBefore, shortBefore, long, short).Ok?
    requires Amount(if d.Long? then short else long) == 0
    ensures
      var own := if d.Long? then long else short;
      var (before, against) := if d.Long? then (longBefore, shortBefore) else (shortBefore, longBefore);
      var gained := SideGains(x, id, d, own, before, price);
      && gained.Ok?
      && var lost := if Amount(own) > 0 then ActiveLoss(gained.value, id, d.Opposite(), Amount(own), against) else gained;
      ApplySync(x, id, price, longBefore, shortBefore, long, short) == lost
  {
    hide ActiveProfit, RecoveryProfit, ActiveLoss;
  }

  /** What a sync event does to the view `p` when side `d` receives `own`. */
  ghost predicate SyncReached(
    x: State, x': State, id: nat, d: Direction, own: Flow, before: nat, against: nat, p: nat)
  {
    && p in x.positions && p in x'.positions
    && if Holder(x, id, d.Opposite(), p) && Amount(own) > 0
       then IsLoss(x.positions[p], x'.positions[p], Amount(own), against)
       else GainReached(x, x', id, d, own, before, p)
  }

  lemma EventReaches(
    x: State, id: nat, price: nat, longBefore: nat, shortBefore: nat, long: Flow, short: Flow, d: Direction, p: nat)
    requires ApplySync(x, id, price, longBefore, shortBefore, long, short).Ok? && p in x.positions && Exclusive(x, id)
    requires Amount(if d.Long? then short else long) == 0
    ensures
      var own := if d.Long? then long else short;
      var (before, against) := if d.Long? then (longBefore, shortBefore) else (shortBefore, longBefore);
      SyncReached(x, ApplySync(x, id, price, longBefore, shortBefore, long, short).value, id, d, own, before, against, p)
  {
    hide ApplySync, SideGains, ActiveLoss, SubPoolAt, IsLoss, IsGain, IsFloor;
    OneSidedEvent(x, id, price, longBefore, shortBefore, long, short, d);
    var own := if d.Long? then long else short;
    var (before, against) := if d.Long? then (longBefore, shortBefore) else (shortBefore, longBefore);
    GainReaches(x, id, d, own, before, price, p);
    var x1 := SideGains(x, id, d, own, before, price).value;
    if Amount(own) > 0 {
      LossReaches(x1, id, d.Opposite(), Amount(own), against, p);
      GainKeepsHolder(x, x1, id, d, own, before, p);
    }
  }

  /** Gains change no view's standing, and none of the other side. */
  lemma GainKeepsHolder(x: State, x1: State, id: nat, d: Direction, own: Flow, total: nat, p: nat)
    requires GainReached(x, x1, id, d, own, total, p) && SubPoolAt(x1, id) == SubPoolAt(x, id)
    ensures Holder(x1, id, d.Opposite(), p) <==> Holder(x, id, d.Opposite(), p)
    ensures Holder(x, id, d.Opposite(), p) ==> x1.positions[p] == x.positions[p]
  {
    hide IsFloor, SubPoolAt;
  }

  // ---------------------------------------------------------------- mirrored states

  lemma MirrorExclusive(x: State, id: nat, sp: SubPool, ps: map<nat, Position>)
    requires Mirrors(x, id, sp, ps) && PositionsOk(sp, ps)
    ensures Exclusive(x, id)
  {
    hide ShowsSide, MoneyOk;
    forall p | p in x.positions && x.positions[p].subPool == id && x.positions[p].active > 0
      ensures x.positions[p].recovery == 0
    {
      assert p in ps && ShowsPosition(x.positions[p], id, sp.Side(ps[p].direction), ps[p]);
      assert PosOk(sp.Side(ps[p].direction).generation, ps[p]);
    }
  }

  /** The active shares of the holders of one side. */
  function HolderShares(x: State, id: nat, d: Direction): map<nat, nat> {
    map p | p in x.positions && Holder(x, id, d, p) :: x.positions[p].active
  }

  /** In a mirrored state a view is a holder exactly when its position has active shares. */
  lemma HoldersAre(x: State, id: nat, sp: SubPool, ps: map<nat, Position>, d: Direction, p: nat)
    requires Mirrors(x, id, sp, ps) && PositionsOk(sp, ps) && p in ps
    ensures
      var active := HoldingsOf(sp.Side(d), d, ps)[p].active;
      && p in x.positions
      && (Holder(x, id, d, p) <==> active > 0)
      && (active > 0 ==> x.positions[p].active == active)
  {
    hide MoneyOk, SubPoolAt, SideBuckets, Stripped, View, LogShown;
    assert ShowsPosition(x.positions[p], id, sp.Side(ps[p].direction), ps[p]);
    assert PosOk(sp.Side(ps[p].direction).generation, ps[p]);
  }

  /** Together the holders of a side hold all its active shares. */
  lemma HoldersTotal(x: State, id: nat, sp: SubPool, ps: map<nat, Position>, d: Direction)
    requires Mirrors(x, id, sp, ps) && WorldOk(sp, ps)
    ensures Sum(HolderShares(x, id, d)) == sp.Side(d).shares
  {
    hide Mirrors, SideOk, PositionsOk, HoldingsOf, Holder, Sum;
    var hs := HoldingsOf(sp.Side(d), d, ps);
    var held := HolderShares(x, id, d);
    forall p | p in held
      ensures p in hs && held[p] == Actives(hs)[p]
    {
      HolderKnown(x, id, sp, ps, d, p);
      HoldersAre(x, id, sp, ps, d, p);
      HoldingAt(sp.Side(d), d, ps, p);
    }
    forall p | p in hs && p !in held
      ensures Actives(hs)[p] == 0
    {
      HoldingAt(sp.Side(d), d, ps, p);
      HoldersAre(x, id, sp, ps, d, p);
    }
    assert held.Keys <= Actives(hs).Keys;
    SumSubset(Actives(hs), held);
    ActivesTotal(sp, ps, d);
  }

  lemma HoldingAt(p: Pool, d: Direction, ps: map<nat, Position>, i: nat)
    ensures i in HoldingsOf(p, d, ps) <==> i in ps
  {
  }

  lemma HolderKnown(x: State, id: nat, sp: SubPool, ps: map<nat, Position>, d: Direction, p: nat)
    requires Mirrors(x, id, sp, ps) && Holder(x, id, d, p)
    ensures p in ps
  {
    hide ShowsSide, MoneyOk, ShowsPosition, SubPoolAt;
  }

  lemma ActivesTotal(sp: SubPool, ps: map<nat, Position>, d: Direction)
    requires WorldOk(sp, ps)
    ensures sp.Side(d).shares == Sum(Actives(HoldingsOf(sp.Side(d), d, ps)))
  {
    hide PoolOk, PositionsOk, HoldingsOf, Sum, Recoveries, Notionals, HoldingOk;
  }

  /** What the holders of one side are credited between `x` and `x'`. */
  function Credits(x: State, x': State, id: nat, d: Direction): map<nat, nat> {
    map p | p in x.positions && Holder(x, id, d, p) ::
      if p in x'.positions && x'.positions[p].profit > x.positions[p].profit
      then x'.positions[p].profit - x.positions[p].profit else 0
  }

  lemma HolderAt(x: State, id: nat, d: Direction, p: nat)
    requires p in HolderShares(x, id, d)
    ensures Holder(x, id, d, p) && 0 < HolderShares(x, id, d)[p] == x.positions[p].active
  {
    hide SubPoolAt;
  }

  /** Floored parts of `inflow` add up to at most `inflow`, and miss less than one unit each. */
  lemma CreditsTotal(x: State, x': State, id: nat, d: Direction, inflow: nat, total: nat)
    requires Sum(HolderShares(x, id, d)) == total > 0
    requires forall p :: p in x.positions && Holder(x, id, d, p) ==>
      p in x'.positions && IsGain(x.positions[p], x'.positions[p], inflow, total)
    ensures Sum(Credits(x, x', id, d)) <= inflow < Sum(Credits(x, x', id, d)) + |HolderShares(x, id, d)|
  {
    hide Sum, Holder;
    var o, f := HolderShares(x, id, d), Credits(x, x', id, d);
    assert o.Keys == f.Keys;
    forall p | p in o
      ensures 0 < o[p] && Times(f[p], total) <= Times(o[p], inflow) < Times(f[p], total) + total
    {
      HolderAt(x, id, d, p);
      assert x.positions[p].active * inflow == inflow * x.positions[p].active;
    }
    if o == map[] {
      SumZero(o);
    }
    assert Positive(o) == o.Keys;
    FloorsUpper(o, f, inflow, total);
    FloorsLower(o, f, inflow, total);
    CancelTotal(Sum(f), |o|, inflow, total);
  }

  lemma CancelTotal(sum: nat, n: nat, inflow: nat, total: nat)
    requires total > 0
    requires Times(sum, total) <= Times(total, inflow) < Times(sum, total) + Times(n, total)
    ensures sum <= inflow < sum + n
  {
    assert total * inflow == inflow * total;
    assert (sum + n) * total == sum * total + n * total;
    CancelFactorLe(sum, inflow, total);
    CancelFactor(inflow, sum + n, total);
  }

  /**
    A sync replayed by an indexer that mirrors the sub pool: every view gains, loses or rests as its
    shares say, and the holders of the winning side are together credited what its pool received,
    up to less than one unit each.
  */
  lemma SyncSpreads(x: State, m: Market, sp: SubPool, env: Envelope, ps: map<nat, Position>)
    requires WorldOk(sp, ps) && Mirrors(x, sp.id, sp, ps) && Moved(sp, env) && SyncPool(m, sp, env).Ok?
    ensures
      var out := SyncPool(m, sp, env).value.1;
      var d := Winner(sp.lastPrice, env.pNow);
      var own := FlowTo(out, d);
      var event := PoolSync(sp.id, env.pNow, sp.long.shares, sp.short.shares, out.long, out.short);
      && event in out.events
      && (ApplyEvent(x, event).Ok? ==>
            var x' := ApplyEvent(x, event).value;
            && (forall p :: p in x.positions ==>
                  SyncReached(x, x', sp.id, d, own, sp.Side(d).shares, sp.Side(d.Opposite()).shares, p))
            && (own.toPool > 0 ==>
                  var credited := Sum(Credits(x, x', sp.id, d));
                  credited <= own.toPool < credited + |HolderShares(x, sp.id, d)|))
  {
    hide WorldOk, SyncPool, Mirrors, ApplySync, SyncReached, IsDemand, IsPayment, PositionsOk, SideOk, PoolCore, Midway,
      Exchanged, SideRotated, RotationEvents, Sum, Credits, HolderShares, SubPoolAt;
    var active, total := SyncPays(m, sp, env, ps);
    SidesCore(sp, ps);
    SyncKeepsWorld(m, sp, env, ps);
    var out := SyncPool(m, sp, env).value.1;
    var d := Winner(sp.lastPrice, env.pNow);
    var own := FlowTo(out, d);
    MirrorExclusive(x, sp.id, sp, ps);
    var r := ApplySync(x, sp.id, env.pNow, sp.long.shares, sp.short.shares, out.long, out.short);
    if r.Ok? {
      forall p | p in x.positions
        ensures SyncReached(x, r.value, sp.id, d, own, sp.Side(d).shares, sp.Side(d.Opposite()).shares, p)
      {
        EventReaches(x, sp.id, env.pNow, sp.long.shares, sp.short.shares, out.long, out.short, d, p);
      }
      if own.toPool > 0 {
        HoldersTotal(x, sp.id, sp, ps, d);
        SharesBehind(m, sp, env, ps);
        WinnersGain(x, r.value, sp.id, d, own, sp.Side(d).shares, sp.Side(d.Opposite()).shares);
        CreditsTotal(x, r.value, sp.id, d, own.toPool, sp.Side(d).shares);
      }
    }
  }

  lemma WinnersGain(x: State, x': State, id: nat, d: Direction, own: Flow, before: nat, against: nat)
    requires forall p :: p in x.positions ==> SyncReached(x, x', id, d, own, before, against, p)
    requires own.toPool > 0
    ensures forall p :: p in x.positions && Holder(x, id, d, p) ==>
      p in x'.positions && IsGain(x.positions[p], x'.positions[p], own.toPool, before)
  {
    hide IsGain, IsLoss, IsRestGain, SubPoolAt;
    forall p | p in x.positions && Holder(x, id, d, p)
      ensures p in x'.positions && IsGain(x.positions[p], x'.positions[p], own.toPool, before)
    {
      assert SyncReached(x, x', id, d, own, before, against, p);
    }
  }

  /** A pool that receives something has shares. */
  lemma SharesBehind(m: Market, sp: SubPool, env: Envelope, ps: map<nat, Position>)
    requires WorldOk(sp, ps) && SyncPool(m, sp, env).Ok?
    ensures FlowTo(SyncPool(m, sp, env).value.1, Long).toPool > 0 ==> sp.long.shares > 0
    ensures FlowTo(SyncPool(m, sp, env).value.1, Short).toPool > 0 ==> sp.short.shares > 0
  {
    hide WorldOk, SyncPool, Midway, Exchanged, SideRotated, SyncEvents;
    SyncKeepsWorld(m, sp, env, ps);
    var out := SyncPool(m, sp, env).value.1;
    FlowsFit(sp, Midway(m, sp, env), out.long, out.short, env.pNow, ps);
  }

  // ---------------------------------------------------------------- claims

  /** A claim takes what was paid off the view's profit, which never goes below zero. */
  lemma ClaimTakes(x: State, id: nat, p: nat, d: Direction, tick: int, recovery: nat, notional: nat, value: nat)
    requires ApplyClaim(x, id, p, d, tick, recovery, notional, value).Ok?
    ensures
      var x' := ApplyClaim(x, id, p, d, tick, recovery, notional, value).value;
      && p in x.positions && p in x'.positions
      && var v, v' := x.positions[p], x'.positions[p];
      && v' == v.(recovery := v'.recovery, tick := v'.tick, profit := v'.profit)
      && v'.recovery + recovery == v.recovery
      && (v'.tick == if v'.recovery > 0 then v.tick else None)
      && (v.profit >= value ==> v'.profit + value == v.profit) && (v.profit < value ==> v'.profit == 0)
      && forall q :: q in x.positions && q != p ==> q in x'.positions && x'.positions[q] == x.positions[q]
  {
  }
}
