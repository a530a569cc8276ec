/** Rotations, opens, closes and claims as the indexer replays them. */
module IndexerSteps {
  import opened Wrappers
  import opened MoleMath
  import opened Clearing
  import opened Sums
  import opened Dormant
  import opened DormantInvariant
  import opened Engine
  import opened Holdings
  import opened EngineInvariant
  import opened EngineSync
  import opened ChainMirror
  import opened Indexer
  import opened IndexerViews
  import opened IndexerReplay

  // ---------------------------------------------------------------- one bucket view changes

  lemma SetBucketView(x: State, x': State, id: nat, d: Direction, t: int, v: BucketView)
    requires x'.buckets == x.buckets[Key(id, d, t) := v]
    ensures SideBuckets(x', id, d) == SideBuckets(x, id, d)[t := AsBucket(v)]
    ensures SideBuckets(x', id, d.Opposite()) == SideBuckets(x, id, d.Opposite())
  {
    hide SideBuckets, AsBucket;
    var got, want := SideBuckets(x', id, d), SideBuckets(x, id, d)[t := AsBucket(v)];
    forall u | u in want
      ensures u in got && got[u] == want[u]
    {
      SideBucketsAt(x, id, d, u);
      SideBucketsAt(x', id, d, u);
    }
    forall u | u in got
      ensures u in want
    {
      SideBucketsAt(x, id, d, u);
      SideBucketsAt(x', id, d, u);
    }
    SameSideBuckets(x, x', id, d.Opposite());
  }

  lemma DropBucketView(x: State, x': State, id: nat, d: Direction, t: int)
    requires x'.buckets == x.buckets - {Key(id, d, t)}
    ensures SideBuckets(x', id, d) == SideBuckets(x, id, d) - {t}
    ensures SideBuckets(x', id, d.Opposite()) == SideBuckets(x, id, d.Opposite())
  {
    hide SideBuckets, AsBucket;
    var got, want := SideBuckets(x', id, d), SideBuckets(x, id, d) - {t};
    forall u | u in want
      ensures u in got && got[u] == want[u]
    {
      SideBucketsAt(x, id, d, u);
      SideBucketsAt(x', id, d, u);
    }
    forall u | u in got
      ensures u in want
    {
      SideBucketsAt(x, id, d, u);
      SideBucketsAt(x', id, d, u);
    }
    SameSideBuckets(x, x', id, d.Opposite());
  }

  lemma StrippedSet(bs: map<int, Bucket>, t: int, b: Bucket)
    ensures Stripped(bs[t := b]) == Stripped(bs)[t := b.(count := 0, applied := 0)]
    ensures Stripped(bs - {t}) == Stripped(bs) - {t}
  {
  }

  // ---------------------------------------------------------------- rotation

  /** A view that rotates shows the rotated position. */
  lemma RotationShown(v: PositionView, id: nat, p: Pool, p': Pool, pos: Position, tick: int, anchor: nat)
    requires ShowsPosition(v, id, p, pos) && PosOk(p.generation, pos) && LogOk(p.log, p.generation)
    requires p'.log == p.log + [RotateRecord(p.generation, tick, anchor)] && p'.generation == p.generation + 1
    ensures
      var rotates := Rotates(v, id, pos.direction, p.generation);
      && (rotates ==> v.recovery + v.active < U128)
      && ShowsPosition(if rotates then RotatedView(v, tick, p'.generation) else v, id, p', pos)
  {
    RotatedHolding(p, p', tick, anchor, pos);
  }

  /** The view of a bucket that was merged into. */
  lemma MergeShown(
    x: State, x': State, id: nat, d: Direction, vb: map<int, Bucket>, tick: int, anchor: nat, shares: nat, notional: nat,
    cap: nat, vb': map<int, Bucket>)
    requires SideBuckets(x, id, d) == Stripped(vb)
    requires IdealMerge(vb, tick, anchor, shares, notional, 1, cap) == Ok(vb')
    requires
      var b := BucketAt(x, Key(id, d, tick), anchor);
      x'.buckets == x.buckets[Key(id, d, tick) := b.(shares := b.shares + shares, notional := b.notional + notional)]
    ensures SideBuckets(x', id, d) == Stripped(vb')
    ensures SideBuckets(x', id, d.Opposite()) == SideBuckets(x, id, d.Opposite())
    ensures shares < U128 && notional < U128 ==>
      var b := BucketAt(x, Key(id, d, tick), anchor);
      b.shares + shares < U128 && b.notional + notional < U128
  {
    hide SideBuckets, Stripped, IdealMerge, BucketAt;
    var b := BucketAt(x, Key(id, d, tick), anchor);
    BucketViewAt(x, id, d, vb, tick, anchor);
    SetBucketView(x, x', id, d, tick, b.(shares := b.shares + shares, notional := b.notional + notional));
    MergedBucket(vb, tick, anchor, shares, notional, cap, vb');
    StrippedSet(vb, tick, vb'[tick]);
  }

  lemma BucketViewAt(x: State, id: nat, d: Direction, vb: map<int, Bucket>, tick: int, anchor: nat)
    requires SideBuckets(x, id, d) == Stripped(vb)
    ensures
      var b := BucketAt(x, Key(id, d, tick), anchor);
      AsBucket(b) == if tick in vb then vb[tick].(count := 0, applied := 0) else Bucket(anchor, 0, 0, 0, 0, 0)
  {
    SideBucketsAt(x, id, d, tick);
    hide SideBuckets;
  }

  lemma MergedBucket(
    vb: map<int, Bucket>, tick: int, anchor: nat, shares: nat, notional: nat, cap: nat, vb': map<int, Bucket>)
    requires IdealMerge(vb, tick, anchor, shares, notional, 1, cap) == Ok(vb')
    ensures tick in vb' && vb' == vb[tick := vb'[tick]]
    ensures
      var b := if tick in vb then vb[tick] else Bucket(anchor, 0, 0, 0, 0, 0);
      && vb'[tick].(count := 0, applied := 0)
           == b.(shares := b.shares + shares, notional := b.notional + notional, count := 0, applied := 0)
      && (tick in vb ==> b.shares + shares < U128 && b.notional + notional < U128)
  {
  }

  /** What rotating one side of the indexer leaves alone. */
  ghost predicate SideRotatedView(x: State, x': State, id: nat, d: Direction, ended: nat, tick: int) {
    && (forall i :: i in x'.positions <==> i in x.positions)
    && (forall i :: i in x.positions ==>
          x'.positions[i] == if Rotates(x.positions[i], id, d, ended)
                             then RotatedView(x.positions[i], tick, SubPoolAt(x, id).Side(d).generation + 1)
                             else x.positions[i])
    && SubPoolAt(x', id) == SubPoolAt(x, id).With(d,
         SideView(SubPoolAt(x, id).Side(d).generation + 1, SubPoolAt(x, id).Side(d).log + [RotateEntry(ended, tick)]))
    && (forall j: nat :: j != id ==> SubPoolAt(x', j) == SubPoolAt(x, j))
  }

  /** The steps of `ApplyRotate`. */
  lemma RotateViewUnfolds(x: State, id: nat, d: Direction, tick: int, anchor: nat, shares: nat, notional: nat, ended: nat)
    requires forall i :: i in x.positions && Rotates(x.positions[i], id, d, ended) ==>
      x.positions[i].recovery + x.positions[i].active < U128
    requires var b := BucketAt(x, Key(id, d, tick), anchor); b.shares + shares < U128 && b.notional + notional < U128
    ensures
      var r := ApplyRotate(x, id, d, tick, anchor, shares, notional, ended);
      var b := BucketAt(x, Key(id, d, tick), anchor);
      && r.Ok?
      && SideRotatedView(x, r.value, id, d, ended, tick)
      && r.value.buckets == x.buckets[Key(id, d, tick) := b.(shares := b.shares + shares, notional := b.notional + notional)]
  {
    hide BucketAt;
  }

  lemma RotatedPositionsShown(
    x: State, x': State, id: nat, d: Direction, sp: SubPool, sp': SubPool, ps: map<nat, Position>, tick: int, anchor: nat)
    requires ShowsPositions(x, id, sp, ps) && PositionsOk(sp, ps)
    requires SideRotatedView(x, x', id, d, sp.Side(d).generation, tick)
    requires SubPoolAt(x, id).Side(d).generation == sp.Side(d).generation
    requires LogOk(sp.Side(d).log, sp.Side(d).generation)
    requires sp' == sp.With(d, sp'.Side(d))
    requires sp'.Side(d).log == sp.Side(d).log + [RotateRecord(sp.Side(d).generation, tick, anchor)]
    requires sp'.Side(d).generation == sp.Side(d).generation + 1
    ensures ShowsPositions(x', id, sp', ps)
  {
    hide ShowsPosition, SubPoolAt, PosOk, LogOk;
    forall i | i in ps
      ensures i in x'.positions && ShowsPosition(x'.positions[i], id, sp'.Side(ps[i].direction), ps[i])
    {
      var e := ps[i].direction;
      ShownSubPool(x.positions[i], id, sp.Side(e), ps[i]);
      if e == d {
        RotationShown(x.positions[i], id, sp.Side(d), sp'.Side(d), ps[i], tick, anchor);
      } else {
        assert sp'.Side(e) == sp.Side(e);
      }
    }
  }

  lemma RotatedLogShown(x: State, x': State, id: nat, d: Direction, p: Pool, p': Pool, tick: int, anchor: nat)
    requires SideRotatedView(x, x', id, d, p.generation, tick)
    requires SubPoolAt(x, id).Side(d).generation == p.generation && LogShown(SubPoolAt(x, id).Side(d).log, p.log)
    requires p'.log == p.log + [RotateRecord(p.generation, tick, anchor)] && p'.generation == p.generation + 1
    ensures SubPoolAt(x', id).Side(d).generation == p'.generation && LogShown(SubPoolAt(x', id).Side(d).log, p'.log)
    ensures SubPoolAt(x', id).Side(d.Opposite()) == SubPoolAt(x, id).Side(d.Opposite())
  {
    hide SubPoolAt, Rotates, RotatedView;
  }

  lemma RotatedElsewhere(x: State, x': State, id: nat, d: Direction, ended: nat, tick: int, v: BucketView, bound: nat)
    requires SideRotatedView(x, x', id, d, ended, tick) && x'.buckets == x.buckets[Key(id, d, tick) := v]
    requires MoneyOk(x) && ProfitsWithin(x, bound)
    ensures Elsewhere(x, x', id) && MoneyOk(x') && ProfitsWithin(x', bound)
  {
    hide SubPoolAt;
  }

  /** Views that rotate do not overflow. */
  lemma RotatingViewsFit(x: State, id: nat, d: Direction, sp: SubPool, ps: map<nat, Position>)
    requires ShowsPositions(x, id, sp, ps) && PositionsOk(sp, ps) && LogOk(sp.Side(d).log, sp.Side(d).generation)
    ensures forall i :: i in x.positions && Rotates(x.positions[i], id, d, sp.Side(d).generation) ==>
      x.positions[i].recovery + x.positions[i].active < U128
  {
    hide LogOk, HoldingsOf;
    forall i | i in x.positions && Rotates(x.positions[i], id, d, sp.Side(d).generation)
      ensures x.positions[i].recovery + x.positions[i].active < U128
    {
      assert i in ps;
      assert ShowsPosition(x.positions[i], id, sp.Side(ps[i].direction), ps[i]);
      assert PosOk(sp.Side(d).generation, ps[i]);
    }
  }

  /** A rotation event, replayed. */
  lemma RotateReplayed(
    x: State, id: nat, d: Direction, sp: SubPool, sp': SubPool, ps: map<nat, Position>, tick: int, anchor: nat, bound: nat)
    requires Mirrors(x, id, sp, ps) && PositionsOk(sp, ps) && ProfitsWithin(x, bound)
    requires LogOk(sp.Side(d).log, sp.Side(d).generation) && InRange(sp.Side(d))
    requires sp' == sp.With(d, sp'.Side(d)) && RotatedTo(sp.Side(d), sp'.Side(d), tick, anchor)
    ensures
      var p := sp.Side(d);
      var r := ApplyRotate(x, id, d, tick, anchor, p.shares, p.notional, p.generation);
      && r.Ok? && Mirrors(r.value, id, sp', ps) && Elsewhere(x, r.value, id) && ProfitsWithin(r.value, bound)
  {
    hide SideBuckets, Stripped, View, PositionsOk, ShowsPositions, LogOk, MoneyOk, ProfitsWithin, Elsewhere,
      SubPoolAt, BucketShares, Raised, IdealMerge, SideRotatedView, LogShown, BucketAt;
    var p, p' := sp.Side(d), sp'.Side(d);
    var vb, vb' := View(p.store), View(p'.store);
    assert ShowsSide(x, id, d, p) && ShowsSide(x, id, d.Opposite(), sp.Side(d.Opposite()));
    RotatingViewsFit(x, id, d, sp, ps);
    var b := BucketAt(x, Key(id, d, tick), anchor);
    var b' := b.(shares := b.shares + p.shares, notional := b.notional + p.notional);
    MergeShown(x, x.(buckets := x.buckets[Key(id, d, tick) := b']), id, d, vb, tick, anchor, p.shares, p.notional,
               |p'.store.buckets|, vb');
    RotateViewUnfolds(x, id, d, tick, anchor, p.shares, p.notional, p.generation);
    var x' := ApplyRotate(x, id, d, tick, anchor, p.shares, p.notional, p.generation).value;
    MergeShown(x, x', id, d, vb, tick, anchor, p.shares, p.notional, |p'.store.buckets|, vb');
    RotatedPositionsShown(x, x', id, d, sp, sp', ps, tick, anchor);
    RotatedLogShown(x, x', id, d, p, p', tick, anchor);
    RotatedElsewhere(x, x', id, d, p.generation, tick, b', bound);
    assert ShowsSide(x', id, d, p');
    assert ShowsSide(x', id, d.Opposite(), sp'.Side(d.Opposite()));
  }

  /** The rotation of one side in a sync, with or without an event. */
  lemma RotationReplayed(
    x: State, id: nat, m: Market, d: Direction, sp: SubPool, sp': SubPool, ps: map<nat, Position>, pNow: u64, bound: nat)
    requires Mirrors(x, id, sp, ps) && PositionsOk(sp, ps) && ProfitsWithin(x, bound)
    requires LogOk(sp.Side(d).log, sp.Side(d).generation) && InRange(sp.Side(d))
    requires sp' == sp.With(d, sp'.Side(d)) && SideRotated(m, sp.Side(d), sp'.Side(d), pNow)
    ensures
      var r := ApplyEvents(x, RotationEvents(m, id, d, sp.Side(d), pNow));
      && r.Ok? && Mirrors(r.value, id, sp', ps) && Elsewhere(x, r.value, id) && ProfitsWithin(r.value, bound)
    ensures PositionsOk(sp', ps)
  {
    hide Mirrors, PosOk, ProfitsWithin, LogOk, Elsewhere, BucketTick, ApplyRotate, RotatedTo;
    var p := sp.Side(d);
    if p.equity == 0 && p.shares > 0 {
      var tick := BucketTick(m, pNow).value;
      RotateReplayed(x, id, d, sp, sp', ps, tick, pNow, bound);
      OneEvent(x, ActiveRotatedToRecovery(id, d, tick, pNow, p.shares, p.notional, p.generation));
      RotatedGeneration(p, sp'.Side(d), tick, pNow);
    } else {
      ElsewhereSame(x, id);
      assert sp' == sp;
    }
    OlderPositions(sp, sp', ps);
  }

  lemma RotatedGeneration(p: Pool, p': Pool, tick: int, anchor: nat)
    requires RotatedTo(p, p', tick, anchor)
    ensures p'.generation == p.generation + 1
  {
    hide View, IdealMerge, BucketShares, Raised;
  }

  lemma OneEvent(x: State, e: EngineEvent)
    ensures ApplyEvents(x, [e]) == ApplyEvent(x, e)
  {
    hide ApplyEvent;
    if ApplyEvent(x, e).Ok? {
      assert [e][1..] == [];
    }
  }

  // ---------------------------------------------------------------- a whole sync

  lemma {:induction false} ApplyConcat(x: State, a: seq<EngineEvent>, b: seq<EngineEvent>)
    ensures ApplyEvents(x, a).Err? ==> ApplyEvents(x, a + b) == Err(ApplyEvents(x, a).error)
    ensures ApplyEvents(x, a).Ok? ==> ApplyEvents(x, a + b) == ApplyEvents(ApplyEvents(x, a).value, b)
    decreases |a|
  {
    hide ApplyEvent;
    if a == [] {
      assert a + b == b;
    } else {
      assert (a + b)[1..] == a[1..] + b;
      if ApplyEvent(x, a[0]).Ok? {
        ApplyConcat(ApplyEvent(x, a[0]).value, a[1..], b);
      }
    }
  }

  /** The relation reads only the two sides. */
  lemma MirrorsReads(x: State, id: nat, sp: SubPool, sp': SubPool, ps: map<nat, Position>)
    requires Mirrors(x, id, sp, ps) && sp'.long == sp.long && sp'.short == sp.short
    ensures Mirrors(x, id, sp', ps)
  {
    hide ShowsPosition, ShowsSide, MoneyOk;
  }

  lemma CoreParts(p: Pool, d: Direction)
    requires PoolCore(p, d)
    ensures LogOk(p.log, p.generation) && InRange(p)
  {
    hide Inv, LogOk, Sum;
  }

  lemma MidwayPositions(sp: SubPool, mid: SubPool, long: Flow, short: Flow, pNow: nat, ps: map<nat, Position>)
    requires PositionsOk(sp, ps) && Exchanged(sp, mid, long, short, pNow)
    ensures PositionsOk(mid, ps)
  {
    SameLogs(sp, mid, long, short, pNow);
    OlderPositions(sp, mid, ps);
  }

  /** Both rotations, replayed. */
  lemma RotationsReplayed(x: State, id: nat, m: Market, mid: SubPool, sp': SubPool, ps: map<nat, Position>, pNow: u64, bound: nat)
    requires Mirrors(x, id, mid, ps) && PositionsOk(mid, ps) && ProfitsWithin(x, bound)
    requires PoolCore(mid.long, Long) && PoolCore(mid.short, Short)
    requires SideRotated(m, mid.long, sp'.long, pNow) && SideRotated(m, mid.short, sp'.short, pNow)
    ensures
      var r := ApplyEvents(x, RotationEvents(m, id, Long, mid.long, pNow) + RotationEvents(m, id, Short, mid.short, pNow));
      && r.Ok? && Mirrors(r.value, id, sp', ps) && Elsewhere(x, r.value, id) && ProfitsWithin(r.value, bound)
  {
    hide Mirrors, PositionsOk, ProfitsWithin, Elsewhere, PoolCore, SideRotated, RotationEvents, ApplyEvents, LogOk,
      InRange;
    CoreParts(mid.long, Long);
    CoreParts(mid.short, Short);
    var l, s := RotationEvents(m, id, Long, mid.long, pNow), RotationEvents(m, id, Short, mid.short, pNow);
    var sp1 := mid.With(Long, sp'.long);
    RotationReplayed(x, id, m, Long, mid, sp1, ps, pNow, bound);
    var x1 := ApplyEvents(x, l).value;
    var sp2 := sp1.With(Short, sp'.short);
    RotationReplayed(x1, id, m, Short, sp1, sp2, ps, pNow, bound);
    var x2 := ApplyEvents(x1, s).value;
    ApplyConcat(x, l, s);
    ElsewhereTwice(x, x1, x2, id);
    MirrorsReads(x2, id, sp2, sp', ps);
  }

  /** What a sync moves, as far as profits go. */
  function Transferred(out: SyncOutcome): nat {
    Amount(out.long) + Amount(out.short)
  }

  /** The result of replaying events: mirrored again, unless a profit overflowed. */
  ghost predicate Replayed(
    x: State, r: IndexerResult<State>, id: nat, sp': SubPool, ps': map<nat, Position>, bound: nat, more: nat)
  {
    && (r.Err? ==> r.error == IndexerOverflow)
    && (bound + more < U128 ==> r.Ok?)
    && (r.Ok? ==> Mirrors(r.value, id, sp', ps') && Elsewhere(x, r.value, id) && ProfitsWithin(r.value, bound + more))
  }

  /** The events of a sync, replayed. */
  lemma SyncEventsReplayed(x: State, m: Market, sp: SubPool, env: Envelope, ps: map<nat, Position>, bound: nat)
    requires WorldOk(sp, ps) && Mirrors(x, sp.id, sp, ps) && ProfitsWithin(x, bound) && SyncPool(m, sp, env).Ok?
    ensures
      var (sp', out) := SyncPool(m, sp, env).value;
      Replayed(x, ApplyEvents(x, out.events), sp.id, sp', ps, bound, Transferred(out))
  {
    hide WorldOk, SyncPool, Midway, Exchanged, SideRotated, RotationEvents, Mirrors, ProfitsWithin, Elsewhere,
      ApplyEvents, ApplySync, PoolCore, PositionsOk, SideOk, Amount;
    SyncKeepsWorld(m, sp, env, ps);
    var (sp', out) := SyncPool(m, sp, env).value;
    var mid, id := Midway(m, sp, env), sp.id;
    SidesCore(sp, ps);
    MidwayCore(sp, mid, out.long, out.short, env.pNow);
    MidwayPositions(sp, mid, out.long, out.short, env.pNow, ps);
    if Moved(sp, env) {
      SyncReplayed(x, id, sp, mid, ps, out.long, out.short, env.pNow, bound);
      var event := PoolSync(id, env.pNow, sp.long.shares, sp.short.shares, out.long, out.short);
      var rest := RotationEvents(m, id, Long, mid.long, env.pNow) + RotationEvents(m, id, Short, mid.short, env.pNow);
      OneEvent(x, event);
      PoolSyncEvent(x, id, env.pNow, sp.long.shares, sp.short.shares, out.long, out.short);
      ApplyConcat(x, [event], rest);
      if ApplyEvents(x, [event]).Ok? {
        var x1 := ApplyEvents(x, [event]).value;
        RotationsReplayed(x1, id, m, mid, sp', ps, env.pNow, bound + Transferred(out));
        ElsewhereTwice(x, x1, ApplyEvents(x1, rest).value, id);
      }
    } else {
      QuietReplayed(x, m, sp, sp', env, ps, bound, out);
    }
  }

  lemma MidwayCore(sp: SubPool, mid: SubPool, long: Flow, short: Flow, pNow: nat)
    requires Exchanged(sp, mid, long, short, pNow)
    ensures PoolCore(mid.long, Long) && PoolCore(mid.short, Short)
  {
    hide PoolCore, SideExchanged;
  }

  lemma PoolSyncEvent(x: State, id: nat, price: nat, longBefore: nat, shortBefore: nat, long: Flow, short: Flow)
    ensures ApplyEvent(x, PoolSync(id, price, longBefore, shortBefore, long, short))
         == ApplySync(x, id, price, longBefore, shortBefore, long, short)
  {
    hide ApplySync;
  }

  lemma QuietReplayed(
    x: State, m: Market, sp: SubPool, sp': SubPool, env: Envelope, ps: map<nat, Position>, bound: nat, out: SyncOutcome)
    requires WorldOk(sp, ps) && Mirrors(x, sp.id, sp, ps) && ProfitsWithin(x, bound) && !Moved(sp, env)
    requires SyncPool(m, sp, env) == Ok((sp', out))
    ensures Replayed(x, ApplyEvents(x, out.events), sp.id, sp', ps, bound, Transferred(out))
  {
    hide WorldOk, SyncPool, Mirrors, Elsewhere, Amount, ProfitsWithin, CheckSubPool;
    SyncUnfolds(m, sp, env);
    MirrorsReads(x, sp.id, sp, sp', ps);
    ElsewhereSame(x, sp.id);
    WiderProfits(x, bound, bound + Transferred(out));
  }
}
