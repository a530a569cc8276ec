/**
  The indexer as the mutable object of crates/indexer/src/lib.rs: every handler loops over the
  position and bucket maps and updates views one at a time, and is proved to do what the function of
  the same name in `Indexer` says.
*/
module IndexerObject {
  import opened Wrappers
  import opened MoleMath
  import opened Clearing
  import opened Sums
  import opened Dormant
  import opened DormantSteps
  import opened Engine
  import opened ChainMirror
  import opened Indexer
  import IndexerViews

  ghost predicate ViewsInRange(views: map<nat, PositionView>) {
    forall p :: p in views ==> views[p].profit < U128 && views[p].lockedLoss < U128
  }

  /** The profit loop: views outside `todo` have their share. */
  ghost predicate Gaining(
    was: map<nat, PositionView>, views: map<nat, PositionView>, todo: set<nat>, id: nat, d: Direction, generation: nat,
    inflow: nat, total: nat)
    requires total > 0 && views.Keys == was.Keys
  {
    && (forall p :: p in was && p in todo ==> views[p] == was[p])
    && (forall p :: p in was && p !in todo ==>
          if IsActive(was[p], id, d, generation) then Gained(was[p], inflow, total) == Ok(views[p]) else views[p] == was[p])
  }

  /** The loss loop: views outside `todo` have borne their share. */
  ghost predicate Losing(
    was: map<nat, PositionView>, views: map<nat, PositionView>, todo: set<nat>, id: nat, d: Direction, generation: nat,
    outflow: nat, total: nat)
    requires total > 0 && views.Keys == was.Keys
  {
    && (forall p :: p in was && p in todo ==> views[p] == was[p])
    && (forall p :: p in was && p !in todo ==>
          if IsActive(was[p], id, d, generation) then Lost(was[p], outflow, total) == Ok(views[p]) else views[p] == was[p])
  }

  /** The steps of `ActiveProfit`. */
  lemma ActiveProfitSteps(x: State, id: nat, d: Direction, inflow: nat, total: nat)
    ensures total == 0 ==> ActiveProfit(x, id, d, inflow, total) == Err(StateMismatch(NoSharesIn))
    ensures total > 0 ==>
      var g := SubPoolAt(x, id).Side(d).generation;
      && (forall p :: p in x.positions && IsActive(x.positions[p], id, d, g) && Gained(x.positions[p], inflow, total).Err? ==>
            ActiveProfit(x, id, d, inflow, total) == Err(IndexerOverflow))
      && ((forall p :: p in x.positions && IsActive(x.positions[p], id, d, g) ==> Gained(x.positions[p], inflow, total).Ok?) ==>
            ActiveProfit(x, id, d, inflow, total)
              == Ok(Touch(x, id).(positions := GainedViews(x.positions, id, d, g, inflow, total))))
  {
    hide SubPoolAt, Touch, Gained, IsActive, GainedViews;
  }

  lemma GainingAt(
    was: map<nat, PositionView>, views: map<nat, PositionView>, todo: set<nat>, p: nat, id: nat, d: Direction, generation: nat,
    inflow: nat, total: nat)
    requires total > 0 && views.Keys == was.Keys && Gaining(was, views, todo, id, d, generation, inflow, total)
    requires p in views && p in todo
    ensures p in was && views[p] == was[p]
  {
  }

  lemma GainingStart(was: map<nat, PositionView>, id: nat, d: Direction, generation: nat, inflow: nat, total: nat)
    requires total > 0
    ensures Gaining(was, was, was.Keys, id, d, generation, inflow, total)
  {
  }

  /** One view in that loop. */
  lemma GainingStep(
    was: map<nat, PositionView>, views: map<nat, PositionView>, views': map<nat, PositionView>, todo: set<nat>, p: nat, id: nat,
    d: Direction, generation: nat, inflow: nat, total: nat)
    requires total > 0 && views.Keys == was.Keys && Gaining(was, views, todo, id, d, generation, inflow, total)
    requires p in views && p in todo && ViewsInRange(views)
    requires
      if IsActive(views[p], id, d, generation)
      then Gained(views[p], inflow, total).Ok? && views' == views[p := Gained(views[p], inflow, total).value]
      else views' == views
    ensures views'.Keys == was.Keys && Gaining(was, views', todo - {p}, id, d, generation, inflow, total) && ViewsInRange(views')
  {
    GainedInRange(views[p], inflow, total);
    hide Gained, IsActive;
  }

  lemma GainingEnds(
    was: map<nat, PositionView>, views: map<nat, PositionView>, id: nat, d: Direction, generation: nat, inflow: nat, total: nat)
    requires total > 0 && views.Keys == was.Keys && Gaining(was, views, {}, id, d, generation, inflow, total)
    ensures forall p :: p in was && IsActive(was[p], id, d, generation) ==> Gained(was[p], inflow, total).Ok?
    ensures views == GainedViews(was, id, d, generation, inflow, total)
  {
    hide Gained, IsActive;
    forall p | p in was
      ensures views[p] == if IsActive(was[p], id, d, generation) then Gained(was[p], inflow, total).value else was[p]
    {
    }
  }

  /** The steps of `ActiveLoss`. */
  lemma ActiveLossSteps(x: State, id: nat, d: Direction, outflow: nat, total: nat)
    ensures total == 0 ==> ActiveLoss(x, id, d, outflow, total) == Err(StateMismatch(NoSharesOut))
    ensures total > 0 ==>
      var g := SubPoolAt(x, id).Side(d).generation;
      && (forall p :: p in x.positions && IsActive(x.positions[p], id, d, g) && Lost(x.positions[p], outflow, total).Err? ==>
            ActiveLoss(x, id, d, outflow, total) == Err(IndexerOverflow))
      && ((forall p :: p in x.positions && IsActive(x.positions[p], id, d, g) ==> Lost(x.positions[p], outflow, total).Ok?) ==>
            ActiveLoss(x, id, d, outflow, total)
              == Ok(Touch(x, id).(positions := LostViews(x.positions, id, d, g, outflow, total))))
  {
    hide SubPoolAt, Touch, Lost, IsActive, LostViews;
  }

  lemma LosingAt(
    was: map<nat, PositionView>, views: map<nat, PositionView>, todo: set<nat>, p: nat, id: nat, d: Direction, generation: nat,
    outflow: nat, total: nat)
    requires total > 0 && views.Keys == was.Keys && Losing(was, views, todo, id, d, generation, outflow, total)
    requires p in views && p in todo
    ensures p in was && views[p] == was[p]
  {
  }

  lemma LosingStart(was: map<nat, PositionView>, id: nat, d: Direction, generation: nat, outflow: nat, total: nat)
    requires total > 0
    ensures Losing(was, was, was.Keys, id, d, generation, outflow, total)
  {
  }

  /** One view in that loop. */
  lemma LosingStep(
    was: map<nat, PositionView>, views: map<nat, PositionView>, views': map<nat, PositionView>, todo: set<nat>, p: nat, id: nat,
    d: Direction, generation: nat, outflow: nat, total: nat)
    requires total > 0 && views.Keys == was.Keys && Losing(was, views, todo, id, d, generation, outflow, total)
    requires p in views && p in todo && ViewsInRange(views)
    requires
      if IsActive(views[p], id, d, generation)
      then Lost(views[p], outflow, total).Ok? && views' == views[p := Lost(views[p], outflow, total).value]
      else views' == views
    ensures views'.Keys == was.Keys && Losing(was, views', todo - {p}, id, d, generation, outflow, total) && ViewsInRange(views')
  {
    LostInRange(views[p], outflow, total);
    hide Lost, IsActive;
  }

  lemma LosingEnds(
    was: map<nat, PositionView>, views: map<nat, PositionView>, id: nat, d: Direction, generation: nat, outflow: nat, total: nat)
    requires total > 0 && views.Keys == was.Keys && Losing(was, views, {}, id, d, generation, outflow, total)
    ensures forall p :: p in was && IsActive(was[p], id, d, generation) ==> Lost(was[p], outflow, total).Ok?
    ensures views == LostViews(was, id, d, generation, outflow, total)
  {
    hide Lost, IsActive;
    forall p | p in was
      ensures views[p] == if IsActive(was[p], id, d, generation) then Lost(was[p], outflow, total).value else was[p]
    {
    }
  }

  /** The loop of `apply_rotate`: matching views outside `todo` rest in the bucket. */
  ghost predicate Rotating(
    was: map<nat, PositionView>, views: map<nat, PositionView>, todo: set<nat>, id: nat, d: Direction, ended: nat, tick: int,
    generation: nat)
    requires views.Keys == was.Keys
  {
    && (forall p :: p in was && p in todo ==> views[p] == was[p])
    && (forall p :: p in was && p !in todo ==>
          if Rotates(was[p], id, d, ended)
          then was[p].recovery + was[p].active < U128 && views[p] == RotatedView(was[p], tick, generation)
          else views[p] == was[p])
  }

  /** Some matching view has too many shares to rest. */
  ghost predicate Unrotatable(views: map<nat, PositionView>, id: nat, d: Direction, ended: nat) {
    exists p :: p in views && Rotates(views[p], id, d, ended) && views[p].recovery + views[p].active >= U128
  }

  /** The steps of `ApplyRotate`. */
  lemma RotateSteps(x: State, id: nat, d: Direction, tick: int, anchor: nat, shares: nat, notional: nat, ended: nat)
    ensures
      var side := SubPoolAt(x, id).Side(d);
      var side' := SideView(side.generation + 1, side.log + [RotateEntry(ended, tick)]);
      var b := BucketAt(x, Key(id, d, tick), anchor);
      Indexer.ApplyRotate(x, id, d, tick, anchor, shares, notional, ended) ==
        if Unrotatable(x.positions, id, d, ended) || b.shares + shares >= U128 || b.notional + notional >= U128
        then Err(IndexerOverflow)
        else
          Ok(State(
            RotatedViews(x.positions, id, d, ended, tick, side'.generation),
            x.buckets[Key(id, d, tick) := b.(shares := b.shares + shares, notional := b.notional + notional)],
            x.subPools[id := SubPoolAt(x, id).With(d, side')]))
  {
    hide RotatedViews, Rotates, BucketAt, SubPoolAt;
  }

  lemma RotatingEnds(
    was: map<nat, PositionView>, views: map<nat, PositionView>, id: nat, d: Direction, ended: nat, tick: int, generation: nat)
    requires views.Keys == was.Keys && Rotating(was, views, {}, id, d, ended, tick, generation)
    ensures forall p :: p in was && Rotates(was[p], id, d, ended) ==> was[p].recovery + was[p].active < U128
    ensures views == RotatedViews(was, id, d, ended, tick, generation)
  {
    hide Rotates, RotatedView;
    forall p | p in was
      ensures views[p] == if Rotates(was[p], id, d, ended) then RotatedView(was[p], tick, generation) else was[p]
    {
    }
  }

  // ---------------------------------------------------------------- recovery distribution

  /** The claims a recovery distribution is shared out over. */
  ghost predicate Claims(x: State, id: nat, d: Direction, price: nat, claims: map<Key, nat>) {
    && (forall k :: k in claims ==>
          && k in x.buckets && k.subPool == id && k.direction == d
          && claims[k] == Outstanding(d, AsBucket(x.buckets[k]), price) > 0)
    && (forall k :: k in x.buckets && k.subPool == id && k.direction == d && k !in claims ==>
          Outstanding(d, AsBucket(x.buckets[k]), price) == 0)
  }

  /** The steps of `RecoveryProfit`. */
  lemma RecoverySteps(x: State, id: nat, d: Direction, amount: nat, price: nat)
    ensures
      var r := RecoveryProfit(x, id, d, amount, price);
      var bs := SideBuckets(x, id, d);
      var total := TotalOutstanding(d, bs, price);
      && (!ClaimsFit(d, bs, price) ==> r == Err(IndexerOverflow))
      && (ClaimsFit(d, bs, price) && total == 0 ==> r == Ok(x))
      && (ClaimsFit(d, bs, price) && total > 0 ==>
            r == if Overflows(x, id, d, amount, price, total) then Err(IndexerOverflow)
                 else Ok(x.(positions := RestedViews(x, id, d, amount, price, total),
                            buckets := CreditedViews(x, id, d, amount, price, total))))
  {
    hide ClaimsFit, TotalOutstanding, RestedViews, CreditedViews, SideBuckets;
  }

  /** A view once the buckets in `done` have been paid. */
  function RestedSoFar(
    x: State, v: PositionView, done: set<Key>, id: nat, d: Direction, price: nat, amount: nat, total: nat): PositionView
  {
    if HomeKey(v) in done then RestedPosition(x, v, id, d, price, amount, total) else v
  }

  /** Positions and buckets once the buckets in `done` have been paid. */
  ghost predicate Paying(
    x: State, views: map<nat, PositionView>, credited: map<Key, BucketView>, done: set<Key>, id: nat, d: Direction, amount: nat,
    price: nat, total: nat)
  {
    && views.Keys == x.positions.Keys && credited.Keys == x.buckets.Keys
    && (forall p :: p in views ==> views[p] == RestedSoFar(x, x.positions[p], done, id, d, price, amount, total))
    && (forall k :: k in credited ==>
          credited[k] == if k in done then Paid(x.buckets[k], d, price, amount, total) else x.buckets[k])
  }

  function Paid(b: BucketView, d: Direction, price: nat, amount: nat, total: nat): BucketView {
    b.(accrued := b.accrued + BucketPart(AsBucket(b), d, price, amount, total))
  }

  lemma PayingStarts(x: State, id: nat, d: Direction, amount: nat, price: nat, total: nat)
    ensures Paying(x, x.positions, x.buckets, {}, id, d, amount, price, total)
  {
  }

  /** A bucket that receives nothing leaves its positions alone. */
  lemma NothingRested(x: State, v: PositionView, id: nat, d: Direction, price: nat, amount: nat, total: nat)
    requires
      var k := HomeKey(v);
      k in x.buckets && k.subPool == id && k.direction == d ==> BucketPart(AsBucket(x.buckets[k]), d, price, amount, total) == 0
    ensures RestedPosition(x, v, id, d, price, amount, total) == v
  {
    hide BucketPart;
  }

  lemma NothingClaimed(b: Bucket, d: Direction, price: nat, amount: nat, total: nat)
    requires Outstanding(d, b, price) == 0
    ensures BucketPart(b, d, price, amount, total) == 0
  {
  }

  /** Once every claim has been paid, nothing is left to do. */
  lemma PayingEnds(
    x: State, views: map<nat, PositionView>, credited: map<Key, BucketView>, claims: map<Key, nat>, id: nat, d: Direction,
    amount: nat, price: nat, total: nat)
    requires Claims(x, id, d, price, claims)
    requires Paying(x, views, credited, claims.Keys, id, d, amount, price, total)
    ensures views == RestedViews(x, id, d, amount, price, total)
    ensures credited == CreditedViews(x, id, d, amount, price, total)
  {
    hide BucketPart, RestedPosition, AsBucket, Outstanding;
    forall p | p in views
      ensures views[p] == RestedPosition(x, x.positions[p], id, d, price, amount, total)
    {
      var v := x.positions[p];
      var k := HomeKey(v);
      if k !in claims {
        if k in x.buckets && k.subPool == id && k.direction == d {
          NothingClaimed(AsBucket(x.buckets[k]), d, price, amount, total);
        }
        NothingRested(x, v, id, d, price, amount, total);
      }
    }
    forall k | k in credited
      ensures credited[k] == if k.subPool == id && k.direction == d then Paid(x.buckets[k], d, price, amount, total) else x.buckets[k]
    {
      if k.subPool == id && k.direction == d && k !in claims {
        NothingClaimed(AsBucket(x.buckets[k]), d, price, amount, total);
      }
    }
  }

  /** The steps for one bucket: its part, and what it does to the rest of the loop. */
  lemma PaidNothing(
    x: State, views: map<nat, PositionView>, credited: map<Key, BucketView>, done: set<Key>, k: Key, id: nat, d: Direction,
    amount: nat, price: nat, total: nat)
    requires Paying(x, views, credited, done, id, d, amount, price, total)
    requires k in x.buckets && BucketPart(AsBucket(x.buckets[k]), d, price, amount, total) == 0
    ensures Paying(x, views, credited, done + {k}, id, d, amount, price, total)
  {
    hide BucketPart, RestedPosition, AsBucket;
    forall p | p in views
      ensures views[p] == RestedSoFar(x, x.positions[p], done + {k}, id, d, price, amount, total)
    {
      if HomeKey(x.positions[p]) == k {
        NothingRested(x, x.positions[p], id, d, price, amount, total);
      }
    }
  }

  /** The position loop of one bucket: views outside `todo` have been paid. */
  ghost predicate PayingRest(
    x: State, views: map<nat, PositionView>, todo: set<nat>, done: set<Key>, k: Key, id: nat, d: Direction, amount: nat, price: nat,
    total: nat)
  {
    && views.Keys == x.positions.Keys
    && (forall p :: p in views && p in todo ==>
          views[p] == RestedSoFar(x, x.positions[p], done, id, d, price, amount, total))
    && (forall p :: p in views && p !in todo ==>
          views[p] == RestedSoFar(x, x.positions[p], done + {k}, id, d, price, amount, total))
  }

  lemma PayingRestKeys(
    x: State, views: map<nat, PositionView>, todo: set<nat>, done: set<Key>, k: Key, id: nat, d: Direction, amount: nat,
    price: nat, total: nat)
    requires PayingRest(x, views, todo, done, k, id, d, amount, price, total)
    ensures views.Keys == x.positions.Keys
  {
    hide RestedSoFar;
  }

  lemma PayingRestAt(
    x: State, views: map<nat, PositionView>, todo: set<nat>, p: nat, done: set<Key>, k: Key, id: nat, d: Direction, amount: nat,
    price: nat, total: nat)
    requires PayingRest(x, views, todo, done, k, id, d, amount, price, total) && p in views && p in todo
    ensures p in x.positions && views[p] == RestedSoFar(x, x.positions[p], done, id, d, price, amount, total)
  {
    hide RestedSoFar;
  }

  lemma PayingRestStep(
    x: State, views: map<nat, PositionView>, views': map<nat, PositionView>, todo: set<nat>, p: nat, done: set<Key>, k: Key,
    id: nat, d: Direction, amount: nat, price: nat, total: nat)
    requires PayingRest(x, views, todo, done, k, id, d, amount, price, total) && p in views && p in todo
    requires p in views' && views' == views[p := views'[p]] && ViewsInRange(views)
    requires p in x.positions && views'[p] == RestedSoFar(x, x.positions[p], done + {k}, id, d, price, amount, total)
    requires views'[p] == views[p].(profit := views'[p].profit)
    requires views' == views || views'[p].profit < U128
    ensures PayingRest(x, views', todo - {p}, done, k, id, d, amount, price, total) && ViewsInRange(views')
  {
    hide RestedSoFar;
  }

  /** One view in that loop. */
  lemma RestStep(x: State, v: PositionView, done: set<Key>, k: Key, id: nat, d: Direction, amount: nat, price: nat, total: nat)
    requires k in x.buckets && k !in done && k.subPool == id && k.direction == d && x.buckets[k].shares > 0
    ensures
      var before := RestedSoFar(x, v, done, id, d, price, amount, total);
      var part := BucketPart(AsBucket(x.buckets[k]), d, price, amount, total);
      && (RestsIn(before, k) <==> RestsIn(v, k))
      && before.recovery == v.recovery
      && RestedSoFar(x, v, done + {k}, id, d, price, amount, total)
           == if RestsIn(before, k)
              then before.(profit := before.profit + FloorDiv(part, before.recovery, x.buckets[k].shares))
              else before
  {
    hide BucketPart, FloorDiv;
  }

  lemma NoOverflow(
    x: State, views: map<nat, PositionView>, credited: map<Key, BucketView>, id: nat, d: Direction, amount: nat, price: nat, total: nat)
    requires views == RestedViews(x, id, d, amount, price, total) && credited == CreditedViews(x, id, d, amount, price, total)
    requires ViewsInRange(views) && forall k :: k in credited ==> credited[k].accrued < U128
    ensures !Overflows(x, id, d, amount, price, total)
  {
    hide RestedViews, CreditedViews;
  }

  /** The claims of the keys outside `todo`, whose ticks are `ticks`. */
  ghost predicate Collecting(
    x: State, id: nat, d: Direction, price: nat, ticks: set<int>, todo: set<Key>, claims: map<Key, nat>, total: nat)
  {
    var bs := SideBuckets(x, id, d);
    && (forall t :: t in ticks <==> Key(id, d, t) in x.buckets && Key(id, d, t) !in todo)
    && (forall t :: t in ticks ==> t in bs && Intrinsic(d, bs[t], price) < U128)
    && total == Sum(Part(Outstandings(d, bs, price), ticks)) < U128
    && (forall k :: k in claims ==>
          && k in x.buckets && k.subPool == id && k.direction == d && k !in todo
          && claims[k] == Outstanding(d, AsBucket(x.buckets[k]), price) > 0)
    && (forall k :: k in x.buckets && k.subPool == id && k.direction == d && k !in todo && k !in claims ==>
          Outstanding(d, AsBucket(x.buckets[k]), price) == 0)
  }

  lemma CollectStarts(x: State, id: nat, d: Direction, price: nat)
    ensures Collecting(x, id, d, price, {}, x.buckets.Keys, map[], 0)
  {
    PartNone(Outstandings(d, SideBuckets(x, id, d), price));
    hide Sum, Part, SideBuckets, Outstandings;
  }

  lemma CollectOther(
    x: State, id: nat, d: Direction, price: nat, ticks: set<int>, todo: set<Key>, claims: map<Key, nat>, total: nat, k: Key)
    requires Collecting(x, id, d, price, ticks, todo, claims, total) && k in todo && (k.subPool != id || k.direction != d)
    ensures Collecting(x, id, d, price, ticks, todo - {k}, claims, total)
  {
    hide Sum, Part, SideBuckets, Outstandings, Intrinsic, Outstanding, AsBucket;
  }

  /** One more bucket of the side. */
  lemma CollectOne(
    x: State, id: nat, d: Direction, price: nat, ticks: set<int>, todo: set<Key>, claims: map<Key, nat>, total: nat, k: Key)
    requires Collecting(x, id, d, price, ticks, todo, claims, total) && todo <= x.buckets.Keys && k in todo
    requires k.subPool == id && k.direction == d
    ensures total < U128
    ensures
      var b := AsBucket(x.buckets[k]);
      var outstanding := Outstanding(d, b, price);
      && (Intrinsic(d, b, price) >= U128 || total + outstanding >= U128 ==> !ClaimsFit(d, SideBuckets(x, id, d), price))
      && (Intrinsic(d, b, price) < U128 && total + outstanding < U128 ==>
            Collecting(x, id, d, price, ticks + {k.tick}, todo - {k},
                       if outstanding > 0 then claims[k := outstanding] else claims, total + outstanding))
  {
    hide Sum, Part, SideBuckets, Intrinsic, Outstanding, AsBucket;
    IndexerViews.SideBucketsAt(x, id, d, k.tick);
    assert k == Key(id, d, k.tick);
    PartStep(Outstandings(d, SideBuckets(x, id, d), price), ticks, k.tick);
  }

  lemma CollectEnds(x: State, id: nat, d: Direction, price: nat, ticks: set<int>, claims: map<Key, nat>, total: nat)
    requires Collecting(x, id, d, price, ticks, {}, claims, total)
    ensures ClaimsFit(d, SideBuckets(x, id, d), price) && total == TotalOutstanding(d, SideBuckets(x, id, d), price)
    ensures Claims(x, id, d, price, claims)
  {
    hide Sum, Part, SideBuckets, Intrinsic, Outstanding, AsBucket;
    SideKeys(x, id, d);
    PartAll(Outstandings(d, SideBuckets(x, id, d), price), ticks);
  }

  /** What the checked computation of a claim yields. */
  lemma OutstandingIs(d: Direction, b: Bucket, price: nat)
    ensures Outstanding(d, b, price) == SaturatingSub(Intrinsic(d, b, price), b.accrued)
    ensures !Activated(d, b.anchor, price) ==> Intrinsic(d, b, price) == 0 && Outstanding(d, b, price) == 0
    ensures IntrinsicClaim(d, b, price) == if Intrinsic(d, b, price) < U128 then Ok(Intrinsic(d, b, price)) else Err(MathOverflow)
  {
    hide FloorDiv;
  }

  lemma SideKeys(x: State, id: nat, d: Direction)
    ensures forall t :: t in SideBuckets(x, id, d) <==> Key(id, d, t) in x.buckets
  {
    forall t
      ensures t in SideBuckets(x, id, d) <==> Key(id, d, t) in x.buckets
    {
      IndexerViews.SideBucketsAt(x, id, d, t);
    }
  }

  /** The claim of bucket `k`, whose view is still as it was. */
  lemma ClaimOfBucket(
    x: State, views: map<nat, PositionView>, credited: map<Key, BucketView>, claims: map<Key, nat>, done: set<Key>, k: Key, id: nat,
    d: Direction, amount: nat, price: nat, total: nat)
    requires Claims(x, id, d, price, claims) && k in claims && k !in done && total > 0
    requires Paying(x, views, credited, done, id, d, amount, price, total)
    ensures k in x.buckets && k in credited && credited[k] == x.buckets[k] && k.subPool == id && k.direction == d
    ensures BucketPart(AsBucket(x.buckets[k]), d, price, amount, total)
         == if x.buckets[k].shares == 0 then 0 else Share(amount, claims[k], total)
  {
    hide RestedSoFar, Outstanding, Share;
  }

  lemma PayingRestStarts(
    x: State, views: map<nat, PositionView>, credited: map<Key, BucketView>, done: set<Key>, k: Key, id: nat, d: Direction, amount: nat,
    price: nat, total: nat)
    requires Paying(x, views, credited, done, id, d, amount, price, total)
    ensures PayingRest(x, views, views.Keys, done, k, id, d, amount, price, total)
  {
    hide RestedSoFar;
  }

  /** A view that overflows in the loop overflows in the end. */
  ghost predicate Overflows(x: State, id: nat, d: Direction, amount: nat, price: nat, total: nat) {
    var views, credited := RestedViews(x, id, d, amount, price, total), CreditedViews(x, id, d, amount, price, total);
    || (exists p :: p in views && views[p].profit >= U128)
    || (exists k :: k in credited && k.subPool == id && k.direction == d && credited[k].accrued >= U128)
  }

  lemma RestedTooMuch(x: State, done: set<Key>, k: Key, id: nat, d: Direction, amount: nat, price: nat, total: nat)
    requires exists p :: p in x.positions
                         && RestedSoFar(x, x.positions[p], done + {k}, id, d, price, amount, total).profit >= U128
    ensures Overflows(x, id, d, amount, price, total)
  {
    hide BucketPart;
    var p :| p in x.positions && RestedSoFar(x, x.positions[p], done + {k}, id, d, price, amount, total).profit >= U128;
    var views := RestedViews(x, id, d, amount, price, total);
    assert p in views && views[p].profit >= U128;
  }

  lemma CreditedTooMuch(x: State, k: Key, id: nat, d: Direction, amount: nat, price: nat, total: nat)
    requires k in x.buckets && k.subPool == id && k.direction == d
    requires x.buckets[k].accrued + BucketPart(AsBucket(x.buckets[k]), d, price, amount, total) >= U128
    ensures Overflows(x, id, d, amount, price, total)
  {
    hide BucketPart;
    var credited := CreditedViews(x, id, d, amount, price, total);
    assert k in credited && credited[k].accrued >= U128;
  }

  /** Bucket `k` and its positions are paid. */
  lemma PaidOne(
    x: State, was: map<nat, PositionView>, views: map<nat, PositionView>, credited: map<Key, BucketView>, done: set<Key>, k: Key,
    id: nat, d: Direction, amount: nat, price: nat, total: nat)
    requires Paying(x, was, credited, done, id, d, amount, price, total) && k in x.buckets && k !in done
    requires k in credited
    requires PayingRest(x, views, {}, done, k, id, d, amount, price, total)
    ensures
      var part := BucketPart(AsBucket(x.buckets[k]), d, price, amount, total);
      Paying(x, views, credited[k := credited[k].(accrued := credited[k].accrued + part)], done + {k}, id, d, amount, price, total)
  {
    hide RestedSoFar, BucketPart, AsBucket;
  }

  lemma TouchedSide(x: State, id: nat, d: Direction)
    ensures id in Touch(x, id).subPools && Touch(x, id).subPools[id] == SubPoolAt(x, id)
    ensures Touch(x, id) == x.(subPools := Touch(x, id).subPools)
  {
  }

  /** `IndexerState`. */
  class IndexerState {
    var positions: map<nat, PositionView>
    var buckets: map<Key, BucketView>
    var subPools: map<nat, SubPoolView>

    function Now(): State
      reads this
    {
      State(positions, buckets, subPools)
    }

    /** The 128-bit counters that are added to are in range. */
    ghost predicate Valid()
      reads this
    {
      && ViewsInRange(positions)
      && (forall k :: k in buckets ==> buckets[k].accrued < U128)
    }

    constructor ()
      ensures Valid() && Now() == EmptyState()
    {
      positions, buckets, subPools := map[], map[], map[];
    }

    /** `sub_pool_mut`. */
    method SubPoolMut(id: nat)
      modifies `subPools
      ensures Now() == Touch(old(Now()), id)
    {
      if id !in subPools {
        subPools := subPools[id := SubPoolView(NewSide(), NewSide())];
      } else {
        assert subPools == subPools[id := subPools[id]];
      }
    }

    /** `apply_open`. */
    method ApplyOpen(id: nat, p: nat, d: Direction, principal: nat, notional: nat, shares: nat, generation: nat)
      requires Valid()
      modifies this
      ensures Valid() && Now() == Indexer.ApplyOpen(old(Now()), id, p, d, principal, notional, shares, generation)
    {
      positions := positions[p := PositionView(id, d, principal, notional, shares, 0, None, generation, 0, 0, false)];
      SubPoolMut(id);
      var side := subPools[id].Side(d);
      if side.generation < generation {
        side := side.(generation := generation);
      }
      subPools := subPools[id := subPools[id].With(d, side)];
    }

    /** `distribute_active_profit`. */
    method DistributeActiveProfit(id: nat, d: Direction, inflow: nat, total: nat) returns (r: IndexerResult<()>)
      requires Valid()
      modifies this
      ensures
        var spec := ActiveProfit(old(Now()), id, d, inflow, total);
        if spec.Ok? then r == Ok(()) && Now() == spec.value && Valid() else r == Err(spec.error)
    {
      hide ActiveProfit, Touch, SubPoolAt, Gained, IsActive, GainedViews, Gaining, ViewsInRange;
      ghost var x := Now();
      ActiveProfitSteps(x, id, d, inflow, total);
      if total == 0 {
        return Err(StateMismatch(NoSharesIn));
      }
      SubPoolMut(id);
      TouchedSide(x, id, d);
      var generation := subPools[id].Side(d).generation;
      var todo := positions.Keys;
      GainingStart(positions, id, d, generation, inflow, total);
      while todo != {}
        invariant todo <= positions.Keys == x.positions.Keys
        invariant Gaining(x.positions, positions, todo, id, d, generation, inflow, total)
        invariant ViewsInRange(positions) && unchanged(`buckets) && subPools == Touch(x, id).subPools
        decreases todo
      {
        var p := Choose(todo);
        ghost var views := positions;
        GainingAt(x.positions, views, todo, p, id, d, generation, inflow, total);
        if IsActive(positions[p], id, d, generation) {
          var next := Gained(positions[p], inflow, total);
          GainedInRange(positions[p], inflow, total);
          if next.Err? {
            return Err(next.error);
          }
          positions := positions[p := next.value];
        }
        GainingStep(x.positions, views, positions, todo, p, id, d, generation, inflow, total);
        todo := todo - {p};
      }
      GainingEnds(x.positions, positions, id, d, generation, inflow, total);
      return Ok(());
    }

    /** `distribute_active_loss`. */
    method DistributeActiveLoss(id: nat, d: Direction, outflow: nat, total: nat) returns (r: IndexerResult<()>)
      requires Valid()
      modifies this
      ensures
        var spec := ActiveLoss(old(Now()), id, d, outflow, total);
        if spec.Ok? then r == Ok(()) && Now() == spec.value && Valid() else r == Err(spec.error)
    {
      hide ActiveLoss, Touch, SubPoolAt, Lost, IsActive, LostViews, Losing, ViewsInRange;
      ghost var x := Now();
      ActiveLossSteps(x, id, d, outflow, total);
      if total == 0 {
        return Err(StateMismatch(NoSharesOut));
      }
      SubPoolMut(id);
      TouchedSide(x, id, d);
      var generation := subPools[id].Side(d).generation;
      var todo := positions.Keys;
      LosingStart(positions, id, d, generation, outflow, total);
      while todo != {}
        invariant todo <= positions.Keys == x.positions.Keys
        invariant Losing(x.positions, positions, todo, id, d, generation, outflow, total)
        invariant ViewsInRange(positions) && unchanged(`buckets) && subPools == Touch(x, id).subPools
        decreases todo
      {
        var p := Choose(todo);
        ghost var views := positions;
        LosingAt(x.positions, views, todo, p, id, d, generation, outflow, total);
        if IsActive(positions[p], id, d, generation) {
          var next := Lost(positions[p], outflow, total);
          LostInRange(positions[p], outflow, total);
          if next.Err? {
            return Err(next.error);
          }
          positions := positions[p := next.value];
        }
        LosingStep(x.positions, views, positions, todo, p, id, d, generation, outflow, total);
        todo := todo - {p};
      }
      LosingEnds(x.positions, positions, id, d, generation, outflow, total);
      return Ok(());
    }

    /** The first half of `distribute_recovery_profit`: the claims of the activated buckets and their sum. */
    method CollectClaims(id: nat, d: Direction, price: nat) returns (r: IndexerResult<(map<Key, nat>, nat)>)
      ensures
        var bs := SideBuckets(Now(), id, d);
        && (r.Err? ==> r.error == IndexerOverflow && !ClaimsFit(d, bs, price))
        && (r.Ok? ==>
              && ClaimsFit(d, bs, price) && r.value.1 == TotalOutstanding(d, bs, price)
              && Claims(Now(), id, d, price, r.value.0))
    {
      hide Collecting, ClaimsFit, TotalOutstanding, SideBuckets, Claims, Intrinsic, Outstanding;
      ghost var x := Now();
      ghost var ticks: set<int> := {};
      var claims: map<Key, nat>, total := map[], 0;
      var todo := buckets.Keys;
      CollectStarts(x, id, d, price);
      while todo != {}
        invariant todo <= buckets.Keys
        invariant Collecting(x, id, d, price, ticks, todo, claims, total)
        decreases todo
      {
        var k := Choose(todo);
        if k.subPool != id || k.direction != d {
          CollectOther(x, id, d, price, ticks, todo, claims, total, k);
          todo := todo - {k};
          continue;
        }
        var b := AsBucket(buckets[k]);
        CollectOne(x, id, d, price, ticks, todo, claims, total, k);
        if Activated(d, b.anchor, price) {
          var intrinsic := IntrinsicClaim(d, b, price);
          if intrinsic.Err? {
            return Err(IndexerOverflow);
          }
          var outstanding := SaturatingSub(intrinsic.value, b.accrued);
          OutstandingIs(d, b, price);
          if outstanding > 0 {
            if total + outstanding >= U128 {
              return Err(IndexerOverflow);
            }
            total := total + outstanding;
            claims := claims[k := outstanding];
          }
        } else {
          OutstandingIs(d, b, price);
        }
        ticks := ticks + {k.tick};
        todo := todo - {k};
      }
      CollectEnds(x, id, d, price, ticks, claims, total);
      return Ok((claims, total));
    }

    /** The position loop of one bucket. */
    method PayResting(ghost x: State, ghost done: set<Key>, k: Key, id: nat, d: Direction, amount: nat, price: nat, total: nat, part: nat)
      returns (r: IndexerResult<()>)
      requires Valid() && total > 0
      requires k in x.buckets && k !in done && k.subPool == id && k.direction == d && x.buckets[k].shares > 0
      requires k in buckets && buckets[k].shares == x.buckets[k].shares
      requires part == BucketPart(AsBucket(x.buckets[k]), d, price, amount, total)
      requires PayingRest(x, positions, positions.Keys, done, k, id, d, amount, price, total)
      modifies `positions
      ensures r.Ok? ==> Valid() && PayingRest(x, positions, {}, done, k, id, d, amount, price, total)
      ensures r.Err? ==>
        && r.error == IndexerOverflow
        && exists p :: p in x.positions
                       && RestedSoFar(x, x.positions[p], done + {k}, id, d, price, amount, total).profit >= U128
    {
      hide RestedSoFar, BucketPart, PayingRest, ViewsInRange, RestsIn;
      var todo := positions.Keys;
      assert positions.Keys == x.positions.Keys by { PayingRestKeys(x, positions, todo, done, k, id, d, amount, price, total); }
      while todo != {}
        invariant todo <= positions.Keys == x.positions.Keys
        invariant Valid() && PayingRest(x, positions, todo, done, k, id, d, amount, price, total)
        decreases todo
      {
        var p := Choose(todo);
        ghost var views := positions;
        PayingRestAt(x, views, todo, p, done, k, id, d, amount, price, total);
        RestStep(x, x.positions[p], done, k, id, d, amount, price, total);
        var v := positions[p];
        if RestsIn(v, k) {
          var gain := FloorDiv(part, v.recovery, buckets[k].shares);
          if gain >= U128 || v.profit + gain >= U128 {
            return Err(IndexerOverflow);
          }
          v := v.(profit := v.profit + gain);
          positions := positions[p := v];
        }
        PayingRestStep(x, views, positions, todo, p, done, k, id, d, amount, price, total);
        todo := todo - {p};
      }
      return Ok(());
    }

    /** `distribute_recovery_profit`. */
    method DistributeRecoveryProfit(id: nat, d: Direction, amount: nat, price: nat) returns (r: IndexerResult<()>)
      requires Valid() && amount < U128
      modifies this
      ensures
        var spec := RecoveryProfit(old(Now()), id, d, amount, price);
        if spec.Ok? then r == Ok(()) && Now() == spec.value && Valid() else r == Err(spec.error)
    {
      hide RecoveryProfit, ClaimsFit, TotalOutstanding, SideBuckets, Claims, RestedViews, CreditedViews, Overflows;
      ghost var x := Now();
      RecoverySteps(x, id, d, amount, price);
      var collected := CollectClaims(id, d, price);
      if collected.Err? {
        return Err(collected.error);
      }
      var (claims, total) := collected.value;
      if total == 0 {
        return Ok(());
      }
      r := PayClaims(x, claims, id, d, amount, price, total);
      if r.Ok? {
        NoOverflow(x, positions, buckets, id, d, amount, price, total);
        return Ok(());
      }
    }

    /** The gains of one side in a sync. */
    method ReplayGains(id: nat, d: Direction, f: Flow, sharesBefore: nat, price: nat) returns (r: IndexerResult<()>)
      requires Valid()
      modifies this
      ensures
        var spec := SideGains(old(Now()), id, d, f, sharesBefore, price);
        if spec.Ok? then r == Ok(()) && Now() == spec.value && Valid() else r == Err(spec.error)
    {
      hide ActiveProfit, RecoveryProfit;
      if f.toPool > 0 {
        r := DistributeActiveProfit(id, d, f.toPool, sharesBefore);
        if r.Err? {
          return;
        }
      }
      if f.toRecovery > 0 || f.residual > 0 {
        if f.toRecovery + f.residual >= U128 {
          return Err(IndexerOverflow);
        }
        r := DistributeRecoveryProfit(id, d, f.toRecovery + f.residual, price);
        return;
      }
      return Ok(());
    }

    /** `apply_pool_sync`. */
    method ApplyPoolSync(id: nat, price: nat, longBefore: nat, shortBefore: nat, long: Flow, short: Flow)
      returns (r: IndexerResult<()>)
      requires Valid()
      modifies this
      ensures
        var spec := ApplySync(old(Now()), id, price, longBefore, shortBefore, long, short);
        if spec.Ok? then r == Ok(()) && Now() == spec.value && Valid() else r == Err(spec.error)
    {
      hide SideGains, ActiveLoss, Amount;
      r := ReplayGains(id, Long, long, longBefore, price);
      if r.Err? {
        return;
      }
      r := ReplayGains(id, Short, short, shortBefore, price);
      if r.Err? {
        return;
      }
      var longOutflow, shortOutflow := Amount(long), Amount(short);
      if longOutflow > 0 {
        r := DistributeActiveLoss(id, Short, longOutflow, shortBefore);
        if r.Err? {
          return;
        }
      }
      if shortOutflow > 0 {
        r := DistributeActiveLoss(id, Long, shortOutflow, longBefore);
        return;
      }
      return Ok(());
    }

    /** One bucket of the second half: its positions, then the bucket itself. */
    method PayClaim(ghost x: State, ghost done: set<Key>, k: Key, id: nat, d: Direction, amount: nat, price: nat, total: nat, part: nat)
      returns (r: IndexerResult<()>)
      requires Valid() && total > 0 && subPools == x.subPools
      requires k in x.buckets && k !in done && k.subPool == id && k.direction == d
      requires k in buckets && buckets[k] == x.buckets[k]
      requires BucketPart(AsBucket(x.buckets[k]), d, price, amount, total) == if x.buckets[k].shares == 0 then 0 else part
      requires Paying(x, positions, buckets, done, id, d, amount, price, total)
      modifies this
      ensures subPools == x.subPools
      ensures r.Ok? ==> Valid() && Paying(x, positions, buckets, done + {k}, id, d, amount, price, total)
      ensures r.Err? ==> r.error == IndexerOverflow && Overflows(x, id, d, amount, price, total)
    {
      hide Paying, PayingRest, BucketPart, Overflows, AsBucket, RestedSoFar;
      if part == 0 || buckets[k].shares == 0 {
        PaidNothing(x, positions, buckets, done, k, id, d, amount, price, total);
        return Ok(());
      }
      PayingRestStarts(x, positions, buckets, done, k, id, d, amount, price, total);
      ghost var was := positions;
      r := PayResting(x, done, k, id, d, amount, price, total, part);
      if r.Err? {
        RestedTooMuch(x, done, k, id, d, amount, price, total);
        return;
      }
      if buckets[k].accrued + part >= U128 {
        CreditedTooMuch(x, k, id, d, amount, price, total);
        return Err(IndexerOverflow);
      }
      PaidOne(x, was, positions, buckets, done, k, id, d, amount, price, total);
      buckets := buckets[k := buckets[k].(accrued := buckets[k].accrued + part)];
    }

    /** The second half of `distribute_recovery_profit`: every claim is paid its part. */
    method PayClaims(ghost x: State, claims: map<Key, nat>, id: nat, d: Direction, amount: nat, price: nat, total: nat)
      returns (r: IndexerResult<()>)
      requires Valid() && x == Now() && total > 0 && Claims(x, id, d, price, claims)
      modifies this
      ensures r.Ok? ==>
        && Valid()
        && Now() == x.(positions := RestedViews(x, id, d, amount, price, total),
                       buckets := CreditedViews(x, id, d, amount, price, total))
      ensures r.Err? ==> r.error == IndexerOverflow && Overflows(x, id, d, amount, price, total)
    {
      hide RestedViews, CreditedViews, Paying, BucketPart, Claims, Share, Overflows, AsBucket;
      PayingStarts(x, id, d, amount, price, total);
      var todo := claims.Keys;
      assert claims.Keys - todo == {};
      while todo != {}
        invariant todo <= claims.Keys && subPools == x.subPools
        invariant Valid() && Paying(x, positions, buckets, claims.Keys - todo, id, d, amount, price, total)
        decreases todo
      {
        var k := Choose(todo);
        ghost var done := claims.Keys - todo;
        assert claims.Keys - (todo - {k}) == done + {k};
        ClaimOfBucket(x, positions, buckets, claims, done, k, id, d, amount, price, total);
        r := PayClaim(x, done, k, id, d, amount, price, total, Share(amount, claims[k], total));
        if r.Err? {
          return;
        }
        todo := todo - {k};
      }
      assert claims.Keys - todo == claims.Keys;
      PayingEnds(x, positions, buckets, claims, id, d, amount, price, total);
      return Ok(());
    }

    /** The rotation of the position views: the loop of `apply_rotate`. */
    method RotateViews(id: nat, d: Direction, tick: int, ended: nat, generation: nat) returns (r: IndexerResult<()>)
      requires Valid()
      modifies `positions
      ensures
        if Unrotatable(old(positions), id, d, ended) then r == Err(IndexerOverflow)
        else
          && r == Ok(()) && Valid()
          && positions == RotatedViews(old(positions), id, d, ended, tick, generation)
    {
      hide RotatedViews, Rotates;
      ghost var was := positions;
      var todo := positions.Keys;
      while todo != {}
        invariant todo <= positions.Keys == was.Keys
        invariant Rotating(was, positions, todo, id, d, ended, tick, generation)
        invariant Valid()
        decreases todo
      {
        var p := Choose(todo);
        var v := positions[p];
        if Rotates(v, id, d, ended) {
          if v.recovery + v.active >= U128 {
            return Err(IndexerOverflow);
          }
          v := v.(recovery := v.recovery + v.active);
          v := v.(tick := Some(tick));
          v := v.(active := 0);
          v := v.(generation := generation);
          positions := positions[p := v];
        }
        todo := todo - {p};
      }
      RotatingEnds(was, positions, id, d, ended, tick, generation);
      return Ok(());
    }

    /** `apply_rotate`. */
    method ApplyRotate(id: nat, d: Direction, tick: int, anchor: nat, shares: nat, notional: nat, ended: nat)
      returns (r: IndexerResult<()>)
      requires Valid()
      modifies this
      ensures
        var spec := Indexer.ApplyRotate(old(Now()), id, d, tick, anchor, shares, notional, ended);
        if spec.Ok? then r == Ok(()) && Now() == spec.value && Valid() else r == Err(spec.error)
    {
      hide RotatedViews, Rotates, Unrotatable, Indexer.ApplyRotate, ViewsInRange;
      RotateSteps(Now(), id, d, tick, anchor, shares, notional, ended);
      SubPoolMut(id);
      var side := subPools[id].Side(d);
      side := SideView(side.generation + 1, side.log + [RotateEntry(ended, tick)]);
      subPools := subPools[id := subPools[id].With(d, side)];
      r := RotateViews(id, d, tick, ended, side.generation);
      if r.Err? {
        return;
      }
      var b := BucketAt(Now(), Key(id, d, tick), anchor);
      if b.shares + shares >= U128 {
        return Err(IndexerOverflow);
      }
      if b.notional + notional >= U128 {
        return Err(IndexerOverflow);
      }
      b := b.(shares := b.shares + shares);
      b := b.(notional := b.notional + notional);
      buckets := buckets[Key(id, d, tick) := b];
    }

    /** `burn_from_bucket`. */
    method BurnFromBucket(k: Key, shares: nat, notional: nat, value: nat) returns (r: IndexerResult<()>)
      requires Valid()
      modifies `buckets
      ensures
        var spec := BurnFrom(old(Now()), k, shares, notional, value);
        if spec.Ok? then r == Ok(()) && Now() == spec.value && Valid() else r == Err(spec.error)
    {
      if k !in buckets {
        return Err(BucketMismatch(MissingView));
      }
      var b := buckets[k];
      if shares > b.shares {
        return Err(IndexerOverflow);
      }
      b := b.(shares := b.shares - shares);
      b := b.(notional := SaturatingSub(b.notional, notional));
      b := b.(accrued := SaturatingSub(b.accrued, value));
      buckets := if b.shares == 0 && b.accrued == 0 then buckets - {k} else buckets[k := b];
      return Ok(());
    }

    /** `apply_close` and `apply_force_close`. */
    method ApplyLeave(id: nat, p: nat, d: Direction, active: nat, recovery: nat, notional: nat, value: nat)
      returns (r: IndexerResult<()>)
      requires Valid()
      modifies this
      ensures
        var spec := Indexer.ApplyLeave(old(Now()), id, p, d, active, recovery, notional, value);
        if spec.Ok? then r == Ok(()) && Now() == spec.value && Valid() else r == Err(spec.error)
    {
      if p !in positions {
        return Err(UnknownPosition(p));
      }
      if positions[p].closed {
        return Err(StateMismatch(AlreadyClosed));
      }
      if recovery > 0 {
        if positions[p].tick.None? {
          return Err(BucketMismatch(NoTick));
        }
        var burned := BurnFromBucket(Key(id, d, positions[p].tick.value), recovery, notional, value);
        if burned.Err? {
          return burned;
        }
      }
      var v := positions[p];
      if active > v.active {
        return Err(IndexerOverflow);
      }
      v := v.(active := v.active - active);
      if recovery > v.recovery {
        return Err(IndexerOverflow);
      }
      v := v.(recovery := v.recovery - recovery);
      v := v.(tick := if v.recovery == 0 then None else v.tick);
      v := v.(closed := true);
      positions := positions[p := v];
      return Ok(());
    }

    /** `apply_claim_recovery`. */
    method ApplyClaim(id: nat, p: nat, d: Direction, tick: int, recovery: nat, notional: nat, value: nat)
      returns (r: IndexerResult<()>)
      requires Valid()
      modifies this
      ensures
        var spec := Indexer.ApplyClaim(old(Now()), id, p, d, tick, recovery, notional, value);
        if spec.Ok? then r == Ok(()) && Now() == spec.value && Valid() else r == Err(spec.error)
    {
      if p !in positions {
        return Err(UnknownPosition(p));
      }
      if positions[p].closed {
        return Err(StateMismatch(AlreadyClosed));
      }
      var burned := BurnFromBucket(Key(id, d, tick), recovery, notional, value);
      if burned.Err? {
        return burned;
      }
      var v := positions[p];
      if recovery > v.recovery {
        return Err(IndexerOverflow);
      }
      v := v.(recovery := v.recovery - recovery);
      if v.recovery == 0 {
        v := v.(tick := None);
      }
      v := v.(profit := SaturatingSub(v.profit, value));
      positions := positions[p := v];
      return Ok(());
    }

    /** `apply`. */
    method Apply(e: EngineEvent) returns (r: IndexerResult<()>)
      requires Valid()
      modifies this
      ensures
        var spec := ApplyEvent(old(Now()), e);
        if spec.Ok? then r == Ok(()) && Now() == spec.value && Valid() else r == Err(spec.error)
    {
      hide ApplySync, Indexer.ApplyOpen, Indexer.ApplyLeave, Indexer.ApplyClaim, Indexer.ApplyRotate;
      match e
      case PoolSync(id, price, longBefore, shortBefore, long, short) =>
        r := ApplyPoolSync(id, price, longBefore, shortBefore, long, short);
      case PositionOpened(id, p, d, principal, notional, shares, g) =>
        ApplyOpen(id, p, d, principal, notional, shares, g);
        return Ok(());
      case PositionClosed(id, p, d, active, recovery, notional, _, value) =>
        r := ApplyLeave(id, p, d, active, recovery, notional, value);
      case PositionForceClosed(id, p, d, active, recovery, notional, value) =>
        r := ApplyLeave(id, p, d, active, recovery, notional, value);
      case DormantRecoveryClaimed(id, p, d, tick, recovery, notional, value) =>
        r := ApplyClaim(id, p, d, tick, recovery, notional, value);
      case ActiveRotatedToRecovery(id, d, tick, anchor, shares, notional, g) =>
        r := ApplyRotate(id, d, tick, anchor, shares, notional, g);
      case DustHarvested(_, _, _) =>
        return Ok(());
      case DormantBucketPendingApplied(_, _, _, _) =>
        return Ok(());
    }

    /** `apply_all`. */
    method ApplyAll(events: seq<EngineEvent>) returns (r: IndexerResult<()>)
      requires Valid()
      modifies this
      ensures
        var spec := ApplyEvents(old(Now()), events);
        if spec.Ok? then r == Ok(()) && Now() == spec.value && Valid() else r == Err(spec.error)
    {
      hide ApplyEvent;
      var i := 0;
      assert events[0..] == events;
      while i < |events|
        invariant 0 <= i <= |events| && Valid()
        invariant ApplyEvents(Now(), events[i..]) == ApplyEvents(old(Now()), events)
      {
        assert events[i..][0] == events[i] && events[i..][1..] == events[i + 1..];
        var applied := Apply(events[i]);
        if applied.Err? {
          return applied;
        }
        i := i + 1;
      }
      return Ok(());
    }
  }

  lemma GainedInRange(v: PositionView, inflow: nat, total: nat)
    requires total > 0
    ensures
      var r := Gained(v, inflow, total);
      && (r.Err? ==> r.error == IndexerOverflow)
      && (r.Ok? ==> r.value.profit < U128 && r.value.lockedLoss == v.lockedLoss)
  {
    hide FloorDiv;
  }

  lemma LostInRange(v: PositionView, outflow: nat, total: nat)
    requires total > 0
    ensures
      var r := Lost(v, outflow, total);
      && (r.Err? ==> r.error == IndexerOverflow)
      && (r.Ok? ==> r.value.lockedLoss < U128 && r.value.profit <= v.profit)
  {
    hide FloorDiv;
  }
}
