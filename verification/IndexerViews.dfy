/** How the indexer's state mirrors a sub pool, and what each kind of event does to it. */
module IndexerViews {
  import opened Wrappers
  import opened MoleMath
  import opened Clearing
  import opened Dormant
  import opened Engine
  import opened Holdings
  import EngineInvariant
  import opened ChainMirror
  import opened Indexer

  // ---------------------------------------------------------------- the relation

  /** A caught-up bucket without the fields the indexer does not keep. */
  function Stripped(bs: map<int, Bucket>): map<int, Bucket> {
    map t | t in bs :: bs[t].(count := 0, applied := 0)
  }

  /** The bucket a position's recovery shares lie in, once its rotations have been applied to it. */
  function TickOf(p: Pool, pos: Position): Option<int> {
    if pos.active > 0 && pos.generation < |p.log| then Some(p.log[pos.generation].tick) else pos.tick
  }

  /** A position view shows what the position holds once migrated. */
  ghost predicate ShowsPosition(v: PositionView, id: nat, p: Pool, pos: Position) {
    && v.subPool == id && v.direction == pos.direction && v.principal == pos.principal
    && v.active == EngineInvariant.HoldingOf(p, pos).active && v.recovery == EngineInvariant.HoldingOf(p, pos).recovery
    && v.tick == TickOf(p, pos)
    && (v.active > 0 ==> v.generation == p.generation)
    && v.closed == pos.status.Closed?
  }

  predicate LogShown(log: seq<RotateEntry>, records: seq<RotateRecord>) {
    && |log| == |records|
    && forall i :: 0 <= i < |log| ==> log[i] == RotateEntry(records[i].generation, records[i].tick)
  }

  ghost predicate ShowsSide(x: State, id: nat, d: Direction, p: Pool) {
    && SideBuckets(x, id, d) == Stripped(View(p.store))
    && SubPoolAt(x, id).Side(d).generation == p.generation
    && LogShown(SubPoolAt(x, id).Side(d).log, p.log)
  }

  ghost predicate ShowsPositions(x: State, id: nat, sp: SubPool, ps: map<nat, Position>) {
    && (forall i :: i in ps ==> i in x.positions && ShowsPosition(x.positions[i], id, sp.Side(ps[i].direction), ps[i]))
    && (forall i :: i in x.positions && x.positions[i].subPool == id ==> i in ps)
  }

  /** No view has locked more than its principal. */
  ghost predicate MoneyOk(x: State) {
    forall i :: i in x.positions ==> x.positions[i].lockedLoss <= x.positions[i].principal < U128
  }

  /**
    The indexer mirrors a sub pool: every bucket view is the chain bucket with its pending share
    credited, every position view is the lazily migrated chain position with its principal, and
    generations and rotate logs agree.
  */
  ghost predicate Mirrors(x: State, id: nat, sp: SubPool, ps: map<nat, Position>) {
    && ShowsSide(x, id, Long, sp.long)
    && ShowsSide(x, id, Short, sp.short)
    && ShowsPositions(x, id, sp, ps)
    && MoneyOk(x)
  }

  /** No position has been credited more than `bound`. */
  ghost predicate ProfitsWithin(x: State, bound: nat) {
    forall i :: i in x.positions ==> x.positions[i].profit <= bound
  }

  /** Nothing that belongs to another sub pool differs. */
  ghost predicate Elsewhere(x: State, x': State, id: nat) {
    && (forall i :: i in x.positions && x.positions[i].subPool != id ==> i in x'.positions && x'.positions[i] == x.positions[i])
    && (forall i :: i in x'.positions && x'.positions[i].subPool != id ==> i in x.positions && x.positions[i] == x'.positions[i])
    && (forall k: Key :: k.subPool != id ==>
          (k in x'.buckets <==> k in x.buckets) && (k in x.buckets ==> x'.buckets[k] == x.buckets[k]))
    && (forall j: nat :: j != id ==> SubPoolAt(x', j) == SubPoolAt(x, j))
  }

  lemma ElsewhereTwice(x: State, y: State, z: State, id: nat)
    requires Elsewhere(x, y, id) && Elsewhere(y, z, id)
    ensures Elsewhere(x, z, id)
  {
    hide SubPoolAt;
  }

  lemma ElsewhereSame(x: State, id: nat)
    ensures Elsewhere(x, x, id)
  {
  }

  lemma SideBucketsAt(x: State, id: nat, d: Direction, t: int)
    ensures t in SideBuckets(x, id, d) <==> Key(id, d, t) in x.buckets
    ensures t in SideBuckets(x, id, d) ==> SideBuckets(x, id, d)[t] == AsBucket(x.buckets[Key(id, d, t)])
  {
    if Key(id, d, t) in x.buckets {
      assert Key(id, d, t).tick == t;
    }
  }

  /** Equal sides are read off equal bucket views. */
  lemma SameSideBuckets(x: State, x': State, id: nat, d: Direction)
    requires forall k: Key :: k.subPool == id && k.direction == d ==>
      (k in x'.buckets <==> k in x.buckets) && (k in x.buckets ==> x'.buckets[k] == x.buckets[k])
    ensures SideBuckets(x', id, d) == SideBuckets(x, id, d)
  {
    forall t | t in SideBuckets(x, id, d)
      ensures t in SideBuckets(x', id, d) && SideBuckets(x', id, d)[t] == SideBuckets(x, id, d)[t]
    {
      SideBucketsAt(x, id, d, t);
      SideBucketsAt(x', id, d, t);
    }
    forall t | t in SideBuckets(x', id, d)
      ensures t in SideBuckets(x, id, d)
    {
      SideBucketsAt(x, id, d, t);
      SideBucketsAt(x', id, d, t);
    }
  }

  /** What happens to one sub pool does not change how another is mirrored. */
  lemma MirrorsElsewhere(x: State, x': State, id: nat, j: nat, sp: SubPool, ps: map<nat, Position>)
    requires Mirrors(x, j, sp, ps) && Elsewhere(x, x', id) && j != id && MoneyOk(x')
    ensures Mirrors(x', j, sp, ps)
  {
    hide ShowsPosition, LogShown, Stripped, View, MoneyOk, SideBuckets, SubPoolAt;
    SameSideBuckets(x, x', j, Long);
    SameSideBuckets(x, x', j, Short);
    forall i | i in ps
      ensures i in x'.positions && ShowsPosition(x'.positions[i], j, sp.Side(ps[i].direction), ps[i])
    {
      ShownSubPool(x.positions[i], j, sp.Side(ps[i].direction), ps[i]);
    }
  }

  lemma ShownSubPool(v: PositionView, id: nat, p: Pool, pos: Position)
    requires ShowsPosition(v, id, p, pos)
    ensures v.subPool == id && v.direction == pos.direction
  {
  }

  // ---------------------------------------------------------------- money only

  /** Views of sub pool `id` may differ in profit and locked loss, nothing else differs. */
  ghost predicate OnlyMoney(x: State, x': State, id: nat) {
    && (forall i :: i in x'.positions <==> i in x.positions)
    && (forall i :: i in x.positions ==>
          && x'.positions[i] == x.positions[i].(profit := x'.positions[i].profit, lockedLoss := x'.positions[i].lockedLoss)
          && (x.positions[i].subPool != id ==> x'.positions[i] == x.positions[i]))
    && (forall j: nat :: SubPoolAt(x', j) == SubPoolAt(x, j))
  }

  lemma MoneyShows(v: PositionView, v': PositionView, id: nat, p: Pool, pos: Position)
    requires ShowsPosition(v, id, p, pos) && v' == v.(profit := v'.profit, lockedLoss := v'.lockedLoss)
    ensures ShowsPosition(v', id, p, pos)
  {
  }

  lemma MoneyKeepsPositions(x: State, x': State, id: nat, sp: SubPool, ps: map<nat, Position>)
    requires ShowsPositions(x, id, sp, ps) && OnlyMoney(x, x', id)
    ensures ShowsPositions(x', id, sp, ps)
  {
    hide ShowsPosition, SubPoolAt;
    forall i | i in ps
      ensures i in x'.positions && ShowsPosition(x'.positions[i], id, sp.Side(ps[i].direction), ps[i])
    {
      MoneyShows(x.positions[i], x'.positions[i], id, sp.Side(ps[i].direction), ps[i]);
    }
  }

  lemma MoneyElsewhere(x: State, x': State, id: nat)
    requires OnlyMoney(x, x', id)
    requires forall k: Key :: k.subPool != id ==>
      (k in x'.buckets <==> k in x.buckets) && (k in x.buckets ==> x'.buckets[k] == x.buckets[k])
    ensures Elsewhere(x, x', id)
  {
    hide SubPoolAt;
  }

  lemma TouchSame(x: State, id: nat, j: nat)
    ensures SubPoolAt(Touch(x, id), j) == SubPoolAt(x, j)
  {
  }
}
