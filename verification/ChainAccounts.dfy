/** Writing a sub pool to its accounts and rebuilding it: round trips, frames and rollback. */
module ChainAccounts {
  import opened Wrappers
  import opened MoleMath
  import opened Clearing
  import opened Dormant
  import opened DormantInvariant
  import opened Onchain
  import opened Engine
  import opened EngineRuns
  import opened ChainMirror

  // ---------------------------------------------------------------- listings

  ghost predicate OwnTicks(m: map<int, BucketRecord>) {
    forall t :: t in m ==> m[t].tick == t
  }

  /** Appending the greatest record to a listing of the others. */
  lemma ListsSnoc(l: seq<BucketRecord>, m: map<int, BucketRecord>, k: int)
    requires k in m && m[k].tick == k && (forall j :: j in m ==> j <= k)
    requires Lists(l, m - {k})
    ensures Lists(l + [m[k]], m)
  {
    var l' := l + [m[k]];
    forall i | 0 <= i < |l'|
      ensures l'[i].tick in m && m[l'[i].tick] == l'[i]
      ensures i < |l| ==> l'[i].tick < k
    {
    }
    forall t | t in m
      ensures exists i :: 0 <= i < |l'| && l'[i].tick == t
    {
      if t == k {
        assert l'[|l|].tick == t;
      } else {
        assert t in m - {k};
        var i :| 0 <= i < |l| && l[i].tick == t;
        assert l'[i].tick == t;
      }
    }
  }

  lemma {:induction false} ListingLists(m: map<int, BucketRecord>)
    requires OwnTicks(m)
    ensures Lists(Listing(m), m)
    decreases |m|
  {
    if m.Keys == {} {
    } else {
      hide Lists;
      var k := Greatest(m.Keys);
      ListingLists(m - {k});
      ListsSnoc(Listing(m - {k}), m, k);
    }
  }

  /** A map has one listing in tick order. */
  lemma {:induction false} ListsUnique(a: seq<BucketRecord>, b: seq<BucketRecord>, m: map<int, BucketRecord>)
    requires Lists(a, m) && Lists(b, m)
    ensures a == b
    decreases |a|
  {
    assert a != [] ==> a[|a| - 1].tick in m;
    assert b != [] ==> b[|b| - 1].tick in m;
    if a != [] {
      LastIsGreatest(a, b, m);
      var t := a[|a| - 1].tick;
      DropLast(a, m);
      DropLast(b, m);
      ListsUnique(a[..|a| - 1], b[..|b| - 1], m - {t});
      assert a == a[..|a| - 1] + [a[|a| - 1]] && b == b[..|b| - 1] + [b[|b| - 1]];
    }
  }

  lemma LastIsGreatest(a: seq<BucketRecord>, b: seq<BucketRecord>, m: map<int, BucketRecord>)
    requires Lists(a, m) && Lists(b, m) && a != []
    ensures b != [] && a[|a| - 1] == b[|b| - 1]
  {
    var x := a[|a| - 1].tick;
    assert x in m;
    var y := b[|b| - 1].tick;
    var i :| 0 <= i < |b| && b[i].tick == x;
    var j :| 0 <= j < |a| && a[j].tick == y;
  }

  lemma DropLast(a: seq<BucketRecord>, m: map<int, BucketRecord>)
    requires Lists(a, m) && a != []
    ensures Lists(a[..|a| - 1], m - {a[|a| - 1].tick})
  {
    var last, front := a[|a| - 1].tick, a[..|a| - 1];
    forall t | t in m - {last}
      ensures exists i :: 0 <= i < |front| && front[i].tick == t
    {
      var i :| 0 <= i < |a| && a[i].tick == t;
      assert front[i].tick == t;
    }
  }

  // ---------------------------------------------------------------- slots of one side

  /**
    The bucket accounts of one side: each at its own address, the live ones are exactly `packed`.
    Dead slots may lie anywhere else.
  */
  ghost predicate SlotsHold(bs: map<Key, BucketRecord>, id: nat, d: Direction, packed: map<int, BucketRecord>) {
    && (forall k :: k in bs && k.subPool == id && k.direction == d ==>
          && bs[k].tick == k.tick && bs[k].direction == DirectionByte(d)
          && (!bs[k].IsDead() ==> k.tick in packed && packed[k.tick] == bs[k]))
    && (forall t :: t in packed ==> Key(id, d, t) in bs && bs[Key(id, d, t)] == packed[t])
  }

  ghost predicate SideStored(
    m: Market, bs: map<Key, BucketRecord>, ls: map<SideKey, LedgerRecord>, id: nat, d: Direction, s: Store)
  {
    && SideKey(id, d) in ls && ls[SideKey(id, d)] == PackLedger(s, m.ledgerCap)
    && SlotsHold(bs, id, d, PackBuckets(s))
  }

  lemma SlotsAt(bs: map<Key, BucketRecord>, id: nat, d: Direction, t: int)
    ensures t in Slots(bs, id, d) <==> Key(id, d, t) in bs
    ensures t in Slots(bs, id, d) ==> Slots(bs, id, d)[t] == bs[Key(id, d, t)]
  {
    if Key(id, d, t) in bs {
      assert Key(id, d, t).tick == t;
    }
  }

  lemma SlotTicks(bs: map<Key, BucketRecord>, id: nat, d: Direction, packed: map<int, BucketRecord>)
    requires SlotsHold(bs, id, d, packed)
    ensures OwnTicks(Slots(bs, id, d))
  {
    forall t | t in Slots(bs, id, d)
      ensures Slots(bs, id, d)[t].tick == t
    {
      SlotsAt(bs, id, d, t);
    }
  }

  /** The records a side is rebuilt from hold exactly the packed buckets, among dead slots. */
  lemma ListingHolds(bs: map<Key, BucketRecord>, id: nat, d: Direction, s: Store)
    requires SlotsHold(bs, id, d, PackBuckets(s)) && s.direction == d && AllLive(s)
    ensures HoldSlots(Listing(Slots(bs, id, d)), d, PackBuckets(s))
  {
    SlotTicks(bs, id, d, PackBuckets(s));
    PackedLive(s);
    ListingLists(Slots(bs, id, d));
    ListedSlots(bs, id, d, PackBuckets(s), Listing(Slots(bs, id, d)));
    hide Listing, Slots, PackBuckets, SlotsHold, AllLive;
  }

  lemma PackedLive(s: Store)
    requires AllLive(s)
    ensures forall t :: t in PackBuckets(s) ==> PackBuckets(s)[t].tick == t && !PackBuckets(s)[t].IsDead()
  {
  }

  lemma ListedSlots(
    bs: map<Key, BucketRecord>, id: nat, d: Direction, packed: map<int, BucketRecord>, l: seq<BucketRecord>)
    requires SlotsHold(bs, id, d, packed) && Lists(l, Slots(bs, id, d))
    ensures forall i :: 0 <= i < |l| ==>
      && l[i].direction == DirectionByte(d)
      && (!l[i].IsDead() ==> l[i].tick in packed && packed[l[i].tick] == l[i])
    ensures forall t :: t in packed ==> exists i :: 0 <= i < |l| && l[i] == packed[t]
  {
    hide Slots;
    forall i | 0 <= i < |l|
      ensures l[i].direction == DirectionByte(d)
      ensures !l[i].IsDead() ==> l[i].tick in packed && packed[l[i].tick] == l[i]
    {
      SlotsAt(bs, id, d, l[i].tick);
    }
    forall t | t in packed
      ensures exists i :: 0 <= i < |l| && l[i] == packed[t]
    {
      SlotsAt(bs, id, d, t);
      var i :| 0 <= i < |l| && l[i].tick == t;
      assert l[i] == packed[t];
    }
  }

  /** A store that can be written: it fits, its window sum fits, and no bucket looks dead. */
  ghost predicate Writable(m: Market, s: Store, d: Direction) {
    && Inv(s) && s.direction == d && AllLive(s)
    && |s.buckets| <= m.maxBuckets && |s.ledger| <= m.ledgerCap
    && TotalAllotted(s.ledger) < U128
  }

  /** Rebuilding a stored side gives back the store: nothing packed is rejected, no dead slot enters. */
  lemma BuildSideIs(c: Chain, id: nat, d: Direction, s: Store)
    requires SideStored(c.market, c.buckets, c.ledgers, id, d, s) && Writable(c.market, s, d)
    ensures BuildSide(c, id, d) == Ok(s)
  {
    ListingHolds(c.buckets, id, d, s);
    hide Slots, Inv, AllLive, TotalAllotted, HoldSlots, Unpack, PackLedger, SlotsHold;
    RoundTrip(Listing(Slots(c.buckets, id, d)), s, c.market.ledgerCap);
  }

  ghost predicate PoolStored(c: Chain, id: nat, sp: SubPool) {
    && id in c.subPools && sp.id == id && c.subPools[id] == AccountOf(id, sp)
    && SideStored(c.market, c.buckets, c.ledgers, id, Long, sp.long.store)
    && SideStored(c.market, c.buckets, c.ledgers, id, Short, sp.short.store)
  }

  ghost predicate PoolWritable(m: Market, sp: SubPool) {
    Writable(m, sp.long.store, Long) && Writable(m, sp.short.store, Short)
  }

  lemma AttachDetach(p: Pool)
    ensures Attach(Detach(p), p.store) == p
  {
  }

  /** The account bridge: a stored sub pool is rebuilt exactly. */
  lemma BuildIs(c: Chain, id: nat, sp: SubPool)
    requires PoolStored(c, id, sp) && PoolWritable(c.market, sp)
    ensures Build(c, id) == Ok(sp)
  {
    hide SideStored, Writable, BuildSide, Attach, Detach;
    BuildSideIs(c, id, Long, sp.long.store);
    BuildSideIs(c, id, Short, sp.short.store);
    AttachDetach(sp.long);
    AttachDetach(sp.short);
  }

  // ---------------------------------------------------------------- writing one side

  /** Outside one side, the bucket accounts are the same. */
  ghost predicate SameElsewhere(bs: map<Key, BucketRecord>, bs': map<Key, BucketRecord>, id: nat, d: Direction) {
    forall k: Key :: !(k.subPool == id && k.direction == d) ==>
      (k in bs' <==> k in bs) && (k in bs ==> bs'[k] == bs[k])
  }

  lemma LooseHolds(bs: map<Key, BucketRecord>, id: nat, d: Direction, s: Store)
    requires s.direction == d
    ensures SlotsHold(LooseBuckets(bs, id, d, PackBuckets(s)), id, d, PackBuckets(s))
    ensures SameElsewhere(bs, LooseBuckets(bs, id, d, PackBuckets(s)), id, d)
  {
    var packed := PackBuckets(s);
    var bs' := LooseBuckets(bs, id, d, packed);
    forall t | t in packed
      ensures Key(id, d, t) in bs' && bs'[Key(id, d, t)] == packed[t]
    {
      var put := map u | u in packed :: Key(id, d, u) := packed[u];
      assert Key(id, d, t) in put;
    }
  }

  lemma StrictHolds(bs: map<Key, BucketRecord>, id: nat, d: Direction, s: Store, old_: map<int, BucketRecord>)
    requires s.direction == d && SlotsHold(bs, id, d, old_) && MissingSlots(bs, id, d, PackBuckets(s)) == {}
    ensures SlotsHold(StrictBuckets(bs, id, d, PackBuckets(s)), id, d, PackBuckets(s))
    ensures SameElsewhere(bs, StrictBuckets(bs, id, d, PackBuckets(s)), id, d)
  {
    var packed := PackBuckets(s);
    forall t | t in packed
      ensures Key(id, d, t) in bs
    {
      assert t !in MissingSlots(bs, id, d, packed);
    }
  }

  lemma PlacedElsewhere(bs: map<Key, BucketRecord>, id: nat, d: Direction, packed: map<int, BucketRecord>, limit: int)
    ensures SameElsewhere(bs, PlacedBelow(bs, id, d, packed, limit), id, d)
  {
  }

  /** What writing one side may touch. */
  ghost predicate SideTouched(c: Chain, c': Chain, id: nat, d: Direction) {
    && c' == c.(buckets := c'.buckets, ledgers := c'.ledgers)
    && SameElsewhere(c.buckets, c'.buckets, id, d)
    && (forall k :: k != SideKey(id, d) ==> (k in c'.ledgers <==> k in c.ledgers) && (k in c.ledgers ==> c'.ledgers[k] == c.ledgers[k]))
    && (SideKey(id, d) in c'.ledgers <==> SideKey(id, d) in c.ledgers)
  }

  /** Every packed bucket has a slot to go to. */
  predicate HasSlots(bs: map<Key, BucketRecord>, id: nat, d: Direction, s: Store) {
    MissingSlots(bs, id, d, PackBuckets(s)) == {}
  }

  /**
    Writing a side stores it, or, in strict mode, fails because a slot is missing; loose mode never
    fails. Nothing outside the side changes in either case.
  */
  lemma WriteSideIs(c: Chain, id: nat, d: Direction, s: Store, was: Store)
    requires SideStored(c.market, c.buckets, c.ledgers, id, d, was) && Writable(c.market, s, d)
    ensures
      var (c', r) := WriteSide(c, id, d, s);
      && SideTouched(c, c', id, d)
      && (r.Ok? <==> !c.strict || HasSlots(c.buckets, id, d, s))
      && (r.Ok? ==> SideStored(c'.market, c'.buckets, c'.ledgers, id, d, s))
      && (r.Err? ==> r.error == BucketSlotExhausted(SideKey(id, d)))
  {
    hide WriteSide, Inv, AllLive, PackBuckets, SlotsHold, LooseBuckets, StrictBuckets, PlacedBelow, MissingSlots,
      SameElsewhere, PackLedger;
    WriteSideUnfolds(c, id, d, s);
    if !c.strict {
      LooseHolds(c.buckets, id, d, s);
    } else if HasSlots(c.buckets, id, d, s) {
      StrictHolds(c.buckets, id, d, s, PackBuckets(was));
    } else {
      PlacedElsewhere(c.buckets, id, d, PackBuckets(s), LeastOf(MissingSlots(c.buckets, id, d, PackBuckets(s))));
    }
  }

  /** The steps of writing one side that passes the capacity checks. */
  lemma WriteSideUnfolds(c: Chain, id: nat, d: Direction, s: Store)
    requires SideKey(id, d) in c.ledgers && |s.buckets| <= c.market.maxBuckets && |s.ledger| <= c.market.ledgerCap
    ensures
      var (c', r) := WriteSide(c, id, d, s);
      && c' == c.(buckets := c'.buckets, ledgers := c.ledgers[SideKey(id, d) := PackLedger(s, c.market.ledgerCap)])
      && (!c.strict ==> r == Ok(()) && c'.buckets == LooseBuckets(c.buckets, id, d, PackBuckets(s)))
      && (c.strict && HasSlots(c.buckets, id, d, s) ==>
            r == Ok(()) && c'.buckets == StrictBuckets(c.buckets, id, d, PackBuckets(s)))
      && (c.strict && !HasSlots(c.buckets, id, d, s) ==>
            && r == Err(BucketSlotExhausted(SideKey(id, d)))
            && c'.buckets == PlacedBelow(c.buckets, id, d, PackBuckets(s), LeastOf(MissingSlots(c.buckets, id, d, PackBuckets(s)))))
  {
    hide PackBuckets, LooseBuckets, StrictBuckets, PlacedBelow, MissingSlots, PackLedger;
  }

  // ---------------------------------------------------------------- writing a sub pool

  /** Only accounts of sub pool `id` may differ. */
  ghost predicate Touched(c: Chain, c': Chain, id: nat) {
    && c' == c.(buckets := c'.buckets, ledgers := c'.ledgers, subPools := c'.subPools)
    && (forall k: Key :: k.subPool != id ==> (k in c'.buckets <==> k in c.buckets) && (k in c.buckets ==> c'.buckets[k] == c.buckets[k]))
    && (forall k: SideKey :: k in c'.ledgers <==> k in c.ledgers)
    && (forall k: SideKey :: k.subPool != id && k in c.ledgers ==> c'.ledgers[k] == c.ledgers[k])
    && (forall j: nat :: j in c'.subPools <==> j in c.subPools)
    && (forall j: nat :: j != id && j in c.subPools ==> c'.subPools[j] == c.subPools[j])
  }

  lemma TouchedBySides(c: Chain, c1: Chain, c2: Chain, id: nat)
    requires SideTouched(c, c1, id, Long)
    ensures Touched(c, c1, id)
    ensures SideTouched(c1, c2, id, Short) ==> Touched(c, c2, id)
  {
  }

  /** A side is not affected by what is written to another. */
  lemma SideUnaffected(c: Chain, c': Chain, id: nat, d: Direction, j: nat, e: Direction, s: Store)
    requires SideTouched(c, c', id, d) && (j != id || e != d)
    requires SideStored(c.market, c.buckets, c.ledgers, j, e, s)
    ensures SideStored(c'.market, c'.buckets, c'.ledgers, j, e, s)
  {
    hide PackBuckets, PackLedger;
  }

  lemma SlotsUnaffected(c: Chain, c': Chain, id: nat, d: Direction, e: Direction, s: Store)
    requires SideTouched(c, c', id, d) && e != d
    ensures HasSlots(c'.buckets, id, e, s) <==> HasSlots(c.buckets, id, e, s)
  {
    hide PackBuckets;
    assert MissingSlots(c'.buckets, id, e, PackBuckets(s)) == MissingSlots(c.buckets, id, e, PackBuckets(s));
  }

  /** Every bucket the engine produced has a slot. */
  predicate AllSlots(c: Chain, id: nat, sp: SubPool) {
    HasSlots(c.buckets, id, Long, sp.long.store) && HasSlots(c.buckets, id, Short, sp.short.store)
  }

  lemma AccountWritten(c: Chain, c': Chain, id: nat, sp: SubPool)
    requires id in c.subPools && c.subPools[id].id == id && sp.id == id
    requires c' == c.(subPools := c.subPools[id := AccountOf(c.subPools[id].id, sp)])
    requires SideStored(c.market, c.buckets, c.ledgers, id, Long, sp.long.store)
    requires SideStored(c.market, c.buckets, c.ledgers, id, Short, sp.short.store)
    ensures PoolStored(c', id, sp) && Touched(c, c', id)
  {
    hide SideStored;
  }

  lemma TouchedTwice(c: Chain, c1: Chain, c2: Chain, id: nat)
    requires Touched(c, c1, id) && Touched(c1, c2, id)
    ensures Touched(c, c2, id)
  {
  }

  /**
    The write-back: in loose mode it is total, in strict mode it succeeds exactly when every bucket
    has a slot; it then stores the sub pool, and it never touches another one.
  */
  lemma WriteIs(c: Chain, id: nat, sp: SubPool, was: SubPool)
    requires PoolStored(c, id, was) && PoolWritable(c.market, sp) && sp.id == id
    ensures
      var (c', r) := Write(c, id, sp);
      && Touched(c, c', id)
      && (r.Ok? <==> !c.strict || AllSlots(c, id, sp))
      && (r.Ok? ==> PoolStored(c', id, sp))
      && (r.Err? ==> r.error == BucketSlotExhausted(SideKey(id, Long)) || r.error == BucketSlotExhausted(SideKey(id, Short)))
  {
    hide SideStored, Writable, WriteSide, HasSlots, SideTouched, Touched, AccountOf;
    WriteSideIs(c, id, Long, sp.long.store, was.long.store);
    var (c1, long) := WriteSide(c, id, Long, sp.long.store);
    var (c2, short) := WriteSide(c1, id, Short, sp.short.store);
    SideFields(c, c1, id, Long);
    TouchedBySides(c, c1, c2, id);
    if long.Ok? {
      SideUnaffected(c, c1, id, Long, id, Short, was.short.store);
      SlotsUnaffected(c, c1, id, Long, Short, sp.short.store);
      WriteSideIs(c1, id, Short, sp.short.store, was.short.store);
      SideFields(c1, c2, id, Short);
      if short.Ok? {
        SideUnaffected(c1, c2, id, Short, id, Long, sp.long.store);
        assert c2.subPools[id].id == id by {
          AccountIds(c, id, was);
        }
        var c3 := c2.(subPools := c2.subPools[id := AccountOf(c2.subPools[id].id, sp)]);
        AccountWritten(c2, c3, id, sp);
        TouchedTwice(c, c2, c3, id);
      }
    }
  }

  lemma SideFields(c: Chain, c': Chain, id: nat, d: Direction)
    requires SideTouched(c, c', id, d)
    ensures c'.market == c.market && c'.strict == c.strict && c'.subPools == c.subPools
  {
    hide SameElsewhere;
  }

  lemma AccountIds(c: Chain, id: nat, sp: SubPool)
    requires PoolStored(c, id, sp)
    ensures id in c.subPools && c.subPools[id].id == id && CanSnapshot(c, id)
  {
    hide SlotsHold;
  }

  /** Restoring the snapshot undoes anything that was done to the sub pool's accounts. */
  lemma RestoreUndoes(c: Chain, c': Chain, id: nat)
    requires CanSnapshot(c, id) && c.subPools[id].id == id && Touched(c, c', id)
    ensures Restore(c', c, id) == c
  {
    var r := Restore(c', c, id);
    RestoredBuckets(c, c', id);
    RestoredLedgers(c, c', id);
    RestoredPools(c, c', id);
  }

  lemma RestoredBuckets(c: Chain, c': Chain, id: nat)
    requires CanSnapshot(c, id) && c.subPools[id].id == id && Touched(c, c', id)
    ensures Restore(c', c, id).buckets == c.buckets
  {
    var r := Restore(c', c, id).buckets;
    forall k | k in c.buckets
      ensures k in r && r[k] == c.buckets[k]
    {
    }
    forall k | k in r
      ensures k in c.buckets
    {
    }
  }

  lemma RestoredLedgers(c: Chain, c': Chain, id: nat)
    requires CanSnapshot(c, id) && c.subPools[id].id == id && Touched(c, c', id)
    ensures Restore(c', c, id).ledgers == c.ledgers
  {
    var r := Restore(c', c, id).ledgers;
    forall k | k in c.ledgers
      ensures k in r && r[k] == c.ledgers[k]
    {
      assert k == SideKey(k.subPool, k.direction);
      assert k.direction == Long || k.direction == Short;
    }
    assert r.Keys == c.ledgers.Keys;
  }

  lemma RestoredPools(c: Chain, c': Chain, id: nat)
    requires CanSnapshot(c, id) && c.subPools[id].id == id && Touched(c, c', id)
    ensures Restore(c', c, id).subPools == c.subPools
  {
    var r := Restore(c', c, id).subPools;
    forall j | j in c.subPools
      ensures j in r && r[j] == c.subPools[j]
    {
    }
    assert r.Keys == c.subPools.Keys;
  }
}
