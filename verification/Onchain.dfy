/**
  The account layout of a dormant store (crates/clearing-core/src/onchain.rs): packing into bucket
  records and a ledger record, and validated unpacking that skips dead slots.
*/
module Onchain {
  import opened Wrappers
  import opened MoleMath
  import opened Clearing
  import opened Sums
  import opened Dormant
  import opened DormantInvariant

  datatype BucketRecord = BucketRecord(
    direction: nat, tick: int, anchor: nat, shares: nat, notional: nat, accrued: nat, count: nat, applied: nat)
  {
    /** No field the engine observes carries value. */
    predicate IsDead() {
      shares == 0 && notional == 0 && accrued == 0 && count == 0
    }
  }

  datatype LedgerRecord = LedgerRecord(
    direction: nat, maxEntries: nat, gcOffset: nat, nextIndex: nat, accruedTotal: nat, pendingTotal: nat,
    entryCount: nat, entries: seq<DistEntry>)

  function DirectionByte(d: Direction): nat {
    if d.Long? then 0 else 1
  }

  function DeadRecord(d: Direction, tick: int): BucketRecord {
    BucketRecord(DirectionByte(d), tick, 0, 0, 0, 0, 0, 0)
  }

  function RecordOf(d: Direction, tick: int, b: Bucket): BucketRecord {
    BucketRecord(DirectionByte(d), tick, b.anchor, b.shares, b.notional, b.accrued, b.count, b.applied)
  }

  function BucketOf(r: BucketRecord): Bucket {
    Bucket(r.anchor, r.shares, r.notional, r.accrued, r.count, r.applied)
  }

  // ---------------------------------------------------------------- pack

  /** The bucket records of a store, by tick. */
  function PackBuckets(s: Store): map<int, BucketRecord> {
    map t | t in s.buckets :: RecordOf(s.direction, t, s.buckets[t])
  }

  function PackLedger(s: Store, maxLedger: nat): LedgerRecord {
    LedgerRecord(DirectionByte(s.direction), maxLedger, s.gcOffset, s.nextIndex, s.accruedTotal, s.pendingTotal,
                 |s.ledger|, s.ledger)
  }

  /** The two capacity checks of `pack_dormant_store`. */
  function PackChecks(s: Store, maxBuckets: nat, maxLedger: nat): ClearingResult<()> {
    if |s.buckets| > maxBuckets then Err(DormantBucketCapExceeded)
    else if |s.ledger| > maxLedger then Err(LedgerCapacityExceeded)
    else Ok(())
  }

  predicate Ascending(records: seq<BucketRecord>) {
    forall i, j :: 0 <= i < j < |records| ==> records[i].tick < records[j].tick
  }

  /** `records` lists the map in tick order. */
  ghost predicate Lists(records: seq<BucketRecord>, m: map<int, BucketRecord>) {
    && Ascending(records)
    && (forall i :: 0 <= i < |records| ==> records[i].tick in m && m[records[i].tick] == records[i])
    && (forall t :: t in m ==> exists i :: 0 <= i < |records| && records[i].tick == t)
  }

  // ---------------------------------------------------------------- unpack

  /** The entries are a contiguous window from `gc`. */
  function CheckEntries(entries: seq<DistEntry>, gc: nat): ClearingResult<()>
    decreases |entries|
  {
    if entries == [] then Ok(())
    else
      var n := |entries| - 1;
      var _ :- CheckEntries(entries[..n], gc);
      if gc + n >= U64 then Err(MathOverflow)
      else if entries[n].index != gc + n then Err(Invariant(BadIndex))
      else Ok(())
  }

  /** Buckets gathered so far, and the sum of what they have accrued. */
  datatype Gathered = Gathered(buckets: map<int, Bucket>, accrued: nat)

  /** The bucket loop of `from_onchain_parts`, over the live records. */
  function Gather(records: seq<BucketRecord>, gc: nat, next: nat): ClearingResult<Gathered>
    decreases |records|
  {
    if records == [] then Ok(Gathered(map[], 0))
    else
      var n := |records| - 1;
      var got :- Gather(records[..n], gc, next);
      GatherOne(got, records[n], gc, next)
  }

  function GatherOne(got: Gathered, r: BucketRecord, gc: nat, next: nat): ClearingResult<Gathered> {
    if r.IsDead() then Ok(got)
    else if r.applied < gc then Err(Invariant(BeforeWindow))
    else if r.applied > next then Err(Invariant(AheadOfHead))
    else if got.accrued + r.accrued >= U128 then Err(MathOverflow)
    else if r.tick in got.buckets then Err(Invariant(DuplicateTick))
    else Ok(Gathered(got.buckets[r.tick := BucketOf(r)], got.accrued + r.accrued))
  }

  /** `unpack_dormant_store` followed by `from_onchain_parts`. */
  function Unpack(records: seq<BucketRecord>, l: LedgerRecord): ClearingResult<Store> {
    if l.direction > 1 then Err(Invariant(BadDirection))
    else if l.entryCount != |l.entries| then Err(Invariant(BadCount))
    else if l.entryCount > l.maxEntries then Err(Invariant(TooManyEntries))
    else
      var _ :- CheckEntries(l.entries, l.gcOffset);
      if exists i :: 0 <= i < |records| && records[i].direction != l.direction then Err(Invariant(OtherDirection))
      else if l.gcOffset + |l.entries| >= U64 then Err(MathOverflow)
      else if l.gcOffset + |l.entries| != l.nextIndex then Err(Invariant(BadNext))
      else
        var got :- Gather(records, l.gcOffset, l.nextIndex);
        if got.accrued != l.accruedTotal then Err(Invariant(AccruedMismatch))
        else if TotalAllotted(l.entries) >= U128 then Err(MathOverflow)
        else if l.pendingTotal > TotalAllotted(l.entries) then Err(Invariant(PendingMismatch))
        else
          Ok(Store(if l.direction == 0 then Long else Short, got.buckets, l.accruedTotal, l.entries, l.gcOffset,
                   l.nextIndex, l.pendingTotal))
  }

  // ---------------------------------------------------------------- round trip

  /**
    Slots that hold exactly the records in `m`: the live ones are `m`, the others are dead, and all
    belong to direction `d`.
  */
  ghost predicate HoldSlots(records: seq<BucketRecord>, d: Direction, m: map<int, BucketRecord>) {
    && Ascending(records)
    && (forall i :: 0 <= i < |records| ==> records[i].direction == DirectionByte(d))
    && (forall i :: 0 <= i < |records| && !records[i].IsDead() ==>
          records[i].tick in m && m[records[i].tick] == records[i])
    && (forall t :: t in m ==> exists i :: 0 <= i < |records| && records[i] == m[t])
    && (forall t :: t in m ==> m[t].tick == t && !m[t].IsDead())
  }

  /** No bucket of the store would be taken for a dead slot. */
  predicate AllLive(s: Store) {
    forall t :: t in s.buckets ==> !RecordOf(s.direction, t, s.buckets[t]).IsDead()
  }

  lemma {:induction false} EntriesPass(entries: seq<DistEntry>, gc: nat)
    requires forall i :: 0 <= i < |entries| ==> entries[i].index == gc + i
    requires gc + |entries| <= U64
    ensures CheckEntries(entries, gc) == Ok(())
    decreases |entries|
  {
    if entries == [] {
    } else {
      EntriesPass(entries[..|entries| - 1], gc);
    }
  }

  /** The live buckets among `records`. */
  function LiveBuckets(records: seq<BucketRecord>): map<int, Bucket>
    decreases |records|
  {
    if records == [] then map[]
    else
      var n := |records| - 1;
      var rest := LiveBuckets(records[..n]);
      if records[n].IsDead() then rest else rest[records[n].tick := BucketOf(records[n])]
  }

  /** Each live record is there, and nothing else. */
  lemma {:induction false} LiveBucketsAre(records: seq<BucketRecord>, n: nat)
    requires Ascending(records) && n <= |records|
    ensures forall t :: t in LiveBuckets(records[..n]) <==>
      exists i :: 0 <= i < n && records[i].tick == t && !records[i].IsDead()
    ensures forall i :: 0 <= i < n && !records[i].IsDead() ==>
      records[i].tick in LiveBuckets(records[..n]) && LiveBuckets(records[..n])[records[i].tick] == BucketOf(records[i])
    decreases n
  {
    if n > 0 {
      LiveBucketsAre(records, n - 1);
      assert records[..n][..n - 1] == records[..n - 1];
    }
  }

  lemma LiveBucketsWithin(records: seq<BucketRecord>, n: nat, s: Store)
    requires HoldSlots(records, s.direction, PackBuckets(s)) && n <= |records|
    ensures LiveBuckets(records[..n]).Keys <= s.buckets.Keys
    ensures forall t :: t in LiveBuckets(records[..n]) ==> LiveBuckets(records[..n])[t] == s.buckets[t]
  {
    LiveBucketsAre(records, n);
    forall t | t in LiveBuckets(records[..n])
      ensures t in s.buckets && LiveBuckets(records[..n])[t] == s.buckets[t]
    {
      var i :| 0 <= i < n && records[i].tick == t && !records[i].IsDead();
      assert PackBuckets(s)[t] == records[i];
    }
  }

  lemma HeldAt(records: seq<BucketRecord>, d: Direction, m: map<int, BucketRecord>, t: int) returns (i: nat)
    requires HoldSlots(records, d, m) && t in m
    ensures i < |records| && records[i] == m[t] && records[i].tick == t && !records[i].IsDead()
  {
    i :| 0 <= i < |records| && records[i] == m[t];
  }

  lemma AllLiveBuckets(records: seq<BucketRecord>, s: Store)
    requires HoldSlots(records, s.direction, PackBuckets(s))
    ensures LiveBuckets(records) == s.buckets
  {
    hide LiveBuckets;
    assert records[..|records|] == records;
    var live := LiveBuckets(records);
    LiveBucketsAre(records, |records|);
    LiveBucketsWithin(records, |records|, s);
    forall t | t in s.buckets
      ensures t in live && live[t] == s.buckets[t]
    {
      var i := HeldAt(records, s.direction, PackBuckets(s), t);
      assert PackBuckets(s)[t] == records[i];
    }
    assert live.Keys == s.buckets.Keys;
  }

  /** The accruals of part of a store stay within its total. */
  lemma PartAccruals(part: map<int, Bucket>, s: Store)
    requires Inv(s) && part.Keys <= s.buckets.Keys && forall t :: t in part ==> part[t] == s.buckets[t]
    ensures Sum(Accruals(part)) <= s.accruedTotal < U128
  {
    var padded: map<int, nat> := map t | t in s.buckets :: if t in part then part[t].accrued else 0;
    SumSubset(padded, Accruals(part));
    forall t | t in padded
      ensures padded[t] <= Accruals(s.buckets)[t]
    {
    }
    SumMonotone(padded, Accruals(s.buckets));
  }

  lemma AddAccrual(bs: map<int, Bucket>, t: int, b: Bucket)
    requires t !in bs
    ensures Sum(Accruals(bs[t := b])) == Sum(Accruals(bs)) + b.accrued
  {
    assert Accruals(bs[t := b]) == Accruals(bs)[t := b.accrued];
    SumUpdate(Accruals(bs), t, b.accrued);
  }

  /** Gathering the records of a well-formed store never fails. */
  lemma {:induction false} GatherIs(records: seq<BucketRecord>, n: nat, s: Store)
    requires Inv(s) && HoldSlots(records, s.direction, PackBuckets(s)) && n <= |records|
    ensures Gather(records[..n], s.gcOffset, s.nextIndex)
         == Ok(Gathered(LiveBuckets(records[..n]), Sum(Accruals(LiveBuckets(records[..n])))))
    decreases n
  {
    hide Inv, HoldSlots, Accruals, Sum;
    if n == 0 {
      NoAccruals();
    } else {
      GatherIs(records, n - 1, s);
      assert records[..n][..n - 1] == records[..n - 1];
      if !records[n - 1].IsDead() {
        GatherLive(records, n - 1, s);
      }
    }
  }

  lemma NoAccruals()
    ensures Sum(Accruals(map[])) == 0
  {
    SumZero(Accruals(map[]));
  }

  lemma GatherLive(records: seq<BucketRecord>, n: nat, s: Store)
    requires Inv(s) && HoldSlots(records, s.direction, PackBuckets(s)) && n < |records| && !records[n].IsDead()
    ensures
      var bs := LiveBuckets(records[..n]);
      var r := records[n];
      && s.gcOffset <= r.applied <= s.nextIndex
      && r.tick !in bs
      && Sum(Accruals(bs)) + r.accrued < U128
      && Sum(Accruals(bs[r.tick := BucketOf(r)])) == Sum(Accruals(bs)) + r.accrued
  {
    var bs, r := LiveBuckets(records[..n]), records[n];
    LiveBucketsAre(records, n);
    LiveBucketsWithin(records, n, s);
    LiveBucketsWithin(records, n + 1, s);
    assert PackBuckets(s)[r.tick] == r;
    assert BucketOk(s, s.buckets[r.tick]);
    AddAccrual(bs, r.tick, BucketOf(r));
    PartAccruals(bs[r.tick := BucketOf(r)], s);
  }

  /**
    The account bridge: a store packed into its slots, among any dead ones, unpacks to itself.
    Unpacking never rejects what packing produced, as long as the window sum fits, which the
    run-time checks established before packing.
  */
  lemma RoundTrip(records: seq<BucketRecord>, s: Store, maxLedger: nat)
    requires Inv(s) && |s.ledger| <= maxLedger && TotalAllotted(s.ledger) < U128
    requires HoldSlots(records, s.direction, PackBuckets(s))
    ensures Unpack(records, PackLedger(s, maxLedger)) == Ok(s)
  {
    hide Inv, Gather, CheckEntries, HoldSlots, TotalAllotted, Accruals, Sum, LiveBuckets, PackBuckets;
    LedgerParts(s);
    SlotDirections(records, s.direction, PackBuckets(s));
    EntriesPass(s.ledger, s.gcOffset);
    assert records[..|records|] == records;
    GatherIs(records, |records|, s);
    AllLiveBuckets(records, s);
  }

  lemma LedgerParts(s: Store)
    requires Inv(s)
    ensures forall i :: 0 <= i < |s.ledger| ==> s.ledger[i].index == s.gcOffset + i
    ensures s.nextIndex == s.gcOffset + |s.ledger| < U64
    ensures s.accruedTotal == Sum(Accruals(s.buckets)) && s.pendingTotal <= TotalAllotted(s.ledger)
  {
    PendingWithinWindow(s);
    hide BucketsOk, Covered, HeadShares;
  }

  lemma SlotDirections(records: seq<BucketRecord>, d: Direction, m: map<int, BucketRecord>)
    requires HoldSlots(records, d, m)
    ensures forall i :: 0 <= i < |records| ==> records[i].direction == DirectionByte(d)
  {
  }

  // ---------------------------------------------------------------- what unpacking accepts

  /** `bs` holds the live ones of the first `n` records, each under its own tick, and nothing else. */
  ghost predicate HoldsLive(records: seq<BucketRecord>, n: nat, bs: map<int, Bucket>) {
    && n <= |records|
    && (forall i :: 0 <= i < n && !records[i].IsDead() ==>
          && records[i].tick in bs
          && var r, b := records[i], bs[records[i].tick];
          && b.anchor == r.anchor && b.shares == r.shares && b.notional == r.notional
          && b.accrued == r.accrued && b.count == r.count && b.applied == r.applied)
    && (forall i, j :: 0 <= i < j < n && !records[i].IsDead() && !records[j].IsDead() ==> records[i].tick != records[j].tick)
    && (forall t :: t in bs ==> exists i :: 0 <= i < n && !records[i].IsDead() && records[i].tick == t)
  }

  ghost predicate GatheredWell(records: seq<BucketRecord>, n: nat, got: Gathered, gc: nat, next: nat) {
    && HoldsLive(records, n, got.buckets)
    && (forall t :: t in got.buckets ==> gc <= got.buckets[t].applied <= next)
    && got.accrued == Sum(Accruals(got.buckets)) < U128
  }

  lemma GatherStep(records: seq<BucketRecord>, n: nat, got: Gathered, gc: nat, next: nat)
    requires n < |records| && GatheredWell(records, n, got, gc, next) && GatherOne(got, records[n], gc, next).Ok?
    ensures GatheredWell(records, n + 1, GatherOne(got, records[n], gc, next).value, gc, next)
  {
    hide Sum, Accruals;
    var r, got' := records[n], GatherOne(got, records[n], gc, next).value;
    if !r.IsDead() {
      AddAccrual(got.buckets, r.tick, BucketOf(r));
    }
    forall t | t in got'.buckets
      ensures exists i :: 0 <= i < n + 1 && !records[i].IsDead() && records[i].tick == t
    {
      if t in got.buckets {
        var i :| 0 <= i < n && !records[i].IsDead() && records[i].tick == t;
        assert records[i].tick == t;
      } else {
        assert records[n].tick == t;
      }
    }
  }

  lemma {:induction false} GatherAccepts(records: seq<BucketRecord>, n: nat, gc: nat, next: nat)
    requires n <= |records| && Gather(records[..n], gc, next).Ok?
    ensures GatheredWell(records, n, Gather(records[..n], gc, next).value, gc, next)
    decreases n
  {
    hide GatheredWell, GatherOne;
    if n == 0 {
      NothingGathered(records, gc, next);
    } else {
      assert records[..n][..n - 1] == records[..n - 1];
      GatherAccepts(records, n - 1, gc, next);
      GatherStep(records, n - 1, Gather(records[..n - 1], gc, next).value, gc, next);
    }
  }

  lemma NothingGathered(records: seq<BucketRecord>, gc: nat, next: nat)
    ensures GatheredWell(records, 0, Gathered(map[], 0), gc, next)
  {
    NoAccruals();
  }

  lemma {:induction false} EntriesAccepted(entries: seq<DistEntry>, gc: nat)
    requires CheckEntries(entries, gc).Ok?
    ensures forall i :: 0 <= i < |entries| ==> entries[i].index == gc + i
    decreases |entries|
  {
    if entries == [] {
    } else {
      var n := |entries| - 1;
      EntriesAccepted(entries[..n], gc);
      assert forall i :: 0 <= i < n ==> entries[i] == entries[..n][i];
    }
  }

  /**
    Whatever unpacking accepts is well formed: the ledger record is that of the store, its entries are
    numbered without gaps, every live slot is a bucket of its own under its tick and every bucket comes
    from one, all slots belong to the direction, and the store passes the run-time checks.
  */
  lemma UnpackAccepts(records: seq<BucketRecord>, l: LedgerRecord)
    requires Unpack(records, l).Ok?
    ensures
      var s := Unpack(records, l).value;
      && PackLedger(s, l.maxEntries) == l && |s.ledger| <= l.maxEntries
      && s.ledger == l.entries && s.gcOffset == l.gcOffset && s.nextIndex == l.nextIndex
      && s.accruedTotal == l.accruedTotal && s.pendingTotal == l.pendingTotal
      && (forall i :: 0 <= i < |s.ledger| ==> s.ledger[i].index == s.gcOffset + i)
      && (forall i :: 0 <= i < |records| ==> records[i].direction == DirectionByte(s.direction))
      && HoldsLive(records, |records|, s.buckets)
      && CheckStore(s) == Ok(())
  {
    hide Gather, CheckEntries, TotalAllotted, Accruals, Sum, HoldsLive;
    EntriesAccepted(l.entries, l.gcOffset);
    assert records[..|records|] == records;
    GatherAccepts(records, |records|, l.gcOffset, l.nextIndex);
  }

  // ---------------------------------------------------------------- as methods

  /** The least element of a nonempty set. */
  method Least(keys: set<int>) returns (k: int)
    requires keys != {}
    ensures k in keys && forall j :: j in keys ==> k <= j
  {
    k := Choose(keys);
    var todo := keys - {k};
    while todo != {}
      invariant todo <= keys && k in keys
      invariant forall j :: j in keys && j !in todo ==> k <= j
      decreases todo
    {
      var j := Choose(todo);
      if j < k {
        k := j;
      }
      todo := todo - {j};
    }
  }

  /** A record with a greater tick goes last. */
  lemma ListsGrow(records: seq<BucketRecord>, m: map<int, BucketRecord>, r: BucketRecord)
    requires Lists(records, m) && forall t :: t in m ==> t < r.tick
    ensures Lists(records + [r], m[r.tick := r])
  {
    var all, m' := records + [r], m[r.tick := r];
    assert all[|records|] == r;
    forall i | 0 <= i < |all|
      ensures all[i].tick in m' && m'[all[i].tick] == all[i] && (i < |records| ==> all[i].tick < r.tick)
    {
    }
    forall t | t in m'
      ensures exists i :: 0 <= i < |all| && all[i].tick == t
    {
      if t in m && t != r.tick {
        var i :| 0 <= i < |records| && records[i].tick == t;
        assert all[i].tick == t;
      } else {
        assert all[|records|].tick == t;
      }
    }
  }

  lemma OneLess(m: map<int, BucketRecord>, todo: set<int>, k: int)
    requires todo <= m.Keys && k in todo
    ensures m - (todo - {k}) == (m - todo)[k := m[k]]
  {
  }

  /** The iteration of a `BTreeMap`: its records by ascending tick. */
  method InTickOrder(m: map<int, BucketRecord>) returns (records: seq<BucketRecord>)
    requires forall t :: t in m ==> m[t].tick == t
    ensures Lists(records, m)
  {
    records := [];
    var todo := m.Keys;
    assert m - todo == map[];
    while todo != {}
      invariant todo <= m.Keys
      invariant Lists(records, m - todo)
      invariant forall s, t :: s in m && s !in todo && t in todo ==> s < t
      decreases todo
    {
      hide Lists;
      var k := Least(todo);
      ListsGrow(records, m - todo, m[k]);
      OneLess(m, todo, k);
      records := records + [m[k]];
      todo := todo - {k};
    }
    assert m - todo == m;
  }

  /** `pack_dormant_store`. */
  method PackDormantStore(s: Store, maxBuckets: nat, maxLedger: nat)
    returns (r: ClearingResult<(seq<BucketRecord>, LedgerRecord)>)
    ensures PackChecks(s, maxBuckets, maxLedger).Err? ==> r == Err(PackChecks(s, maxBuckets, maxLedger).error)
    ensures PackChecks(s, maxBuckets, maxLedger).Ok? ==>
      r.Ok? && Lists(r.value.0, PackBuckets(s)) && r.value.1 == PackLedger(s, maxLedger)
  {
    if |s.buckets| > maxBuckets {
      return Err(DormantBucketCapExceeded);
    }
    if |s.ledger| > maxLedger {
      return Err(LedgerCapacityExceeded);
    }
    var records := InTickOrder(PackBuckets(s));
    return Ok((records, PackLedger(s, maxLedger)));
  }

  /** The window check of `unpack_dormant_store`. */
  method WalkEntries(entries: seq<DistEntry>, gc: nat) returns (r: ClearingResult<()>)
    ensures r == CheckEntries(entries, gc)
  {
    var i := 0;
    while i < |entries|
      invariant 0 <= i <= |entries|
      invariant CheckEntries(entries[..i], gc) == Ok(())
    {
      assert entries[..i + 1][..i] == entries[..i];
      if gc + i >= U64 {
        EntriesFail(entries, gc, i + 1, MathOverflow);
        return Err(MathOverflow);
      }
      if entries[i].index != gc + i {
        EntriesFail(entries, gc, i + 1, Invariant(BadIndex));
        return Err(Invariant(BadIndex));
      }
      i := i + 1;
    }
    assert entries[..i] == entries;
    return Ok(());
  }

  /** The first failure decides. */
  lemma {:induction false} EntriesFail(entries: seq<DistEntry>, gc: nat, n: nat, error: ClearingError)
    requires n <= |entries| && CheckEntries(entries[..n], gc) == Err(error)
    ensures CheckEntries(entries, gc) == Err(error)
    decreases |entries| - n
  {
    if n < |entries| {
      assert entries[..n + 1][..n] == entries[..n];
      EntriesFail(entries, gc, n + 1, error);
    } else {
      assert entries[..n] == entries;
    }
  }

  lemma {:induction false} GatherFails(records: seq<BucketRecord>, gc: nat, next: nat, n: nat, error: ClearingError)
    requires n <= |records| && Gather(records[..n], gc, next) == Err(error)
    ensures Gather(records, gc, next) == Err(error)
    decreases |records| - n
  {
    if n < |records| {
      assert records[..n + 1][..n] == records[..n];
      GatherFails(records, gc, next, n + 1, error);
    } else {
      assert records[..n] == records;
    }
  }

  /** The bucket loop. */
  method GatherAll(records: seq<BucketRecord>, gc: nat, next: nat) returns (r: ClearingResult<Gathered>)
    ensures r == Gather(records, gc, next)
  {
    var got := Gathered(map[], 0);
    var i := 0;
    while i < |records|
      invariant 0 <= i <= |records|
      invariant Gather(records[..i], gc, next) == Ok(got)
    {
      assert records[..i + 1][..i] == records[..i];
      var one := GatherOne(got, records[i], gc, next);
      if one.Err? {
        GatherFails(records, gc, next, i + 1, one.error);
        return Err(one.error);
      }
      got := one.value;
      i := i + 1;
    }
    assert records[..i] == records;
    return Ok(got);
  }

  /** `unpack_dormant_store`, check by check. */
  method UnpackDormantStore(records: seq<BucketRecord>, l: LedgerRecord) returns (r: ClearingResult<Store>)
    ensures r == Unpack(records, l)
  {
    hide CheckEntries, Gather, TotalAllotted;
    if l.direction > 1 {
      return Err(Invariant(BadDirection));
    }
    if l.entryCount != |l.entries| {
      return Err(Invariant(BadCount));
    }
    if l.entryCount > l.maxEntries {
      return Err(Invariant(TooManyEntries));
    }
    var entries := WalkEntries(l.entries, l.gcOffset);
    if entries.Err? {
      return Err(entries.error);
    }
    var i := 0;
    while i < |records|
      invariant 0 <= i <= |records|
      invariant forall j :: 0 <= j < i ==> records[j].direction == l.direction
    {
      if records[i].direction != l.direction {
        return Err(Invariant(OtherDirection));
      }
      i := i + 1;
    }
    r := FromOnchainParts(records, l);
  }

  /** `from_onchain_parts`, after the records have been checked against the ledger. */
  method FromOnchainParts(records: seq<BucketRecord>, l: LedgerRecord) returns (r: ClearingResult<Store>)
    requires l.direction <= 1 && l.entryCount == |l.entries| <= l.maxEntries
    requires CheckEntries(l.entries, l.gcOffset).Ok?
    requires forall j :: 0 <= j < |records| ==> records[j].direction == l.direction
    ensures r == Unpack(records, l)
  {
    hide CheckEntries, Gather, TotalAllotted;
    if l.gcOffset + |l.entries| >= U64 {
      return Err(MathOverflow);
    }
    if l.gcOffset + |l.entries| != l.nextIndex {
      return Err(Invariant(BadNext));
    }
    var got := GatherAll(records, l.gcOffset, l.nextIndex);
    if got.Err? {
      return Err(got.error);
    }
    if got.value.accrued != l.accruedTotal {
      return Err(Invariant(AccruedMismatch));
    }
    var total := WindowTotal(l.entries);
    if total.Err? {
      return Err(total.error);
    }
    if l.pendingTotal > total.value {
      return Err(Invariant(PendingMismatch));
    }
    var d := if l.direction == 0 then Long else Short;
    return Ok(Store(d, got.value.buckets, l.accruedTotal, l.entries, l.gcOffset, l.nextIndex, l.pendingTotal));
  }
}
