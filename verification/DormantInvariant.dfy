/**
  What every operation of the dormant store keeps, including the exact in-flight accounting:
  the tracked `pendingTotal` is always the sum of what the buckets are still owed.
*/
module DormantInvariant {
  import opened Wrappers
  import opened MoleMath
  import opened Clearing
  import opened Sums
  import opened Dormant

  // ---------------------------------------------------------------- the invariant

  ghost predicate LedgerOk(s: Store) {
    && s.nextIndex == s.gcOffset + |s.ledger|
    && s.nextIndex < U64
    && (forall i :: 0 <= i < |s.ledger| ==>
          && s.ledger[i].index == s.gcOffset + i
          && s.ledger[i].outstanding > 0
          && s.ledger[i].alloc < U128)
  }

  /** What the oldest unapplied event owes a bucket. */
  function HeadShare(s: Store, b: Bucket): nat {
    if s.gcOffset <= b.applied < s.gcOffset + |s.ledger|
    then EntryShare(s.direction, b, s.ledger[b.applied - s.gcOffset])
    else 0
  }

  /**
    A bucket that was activated by an event was brought up to that event first, so of the events
    it has not applied only the oldest can concern it.
  */
  ghost predicate LaterIdle(s: Store, b: Bucket) {
    forall i :: 0 <= i < |s.ledger| && s.gcOffset + i > b.applied
      ==> !Activated(s.direction, b.anchor, s.ledger[i].price)
  }

  /** Replaying the oldest unapplied event cannot overflow. */
  ghost predicate HeadFits(s: Store, b: Bucket) {
    s.gcOffset <= b.applied < s.gcOffset + |s.ledger| ==>
      var e := s.ledger[b.applied - s.gcOffset];
      && Intrinsic(s.direction, b, e.price) < U128
      && Outstanding(s.direction, b, e.price) <= e.outstanding
  }

  ghost predicate BucketOk(s: Store, b: Bucket) {
    && s.gcOffset <= b.applied <= s.nextIndex
    && b.shares < U128 && b.notional < U128 && b.accrued < U128 && b.count < U64
    && LaterIdle(s, b)
    && HeadFits(s, b)
  }

  ghost predicate BucketsOk(s: Store) {
    forall k :: k in s.buckets ==> BucketOk(s, s.buckets[k])
  }

  function HeadShares(s: Store): map<int, nat> {
    map k | k in s.buckets :: HeadShare(s, s.buckets[k])
  }

  /** What event `index` still owes to each bucket. */
  function OwedBy(s: Store, index: nat): map<int, nat> {
    map k | k in s.buckets :: if s.buckets[k].applied == index then HeadShare(s, s.buckets[k]) else 0
  }

  /** No event owes more than it set aside. */
  ghost predicate Covered(s: Store) {
    forall i :: 0 <= i < |s.ledger| ==> Sum(OwedBy(s, s.gcOffset + i)) <= s.ledger[i].allotted
  }

  ghost predicate TotalsOk(s: Store) {
    && s.accruedTotal == Sum(Accruals(s.buckets)) < U128
    && s.pendingTotal == Sum(HeadShares(s)) < U128
  }

  ghost predicate Inv(s: Store) {
    && LedgerOk(s)
    && BucketsOk(s)
    && TotalsOk(s)
    && Covered(s)
  }

  // ---------------------------------------------------------------- replay in one step

  lemma {:induction false} IdleReplay(d: Direction, b: Bucket, entries: seq<DistEntry>)
    requires forall i :: 0 <= i < |entries| ==> !Activated(d, b.anchor, entries[i].price)
    ensures Replay(d, b, entries)
         == if entries == [] then b else b.(applied := entries[|entries| - 1].index + 1)
    decreases |entries|
  {
    if entries == [] {
    } else {
      var b' := ApplyEntry(d, b, entries[0]);
      assert b' == b.(applied := entries[0].index + 1);
      IdleReplay(d, b', entries[1..]);
    }
  }

  /** Catching a bucket up credits exactly its head share. */
  lemma CaughtUpIs(s: Store, b: Bucket)
    requires LedgerOk(s) && s.gcOffset <= b.applied <= s.nextIndex && LaterIdle(s, b)
    ensures CaughtUp(s, b) == b.(accrued := b.accrued + HeadShare(s, b), applied := s.nextIndex)
    ensures Pending(s, b) == HeadShare(s, b)
  {
    var w := Window(s, b);
    if w != [] {
      var b' := ApplyEntry(s.direction, b, w[0]);
      assert w[0] == s.ledger[b.applied - s.gcOffset];
      forall i | 0 <= i < |w[1..]|
        ensures !Activated(s.direction, b'.anchor, w[1..][i].price)
      {
        assert w[1..][i] == s.ledger[b.applied - s.gcOffset + 1 + i];
      }
      IdleReplay(s.direction, b', w[1..]);
      assert w[|w| - 1] == s.ledger[|s.ledger| - 1];
    }
  }

  /** `View` in terms of head shares. */
  function HeadView(s: Store): map<int, Bucket> {
    map k | k in s.buckets ::
      s.buckets[k].(accrued := s.buckets[k].accrued + HeadShare(s, s.buckets[k]), applied := 0)
  }

  /** What the invariant says of one bucket. */
  lemma BucketParts(s: Store, k: int)
    requires Inv(s) && k in s.buckets
    ensures LedgerOk(s) && BucketOk(s, s.buckets[k])
  {
    hide LedgerOk, BucketOk, TotalsOk, Covered;
  }

  lemma CaughtUpAt(s: Store, k: int)
    requires Inv(s) && k in s.buckets
    ensures
      var b := s.buckets[k];
      && CaughtUp(s, b) == b.(accrued := b.accrued + HeadShare(s, b), applied := s.nextIndex)
      && Pending(s, b) == HeadShare(s, b)
  {
    BucketParts(s, k);
    hide Inv, HeadFits, HeadShare, CaughtUp;
    CaughtUpIs(s, s.buckets[k]);
  }

  lemma ViewIs(s: Store)
    requires Inv(s)
    ensures View(s) == HeadView(s)
    ensures Pendings(s) == HeadShares(s)
  {
    hide Inv, CaughtUp, HeadShare, Pending;
    forall k | k in s.buckets
      ensures View(s)[k] == HeadView(s)[k] && Pendings(s)[k] == HeadShares(s)[k]
    {
      CaughtUpAt(s, k);
    }
  }

  /** Exact in-flight accounting. */
  lemma PendingIsExact(s: Store)
    requires Inv(s)
    ensures s.pendingTotal == Sum(Pendings(s))
  {
    ViewIs(s);
  }

  lemma EmptyInv(d: Direction)
    ensures Inv(EmptyStore(d))
    ensures View(EmptyStore(d)) == map[]
  {
    var s := EmptyStore(d);
    SumZero(Accruals(s.buckets));
    SumZero(HeadShares(s));
  }

  // ---------------------------------------------------------------- apply

  /** Going from `s` to `s'`, the keys in `zeroed` are owed nothing, the others what they were. */
  ghost predicate Heads(s: Store, s': Store, zeroed: set<int>) {
    forall j :: j in s'.buckets ==>
      if j in zeroed then HeadShare(s', s'.buckets[j]) == 0
      else j in s.buckets && HeadShare(s', s'.buckets[j]) == HeadShare(s, s.buckets[j])
  }

  /** A bucket has applied the whole ledger. */
  predicate Drained(s: Store, b: Bucket) {
    b.applied == s.nextIndex
  }

  /** Funds the store answers for: credited plus in flight. */
  function Value(s: Store): nat {
    s.accruedTotal + s.pendingTotal
  }

  /** Two stores with the same log and GC window. */
  predicate SameLog(s: Store, s': Store) {
    && s'.direction == s.direction && s'.ledger == s.ledger
    && s'.gcOffset == s.gcOffset && s'.nextIndex == s.nextIndex
  }

  /** What a bucket is owed, and whether it is in order, depends on the log alone. */
  lemma LogDecides(s: Store, s': Store, b: Bucket)
    requires SameLog(s, s')
    ensures HeadShare(s', b) == HeadShare(s, b)
    ensures BucketOk(s', b) <==> BucketOk(s, b)
  {
  }

  /** A bucket that has applied the whole ledger is owed nothing. */
  lemma DrainedOk(s: Store, b: Bucket)
    requires LedgerOk(s) && Drained(s, b)
    requires b.shares < U128 && b.notional < U128 && b.accrued < U128 && b.count < U64
    ensures BucketOk(s, b) && HeadShare(s, b) == 0
  {
  }

  lemma HeadStaysInRange(s: Store, b: Bucket)
    requires BucketOk(s, b)
    ensures b.accrued + HeadShare(s, b) < U128
  {
  }

  /** The head shares of `keys`, zero elsewhere. */
  function Delta(s: Store, keys: set<int>): map<int, nat> {
    map k | k in s.buckets :: if k in keys then HeadShare(s, s.buckets[k]) else 0
  }

  lemma DeltaIs(s: Store, keys: set<int>)
    requires Inv(s)
    ensures Sum(PendingsOf(s, keys)) == Sum(Delta(s, keys)) <= s.pendingTotal
  {
    hide Inv, HeadShare, Pending, Sum;
    forall k | k in s.buckets && k in keys
      ensures PendingsOf(s, keys)[k] == Delta(s, keys)[k]
    {
      CaughtUpAt(s, k);
    }
    SumSubset(Delta(s, keys), PendingsOf(s, keys));
    SumMonotone(Delta(s, keys), HeadShares(s));
    PendingIsHeads(s);
  }

  lemma PendingIsHeads(s: Store)
    requires Inv(s)
    ensures s.pendingTotal == Sum(HeadShares(s))
  {
    hide LedgerOk, BucketsOk, Covered, HeadShares, Sum;
  }

  /** A bucket as `ApplyKeys` leaves it. */
  function Settled(s: Store, b: Bucket): Bucket {
    b.(accrued := b.accrued + HeadShare(s, b), applied := s.nextIndex)
  }

  function SettledBuckets(s: Store, keys: set<int>): map<int, Bucket> {
    map k | k in s.buckets :: if k in keys then Settled(s, s.buckets[k]) else s.buckets[k]
  }

  lemma SettledBucketsAre(s: Store, keys: set<int>)
    requires Inv(s)
    ensures CaughtUpAll(s, keys) == SettledBuckets(s, keys)
  {
    hide Inv, CaughtUp, HeadShare;
    forall k | k in s.buckets
      ensures CaughtUpAll(s, keys)[k] == SettledBuckets(s, keys)[k]
    {
      CaughtUpAt(s, k);
    }
  }

  /** `ApplyKeys` bucket by bucket; the saturating subtraction never saturates. */
  lemma ApplyKeysIs(s: Store, keys: set<int>)
    requires Inv(s)
    ensures
      var delta := Sum(Delta(s, keys));
      && delta <= s.pendingTotal
      && ApplyKeys(s, keys) ==
           if s.accruedTotal + delta >= U128 then Err(MathOverflow)
           else Ok(s.(buckets := SettledBuckets(s, keys),
                      accruedTotal := s.accruedTotal + delta,
                      pendingTotal := s.pendingTotal - delta))
  {
    hide CaughtUpAll, Settled, SettledBuckets, Delta, PendingsOf, Inv, Sum;
    DeltaIs(s, keys);
    SettledBucketsAre(s, keys);
  }

  lemma SettledOk(s: Store, s': Store, b: Bucket)
    requires LedgerOk(s) && SameLog(s, s') && BucketOk(s, b)
    ensures BucketOk(s', Settled(s, b)) && HeadShare(s', Settled(s, b)) == 0
  {
    HeadStaysInRange(s, b);
    LogDecides(s, s', Settled(s, b));
    DrainedOk(s, Settled(s, b));
  }

  /** Applying pending events changes no view and moves value, never makes it. */
  lemma ApplyKeysRefines(s: Store, keys: set<int>)
    requires Inv(s)
    ensures Value(s) < U128 ==> ApplyKeys(s, keys).Ok?
    ensures ApplyKeys(s, keys).Err? ==> ApplyKeys(s, keys).error == MathOverflow
    ensures ApplyKeys(s, keys).Ok? ==>
      var s' := ApplyKeys(s, keys).value;
      && Inv(s') && View(s') == View(s) && Value(s') == Value(s)
      && SameLog(s, s')
      && s'.buckets == SettledBuckets(s, keys)
  {
    ApplyKeysIs(s, keys);
    if ApplyKeys(s, keys).Ok? {
      var s' := ApplyKeys(s, keys).value;
      hide ApplyKeys;
      SettleInv(s, s', keys);
    }
  }

  lemma SettleHeads(s: Store, s': Store, keys: set<int>)
    requires LedgerOk(s) && BucketsOk(s)
    requires SameLog(s, s') && s'.buckets == SettledBuckets(s, keys)
    ensures BucketsOk(s') && Heads(s, s', keys)
  {
    forall k | k in s'.buckets
      ensures BucketOk(s', s'.buckets[k])
      ensures HeadShare(s', s'.buckets[k]) == if k in keys then 0 else HeadShare(s, s.buckets[k])
    {
      LogDecides(s, s', s.buckets[k]);
      SettledOk(s, s', s.buckets[k]);
    }
  }

  lemma SettleCovered(s: Store, s': Store, keys: set<int>)
    requires Covered(s) && SameLog(s, s') && s'.buckets == SettledBuckets(s, keys)
    requires Heads(s, s', keys)
    ensures Covered(s')
  {
    hide Heads, OwedBy, Sum;
    forall i | 0 <= i < |s'.ledger|
      ensures Sum(OwedBy(s', s'.gcOffset + i)) <= s'.ledger[i].allotted
    {
      SettleOwed(s, s', keys, s.gcOffset + i);
    }
  }

  lemma SettleInv(s: Store, s': Store, keys: set<int>)
    requires Inv(s)
    requires SameLog(s, s') && s'.buckets == SettledBuckets(s, keys)
    requires s'.accruedTotal == s.accruedTotal + Sum(Delta(s, keys)) < U128
    requires s'.pendingTotal == s.pendingTotal - Sum(Delta(s, keys))
    ensures Inv(s') && View(s') == View(s)
  {
    hide Heads, BucketsOk, HeadShare, HeadShares, Accruals, HeadView, Sum, View, Pendings, Covered, Delta,
      SettledBuckets;
    SettleHeads(s, s', keys);
    SettleTotals(s, s', keys);
    SettleCovered(s, s', keys);
    SettleView(s, s', keys);
    ViewIs(s);
    ViewIs(s');
  }

  lemma SettleTotals(s: Store, s': Store, keys: set<int>)
    requires s'.buckets == SettledBuckets(s, keys)
    requires Heads(s, s', keys)
    ensures Sum(HeadShares(s)) == Sum(HeadShares(s')) + Sum(Delta(s, keys))
    ensures Sum(Accruals(s'.buckets)) == Sum(Accruals(s.buckets)) + Sum(Delta(s, keys))
  {
    forall j | j in s'.buckets
      ensures HeadShares(s)[j] == HeadShares(s')[j] + Delta(s, keys)[j]
      ensures Accruals(s'.buckets)[j] == Accruals(s.buckets)[j] + Delta(s, keys)[j]
    {
    }
    SumAdd(HeadShares(s'), Delta(s, keys), HeadShares(s));
    SumAdd(Accruals(s.buckets), Delta(s, keys), Accruals(s'.buckets));
  }

  lemma SettleOwed(s: Store, s': Store, keys: set<int>, index: nat)
    requires s'.buckets == SettledBuckets(s, keys)
    requires Heads(s, s', keys)
    ensures Sum(OwedBy(s', index)) <= Sum(OwedBy(s, index))
  {
    forall j | j in s'.buckets
      ensures OwedBy(s', index)[j] <= OwedBy(s, index)[j]
    {
    }
    SumMonotone(OwedBy(s', index), OwedBy(s, index));
  }

  lemma SettleView(s: Store, s': Store, keys: set<int>)
    requires s'.buckets == SettledBuckets(s, keys)
    requires Heads(s, s', keys)
    ensures HeadView(s') == HeadView(s)
  {
    forall j | j in s'.buckets
      ensures HeadView(s')[j] == HeadView(s)[j]
    {
    }
  }

  // ---------------------------------------------------------------- compaction

  /** Compaction drops history only: no bucket, share, total or view changes. */
  lemma CompactRefines(s: Store)
    requires Inv(s)
    ensures
      var s' := Compact(s);
      && Inv(s') && View(s') == View(s) && Pendings(s') == Pendings(s)
      && s' == s.(ledger := s'.ledger, gcOffset := s'.gcOffset)
      && |s'.ledger| <= |s.ledger|
  {
    hide Inv, View, Pendings, Compact;
    CompactDrops(s);
    var s' := Compact(s);
    if s' != s {
      DropPrefix(s, s', s'.gcOffset - s.gcOffset);
    }
  }

  /** A compaction drops a prefix that every bucket has applied, or nothing. */
  lemma CompactDrops(s: Store)
    ensures
      var s' := Compact(s);
      s' == s
      || (exists drop: nat ::
            && drop <= |s.ledger|
            && s' == s.(ledger := s.ledger[drop..], gcOffset := s.gcOffset + drop)
            && (forall k :: k in s.buckets ==> s'.gcOffset <= s.buckets[k].applied))
  {
    var w := Watermark(s.buckets, s.nextIndex);
    hide Watermark;
    if w > s.gcOffset {
      var drop := Min(w - s.gcOffset, |s.ledger|);
      assert drop <= |s.ledger| && Compact(s) == s.(ledger := s.ledger[drop..], gcOffset := s.gcOffset + drop);
    }
  }

  lemma DropKeepsBucket(s: Store, s': Store, drop: nat, b: Bucket)
    requires LedgerOk(s) && BucketOk(s, b) && drop <= |s.ledger|
    requires s' == s.(ledger := s.ledger[drop..], gcOffset := s.gcOffset + drop)
    requires s'.gcOffset <= b.applied
    ensures BucketOk(s', b) && HeadShare(s', b) == HeadShare(s, b)
  {
    hide Intrinsic, Outstanding, EntryShare, Activated;
    forall i | 0 <= i < |s'.ledger| && s'.gcOffset + i > b.applied
      ensures !Activated(s'.direction, b.anchor, s'.ledger[i].price)
    {
      assert s'.ledger[i] == s.ledger[drop + i];
    }
  }

  lemma DropHeads(s: Store, s': Store, drop: nat)
    requires LedgerOk(s) && BucketsOk(s) && drop <= |s.ledger|
    requires s' == s.(ledger := s.ledger[drop..], gcOffset := s.gcOffset + drop)
    requires forall k :: k in s.buckets ==> s'.gcOffset <= s.buckets[k].applied
    ensures BucketsOk(s') && Heads(s, s', {})
  {
    forall k | k in s.buckets
      ensures BucketOk(s', s.buckets[k]) && HeadShare(s', s.buckets[k]) == HeadShare(s, s.buckets[k])
    {
      DropKeepsBucket(s, s', drop, s.buckets[k]);
    }
  }

  lemma DropCovered(s: Store, s': Store, drop: nat)
    requires Covered(s) && drop <= |s.ledger|
    requires s' == s.(ledger := s.ledger[drop..], gcOffset := s.gcOffset + drop)
    requires Heads(s, s', {})
    ensures Covered(s')
  {
    hide Heads, OwedBy, Sum;
    forall i | 0 <= i < |s'.ledger|
      ensures Sum(OwedBy(s', s'.gcOffset + i)) <= s'.ledger[i].allotted
    {
      SameOwed(s, s', s'.gcOffset + i);
      assert s'.gcOffset + i == s.gcOffset + (drop + i);
      assert s'.ledger[i] == s.ledger[drop + i];
    }
  }

  lemma DropPrefix(s: Store, s': Store, drop: nat)
    requires Inv(s) && drop <= |s.ledger|
    requires s' == s.(ledger := s.ledger[drop..], gcOffset := s.gcOffset + drop)
    requires forall k :: k in s.buckets ==> s'.gcOffset <= s.buckets[k].applied
    ensures Inv(s') && View(s') == View(s) && Pendings(s') == Pendings(s)
  {
    DropHeads(s, s', drop);
    hide Heads, BucketsOk, HeadShares, Accruals, HeadView, Sum, View, Pendings, Covered;
    SameHeads(s, s');
    SameView(s, s');
    DropCovered(s, s', drop);
    ViewIs(s);
    ViewIs(s');
  }

  lemma SameHeads(s: Store, s': Store)
    requires s'.buckets == s.buckets
    requires Heads(s, s', {})
    ensures HeadShares(s') == HeadShares(s)
  {
    forall j | j in s'.buckets
      ensures HeadShares(s')[j] == HeadShares(s)[j]
    {
    }
  }

  lemma SameView(s: Store, s': Store)
    requires s'.buckets == s.buckets
    requires Heads(s, s', {})
    ensures HeadView(s') == HeadView(s)
  {
    forall j | j in s'.buckets
      ensures HeadView(s')[j] == HeadView(s)[j]
    {
    }
  }

  lemma SameOwed(s: Store, s': Store, index: nat)
    requires s'.buckets == s.buckets
    requires Heads(s, s', {})
    ensures OwedBy(s', index) == OwedBy(s, index)
  {
    forall j | j in s'.buckets
      ensures OwedBy(s', index)[j] == OwedBy(s, index)[j]
    {
    }
  }

  /** Once every bucket is drained, compaction empties the ledger. */
  lemma DrainThenCompact(s: Store)
    requires Inv(s) && ApplyAll(s).Ok?
    ensures Compact(ApplyAll(s).value).ledger == []
  {
    hide ApplyKeys, Inv, HeadShare, View, Compact;
    ApplyKeysRefines(s, s.buckets.Keys);
    var s1 := ApplyAll(s).value;
    LedgerLength(s1);
    DrainedCompact(s1);
  }

  lemma LedgerLength(s: Store)
    requires Inv(s)
    ensures s.nextIndex == s.gcOffset + |s.ledger|
  {
  }

  lemma DrainedCompact(s: Store)
    requires s.nextIndex == s.gcOffset + |s.ledger|
    requires forall k :: k in s.buckets ==> Drained(s, s.buckets[k])
    ensures Compact(s).ledger == []
  {
    assert Watermark(s.buckets, s.nextIndex) == s.nextIndex;
    assert s.ledger[|s.ledger|..] == [];
  }

  // ---------------------------------------------------------------- in-flight accounting

  /** What the events from position `i` on still owe, bucket by bucket. */
  function OwedFrom(s: Store, i: nat): map<int, nat> {
    map k | k in s.buckets :: if s.buckets[k].applied >= s.gcOffset + i then HeadShare(s, s.buckets[k]) else 0
  }

  lemma {:induction false} OwedFromIsCovered(s: Store, i: nat)
    requires LedgerOk(s) && Covered(s) && i <= |s.ledger|
    ensures Sum(OwedFrom(s, i)) <= TotalAllotted(s.ledger[i..])
    decreases |s.ledger| - i
  {
    if i == |s.ledger| {
      forall k | k in s.buckets
        ensures OwedFrom(s, i)[k] == 0
      {
      }
      SumZero(OwedFrom(s, i));
    } else {
      OwedFromIsCovered(s, i + 1);
      assert s.ledger[i..][1..] == s.ledger[i + 1..];
      OwedFromSplits(s, i);
    }
  }

  lemma OwedFromSplits(s: Store, i: nat)
    ensures Sum(OwedFrom(s, i)) == Sum(OwedBy(s, s.gcOffset + i)) + Sum(OwedFrom(s, i + 1))
  {
    hide Sum, HeadShare;
    forall k | k in s.buckets
      ensures OwedFrom(s, i)[k] == OwedBy(s, s.gcOffset + i)[k] + OwedFrom(s, i + 1)[k]
    {
    }
    SumAdd(OwedBy(s, s.gcOffset + i), OwedFrom(s, i + 1), OwedFrom(s, i));
  }

  lemma PendingWithinWindow(s: Store)
    requires Inv(s)
    ensures s.pendingTotal <= TotalAllotted(s.ledger)
  {
    OwedFromIsCovered(s, 0);
    assert s.ledger[0..] == s.ledger;
    forall k | k in s.buckets
      ensures HeadShares(s)[k] == OwedFrom(s, 0)[k]
    {
      assert BucketOk(s, s.buckets[k]);
    }
    assert HeadShares(s) == OwedFrom(s, 0);
  }

  /** `check_invariants` never finds a discrepancy; only a sum of the ledger can be too large. */
  lemma CheckStoreIs(s: Store)
    requires Inv(s)
    ensures Consistent(s)
    ensures CheckStore(s) == if TotalAllotted(s.ledger) < U128 then Ok(()) else Err(MathOverflow)
  {
    PendingWithinWindow(s);
    assert forall k :: k in s.buckets ==> BucketOk(s, s.buckets[k]);
  }

  // ---------------------------------------------------------------- replacing a drained bucket

  lemma AccrualsAt(bs: map<int, Bucket>, k: int)
    ensures k in Accruals(bs) <==> k in bs
    ensures k in bs ==> Accruals(bs)[k] == bs[k].accrued
  {
  }

  lemma HeadSharesAt(s: Store, k: int)
    ensures k in HeadShares(s) <==> k in s.buckets
    ensures k in s.buckets ==> HeadShares(s)[k] == HeadShare(s, s.buckets[k])
  {
  }

  /** Putting a drained bucket at `k`, where there was a drained bucket or none. */
  lemma ReplaceDrained(s: Store, s': Store, k: int, b: Bucket)
    requires Inv(s)
    requires k in s.buckets ==> Drained(s, s.buckets[k])
    requires Drained(s, b)
    requires b.shares < U128 && b.notional < U128 && b.accrued < U128 && b.count < U64
    requires s' == s.(buckets := s.buckets[k := b], accruedTotal := s'.accruedTotal)
    requires s'.accruedTotal == s.accruedTotal - (if k in s.buckets then s.buckets[k].accrued else 0) + b.accrued < U128
    ensures Inv(s')
    ensures View(s') == View(s)[k := b.(applied := 0)]
  {
    hide Heads, BucketsOk, HeadShare, HeadShares, Accruals, HeadView, Sum, View, Pendings, Covered;
    ReplaceAt(s, s', k, b);
    AccrualsAt(s.buckets, k);
    HeadSharesAt(s, k);
    ReplaceAccruals(s.buckets, k, b);
    ReplaceHeads(s, s', k, b);
    ReplaceView(s, s', k, b);
    SumUpdate(Accruals(s.buckets), k, b.accrued);
    SumUpdate(HeadShares(s), k, 0);
    ReplaceCovered(s, s', k, b);
    ViewIs(s);
    ViewIs(s');
  }

  lemma ReplaceAt(s: Store, s': Store, k: int, b: Bucket)
    requires LedgerOk(s) && BucketsOk(s)
    requires k in s.buckets ==> Drained(s, s.buckets[k])
    requires Drained(s, b)
    requires b.shares < U128 && b.notional < U128 && b.accrued < U128 && b.count < U64
    requires SameLog(s, s') && s'.buckets == s.buckets[k := b]
    ensures BucketsOk(s') && Heads(s, s', {k})
    ensures k in s.buckets ==> HeadShare(s, s.buckets[k]) == 0
  {
    DrainedOk(s, b);
    if k in s.buckets {
      assert BucketOk(s, s.buckets[k]);
      DrainedOk(s, s.buckets[k]);
    }
    hide BucketOk, HeadShare;
    forall j | j in s'.buckets
      ensures BucketOk(s', s'.buckets[j])
      ensures HeadShare(s', s'.buckets[j]) == if j == k then 0 else HeadShare(s, s.buckets[j])
    {
      LogDecides(s, s', s'.buckets[j]);
    }
  }

  lemma ReplaceCovered(s: Store, s': Store, k: int, b: Bucket)
    requires Covered(s) && SameLog(s, s') && s'.buckets == s.buckets[k := b]
    requires Heads(s, s', {k})
    requires k in s.buckets ==> HeadShare(s, s.buckets[k]) == 0
    ensures Covered(s')
  {
    hide Heads, OwedBy, Sum, HeadShare;
    forall i | 0 <= i < |s'.ledger|
      ensures Sum(OwedBy(s', s'.gcOffset + i)) <= s'.ledger[i].allotted
    {
      ReplaceOwed(s, s', k, b, s.gcOffset + i);
    }
  }

  lemma ReplaceHeads(s: Store, s': Store, k: int, b: Bucket)
    requires s'.buckets == s.buckets[k := b]
    requires Heads(s, s', {k})
    ensures HeadShares(s') == HeadShares(s)[k := 0]
  {
    forall j | j in s'.buckets
      ensures HeadShares(s')[j] == HeadShares(s)[k := 0][j]
    {
    }
  }

  lemma ReplaceView(s: Store, s': Store, k: int, b: Bucket)
    requires s'.buckets == s.buckets[k := b]
    requires Heads(s, s', {k})
    ensures HeadView(s') == HeadView(s)[k := b.(applied := 0)]
  {
    forall j | j in s'.buckets
      ensures HeadView(s')[j] == HeadView(s)[k := b.(applied := 0)][j]
    {
    }
  }

  lemma ReplaceAccruals(bs: map<int, Bucket>, k: int, b: Bucket)
    ensures Accruals(bs[k := b]) == Accruals(bs)[k := b.accrued]
  {
  }

  lemma ReplaceOwed(s: Store, s': Store, k: int, b: Bucket, index: nat)
    requires s'.buckets == s.buckets[k := b]
    requires Heads(s, s', {k})
    requires k in s.buckets ==> HeadShare(s, s.buckets[k]) == 0
    ensures Sum(OwedBy(s', index)) == Sum(OwedBy(s, index))
  {
    forall j | j in s'.buckets
      ensures OwedBy(s', index)[j] == OwedBy(s, index)[k := 0][j]
    {
    }
    assert OwedBy(s', index) == OwedBy(s, index)[k := 0];
    SumUpdate(OwedBy(s, index), k, 0);
  }

  lemma RemoveDrained(s: Store, s': Store, k: int)
    requires Inv(s)
    requires k in s.buckets && Drained(s, s.buckets[k])
    requires s' == s.(buckets := s.buckets - {k}, accruedTotal := s'.accruedTotal)
    requires s'.accruedTotal == s.accruedTotal - s.buckets[k].accrued
    ensures Inv(s')
    ensures View(s') == View(s) - {k}
  {
    hide Heads, BucketsOk, HeadShare, HeadShares, Accruals, HeadView, Sum, View, Pendings, Covered;
    RemoveAt(s, s', k);
    AccrualsAt(s.buckets, k);
    HeadSharesAt(s, k);
    RemoveAccruals(s.buckets, k);
    RemoveHeads(s, s', k);
    RemoveView(s, s', k);
    SumSplit(Accruals(s.buckets), k);
    SumSplit(HeadShares(s), k);
    RemoveCovered(s, s', k);
    ViewIs(s);
    ViewIs(s');
  }

  lemma RemoveAt(s: Store, s': Store, k: int)
    requires LedgerOk(s) && BucketsOk(s)
    requires k in s.buckets && Drained(s, s.buckets[k])
    requires SameLog(s, s') && s'.buckets == s.buckets - {k}
    ensures BucketsOk(s') && Heads(s, s', {})
    ensures HeadShare(s, s.buckets[k]) == 0
  {
    assert BucketOk(s, s.buckets[k]);
    DrainedOk(s, s.buckets[k]);
    hide BucketOk, HeadShare;
    forall j | j in s'.buckets
      ensures BucketOk(s', s'.buckets[j])
      ensures HeadShare(s', s'.buckets[j]) == HeadShare(s, s.buckets[j])
    {
      LogDecides(s, s', s'.buckets[j]);
    }
  }

  lemma RemoveCovered(s: Store, s': Store, k: int)
    requires k in s.buckets
    requires Covered(s) && SameLog(s, s') && s'.buckets == s.buckets - {k}
    requires Heads(s, s', {})
    ensures Covered(s')
  {
    hide Heads, OwedBy, Sum, HeadShare;
    forall i | 0 <= i < |s'.ledger|
      ensures Sum(OwedBy(s', s'.gcOffset + i)) <= s'.ledger[i].allotted
    {
      RemoveOwed(s, s', k, s.gcOffset + i);
    }
  }

  lemma RemoveHeads(s: Store, s': Store, k: int)
    requires k in s.buckets && s'.buckets == s.buckets - {k}
    requires Heads(s, s', {})
    ensures HeadShares(s') == HeadShares(s) - {k}
  {
    forall j | j in s'.buckets
      ensures HeadShares(s')[j] == HeadShares(s)[j]
    {
    }
  }

  lemma RemoveView(s: Store, s': Store, k: int)
    requires k in s.buckets && s'.buckets == s.buckets - {k}
    requires Heads(s, s', {})
    ensures HeadView(s') == HeadView(s) - {k}
  {
    forall j | j in s'.buckets
      ensures HeadView(s')[j] == HeadView(s)[j]
    {
    }
  }

  lemma RemoveAccruals(bs: map<int, Bucket>, k: int)
    ensures Accruals(bs - {k}) == Accruals(bs) - {k}
  {
  }

  lemma RemoveOwed(s: Store, s': Store, k: int, index: nat)
    requires k in s.buckets && s'.buckets == s.buckets - {k}
    requires Heads(s, s', {})
    ensures Sum(OwedBy(s', index)) <= Sum(OwedBy(s, index))
  {
    forall j | j in s'.buckets
      ensures OwedBy(s', index)[j] == OwedBy(s, index)[j]
    {
    }
    assert OwedBy(s', index) == OwedBy(s, index) - {k};
    SumSplit(OwedBy(s, index), k);
  }
}
