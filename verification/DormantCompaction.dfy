/**
  Compaction never matters: a store and the same store without a prefix of its ledger that every
  bucket has applied react to every operation alike, rejections included.
*/
module DormantCompaction {
  import opened Wrappers
  import opened Clearing
  import opened Sums
  import opened Dormant
  import opened DormantInvariant
  import opened DormantRefinement
  import opened DormantRuns

  // ---------------------------------------------------------------- trimmed stores

  /** The first `n` ledger entries have been applied by every bucket. */
  ghost predicate Trims(s: Store, n: nat) {
    && n <= |s.ledger|
    && (forall k :: k in s.buckets ==> s.gcOffset + n <= s.buckets[k].applied)
  }

  function Trim(s: Store, n: nat): Store
    requires n <= |s.ledger|
  {
    s.(ledger := s.ledger[n..], gcOffset := s.gcOffset + n)
  }

  /** How many entries a compaction drops. */
  ghost function Slack(s: Store): nat {
    SaturatingSub(Watermark(s.buckets, s.nextIndex), s.gcOffset)
  }

  lemma WatermarkBounds(s: Store)
    requires Inv(s)
    ensures s.gcOffset <= Watermark(s.buckets, s.nextIndex) <= s.gcOffset + |s.ledger|
  {
    var w := Watermark(s.buckets, s.nextIndex);
    if w != s.nextIndex {
      var k :| k in s.buckets && s.buckets[k].applied == w;
      assert BucketOk(s, s.buckets[k]);
    }
  }

  lemma CompactIsTrim(s: Store)
    requires Inv(s)
    ensures Trims(s, Slack(s)) && Compact(s) == Trim(s, Slack(s))
  {
    hide Inv, Watermark;
    WatermarkBounds(s);
    assert s.ledger[0..] == s.ledger;
  }

  lemma TrimKeeps(s: Store, n: nat)
    requires Inv(s) && Trims(s, n)
    ensures Inv(Trim(s, n)) && View(Trim(s, n)) == View(s)
    ensures forall k :: k in s.buckets ==> HeadShare(Trim(s, n), s.buckets[k]) == HeadShare(s, s.buckets[k])
  {
    DropPrefix(s, Trim(s, n), n);
    forall k | k in s.buckets
      ensures HeadShare(Trim(s, n), s.buckets[k]) == HeadShare(s, s.buckets[k])
    {
      DropKeepsBucket(s, Trim(s, n), n, s.buckets[k]);
    }
  }

  lemma TrimTwice(s: Store, n: nat, m: nat)
    requires n <= m <= |s.ledger|
    ensures Trim(Trim(s, n), m - n) == Trim(s, m)
  {
    assert s.ledger[n..][m - n..] == s.ledger[m..];
  }

  lemma SlackTrimmed(s: Store, n: nat)
    requires Inv(s) && Trims(s, n)
    ensures n <= Slack(s) <= |s.ledger| && Slack(Trim(s, n)) == Slack(s) - n
  {
    WatermarkBounds(s);
    hide Inv;
  }

  /** What is trimmed makes no difference to a compaction. */
  lemma CompactTrimmed(s: Store, n: nat)
    requires Inv(s) && Trims(s, n)
    ensures Compact(Trim(s, n)) == Compact(s)
  {
    hide Inv, View, HeadShare, Compact, Slack, Trims, Trim;
    TrimKeeps(s, n);
    SlackTrimmed(s, n);
    CompactIsTrim(s);
    CompactIsTrim(Trim(s, n));
    TrimTwice(s, n, Slack(s));
  }

  // ---------------------------------------------------------------- operations on a trimmed store

  /** The two results differ in the trimmed prefix only. */
  ghost predicate TrimmedResult(r: ClearingResult<Store>, r': ClearingResult<Store>, n: nat) {
    match r
    case Err(_) => r' == r
    case Ok(s') => Trims(s', n) && r' == Ok(Trim(s', n))
  }

  lemma DeltaTrimmed(s: Store, n: nat, keys: set<int>)
    requires Inv(s) && Trims(s, n)
    ensures Delta(Trim(s, n), keys) == Delta(s, keys)
    ensures SettledBuckets(Trim(s, n), keys) == SettledBuckets(s, keys)
  {
    hide Inv, View, HeadShare, Trim, Trims;
    TrimsLength(s, n);
    TrimFields(s, n);
    TrimKeeps(s, n);
    forall k | k in s.buckets
      ensures Delta(Trim(s, n), keys)[k] == Delta(s, keys)[k]
      ensures SettledBuckets(Trim(s, n), keys)[k] == SettledBuckets(s, keys)[k]
    {
    }
  }

  lemma SettledPastTrim(s: Store, n: nat, keys: set<int>)
    requires Inv(s) && Trims(s, n)
    ensures forall k :: k in SettledBuckets(s, keys) ==> s.gcOffset + n <= SettledBuckets(s, keys)[k].applied
  {
    hide BucketsOk, TotalsOk, Covered, HeadShare;
  }

  /** Trimming commutes with changes to the buckets and the totals. */
  lemma TrimCommutes(s: Store, n: nat, bs: map<int, Bucket>, accrued: nat, pending: nat)
    requires n <= |s.ledger|
    requires forall k :: k in bs ==> s.gcOffset + n <= bs[k].applied
    ensures
      var s' := s.(buckets := bs, accruedTotal := accrued, pendingTotal := pending);
      Trims(s', n) && Trim(s', n) == Trim(s, n).(buckets := bs, accruedTotal := accrued, pendingTotal := pending)
  {
  }

  lemma TrimFields(s: Store, n: nat)
    requires n <= |s.ledger|
    ensures
      var t := Trim(s, n);
      && t.direction == s.direction && t.buckets == s.buckets && t.nextIndex == s.nextIndex
      && t.accruedTotal == s.accruedTotal && t.pendingTotal == s.pendingTotal
      && t == s.(ledger := t.ledger, gcOffset := t.gcOffset)
  {
  }

  lemma TrimsLength(s: Store, n: nat)
    requires Trims(s, n)
    ensures n <= |s.ledger|
  {
  }

  lemma ApplyTrimmed(s: Store, n: nat, keys: set<int>)
    requires Inv(s) && Trims(s, n)
    ensures TrimmedResult(ApplyKeys(s, keys), ApplyKeys(Trim(s, n), keys), n)
  {
    hide Inv, ApplyKeys, View, HeadShare, Delta, SettledBuckets, Sum, Trim, Trims;
    TrimsLength(s, n);
    TrimKeeps(s, n);
    TrimFields(s, n);
    DeltaTrimmed(s, n, keys);
    SettledPastTrim(s, n, keys);
    ApplyKeysIs(s, keys);
    ApplyKeysIs(Trim(s, n), keys);
    var delta := Sum(Delta(s, keys));
    TrimCommutes(s, n, SettledBuckets(s, keys), s.accruedTotal + delta, s.pendingTotal - delta);
  }

  lemma AddTrimmed(s: Store, n: nat, tick: int, shares: nat, notional: nat, count: nat)
    requires Trims(s, n) && tick in s.buckets
    ensures TrimmedResult(AddToBucket(s, tick, shares, notional, count), AddToBucket(Trim(s, n), tick, shares, notional, count), n)
  {
  }

  lemma FreshTrimmed(s: Store, n: nat, tick: int, anchor: nat, shares: nat, notional: nat, count: nat, maxBuckets: nat)
    requires s.nextIndex == s.gcOffset + |s.ledger| && Trims(s, n) && tick !in s.buckets
    ensures TrimmedResult(InsertOrMerge(s, tick, anchor, shares, notional, count, maxBuckets),
                          InsertOrMerge(Trim(s, n), tick, anchor, shares, notional, count, maxBuckets), n)
  {
    hide ApplyBucket, AddToBucket;
  }

  lemma MergeTrimmed(
    s: Store, n: nat, tick: int, anchor: nat, shares: nat, notional: nat, count: nat, maxBuckets: nat)
    requires Inv(s) && Trims(s, n)
    ensures TrimmedResult(InsertOrMerge(s, tick, anchor, shares, notional, count, maxBuckets),
                          InsertOrMerge(Trim(s, n), tick, anchor, shares, notional, count, maxBuckets), n)
  {
    hide ApplyKeys, View, Inv, AddToBucket, Trim, Trims;
    TrimsLength(s, n);
    TrimFields(s, n);
    LedgerLength(s);
    if tick in s.buckets {
      ApplyTrimmed(s, n, {tick});
      AppliedBucket(s, tick);
      if ApplyBucket(s, tick).Ok? {
        TrimsLength(ApplyBucket(s, tick).value, n);
        AddTrimmed(ApplyBucket(s, tick).value, n, tick, shares, notional, count);
      }
    } else {
      FreshTrimmed(s, n, tick, anchor, shares, notional, count, maxBuckets);
    }
  }

  lemma DrainedRedeemTrimmed(s: Store, n: nat, tick: int, burn: nat)
    requires Trims(s, n)
    ensures
      var r, r' := RedeemDrained(s, tick, burn), RedeemDrained(Trim(s, n), tick, burn);
      && (r.Err? ==> r' == r)
      && (r.Ok? ==> Trims(r.value.0, n) && r' == Ok((Trim(r.value.0, n), r.value.1)))
  {
    if tick in s.buckets && 0 < burn <= s.buckets[tick].shares {
      RedeemShrinks(s.buckets[tick], burn);
      hide RedeemFrom;
    }
  }

  lemma RedeemTrimmed(s: Store, n: nat, tick: int, burn: nat)
    requires Inv(s) && Trims(s, n)
    ensures
      var r, r' := Redeem(s, tick, burn), Redeem(Trim(s, n), tick, burn);
      && (r.Err? ==> r' == r)
      && (r.Ok? ==> Trims(r.value.0, n) && r' == Ok((Trim(r.value.0, n), r.value.1)))
  {
    ApplyTrimmed(s, n, {tick});
    hide ApplyKeys, Inv, RedeemDrained;
    if ApplyBucket(s, tick).Ok? {
      DrainedRedeemTrimmed(ApplyBucket(s, tick).value, n, tick, burn);
    }
  }

  lemma LoggedTrimmed(s: Store, n: nat, mode: Mode, price: nat, alloc: nat)
    requires LedgerOk(s) && Trims(s, n)
    ensures
      var s' := Logged(s, mode, price, alloc);
      Trims(s', n) && Logged(Trim(s, n), mode, price, alloc) == Trim(s', n)
  {
    hide TotalOutstanding, Shares, Sum, ActivatedKeys;
    var e := NewEntry(s, price, alloc);
    assert (s.ledger + [e])[n..] == s.ledger[n..] + [e];
    LoggedIs(s, mode, price, alloc);
    hide AfterEvent, Logged;
    var s' := Logged(s, mode, price, alloc);
    forall k | k in s'.buckets
      ensures s'.gcOffset + n <= s'.buckets[k].applied
    {
      AfterEventApplied(s, mode, s.buckets[k], e);
    }
    LoggedFields(s, n, mode, price, alloc);
  }

  lemma AfterEventApplied(s: Store, mode: Mode, b: Bucket, e: DistEntry)
    ensures AfterEvent(s, mode, b, e).applied == b.applied || AfterEvent(s, mode, b, e).applied == s.nextIndex + 1
  {
    hide Share, Outstanding, Activated;
  }

  lemma LoggedFields(s: Store, n: nat, mode: Mode, price: nat, alloc: nat)
    requires n <= |s.ledger|
    ensures
      var s', t', e := Logged(s, mode, price, alloc), Logged(Trim(s, n), mode, price, alloc), NewEntry(s, price, alloc);
      && s'.ledger == s.ledger + [e] && s'.gcOffset == s.gcOffset
      && t'.ledger == s.ledger[n..] + [e] && t'.gcOffset == s.gcOffset + n
      && t' == s'.(ledger := t'.ledger, gcOffset := t'.gcOffset)
  {
    hide TotalOutstanding, Shares, Sum, ActiveKeys, CreditKeys;
  }

  lemma PayOutTrimmed(s: Store, n: nat, mode: Mode, price: nat, alloc: nat)
    requires LedgerOk(s) && Trims(s, n)
    ensures
      var r, r' := PayOut(s, mode, price, alloc), PayOut(Trim(s, n), mode, price, alloc);
      && (r.Err? ==> r' == r)
      && (r.Ok? ==> Trims(r.value.0, n) && r' == Ok((Trim(r.value.0, n), r.value.1)))
  {
    hide LedgerOk, Logged, Trim, Trims, PayOut;
    TrimsLength(s, n);
    TrimFields(s, n);
    LoggedTrimmed(s, n, mode, price, alloc);
    PayOutReads(s, Trim(s, n), mode, price, alloc);
  }

  /** A payout looks at a store's buckets, totals and event counter only. */
  lemma PayOutReads(s: Store, t: Store, mode: Mode, price: nat, alloc: nat)
    requires t == s.(ledger := t.ledger, gcOffset := t.gcOffset)
    ensures
      var r, q := PayOut(s, mode, price, alloc), PayOut(t, mode, price, alloc);
      && (r.Err? ==> q == r)
      && (r.Ok? ==>
            && q.Ok? && q.value.1 == r.value.1
            && ((r.value.0 == s && q.value.0 == t)
                || (r.value.0 == Logged(s, mode, price, alloc) && q.value.0 == Logged(t, mode, price, alloc))))
  {
    hide TotalOutstanding, Shares, Sum, ClaimsFit, Logged;
    var total := TotalOutstanding(s.direction, s.buckets, price);
    assert TotalOutstanding(t.direction, t.buckets, price) == total;
    assert Shares(t.direction, t.buckets, price, alloc, total) == Shares(s.direction, s.buckets, price, alloc, total);
    var r, q := PayOut(s, mode, price, alloc), PayOut(t, mode, price, alloc);
    if r.Err? {
      assert q.Err?;
    } else if total == 0 {
      assert r.value.0 == s && q.value.0 == t;
    } else {
      assert q.Ok?;
      assert r.value.0 == Logged(s, mode, price, alloc) && q.value.0 == Logged(t, mode, price, alloc);
    }
  }

  // ---------------------------------------------------------------- ledger room

  ghost predicate IsTrim(s: Store, n: nat, t: Store) {
    n <= |s.ledger| && Trims(s, n) && t == Trim(s, n)
  }

  /** A store has room for an event exactly when its compaction has. */
  lemma RoomAgrees(s: Store, cap: nat)
    requires Inv(s)
    ensures HasRoom(s, cap) <==> HasRoom(Compact(s), cap)
    ensures HasRoom(s, cap) ==>
      HasRoom(Compact(s), cap) && exists n: nat :: IsTrim(MakeRoom(s, cap).value, n, MakeRoom(Compact(s), cap).value)
  {
    hide Inv, Compact, Slack, Trim, Trims;
    CompactIsTrim(s);
    CompactAgain(s);
    var t := Compact(s);
    CompactShrinks(s);
    TrimNothing(t);
    TrimsLength(s, Slack(s));
    if HasRoom(s, cap) {
      var s1 := MakeRoom(s, cap).value;
      if s1 == s {
        assert IsTrim(s1, Slack(s), MakeRoom(t, cap).value);
      } else {
        assert IsTrim(s1, 0, MakeRoom(t, cap).value);
      }
    }
  }

  lemma CompactShrinks(s: Store)
    requires Inv(s)
    ensures |Compact(s).ledger| <= |s.ledger|
  {
    hide Inv, Compact, View, Pendings;
    CompactRefines(s);
  }

  lemma TrimNothing(s: Store)
    requires Inv(s)
    ensures Trims(s, 0) && Trim(s, 0) == s
  {
    hide LedgerOk, TotalsOk, Covered, LaterIdle, HeadFits;
    assert s.ledger[0..] == s.ledger;
  }

  lemma SameActivated(s: Store, n: nat, price: nat)
    requires n <= |s.ledger|
    ensures ActivatedKeys(Trim(s, n), price) == ActivatedKeys(s, price)
  {
  }

  /** Two results of a distribution that differ in a trimmed prefix only. */
  ghost predicate Twins(r: ClearingResult<(Store, Receipt)>, r': ClearingResult<(Store, Receipt)>) {
    match r
    case Err(_) => r' == r
    case Ok((s', receipt)) => exists n :: Trims(s', n) && r' == Ok((Trim(s', n), receipt))
  }

  lemma DistributeCompacted(s: Store, mode: Mode, price: nat, alloc: nat, cap: nat)
    requires Inv(s)
    ensures Twins(Distribute(s, mode, price, alloc, cap), Distribute(Compact(s), mode, price, alloc, cap))
  {
    hide Compact, View, Pendings, MakeRoom, ApplyKeys, PayOut, Inv, Slack, ActivatedKeys;
    RoomAgrees(s, cap);
    CompactRefines(s);
    CompactIsTrim(s);
    MakeRoomRefines(s, cap);
    MakeRoomRefines(Compact(s), cap);
    if alloc > 0 && HasRoom(s, cap) {
      var s1 := MakeRoom(s, cap).value;
      var n: nat :| IsTrim(s1, n, MakeRoom(Compact(s), cap).value);
      ApplyTrimmed(s1, n, ActivatedKeys(s1, price));
      SameActivated(s1, n, price);
      ApplyKeysRefines(s1, ActivatedKeys(s1, price));
      if ApplyKeys(s1, ActivatedKeys(s1, price)).Ok? {
        var s2 := ApplyKeys(s1, ActivatedKeys(s1, price)).value;
        LedgerOfInv(s2);
        PayOutTrimmed(s2, n, mode, price, alloc);
      }
    }
  }

  lemma LedgerOfInv(s: Store)
    requires Inv(s)
    ensures LedgerOk(s)
  {
  }

  // ---------------------------------------------------------------- runs

  /** One operation on a store and on its compaction. */
  lemma StepCompacted(s: Store, op: Op)
    requires Inv(s) && ValidOp(op)
    ensures Step(Compact(s), op).1 == Step(s, op).1
    ensures Compact(Step(Compact(s), op).0) == Compact(Step(s, op).0)
  {
    hide InsertOrMerge, Distribute, Redeem, ApplyKeys, Compact, View, Inv, IdealStep, Slack;
    CompactIsTrim(s);
    CompactTrimmed(s, Slack(s));
    StepRefines(s, op);
    match op
    case Merge(tick, anchor, shares, notional, count, maxBuckets) =>
      MergeTrimmed(s, Slack(s), tick, anchor, shares, notional, count, maxBuckets);
      SameCompaction(Step(s, op).0, Slack(s));
    case Dist(mode, price, alloc, cap) =>
      DistributeCompacted(s, mode, price, alloc, cap);
      var r := Distribute(s, mode, price, alloc, cap);
      if r.Ok? {
        var n :| Trims(r.value.0, n) && Distribute(Compact(s), mode, price, alloc, cap) == Ok((Trim(r.value.0, n), r.value.1));
        CompactTrimmed(r.value.0, n);
      }
    case Burn(tick, amount) =>
      RedeemTrimmed(s, Slack(s), tick, amount);
      SameCompaction(Step(s, op).0, Slack(s));
    case Touch(keys) =>
      ApplyTrimmed(s, Slack(s), keys);
      SameCompaction(Step(s, op).0, Slack(s));
    case Gc =>
  }

  lemma SameCompaction(s: Store, n: nat)
    requires Inv(s)
    ensures Trims(s, n) ==> Compact(Trim(s, n)) == Compact(s)
  {
    if Trims(s, n) {
      CompactTrimmed(s, n);
    }
  }

  lemma CompactAgain(s: Store)
    requires Inv(s)
    ensures Inv(Compact(s)) && Compact(Compact(s)) == Compact(s)
  {
    CompactIsTrim(s);
    CompactTrimmed(s, Slack(s));
    CompactRefines(s);
  }

  /** Stores with the same compaction react to every run with the same outcomes, to the same end. */
  lemma {:induction false} SameCompactionSameRun(s: Store, t: Store, ops: seq<Op>)
    requires Inv(s) && Inv(t) && Compact(s) == Compact(t) && ValidOps(ops)
    ensures Run(s, ops).1 == Run(t, ops).1
    ensures Compact(Run(s, ops).0) == Compact(Run(t, ops).0)
    decreases |ops|
  {
    if ops == [] {
    } else {
      StepCompacted(s, ops[0]);
      StepCompacted(t, ops[0]);
      StepRefines(s, ops[0]);
      StepRefines(t, ops[0]);
      RunUnfolds(s, ops);
      RunUnfolds(t, ops);
      hide Step, IdealStep, View, Inv, Run, Compact;
      SameCompactionSameRun(Step(s, ops[0]).0, Step(t, ops[0]).0, ops[1..]);
    }
  }

  /** What a caller can tell about a store: everything but the ledger window. */
  lemma CompactTells(s: Store, t: Store)
    requires Inv(s) && Inv(t) && Compact(s) == Compact(t)
    ensures t == s.(ledger := t.ledger, gcOffset := t.gcOffset)
    ensures View(t) == View(s) && Pendings(t) == Pendings(s)
  {
    hide Inv, View, Pendings, Compact;
    CompactRefines(s);
    CompactRefines(t);
  }

  /**
    Compacting first changes nothing a caller can see, ever: every later operation has the same
    outcome, rejections for lack of ledger room included, and the buckets, the totals, the event
    counter, the views and what each bucket is still owed are the same.
  */
  lemma CompactionIsInvisible(s: Store, ops: seq<Op>)
    requires Inv(s) && ValidOps(ops)
    ensures
      var (s', outs) := Run(s, ops);
      var (t', outs') := Run(Compact(s), ops);
      && outs' == outs
      && t' == s'.(ledger := t'.ledger, gcOffset := t'.gcOffset)
      && View(t') == View(s') && Pendings(t') == Pendings(s')
  {
    CompactAgain(s);
    SameCompactionSameRun(s, Compact(s), ops);
    RunRefines(s, ops);
    RunRefines(Compact(s), ops);
    hide Run, Inv, View, Pendings, Compact;
    CompactTells(Run(s, ops).0, Run(Compact(s), ops).0);
  }

  /** Compactions may be inserted or left out anywhere in a run. */
  function WithoutGc(ops: seq<Op>): seq<Op>
    decreases |ops|
  {
    if ops == [] then [] else if ops[0].Gc? then WithoutGc(ops[1..]) else [ops[0]] + WithoutGc(ops[1..])
  }

  lemma {:induction false} GcNeverMatters(s: Store, ops: seq<Op>)
    requires Inv(s) && ValidOps(ops)
    ensures Compact(Run(s, WithoutGc(ops)).0) == Compact(Run(s, ops).0)
    ensures Seen(Run(s, WithoutGc(ops)).1) == Seen(Run(s, ops).1)
    decreases |ops|
  {
    if ops == [] {
    } else {
      hide Step, IdealStep, View, Inv, Run, Compact, ValidOp;
      var op := ops[0];
      var s1 := Step(s, op).0;
      StepRefines(s, op);
      RunUnfolds(s, ops);
      OutcomeSplits(Step(s, op).1, Run(s1, ops[1..]).1);
      GcNeverMatters(s1, ops[1..]);
      if op.Gc? {
        GcStep(s);
        CompactAgain(s);
        ValidWithoutGc(ops[1..]);
        SameCompactionSameRun(s, s1, WithoutGc(ops[1..]));
      } else {
        var rest := WithoutGc(ops);
        assert rest[0] == op && rest[1..] == WithoutGc(ops[1..]);
        RunUnfolds(s, rest);
        OutcomeSplits(Step(s, op).1, Run(s1, rest[1..]).1);
      }
    }
  }

  lemma GcStep(s: Store)
    ensures Step(s, Gc) == (Compact(s), Silent)
  {
    hide Compact;
  }

  lemma {:induction false} ValidWithoutGc(ops: seq<Op>)
    requires ValidOps(ops)
    ensures ValidOps(WithoutGc(ops))
    decreases |ops|
  {
    if ops == [] {
    } else {
      ValidWithoutGc(ops[1..]);
    }
  }
}
