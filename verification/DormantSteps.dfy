/** The loops of the dormant store, one step at a time: replay with every check, drains and credits. */
module DormantSteps {
  import opened Wrappers
  import opened MoleMath
  import opened Clearing
  import opened Sums
  import opened Dormant
  import opened DormantInvariant
  import DormantRefinement

  // ---------------------------------------------------------------- replay with every check

  /** The loop body of `apply_pending_to_bucket`, with all its overflow checks. */
  function ApplyEntryChecked(d: Direction, b: Bucket, e: DistEntry): ClearingResult<Bucket> {
    if e.outstanding == 0 || !Activated(d, b.anchor, e.price) || b.notional == 0 || b.anchor == 0
    then Ok(b.(applied := e.index + 1))
    else
      var intrinsic :- IntrinsicClaim(d, b, e.price);
      var outstanding := SaturatingSub(intrinsic, b.accrued);
      if outstanding == 0 then Ok(b.(applied := e.index + 1))
      else
        var share :- FromMath(MulDivFloor(e.alloc, outstanding, e.outstanding));
        var capped := if share <= outstanding then share else outstanding;
        var accrued :- FromMath(CheckedAdd(b.accrued, capped));
        Ok(b.(accrued := accrued, applied := e.index + 1))
  }

  function ReplayChecked(d: Direction, b: Bucket, entries: seq<DistEntry>): ClearingResult<Bucket>
    decreases |entries|
  {
    if entries == [] then Ok(b)
    else
      var b' :- ApplyEntryChecked(d, b, entries[0]);
      ReplayChecked(d, b', entries[1..])
  }

  lemma CheckedEntryIs(d: Direction, b: Bucket, e: DistEntry)
    requires Intrinsic(d, b, e.price) < U128 && Outstanding(d, b, e.price) <= e.outstanding
    requires e.alloc < U128 && b.accrued < U128
    ensures ApplyEntryChecked(d, b, e) == Ok(ApplyEntry(d, b, e))
  {
    var o := Outstanding(d, b, e.price);
    if o > 0 {
      PartBound(e.alloc, o, e.outstanding);
    }
    hide FloorDiv;
  }

  lemma {:induction false} CheckedIdleReplay(d: Direction, b: Bucket, entries: seq<DistEntry>)
    requires forall i :: 0 <= i < |entries| ==> !Activated(d, b.anchor, entries[i].price)
    ensures ReplayChecked(d, b, entries) == Ok(Replay(d, b, entries))
    decreases |entries|
  {
    if entries == [] {
    } else {
      assert ApplyEntryChecked(d, b, entries[0]) == Ok(ApplyEntry(d, b, entries[0]));
      CheckedIdleReplay(d, ApplyEntry(d, b, entries[0]), entries[1..]);
    }
  }

  /** On a well-formed store none of the checks of the replay loop ever fires. */
  lemma CheckedReplayIs(s: Store, b: Bucket)
    requires LedgerOk(s) && BucketOk(s, b)
    ensures ReplayChecked(s.direction, b, Window(s, b)) == Ok(CaughtUp(s, b))
  {
    var w := Window(s, b);
    if w != [] {
      assert w[0] == s.ledger[b.applied - s.gcOffset];
      CheckedEntryIs(s.direction, b, w[0]);
      var b' := ApplyEntry(s.direction, b, w[0]);
      forall i | 0 <= i < |w[1..]|
        ensures !Activated(s.direction, b'.anchor, w[1..][i].price)
      {
        assert w[1..][i] == s.ledger[b.applied - s.gcOffset + 1 + i];
      }
      CheckedIdleReplay(s.direction, b', w[1..]);
    }
  }

  /** `apply_pending_to_bucket`: the new store and the number of events applied. */
  function ApplyBucketChecked(s: Store, tick: int): ClearingResult<(Store, nat)> {
    if tick !in s.buckets then Ok((s, 0))
    else
      var b := s.buckets[tick];
      if b.applied >= s.nextIndex then Ok((s, 0))
      else if b.applied < s.gcOffset then Err(Invariant(GcWindow))
      else
        var c :- ReplayChecked(s.direction, b, Window(s, b));
        var delta := SaturatingSub(c.accrued, b.accrued);
        if s.accruedTotal + delta >= U128 && delta > 0 then Err(MathOverflow)
        else
          Ok((s.(buckets := s.buckets[tick := c],
                 accruedTotal := s.accruedTotal + delta,
                 pendingTotal := SaturatingSub(s.pendingTotal, delta)),
              |Window(s, b)|))
  }

  /** The store after one bucket has been brought up to date. */
  function AppliedOne(s: Store, tick: int): Store
    requires tick in s.buckets && HeadShare(s, s.buckets[tick]) <= s.pendingTotal
  {
    var h := HeadShare(s, s.buckets[tick]);
    s.(buckets := s.buckets[tick := Settled(s, s.buckets[tick])],
       accruedTotal := s.accruedTotal + h,
       pendingTotal := s.pendingTotal - h)
  }

  /** `ApplyBucket` on its own bucket. */
  lemma ApplyBucketIs(s: Store, tick: int)
    requires Inv(s) && tick in s.buckets
    ensures HeadShare(s, s.buckets[tick]) <= s.pendingTotal
    ensures s.accruedTotal + HeadShare(s, s.buckets[tick]) >= U128 ==> ApplyBucket(s, tick) == Err(MathOverflow)
    ensures s.accruedTotal + HeadShare(s, s.buckets[tick]) < U128 ==>
      ApplyBucket(s, tick).Ok? && ApplyBucket(s, tick).value == AppliedOne(s, tick)
  {
    hide ApplyKeys, Delta, SettledBuckets, Settled, HeadShare, Inv, Sum;
    ApplyKeysIs(s, {tick});
    DeltaOfOne(s, tick);
    SettledOne(s, tick);
  }

  lemma DeltaOfOne(s: Store, tick: int)
    requires tick in s.buckets
    ensures Sum(Delta(s, {tick})) == HeadShare(s, s.buckets[tick])
  {
    var delta := Delta(s, {tick});
    SumSplit(delta, tick);
    SumZero(delta - {tick});
  }

  lemma SettledOne(s: Store, tick: int)
    requires tick in s.buckets
    ensures SettledBuckets(s, {tick}) == s.buckets[tick := Settled(s, s.buckets[tick])]
  {
    hide Settled;
    forall k | k in s.buckets
      ensures SettledBuckets(s, {tick})[k] == s.buckets[tick := Settled(s, s.buckets[tick])][k]
    {
    }
  }

  /** Replaying one bucket with all checks is `ApplyBucket`. */
  lemma CheckedApplyIs(s: Store, tick: int)
    requires Inv(s)
    ensures ApplyBucket(s, tick).Err? ==> ApplyBucketChecked(s, tick) == Err(ApplyBucket(s, tick).error)
    ensures ApplyBucket(s, tick).Ok? ==>
      && ApplyBucketChecked(s, tick).Ok?
      && ApplyBucketChecked(s, tick).value.0 == ApplyBucket(s, tick).value
      && ApplyBucketChecked(s, tick).value.1 == (if tick in s.buckets then s.nextIndex - s.buckets[tick].applied else 0)
  {
    hide ReplayChecked, Inv, ApplyBucket, HeadShare, Settled, Window, LedgerOk, BucketOk;
    DormantRefinement.TotalsBound(s);
    if tick in s.buckets {
      BucketParts(s, tick);
      CheckedBucketIs(s, s.buckets[tick]);
      ApplyBucketIs(s, tick);
      DrainedSettles(s, tick);
    } else {
      NoSuchBucket(s, tick);
    }
  }

  lemma CheckedBucketIs(s: Store, b: Bucket)
    requires LedgerOk(s) && BucketOk(s, b)
    ensures ReplayChecked(s.direction, b, Window(s, b)) == Ok(Settled(s, b))
    ensures Settled(s, b).accrued == b.accrued + HeadShare(s, b)
    ensures s.gcOffset <= b.applied <= s.nextIndex && |Window(s, b)| == s.nextIndex - b.applied
  {
    hide LedgerOk, LaterIdle, HeadFits, ReplayChecked, CaughtUp, HeadShare, Pending;
    CheckedReplayIs(s, b);
    CaughtUpIs(s, b);
    WindowLength(s, b);
  }

  lemma WindowLength(s: Store, b: Bucket)
    requires LedgerOk(s) && s.gcOffset <= b.applied <= s.nextIndex
    ensures |Window(s, b)| == s.nextIndex - b.applied
  {
  }

  lemma DrainedSettles(s: Store, tick: int)
    requires Inv(s) && tick in s.buckets
    ensures s.accruedTotal < U128
    ensures Drained(s, s.buckets[tick]) ==>
      HeadShare(s, s.buckets[tick]) == 0 && s.buckets[tick := Settled(s, s.buckets[tick])] == s.buckets
  {
    if Drained(s, s.buckets[tick]) {
      assert Settled(s, s.buckets[tick]) == s.buckets[tick];
    }
  }

  lemma NoSuchBucket(s: Store, tick: int)
    requires tick !in s.buckets && s.accruedTotal < U128
    ensures ApplyBucket(s, tick) == Ok(s)
  {
    assert PendingsOf(s, {tick}) == map[];
    SumZero(PendingsOf(s, {tick}));
    hide CaughtUp, Sum;
    forall k | k in s.buckets
      ensures CaughtUpAll(s, {tick})[k] == s.buckets[k]
    {
    }
    assert CaughtUpAll(s, {tick}) == s.buckets;
  }

  // ---------------------------------------------------------------- one key at a time

  lemma DeltaStep(s: Store, done: set<int>, k: int)
    requires k in s.buckets && k !in done
    ensures Sum(Delta(s, done + {k})) == Sum(Delta(s, done)) + HeadShare(s, s.buckets[k])
  {
    hide HeadShare, Sum;
    forall j | j in s.buckets
      ensures Delta(s, done + {k})[j] == Delta(s, done)[k := HeadShare(s, s.buckets[k])][j]
    {
    }
    assert Delta(s, done + {k}) == Delta(s, done)[k := HeadShare(s, s.buckets[k])];
    SumUpdate(Delta(s, done), k, HeadShare(s, s.buckets[k]));
  }

  lemma SettledStep(s: Store, done: set<int>, k: int)
    requires k in s.buckets && k !in done
    ensures SettledBuckets(s, done + {k}) == SettledBuckets(s, done)[k := Settled(s, s.buckets[k])]
    ensures SettledBuckets(s, done)[k] == s.buckets[k]
  {
    hide Settled;
    forall j | j in s.buckets
      ensures SettledBuckets(s, done + {k})[j] == SettledBuckets(s, done)[k := Settled(s, s.buckets[k])][j]
    {
    }
  }

  /** The store `ApplyKeys` leaves when nothing overflows. */
  ghost function AppliedKeys(s: Store, keys: set<int>): Store
    requires Sum(Delta(s, keys)) <= s.pendingTotal
  {
    s.(buckets := SettledBuckets(s, keys),
       accruedTotal := s.accruedTotal + Sum(Delta(s, keys)),
       pendingTotal := s.pendingTotal - Sum(Delta(s, keys)))
  }

  lemma AppliedKeysIs(s: Store, keys: set<int>)
    requires Inv(s)
    ensures Sum(Delta(s, keys)) <= s.pendingTotal
    ensures ApplyKeys(s, keys).Ok? <==> s.accruedTotal + Sum(Delta(s, keys)) < U128
    ensures ApplyKeys(s, keys).Ok? ==> ApplyKeys(s, keys).value == AppliedKeys(s, keys)
  {
    ApplyKeysIs(s, keys);
    hide ApplyKeys, Delta, SettledBuckets, Inv, Sum;
  }

  lemma AppliedKeysStep(s: Store, done: set<int>, k: int)
    requires k in s.buckets && k !in done
    requires Sum(Delta(s, done + {k})) <= s.pendingTotal
    ensures
      Sum(Delta(s, done)) <= s.pendingTotal && k in AppliedKeys(s, done).buckets
    ensures
      var s' := AppliedKeys(s, done);
      && HeadShare(s', s'.buckets[k]) == HeadShare(s, s.buckets[k]) <= s'.pendingTotal
      && AppliedOne(s', k) == AppliedKeys(s, done + {k})
  {
    DeltaStep(s, done, k);
    SettledStep(s, done, k);
    var s' := AppliedKeys(s, done);
    LogDecides(s, s', s.buckets[k]);
    assert Settled(s', s.buckets[k]) == Settled(s, s.buckets[k]);
    hide Delta, SettledBuckets, Settled, HeadShare, Sum;
  }

  /** Applying `k` after `done` is applying both. */
  lemma ApplyKeysStep(s: Store, done: set<int>, k: int)
    requires Inv(s) && ApplyKeys(s, done).Ok? && k in s.buckets && k !in done
    ensures
      var s' := ApplyKeys(s, done).value;
      && (ApplyBucket(s', k).Ok? ==>
            ApplyKeys(s, done + {k}).Ok? && ApplyKeys(s, done + {k}).value == ApplyBucket(s', k).value)
      && (ApplyBucket(s', k).Err? ==> ApplyKeys(s, done + {k}).Err?)
      && (ApplyBucket(s', k).Err? ==> ApplyBucket(s', k).error == MathOverflow)
  {
    ApplyKeysRefines(s, done);
    AppliedKeysIs(s, done);
    AppliedKeysIs(s, done + {k});
    AppliedKeysStep(s, done, k);
    DeltaStep(s, done, k);
    ApplyBucketIs(AppliedKeys(s, done), k);
    hide ApplyKeys, ApplyBucket, Delta, SettledBuckets, HeadShare, Inv, Sum, View, AppliedOne;
  }

  /** If a part overflows, so does the whole. */
  lemma ApplyKeysOverflow(s: Store, part: set<int>, all: set<int>)
    requires Inv(s) && part <= all && ApplyKeys(s, part).Err?
    ensures ApplyKeys(s, all) == Err(MathOverflow)
  {
    ApplyKeysIs(s, part);
    ApplyKeysIs(s, all);
    hide ApplyKeys, HeadShare, Inv, Sum;
    SumMonotone(Delta(s, part), Delta(s, all));
  }

  lemma OneMoreDone(keys: set<int>, todo: set<int>, k: int)
    requires todo <= keys && k in todo
    ensures keys - (todo - {k}) == keys - todo + {k}
    ensures k !in keys - todo
  {
  }

  /** One round of the drain loop: `cur` is the store once all keys but `todo` are applied. */
  lemma EachStep(s: Store, keys: set<int>, todo: set<int>, k: int, cur: Store)
    requires Inv(s) && todo <= keys <= s.buckets.Keys && k in todo
    requires ApplyKeys(s, keys - todo).Ok? && ApplyKeys(s, keys - todo).value == cur
    ensures LedgerOk(cur)
    ensures ApplyBucketChecked(cur, k).Ok? ==>
      && ApplyKeys(s, keys - (todo - {k})).Ok?
      && ApplyKeys(s, keys - (todo - {k})).value == ApplyBucketChecked(cur, k).value.0
    ensures ApplyBucketChecked(cur, k).Err? ==> ApplyKeys(s, keys) == Err(ApplyBucketChecked(cur, k).error)
  {
    var done := keys - todo;
    OneMoreDone(keys, todo, k);
    ApplyKeysStep(s, done, k);
    ApplyKeysRefines(s, done);
    CheckedApplyIs(cur, k);
    hide ApplyKeys, ApplyBucket, ApplyBucketChecked, View, BucketsOk, Covered, TotalsOk;
    if ApplyBucketChecked(cur, k).Err? {
      ApplyKeysOverflow(s, done + {k}, keys);
    }
  }

  lemma ApplyNothing(s: Store)
    requires s.accruedTotal < U128
    ensures ApplyKeys(s, {}).Ok? && ApplyKeys(s, {}).value == s
  {
    assert PendingsOf(s, {}) == map[];
    SumZero(PendingsOf(s, {}));
    hide CaughtUp, Sum;
    forall k | k in s.buckets
      ensures CaughtUpAll(s, {})[k] == s.buckets[k]
    {
    }
    assert CaughtUpAll(s, {}) == s.buckets;
  }

  // ---------------------------------------------------------------- partial sums of a loop

  /** `m` on `done`, zero elsewhere. */
  function Part(m: map<int, nat>, done: set<int>): map<int, nat> {
    map k | k in m :: if k in done then m[k] else 0
  }

  lemma PartStep(m: map<int, nat>, done: set<int>, k: int)
    requires k in m && k !in done
    ensures Sum(Part(m, done + {k})) == Sum(Part(m, done)) + m[k] <= Sum(m)
  {
    hide Sum;
    forall j | j in m
      ensures Part(m, done + {k})[j] == Part(m, done)[k := m[k]][j] <= m[j]
    {
    }
    assert Part(m, done + {k}) == Part(m, done)[k := m[k]];
    SumUpdate(Part(m, done), k, m[k]);
    SumMonotone(Part(m, done + {k}), m);
  }

  lemma PartNone(m: map<int, nat>)
    ensures Sum(Part(m, {})) == 0
  {
    SumZero(Part(m, {}));
  }

  lemma PartAll(m: map<int, nat>, done: set<int>)
    requires forall k :: k in m && k !in done ==> m[k] == 0
    ensures Sum(Part(m, done)) == Sum(m)
  {
    hide Sum;
    forall k | k in m
      ensures Part(m, done)[k] == m[k]
    {
    }
    assert Part(m, done) == m;
  }

  /** Buckets outside `ActivatedKeys` claim nothing. */
  lemma InactiveClaimNothing(s: Store, price: nat)
    ensures forall k :: k in s.buckets && k !in ActivatedKeys(s, price) ==>
      Intrinsic(s.direction, s.buckets[k], price) == 0 && Outstanding(s.direction, s.buckets[k], price) == 0
  {
  }

  // ---------------------------------------------------------------- loops over activated buckets

  lemma KeepsKeysActive(s: Store, keys: set<int>, price: nat)
    requires Inv(s) && keys == ActivatedKeys(s, price)
    ensures ApplyKeys(s, keys).Ok? ==>
      var s' := ApplyKeys(s, keys).value;
      s'.direction == s.direction && ActiveKeys(s.direction, s'.buckets, price) == keys
  {
    hide Inv, View, ApplyKeys, HeadShare, Activated;
    ApplyKeysRefines(s, keys);
    if ApplyKeys(s, keys).Ok? {
      var bs := ApplyKeys(s, keys).value.buckets;
      forall k | k in s.buckets
        ensures bs[k].anchor == s.buckets[k].anchor
      {
      }
    }
  }

  lemma CreditNone(bs: map<int, Bucket>, sh: map<int, nat>, applied: nat)
    requires sh.Keys == bs.Keys
    ensures CreditKeys(bs, {}, sh, applied) == bs
  {
    forall k | k in bs
      ensures CreditKeys(bs, {}, sh, applied)[k] == bs[k]
    {
    }
  }

  lemma CreditStep(bs: map<int, Bucket>, sh: map<int, nat>, applied: nat, done: set<int>, k: int)
    requires sh.Keys == bs.Keys && k in bs && k !in done
    ensures CreditKeys(bs, done, sh, applied).Keys == bs.Keys
    ensures CreditKeys(bs, done, sh, applied)[k] == bs[k]
    ensures CreditKeys(bs, done + {k}, sh, applied)
         == CreditKeys(bs, done, sh, applied)[k := bs[k].(accrued := bs[k].accrued + sh[k], applied := applied)]
  {
    var b := bs[k].(accrued := bs[k].accrued + sh[k], applied := applied);
    forall j | j in bs
      ensures CreditKeys(bs, done + {k}, sh, applied)[j] == CreditKeys(bs, done, sh, applied)[k := b][j]
    {
    }
  }

  /** The buckets in `done` have been credited, `sum` in all. */
  ghost predicate CreditedSoFar(
    bs: map<int, Bucket>, cur: map<int, Bucket>, done: set<int>, sh: map<int, nat>, applied: nat, sum: nat)
  {
    && sh.Keys == bs.Keys
    && cur == CreditKeys(bs, done, sh, applied)
    && sum == Sum(Part(sh, done))
  }

  lemma CreditStart(
    d: Direction, bs: map<int, Bucket>, keys: set<int>, price: nat, alloc: nat, total: nat, applied: nat)
    requires keys == ActiveKeys(d, bs, price)
    ensures keys <= bs.Keys
    ensures CreditedSoFar(bs, bs, {}, Shares(d, bs, price, alloc, total), applied, 0)
  {
    var sh := Shares(d, bs, price, alloc, total);
    CreditNone(bs, sh, applied);
    PartNone(sh);
  }

  lemma CreditEnd(
    d: Direction, bs: map<int, Bucket>, cur: map<int, Bucket>, keys: set<int>, price: nat, alloc: nat, total: nat,
    applied: nat, sum: nat)
    requires keys == ActiveKeys(d, bs, price)
    requires CreditedSoFar(bs, cur, keys, Shares(d, bs, price, alloc, total), applied, sum)
    ensures cur == CreditKeys(bs, keys, Shares(d, bs, price, alloc, total), applied)
    ensures sum == Sum(Shares(d, bs, price, alloc, total))
  {
    var sh := Shares(d, bs, price, alloc, total);
    forall k | k in sh && k !in keys
      ensures sh[k] == 0
    {
      InactiveClaimsNothing(d, bs[k], price);
    }
    PartAll(sh, keys);
  }

  lemma InactiveClaimsNothing(d: Direction, b: Bucket, price: nat)
    requires !Activated(d, b.anchor, price)
    ensures Outstanding(d, b, price) == 0
  {
  }

  /** One round of the credit loop. */
  lemma CreditRound(
    d: Direction, bs: map<int, Bucket>, cur: map<int, Bucket>, keys: set<int>, todo: set<int>, k: int,
    price: nat, alloc: nat, total: nat, applied: nat, sum: nat)
    requires todo <= keys <= bs.Keys && k in todo
    requires total == TotalOutstanding(d, bs, price) > 0 && alloc < U128
    requires CreditedSoFar(bs, cur, keys - todo, Shares(d, bs, price, alloc, total), applied, sum)
    ensures k in cur && Outstanding(d, cur[k], price) <= total
    ensures
      var share := ShareOf(alloc, Outstanding(d, cur[k], price), total);
      var cur' := cur[k := cur[k].(accrued := cur[k].accrued + share, applied := applied)];
      CreditedSoFar(bs, cur', keys - (todo - {k}), Shares(d, bs, price, alloc, total), applied, sum + share)
  {
    hide Sum, Part, Outstanding, CreditKeys, Share, TotalOutstanding;
    var sh := Shares(d, bs, price, alloc, total);
    OneMoreDone(keys, todo, k);
    PartStep(sh, keys - todo, k);
    CreditStep(bs, sh, applied, keys - todo, k);
    ClaimWithinTotal(d, bs, price, k);
  }

  lemma ClaimWithinTotal(d: Direction, bs: map<int, Bucket>, price: nat, k: int)
    requires k in bs
    ensures Outstanding(d, bs[k], price) <= TotalOutstanding(d, bs, price)
  {
    SumAtLeast(Outstandings(d, bs, price), k);
  }

  /** The proportional slice as the source computes it; the checked product cannot overflow here. */
  function ShareOf(alloc: nat, outstanding: nat, total: nat): (share: nat)
    requires 0 < total && outstanding <= total && alloc < U128
    ensures share == Share(alloc, outstanding, total)
  {
    if outstanding == 0 then 0
    else
      PartBound(alloc, outstanding, total);
      Min(MulDivFloor(alloc, outstanding, total).value, outstanding)
  }

  /** What `ApplyPendingToBucket` does on a well-formed store. */
  lemma ReadyToApply(s: Store, tick: int)
    requires Inv(s)
    ensures LedgerOk(s)
    ensures ApplyBucket(s, tick).Err? ==> ApplyBucketChecked(s, tick) == Err(ApplyBucket(s, tick).error)
    ensures ApplyBucket(s, tick).Ok? ==>
      && ApplyBucketChecked(s, tick).Ok?
      && ApplyBucketChecked(s, tick).value.0 == ApplyBucket(s, tick).value
      && Inv(ApplyBucket(s, tick).value)
      && ApplyBucket(s, tick).value.buckets.Keys == s.buckets.Keys
  {
    CheckedApplyIs(s, tick);
    DormantRefinement.AppliedBucket(s, tick);
    hide ApplyBucket, ApplyBucketChecked, View;
  }

  lemma CompactUnfolds(s: Store)
    ensures
      var w := Watermark(s.buckets, s.nextIndex);
      var drop := if w <= s.gcOffset then 0 else Min(w - s.gcOffset, |s.ledger|);
      drop <= |s.ledger| && Compact(s) == s.(ledger := s.ledger[drop..], gcOffset := s.gcOffset + drop)
  {
    hide Watermark;
  }

  lemma CompactKeeps(s: Store)
    requires Inv(s)
    ensures Inv(Compact(s))
  {
    hide Compact, Inv, View, Pendings;
    CompactRefines(s);
  }

  /** The least index is determined by its defining property. */
  lemma WatermarkUnique(bs: map<int, Bucket>, limit: nat, w: nat)
    requires w <= limit
    requires forall k :: k in bs ==> w <= bs[k].applied
    requires w == limit || exists k :: k in bs && bs[k].applied == w
    ensures w == Watermark(bs, limit)
  {
  }

  /** The eager credit loop: every activated bucket gets its share and moves past the event. */
  method CreditEach(
    d: Direction, bs: map<int, Bucket>, keys: set<int>, price: nat, alloc: nat, total: nat, applied: nat)
    returns (updated: map<int, Bucket>, sum: nat)
    requires keys == ActiveKeys(d, bs, price) && alloc < U128
    requires total == TotalOutstanding(d, bs, price) > 0
    ensures CreditedSoFar(bs, updated, keys, Shares(d, bs, price, alloc, total), applied, sum)
  {
    hide Sum, Part, Outstanding, CreditKeys, Share, Shares, TotalOutstanding, ActiveKeys, CreditedSoFar;
    ghost var sh := Shares(d, bs, price, alloc, total);
    CreditStart(d, bs, keys, price, alloc, total, applied);
    updated, sum := bs, 0;
    var todo := keys;
    assert keys - todo == {};
    while todo != {}
      invariant todo <= keys
      invariant CreditedSoFar(bs, updated, keys - todo, sh, applied, sum)
      decreases todo
    {
      var k := Choose(todo);
      CreditRound(d, bs, updated, keys, todo, k, price, alloc, total, applied, sum);
      var share := ShareOf(alloc, Outstanding(d, updated[k], price), total);
      updated := updated[k := updated[k].(accrued := updated[k].accrued + share, applied := applied)];
      sum := sum + share;
      todo := todo - {k};
    }
    assert keys - todo == keys;
  }
}
