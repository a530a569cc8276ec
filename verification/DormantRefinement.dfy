/**
  Every operation of the dormant store acts on `View` exactly like the ledger-free store, in
  either mode. Eager and lazy stores therefore agree under any interleaving of replays and
  compactions.
*/
module DormantRefinement {
  import opened Wrappers
  import opened MoleMath
  import opened Clearing
  import opened Sums
  import opened Dormant
  import opened DormantInvariant

  // ---------------------------------------------------------------- distribution

  /** All buckets activated at `price` have applied the whole ledger. */
  ghost predicate ActiveDrained(s: Store, price: nat) {
    forall k :: k in s.buckets && Activated(s.direction, s.buckets[k].anchor, price)
      ==> Drained(s, s.buckets[k])
  }

  lemma ViewAt(s: Store, k: int)
    requires Inv(s) && k in s.buckets
    ensures k in View(s)
    ensures View(s)[k] == s.buckets[k].(accrued := s.buckets[k].accrued + HeadShare(s, s.buckets[k]), applied := 0)
  {
    hide Inv, CaughtUp, HeadShare;
    CaughtUpAt(s, k);
  }

  /** Activated buckets are settled and the others claim nothing, so claims can be read either way. */
  lemma ClaimAgrees(s: Store, price: nat, k: int)
    requires Inv(s) && ActiveDrained(s, price) && k in s.buckets
    ensures k in View(s)
    ensures Intrinsic(s.direction, View(s)[k], price) == Intrinsic(s.direction, s.buckets[k], price)
    ensures Outstanding(s.direction, View(s)[k], price) == Outstanding(s.direction, s.buckets[k], price)
  {
    hide View, Inv, BucketOk, HeadShare, Intrinsic, Outstanding;
    ViewAt(s, k);
    if Activated(s.direction, s.buckets[k].anchor, price) {
      DrainedOwesNothing(s, k);
    }
    ClaimUnmoved(s.direction, s.buckets[k], HeadShare(s, s.buckets[k]), price);
  }

  /** Crediting a bucket changes its claims only where it is activated. */
  lemma ClaimUnmoved(d: Direction, b: Bucket, credit: nat, price: nat)
    requires Activated(d, b.anchor, price) ==> credit == 0
    ensures
      var b' := b.(accrued := b.accrued + credit, applied := 0);
      Intrinsic(d, b', price) == Intrinsic(d, b, price) && Outstanding(d, b', price) == Outstanding(d, b, price)
  {
    hide FloorDiv;
  }

  lemma DrainedOwesNothing(s: Store, k: int)
    requires Inv(s) && k in s.buckets && Drained(s, s.buckets[k])
    ensures HeadShare(s, s.buckets[k]) == 0
    ensures BucketOk(s, s.buckets[k])
  {
    hide Inv, LaterIdle, HeadFits, EntryShare;
    BucketParts(s, k);
  }

  lemma ClaimsAgree(s: Store, price: nat)
    requires Inv(s) && ActiveDrained(s, price)
    ensures Outstandings(s.direction, View(s), price) == Outstandings(s.direction, s.buckets, price)
    ensures ClaimsFit(s.direction, View(s), price) <==> ClaimsFit(s.direction, s.buckets, price)
  {
    forall k | k in s.buckets
      ensures Intrinsic(s.direction, View(s)[k], price) == Intrinsic(s.direction, s.buckets[k], price)
      ensures Outstanding(s.direction, View(s)[k], price) == Outstanding(s.direction, s.buckets[k], price)
    {
      ClaimAgrees(s, price, k);
    }
    OutstandingsEqual(s.direction, View(s), s.buckets, price);
  }

  lemma OutstandingsEqual(d: Direction, bs: map<int, Bucket>, cs: map<int, Bucket>, price: nat)
    requires bs.Keys == cs.Keys
    requires forall k :: k in bs ==> Intrinsic(d, bs[k], price) == Intrinsic(d, cs[k], price)
    requires forall k :: k in bs ==> Outstanding(d, bs[k], price) == Outstanding(d, cs[k], price)
    ensures Outstandings(d, bs, price) == Outstandings(d, cs, price)
    ensures ClaimsFit(d, bs, price) <==> ClaimsFit(d, cs, price)
  {
    hide Intrinsic, Outstanding, Share, Sum;
    forall k | k in bs
      ensures Outstandings(d, bs, price)[k] == Outstandings(d, cs, price)[k]
    {
    }
    assert Outstandings(d, bs, price) == Outstandings(d, cs, price);
  }

  /** `s'` has the log of `s` with one more event. */
  ghost predicate Appended(s: Store, s': Store, e: DistEntry) {
    && s'.direction == s.direction && s'.gcOffset == s.gcOffset && s'.nextIndex == s.nextIndex + 1 < U64
    && s'.ledger == s.ledger + [e]
    && e.index == s.nextIndex && e.outstanding > 0 && e.alloc < U128
  }

  /** A drained bucket owes its head share to the new event alone. */
  lemma AppendToDrained(s: Store, s': Store, b: Bucket, e: DistEntry)
    requires LedgerOk(s) && BucketOk(s, b) && Drained(s, b) && Appended(s, s', e)
    requires Intrinsic(s.direction, b, e.price) < U128
    requires Outstanding(s.direction, b, e.price) <= e.outstanding
    ensures BucketOk(s', b) && HeadShare(s, b) == 0
    ensures HeadShare(s', b) == Share(e.alloc, Outstanding(s.direction, b, e.price), e.outstanding)
  {
    hide Intrinsic, Outstanding, Share;
    assert s'.ledger[b.applied - s'.gcOffset] == e;
  }

  /** An event that does not activate a bucket changes nothing it is owed. */
  lemma AppendToIdle(s: Store, s': Store, b: Bucket, e: DistEntry)
    requires LedgerOk(s) && BucketOk(s, b) && Appended(s, s', e)
    requires !Activated(s.direction, b.anchor, e.price)
    ensures BucketOk(s', b) && HeadShare(s', b) == HeadShare(s, b)
    ensures Outstanding(s.direction, b, e.price) == 0
  {
    assert Intrinsic(s.direction, b, e.price) == 0;
    hide Activated, FloorDiv;
    if Drained(s, b) {
      assert s'.ledger[b.applied - s'.gcOffset] == e;
    } else {
      assert s'.ledger[b.applied - s'.gcOffset] == s.ledger[b.applied - s.gcOffset];
    }
    forall i | 0 <= i < |s'.ledger| && s'.gcOffset + i > b.applied
      ensures !Activated(s'.direction, b.anchor, s'.ledger[i].price)
    {
      if i < |s.ledger| {
        assert s'.ledger[i] == s.ledger[i];
      }
    }
  }

  ghost predicate Payable(s: Store, price: nat, alloc: nat) {
    && ActiveDrained(s, price) && ClaimsFit(s.direction, s.buckets, price)
    && alloc < U128 && TotalOutstanding(s.direction, s.buckets, price) > 0 && s.nextIndex + 1 < U64
  }

  function EntryShares(s: Store, e: DistEntry): map<int, nat> {
    Shares(s.direction, s.buckets, e.price, e.alloc, e.outstanding)
  }

  /** The event a distribution appends. */
  ghost function NewEntry(s: Store, price: nat, alloc: nat): DistEntry {
    var total := TotalOutstanding(s.direction, s.buckets, price);
    DistEntry(s.nextIndex, price, total, alloc, Sum(Shares(s.direction, s.buckets, price, alloc, total)))
  }

  /** A bucket after the new event: credited at once if eager and activated, else untouched. */
  function AfterEvent(s: Store, mode: Mode, b: Bucket, e: DistEntry): Bucket {
    if mode.Eager? && Activated(s.direction, b.anchor, e.price)
    then b.(accrued := b.accrued + Share(e.alloc, Outstanding(s.direction, b, e.price), e.outstanding),
            applied := s.nextIndex + 1)
    else b
  }

  lemma LoggedIs(s: Store, mode: Mode, price: nat, alloc: nat)
    ensures
      var s' := Logged(s, mode, price, alloc);
      var e := NewEntry(s, price, alloc);
      && (Payable(s, price, alloc) ==> Appended(s, s', e))
      && s'.accruedTotal == s.accruedTotal + (if mode.Eager? then e.allotted else 0)
      && s'.pendingTotal == s.pendingTotal + (if mode.Lazy? then e.allotted else 0)
      && e.price == price && e.alloc == alloc && e.allotted == Sum(EntryShares(s, e))
      && s'.buckets == (map k | k in s.buckets :: AfterEvent(s, mode, s.buckets[k], e))
  {
    var s' := Logged(s, mode, price, alloc);
    var e := NewEntry(s, price, alloc);
    var sh := EntryShares(s, e);
    hide Activated, Share, Outstanding, Sum, TotalOutstanding;
    forall k | k in s.buckets
      ensures k in s'.buckets && s'.buckets[k] == AfterEvent(s, mode, s.buckets[k], e)
    {
      assert sh[k] == Share(e.alloc, Outstanding(s.direction, s.buckets[k], e.price), e.outstanding);
    }
  }

  /** The share of an event has gone to bucket `b`, now `b'`: into its credit or its head share. */
  ghost predicate PaidTo(s: Store, s': Store, mode: Mode, b: Bucket, b': Bucket, share: nat) {
    && b'.accrued == b.accrued + (if mode.Eager? then share else 0)
    && HeadShare(s', b') == HeadShare(s, b) + (if mode.Lazy? then share else 0)
    && b' == b.(accrued := b'.accrued, applied := b'.applied)
    && (b'.applied == b.applied || (HeadShare(s', b') == 0 && HeadShare(s, b) == 0 && b'.applied == s.nextIndex + 1))
    && (HeadShare(s', b') > HeadShare(s, b) ==> b'.applied == s.nextIndex && HeadShare(s, b) == 0)
  }

  /** The share of event `e` reaches a bucket at once (Eager) or as its head share (Lazy). */
  lemma EventReaches(s: Store, s': Store, mode: Mode, b: Bucket, e: DistEntry)
    requires LedgerOk(s) && BucketOk(s, b) && Appended(s, s', e)
    requires Activated(s.direction, b.anchor, e.price) ==> Drained(s, b)
    requires Intrinsic(s.direction, b, e.price) < U128
    requires Outstanding(s.direction, b, e.price) <= e.outstanding
    ensures
      var b' := AfterEvent(s, mode, b, e);
      var share := Share(e.alloc, Outstanding(s.direction, b, e.price), e.outstanding);
      BucketOk(s', b') && PaidTo(s, s', mode, b, b', share)
  {
    if Activated(s.direction, b.anchor, e.price) {
      AppendToDrained(s, s', b, e);
      var b' := AfterEvent(s, mode, b, e);
      if mode.Eager? {
        AppendedLedger(s, s', e);
        DrainedOk(s', b');
      }
    } else {
      AppendToIdle(s, s', b, e);
    }
  }

  lemma AppendedLedger(s: Store, s': Store, e: DistEntry)
    requires LedgerOk(s) && Appended(s, s', e)
    ensures LedgerOk(s')
  {
  }

  /** Where every share of event `e` has gone. */
  ghost predicate EventPaid(s: Store, s': Store, mode: Mode, e: DistEntry) {
    && s'.buckets.Keys == s.buckets.Keys
    && (forall k :: k in s.buckets ==> PaidTo(s, s', mode, s.buckets[k], s'.buckets[k], EntryShares(s, e)[k]))
  }

  lemma LoggedPays(s: Store, mode: Mode, price: nat, alloc: nat)
    requires Inv(s) && Payable(s, price, alloc)
    ensures
      var s' := Logged(s, mode, price, alloc);
      BucketsOk(s') && EventPaid(s, s', mode, NewEntry(s, price, alloc))
  {
    hide Inv, Logged, AfterEvent, Activated, Share, Appended, HeadShare, BucketOk, Intrinsic, Outstanding, ClaimsFit,
      PaidTo, TotalOutstanding;
    var s' := Logged(s, mode, price, alloc);
    var e := NewEntry(s, price, alloc);
    LoggedIs(s, mode, price, alloc);
    forall k | k in s.buckets
      ensures k in s'.buckets && BucketOk(s', s'.buckets[k])
      ensures PaidTo(s, s', mode, s.buckets[k], s'.buckets[k], EntryShares(s, e)[k])
    {
      FitsAt(s, price, k);
      BucketParts(s, k);
      EventReaches(s, s', mode, s.buckets[k], e);
      assert EntryShares(s, e)[k] == Share(e.alloc, Outstanding(s.direction, s.buckets[k], e.price), e.outstanding);
    }
  }

  lemma FitsAt(s: Store, price: nat, k: int)
    requires ClaimsFit(s.direction, s.buckets, price) && k in s.buckets
    ensures Intrinsic(s.direction, s.buckets[k], price) < U128
    ensures Outstanding(s.direction, s.buckets[k], price) <= TotalOutstanding(s.direction, s.buckets, price)
  {
    hide Intrinsic, Outstanding;
    SumAtLeast(Outstandings(s.direction, s.buckets, price), k);
  }

  lemma PaidTotals(s: Store, s': Store, mode: Mode, e: DistEntry)
    requires EventPaid(s, s', mode, e)
    ensures Sum(Accruals(s'.buckets)) == Sum(Accruals(s.buckets)) + (if mode.Eager? then Sum(EntryShares(s, e)) else 0)
    ensures Sum(HeadShares(s')) == Sum(HeadShares(s)) + (if mode.Lazy? then Sum(EntryShares(s, e)) else 0)
  {
    hide HeadShare, Sum, Share, Outstanding;
    var sh := EntryShares(s, e);
    forall k | k in s.buckets
      ensures Accruals(s'.buckets)[k] == Accruals(s.buckets)[k] + (if mode.Eager? then sh[k] else 0)
      ensures HeadShares(s')[k] == HeadShares(s)[k] + (if mode.Lazy? then sh[k] else 0)
    {
      assert PaidTo(s, s', mode, s.buckets[k], s'.buckets[k], sh[k]);
    }
    if mode.Eager? {
      SumAdd(Accruals(s.buckets), sh, Accruals(s'.buckets));
      assert HeadShares(s') == HeadShares(s);
    } else {
      SumAdd(HeadShares(s), sh, HeadShares(s'));
      assert Accruals(s'.buckets) == Accruals(s.buckets);
    }
  }

  lemma PaidOwed(s: Store, s': Store, mode: Mode, e: DistEntry, index: nat)
    requires EventPaid(s, s', mode, e) && index <= s.nextIndex && LedgerOk(s)
    ensures Sum(OwedBy(s', index)) <= if index < s.nextIndex then Sum(OwedBy(s, index)) else Sum(EntryShares(s, e))
  {
    hide Sum, Share, Outstanding;
    var sh := EntryShares(s, e);
    forall k | k in s.buckets
      ensures OwedBy(s', index)[k] <= if index < s.nextIndex then OwedBy(s, index)[k] else sh[k]
    {
      assert PaidTo(s, s', mode, s.buckets[k], s'.buckets[k], sh[k]);
      if s.buckets[k].applied == s.nextIndex {
        assert HeadShare(s, s.buckets[k]) == 0;
      }
      hide HeadShare;
    }
    if index < s.nextIndex {
      SumMonotone(OwedBy(s', index), OwedBy(s, index));
    } else {
      SumMonotone(OwedBy(s', index), sh);
    }
  }

  lemma PaidCovered(s: Store, s': Store, mode: Mode, e: DistEntry)
    requires EventPaid(s, s', mode, e) && LedgerOk(s) && Covered(s) && Appended(s, s', e)
    requires e.allotted == Sum(EntryShares(s, e))
    ensures Covered(s')
  {
    hide EventPaid, OwedBy, Sum, EntryShares;
    forall i | 0 <= i < |s'.ledger|
      ensures Sum(OwedBy(s', s'.gcOffset + i)) <= s'.ledger[i].allotted
    {
      PaidOwed(s, s', mode, e, s.gcOffset + i);
      if i < |s.ledger| {
        assert s'.ledger[i] == s.ledger[i];
      }
    }
  }

  /** Crediting every bucket its share. */
  function Credit(bs: map<int, Bucket>, sh: map<int, nat>): map<int, Bucket>
    requires sh.Keys == bs.Keys
  {
    map k | k in bs :: bs[k].(accrued := bs[k].accrued + sh[k])
  }

  lemma PaidView(s: Store, s': Store, mode: Mode, e: DistEntry)
    requires EventPaid(s, s', mode, e)
    ensures HeadView(s') == Credit(HeadView(s), EntryShares(s, e))
  {
    hide HeadShare, Share, Outstanding;
    var sh := EntryShares(s, e);
    forall k | k in s.buckets
      ensures HeadView(s')[k] == Credit(HeadView(s), sh)[k]
    {
      assert PaidTo(s, s', mode, s.buckets[k], s'.buckets[k], sh[k]);
    }
  }

  lemma LoggedInv(s: Store, mode: Mode, price: nat, alloc: nat)
    requires Inv(s) && Payable(s, price, alloc)
    requires Logged(s, mode, price, alloc).accruedTotal < U128
    requires Logged(s, mode, price, alloc).pendingTotal < U128
    ensures
      var s' := Logged(s, mode, price, alloc);
      Inv(s') && View(s') == Credit(View(s), EntryShares(s, NewEntry(s, price, alloc)))
  {
    var s' := Logged(s, mode, price, alloc);
    var e := NewEntry(s, price, alloc);
    LoggedIs(s, mode, price, alloc);
    LoggedPays(s, mode, price, alloc);
    hide Logged, NewEntry, Payable, ClaimsFit, TotalOutstanding;
    PaidInv(s, s', mode, e);
    PaidView(s, s', mode, e);
    ViewIs(s);
    ViewIs(s');
  }

  lemma PaidInv(s: Store, s': Store, mode: Mode, e: DistEntry)
    requires Inv(s) && Appended(s, s', e) && BucketsOk(s') && EventPaid(s, s', mode, e)
    requires e.allotted == Sum(EntryShares(s, e))
    requires s'.accruedTotal == s.accruedTotal + (if mode.Eager? then e.allotted else 0) < U128
    requires s'.pendingTotal == s.pendingTotal + (if mode.Lazy? then e.allotted else 0) < U128
    ensures Inv(s')
  {
    AppendedLedger(s, s', e);
    hide EntryShares, EventPaid, Sum, BucketsOk, Covered, Appended, LedgerOk;
    PaidTotals(s, s', mode, e);
    PaidCovered(s, s', mode, e);
  }

  /** What the ledger-free store makes of the same distribution. */
  lemma IdealIs(s: Store, price: nat, alloc: nat)
    requires Inv(s) && ActiveDrained(s, price) && alloc > 0
    ensures
      var ideal := IdealDistribute(s.direction, View(s), price, alloc);
      var total := TotalOutstanding(s.direction, s.buckets, price);
      var e := NewEntry(s, price, alloc);
      && (!ClaimsFit(s.direction, s.buckets, price) ==> ideal == Err(MathOverflow))
      && (ClaimsFit(s.direction, s.buckets, price) && total == 0 ==> ideal == Ok((View(s), Receipt(0, alloc))))
      && (ClaimsFit(s.direction, s.buckets, price) && total > 0 ==>
            && ideal.Ok? && e.allotted <= alloc
            && ideal.value.0 == Credit(View(s), EntryShares(s, e))
            && ideal.value.1 == Receipt(e.allotted, alloc - e.allotted))
  {
    hide Inv, Sum, Outstandings, Shares, View, ClaimsFit;
    ClaimsAgree(s, price);
    SharesAgree(s, price, alloc, TotalOutstanding(s.direction, s.buckets, price));
    SharesWithinInput(s.direction, s.buckets, price, alloc);
  }

  lemma SharesAgree(s: Store, price: nat, alloc: nat, total: nat)
    requires Inv(s) && ActiveDrained(s, price)
    ensures Shares(s.direction, View(s), price, alloc, total) == Shares(s.direction, s.buckets, price, alloc, total)
  {
    hide Inv, Intrinsic, Outstanding, Share;
    forall k | k in s.buckets
      ensures Shares(s.direction, View(s), price, alloc, total)[k] == Shares(s.direction, s.buckets, price, alloc, total)[k]
    {
      ClaimAgrees(s, price, k);
    }
  }

  /** The ledger has room for one more event, if need be after compaction. */
  ghost predicate HasRoom(s: Store, cap: nat) {
    MakeRoom(s, cap).Ok?
  }

  lemma MakeRoomRefines(s: Store, cap: nat)
    requires Inv(s)
    ensures HasRoom(s, cap) ==>
      var s1 := MakeRoom(s, cap).value;
      && Inv(s1) && View(s1) == View(s) && s1 == s.(ledger := s1.ledger, gcOffset := s1.gcOffset)
      && |s1.ledger| < cap
    ensures !HasRoom(s, cap) ==> MakeRoom(s, cap).error == LedgerCapacityExceeded
  {
    hide Inv, View, Pendings, Compact;
    CompactRefines(s);
  }

  lemma PreparedRefines(s: Store, price: nat, cap: nat)
    requires Inv(s)
    ensures
      var r := Prepared(s, price, cap);
      && (!HasRoom(s, cap) ==> r == Err(LedgerCapacityExceeded))
      && (HasRoom(s, cap) && r.Err? ==> r.error == MathOverflow && Value(s) >= U128)
      && (r.Ok? ==>
            var s2 := r.value;
            && Inv(s2) && View(s2) == View(s) && Value(s2) == Value(s) && ActiveDrained(s2, price)
            && s2.direction == s.direction && s2.nextIndex == s.nextIndex && |s2.ledger| < cap)
  {
    hide MakeRoom, ApplyKeys, View, Inv;
    MakeRoomRefines(s, cap);
    if HasRoom(s, cap) {
      var s1 := MakeRoom(s, cap).value;
      ApplyKeysRefines(s1, ActivatedKeys(s1, price));
    }
  }

  /** What `PayOut` returns, in terms of the event it appends. */
  lemma PayOutIs(s: Store, mode: Mode, price: nat, alloc: nat)
    ensures
      var r := PayOut(s, mode, price, alloc);
      var total := TotalOutstanding(s.direction, s.buckets, price);
      var e := NewEntry(s, price, alloc);
      && e.allotted <= alloc && e.allotted <= total
      && (r.Err? ==> r.error == MathOverflow)
      && (!ClaimsFit(s.direction, s.buckets, price) ==> r.Err?)
      && (ClaimsFit(s.direction, s.buckets, price) && total == 0 ==> r == Ok((s, Receipt(0, alloc))))
      && (ClaimsFit(s.direction, s.buckets, price) && total > 0 && r.Ok? ==>
            && s.nextIndex + 1 < U64
            && r.value.0 == Logged(s, mode, price, alloc)
            && r.value.1 == Receipt(e.allotted, alloc - e.allotted)
            && (if mode.Eager? then s.accruedTotal else s.pendingTotal) + e.allotted < U128)
      && (r.Err? && ClaimsFit(s.direction, s.buckets, price) ==>
            s.nextIndex + 1 >= U64 || Value(s) + e.allotted >= U128)
  {
    SharesWithinInput(s.direction, s.buckets, price, alloc);
    hide Sum, Shares, Outstandings, ClaimsFit, Logged;
  }

  /**
    Both modes do to the view what the ledger-free store does, and return its receipt. They fail
    where it succeeds only for lack of ledger room, of 128-bit totals, or of event indices.
  */
  lemma DistributeRefines(s: Store, mode: Mode, price: nat, alloc: nat, cap: nat)
    requires Inv(s) && alloc < U128
    ensures
      var r := Distribute(s, mode, price, alloc, cap);
      var ideal := IdealDistribute(s.direction, View(s), price, alloc);
      && (r.Ok? ==>
            var (s', receipt) := r.value;
            && Inv(s') && s'.direction == s.direction
            && ideal == Ok((View(s'), receipt))
            && Value(s') == Value(s) + receipt.allotted
            && receipt.allotted + receipt.residual == alloc)
      && (alloc == 0 ==> r.Ok?)
      && (alloc > 0 && !HasRoom(s, cap) ==> r == Err(LedgerCapacityExceeded))
      && (r.Err? && HasRoom(s, cap) ==> r.error == MathOverflow)
      && (r.Err? && HasRoom(s, cap) && Value(s) + alloc < U128 && s.nextIndex + 1 < U64 ==> ideal == Err(MathOverflow))
  {
    if alloc > 0 {
      PreparedRefines(s, price, cap);
      hide IdealDistribute, PayOut;
      if Prepared(s, price, cap).Ok? {
        hide Prepared;
        PayOutRefines(Prepared(s, price, cap).value, mode, price, alloc);
      }
    }
  }

  lemma PayOutRefines(s: Store, mode: Mode, price: nat, alloc: nat)
    requires Inv(s) && ActiveDrained(s, price) && 0 < alloc < U128
    ensures
      var r := PayOut(s, mode, price, alloc);
      var ideal := IdealDistribute(s.direction, View(s), price, alloc);
      && (r.Ok? ==>
            var (s', receipt) := r.value;
            && Inv(s') && s'.direction == s.direction
            && ideal == Ok((View(s'), receipt))
            && Value(s') == Value(s) + receipt.allotted
            && receipt.allotted + receipt.residual == alloc)
      && (r.Err? ==> r.error == MathOverflow)
      && (r.Err? && Value(s) + alloc < U128 && s.nextIndex + 1 < U64 ==> ideal == Err(MathOverflow))
  {
    PayOutIs(s, mode, price, alloc);
    IdealIs(s, price, alloc);
    TotalsBound(s);
    LoggedIs(s, mode, price, alloc);
    hide PayOut, IdealDistribute, Logged, NewEntry, View, Inv, EntryShares, TotalOutstanding, ClaimsFit, Appended;
    var r := PayOut(s, mode, price, alloc);
    var ideal := IdealDistribute(s.direction, View(s), price, alloc);
    if r.Ok? {
      assert ClaimsFit(s.direction, s.buckets, price);
      if TotalOutstanding(s.direction, s.buckets, price) > 0 {
        LoggedInv(s, mode, price, alloc);
        assert ideal.Ok? && ideal.value.0 == View(r.value.0) && ideal.value.1 == r.value.1;
      }
    }
  }

  // ---------------------------------------------------------------- merge and redeem

  /** A bucket on its own after `ApplyBucket`. */
  lemma AppliedBucket(s: Store, tick: int)
    requires Inv(s)
    ensures ApplyBucket(s, tick).Err? ==> ApplyBucket(s, tick).error == MathOverflow && Value(s) >= U128
    ensures ApplyBucket(s, tick).Ok? ==>
      var s1 := ApplyBucket(s, tick).value;
      && Inv(s1) && View(s1) == View(s) && Value(s1) == Value(s) && SameLog(s, s1)
      && s1.buckets.Keys == s.buckets.Keys
      && (tick in s.buckets ==>
            && Drained(s1, s1.buckets[tick])
            && View(s)[tick] == s1.buckets[tick].(applied := 0)
            && s1.buckets[tick].accrued <= s1.accruedTotal)
  {
    ApplyKeysRefines(s, {tick});
    if ApplyBucket(s, tick).Ok? {
      var s1 := ApplyBucket(s, tick).value;
      hide ApplyKeys, ApplyBucket, View;
      if tick in s.buckets {
        ViewAt(s1, tick);
        DrainedOwesNothing(s1, tick);
        SumAtLeast(Accruals(s1.buckets), tick);
      }
    }
  }

  lemma BucketBounds(s: Store, b: Bucket)
    requires BucketOk(s, b)
    ensures b.shares < U128 && b.notional < U128 && b.accrued < U128 && b.count < U64
  {
  }

  /** Adding to a drained bucket. */
  lemma AddToBucketRefines(s: Store, tick: int, anchor: nat, shares: nat, notional: nat, count: nat, maxBuckets: nat)
    requires Inv(s) && tick in s.buckets && Drained(s, s.buckets[tick])
    ensures
      var r := AddToBucket(s, tick, shares, notional, count);
      var ideal := IdealMerge(View(s), tick, anchor, shares, notional, count, maxBuckets);
      && (r.Ok? ==>
            && Inv(r.value) && r.value.direction == s.direction && Value(r.value) == Value(s)
            && ideal.Ok? && ideal.value == View(r.value))
      && (r.Err? ==> ideal == Err(r.error))
  {
    hide View, Inv, HeadShare, BucketOk;
    ViewAt(s, tick);
    DrainedOwesNothing(s, tick);
    var r := AddToBucket(s, tick, shares, notional, count);
    if r.Ok? {
      TotalsBound(s);
      BucketBounds(s, s.buckets[tick]);
      ReplaceDrained(s, r.value, tick, r.value.buckets[tick]);
    }
  }

  lemma ViewSize(s: Store)
    ensures View(s).Keys == s.buckets.Keys && |View(s)| == |s.buckets|
  {
    assert View(s).Keys == s.buckets.Keys;
    assert |View(s)| == |View(s).Keys| && |s.buckets| == |s.buckets.Keys|;
  }

  /** `insert_or_merge` does to the view what the ledger-free store does. */
  lemma InsertOrMergeRefines(
    s: Store, tick: int, anchor: nat, shares: nat, notional: nat, count: nat, maxBuckets: nat)
    requires Inv(s) && shares < U128 && notional < U128 && count < U64
    ensures
      var r := InsertOrMerge(s, tick, anchor, shares, notional, count, maxBuckets);
      var ideal := IdealMerge(View(s), tick, anchor, shares, notional, count, maxBuckets);
      && (r.Ok? ==>
            && Inv(r.value) && r.value.direction == s.direction && Value(r.value) == Value(s)
            && ideal.Ok? && ideal.value == View(r.value))
      && (r.Err? && (Value(s) < U128 || r.error != MathOverflow) ==> ideal == Err(r.error))
  {
    hide ApplyBucket, View, Inv;
    ViewSize(s);
    if tick in s.buckets {
      AppliedBucket(s, tick);
      if ApplyBucket(s, tick).Ok? {
        var s1 := ApplyBucket(s, tick).value;
        hide AddToBucket, IdealMerge;
        AddToBucketRefines(s1, tick, anchor, shares, notional, count, maxBuckets);
      }
    } else {
      if |s.buckets| < maxBuckets {
        var b := Bucket(anchor, shares, notional, 0, count, s.nextIndex);
        TotalsBound(s);
        ReplaceDrained(s, s.(buckets := s.buckets[tick := b]), tick, b);
      }
    }
  }

  lemma TotalsBound(s: Store)
    requires Inv(s)
    ensures s.accruedTotal < U128 && s.pendingTotal < U128
  {
  }

  /** `redeem` pays from the view what the ledger-free store pays. */
  lemma RedeemRefines(s: Store, tick: int, burn: nat)
    requires Inv(s)
    ensures
      var r := Redeem(s, tick, burn);
      var ideal := IdealRedeem(View(s), tick, burn);
      && (r.Ok? ==>
            var (s', receipt) := r.value;
            && Inv(s') && s'.direction == s.direction
            && ideal == Ok((View(s'), receipt)) && Value(s') == Value(s) - receipt.redeemable)
      && (r.Err? && (Value(s) < U128 || r.error != MathOverflow) ==> ideal == Err(r.error))
  {
    var r := Redeem(s, tick, burn);
    hide ApplyBucket, View, Inv, FloorDiv, BucketOk;
    AppliedBucket(s, tick);
    ViewSize(s);
    if ApplyBucket(s, tick).Ok? {
      var s1 := ApplyBucket(s, tick).value;
      if tick in s1.buckets && 0 < burn <= s1.buckets[tick].shares {
        DrainedOwesNothing(s1, tick);
        BucketBounds(s1, s1.buckets[tick]);
        TotalsBound(s1);
        RedeemAgrees(s1.buckets[tick], burn);
        RedeemShrinks(s1.buckets[tick], burn);
        hide RedeemFrom;
        var (b, receipt) := RedeemFrom(s1.buckets[tick], burn);
        var s' := r.value.0;
        if b.shares == 0 && b.accrued == 0 {
          RemoveDrained(s1, s', tick);
        } else {
          ReplaceDrained(s1, s', tick, b);
        }
      }
    }
  }

  /** Redemption does not look at the replay index. */
  lemma RedeemAgrees(b: Bucket, burn: nat)
    requires 0 < burn <= b.shares
    ensures RedeemFrom(b.(applied := 0), burn) == (RedeemFrom(b, burn).0.(applied := 0), RedeemFrom(b, burn).1)
  {
    hide FloorDiv;
  }

  lemma RedeemShrinks(b: Bucket, burn: nat)
    requires 0 < burn <= b.shares
    ensures
      var (b', receipt) := RedeemFrom(b, burn);
      && receipt.redeemable <= b.accrued && b'.accrued == b.accrued - receipt.redeemable
      && receipt.burnedNotional <= b.notional && b'.notional == b.notional - receipt.burnedNotional
      && b'.shares == b.shares - burn && receipt.burnedShares == burn && b'.count <= b.count
      && b'.anchor == b.anchor && b'.applied == b.applied
      && (b'.shares == 0 ==> b'.accrued == 0 && b'.notional == 0)
  {
    PartBound(b.accrued, burn, b.shares);
    PartBound(b.notional, burn, b.shares);
    hide FloorDiv;
  }
}
