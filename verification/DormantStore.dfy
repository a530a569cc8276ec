/**
  The dormant store as the mutable object of dormant.rs: every method updates the fields step by
  step and is proved to do what the function of the same name in `Dormant` says.
*/
module DormantStoreModule {
  import opened Wrappers
  import opened MoleMath
  import opened Clearing
  import opened Sums
  import opened Dormant
  import opened DormantInvariant
  import opened DormantRefinement
  import opened DormantSteps

  /** `DormantStore`. */
  class DormantStore {
    const direction: Direction
    var buckets: map<int, Bucket>
    var accruedTotal: nat
    var ledger: seq<DistEntry>
    var gcOffset: nat
    var nextIndex: nat
    var pendingTotal: nat

    function State(): Store
      reads this
    {
      Store(direction, buckets, accruedTotal, ledger, gcOffset, nextIndex, pendingTotal)
    }

    ghost predicate Valid()
      reads this
    {
      Inv(State())
    }

    constructor (d: Direction)
      ensures Valid() && State() == EmptyStore(d)
    {
      direction := d;
      buckets, accruedTotal, ledger, gcOffset, nextIndex, pendingTotal := map[], 0, [], 0, 0, 0;
      new;
      EmptyInv(d);
    }

    /** A store that already has a state; `Unpack` builds one from accounts. */
    constructor Load(s: Store)
      ensures State() == s
    {
      direction := s.direction;
      buckets, accruedTotal, ledger, gcOffset, nextIndex, pendingTotal :=
        s.buckets, s.accruedTotal, s.ledger, s.gcOffset, s.nextIndex, s.pendingTotal;
    }

    /** `total_recovery_shares`. */
    method TotalRecoveryShares() returns (total: nat)
      ensures total == Sum(BucketShares(buckets))
    {
      ghost var shares := BucketShares(buckets);
      var todo := buckets.Keys;
      total := 0;
      PartNone(shares);
      assert buckets.Keys - todo == {};
      while todo != {}
        invariant todo <= buckets.Keys
        invariant total == Sum(Part(shares, buckets.Keys - todo))
        decreases todo
      {
        var k := Choose(todo);
        OneMoreDone(buckets.Keys, todo, k);
        PartStep(shares, buckets.Keys - todo, k);
        hide Sum, Part;
        total := total + buckets[k].shares;
        todo := todo - {k};
      }
      assert buckets.Keys - todo == buckets.Keys;
      PartAll(shares, buckets.Keys);
    }

    /** `apply_pending_to_bucket`, entry by entry. */
    method ApplyPendingToBucket(tick: int) returns (r: ClearingResult<nat>)
      requires LedgerOk(State())
      modifies this
      ensures
        var spec := ApplyBucketChecked(old(State()), tick);
        if spec.Ok? then r == Ok(spec.value.1) && State() == spec.value.0 else r == Err(spec.error)
    {
      if tick !in buckets || buckets[tick].applied >= nextIndex {
        return Ok(0);
      }
      if buckets[tick].applied < gcOffset {
        return Err(Invariant(GcWindow));
      }
      var start := buckets[tick].applied - gcOffset;
      var b := buckets[tick];
      var count := 0;
      while count < |ledger| - start
        invariant 0 <= count <= |ledger| - start
        invariant ReplayChecked(direction, b, ledger[start + count..]) == ReplayChecked(direction, buckets[tick], ledger[start..])
        invariant State() == old(State())
      {
        var e := ledger[start + count];
        assert ledger[start + count..][0] == e && ledger[start + count..][1..] == ledger[start + (count + 1)..];
        var step := ApplyEntryChecked(direction, b, e);
        if step.Err? {
          return Err(step.error);
        }
        b := step.value;
        count := count + 1;
      }
      assert ledger[start + count..] == [];
      var delta := SaturatingSub(b.accrued, buckets[tick].accrued);
      if delta > 0 {
        if accruedTotal + delta >= U128 {
          return Err(MathOverflow);
        }
        accruedTotal := accruedTotal + delta;
        pendingTotal := SaturatingSub(pendingTotal, delta);
      }
      buckets := buckets[tick := b];
      return Ok(count);
    }

    /** `pending_for_bucket`: the same walk on a copy, nothing is written. */
    method PendingForBucket(tick: int) returns (r: ClearingResult<nat>)
      requires Valid()
      ensures r == Ok(if tick in buckets then Pending(State(), buckets[tick]) else 0)
    {
      if tick !in buckets {
        return Ok(0);
      }
      ghost var s := State();
      var b0 := buckets[tick];
      CheckedBucketIs(s, b0);
      CaughtUpIs(s, b0);
      if b0.applied >= nextIndex {
        return Ok(0);
      }
      var start := b0.applied - gcOffset;
      var b := b0;
      var count := 0;
      assert Window(s, b0) == ledger[start..];
      while count < |ledger| - start
        invariant 0 <= count <= |ledger| - start
        invariant ReplayChecked(direction, b, ledger[start + count..]) == Ok(Settled(s, b0))
      {
        var e := ledger[start + count];
        assert ledger[start + count..][0] == e && ledger[start + count..][1..] == ledger[start + (count + 1)..];
        b := ApplyEntryChecked(direction, b, e).value;
        count := count + 1;
      }
      assert ledger[start + count..] == [];
      return Ok(b.accrued - b0.accrued);
    }

    /** `apply_pending_to_all`: the buckets one after the other. */
    method ApplyPendingToAll() returns (r: ClearingResult<nat>)
      requires Valid()
      modifies this
      ensures
        var spec := ApplyAll(old(State()));
        if spec.Ok? then r.Ok? && State() == spec.value && Valid() else r == Err(spec.error)
    {
      r := ApplyEach(buckets.Keys);
    }

    /** The drain loop shared by `apply_pending_to_all` and both distributions. */
    method ApplyEach(keys: set<int>) returns (r: ClearingResult<nat>)
      requires Valid() && keys <= buckets.Keys
      modifies this
      ensures
        var spec := ApplyKeys(old(State()), keys);
        if spec.Ok? then r.Ok? && State() == spec.value && Valid() else r == Err(spec.error)
    {
      ghost var s := State();
      ApplyNothing(s);
      hide ApplyKeys, ApplyBucketChecked, LedgerOk, Inv;
      var todo, total := keys, 0;
      assert keys - todo == {};
      while todo != {}
        invariant todo <= keys
        invariant ApplyKeys(s, keys - todo).Ok? && ApplyKeys(s, keys - todo).value == State()
        decreases todo
      {
        var k := Choose(todo);
        EachStep(s, keys, todo, k, State());
        var step := ApplyPendingToBucket(k);
        if step.Err? {
          return Err(step.error);
        }
        total := total + step.value;
        todo := todo - {k};
      }
      assert keys - todo == keys;
      ApplyKeysRefines(s, keys);
      return Ok(total);
    }

    /** The minimum of `last_applied_index` over all buckets, or the head of the ledger. */
    method LowestApplied() returns (watermark: nat)
      ensures watermark == Watermark(buckets, nextIndex)
    {
      watermark := nextIndex;
      var todo := buckets.Keys;
      while todo != {}
        invariant todo <= buckets.Keys
        invariant watermark <= nextIndex
        invariant forall k :: k in buckets && k !in todo ==> watermark <= buckets[k].applied
        invariant watermark == nextIndex || exists k :: k in buckets && buckets[k].applied == watermark
        decreases todo
      {
        var k := Choose(todo);
        if buckets[k].applied < watermark {
          watermark := buckets[k].applied;
        }
        todo := todo - {k};
      }
      WatermarkUnique(buckets, nextIndex, watermark);
    }

    /** `compact_ledger`. */
    method CompactLedger() returns (dropped: nat)
      requires Valid()
      modifies this
      ensures State() == Compact(old(State())) && Valid()
      ensures dropped == gcOffset - old(gcOffset)
    {
      hide Inv, View, Watermark, Compact, Pendings, Min;
      ghost var was := State();
      CompactUnfolds(was);
      CompactKeeps(was);
      var watermark := LowestApplied();
      if watermark <= gcOffset {
        assert was.ledger[0..] == was.ledger;
        return 0;
      }
      dropped := Min(watermark - gcOffset, |ledger|);
      ledger := ledger[dropped..];
      gcOffset := gcOffset + dropped;
      assert State() == Compact(was);
    }

    /** `total_outstanding_claim_at`, with its overflow checks. */
    method TotalOutstandingClaimAt(price: nat) returns (r: ClearingResult<nat>)
      requires Valid()
      ensures r == TotalOutstandingClaim(direction, buckets, price)
    {
      r := SumClaims(ActiveKeys(direction, buckets, price), price);
    }

    /** The checked claim sum used by the query and by both distributions. */
    method SumClaims(keys: set<int>, price: nat) returns (r: ClearingResult<nat>)
      requires keys == ActiveKeys(direction, buckets, price)
      ensures r == TotalOutstandingClaim(direction, buckets, price)
    {
      ghost var o := Outstandings(direction, buckets, price);
      InactiveClaimNothing(State(), price);
      var todo, total := keys, 0;
      PartNone(o);
      assert keys - todo == {};
      while todo != {}
        invariant todo <= keys
        invariant total == Sum(Part(o, keys - todo)) < U128
        invariant forall k :: k in keys && k !in todo ==> Intrinsic(direction, buckets[k], price) < U128
        decreases todo
      {
        var k := Choose(todo);
        OneMoreDone(keys, todo, k);
        PartStep(o, keys - todo, k);
        hide Sum, Part, Intrinsic;
        var intrinsic := IntrinsicClaim(direction, buckets[k], price);
        if intrinsic.Err? {
          return Err(intrinsic.error);
        }
        var outstanding := SaturatingSub(intrinsic.value, buckets[k].accrued);
        if total + outstanding >= U128 {
          return Err(MathOverflow);
        }
        total := total + outstanding;
        todo := todo - {k};
      }
      PartAll(o, keys);
      assert keys - todo == keys;
      return Ok(total);
    }

    /** The capacity check and the drain of the activated buckets, common to both distributions. */
    method PrepareDistribution(price: nat, cap: nat) returns (r: ClearingResult<set<int>>)
      requires Valid()
      modifies this
      ensures
        var spec := Prepared(old(State()), price, cap);
        if spec.Ok?
        then Valid() && State() == spec.value && r == Ok(ActiveKeys(direction, buckets, price))
        else r == Err(spec.error)
    {
      PreparedRefines(State(), price, cap);
      MakeRoomRefines(State(), cap);
      hide Inv, View, Compact, ApplyKeys, ActiveDrained;
      var keys := ActiveKeys(direction, buckets, price);
      if |ledger| >= cap {
        var _ := CompactLedger();
        if |ledger| >= cap {
          return Err(LedgerCapacityExceeded);
        }
      }
      KeepsKeysActive(State(), keys, price);
      var drained := ApplyEach(keys);
      if drained.Err? {
        return Err(drained.error);
      }
      return Ok(keys);
    }

    /** The lazy loop: the same shares are only added up. */
    method SumShares(keys: set<int>, price: nat, alloc: nat, total: nat) returns (sum: nat)
      requires keys == ActiveKeys(direction, buckets, price) && alloc < U128
      requires total == TotalOutstanding(direction, buckets, price) > 0
      ensures sum == Sum(Shares(direction, buckets, price, alloc, total))
    {
      ghost var sh := Shares(direction, buckets, price, alloc, total);
      InactiveClaimNothing(State(), price);
      PartNone(sh);
      var todo := keys;
      sum := 0;
      assert keys - todo == {};
      while todo != {}
        invariant todo <= keys
        invariant sum == Sum(Part(sh, keys - todo))
        decreases todo
      {
        var k := Choose(todo);
        OneMoreDone(keys, todo, k);
        PartStep(sh, keys - todo, k);
        ClaimWithinTotal(direction, buckets, price, k);
        var outstanding := Outstanding(direction, buckets[k], price);
        sum := sum + ShareOf(alloc, outstanding, total);
        todo := todo - {k};
      }
      assert keys - todo == keys;
      PartAll(sh, keys);
    }

    /** `distribute`: activated buckets are credited at once. */
    method DistributeEager(price: nat, alloc: nat, cap: nat) returns (r: ClearingResult<Receipt>)
      requires Valid() && alloc < U128
      modifies this
      ensures
        var spec := Distribute(old(State()), Eager, price, alloc, cap);
        if spec.Ok? then r == Ok(spec.value.1) && State() == spec.value.0 && Valid() else r == Err(spec.error)
    {
      DistributeRefines(State(), Eager, price, alloc, cap);
      if alloc == 0 {
        return Ok(Receipt(0, 0));
      }
      hide Inv, View, Prepared, PayOut, HasRoom, IdealDistribute, ActiveKeys;
      var prepared := PrepareDistribution(price, cap);
      if prepared.Err? {
        return Err(prepared.error);
      }
      r := PayOutEager(prepared.value, price, alloc);
    }

    method PayOutEager(keys: set<int>, price: nat, alloc: nat) returns (r: ClearingResult<Receipt>)
      requires keys == ActiveKeys(direction, buckets, price) && alloc < U128
      modifies this
      ensures
        var spec := PayOut(old(State()), Eager, price, alloc);
        if spec.Ok? then r == Ok(spec.value.1) && State() == spec.value.0 else r == Err(spec.error)
    {
      SharesWithinInput(direction, buckets, price, alloc);
      hide Shares, Sum, ClaimsFit, TotalOutstanding, CreditKeys, ActiveKeys, CreditedSoFar;
      var total := SumClaims(keys, price);
      if total.Err? {
        return Err(total.error);
      }
      if total.value == 0 {
        return Ok(Receipt(0, alloc));
      }
      ghost var bs := buckets;
      var sum;
      buckets, sum := CreditEach(direction, buckets, keys, price, alloc, total.value, nextIndex + 1);
      CreditEnd(direction, bs, buckets, keys, price, alloc, total.value, nextIndex + 1, sum);
      if accruedTotal + sum >= U128 || nextIndex + 1 >= U64 {
        return Err(MathOverflow);
      }
      accruedTotal := accruedTotal + sum;
      ledger := ledger + [DistEntry(nextIndex, price, total.value, alloc, sum)];
      nextIndex := nextIndex + 1;
      return Ok(Receipt(sum, alloc - sum));
    }

    /** `distribute_lazy`: the event is only logged. */
    method DistributeLazy(price: nat, alloc: nat, cap: nat) returns (r: ClearingResult<Receipt>)
      requires Valid() && alloc < U128
      modifies this
      ensures
        var spec := Distribute(old(State()), Lazy, price, alloc, cap);
        if spec.Ok? then r == Ok(spec.value.1) && State() == spec.value.0 && Valid() else r == Err(spec.error)
    {
      DistributeRefines(State(), Lazy, price, alloc, cap);
      if alloc == 0 {
        return Ok(Receipt(0, 0));
      }
      hide Inv, View, Prepared, PayOut, HasRoom, IdealDistribute, ActiveKeys;
      var prepared := PrepareDistribution(price, cap);
      if prepared.Err? {
        return Err(prepared.error);
      }
      r := PayOutLazy(prepared.value, price, alloc);
    }

    method PayOutLazy(keys: set<int>, price: nat, alloc: nat) returns (r: ClearingResult<Receipt>)
      requires keys == ActiveKeys(direction, buckets, price) && alloc < U128
      modifies this
      ensures
        var spec := PayOut(old(State()), Lazy, price, alloc);
        if spec.Ok? then r == Ok(spec.value.1) && State() == spec.value.0 else r == Err(spec.error)
    {
      SharesWithinInput(direction, buckets, price, alloc);
      hide Shares, Sum, ClaimsFit, TotalOutstanding, CreditKeys, ActiveKeys;
      var total := SumClaims(keys, price);
      if total.Err? {
        return Err(total.error);
      }
      if total.value == 0 {
        return Ok(Receipt(0, alloc));
      }
      var sum := SumShares(keys, price, alloc, total.value);
      if pendingTotal + sum >= U128 || nextIndex + 1 >= U64 {
        return Err(MathOverflow);
      }
      pendingTotal := pendingTotal + sum;
      ledger := ledger + [DistEntry(nextIndex, price, total.value, alloc, sum)];
      nextIndex := nextIndex + 1;
      return Ok(Receipt(sum, alloc - sum));
    }

    /** `insert_or_merge`. */
    method InsertOrMergeBucket(tick: int, anchor: nat, shares: nat, notional: nat, count: nat, maxBuckets: nat)
      returns (r: ClearingResult<()>)
      requires Valid() && shares < U128 && notional < U128 && count < U64
      modifies this
      ensures
        var spec := InsertOrMerge(old(State()), tick, anchor, shares, notional, count, maxBuckets);
        if spec.Ok? then r == Ok(()) && State() == spec.value && Valid() else r == Err(spec.error)
    {
      InsertOrMergeRefines(State(), tick, anchor, shares, notional, count, maxBuckets);
      hide Inv, View, ApplyBucket, ApplyBucketChecked, AddToBucket;
      if tick in buckets {
        ReadyToApply(State(), tick);
        var applied := ApplyPendingToBucket(tick);
        if applied.Err? {
          return Err(applied.error);
        }
        r := AddToExisting(tick, shares, notional, count);
        return;
      }
      if |buckets| >= maxBuckets {
        return Err(DormantBucketCapExceeded);
      }
      buckets := buckets[tick := Bucket(anchor, shares, notional, 0, count, nextIndex)];
      return Ok(());
    }

    /** The merge branch of `insert_or_merge`, after the drain. */
    method AddToExisting(tick: int, shares: nat, notional: nat, count: nat) returns (r: ClearingResult<()>)
      requires tick in buckets
      modifies this
      ensures
        var spec := AddToBucket(old(State()), tick, shares, notional, count);
        if spec.Ok? then r == Ok(()) && State() == spec.value else r == Err(spec.error)
    {
      var b := buckets[tick];
      if b.shares + shares >= U128 || b.notional + notional >= U128 || b.count + count >= U64 {
        return Err(MathOverflow);
      }
      b := b.(shares := b.shares + shares);
      b := b.(notional := b.notional + notional);
      b := b.(count := b.count + count);
      buckets := buckets[tick := b];
      return Ok(());
    }

    /** `redeem`. */
    method RedeemShares(tick: int, burn: nat) returns (r: ClearingResult<RedeemReceipt>)
      requires Valid()
      modifies this
      ensures
        var spec := Redeem(old(State()), tick, burn);
        if spec.Ok? then r == Ok(spec.value.1) && State() == spec.value.0 && Valid() else r == Err(spec.error)
    {
      RedeemRefines(State(), tick, burn);
      hide Inv, View, ApplyBucket, ApplyBucketChecked, RedeemDrained;
      ReadyToApply(State(), tick);
      var applied := ApplyPendingToBucket(tick);
      if applied.Err? {
        return Err(applied.error);
      }
      r := RedeemUpToDate(tick, burn);
    }

    /** `redeem` after the drain. */
    method RedeemUpToDate(tick: int, burn: nat) returns (r: ClearingResult<RedeemReceipt>)
      modifies this
      ensures
        var spec := RedeemDrained(old(State()), tick, burn);
        if spec.Ok? then r == Ok(spec.value.1) && State() == spec.value.0 else r == Err(spec.error)
    {
      if tick !in buckets {
        return Err(Invariant(MissingBucket));
      }
      if burn == 0 {
        return Ok(RedeemReceipt(0, 0, 0));
      }
      if burn > buckets[tick].shares {
        return Err(Invariant(ExcessShares));
      }
      hide FloorDiv;
      var b := buckets[tick];
      PartBound(b.accrued, burn, b.shares);
      PartBound(b.notional, burn, b.shares);
      var redeemable := FloorDiv(b.accrued, burn, b.shares);
      var notional := FloorDiv(b.notional, burn, b.shares);
      b := b.(accrued := b.accrued - redeemable);
      b := b.(shares := b.shares - burn);
      b := b.(notional := b.notional - notional);
      b := b.(count := SaturatingSub(b.count, 1));
      buckets := if b.shares == 0 && b.accrued == 0 then buckets - {tick} else buckets[tick := b];
      if redeemable > accruedTotal {
        return Err(MathOverflow);
      }
      accruedTotal := accruedTotal - redeemable;
      return Ok(RedeemReceipt(redeemable, burn, notional));
    }

    // -------------------------------------------------------------- run-time check

    /** The bucket loop of `check_invariants`: the accrued total, and every replay index in the window. */
    method CheckBuckets() returns (r: ClearingResult<nat>)
      ensures r.Ok? ==> r.value == Sum(Accruals(buckets)) < U128
      ensures r.Ok? ==> forall k :: k in buckets ==> gcOffset <= buckets[k].applied <= nextIndex
      ensures r.Err? && r.error != MathOverflow ==>
        r.error.Invariant? && exists k :: k in buckets && !(gcOffset <= buckets[k].applied <= nextIndex)
      ensures r == Err(MathOverflow) ==> Sum(Accruals(buckets)) >= U128
    {
      ghost var accruals := Accruals(buckets);
      var todo, total := buckets.Keys, 0;
      PartNone(accruals);
      assert buckets.Keys - todo == {};
      while todo != {}
        invariant todo <= buckets.Keys
        invariant total == Sum(Part(accruals, buckets.Keys - todo)) < U128
        invariant forall k :: k in buckets && k !in todo ==> gcOffset <= buckets[k].applied <= nextIndex
        decreases todo
      {
        var k := Choose(todo);
        OneMoreDone(buckets.Keys, todo, k);
        PartStep(accruals, buckets.Keys - todo, k);
        hide Sum, Part;
        if total + buckets[k].accrued >= U128 {
          return Err(MathOverflow);
        }
        total := total + buckets[k].accrued;
        if buckets[k].applied > nextIndex {
          return Err(Invariant(AheadOfLedger));
        }
        if buckets[k].applied < gcOffset {
          return Err(Invariant(InsideGc));
        }
        todo := todo - {k};
      }
      assert buckets.Keys - todo == buckets.Keys;
      PartAll(accruals, buckets.Keys);
      return Ok(total);
    }

    /** `check_invariants`, on any state: it passes exactly the consistent stores whose sums fit. */
    method CheckInvariants() returns (r: ClearingResult<()>)
      ensures r.Ok? <==> Consistent(State()) && Summable(State())
      ensures r.Err? ==> (r.error == MathOverflow && !Summable(State())) || (r.error.Invariant? && !Consistent(State()))
      ensures Consistent(State()) ==> r == CheckStore(State())
    {
      hide Sum, Accruals, TotalAllotted;
      var accrued := CheckBuckets();
      if accrued.Err? {
        return Err(accrued.error);
      }
      if accrued.value != accruedTotal {
        return Err(Invariant(AccruedDrift));
      }
      if gcOffset + |ledger| != nextIndex {
        return Err(Invariant(LedgerDrift));
      }
      var window := WindowTotal(ledger);
      if window.Err? {
        return Err(window.error);
      }
      if pendingTotal > window.value {
        return Err(Invariant(PendingDrift));
      }
      return Ok(());
    }
  }
}
