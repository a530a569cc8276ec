/** What the store operations do to the recovery shares of the buckets. */
module StoreShares {
  import opened Wrappers
  import opened MoleMath
  import opened Clearing
  import opened Dormant
  import opened DormantInvariant
  import opened DormantRefinement
  import opened Engine
  import opened Holdings

  function SharesOf(s: Store): map<int, nat> {
    BucketShares(s.buckets)
  }

  lemma ViewShares(s: Store)
    requires Inv(s)
    ensures BucketShares(View(s)) == SharesOf(s)
  {
    forall k | k in s.buckets
      ensures k in View(s) && View(s)[k].shares == s.buckets[k].shares
    {
      ViewAt(s, k);
    }
    assert View(s).Keys == s.buckets.Keys;
    hide View;
  }

  lemma CreditKeepsShares(d: Direction, bs: map<int, Bucket>, price: nat, alloc: nat)
    requires IdealDistribute(d, bs, price, alloc).Ok?
    ensures BucketShares(IdealDistribute(d, bs, price, alloc).value.0) == BucketShares(bs)
  {
  }

  lemma DistributeKeepsShares(s: Store, mode: Mode, price: nat, alloc: nat, cap: nat)
    requires Inv(s) && alloc < U128 && Distribute(s, mode, price, alloc, cap).Ok?
    ensures SharesOf(Distribute(s, mode, price, alloc, cap).value.0) == SharesOf(s)
  {
    DistributeRefines(s, mode, price, alloc, cap);
    var s' := Distribute(s, mode, price, alloc, cap).value.0;
    CreditKeepsShares(s.direction, View(s), price, alloc);
    ViewShares(s);
    ViewShares(s');
  }

  lemma ApplyKeepsShares(s: Store, tick: int)
    requires Inv(s) && ApplyBucket(s, tick).Ok?
    ensures SharesOf(ApplyBucket(s, tick).value) == SharesOf(s)
  {
    AppliedBucket(s, tick);
    ViewShares(s);
    ViewShares(ApplyBucket(s, tick).value);
  }

  lemma IdealMergeShares(
    bs: map<int, Bucket>, tick: int, anchor: nat, shares: nat, notional: nat, count: nat, maxBuckets: nat)
    requires IdealMerge(bs, tick, anchor, shares, notional, count, maxBuckets).Ok?
    ensures BucketShares(IdealMerge(bs, tick, anchor, shares, notional, count, maxBuckets).value)
         == Raised(BucketShares(bs), tick, shares)
  {
    var bs' := IdealMerge(bs, tick, anchor, shares, notional, count, maxBuckets).value;
    forall k | k in bs'
      ensures BucketShares(bs')[k] == Raised(BucketShares(bs), tick, shares)[k]
    {
    }
  }

  lemma MergeRaisesShares(
    s: Store, tick: int, anchor: nat, shares: nat, notional: nat, count: nat, maxBuckets: nat)
    requires Inv(s) && shares < U128 && notional < U128 && count < U64
    requires InsertOrMerge(s, tick, anchor, shares, notional, count, maxBuckets).Ok?
    ensures SharesOf(InsertOrMerge(s, tick, anchor, shares, notional, count, maxBuckets).value)
         == Raised(SharesOf(s), tick, shares)
  {
    InsertOrMergeRefines(s, tick, anchor, shares, notional, count, maxBuckets);
    IdealMergeShares(View(s), tick, anchor, shares, notional, count, maxBuckets);
    ViewShares(s);
    ViewShares(InsertOrMerge(s, tick, anchor, shares, notional, count, maxBuckets).value);
  }

  lemma IdealRedeemShares(bs: map<int, Bucket>, tick: int, burn: nat)
    requires burn > 0 && IdealRedeem(bs, tick, burn).Ok?
    ensures tick in bs && burn <= bs[tick].shares
    ensures IdealRedeem(bs, tick, burn).value.1.burnedShares == burn
    ensures BucketShares(IdealRedeem(bs, tick, burn).value.0) == Taken(BucketShares(bs), tick, burn)
  {
    RedeemShrinks(bs[tick], burn);
    hide FloorDiv;
    var bs' := IdealRedeem(bs, tick, burn).value.0;
    forall k | k in bs'
      ensures BucketShares(bs')[k] == Taken(BucketShares(bs), tick, burn)[k]
    {
    }
  }

  lemma RedeemTakesShares(s: Store, tick: int, burn: nat)
    requires Inv(s) && burn > 0 && Redeem(s, tick, burn).Ok?
    ensures tick in SharesOf(s) && burn <= SharesOf(s)[tick]
    ensures Redeem(s, tick, burn).value.1.burnedShares == burn
    ensures SharesOf(Redeem(s, tick, burn).value.0) == Taken(SharesOf(s), tick, burn)
  {
    RedeemRefines(s, tick, burn);
    IdealRedeemShares(View(s), tick, burn);
    ViewShares(s);
    ViewShares(Redeem(s, tick, burn).value.0);
  }

  /** A redemption of shares that are there fails only by overflow. */
  lemma RedeemNeverInvariant(s: Store, tick: int, burn: nat)
    requires Inv(s) && tick in s.buckets && burn <= s.buckets[tick].shares
    ensures Redeem(s, tick, burn).Err? ==> Redeem(s, tick, burn).error == MathOverflow && Value(s) >= U128
  {
    RedeemRefines(s, tick, burn);
    ViewAt(s, tick);
    hide Redeem, View, Inv;
  }
}
