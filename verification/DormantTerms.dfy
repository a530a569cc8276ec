/**
  Claims, distributions and redemptions in plain arithmetic: what a bucket is worth at a price, what
  a distribution credits it, and what its shares redeem for, each to the unit.
*/
module DormantTerms {
  import opened Wrappers
  import opened MoleMath
  import opened Clearing
  import opened Sums
  import opened Dormant
  import opened DormantInvariant
  import opened DormantRefinement
  import opened DormantClaims

  // ---------------------------------------------------------------- claims

  /** How far `price` has moved from `anchor` in favour of direction `d`. */
  function Favour(d: Direction, anchor: nat, price: nat): nat {
    match d
    case Long => if price > anchor then price - anchor else 0
    case Short => if price < anchor then anchor - price else 0
  }

  /**
    What a bucket is worth at `price`: the notional times the favourable move over the anchor, rounded
    down. Where nothing has moved in its favour that is 0, and so it is without an anchor.
  */
  ghost predicate IsWorth(d: Direction, b: Bucket, price: nat, worth: nat) {
    if b.anchor == 0 then worth == 0 else IsFloor(worth, b.notional, Favour(d, b.anchor, price), b.anchor)
  }

  ghost predicate AreWorths(d: Direction, bs: map<int, Bucket>, price: nat, worths: map<int, nat>) {
    && worths.Keys == bs.Keys
    && forall k :: k in bs ==> IsWorth(d, bs[k], price, worths[k])
  }

  /** What a bucket is due beyond what it has been credited. */
  function Due(b: Bucket, worth: nat): nat {
    if worth > b.accrued then worth - b.accrued else 0
  }

  function Dues(bs: map<int, Bucket>, worths: map<int, nat>): map<int, nat>
    requires worths.Keys == bs.Keys
  {
    map k | k in bs :: Due(bs[k], worths[k])
  }

  lemma ClaimIsWorth(d: Direction, b: Bucket, price: nat, worth: nat)
    ensures IsWorth(d, b, price, worth) <==> worth == Intrinsic(d, b, price)
    ensures Outstanding(d, b, price) == Due(b, Intrinsic(d, b, price))
    ensures Favour(d, b.anchor, price) == 0 ==> Intrinsic(d, b, price) == 0
  {
    if b.anchor > 0 {
      FloorIs(worth, b.notional, Favour(d, b.anchor, price), b.anchor);
      if b.notional == 0 || Favour(d, b.anchor, price) == 0 {
        ZeroProduct(b.notional, Favour(d, b.anchor, price), b.anchor);
      }
    }
    hide FloorDiv, IsFloor;
  }

  /** Every map of buckets has its worths. */
  lemma WorthsExist(d: Direction, bs: map<int, Bucket>, price: nat) returns (worths: map<int, nat>)
    ensures AreWorths(d, bs, price, worths)
  {
    hide IsWorth, Intrinsic;
    worths := map k | k in bs :: Intrinsic(d, bs[k], price);
    assert worths.Keys == bs.Keys;
    forall k | k in bs
      ensures IsWorth(d, bs[k], price, worths[k])
    {
      ClaimIsWorth(d, bs[k], price, worths[k]);
    }
  }

  lemma WorthsAreClaims(d: Direction, bs: map<int, Bucket>, price: nat, worths: map<int, nat>)
    requires AreWorths(d, bs, price, worths)
    ensures forall k :: k in bs ==> worths[k] == Intrinsic(d, bs[k], price)
    ensures Dues(bs, worths) == Outstandings(d, bs, price)
  {
    hide IsWorth, Intrinsic, Outstanding, Due;
    forall k | k in bs
      ensures worths[k] == Intrinsic(d, bs[k], price) && Due(bs[k], worths[k]) == Outstanding(d, bs[k], price)
    {
      ClaimIsWorth(d, bs[k], price, worths[k]);
    }
  }

  /**
    The total claim on a side is what its buckets are worth beyond what they have been credited; it
    overflows exactly when a worth or the sum needs more than 128 bits.
  */
  lemma TotalClaimIs(d: Direction, bs: map<int, Bucket>, price: nat, worths: map<int, nat>)
    requires AreWorths(d, bs, price, worths)
    ensures TotalOutstandingClaim(d, bs, price) ==
      if (forall k :: k in bs ==> worths[k] < U128) && Sum(Dues(bs, worths)) < U128
      then Ok(Sum(Dues(bs, worths)))
      else Err(MathOverflow)
  {
    hide AreWorths, Dues, Intrinsic, Outstandings, Sum;
    WorthsAreClaims(d, bs, price, worths);
  }

  // ---------------------------------------------------------------- distributions

  /** `x` is what a claimant due `due` of `total` receives of `alloc`. */
  ghost predicate IsCut(x: nat, alloc: nat, due: nat, total: nat) {
    if alloc >= total then x == due else IsFloor(x, alloc, due, total)
  }

  /** `bs'` is `bs` with every bucket credited its cut of `alloc`. */
  ghost predicate CutsCredited(bs: map<int, Bucket>, bs': map<int, Bucket>, dues: map<int, nat>, alloc: nat) {
    && bs'.Keys == bs.Keys == dues.Keys
    && forall k :: k in bs ==>
         && bs'[k].accrued >= bs[k].accrued
         && bs'[k] == bs[k].(accrued := bs'[k].accrued)
         && IsCut(bs'[k].accrued - bs[k].accrued, alloc, dues[k], Sum(dues))
  }

  lemma ShareIsCut(alloc: nat, due: nat, total: nat)
    requires due <= total
    ensures IsCut(if alloc == 0 then 0 else Share(alloc, due, total), alloc, due, total)
  {
    hide IsFloor, Share;
    if alloc >= total {
      if 0 < total {
        FullShare(alloc, due, total);
      } else {
        assert Share(alloc, due, total) <= due;
      }
    } else if alloc == 0 || due == 0 {
      ZeroProduct(alloc, due, total);
      FloorIs(0, alloc, due, total);
      assert Share(alloc, due, total) <= due;
    } else {
      PlainShare(alloc, due, total);
      FloorIs(Share(alloc, due, total), alloc, due, total);
    }
  }

  lemma IdealPays(d: Direction, bs: map<int, Bucket>, price: nat, alloc: nat, worths: map<int, nat>)
    requires AreWorths(d, bs, price, worths) && IdealDistribute(d, bs, price, alloc).Ok?
    ensures CutsCredited(bs, IdealDistribute(d, bs, price, alloc).value.0, Dues(bs, worths), alloc)
  {
    hide AreWorths, Dues, Share, Outstanding, Sum, IsCut, ClaimsFit;
    WorthsAreClaims(d, bs, price, worths);
    var dues := Outstandings(d, bs, price);
    var total := TotalOutstanding(d, bs, price);
    forall k | k in bs
      ensures IsCut(if alloc == 0 then 0 else Share(alloc, dues[k], total), alloc, dues[k], total)
      ensures total == 0 ==> Share(alloc, dues[k], total) == 0
    {
      SumAtLeast(dues, k);
      ShareIsCut(alloc, dues[k], total);
      assert Share(alloc, dues[k], total) <= dues[k];
    }
  }

  /**
    What a distribution in either mode credits: with enough funds every bucket exactly what it is due,
    so that it has then been credited all it is worth; otherwise its proportional part of the funds,
    rounded down. Nothing else of any bucket changes.
  */
  lemma DistributionPays(s: Store, mode: Mode, price: nat, alloc: nat, cap: nat, worths: map<int, nat>)
    requires Inv(s) && alloc < U128 && AreWorths(s.direction, View(s), price, worths)
    requires Distribute(s, mode, price, alloc, cap).Ok?
    ensures
      var (s', receipt) := Distribute(s, mode, price, alloc, cap).value;
      var dues := Dues(View(s), worths);
      && CutsCredited(View(s), View(s'), dues, alloc)
      && receipt.allotted + receipt.residual == alloc
      && (alloc >= Sum(dues) ==> receipt.allotted == Sum(dues))
      && (0 < alloc < Sum(dues) ==> receipt.allotted <= alloc < receipt.allotted + |Positive(dues)|)
  {
    hide Distribute, Inv, View, AreWorths, CutsCredited, Dues, IdealDistribute, Outstandings, Sum, Positive;
    DistributeRefines(s, mode, price, alloc, cap);
    DistributionBounds(s, mode, price, alloc, cap);
    WorthsAreClaims(s.direction, View(s), price, worths);
    IdealPays(s.direction, View(s), price, alloc, worths);
  }

  /**
    A bucket as a distribution leaves it: untouched unless the price has moved in its favour; else
    credited with all that was logged before, and in eager mode with the new event as well.
  */
  ghost predicate Touched(s: Store, s': Store, mode: Mode, price: nat, k: int) {
    && k in s.buckets && k in s'.buckets && k in View(s) && k in View(s')
    && (Favour(s.direction, s.buckets[k].anchor, price) == 0 ==> s'.buckets[k] == s.buckets[k])
    && (Favour(s.direction, s.buckets[k].anchor, price) > 0 ==>
          s'.buckets[k] == (
            if mode.Eager? then View(s')[k].(applied := s'.nextIndex) else View(s)[k].(applied := s.nextIndex)))
  }

  lemma SettledIsView(s: Store, k: int)
    requires Inv(s) && k in s.buckets
    ensures k in View(s) && Settled(s, s.buckets[k]) == View(s)[k].(applied := s.nextIndex)
    ensures View(s)[k].anchor == s.buckets[k].anchor
  {
    hide Inv, View, HeadShare;
    ViewAt(s, k);
  }

  lemma PreparedTouches(s: Store, price: nat, cap: nat, k: int)
    requires Inv(s) && Prepared(s, price, cap).Ok? && k in s.buckets
    ensures
      var s2 := Prepared(s, price, cap).value;
      && Inv(s2) && s2.direction == s.direction && s2.nextIndex == s.nextIndex && k in View(s) && View(s2) == View(s)
      && k in s2.buckets && s2.buckets[k].anchor == s.buckets[k].anchor
      && s2.buckets[k] ==
           (if Favour(s.direction, s.buckets[k].anchor, price) > 0 then View(s)[k].(applied := s.nextIndex)
            else s.buckets[k])
  {
    hide MakeRoom, ApplyKeys, View, Inv, Settled;
    PreparedRefines(s, price, cap);
    MakeRoomRefines(s, cap);
    var s1 := MakeRoom(s, cap).value;
    ApplyKeysRefines(s1, ActivatedKeys(s1, price));
    SettledIsView(s1, k);
  }

  lemma PayOutTouches(s: Store, mode: Mode, price: nat, alloc: nat, k: int)
    requires Inv(s) && PayOut(s, mode, price, alloc).Ok? && Inv(PayOut(s, mode, price, alloc).value.0) && k in s.buckets
    requires Favour(s.direction, s.buckets[k].anchor, price) > 0 ==> s.buckets[k].applied == s.nextIndex
    ensures
      var s' := PayOut(s, mode, price, alloc).value.0;
      && k in s'.buckets && k in View(s') && s'.direction == s.direction
      && (mode.Lazy? || Favour(s.direction, s.buckets[k].anchor, price) == 0 ==> s'.buckets[k] == s.buckets[k])
      && (mode.Eager? && Favour(s.direction, s.buckets[k].anchor, price) > 0 ==>
            s'.buckets[k] == View(s')[k].(applied := s'.nextIndex))
  {
    hide PayOut, Logged, View, Inv, HeadShare, NewEntry, ClaimsFit, TotalOutstanding, Appended, Share, Outstanding;
    PayOutIs(s, mode, price, alloc);
    LoggedIs(s, mode, price, alloc);
    LoggedIndex(s, mode, price, alloc);
    var s' := PayOut(s, mode, price, alloc).value.0;
    assert k in s'.buckets;
    ViewAt(s', k);
    if s'.buckets[k].applied == s'.nextIndex {
      DrainedOwesNothing(s', k);
    }
  }

  lemma LoggedIndex(s: Store, mode: Mode, price: nat, alloc: nat)
    ensures Logged(s, mode, price, alloc).nextIndex == s.nextIndex + 1
    ensures Logged(s, mode, price, alloc).direction == s.direction
  {
    hide TotalOutstanding, Shares, Sum, CreditKeys;
  }

  /**
    A distribution touches exactly the buckets the price has moved in favour of: only they are caught
    up, and only they move past the new event in eager mode.
  */
  lemma DistributionTouches(s: Store, mode: Mode, price: nat, alloc: nat, cap: nat, k: int)
    requires Inv(s) && 0 < alloc < U128 && k in s.buckets
    requires Distribute(s, mode, price, alloc, cap).Ok?
    ensures Touched(s, Distribute(s, mode, price, alloc, cap).value.0, mode, price, k)
  {
    hide Inv, View, Prepared, PayOut, IdealDistribute, HasRoom;
    DistributeRefines(s, mode, price, alloc, cap);
    PreparedTouches(s, price, cap, k);
    PayOutTouches(Prepared(s, price, cap).value, mode, price, alloc, k);
  }

  // ---------------------------------------------------------------- merges

  /** What resting shares at `tick` makes of its bucket: an existing one keeps its anchor and its accrual. */
  function Joined(bs: map<int, Bucket>, tick: int, anchor: nat, shares: nat, notional: nat, count: nat): Bucket {
    if tick in bs then
      var b := bs[tick];
      Bucket(b.anchor, shares + b.shares, notional + b.notional, b.accrued, count + b.count, b.applied)
    else Bucket(anchor, shares, notional, 0, count, 0)
  }

  /**
    A merge into any store: it is refused for the cap exactly when it would make one bucket more than
    `maxBuckets`, and otherwise adds exactly the shares, notional and count to the one bucket.
  */
  lemma MergeAdds(s: Store, tick: int, anchor: nat, shares: nat, notional: nat, count: nat, maxBuckets: nat)
    requires Inv(s) && shares < U128 && notional < U128 && count < U64
    ensures
      var r := InsertOrMerge(s, tick, anchor, shares, notional, count, maxBuckets);
      && (r == Err(DormantBucketCapExceeded) <==> tick !in View(s) && |View(s)| >= maxBuckets)
      && (r.Ok? ==> View(r.value) == View(s)[tick := Joined(View(s), tick, anchor, shares, notional, count)])
      && (r.Err? && tick !in View(s) ==> |View(s)| >= maxBuckets)
      && (r.Err? && tick in View(s) && Value(s) < U128 ==>
            var b := Joined(View(s), tick, anchor, shares, notional, count);
            b.shares >= U128 || b.notional >= U128 || b.count >= U64)
  {
    hide InsertOrMerge, Inv, View;
    InsertOrMergeRefines(s, tick, anchor, shares, notional, count, maxBuckets);
    MergeOutcome(s, tick, anchor, shares, notional, count, maxBuckets);
  }

  lemma MergeOutcome(s: Store, tick: int, anchor: nat, shares: nat, notional: nat, count: nat, maxBuckets: nat)
    requires Inv(s)
    ensures
      var r := InsertOrMerge(s, tick, anchor, shares, notional, count, maxBuckets);
      && (tick in View(s) <==> tick in s.buckets) && |View(s)| == |s.buckets|
      && (tick !in s.buckets && |s.buckets| < maxBuckets ==> r.Ok?)
      && (tick !in s.buckets && |s.buckets| >= maxBuckets ==> r == Err(DormantBucketCapExceeded))
      && (tick in s.buckets && r.Err? ==> r.error == MathOverflow)
  {
    hide ApplyBucket, Inv, View;
    ViewSize(s);
    AppliedBucket(s, tick);
  }

  // ---------------------------------------------------------------- redemptions

  /** What redeeming `burn` of the shares of `b` releases. */
  ghost predicate IsRelease(b: Bucket, burn: nat, receipt: RedeemReceipt) {
    && burn <= b.shares && receipt.burnedShares == burn
    && IsFloor(receipt.redeemable, b.accrued, burn, b.shares)
    && IsFloor(receipt.burnedNotional, b.notional, burn, b.shares)
    && receipt.redeemable <= b.accrued && receipt.burnedNotional <= b.notional
  }

  /** What is left of `b` once `receipt` was released from it. */
  function Left(b: Bucket, receipt: RedeemReceipt): Bucket
    requires receipt.burnedShares <= b.shares && receipt.redeemable <= b.accrued && receipt.burnedNotional <= b.notional
  {
    b.(shares := b.shares - receipt.burnedShares, notional := b.notional - receipt.burnedNotional,
       accrued := b.accrued - receipt.redeemable, count := if b.count > 0 then b.count - 1 else 0)
  }

  lemma RedeemReleases(b: Bucket, burn: nat)
    requires 0 < burn <= b.shares
    ensures
      var (b', receipt) := RedeemFrom(b, burn);
      && IsRelease(b, burn, receipt) && b' == Left(b, receipt)
      && (burn == b.shares ==> b'.accrued == 0 && b'.notional == 0)
  {
    PartBound(b.accrued, burn, b.shares);
    PartBound(b.notional, burn, b.shares);
    FloorIs(FloorDiv(b.accrued, burn, b.shares), b.accrued, burn, b.shares);
    FloorIs(FloorDiv(b.notional, burn, b.shares), b.notional, burn, b.shares);
    hide FloorDiv, IsFloor;
  }

  /** `bs'` is `bs` after `receipt` was released from the bucket at `tick`, which goes with its last share. */
  ghost predicate Released(bs: map<int, Bucket>, bs': map<int, Bucket>, tick: int, burn: nat, receipt: RedeemReceipt) {
    && tick in bs && IsRelease(bs[tick], burn, receipt)
    && (burn < bs[tick].shares ==> bs' == bs[tick := Left(bs[tick], receipt)])
    && (burn == bs[tick].shares ==>
          bs' == bs - {tick} && receipt.redeemable == bs[tick].accrued && receipt.burnedNotional == bs[tick].notional)
  }

  lemma IdealReleases(bs: map<int, Bucket>, tick: int, burn: nat)
    requires burn > 0
    ensures IdealRedeem(bs, tick, burn).Ok? <==> tick in bs && burn <= bs[tick].shares
    ensures IdealRedeem(bs, tick, burn).Ok? ==>
      Released(bs, IdealRedeem(bs, tick, burn).value.0, tick, burn, IdealRedeem(bs, tick, burn).value.1)
  {
    if tick in bs && burn <= bs[tick].shares {
      RedeemReleases(bs[tick], burn);
    }
    hide RedeemFrom, IsFloor;
  }

  /**
    A redemption in any store: it succeeds exactly for shares the bucket has, and releases the
    accrual and the notional in proportion to the shares, rounded down; the last shares take all.
  */
  lemma RedemptionPays(s: Store, tick: int, burn: nat)
    requires Inv(s) && burn > 0
    ensures
      var r := Redeem(s, tick, burn);
      && (r.Ok? ==> Released(View(s), View(r.value.0), tick, burn, r.value.1))
      && (Value(s) < U128 ==> (r.Ok? <==> tick in View(s) && burn <= View(s)[tick].shares))
  {
    hide Redeem, Inv, View, IdealRedeem, Released;
    RedeemRefines(s, tick, burn);
    IdealReleases(View(s), tick, burn);
  }

  // ---------------------------------------------------------------- redeeming in turn

  /** Of `x` over `n` shares, `x'` over `n'` is left: never less per share, and not `rounds / n'` more. */
  ghost predicate Kept(x: nat, n: nat, x': nat, n': nat, rounds: nat) {
    x * n' <= x' * n <= x * n' + rounds * n
  }

  lemma KeptAtFirst(x: nat, n: nat)
    ensures Kept(x, n, x, n, 0)
  {
  }

  /** One redemption keeps what is left per share. */
  lemma ReleaseKeeps(x: nat, burn: nat, n: nat, q: nat)
    requires IsFloor(q, x, burn, n) && q <= x && burn <= n
    ensures Kept(x, n, x - q, n - burn, 1)
  {
    assert (x - q) * n == x * n - q * n;
    assert x * (n - burn) == x * n - x * burn;
  }

  lemma Swap(a: nat, b: nat, c: nat)
    ensures a * b * c == a * c * b
  {
  }

  lemma Spread(a: nat, b: nat, c: nat)
    ensures (a + b) * c == a * c + b * c
  {
  }

  lemma KeptBelow(x: nat, n: nat, y: nat, k: nat, z: nat, j: nat)
    requires 0 < k && x * k <= y * n && y * j <= z * k
    ensures x * j <= z * n
  {
    MulMonotone(x * k, y * n, j);
    MulMonotone(y * j, z * k, n);
    Swap(x, k, j);
    Swap(y, n, j);
    Swap(z, k, n);
    CancelFactorLe(x * j, z * n, k);
  }

  lemma Scaled(a: nat, b: nat, c: nat, m: nat)
    requires a <= b + c
    ensures a * m <= b * m + c * m
  {
    MulMonotone(a, b + c, m);
    Spread(b, c, m);
  }

  /** The second redemption, over the shares the first one started from. */
  lemma KeptAboveScaled(x: nat, n: nat, y: nat, k: nat, z: nat, j: nat, rounds: nat)
    requires j <= k && y * n <= x * k + n && z * k <= y * j + rounds * k
    ensures z * n * k <= x * j * k + rounds * n * k + n * k
  {
    Scaled(y * n, x * k, n, j);
    Scaled(z * k, y * j, rounds * k, n);
    Swap(x, k, j);
    Swap(y, n, j);
    Swap(z, k, n);
    Swap(rounds, k, n);
    MulMonotone(j, k, n);
    Commutes(n, j);
    Commutes(n, k);
  }

  lemma Commutes(a: nat, b: nat)
    ensures a * b == b * a
  {
  }

  lemma CancelSum(z: nat, a: nat, b: nat, c: nat, k: nat)
    requires 0 < k && z * k <= a * k + b * k + c * k
    ensures z <= a + b + c
  {
    Spread(a, b, k);
    Spread(a + b, c, k);
    CancelFactorLe(z, a + b + c, k);
  }

  lemma KeptAbove(x: nat, n: nat, y: nat, k: nat, z: nat, j: nat, rounds: nat)
    requires 0 < k && j <= k && y * n <= x * k + n && z * k <= y * j + rounds * k
    ensures z * n <= x * j + (rounds + 1) * n
  {
    KeptAboveScaled(x, n, y, k, z, j, rounds);
    CancelSum(z * n, x * j, rounds * n, n, k);
    CancelByOne(rounds, n);
  }

  lemma KeptTwice(x: nat, n: nat, y: nat, k: nat, z: nat, j: nat, rounds: nat)
    requires 0 < k && j <= k
    requires Kept(x, n, y, k, 1) && Kept(y, k, z, j, rounds)
    ensures Kept(x, n, z, j, rounds + 1)
  {
    KeptBelow(x, n, y, k, z, j);
    KeptAbove(x, n, y, k, z, j, rounds);
  }

  /**
    Holders who redeem part of a bucket in turn leave the others their part of its accrual and of its
    notional: per share never less than before, and together at most one unit more for each redemption.
  */
  lemma {:induction false} OthersKeepTheirPart(bs: map<int, Bucket>, tick: int, burns: seq<nat>)
    requires tick in bs
    requires forall i :: 0 <= i < |burns| ==> burns[i] > 0
    requires Total(burns) < bs[tick].shares
    ensures
      var r := RedeemInTurn(bs, tick, burns);
      && r.Ok? && tick in r.value.0 && r.value.0 - {tick} == bs - {tick}
      && var (b, b', out) := (bs[tick], r.value.0[tick], r.value.1);
      && b'.shares == b.shares - Total(burns) && out.burnedShares == Total(burns)
      && b'.accrued + out.redeemable == b.accrued && b'.notional + out.burnedNotional == b.notional
      && Kept(b.accrued, b.shares, b'.accrued, b'.shares, |burns|)
      && Kept(b.notional, b.shares, b'.notional, b'.shares, |burns|)
    decreases |burns|
  {
    hide Kept, IsFloor, IdealRedeem;
    var b := bs[tick];
    if burns == [] {
      KeptAtFirst(b.accrued, b.shares);
      KeptAtFirst(b.notional, b.shares);
    } else {
      var rest := burns[1..];
      assert forall i :: 0 <= i < |rest| ==> rest[i] == burns[i + 1];
      IdealReleases(bs, tick, burns[0]);
      var (bs1, receipt) := IdealRedeem(bs, tick, burns[0]).value;
      var b1 := bs1[tick];
      ReleaseKeeps(b.accrued, burns[0], b.shares, receipt.redeemable);
      ReleaseKeeps(b.notional, burns[0], b.shares, receipt.burnedNotional);
      OthersKeepTheirPart(bs1, tick, rest);
      var b2 := RedeemInTurn(bs1, tick, rest).value.0[tick];
      KeptTwice(b.accrued, b.shares, b1.accrued, b1.shares, b2.accrued, b2.shares, |rest|);
      KeptTwice(b.notional, b.shares, b1.notional, b1.shares, b2.notional, b2.shares, |rest|);
      assert bs1 - {tick} == bs - {tick};
    }
  }
}
