/** What distributions and redemptions mean for the holders: sums of floors, fair shares, monotone claims. */
module DormantClaims {
  import opened Wrappers
  import opened MoleMath
  import opened Clearing
  import opened Sums
  import opened Dormant
  import opened DormantInvariant
  import DormantRefinement

  // ---------------------------------------------------------------- sums of floors

  /** The buckets a distribution can pay. */
  ghost function Claimants(d: Direction, bs: map<int, Bucket>, price: nat): set<int> {
    Positive(Outstandings(d, bs, price))
  }

  lemma FullShare(alloc: nat, o: nat, total: nat)
    requires 0 < total <= alloc
    ensures Share(alloc, o, total) == o
  {
    if o > 0 {
      MulMonotone(total, alloc, o);
      assert o * total == total * o;
      QuotientAtLeast(alloc * o, total, o);
    }
  }

  lemma PlainShare(alloc: nat, o: nat, total: nat)
    requires 0 < alloc <= total && 0 < o
    ensures Share(alloc, o, total) == FloorDiv(alloc, o, total)
    ensures Times(o, alloc) < Times(FloorDiv(alloc, o, total), total) + total
  {
    MulMonotone(alloc, total, o);
    assert o * total == total * o;
    FloorDivBounds(alloc, o, total);
    CancelFactorLe(FloorDiv(alloc, o, total), o, total);
  }

  /** The residual of a distribution that does not exceed the claims is below the number of claimants. */
  lemma ResidualBelowClaimants(d: Direction, bs: map<int, Bucket>, price: nat, alloc: nat)
    requires 0 < alloc <= TotalOutstanding(d, bs, price)
    ensures
      var total := TotalOutstanding(d, bs, price);
      alloc - Sum(Shares(d, bs, price, alloc, total)) < |Claimants(d, bs, price)|
  {
    var o, total := Outstandings(d, bs, price), TotalOutstanding(d, bs, price);
    var sh := Shares(d, bs, price, alloc, total);
    var n := |Positive(o)|;
    SharesWithinInput(d, bs, price, alloc);
    forall k | k in o && o[k] > 0
      ensures Times(o[k], alloc) < Times(sh[k], total) + total
    {
      PlainShare(alloc, o[k], total);
    }
    if Positive(o) == {} {
      forall k | k in o
        ensures o[k] == 0
      {
        assert k !in Positive(o);
      }
      SumZero(o);
    }
    hide Share, Outstandings, Shares, Sum, Positive;
    FloorsLower(o, sh, alloc, total);
    assert Times(total, alloc) < Times(Sum(sh), total) + Times(n, total);
    Distribute2(Sum(sh), n, total);
    assert alloc * total == total * alloc;
    CancelFactor(alloc, Sum(sh) + n, total);
  }

  lemma Distribute2(x: nat, y: nat, c: nat)
    ensures (x + y) * c == x * c + y * c
  {
  }

  /** With enough funds every claim is paid in full. */
  lemma EnoughPaysAll(d: Direction, bs: map<int, Bucket>, price: nat, alloc: nat)
    requires 0 < TotalOutstanding(d, bs, price) <= alloc
    ensures
      var total := TotalOutstanding(d, bs, price);
      Shares(d, bs, price, alloc, total) == Outstandings(d, bs, price)
  {
    var total := TotalOutstanding(d, bs, price);
    hide Outstanding, Share, Sum;
    forall k | k in bs
      ensures Shares(d, bs, price, alloc, total)[k] == Outstandings(d, bs, price)[k]
    {
      FullShare(alloc, Outstanding(d, bs[k], price), total);
    }
  }

  /**
    A distribution in either mode: nothing is lost or made, no more is paid than is claimed; below
    the claims the residual is smaller than the number of buckets with a claim, above them every
    claim is met exactly.
  */
  lemma DistributionBounds(s: Store, mode: Mode, price: nat, alloc: nat, cap: nat)
    requires Inv(s) && alloc < U128
    requires Distribute(s, mode, price, alloc, cap).Ok?
    ensures
      var (s', receipt) := Distribute(s, mode, price, alloc, cap).value;
      var total := TotalOutstanding(s.direction, View(s), price);
      && receipt.allotted + receipt.residual == alloc
      && receipt.allotted <= total
      && Value(s') == Value(s) + receipt.allotted
      && (0 < alloc <= total ==> receipt.residual < |Claimants(s.direction, View(s), price)|)
      && (alloc >= total ==> alloc == 0 || receipt.allotted == total)
  {
    DormantRefinement.DistributeRefines(s, mode, price, alloc, cap);
    hide Distribute, View, Inv, ClaimsFit;
    var total := TotalOutstanding(s.direction, View(s), price);
    SharesWithinInput(s.direction, View(s), price, alloc);
    if 0 < alloc <= total {
      ResidualBelowClaimants(s.direction, View(s), price, alloc);
    }
    if alloc >= total > 0 {
      EnoughPaysAll(s.direction, View(s), price, alloc);
    }
  }

  // ---------------------------------------------------------------- redemption

  /** A redemption never lowers what is left per share. */
  lemma RedeemProtectsOthers(b: Bucket, burn: nat)
    requires 0 < burn <= b.shares
    ensures
      var (b', receipt) := RedeemFrom(b, burn);
      && receipt.redeemable * b.shares <= b.accrued * burn
      && b'.accrued * b.shares >= b.accrued * b'.shares
  {
    PartBound(b.accrued, burn, b.shares);
    FloorDivBounds(b.accrued, burn, b.shares);
    var v := FloorDiv(b.accrued, burn, b.shares);
    assert (b.accrued - v) * b.shares == b.accrued * b.shares - v * b.shares;
    assert b.accrued * (b.shares - burn) == b.accrued * b.shares - b.accrued * burn;
  }

  function Total(xs: seq<nat>): nat {
    if xs == [] then 0 else xs[0] + Total(xs[1..])
  }

  /** What is released altogether when the holders of one bucket redeem one after the other. */
  function RedeemInTurn(bs: map<int, Bucket>, tick: int, burns: seq<nat>)
    : ClearingResult<(map<int, Bucket>, RedeemReceipt)>
    decreases |burns|
  {
    if burns == [] then Ok((bs, RedeemReceipt(0, 0, 0)))
    else
      var r :- IdealRedeem(bs, tick, burns[0]);
      var rest :- RedeemInTurn(r.0, tick, burns[1..]);
      Ok((rest.0, RedeemReceipt(r.1.redeemable + rest.1.redeemable, r.1.burnedShares + rest.1.burnedShares,
                                r.1.burnedNotional + rest.1.burnedNotional)))
  }

  /**
    When all holders of a bucket redeem, in any order and split, and nothing new accrues, no
    redemption fails, together they receive exactly what the bucket had accrued, its whole notional is
    burned, and it is gone.
  */
  lemma {:induction false} HoldersReceiveEverything(bs: map<int, Bucket>, tick: int, burns: seq<nat>)
    requires tick in bs && burns != []
    requires forall i :: 0 <= i < |burns| ==> burns[i] > 0
    requires Total(burns) == bs[tick].shares
    ensures RedeemInTurn(bs, tick, burns) == 
      Ok((bs - {tick}, RedeemReceipt(bs[tick].accrued, bs[tick].shares, bs[tick].notional)))
    decreases |burns|
  {
    var b, rest := bs[tick], burns[1..];
    assert 0 < burns[0] <= b.shares;
    DormantRefinement.RedeemShrinks(b, burns[0]);
    hide RedeemFrom;
    var (b', receipt) := RedeemFrom(b, burns[0]);
    if rest == [] {
      assert Total(rest) == 0;
      assert RedeemInTurn(bs - {tick}, tick, rest) == Ok((bs - {tick}, RedeemReceipt(0, 0, 0)));
    } else {
      assert forall i :: 0 <= i < |rest| ==> rest[i] == burns[i + 1];
      assert Total(rest) == b'.shares;
      assert rest[0] <= Total(rest);
      var bs' := bs[tick := b'];
      HoldersReceiveEverything(bs', tick, rest);
      assert bs' - {tick} == bs - {tick};
    }
  }

  // ---------------------------------------------------------------- monotone claims

  lemma FloorMonotone(x: nat, m: nat, n: nat, d: nat)
    requires d > 0 && m <= n
    ensures FloorDiv(x, m, d) <= FloorDiv(x, n, d)
  {
    MulMonotone(m, n, x);
    assert x * m == m * x && x * n == n * x;
    FloorDivBounds(x, m, d);
    QuotientAtLeast(x * n, d, FloorDiv(x, m, d));
  }

  /** `q` is at least as favourable to direction `d` as `p`. */
  predicate AtLeastAsGood(d: Direction, p: nat, q: nat) {
    if d.Long? then p <= q else q <= p
  }

  /** A claim never falls when the price moves in its favour, whatever is floored, saturated or activated. */
  lemma ClaimMonotone(d: Direction, b: Bucket, p: nat, q: nat)
    requires AtLeastAsGood(d, p, q)
    ensures Intrinsic(d, b, p) <= Intrinsic(d, b, q)
    ensures Outstanding(d, b, p) <= Outstanding(d, b, q)
  {
    if b.anchor > 0 && Activated(d, b.anchor, p) {
      if d.Long? {
        FloorMonotone(b.notional, p - b.anchor, q - b.anchor, b.anchor);
      } else {
        FloorMonotone(b.notional, b.anchor - p, b.anchor - q, b.anchor);
      }
    }
  }

  /** So over all buckets together. */
  lemma ClaimsMonotone(d: Direction, bs: map<int, Bucket>, p: nat, q: nat)
    requires AtLeastAsGood(d, p, q)
    ensures TotalOutstanding(d, bs, p) <= TotalOutstanding(d, bs, q)
  {
    hide Outstanding, Sum;
    forall k | k in bs
      ensures Outstandings(d, bs, p)[k] <= Outstandings(d, bs, q)[k]
    {
      ClaimMonotone(d, bs[k], p, q);
    }
    SumMonotone(Outstandings(d, bs, p), Outstandings(d, bs, q));
  }
}
