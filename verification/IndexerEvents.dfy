/** Each kind of event, replayed by the indexer, has the effect the engine operation had. */
module IndexerEvents {
  import opened Wrappers
  import opened MoleMath
  import opened Clearing
  import opened Sums
  import opened Dormant
  import DormantRefinement
  import opened Engine
  import opened Holdings
  import opened ChainMirror
  import opened Indexer
  import opened IndexerViews

  // ---------------------------------------------------------------- active holders

  /** Active views of a side hold no more than its shares. */
  ghost predicate ActiveWithin(x: State, id: nat, d: Direction, total: nat) {
    forall i :: i in x.positions && IsActive(x.positions[i], id, d, SubPoolAt(x, id).Side(d).generation)
      ==> x.positions[i].active <= total
  }

  lemma GainIs(v: PositionView, inflow: nat, total: nat)
    requires 0 < total && v.active <= total && inflow < U128
    ensures
      var r := Gained(v, inflow, total);
      && (v.profit + inflow < U128 ==> r.Ok?)
      && (r.Ok? ==> r.value == v.(profit := r.value.profit) && r.value.profit <= v.profit + inflow)
  {
    PartBound(inflow, v.active, total);
    hide FloorDiv;
  }

  lemma LossIs(v: PositionView, outflow: nat, total: nat)
    requires 0 < total && v.active <= total && outflow < U128 && v.lockedLoss <= v.principal < U128
    ensures
      var r := Lost(v, outflow, total);
      && r.Ok?
      && r.value == v.(profit := r.value.profit, lockedLoss := r.value.lockedLoss)
      && r.value.profit <= v.profit && r.value.lockedLoss <= v.principal
  {
    PartBound(outflow, v.active, total);
    hide FloorDiv;
  }

  /** Crediting active holders touches their profit only, and overflows only when a profit does. */
  lemma ActiveProfitIs(x: State, id: nat, d: Direction, inflow: nat, total: nat, bound: nat)
    requires 0 < total && inflow < U128 && ActiveWithin(x, id, d, total) && MoneyOk(x) && ProfitsWithin(x, bound)
    ensures
      var r := ActiveProfit(x, id, d, inflow, total);
      && (r.Err? ==> r.error == IndexerOverflow)
      && (bound + inflow < U128 ==> r.Ok?)
      && (r.Ok? ==>
            && OnlyMoney(x, r.value, id) && r.value.buckets == x.buckets && MoneyOk(r.value)
            && ProfitsWithin(r.value, bound + inflow))
  {
    hide Gained;
    var g := SubPoolAt(x, id).Side(d).generation;
    forall i | i in x.positions && IsActive(x.positions[i], id, d, g)
      ensures bound + inflow < U128 ==> Gained(x.positions[i], inflow, total).Ok?
      ensures
        var r := Gained(x.positions[i], inflow, total);
        r.Ok? ==> r.value == x.positions[i].(profit := r.value.profit) && r.value.profit <= x.positions[i].profit + inflow
    {
      GainIs(x.positions[i], inflow, total);
    }
    forall j: nat
      ensures SubPoolAt(Touch(x, id), j) == SubPoolAt(x, j)
    {
      TouchSame(x, id, j);
    }
  }

  /** Charging active holders never fails. */
  lemma ActiveLossIs(x: State, id: nat, d: Direction, outflow: nat, total: nat, bound: nat)
    requires 0 < total && outflow < U128 && ActiveWithin(x, id, d, total) && MoneyOk(x) && ProfitsWithin(x, bound)
    ensures
      var r := ActiveLoss(x, id, d, outflow, total);
      && r.Ok?
      && OnlyMoney(x, r.value, id) && r.value.buckets == x.buckets && MoneyOk(r.value)
      && ProfitsWithin(r.value, bound)
  {
    var g := SubPoolAt(x, id).Side(d).generation;
    forall i | i in x.positions && IsActive(x.positions[i], id, d, g)
      ensures
        var r := Lost(x.positions[i], outflow, total);
        && r.Ok? && r.value == x.positions[i].(profit := r.value.profit, lockedLoss := r.value.lockedLoss)
        && r.value.profit <= x.positions[i].profit && r.value.lockedLoss <= x.positions[i].principal
    {
      LossIs(x.positions[i], outflow, total);
    }
    hide Lost;
    forall j: nat
      ensures SubPoolAt(Touch(x, id), j) == SubPoolAt(x, j)
    {
      TouchSame(x, id, j);
    }
  }

  // ---------------------------------------------------------------- recovery holders

  /** Claims do not depend on what the indexer does not keep. */
  lemma StrippedClaims(d: Direction, bs: map<int, Bucket>, price: nat)
    ensures ClaimsFit(d, Stripped(bs), price) <==> ClaimsFit(d, bs, price)
    ensures TotalOutstanding(d, Stripped(bs), price) == TotalOutstanding(d, bs, price)
  {
    hide FloorDiv, Sum;
    DormantRefinement.OutstandingsEqual(d, Stripped(bs), bs, price);
  }

  /** The buckets of one side after a distribution, as the indexer computes them. */
  function Distributed(d: Direction, bs: map<int, Bucket>, price: nat, amount: nat, total: nat): map<int, Bucket> {
    map t | t in bs :: bs[t].(accrued := bs[t].accrued + BucketPart(bs[t], d, price, amount, total))
  }

  /** The ledger-free store credits the same amounts. */
  lemma DistributedIsIdeal(d: Direction, vb: map<int, Bucket>, price: nat, amount: nat, vb': map<int, Bucket>, receipt: Receipt)
    requires 0 < amount && IdealDistribute(d, vb, price, amount) == Ok((vb', receipt))
    requires forall t :: t in vb ==> vb[t].shares > 0
    ensures ClaimsFit(d, vb, price)
    ensures
      var total := TotalOutstanding(d, vb, price);
      && (total == 0 ==> vb' == vb)
      && (total > 0 ==> Stripped(vb') == Distributed(d, Stripped(vb), price, amount, total))
  {
    hide ClaimsFit, TotalOutstanding, Share, Outstanding, Sum;
    var total := TotalOutstanding(d, vb, price);
    if total > 0 {
      IdealCredit(d, vb, price, amount);
      hide IdealDistribute;
      SameCredits(d, vb, price, amount, total, vb');
    }
  }

  lemma IdealCredit(d: Direction, vb: map<int, Bucket>, price: nat, amount: nat)
    requires 0 < amount && ClaimsFit(d, vb, price) && TotalOutstanding(d, vb, price) > 0
    ensures
      var total, r := TotalOutstanding(d, vb, price), IdealDistribute(d, vb, price, amount);
      && r.Ok? && r.value.0.Keys == vb.Keys
      && (forall t :: t in vb ==>
            r.value.0[t] == vb[t].(accrued := vb[t].accrued + Share(amount, Outstanding(d, vb[t], price), total)))
  {
    SharesWithinInput(d, vb, price, amount);
    hide ClaimsFit, TotalOutstanding, Share, Outstanding, Sum;
    var r := IdealDistribute(d, vb, price, amount);
    assert r.value.0.Keys == vb.Keys;
  }

  lemma SameCredits(d: Direction, vb: map<int, Bucket>, price: nat, amount: nat, total: nat, vb': map<int, Bucket>)
    requires vb'.Keys == vb.Keys
    requires forall t :: t in vb ==> vb[t].shares > 0
    requires forall t :: t in vb ==>
      vb'[t] == vb[t].(accrued := vb[t].accrued + Share(amount, Outstanding(d, vb[t], price), total))
    ensures Stripped(vb') == Distributed(d, Stripped(vb), price, amount, total)
  {
    hide Share, Outstanding, BucketPart;
    var left, right := Stripped(vb'), Distributed(d, Stripped(vb), price, amount, total);
    assert left.Keys == right.Keys;
    forall t | t in vb
      ensures left[t] == right[t]
    {
      SamePart(d, vb[t], price, amount, total);
    }
  }

  lemma SamePart(d: Direction, b: Bucket, price: nat, amount: nat, total: nat)
    requires b.shares > 0
    ensures BucketPart(b.(count := 0, applied := 0), d, price, amount, total) == Share(amount, Outstanding(d, b, price), total)
  {
    hide FloorDiv, Share;
  }

  /** Resting views hold no more than their bucket's shares. */
  ghost predicate RestsWithin(x: State, id: nat, d: Direction) {
    forall i :: i in x.positions && HomeKey(x.positions[i]) in x.buckets && x.positions[i].subPool == id
                && x.positions[i].direction == d && RestsIn(x.positions[i], HomeKey(x.positions[i]))
      ==> x.positions[i].recovery <= x.buckets[HomeKey(x.positions[i])].shares
  }

  lemma PartWithin(b: Bucket, d: Direction, price: nat, amount: nat, total: nat)
    requires total > 0 && Outstanding(d, b, price) <= total
    ensures BucketPart(b, d, price, amount, total) <= amount
  {
    PartBound(amount, Outstanding(d, b, price), total);
    hide FloorDiv, Outstanding;
  }

  lemma RestGainIs(v: PositionView, b: Bucket, part: nat)
    requires 0 < b.shares && v.recovery <= b.shares
    ensures RestGain(v, b, part) <= part
  {
    PartBound(part, v.recovery, b.shares);
    hide FloorDiv;
  }

  /** The position rests in a bucket of this side that has shares. */
  predicate AtHome(x: State, v: PositionView, id: nat, d: Direction) {
    var k := HomeKey(v);
    k in x.buckets && k.subPool == id && k.direction == d && RestsIn(v, k) && x.buckets[k].shares > 0
  }

  lemma RestedUnfolds(x: State, v: PositionView, id: nat, d: Direction, price: nat, amount: nat, total: nat)
    ensures
      var v' := RestedPosition(x, v, id, d, price, amount, total);
      && (!AtHome(x, v, id, d) ==> v' == v)
      && (AtHome(x, v, id, d) ==>
            var b := AsBucket(x.buckets[HomeKey(v)]);
            v' == v.(profit := v.profit + RestGain(v, b, BucketPart(b, d, price, amount, total))))
  {
    hide RestGain, BucketPart;
  }

  lemma HomePart(x: State, v: PositionView, id: nat, d: Direction, price: nat, amount: nat, total: nat)
    requires AtHome(x, v, id, d) && total > 0
    requires total == TotalOutstanding(d, SideBuckets(x, id, d), price)
    ensures BucketPart(AsBucket(x.buckets[HomeKey(v)]), d, price, amount, total) <= amount
  {
    var k := HomeKey(v);
    var b := AsBucket(x.buckets[k]);
    SideBucketsAt(x, id, d, k.tick);
    assert k == Key(id, d, k.tick);
    hide Outstanding, BucketPart, SideBuckets, Sum;
    SumAtLeast(Outstandings(d, SideBuckets(x, id, d), price), k.tick);
    PartWithin(b, d, price, amount, total);
  }

  lemma RestedIs(x: State, i: nat, id: nat, d: Direction, price: nat, amount: nat, total: nat)
    requires i in x.positions && RestsWithin(x, id, d) && total > 0
    requires total == TotalOutstanding(d, SideBuckets(x, id, d), price)
    ensures
      var v := x.positions[i];
      var v' := RestedPosition(x, v, id, d, price, amount, total);
      v' == v.(profit := v'.profit) && v'.profit <= v.profit + amount && (v.subPool != id ==> v' == v)
  {
    hide RestedPosition, RestGain, BucketPart, SideBuckets, TotalOutstanding;
    var v := x.positions[i];
    RestedUnfolds(x, v, id, d, price, amount, total);
    if AtHome(x, v, id, d) {
      var b := AsBucket(x.buckets[HomeKey(v)]);
      HomePart(x, v, id, d, price, amount, total);
      assert v.recovery <= b.shares;
      RestGainIs(v, b, BucketPart(b, d, price, amount, total));
      assert v.subPool == id;
    }
    var v' := RestedPosition(x, v, id, d, price, amount, total);
    assert v' == v.(profit := v'.profit);
    assert v'.profit <= v.profit + amount;
  }

  /** The steps of `RecoveryProfit`. */
  lemma RecoveryUnfolds(x: State, id: nat, d: Direction, amount: nat, price: nat)
    ensures
      var r := RecoveryProfit(x, id, d, amount, price);
      var total := TotalOutstanding(d, SideBuckets(x, id, d), price);
      ClaimsFit(d, SideBuckets(x, id, d), price) ==>
        && (total == 0 ==> r == Ok(x))
        && (total > 0 ==>
              var ps, bs := RestedViews(x, id, d, amount, price, total), CreditedViews(x, id, d, amount, price, total);
              && (r.Err? ==> r.error == IndexerOverflow)
              && (r.Ok? ==> r.value == x.(positions := ps, buckets := bs))
              && ((forall i :: i in ps ==> ps[i].profit < U128) && (forall k :: k in bs && k.subPool == id && k.direction == d ==> bs[k].accrued < U128) ==> r.Ok?))
  {
    hide ClaimsFit, TotalOutstanding, RestedPosition, BucketPart, SideBuckets;
  }

  lemma CreditedSide(x: State, id: nat, d: Direction, amount: nat, price: nat, total: nat)
    ensures
      var x' := x.(buckets := CreditedViews(x, id, d, amount, price, total));
      SideBuckets(x', id, d) == Distributed(d, SideBuckets(x, id, d), price, amount, total)
  {
    hide BucketPart;
    var x' := x.(buckets := CreditedViews(x, id, d, amount, price, total));
    var got, want := SideBuckets(x', id, d), Distributed(d, SideBuckets(x, id, d), price, amount, total);
    forall t | t in want
      ensures t in got && got[t] == want[t]
    {
      SideBucketsAt(x, id, d, t);
      SideBucketsAt(x', id, d, t);
    }
    forall t | t in got
      ensures t in want
    {
      SideBucketsAt(x, id, d, t);
      SideBucketsAt(x', id, d, t);
    }
  }

  lemma CreditedFit(x: State, id: nat, d: Direction, amount: nat, price: nat, total: nat)
    requires forall t :: t in Distributed(d, SideBuckets(x, id, d), price, amount, total) ==>
      Distributed(d, SideBuckets(x, id, d), price, amount, total)[t].accrued < U128
    ensures forall k :: k in CreditedViews(x, id, d, amount, price, total) && k.subPool == id && k.direction == d ==>
      CreditedViews(x, id, d, amount, price, total)[k].accrued < U128
  {
    hide BucketPart;
    var bs := CreditedViews(x, id, d, amount, price, total);
    forall k | k in bs && k.subPool == id && k.direction == d
      ensures bs[k].accrued < U128
    {
      SideBucketsAt(x, id, d, k.tick);
      assert k == Key(id, d, k.tick);
      assert k.tick in Distributed(d, SideBuckets(x, id, d), price, amount, total);
    }
  }

  lemma RestedMoney(x: State, id: nat, d: Direction, amount: nat, price: nat, total: nat, bound: nat)
    requires RestsWithin(x, id, d) && MoneyOk(x) && ProfitsWithin(x, bound) && total > 0
    requires total == TotalOutstanding(d, SideBuckets(x, id, d), price)
    ensures
      var ps := RestedViews(x, id, d, amount, price, total);
      var x' := x.(positions := ps, buckets := CreditedViews(x, id, d, amount, price, total));
      && OnlyMoney(x, x', id) && MoneyOk(x') && ProfitsWithin(x', bound + amount)
      && (forall i :: i in ps ==> ps[i].profit <= bound + amount)
  {
    forall i | i in x.positions
      ensures
        var v := x.positions[i];
        var v' := RestedViews(x, id, d, amount, price, total)[i];
        && v' == v.(profit := v'.profit) && v'.profit <= v.profit + amount && (v.subPool != id ==> v' == v)
    {
      RestedIs(x, i, id, d, price, amount, total);
    }
    hide RestedPosition, BucketPart, RestsWithin;
  }

  /**
    Replaying a recovery distribution credits each bucket view what the engine credited the bucket,
    and positions only in their profit.
  */
  lemma RecoveryProfitIs(
    x: State, id: nat, d: Direction, amount: nat, price: nat, vb: map<int, Bucket>, vb': map<int, Bucket>, receipt: Receipt,
    bound: nat)
    requires 0 < amount && SideBuckets(x, id, d) == Stripped(vb)
    requires IdealDistribute(d, vb, price, amount) == Ok((vb', receipt))
    requires forall t :: t in vb ==> vb[t].shares > 0
    requires forall t :: t in vb' ==> vb'[t].accrued < U128
    requires RestsWithin(x, id, d) && MoneyOk(x) && ProfitsWithin(x, bound)
    ensures
      var r := RecoveryProfit(x, id, d, amount, price);
      && (r.Err? ==> r.error == IndexerOverflow)
      && (bound + amount < U128 ==> r.Ok?)
      && (r.Ok? ==>
            && OnlyMoney(x, r.value, id) && SideBuckets(r.value, id, d) == Stripped(vb')
            && (forall k: Key :: !(k.subPool == id && k.direction == d) ==>
                  (k in r.value.buckets <==> k in x.buckets) && (k in x.buckets ==> r.value.buckets[k] == x.buckets[k]))
            && MoneyOk(r.value) && ProfitsWithin(r.value, bound + amount))
  {
    var total := TotalOutstanding(d, vb, price);
    DistributedIsIdeal(d, vb, price, amount, vb', receipt);
    StrippedClaims(d, vb, price);
    RecoveryUnfolds(x, id, d, amount, price);
    hide RecoveryProfit, IdealDistribute, ClaimsFit, TotalOutstanding, Distributed, SideBuckets, RestsWithin,
      RestedViews, OnlyMoney, MoneyOk, ProfitsWithin, Stripped;
    if total == 0 {
      SameMoney(x, id, bound, amount);
    } else {
      RestedMoney(x, id, d, amount, price, total, bound);
      CreditedSide(x, id, d, amount, price, total);
      StrippedFit(vb', d, SideBuckets(x, id, d), price, amount, total);
      CreditedFit(x, id, d, amount, price, total);
      PositionsIrrelevant(x, RestedViews(x, id, d, amount, price, total), CreditedViews(x, id, d, amount, price, total), id, d);
    }
  }

  lemma StrippedFit(vb': map<int, Bucket>, d: Direction, bs: map<int, Bucket>, price: nat, amount: nat, total: nat)
    requires forall t :: t in vb' ==> vb'[t].accrued < U128
    requires Stripped(vb') == Distributed(d, bs, price, amount, total)
    ensures forall t :: t in Distributed(d, bs, price, amount, total) ==> Distributed(d, bs, price, amount, total)[t].accrued < U128
  {
    hide BucketPart;
    forall t | t in Distributed(d, bs, price, amount, total)
      ensures Distributed(d, bs, price, amount, total)[t].accrued < U128
    {
      assert t in Stripped(vb');
      assert t in vb';
    }
  }

  lemma PositionsIrrelevant(x: State, ps: map<nat, PositionView>, bs: map<Key, BucketView>, id: nat, d: Direction)
    ensures SideBuckets(x.(positions := ps, buckets := bs), id, d) == SideBuckets(x.(buckets := bs), id, d)
  {
  }

  lemma SameMoney(x: State, id: nat, bound: nat, more: nat)
    requires ProfitsWithin(x, bound)
    ensures OnlyMoney(x, x, id) && ProfitsWithin(x, bound + more)
  {
  }
}
