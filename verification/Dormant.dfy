/**
  The dormant bucket store (crates/clearing-core/src/dormant.rs) as a function of its state.

  A `Store` holds price-anchored buckets, an append-only ledger of distribution events with a
  GC offset, and the in-flight total. `Distribute(.., Eager)` credits buckets at once,
  `Distribute(.., Lazy)` only logs the event; `ApplyKeys` replays logged events later.
*/
module Dormant {
  import opened Wrappers
  import opened MoleMath
  import opened Clearing
  import opened Sums

  /** `applied` is `last_applied_index`: the count of ledger events already in `accrued`. */
  datatype Bucket = Bucket(
    anchor: nat, shares: nat, notional: nat, accrued: nat, count: nat, applied: nat)

  /** One distribution event; `allotted` is `allocated_sum_observed`. */
  datatype DistEntry = DistEntry(
    index: nat, price: nat, outstanding: nat, alloc: nat, allotted: nat)

  datatype Store = Store(
    direction: Direction,
    buckets: map<int, Bucket>,
    accruedTotal: nat,
    ledger: seq<DistEntry>,
    gcOffset: nat,
    nextIndex: nat,
    pendingTotal: nat)

  datatype Receipt = Receipt(allotted: nat, residual: nat)

  datatype RedeemReceipt = RedeemReceipt(redeemable: nat, burnedShares: nat, burnedNotional: nat)

  datatype Mode = Eager | Lazy

  // ---------------------------------------------------------------- claims

  predicate Activated(d: Direction, anchor: nat, price: nat) {
    match d
    case Long => price > anchor
    case Short => price < anchor
  }

  /** The exact intrinsic claim of a bucket, before the 128-bit check. */
  function Intrinsic(d: Direction, b: Bucket, price: nat): nat {
    if b.anchor == 0 || b.notional == 0 || !Activated(d, b.anchor, price) then 0
    else FloorDiv(b.notional, if d.Long? then price - b.anchor else b.anchor - price, b.anchor)
  }

  /** `intrinsic_claim_at`. */
  function IntrinsicClaim(d: Direction, b: Bucket, price: nat): ClearingResult<nat> {
    if Intrinsic(d, b, price) < U128 then Ok(Intrinsic(d, b, price)) else Err(MathOverflow)
  }

  /** Intrinsic claim minus what has already been credited, never negative. */
  function Outstanding(d: Direction, b: Bucket, price: nat): nat {
    if Intrinsic(d, b, price) <= b.accrued then 0 else Intrinsic(d, b, price) - b.accrued
  }

  /** A bucket's slice of `alloc`, capped at its own outstanding claim. */
  function Share(alloc: nat, outstanding: nat, total: nat): (r: nat)
    ensures r <= outstanding
  {
    if outstanding == 0 || total == 0 then 0
    else
      var s := FloorDiv(alloc, outstanding, total);
      if s <= outstanding then s else outstanding
  }

  function Outstandings(d: Direction, bs: map<int, Bucket>, price: nat): map<int, nat> {
    map k | k in bs :: Outstanding(d, bs[k], price)
  }

  ghost function TotalOutstanding(d: Direction, bs: map<int, Bucket>, price: nat): nat {
    Sum(Outstandings(d, bs, price))
  }

  /** No claim and no sum of claims at `price` exceeds 128 bits. */
  ghost predicate ClaimsFit(d: Direction, bs: map<int, Bucket>, price: nat) {
    && (forall k :: k in bs ==> Intrinsic(d, bs[k], price) < U128)
    && TotalOutstanding(d, bs, price) < U128
  }

  /** `total_outstanding_claim_at`. */
  ghost function TotalOutstandingClaim(d: Direction, bs: map<int, Bucket>, price: nat): ClearingResult<nat> {
    if ClaimsFit(d, bs, price) then Ok(TotalOutstanding(d, bs, price)) else Err(MathOverflow)
  }

  function Shares(d: Direction, bs: map<int, Bucket>, price: nat, alloc: nat, total: nat): map<int, nat> {
    map k | k in bs :: Share(alloc, Outstanding(d, bs[k], price), total)
  }

  function Accruals(bs: map<int, Bucket>): map<int, nat> {
    map k | k in bs :: bs[k].accrued
  }

  function BucketShares(bs: map<int, Bucket>): map<int, nat> {
    map k | k in bs :: bs[k].shares
  }

  // ---------------------------------------------------------------- the ledger-free store

  /**
    The same operations on buckets alone: no ledger, no replay, no modes. Every store
    operation is proved to act on `View(store)` exactly like this.
  */
  ghost function IdealDistribute(d: Direction, bs: map<int, Bucket>, price: nat, alloc: nat)
    : ClearingResult<(map<int, Bucket>, Receipt)>
  {
    if alloc == 0 then Ok((bs, Receipt(0, 0)))
    else if !ClaimsFit(d, bs, price) then Err(MathOverflow)
    else
      var total := TotalOutstanding(d, bs, price);
      if total == 0 then Ok((bs, Receipt(0, alloc)))
      else
        var sh := Shares(d, bs, price, alloc, total);
        SharesWithinInput(d, bs, price, alloc);
        Ok((map k | k in bs :: bs[k].(accrued := bs[k].accrued + sh[k]),
            Receipt(Sum(sh), alloc - Sum(sh))))
  }

  function IdealMerge(
    bs: map<int, Bucket>, tick: int, anchor: nat, shares: nat, notional: nat, count: nat, maxBuckets: nat)
    : ClearingResult<map<int, Bucket>>
  {
    if tick in bs then
      var b := bs[tick];
      if b.shares + shares >= U128 || b.notional + notional >= U128 || b.count + count >= U64
      then Err(MathOverflow)
      else
        Ok(bs[tick := b.(shares := b.shares + shares, notional := b.notional + notional, count := b.count + count)])
    else if |bs| >= maxBuckets then Err(DormantBucketCapExceeded)
    else Ok(bs[tick := Bucket(anchor, shares, notional, 0, count, 0)])
  }

  function IdealRedeem(bs: map<int, Bucket>, tick: int, burn: nat)
    : ClearingResult<(map<int, Bucket>, RedeemReceipt)>
  {
    if tick !in bs then Err(Invariant(MissingBucket))
    else if burn == 0 then Ok((bs, RedeemReceipt(0, 0, 0)))
    else if burn > bs[tick].shares then Err(Invariant(ExcessShares))
    else
      var b := bs[tick];
      var (b', receipt) := RedeemFrom(b, burn);
      Ok((if b'.shares == 0 && b'.accrued == 0 then bs - {tick} else bs[tick := b'], receipt))
  }

  /** The bucket left and the amounts released when `burn` shares of `b` are redeemed. */
  function RedeemFrom(b: Bucket, burn: nat): (r: (Bucket, RedeemReceipt))
    requires 0 < burn <= b.shares
  {
    PartBound(b.accrued, burn, b.shares);
    PartBound(b.notional, burn, b.shares);
    var redeemable := FloorDiv(b.accrued, burn, b.shares);
    var notional := FloorDiv(b.notional, burn, b.shares);
    (b.(accrued := b.accrued - redeemable, shares := b.shares - burn, notional := b.notional - notional,
        count := if b.count == 0 then 0 else b.count - 1),
     RedeemReceipt(redeemable, burn, notional))
  }

  /** A part of `x` in proportion `n / d <= 1` does not exceed `x`; it is `x` for the whole. */
  lemma PartBound(x: nat, n: nat, d: nat)
    requires 0 < d && n <= d
    ensures FloorDiv(x, n, d) <= x
    ensures n == d ==> FloorDiv(x, n, d) == x
  {
    MulMonotone(n, d, x);
    assert x * n == n * x && x * d == d * x;
    FloorDivBounds(x, n, d);
    CancelFactorLe(FloorDiv(x, n, d), x, d);
    if n == d {
      FromQuotient(x, d, d, x, 0);
    }
  }

  // ---------------------------------------------------------------- sums of floors

  /** Per-bucket shares never total more than the input. */
  lemma SharesWithinInput(d: Direction, bs: map<int, Bucket>, price: nat, alloc: nat)
    ensures
      var total := TotalOutstanding(d, bs, price);
      var sh := Shares(d, bs, price, alloc, total);
      Sum(sh) <= alloc && Sum(sh) <= total
  {
    var o, total := Outstandings(d, bs, price), TotalOutstanding(d, bs, price);
    var sh := Shares(d, bs, price, alloc, total);
    forall k | k in bs
      ensures sh[k] <= o[k] && (total == 0 ==> sh[k] == 0)
    {
    }
    SumMonotone(sh, o);
    if total == 0 {
      SumZero(sh);
    } else {
      forall k | k in o
        ensures Times(sh[k], total) <= Times(o[k], alloc)
      {
        FloorDivBounds(alloc, o[k], total);
        MulMonotone(sh[k], FloorDiv(alloc, o[k], total), total);
      }
      FloorsUpper(o, sh, alloc, total);
      CancelFactorLe(Sum(sh), alloc, total);
    }
  }

  // ---------------------------------------------------------------- replay

  /** What one logged event still owes a bucket that has not applied it. */
  function EntryShare(d: Direction, b: Bucket, e: DistEntry): nat {
    if e.outstanding == 0 then 0
    else Share(e.alloc, Outstanding(d, b, e.price), e.outstanding)
  }

  function ApplyEntry(d: Direction, b: Bucket, e: DistEntry): Bucket {
    b.(accrued := b.accrued + EntryShare(d, b, e), applied := e.index + 1)
  }

  /** The loop of `apply_pending_to_bucket`: one entry after the other. */
  function Replay(d: Direction, b: Bucket, entries: seq<DistEntry>): Bucket
    decreases |entries|
  {
    if entries == [] then b else Replay(d, ApplyEntry(d, b, entries[0]), entries[1..])
  }

  /** The ledger entries a bucket has not applied yet. */
  function Window(s: Store, b: Bucket): seq<DistEntry> {
    if s.gcOffset <= b.applied < s.gcOffset + |s.ledger| then s.ledger[b.applied - s.gcOffset..] else []
  }

  function CaughtUp(s: Store, b: Bucket): Bucket {
    Replay(s.direction, b, Window(s, b))
  }

  lemma {:induction false} ReplayGrows(d: Direction, b: Bucket, entries: seq<DistEntry>)
    ensures Replay(d, b, entries).accrued >= b.accrued
    decreases |entries|
  {
    if entries == [] {
    } else {
      ReplayGrows(d, ApplyEntry(d, b, entries[0]), entries[1..]);
    }
  }

  /** `pending_for_bucket`. */
  function Pending(s: Store, b: Bucket): nat {
    ReplayGrows(s.direction, b, Window(s, b));
    CaughtUp(s, b).accrued - b.accrued
  }

  function Pendings(s: Store): map<int, nat> {
    map k | k in s.buckets :: Pending(s, s.buckets[k])
  }

  /** Every bucket as it stands once all it is owed has been credited. */
  function View(s: Store): map<int, Bucket> {
    map k | k in s.buckets :: CaughtUp(s, s.buckets[k]).(applied := 0)
  }

  // ---------------------------------------------------------------- operations

  function EmptyStore(d: Direction): Store {
    Store(d, map[], 0, [], 0, 0, 0)
  }

  function Min(a: nat, b: nat): nat {
    if a <= b then a else b
  }

  function SaturatingSub(a: nat, b: nat): nat {
    if a >= b then a - b else 0
  }

  function PendingsOf(s: Store, keys: set<int>): map<int, nat> {
    map k | k in s.buckets && k in keys :: Pending(s, s.buckets[k])
  }

  function CaughtUpAll(s: Store, keys: set<int>): map<int, Bucket> {
    map k | k in s.buckets :: if k in keys then CaughtUp(s, s.buckets[k]) else s.buckets[k]
  }

  /** `apply_pending_to_bucket` for every bucket in `keys`, in any order. */
  ghost function ApplyKeys(s: Store, keys: set<int>): ClearingResult<Store> {
    var delta := Sum(PendingsOf(s, keys));
    if s.accruedTotal + delta >= U128 then Err(MathOverflow)
    else
      Ok(s.(buckets := CaughtUpAll(s, keys),
            accruedTotal := s.accruedTotal + delta,
            pendingTotal := SaturatingSub(s.pendingTotal, delta)))
  }

  ghost function ApplyBucket(s: Store, tick: int): ClearingResult<Store> {
    ApplyKeys(s, {tick})
  }

  /** `apply_pending_to_all`. */
  ghost function ApplyAll(s: Store): ClearingResult<Store> {
    ApplyKeys(s, s.buckets.Keys)
  }

  /** The least `applied` index, or `limit` when there are no buckets. */
  ghost function Watermark(bs: map<int, Bucket>, limit: nat): (w: nat)
    ensures w <= limit
    ensures forall k :: k in bs ==> w <= bs[k].applied
    ensures w == limit || exists k :: k in bs && bs[k].applied == w
    decreases |bs|
  {
    if bs == map[] then limit
    else
      var k := AnyKey(bs);
      var w := Watermark(bs - {k}, limit);
      assert forall j :: j in bs ==> j == k || j in bs - {k};
      if bs[k].applied < w then bs[k].applied else w
  }

  /** `compact_ledger`. */
  ghost function Compact(s: Store): Store {
    var w := Watermark(s.buckets, s.nextIndex);
    if w <= s.gcOffset then s
    else
      var drop := Min(w - s.gcOffset, |s.ledger|);
      s.(ledger := s.ledger[drop..], gcOffset := s.gcOffset + drop)
  }

  /** `insert_or_merge`. */
  ghost function InsertOrMerge(
    s: Store, tick: int, anchor: nat, shares: nat, notional: nat, count: nat, maxBuckets: nat)
    : ClearingResult<Store>
  {
    if tick in s.buckets then
      var s1 :- ApplyBucket(s, tick);
      AddToBucket(s1, tick, shares, notional, count)
    else if |s.buckets| >= maxBuckets then Err(DormantBucketCapExceeded)
    else
      Ok(s.(buckets := s.buckets[tick := Bucket(anchor, shares, notional, 0, count, s.nextIndex)]))
  }

  /** The merge into an existing, drained bucket. */
  function AddToBucket(s: Store, tick: int, shares: nat, notional: nat, count: nat): ClearingResult<Store>
    requires tick in s.buckets
  {
    var b := s.buckets[tick];
    if b.shares + shares >= U128 || b.notional + notional >= U128 || b.count + count >= U64
    then Err(MathOverflow)
    else
      Ok(s.(buckets := s.buckets[tick :=
        b.(shares := b.shares + shares, notional := b.notional + notional, count := b.count + count)]))
  }

  function ActiveKeys(d: Direction, bs: map<int, Bucket>, price: nat): set<int> {
    set k | k in bs && Activated(d, bs[k].anchor, price)
  }

  function ActivatedKeys(s: Store, price: nat): set<int> {
    ActiveKeys(s.direction, s.buckets, price)
  }

  /** The capacity check at the top of both distributions. */
  ghost function MakeRoom(s: Store, cap: nat): ClearingResult<Store> {
    var s1 := if |s.ledger| >= cap then Compact(s) else s;
    if |s1.ledger| >= cap then Err(LedgerCapacityExceeded) else Ok(s1)
  }

  ghost function AppendEntry(s: Store, e: DistEntry): Store {
    s.(ledger := s.ledger + [e], nextIndex := s.nextIndex + 1)
  }

  /** The store once room is made and the activated buckets are brought up to date. */
  ghost function Prepared(s: Store, price: nat, cap: nat): ClearingResult<Store> {
    var s1 :- MakeRoom(s, cap);
    ApplyKeys(s1, ActivatedKeys(s1, price))
  }

  /** `distribute` (Eager) and `distribute_lazy` (Lazy). */
  ghost function Distribute(s: Store, mode: Mode, price: nat, alloc: nat, cap: nat)
    : ClearingResult<(Store, Receipt)>
  {
    if alloc == 0 then Ok((s, Receipt(0, 0)))
    else
      var s2 :- Prepared(s, price, cap);
      PayOut(s2, mode, price, alloc)
  }

  /** The distribution on a prepared store. */
  ghost function PayOut(s: Store, mode: Mode, price: nat, alloc: nat): ClearingResult<(Store, Receipt)> {
    if !ClaimsFit(s.direction, s.buckets, price) then Err(MathOverflow)
    else
      var total := TotalOutstanding(s.direction, s.buckets, price);
      if total == 0 then Ok((s, Receipt(0, alloc)))
      else
        SharesWithinInput(s.direction, s.buckets, price, alloc);
        var sum := Sum(Shares(s.direction, s.buckets, price, alloc, total));
        if s.nextIndex + 1 >= U64 then Err(MathOverflow)
        else if (if mode.Eager? then s.accruedTotal else s.pendingTotal) + sum >= U128 then Err(MathOverflow)
        else Ok((Logged(s, mode, price, alloc), Receipt(sum, alloc - sum)))
  }

  /** The store after a distribution that found something to pay. */
  ghost function Logged(s: Store, mode: Mode, price: nat, alloc: nat): Store {
    var total := TotalOutstanding(s.direction, s.buckets, price);
    var sh := Shares(s.direction, s.buckets, price, alloc, total);
    var entry := DistEntry(s.nextIndex, price, total, alloc, Sum(sh));
    match mode
    case Eager => AppendEntry(CreditActivated(s, price, sh, Sum(sh)), entry)
    case Lazy => AppendEntry(s, entry).(pendingTotal := s.pendingTotal + Sum(sh))
  }

  /** `bs` with the buckets in `keys` credited their share and moved to replay index `applied`. */
  function CreditKeys(bs: map<int, Bucket>, keys: set<int>, sh: map<int, nat>, applied: nat): map<int, Bucket>
    requires sh.Keys == bs.Keys
  {
    map k | k in bs :: if k in keys then bs[k].(accrued := bs[k].accrued + sh[k], applied := applied) else bs[k]
  }

  /** The eager credit: only activated buckets are touched, and only they move past the new event. */
  ghost function CreditActivated(s: Store, price: nat, sh: map<int, nat>, sum: nat): Store
    requires sh.Keys == s.buckets.Keys
  {
    s.(buckets := CreditKeys(s.buckets, ActivatedKeys(s, price), sh, s.nextIndex + 1),
       accruedTotal := s.accruedTotal + sum)
  }

  /** `redeem`. */
  ghost function Redeem(s: Store, tick: int, burn: nat): ClearingResult<(Store, RedeemReceipt)> {
    var s1 :- ApplyBucket(s, tick);
    RedeemDrained(s1, tick, burn)
  }

  /** The redemption from a drained bucket. */
  function RedeemDrained(s: Store, tick: int, burn: nat): ClearingResult<(Store, RedeemReceipt)> {
    if tick !in s.buckets then Err(Invariant(MissingBucket))
    else if burn == 0 then Ok((s, RedeemReceipt(0, 0, 0)))
    else if burn > s.buckets[tick].shares then Err(Invariant(ExcessShares))
    else
      var (b, receipt) := RedeemFrom(s.buckets[tick], burn);
      if receipt.redeemable > s.accruedTotal then Err(MathOverflow)
      else
        var bs := if b.shares == 0 && b.accrued == 0 then s.buckets - {tick} else s.buckets[tick := b];
        Ok((s.(buckets := bs, accruedTotal := s.accruedTotal - receipt.redeemable), receipt))
  }

  // ---------------------------------------------------------------- the run-time check

  function TotalAllotted(ledger: seq<DistEntry>): nat {
    if ledger == [] then 0 else ledger[0].allotted + TotalAllotted(ledger[1..])
  }

  /** Everything `check_invariants` compares, when no sum overflows. */
  ghost predicate Consistent(s: Store) {
    && (forall k :: k in s.buckets ==> s.gcOffset <= s.buckets[k].applied <= s.nextIndex)
    && s.accruedTotal == Sum(Accruals(s.buckets))
    && s.nextIndex == s.gcOffset + |s.ledger|
    && s.pendingTotal <= TotalAllotted(s.ledger)
  }

  /** The checked sums of `check_invariants` stay below 2^128. */
  ghost predicate Summable(s: Store) {
    Sum(Accruals(s.buckets)) < U128 && TotalAllotted(s.ledger) < U128
  }

  /** `check_invariants`; its several messages are one here. */
  ghost function CheckStore(s: Store): ClearingResult<()> {
    if !Consistent(s) then Err(Invariant(StoreDrift))
    else if !Summable(s) then Err(MathOverflow)
    else Ok(())
  }

  /** The total of a ledger window, checked. */
  method WindowTotal(entries: seq<DistEntry>) returns (r: ClearingResult<nat>)
    ensures r == if TotalAllotted(entries) < U128 then Ok(TotalAllotted(entries)) else Err(MathOverflow)
  {
    var total := 0;
    var i := 0;
    assert entries[0..] == entries;
    while i < |entries|
      invariant 0 <= i <= |entries|
      invariant total + TotalAllotted(entries[i..]) == TotalAllotted(entries)
      invariant total < U128
    {
      assert entries[i..][1..] == entries[i + 1..];
      if total + entries[i].allotted >= U128 {
        return Err(MathOverflow);
      }
      total := total + entries[i].allotted;
      i := i + 1;
    }
    return Ok(total);
  }
}
