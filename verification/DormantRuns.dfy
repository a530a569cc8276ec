/**
  Runs of the dormant store. Any run, in any mix of modes with replays and compactions in between,
  is a run of the ledger-free store; so eager and lazy runs of the same operations agree.
*/
module DormantRuns {
  import opened Wrappers
  import opened MoleMath
  import opened Clearing
  import opened Sums
  import opened Dormant
  import opened DormantInvariant
  import opened DormantRefinement

  datatype Op =
    | Merge(tick: int, anchor: nat, shares: nat, notional: nat, count: nat, maxBuckets: nat)
    | Dist(mode: Mode, price: nat, alloc: nat, cap: nat)
    | Burn(tick: int, amount: nat)
    | Touch(keys: set<int>)
    | Gc

  /** What a caller sees of one operation. */
  datatype Outcome =
    | Merged
    | Distributed(receipt: Receipt)
    | Redeemed(paid: RedeemReceipt)
    | Silent
    | Failed(error: ClearingError)

  predicate ValidOp(op: Op) {
    match op
    case Merge(_, anchor, shares, notional, count, _) => anchor < U64 && shares < U128 && notional < U128 && count < U64
    case Dist(_, price, alloc, _) => price < U64 && alloc < U128
    case Burn(_, amount) => amount < U128
    case _ => true
  }

  /** One operation; a failed one leaves the store as it was (callers restore their snapshot). */
  ghost function Step(s: Store, op: Op): (Store, Outcome) {
    match op
    case Merge(tick, anchor, shares, notional, count, maxBuckets) =>
      (match InsertOrMerge(s, tick, anchor, shares, notional, count, maxBuckets)
       case Ok(s') => (s', Merged)
       case Err(e) => (s, Failed(e)))
    case Dist(mode, price, alloc, cap) =>
      (match Distribute(s, mode, price, alloc, cap)
       case Ok((s', receipt)) => (s', Distributed(receipt))
       case Err(e) => (s, Failed(e)))
    case Burn(tick, amount) =>
      (match Redeem(s, tick, amount)
       case Ok((s', receipt)) => (s', Redeemed(receipt))
       case Err(e) => (s, Failed(e)))
    case Touch(keys) =>
      (match ApplyKeys(s, keys)
       case Ok(s') => (s', Silent)
       case Err(e) => (s, Failed(e)))
    case Gc => (Compact(s), Silent)
  }

  /** The same operation on the ledger-free store. */
  ghost function IdealStep(d: Direction, bs: map<int, Bucket>, op: Op): (map<int, Bucket>, Outcome) {
    match op
    case Merge(tick, anchor, shares, notional, count, maxBuckets) =>
      (match IdealMerge(bs, tick, anchor, shares, notional, count, maxBuckets)
       case Ok(bs') => (bs', Merged)
       case Err(e) => (bs, Failed(e)))
    case Dist(_, price, alloc, _) =>
      (match IdealDistribute(d, bs, price, alloc)
       case Ok((bs', receipt)) => (bs', Distributed(receipt))
       case Err(e) => (bs, Failed(e)))
    case Burn(tick, amount) =>
      (match IdealRedeem(bs, tick, amount)
       case Ok((bs', receipt)) => (bs', Redeemed(receipt))
       case Err(e) => (bs, Failed(e)))
    case Touch(_) => (bs, Silent)
    case Gc => (bs, Silent)
  }

  /** What an operation brings into the store, and how many events it may log. */
  function Spend(op: Op): nat {
    if op.Dist? then op.alloc else 0
  }

  function MayLog(op: Op): nat {
    if op.Dist? then 1 else 0
  }

  /** The totals and the event counter have room for `value` more units and `events` more events. */
  predicate Affords(s: Store, value: nat, events: nat) {
    Value(s) + value < U128 && s.nextIndex + events < U64
  }

  lemma IndexMoves(s: Store, op: Op)
    ensures s.nextIndex <= Step(s, op).0.nextIndex <= s.nextIndex + MayLog(op)
  {
    hide PendingsOf, CaughtUpAll, TotalOutstanding, ClaimsFit, Shares, Sum, Watermark, RedeemFrom;
  }

  /**
    Unless it is turned away for lack of ledger room, an operation does to the view what the
    ledger-free store does and reports the same: its receipt, its payout or its error. Only an
    overflow needs the store to afford the operation.
  */
  lemma StepRefines(s: Store, op: Op)
    requires Inv(s) && ValidOp(op)
    ensures
      var (s', out) := Step(s, op);
      && Inv(s') && s'.direction == s.direction
      && Value(s') <= Value(s) + Spend(op)
      && (out != Failed(LedgerCapacityExceeded) && (out == Failed(MathOverflow) ==> Affords(s, Spend(op), MayLog(op))) ==>
            IdealStep(s.direction, View(s), op) == (View(s'), out))
  {
    hide InsertOrMerge, Distribute, Redeem, ApplyKeys, Compact, IdealMerge, IdealDistribute, IdealRedeem, View, Inv;
    match op
    case Merge(tick, anchor, shares, notional, count, maxBuckets) =>
      InsertOrMergeRefines(s, tick, anchor, shares, notional, count, maxBuckets);
    case Dist(mode, price, alloc, cap) =>
      DistributeRefines(s, mode, price, alloc, cap);
    case Burn(tick, amount) =>
      RedeemRefines(s, tick, amount);
    case Touch(keys) =>
      ApplyKeysRefines(s, keys);
    case Gc =>
      CompactRefines(s);
  }

  ghost function Run(s: Store, ops: seq<Op>): (Store, seq<Outcome>)
    decreases |ops|
  {
    if ops == [] then (s, [])
    else
      var (s1, out) := Step(s, ops[0]);
      var (s2, outs) := Run(s1, ops[1..]);
      (s2, [out] + outs)
  }

  ghost function IdealRun(d: Direction, bs: map<int, Bucket>, ops: seq<Op>): (map<int, Bucket>, seq<Outcome>)
    decreases |ops|
  {
    if ops == [] then (bs, [])
    else
      var (bs1, out) := IdealStep(d, bs, ops[0]);
      var (bs2, outs) := IdealRun(d, bs1, ops[1..]);
      (bs2, [out] + outs)
  }

  /** An operation without its mode and ledger capacity. */
  function Plain(op: Op): Op {
    if op.Dist? then op.(mode := Eager, cap := 0) else op
  }

  /** The operations a caller issued: no replays, no compactions, no mode and no ledger capacity. */
  function Issued(ops: seq<Op>): seq<Op>
    decreases |ops|
  {
    if ops == [] then []
    else if ops[0].Touch? || ops[0].Gc? then Issued(ops[1..])
    else [Plain(ops[0])] + Issued(ops[1..])
  }

  /** What the caller saw: the outcomes of the issued operations. */
  function Seen(outs: seq<Outcome>): seq<Outcome>
    decreases |outs|
  {
    if outs == [] then []
    else if outs[0].Silent? then Seen(outs[1..])
    else [outs[0]] + Seen(outs[1..])
  }

  predicate ValidOps(ops: seq<Op>) {
    forall i :: 0 <= i < |ops| ==> ValidOp(ops[i])
  }

  /** No operation was turned away for lack of ledger room. */
  predicate NeverFull(outs: seq<Outcome>) {
    forall i :: 0 <= i < |outs| ==> outs[i] != Failed(LedgerCapacityExceeded)
  }

  /** No operation overflowed. */
  predicate Fitted(outs: seq<Outcome>) {
    forall i :: 0 <= i < |outs| ==> outs[i] != Failed(MathOverflow)
  }

  /** All that a run distributes, and how many events it may log. */
  function Budget(ops: seq<Op>): nat
    decreases |ops|
  {
    if ops == [] then 0 else Spend(ops[0]) + Budget(ops[1..])
  }

  function Events(ops: seq<Op>): nat
    decreases |ops|
  {
    if ops == [] then 0 else MayLog(ops[0]) + Events(ops[1..])
  }

  /**
    Every run keeps the invariant, and the view and outcomes, overflows included, are those of the
    ledger-free store, as long as no distribution lacks ledger room.
  */
  lemma {:induction false} RunRefines(s: Store, ops: seq<Op>)
    requires Inv(s) && ValidOps(ops)
    ensures
      var (s', outs) := Run(s, ops);
      && Inv(s') && s'.direction == s.direction
      && (NeverFull(outs) && (Fitted(outs) || Affords(s, Budget(ops), Events(ops))) ==>
            IdealRun(s.direction, View(s), Issued(ops)) == (View(s'), Seen(outs)))
    decreases |ops|
  {
    if ops == [] {
    } else {
      var op := ops[0];
      StepRefines(s, op);
      StepKind(s, op);
      IndexMoves(s, op);
      var (s1, out) := Step(s, op);
      RunRefines(s1, ops[1..]);
      var (s2, outs) := Run(s1, ops[1..]);
      RunUnfolds(s, ops);
      hide Step, IdealStep, View, Inv, Run, NeverFull, Fitted;
      if NeverFull([out] + outs) && (Fitted([out] + outs) || Affords(s, Budget(ops), Events(ops))) {
        OutcomeSplits(out, outs);
        IdealRunUnfolds(s.direction, View(s), op, ops);
      }
    }
  }

  lemma RunUnfolds(s: Store, ops: seq<Op>)
    requires ops != []
    ensures
      var (s1, out) := Step(s, ops[0]);
      Run(s, ops) == (Run(s1, ops[1..]).0, [out] + Run(s1, ops[1..]).1)
  {
    hide Step;
  }

  lemma OutcomeSplits(out: Outcome, outs: seq<Outcome>)
    ensures NeverFull([out] + outs) <==> out != Failed(LedgerCapacityExceeded) && NeverFull(outs)
    ensures Fitted([out] + outs) <==> out != Failed(MathOverflow) && Fitted(outs)
    ensures Seen([out] + outs) == if out.Silent? then Seen(outs) else [out] + Seen(outs)
  {
    var all := [out] + outs;
    assert all[1..] == outs && all[0] == out;
    assert forall i :: 0 <= i < |outs| ==> outs[i] == all[i + 1];
  }

  /** The ledger-free run of the issued operations, one operation at a time. */
  lemma IdealRunUnfolds(d: Direction, bs: map<int, Bucket>, op: Op, ops: seq<Op>)
    requires ops != [] && op == ops[0]
    ensures
      var (bs1, out) := IdealStep(d, bs, op);
      var (bs2, outs) := IdealRun(d, bs1, Issued(ops[1..]));
      IdealRun(d, bs, Issued(ops)) ==
        if op.Touch? || op.Gc? then IdealRun(d, bs, Issued(ops[1..])) else (bs2, [out] + outs)
  {
    if !(op.Touch? || op.Gc?) {
      ModeIsInvisible(d, bs, op);
      assert Issued(ops) == [Plain(op)] + Issued(ops[1..]);
      assert Issued(ops)[1..] == Issued(ops[1..]);
      hide IdealStep;
    }
  }

  /** Replays and compactions, and only they, have nothing to report when they succeed. */
  lemma StepKind(s: Store, op: Op)
    requires Inv(s) && ValidOp(op)
    ensures
      var out := Step(s, op).1;
      && (out.Silent? ==> op.Touch? || op.Gc?)
      && ((op.Touch? || op.Gc?) && !out.Silent? ==> out == Failed(MathOverflow) && Value(s) >= U128)
  {
    hide InsertOrMerge, Distribute, Redeem, Compact, ApplyKeys, Inv;
    if op.Touch? {
      ApplyKeysRefines(s, op.keys);
    }
  }

  lemma ModeIsInvisible(d: Direction, bs: map<int, Bucket>, op: Op)
    ensures IdealStep(d, bs, Plain(op)) == IdealStep(d, bs, op)
  {
    hide IdealDistribute;
  }

  // ---------------------------------------------------------------- lazy refines eager

  lemma {:induction false} IssuedTotals(ops: seq<Op>)
    ensures Budget(Issued(ops)) == Budget(ops) && Events(Issued(ops)) == Events(ops)
    decreases |ops|
  {
    if ops == [] {
    } else {
      IssuedTotals(ops[1..]);
      if !(ops[0].Touch? || ops[0].Gc?) {
        assert Issued(ops)[1..] == Issued(ops[1..]);
      }
    }
  }

  /** The money and the event indices of a run fit their 128 and 64 bits. */
  predicate MoneyFits(ops: seq<Op>) {
    Budget(ops) < U128 && Events(ops) < U64
  }

  /**
    Two runs of the same issued operations, whatever their modes, ledger capacities, replays and
    compactions: the callers see the same receipts, payouts and errors, overflows included, and the
    views agree. Only ledger room can part them.
  */
  lemma LazyRefinesEager(d: Direction, ops: seq<Op>, ops': seq<Op>)
    requires ValidOps(ops) && ValidOps(ops') && Issued(ops) == Issued(ops')
    requires NeverFull(Run(EmptyStore(d), ops).1) && NeverFull(Run(EmptyStore(d), ops').1)
    requires MoneyFits(ops) || (Fitted(Run(EmptyStore(d), ops).1) && Fitted(Run(EmptyStore(d), ops').1))
    ensures
      var (s, outs) := Run(EmptyStore(d), ops);
      var (s', outs') := Run(EmptyStore(d), ops');
      Seen(outs) == Seen(outs') && View(s) == View(s')
  {
    EmptyInv(d);
    RunRefines(EmptyStore(d), ops);
    RunRefines(EmptyStore(d), ops');
    IssuedTotals(ops);
    IssuedTotals(ops');
    hide Run, Inv, View, NeverFull, Fitted, Budget, Events, Issued;
  }

  /** Every distribution comes with a ledger that could hold all events of the run. */
  predicate Ample(ops: seq<Op>, events: nat) {
    forall i :: 0 <= i < |ops| && ops[i].Dist? ==> ops[i].cap >= events
  }

  /** With such ledgers no distribution lacks room. */
  lemma {:induction false} AmpleIsRoomy(s: Store, ops: seq<Op>, events: nat)
    requires Inv(s) && ValidOps(ops) && Ample(ops, events) && s.nextIndex + Events(ops) <= events
    ensures NeverFull(Run(s, ops).1)
    decreases |ops|
  {
    if ops == [] {
    } else {
      StepRefines(s, ops[0]);
      IndexMoves(s, ops[0]);
      StepIsRoomy(s, ops[0]);
      RunUnfolds(s, ops);
      var (s1, out) := Step(s, ops[0]);
      hide Step, Inv, Run, NeverFull;
      AmpleIsRoomy(s1, ops[1..], events);
      OutcomeSplits(out, Run(s1, ops[1..]).1);
    }
  }

  lemma StepIsRoomy(s: Store, op: Op)
    requires Inv(s) && ValidOp(op) && (op.Dist? ==> s.nextIndex < op.cap)
    ensures Step(s, op).1 != Failed(LedgerCapacityExceeded)
  {
    hide InsertOrMerge, Distribute, Redeem, ApplyKeys, View, IdealMerge, IdealDistribute, IdealRedeem;
    match op
    case Merge(tick, anchor, shares, notional, count, maxBuckets) =>
      InsertOrMergeRefines(s, tick, anchor, shares, notional, count, maxBuckets);
      hide Inv;
      MergeNeedsNoRoom(s, tick, anchor, shares, notional, count, maxBuckets);
    case Dist(mode, price, alloc, cap) =>
      DistributeRefines(s, mode, price, alloc, cap);
      assert |s.ledger| < cap;
      assert HasRoom(s, cap);
    case Burn(tick, amount) => BurnNeedsNoRoom(s, tick, amount);
    case Touch(keys) => ApplyKeysRefines(s, keys);
    case Gc =>
  }

  lemma MergeNeedsNoRoom(s: Store, tick: int, anchor: nat, shares: nat, notional: nat, count: nat, maxBuckets: nat)
    ensures InsertOrMerge(s, tick, anchor, shares, notional, count, maxBuckets) != Err(LedgerCapacityExceeded)
  {
    hide PendingsOf, CaughtUpAll, Sum;
  }

  lemma BurnNeedsNoRoom(s: Store, tick: int, amount: nat)
    ensures Redeem(s, tick, amount) != Err(LedgerCapacityExceeded)
  {
    hide PendingsOf, CaughtUpAll, Sum, RedeemFrom;
  }

  /**
    The agreement from the inputs alone: when the money fits 128 bits, the events fit 64 bits, and
    the ledgers can hold the events, an eager and a lazy run of the same operations are
    indistinguishable to their callers.
  */
  lemma LazyMatchesEager(d: Direction, ops: seq<Op>, ops': seq<Op>)
    requires ValidOps(ops) && ValidOps(ops') && Issued(ops) == Issued(ops')
    requires MoneyFits(ops) && Ample(ops, Events(ops)) && Ample(ops', Events(ops))
    ensures
      var (s, outs) := Run(EmptyStore(d), ops);
      var (s', outs') := Run(EmptyStore(d), ops');
      Seen(outs) == Seen(outs') && View(s) == View(s')
  {
    EmptyInv(d);
    IssuedTotals(ops);
    IssuedTotals(ops');
    AmpleIsRoomy(EmptyStore(d), ops, Events(ops));
    AmpleIsRoomy(EmptyStore(d), ops', Events(ops));
    hide Run, Inv, View, NeverFull, Fitted, Budget, Events, Issued, Ample;
    LazyRefinesEager(d, ops, ops');
  }

  predicate EagerOnly(ops: seq<Op>) {
    forall i :: 0 <= i < |ops| && ops[i].Dist? ==> ops[i].mode.Eager?
  }

  /** An eager-only store never has funds in flight, although its replay indices may lag. */
  lemma {:induction false} EagerNeverPends(s: Store, ops: seq<Op>)
    requires Inv(s) && ValidOps(ops) && EagerOnly(ops) && s.pendingTotal == 0
    ensures Run(s, ops).0.pendingTotal == 0
    decreases |ops|
  {
    if ops == [] {
    } else {
      StepRefines(s, ops[0]);
      EagerStep(s, ops[0]);
      hide Step, Inv;
      EagerNeverPends(Step(s, ops[0]).0, ops[1..]);
    }
  }

  lemma EagerStep(s: Store, op: Op)
    requires Inv(s) && s.pendingTotal == 0 && (op.Dist? ==> op.mode.Eager?)
    ensures Step(s, op).0.pendingTotal == 0
  {
    hide Sum, CaughtUp, Pending, TotalOutstanding, ClaimsFit, Shares, RedeemFrom;
  }

  /**
    Bucket by bucket: what an eager run has credited is what a lazy run has credited plus what it
    still owes, and the two agree on everything else but the replay index.
  */
  lemma EagerBucketIsLazyPlusPending(d: Direction, eager: seq<Op>, lazy: seq<Op>, k: int)
    requires ValidOps(eager) && ValidOps(lazy) && EagerOnly(eager) && Issued(eager) == Issued(lazy)
    requires NeverFull(Run(EmptyStore(d), eager).1) && NeverFull(Run(EmptyStore(d), lazy).1)
    requires MoneyFits(eager) || (Fitted(Run(EmptyStore(d), eager).1) && Fitted(Run(EmptyStore(d), lazy).1))
    ensures
      var e := Run(EmptyStore(d), eager).0;
      var l := Run(EmptyStore(d), lazy).0;
      && (k in e.buckets <==> k in l.buckets)
      && (k in e.buckets ==>
            e.buckets[k] == l.buckets[k].(
              accrued := l.buckets[k].accrued + Pending(l, l.buckets[k]), applied := e.buckets[k].applied))
  {
    LazyRefinesEager(d, eager, lazy);
    EmptyInv(d);
    EagerNeverPends(EmptyStore(d), eager);
    RunRefines(EmptyStore(d), eager);
    RunRefines(EmptyStore(d), lazy);
    var e := Run(EmptyStore(d), eager).0;
    var l := Run(EmptyStore(d), lazy).0;
    assert k in View(e) <==> k in e.buckets;
    assert k in View(l) <==> k in l.buckets;
    if k in e.buckets {
      ViewAt(e, k);
      ViewAt(l, k);
      CaughtUpIs(l, l.buckets[k]);
      SumAtLeast(HeadShares(e), k);
    }
  }

  // ---------------------------------------------------------------- in-flight accounting

  /**
    After any run from an empty store, the tracked in-flight total is exactly what all buckets are
    owed, the credited total is exact too, and the in-flight total fits the live ledger window.
  */
  lemma InFlightIsExact(d: Direction, ops: seq<Op>)
    requires ValidOps(ops)
    ensures
      var s := Run(EmptyStore(d), ops).0;
      && s.pendingTotal == Sum(Pendings(s)) <= TotalAllotted(s.ledger)
      && s.accruedTotal == Sum(Accruals(s.buckets))
      && s.nextIndex == s.gcOffset + |s.ledger|
  {
    EmptyInv(d);
    RunRefines(EmptyStore(d), ops);
    PendingIsExact(Run(EmptyStore(d), ops).0);
    PendingWithinWindow(Run(EmptyStore(d), ops).0);
    hide Run, Pendings;
  }

  // ---------------------------------------------------------------- compaction and capacity

  /** There is room exactly when no bucket lags by the whole capacity. */
  lemma RoomIsLag(s: Store, cap: nat)
    requires Inv(s)
    ensures HasRoom(s, cap) <==>
      cap > 0 && forall k :: k in s.buckets ==> s.nextIndex - s.buckets[k].applied < cap
  {
    forall k | k in s.buckets
      ensures s.nextIndex - s.buckets[k].applied <= |s.ledger|
    {
      assert BucketOk(s, s.buckets[k]);
    }
    var w := Watermark(s.buckets, s.nextIndex);
    assert s.gcOffset <= w;
    assert |Compact(s).ledger| == s.nextIndex - w;
  }

  /** Draining every bucket always clears a capacity rejection, if the ledger can hold one event. */
  lemma DrainingMakesRoom(s: Store, cap: nat)
    requires Inv(s) && cap >= 1 && ApplyAll(s).Ok?
    ensures HasRoom(ApplyAll(s).value, cap)
  {
    DrainThenCompact(s);
  }

  // ---------------------------------------------------------------- where eager and lazy part

  /** A paying distribution moves the event counter; only the eager mode moves the activated buckets past it. */
  lemma DistributionLag(s: Store, mode: Mode, price: nat, alloc: nat, cap: nat)
    requires Inv(s) && 0 < alloc < U128
    requires Distribute(s, mode, price, alloc, cap).Ok?
    requires TotalOutstanding(s.direction, View(s), price) > 0
    ensures
      var s' := Distribute(s, mode, price, alloc, cap).value.0;
      && s'.nextIndex == s.nextIndex + 1 && s'.buckets.Keys == s.buckets.Keys
      && (forall k :: k in s.buckets ==> s'.buckets[k].anchor == s.buckets[k].anchor)
      && (forall k :: k in s.buckets && Activated(s.direction, s.buckets[k].anchor, price)
            ==> s'.buckets[k].applied == s.nextIndex + (if mode.Eager? then 1 else 0))
  {
    PreparedRefines(s, price, cap);
    PreparedKeepsAnchors(s, price, cap);
    var s2 := Prepared(s, price, cap).value;
    ClaimsAgree(s2, price);
    assert Distribute(s, mode, price, alloc, cap) == PayOut(s2, mode, price, alloc);
    PayOutIs(s2, mode, price, alloc);
    hide Distribute, Prepared, PayOut, Logged, View, NewEntry, HasRoom, Sum, ClaimsFit, Outstandings;
    LoggedLag(s2, mode, price, alloc);
  }

  lemma LoggedLag(s: Store, mode: Mode, price: nat, alloc: nat)
    requires ActiveDrained(s, price)
    ensures
      var s' := Logged(s, mode, price, alloc);
      && s'.nextIndex == s.nextIndex + 1 && s'.buckets.Keys == s.buckets.Keys
      && (forall k :: k in s.buckets ==> s'.buckets[k].anchor == s.buckets[k].anchor)
      && (forall k :: k in s.buckets && Activated(s.direction, s.buckets[k].anchor, price)
            ==> s'.buckets[k].applied == s.nextIndex + (if mode.Eager? then 1 else 0))
  {
    LoggedIs(s, mode, price, alloc);
    assert Logged(s, mode, price, alloc).nextIndex == s.nextIndex + 1;
    hide Logged, NewEntry, Activated, Share;
  }

  lemma PreparedKeepsAnchors(s: Store, price: nat, cap: nat)
    requires Inv(s) && Prepared(s, price, cap).Ok?
    ensures
      var s2 := Prepared(s, price, cap).value;
      && s2.buckets.Keys == s.buckets.Keys
      && (forall k :: k in s.buckets ==> s2.buckets[k].anchor == s.buckets[k].anchor)
  {
    MakeRoomRefines(s, cap);
    var s1 := MakeRoom(s, cap).value;
    ApplyKeysRefines(s1, ActivatedKeys(s1, price));
    hide MakeRoom, ApplyKeys, View, Inv, HeadShare;
  }

  /**
    Capacity rejections are not part of the agreement: compaction runs before the drain. With room
    for a single event, a second lazy distribution to the same buckets is always turned away, and
    the same second distribution is never turned away for room when both are eager.
  */
  lemma ModesPartAtCapacity(s: Store, price: nat, alloc: nat, price': nat, alloc': nat)
    requires Inv(s) && 0 < alloc < U128 && 0 < alloc' < U128
    requires TotalOutstanding(s.direction, View(s), price) > 0
    requires forall k :: k in s.buckets ==> Activated(s.direction, s.buckets[k].anchor, price)
    ensures
      var lazy := Distribute(s, Lazy, price, alloc, 1);
      var eager := Distribute(s, Eager, price, alloc, 1);
      && (lazy.Ok? ==> Distribute(lazy.value.0, Lazy, price', alloc', 1) == Err(LedgerCapacityExceeded))
      && (eager.Ok? ==> Distribute(eager.value.0, Eager, price', alloc', 1) != Err(LedgerCapacityExceeded))
  {
    hide Distribute, View, Inv, TotalOutstanding, IdealDistribute, HasRoom;
    var lazy := Distribute(s, Lazy, price, alloc, 1);
    var eager := Distribute(s, Eager, price, alloc, 1);
    SomeBucket(s, price);
    DistributeRefines(s, Lazy, price, alloc, 1);
    DistributeRefines(s, Eager, price, alloc, 1);
    if lazy.Ok? {
      DistributionLag(s, Lazy, price, alloc, 1);
      RoomAfter(lazy.value.0, Lazy, price', alloc');
    }
    if eager.Ok? {
      DistributionLag(s, Eager, price, alloc, 1);
      RoomAfter(eager.value.0, Eager, price', alloc');
    }
  }

  lemma RoomAfter(s: Store, mode: Mode, price: nat, alloc: nat)
    requires Inv(s) && 0 < alloc < U128
    ensures Distribute(s, mode, price, alloc, 1) == Err(LedgerCapacityExceeded) <==>
      exists k :: k in s.buckets && s.nextIndex - s.buckets[k].applied >= 1
  {
    RoomIsLag(s, 1);
    DistributeRefines(s, mode, price, alloc, 1);
    hide Distribute, IdealDistribute, View, Inv, HasRoom;
  }

  lemma SomeBucket(s: Store, price: nat)
    requires TotalOutstanding(s.direction, View(s), price) > 0
    ensures exists k :: k in s.buckets
  {
    ViewSize(s);
    if forall k :: k !in s.buckets {
      SumZero(Outstandings(s.direction, View(s), price));
    }
  }

  // ---------------------------------------------------------------- a run that parts them

  /** One bucket, then twice the same distribution with room for a single event. */
  function TwiceWithOneSlot(mode: Mode, tick: int, b: Bucket, price: nat, alloc: nat): seq<Op> {
    [Merge(tick, b.anchor, b.shares, b.notional, b.count, 1), Dist(mode, price, alloc, 1), Dist(mode, price, alloc, 1)]
  }

  lemma SingleClaim(d: Direction, tick: int, b: Bucket, price: nat)
    requires Intrinsic(d, b, price) < U128
    ensures ClaimsFit(d, map[tick := b], price)
    ensures TotalOutstanding(d, map[tick := b], price) == Outstanding(d, b, price)
  {
    hide Intrinsic, Outstanding;
    var bs := map[tick := b];
    var none: map<int, nat> := map[];
    assert Outstandings(d, bs, price) == none[tick := Outstanding(d, b, price)];
    SumZero(none);
    SumUpdate(none, tick, Outstanding(d, b, price));
    assert Outstanding(d, b, price) <= Intrinsic(d, b, price) by { OutstandingBound(d, b, price); }
  }

  lemma OutstandingBound(d: Direction, b: Bucket, price: nat)
    ensures Outstanding(d, b, price) <= Intrinsic(d, b, price)
    ensures b.accrued == 0 ==> Outstanding(d, b, price) == Intrinsic(d, b, price)
  {
    hide Intrinsic;
  }

  /** A distribution to a store whose view is a single bucket with a claim that fits. */
  lemma SingleDistribution(s: Store, mode: Mode, tick: int, b: Bucket, price: nat, alloc: nat, cap: nat)
    requires Inv(s) && View(s) == map[tick := b] && Intrinsic(s.direction, b, price) < U128
    requires 0 < alloc && Value(s) + alloc < U128 && s.nextIndex + 1 < U64 && HasRoom(s, cap)
    ensures
      var r := Distribute(s, mode, price, alloc, cap);
      && r.Ok? && Inv(r.value.0) && r.value.0.direction == s.direction && Value(r.value.0) <= Value(s) + alloc
      && View(r.value.0).Keys == {tick}
      && View(r.value.0)[tick] == b.(accrued := View(r.value.0)[tick].accrued)
  {
    SingleClaim(s.direction, tick, b, price);
    DistributeRefines(s, mode, price, alloc, cap);
    IdealCredits(s.direction, map[tick := b], price, alloc);
    hide Distribute, IdealDistribute, View, Inv, Intrinsic, ClaimsFit, HasRoom;
  }

  /** Only the credited amounts change. */
  lemma IdealCredits(d: Direction, bs: map<int, Bucket>, price: nat, alloc: nat)
    ensures
      var r := IdealDistribute(d, bs, price, alloc);
      && (ClaimsFit(d, bs, price) ==> r.Ok?)
      && (r.Ok? ==>
            var bs' := r.value.0;
            && bs'.Keys == bs.Keys
            && (forall k :: k in bs ==> bs'[k] == bs[k].(accrued := bs'[k].accrued)))
  {
    SharesWithinInput(d, bs, price, alloc);
    hide ClaimsFit, Shares, TotalOutstanding;
    var r := IdealDistribute(d, bs, price, alloc);
    if r.Ok? {
      assert r.value.0.Keys == bs.Keys;
    }
  }

  function OneBucket(d: Direction, tick: int, b: Bucket): Store {
    EmptyStore(d).(buckets := map[tick := b])
  }

  lemma FirstBucket(d: Direction, tick: int, b: Bucket)
    requires b.accrued == 0 && b.applied == 0 && b.shares < U128 && b.notional < U128 && b.count < U64
    ensures
      var r := InsertOrMerge(EmptyStore(d), tick, b.anchor, b.shares, b.notional, b.count, 1);
      && r == Ok(OneBucket(d, tick, b))
      && Inv(r.value) && View(r.value) == map[tick := b] && Value(r.value) == 0
  {
    EmptyInv(d);
    InsertOrMergeRefines(EmptyStore(d), tick, b.anchor, b.shares, b.notional, b.count, 1);
    hide Inv, View;
    var none: map<int, Bucket> := map[];
    assert none[tick := b] == map[tick := b];
  }

  lemma OneBucketIs(d: Direction, tick: int, b: Bucket)
    ensures
      var s := OneBucket(d, tick, b);
      s.direction == d && s.buckets == map[tick := b] && s.nextIndex == 0
  {
  }

  lemma IntrinsicFields(d: Direction, b: Bucket, price: nat, accrued: nat)
    ensures Intrinsic(d, b.(accrued := accrued), price) == Intrinsic(d, b, price)
  {
    hide FloorDiv;
  }

  lemma PositiveIsActive(d: Direction, b: Bucket, price: nat)
    requires Intrinsic(d, b, price) > 0
    ensures Activated(d, b.anchor, price)
  {
    hide FloorDiv;
  }

  /** Both modes pay the first time. */
  lemma FirstPays(d: Direction, mode: Mode, tick: int, b: Bucket, price: nat, alloc: nat)
    requires b.accrued == 0 && b.applied == 0 && b.shares < U128 && b.notional < U128 && b.count < U64
    requires 0 < Intrinsic(d, b, price) < U128 && 0 < alloc && alloc + alloc < U128
    ensures
      var s := OneBucket(d, tick, b);
      var r := Distribute(s, mode, price, alloc, 1);
      && r.Ok? && Inv(r.value.0) && r.value.0.direction == d && Value(r.value.0) <= alloc
      && View(r.value.0).Keys == {tick}
      && View(r.value.0)[tick] == b.(accrued := View(r.value.0)[tick].accrued)
      && r.value.0.nextIndex == 1
  {
    var s := OneBucket(d, tick, b);
    FirstBucket(d, tick, b);
    RoomIsLag(s, 1);
    assert HasRoom(s, 1);
    OneBucketIs(d, tick, b);
    SingleClaim(d, tick, b, price);
    OutstandingBound(d, b, price);
    hide Distribute, View, Inv, Intrinsic, ClaimsFit, HasRoom, InsertOrMerge, Outstanding;
    SingleDistribution(s, mode, tick, b, price, alloc, 1);
    DistributionLag(s, mode, price, alloc, 1);
  }

  /** The second one still pays in eager mode, and is turned away in lazy mode. */
  lemma SecondParts(d: Direction, tick: int, b: Bucket, price: nat, alloc: nat)
    requires b.accrued == 0 && b.applied == 0 && b.shares < U128 && b.notional < U128 && b.count < U64
    requires 0 < Intrinsic(d, b, price) < U128 && 0 < alloc && alloc + alloc < U128
    ensures
      var s := OneBucket(d, tick, b);
      var lazy := Distribute(s, Lazy, price, alloc, 1);
      var eager := Distribute(s, Eager, price, alloc, 1);
      && lazy.Ok? && Distribute(lazy.value.0, Lazy, price, alloc, 1) == Err(LedgerCapacityExceeded)
      && eager.Ok? && Distribute(eager.value.0, Eager, price, alloc, 1).Ok?
  {
    hide Distribute, View, Inv, Intrinsic, ClaimsFit, HasRoom, InsertOrMerge, Outstanding, OneBucket;
    var s := OneBucket(d, tick, b);
    OneBucketIs(d, tick, b);
    FirstBucket(d, tick, b);
    FirstPays(d, Lazy, tick, b, price, alloc);
    FirstPays(d, Eager, tick, b, price, alloc);
    SingleClaim(d, tick, b, price);
    OutstandingBound(d, b, price);
    PositiveIsActive(d, b, price);
    ModesPartAtCapacity(s, price, alloc, price, alloc);
    SecondPays(Distribute(s, Eager, price, alloc, 1).value.0, tick, b, price, alloc);
  }

  lemma SecondPays(s: Store, tick: int, b: Bucket, price: nat, alloc: nat)
    requires Inv(s) && View(s).Keys == {tick} && View(s)[tick] == b.(accrued := View(s)[tick].accrued)
    requires Intrinsic(s.direction, b, price) < U128 && 0 < alloc && Value(s) + alloc < U128 && s.nextIndex + 1 < U64
    requires Distribute(s, Eager, price, alloc, 1) != Err(LedgerCapacityExceeded)
    ensures Distribute(s, Eager, price, alloc, 1).Ok?
  {
    hide Distribute, View, Inv, Intrinsic, HasRoom;
    var b' := View(s)[tick];
    assert View(s) == map[tick := b'];
    IntrinsicFields(s.direction, b, price, b'.accrued);
    NoCapacityIsRoom(s, Eager, price, alloc);
    SingleDistribution(s, Eager, tick, b', price, alloc, 1);
  }

  lemma NoCapacityIsRoom(s: Store, mode: Mode, price: nat, alloc: nat)
    requires Inv(s) && 0 < alloc < U128
    requires Distribute(s, mode, price, alloc, 1) != Err(LedgerCapacityExceeded)
    ensures HasRoom(s, 1)
  {
    DistributeRefines(s, mode, price, alloc, 1);
    hide Distribute, IdealDistribute, View, Inv, HasRoom;
  }

  /**
    The disagreement is reached from an empty store: whatever the bucket, the price and the amount,
    if the bucket has a claim at that price, the third operation fails in lazy mode and pays in
    eager mode.
  */
  lemma CapacityParts(d: Direction, tick: int, b: Bucket, price: nat, alloc: nat)
    requires b.accrued == 0 && b.applied == 0 && b.shares < U128 && b.notional < U128 && b.count < U64
    requires 0 < Intrinsic(d, b, price) < U128 && 0 < alloc && alloc + alloc < U128
    ensures
      var lazy := Run(EmptyStore(d), TwiceWithOneSlot(Lazy, tick, b, price, alloc)).1;
      var eager := Run(EmptyStore(d), TwiceWithOneSlot(Eager, tick, b, price, alloc)).1;
      && |lazy| == 3 && lazy[0] == Merged && lazy[1].Distributed? && lazy[2] == Failed(LedgerCapacityExceeded)
      && |eager| == 3 && eager[0] == Merged && eager[1].Distributed? && eager[2].Distributed?
  {
    FirstBucket(d, tick, b);
    SecondParts(d, tick, b, price, alloc);
    hide Distribute, InsertOrMerge, EmptyStore, Intrinsic;
    ThreeSteps(EmptyStore(d), TwiceWithOneSlot(Lazy, tick, b, price, alloc));
    ThreeSteps(EmptyStore(d), TwiceWithOneSlot(Eager, tick, b, price, alloc));
  }

  lemma ThreeSteps(s: Store, ops: seq<Op>)
    requires |ops| == 3
    ensures
      var (s1, a) := Step(s, ops[0]);
      var (s2, b) := Step(s1, ops[1]);
      var (s3, c) := Step(s2, ops[2]);
      Run(s, ops) == (s3, [a, b, c])
  {
    var (s1, a) := Step(s, ops[0]);
    var (s2, b) := Step(s1, ops[1]);
    var (s3, c) := Step(s2, ops[2]);
    assert ops[1..] == [ops[1], ops[2]] && ops[1..][1..] == [ops[2]] && ops[1..][1..][1..] == [];
    RunUnfolds(s, ops);
    RunUnfolds(s1, ops[1..]);
    RunUnfolds(s2, ops[1..][1..]);
    assert Run(s3, []) == (s3, []);
    hide Step, Run;
    assert [a] + ([b] + ([c] + [])) == [a, b, c];
  }

  /** For instance with a bucket of one share anchored at 1, paid one unit at price 2. */
  lemma CapacityPartsForOneShare(tick: int)
    ensures
      var b := Bucket(1, 1, 1, 0, 1, 0);
      var lazy := Run(EmptyStore(Long), TwiceWithOneSlot(Lazy, tick, b, 2, 1)).1;
      var eager := Run(EmptyStore(Long), TwiceWithOneSlot(Eager, tick, b, 2, 1)).1;
      && |lazy| == 3 && lazy[2] == Failed(LedgerCapacityExceeded)
      && |eager| == 3 && eager[2].Distributed?
  {
    var b := Bucket(1, 1, 1, 0, 1, 0);
    FromQuotient(1, 1, 1, 1, 0);
    assert Intrinsic(Long, b, 2) == 1;
    hide Run, Intrinsic, TwiceWithOneSlot;
    CapacityParts(Long, tick, b, 2, 1);
  }
}
