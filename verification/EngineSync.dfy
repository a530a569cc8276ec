/**
  What a sync does: one side pays, the other receives into its pool and its buckets, nothing is
  made or lost, and the run-time checks at its end hold.
*/
module EngineSync {
  import opened Wrappers
  import opened MoleMath
  import opened Clearing
  import opened Sums
  import opened Dormant
  import opened DormantInvariant
  import DormantRefinement
  import DormantClaims
  import opened Engine
  import opened Holdings
  import StoreShares
  import opened EngineInvariant

  /** Buckets were credited `paid` of `paid + residual`, exactly as the ledger-free store would. */
  ghost predicate Credited(s: Store, s': Store, pNow: nat, paid: nat, residual: nat) {
    && s'.direction == s.direction
    && StoreShares.SharesOf(s') == StoreShares.SharesOf(s)
    && Value(s') == Value(s) + paid
    && IdealDistribute(s.direction, View(s), pNow, paid + residual) == Ok((View(s'), Receipt(paid, residual)))
  }

  /** One side between the prices: it received `own` and paid for `other`. */
  ghost predicate SideExchanged(p: Pool, p': Pool, own: Flow, other: Flow, pNow: nat) {
    && Amount(other) <= p.equity
    && p' == p.(equity := p'.equity, store := p'.store, dust := p'.dust)
    && p'.equity + Amount(other) == p.equity + own.toPool
    && p'.dust == p.dust + own.residual
    && Credited(p.store, p'.store, pNow, own.toRecovery, own.residual)
  }

  lemma NothingCredited(s: Store, pNow: nat)
    ensures Credited(s, s, pNow, 0, 0)
  {
    hide View, BucketShares;
  }

  lemma Exchange(p: Pool, p': Pool, own: Flow, other: Flow, pNow: nat)
    requires Amount(other) <= p.equity
    requires p' == p.(equity := p'.equity, store := p'.store, dust := p'.dust)
    requires p'.equity + Amount(other) == p.equity + own.toPool
    requires p'.dust == p.dust + own.residual
    requires Credited(p.store, p'.store, pNow, own.toRecovery, own.residual)
    ensures SideExchanged(p, p', own, other, pNow)
  {
    hide Credited;
  }

  /** A side that receives nothing but pays for `f`. */
  lemma Charged(p: Pool, none: Flow, f: Flow, pNow: nat)
    requires Amount(none) == 0 && Amount(f) <= p.equity
    ensures SideExchanged(p, p.(equity := p.equity - Amount(f)), none, f, pNow)
  {
    hide Credited;
    NothingCredited(p.store, pNow);
    Exchange(p, p.(equity := p.equity - Amount(f)), none, f, pNow);
  }

  lemma Untouched(p: Pool, none: Flow, pNow: nat)
    requires Amount(none) == 0
    ensures SideExchanged(p, p, none, none, pNow)
  {
    hide Credited;
    NothingCredited(p.store, pNow);
    Exchange(p, p, none, none, pNow);
  }

  // ---------------------------------------------------------------- transfer

  lemma DistributeIs(s: Store, mode: Mode, price: nat, alloc: nat, cap: nat)
    requires Inv(s) && alloc < U128
    ensures
      var r := Distribute(s, mode, price, alloc, cap);
      && Benign(r)
      && (r.Ok? ==>
            var (s', receipt) := r.value;
            && Inv(s') && Credited(s, s', price, receipt.allotted, receipt.residual)
            && receipt.allotted + receipt.residual == alloc
            && StoreShares.SharesOf(s') == StoreShares.SharesOf(s) && s'.direction == s.direction)
  {
    hide Distribute, Inv, View, IdealDistribute, BucketShares, DormantRefinement.HasRoom;
    DormantRefinement.DistributeRefines(s, mode, price, alloc, cap);
    if Distribute(s, mode, price, alloc, cap).Ok? {
      StoreShares.DistributeKeepsShares(s, mode, price, alloc, cap);
    }
  }

  lemma PayRecoveryIs(m: Market, p: Pool, d: Direction, pNow: nat, amount: nat)
    requires PoolCore(p, d) && amount < U128
    ensures
      var r := PayRecovery(m, p, pNow, amount);
      && Benign(r)
      && (r.Ok? ==>
            var (p', receipt) := r.value;
            && PoolCore(p', d)
            && receipt.allotted + receipt.residual == amount
            && p' == p.(store := p'.store, dust := p.dust + receipt.residual)
            && Credited(p.store, p'.store, pNow, receipt.allotted, receipt.residual))
  {
    hide Distribute, Inv, Credited, BucketShares, Sum, LogOk;
    DistributeIs(p.store, m.mode, pNow, amount, m.ledgerCap);
  }

  /** The proportional part of a transfer. */
  lemma ActivePart(transfer: nat, active: nat, total: nat)
    requires 0 < total && active <= total && transfer < U128
    ensures MulDivFloor(transfer, active, total) == Ok(FloorDiv(transfer, active, total))
    ensures FloorDiv(transfer, active, total) <= transfer
    ensures active == 0 ==> FloorDiv(transfer, active, total) == 0
  {
    PartBound(transfer, active, total);
    if active == 0 {
      ZeroProduct(transfer, 0, total);
    }
  }

  /** The winning side of a transfer. */
  ghost function Receive(m: Market, p: Pool, pNow: nat, toActive: nat, toRecovery: nat): ClearingResult<(Pool, Flow)> {
    var equity :- FromMath(CheckedAdd(p.equity, toActive));
    if toRecovery == 0 then Ok((p.(equity := equity), Flow(pNow, toActive, 0, 0)))
    else
      var paid :- PayRecovery(m, p.(equity := equity), pNow, toRecovery);
      var inflow: nat :- FromMath(CheckedSub(toRecovery, paid.1.residual));
      Ok((paid.0, Flow(pNow, toActive, inflow, paid.1.residual)))
  }

  lemma ReceiveUnfolds(m: Market, p: Pool, pNow: nat, toActive: nat, toRecovery: nat)
    ensures
      var r := Receive(m, p, pNow, toActive, toRecovery);
      && (p.equity + toActive >= U128 ==> r == Err(MathOverflow))
      && (r.Ok? ==> r.value.1.price == pNow)
      && (p.equity + toActive < U128 ==>
            var p1 := p.(equity := p.equity + toActive);
            && (toRecovery == 0 ==>
                  && r.Ok? && r.value.0 == p1
                  && r.value.1.toPool == toActive && r.value.1.toRecovery == 0 && r.value.1.residual == 0)
            && (toRecovery > 0 ==>
                  var paid := PayRecovery(m, p1, pNow, toRecovery);
                  && (paid.Err? ==> r == Err(paid.error))
                  && (paid.Ok? && paid.value.1.residual <= toRecovery ==>
                        && r.Ok? && r.value.0 == paid.value.0
                        && r.value.1.toPool == toActive
                        && r.value.1.toRecovery == toRecovery - paid.value.1.residual
                        && r.value.1.residual == paid.value.1.residual)))
  {
    hide PayRecovery;
  }

  lemma ReceiveIs(m: Market, p: Pool, d: Direction, pNow: nat, toActive: nat, toRecovery: nat)
    requires PoolCore(p, d) && toRecovery < U128
    ensures
      var r := Receive(m, p, pNow, toActive, toRecovery);
      && Benign(r)
      && (r.Ok? ==>
            var (p', f) := r.value;
            && PoolCore(p', d) && SideExchanged(p, p', f, NoFlow(pNow), pNow)
            && f.price == pNow && f.toPool == toActive && f.toRecovery + f.residual == toRecovery)
  {
    ReceiveUnfolds(m, p, pNow, toActive, toRecovery);
    hide Receive, PayRecovery, Credited, SideExchanged, Inv, BucketShares, Sum, LogOk;
    var r := Receive(m, p, pNow, toActive, toRecovery);
    if p.equity + toActive < U128 {
      var p1 := p.(equity := p.equity + toActive);
      NothingCredited(p.store, pNow);
      if toRecovery > 0 {
        PayRecoveryIs(m, p1, d, pNow, toRecovery);
      }
      if r.Ok? {
        Exchange(p, r.value.0, r.value.1, NoFlow(pNow), pNow);
      }
    }
  }

  /** A transfer charges one side and pays the other. */
  lemma TransferUnfolds(m: Market, sp: SubPool, d: Direction, active: nat, total: nat, pNow: nat)
    requires 0 < total && active <= total && sp.Side(d.Opposite()).equity < U128
    ensures
      var loser := sp.Side(d.Opposite());
      var transfer := Min(total, loser.equity);
      var toActive := FloorDiv(transfer, active, total);
      && toActive <= transfer
      && (active == 0 ==> toActive == 0)
      && Transfer(m, sp, d, active, total, pNow) ==
           if transfer == 0 then Ok((sp, NoFlow(pNow)))
           else
             var received :- Receive(m, sp.Side(d), pNow, toActive, transfer - toActive);
             Ok((sp.With(d.Opposite(), loser.(equity := loser.equity - transfer)).With(d, received.0), received.1))
  {
    hide PayRecovery, FloorDiv, MulDivFloor;
    var transfer := Min(total, sp.Side(d.Opposite()).equity);
    ActivePart(transfer, active, total);
  }

  lemma PayerStaysOk(p: Pool, d: Direction, paid: nat)
    requires PoolCore(p, d) && paid <= p.equity
    ensures PoolCore(p.(equity := p.equity - paid), d) && p.equity < U128
  {
    hide Inv, LogOk, Sum, BucketShares;
  }

  lemma TransferIs(m: Market, sp: SubPool, d: Direction, active: nat, total: nat, pNow: nat)
    requires PoolCore(sp.long, Long) && PoolCore(sp.short, Short)
    requires 0 < total && active <= total
    ensures
      var r := Transfer(m, sp, d, active, total, pNow);
      && Benign(r)
      && (r.Ok? ==>
            var (sp', f) := r.value;
            && sp' == sp.(long := sp'.long, short := sp'.short)
            && PoolCore(sp'.long, Long) && PoolCore(sp'.short, Short)
            && SideExchanged(sp.Side(d), sp'.Side(d), f, NoFlow(pNow), pNow)
            && SideExchanged(sp.Side(d.Opposite()), sp'.Side(d.Opposite()), NoFlow(pNow), f, pNow)
            && sp'.Side(d.Opposite()).store == sp.Side(d.Opposite()).store
            && Amount(f) == Min(total, sp.Side(d.Opposite()).equity)
            && f.toPool == FloorDiv(Amount(f), active, total) && f.price == pNow
            && (active == 0 ==> f.toPool == 0))
  {
    hide PoolCore, Transfer, Receive, FloorDiv, SideExchanged;
    var winner, loser := sp.Side(d), sp.Side(d.Opposite());
    var transfer := Min(total, loser.equity);
    PayerStaysOk(loser, d.Opposite(), transfer);
    TransferUnfolds(m, sp, d, active, total, pNow);
    if transfer == 0 {
      Untouched(winner, NoFlow(pNow), pNow);
      Untouched(loser, NoFlow(pNow), pNow);
      ActivePart(0, active, total);
    } else {
      var toActive := FloorDiv(transfer, active, total);
      ReceiveIs(m, winner, d, pNow, toActive, transfer - toActive);
      var r := Transfer(m, sp, d, active, total, pNow);
      if r.Ok? {
        Charged(loser, NoFlow(pNow), r.value.1, pNow);
      }
    }
  }

  // ---------------------------------------------------------------- demand

  /** A side's dormant demand: the rise of its claims from `pLast` to `pNow`. */
  lemma DemandFalls(s: Store, pLast: nat, pNow: nat)
    requires ClaimAt(s, pLast).Ok? && ClaimAt(s, pNow).Ok?
    requires DormantClaims.AtLeastAsGood(s.direction, pNow, pLast)
    ensures SaturatingSub(ClaimAt(s, pNow).value, ClaimAt(s, pLast).value) == 0
  {
    DormantClaims.ClaimsMonotone(s.direction, s.buckets, pNow, pLast);
    hide TotalOutstanding, ClaimsFit;
  }

  /** The two sides never both gain on their active notional. */
  lemma GainsExclude(long: nat, short: nat, pLast: nat, pNow: nat)
    ensures
      var l := SignedPnlIncrement(Long.Sign(), long, pLast, pNow);
      var s := SignedPnlIncrement(Short.Sign(), short, pLast, pNow);
      l.Ok? && s.Ok? ==>
        && (pNow >= pLast ==> Gain(s.value) == 0)
        && (pNow <= pLast ==> Gain(l.value) == 0)
        && (long == 0 ==> Gain(l.value) == 0) && (short == 0 ==> Gain(s.value) == 0)
  {
    PnlSigns(long, short, pLast, pNow);
    var delta := if pNow >= pLast then pNow - pLast else pLast - pNow;
    if pLast > 0 && long == 0 {
      ZeroProduct(0, delta, pLast);
    }
    if pLast > 0 && short == 0 {
      ZeroProduct(0, delta, pLast);
    }
    hide FloorDiv;
  }

  /**
    In any sync at most one side asks for funds, whatever is floored, saturated or activated in
    either store; and only a side with active notional asks for active funds.
  */
  lemma OneSidedDemand(sp: SubPool, pNow: nat)
    requires sp.long.store.direction.Long? && sp.short.store.direction.Short?
    ensures
      var r := Demands(sp, pNow);
      && Benign(r)
      && (r.Ok? ==>
            var demand := r.value;
            && (demand.longTotal == 0 || demand.shortTotal == 0)
            && (pNow >= sp.lastPrice ==> demand.shortTotal == 0)
            && (pNow <= sp.lastPrice ==> demand.longTotal == 0)
            && demand.longActive <= demand.longTotal < U128
            && demand.shortActive <= demand.shortTotal < U128
            && (demand.longActive > 0 ==> sp.long.notional > 0)
            && (demand.shortActive > 0 ==> sp.short.notional > 0))
  {
    GainsExclude(sp.long.notional, sp.short.notional, sp.lastPrice, pNow);
    if Demands(sp, pNow).Ok? {
      if pNow >= sp.lastPrice {
        DemandFalls(sp.short.store, sp.lastPrice, pNow);
      }
      if pNow <= sp.lastPrice {
        DemandFalls(sp.long.store, sp.lastPrice, pNow);
      }
    }
    hide ClaimAt, SignedPnlIncrement;
  }

  // ---------------------------------------------------------------- the whole sync

  /** Both sides between the prices. */
  ghost predicate Exchanged(sp: SubPool, mid: SubPool, long: Flow, short: Flow, pNow: nat) {
    && mid == sp.(long := mid.long, short := mid.short)
    && PoolCore(mid.long, Long) && PoolCore(mid.short, Short)
    && SideExchanged(sp.long, mid.long, long, short, pNow)
    && SideExchanged(sp.short, mid.short, short, long, pNow)
    && (sp.long.notional == 0 ==> long.toPool == 0)
    && (sp.short.notional == 0 ==> short.toPool == 0)
    && (Amount(short) > 0 ==> mid.long.store == sp.long.store)
    && (Amount(long) > 0 ==> mid.short.store == sp.short.store)
  }

  lemma SettleIs(m: Market, sp: SubPool, demand: Demand, pNow: nat)
    requires PoolCore(sp.long, Long) && PoolCore(sp.short, Short)
    requires Demands(sp, pNow) == Ok(demand)
    ensures
      var r := Settle(m, sp, demand, pNow);
      && Benign(r)
      && (r.Ok? ==> Exchanged(sp, r.value.0, r.value.1, r.value.2, pNow))
  {
    OneSidedDemand(sp, pNow) by {
      hide Inv, LogOk, InRange, Sum;
    }
    hide PoolCore, Transfer, SideExchanged, Demands;
    if demand.longTotal > 0 {
      TransferIs(m, sp, Long, demand.longActive, demand.longTotal, pNow);
    } else if demand.shortTotal > 0 {
      TransferIs(m, sp, Short, demand.shortActive, demand.shortTotal, pNow);
    } else {
      Untouched(sp.long, NoFlow(pNow), pNow);
      Untouched(sp.short, NoFlow(pNow), pNow);
    }
  }

  /** A transfer moves no shares, so what backs a side still does. */
  lemma ExchangeKeepsBacking(p: Pool, p': Pool, own: Flow, other: Flow, pNow: nat, d: Direction, ps: map<nat, Position>)
    requires SideOk(p, d, ps) && SideExchanged(p, p', own, other, pNow)
    requires p.notional == 0 ==> own.toPool == 0
    ensures PoolBacked(p', HoldingsOf(p', d, ps))
    ensures p'.shares == 0 ==> p'.equity == 0
    ensures p'.generation == p.generation
  {
    SameLogSameHoldings(p, p', d, ps);
    hide HoldingsOf, BucketShares, Inv, LogOk, Sum, IdealDistribute, View;
    if p.shares == 0 {
      NoSharesNoNotional(p.shares, p.notional, StoreShares.SharesOf(p.store), HoldingsOf(p, d, ps));
    }
    hide Backed;
  }

  /** A sub pool right after the transfer of a sync; a quiet sync transfers nothing. */
  ghost function Midway(m: Market, sp: SubPool, env: Envelope): SubPool {
    if Moved(sp, env) && Demands(sp, env.pNow).Ok? && Settle(m, sp, Demands(sp, env.pNow).value, env.pNow).Ok?
    then Settle(m, sp, Demands(sp, env.pNow).value, env.pNow).value.0
    else sp
  }

  predicate Moved(sp: SubPool, env: Envelope) {
    sp.lastPrice != 0 && env.pNow != sp.lastPrice
  }

  /** What a successful sync did, step by step. */
  ghost predicate Synced(m: Market, sp: SubPool, sp': SubPool, out: SyncOutcome, env: Envelope) {
    var mid := Midway(m, sp, env);
    && sp' == sp.(long := sp'.long, short := sp'.short, lastPrice := env.pNow, lastSlot := env.slot)
    && Exchanged(sp, mid, out.long, out.short, env.pNow)
    && SideRotated(m, mid.long, sp'.long, env.pNow)
    && SideRotated(m, mid.short, sp'.short, env.pNow)
    && out.events == SyncEvents(m, sp, mid, out, env)
  }

  ghost function SyncEvents(m: Market, sp: SubPool, mid: SubPool, out: SyncOutcome, env: Envelope): seq<EngineEvent> {
    if Moved(sp, env) then
      [PoolSync(sp.id, env.pNow, sp.long.shares, sp.short.shares, out.long, out.short)]
      + (RotationEvents(m, sp.id, Long, mid.long, env.pNow) + RotationEvents(m, sp.id, Short, mid.short, env.pNow))
    else []
  }

  lemma OlderPositions(sp: SubPool, sp': SubPool, ps: map<nat, Position>)
    requires PositionsOk(sp, ps)
    requires sp'.long.generation >= sp.long.generation && sp'.short.generation >= sp.short.generation
    ensures PositionsOk(sp', ps)
  {
  }

  lemma RotateBothIs(m: Market, mid: SubPool, pNow: u64, ps: map<nat, Position>)
    requires PoolCore(mid.long, Long) && PoolBacked(mid.long, HoldingsOf(mid.long, Long, ps))
    requires PoolCore(mid.short, Short) && PoolBacked(mid.short, HoldingsOf(mid.short, Short, ps))
    requires (mid.long.shares == 0 ==> mid.long.equity == 0) && (mid.short.shares == 0 ==> mid.short.equity == 0)
    requires PositionsOk(mid, ps)
    ensures
      var r := RotateBoth(m, mid, pNow);
      && (TickConfigured(m) ==> Benign(r))
      && (!Benign(r) ==> r == Err(Invariant(NoTickSize)))
      && (r.Ok? ==>
            && r.value.0 == mid.(long := r.value.0.long, short := r.value.0.short)
            && WorldOk(r.value.0, ps)
            && SideRotated(m, mid.long, r.value.0.long, pNow) && SideRotated(m, mid.short, r.value.0.short, pNow)
            && r.value.1 == RotationEvents(m, mid.id, Long, mid.long, pNow) + RotationEvents(m, mid.id, Short, mid.short, pNow))
  {
    var r := RotateBoth(m, mid, pNow);
    PositionsOfSides(mid, ps);
    RotateSide(m, mid.id, Long, mid.long, pNow, ps);
    RotateSide(m, mid.id, Short, mid.short, pNow, ps);
    hide RotateIfEmpty, PoolCore, PoolBacked, SideOk, SideRotated, RotationEvents, HoldingsOf, PositionsOk;
    if r.Ok? {
      OlderPositions(mid, r.value.0, ps);
    }
  }

  lemma PositionsOfSides(sp: SubPool, ps: map<nat, Position>)
    requires PositionsOk(sp, ps)
    ensures forall id :: id in ps && ps[id].direction == Long ==> PosOk(sp.long.generation, ps[id])
    ensures forall id :: id in ps && ps[id].direction == Short ==> PosOk(sp.short.generation, ps[id])
  {
    hide PosOk;
  }

  /** The sub pool as the rotations find it. */
  function Priced(mid: SubPool, env: Envelope): SubPool {
    mid.(lastPrice := env.pNow, lastSlot := env.slot)
  }

  /** The steps of `MovePrice`. */
  lemma MovePriceUnfolds(m: Market, sp: SubPool, env: Envelope)
    requires Moved(sp, env)
    ensures
      var r := MovePrice(m, sp, env);
      var demand := Demands(sp, env.pNow);
      && (demand.Err? ==> r == Err(demand.error))
      && (demand.Ok? ==>
            var settled := Settle(m, sp, demand.value, env.pNow);
            && (settled.Err? ==> r == Err(settled.error))
            && (settled.Ok? ==>
                  && Midway(m, sp, env) == settled.value.0
                  && var rotated := RotateBoth(m, Priced(settled.value.0, env), env.pNow);
                  && (rotated.Err? ==> r == Err(rotated.error))
                  && (rotated.Ok? ==>
                        var check := CheckSubPool(rotated.value.0);
                        && (check.Err? ==> r == Err(check.error))
                        && (check.Ok? ==>
                              && r.Ok? && r.value.0 == rotated.value.0
                              && r.value.1.long == settled.value.1 && r.value.1.short == settled.value.2
                              && r.value.1.events ==
                                   [PoolSync(sp.id, env.pNow, sp.long.shares, sp.short.shares, settled.value.1, settled.value.2)]
                                   + rotated.value.1))))
  {
    hide Demands, Settle, RotateBoth, CheckSubPool;
  }

  /** What a sync promises: the population is kept and only the tick configuration can fail a check. */
  ghost predicate KeepsWorld(m: Market, r: ClearingResult<(SubPool, SyncOutcome)>, sp: SubPool, env: Envelope,
                             ps: map<nat, Position>)
  {
    && (TickConfigured(m) ==> Benign(r))
    && (!Benign(r) ==> r == Err(Invariant(NoTickSize)))
    && (r.Ok? ==> WorldOk(r.value.0, ps) && Synced(m, sp, r.value.0, r.value.1, env))
  }

  lemma MovePriceKeepsWorld(m: Market, sp: SubPool, env: Envelope, ps: map<nat, Position>)
    requires WorldOk(sp, ps) && Moved(sp, env)
    ensures KeepsWorld(m, MovePrice(m, sp, env), sp, env, ps)
  {
    hide WorldOk, PoolCore, PoolBacked, SideOk, SideExchanged, Demands, Settle, RotateBoth, CheckSubPool, HoldingsOf,
      SideRotated, RotationEvents, PositionsOk, MovePrice, Exchanged, Midway;
    SidesCore(sp, ps);
    MovePriceUnfolds(m, sp, env);
    OneSidedDemand(sp, env.pNow);
    if Demands(sp, env.pNow).Ok? {
      var demand := Demands(sp, env.pNow).value;
      SettleIs(m, sp, demand, env.pNow);
      var settled := Settle(m, sp, demand, env.pNow);
      if settled.Ok? {
        RotationKeepsWorld(m, sp, settled.value.0, settled.value.1, settled.value.2, env, ps);
      }
    }
  }

  /** The second half of a sync. */
  lemma RotationKeepsWorld(
    m: Market, sp: SubPool, mid: SubPool, long: Flow, short: Flow, env: Envelope, ps: map<nat, Position>)
    requires WorldOk(sp, ps) && Exchanged(sp, mid, long, short, env.pNow)
    ensures
      var r := RotateBoth(m, Priced(mid, env), env.pNow);
      && (TickConfigured(m) ==> Benign(r))
      && (!Benign(r) ==> r == Err(Invariant(NoTickSize)))
      && (r.Ok? ==>
            && r.value.0 == sp.(long := r.value.0.long, short := r.value.0.short, lastPrice := env.pNow, lastSlot := env.slot)
            && WorldOk(r.value.0, ps) && Benign(CheckSubPool(r.value.0))
            && SideRotated(m, mid.long, r.value.0.long, env.pNow) && SideRotated(m, mid.short, r.value.0.short, env.pNow)
            && r.value.1 == RotationEvents(m, sp.id, Long, mid.long, env.pNow)
                            + RotationEvents(m, sp.id, Short, mid.short, env.pNow))
  {
    hide WorldOk, PoolCore, PoolBacked, SideOk, SideExchanged, RotateBoth, CheckSubPool, HoldingsOf,
      SideRotated, RotationEvents, PositionsOk;
    SidesCore(sp, ps);
    MidwayBacked(sp, mid, long, short, env.pNow, ps);
    var sp1 := Priced(mid, env);
    OlderPositions(sp, sp1, ps);
    RotateBothIs(m, sp1, env.pNow, ps);
    if RotateBoth(m, sp1, env.pNow).Ok? {
      WorldChecks(RotateBoth(m, sp1, env.pNow).value.0, ps);
    }
  }

  lemma SidesCore(sp: SubPool, ps: map<nat, Position>)
    requires WorldOk(sp, ps)
    ensures PoolCore(sp.long, Long) && PoolCore(sp.short, Short) && PositionsOk(sp, ps)
    ensures sp.long.store.direction.Long? && sp.short.store.direction.Short?
    ensures ZeroIff(sp.long) && ZeroIff(sp.short)
    ensures SideOk(sp.long, Long, ps) && SideOk(sp.short, Short, ps)
  {
    hide Inv, PositionsOk, Backed, LogOk, InRange, Sum, HoldingsOf;
  }

  lemma WorldChecks(sp: SubPool, ps: map<nat, Position>)
    requires WorldOk(sp, ps)
    ensures Benign(CheckSubPool(sp))
  {
    SidesCore(sp, ps);
    hide WorldOk, PoolCore, PositionsOk, CheckSubPool, PoolBacked, SideOk;
    ChecksPass(sp);
  }

  lemma MidwayBacked(sp: SubPool, mid: SubPool, long: Flow, short: Flow, pNow: nat, ps: map<nat, Position>)
    requires WorldOk(sp, ps) && Exchanged(sp, mid, long, short, pNow)
    ensures PoolBacked(mid.long, HoldingsOf(mid.long, Long, ps)) && PoolBacked(mid.short, HoldingsOf(mid.short, Short, ps))
    ensures mid.long.shares == 0 ==> mid.long.equity == 0
    ensures mid.short.shares == 0 ==> mid.short.equity == 0
    ensures mid.long.generation == sp.long.generation && mid.short.generation == sp.short.generation
  {
    SidesCore(sp, ps);
    hide WorldOk, PoolCore, PoolBacked, SideExchanged, SideOk, HoldingsOf, PositionsOk;
    ExchangeKeepsBacking(sp.long, mid.long, long, short, pNow, Long, ps);
    ExchangeKeepsBacking(sp.short, mid.short, short, long, pNow, Short, ps);
  }

  lemma SyncUnfolds(m: Market, sp: SubPool, env: Envelope)
    ensures
      var r := SyncPool(m, sp, env);
      && (Moved(sp, env) ==> r == MovePrice(m, sp, env) || (r.Err? && Benign(r)))
      && (!Moved(sp, env) ==>
            && (r.Err? ==> Benign(r) || (CheckSubPool(Priced(sp, env)).Err? && r.error == CheckSubPool(Priced(sp, env)).error))
            && (r.Ok? ==>
                  && r.value.0 == Priced(sp, env) && r.value.1.events == []
                  && r.value.1.long == NoFlow(env.pNow) && r.value.1.short == NoFlow(env.pNow)))
  {
    hide MovePrice, CheckSubPool, PriceMoveBps;
  }

  lemma QuietKeepsWorld(m: Market, sp: SubPool, env: Envelope, ps: map<nat, Position>)
    requires WorldOk(sp, ps) && !Moved(sp, env)
    ensures WorldOk(Priced(sp, env), ps) && Benign(CheckSubPool(Priced(sp, env)))
    ensures Exchanged(sp, sp, NoFlow(env.pNow), NoFlow(env.pNow), env.pNow)
    ensures Midway(m, sp, env) == sp
    ensures SideRotated(m, sp.long, sp.long, env.pNow) && SideRotated(m, sp.short, sp.short, env.pNow)
  {
    hide PoolCore, PoolBacked, SideExchanged, CheckSubPool, PositionsOk, HoldingsOf, RotatedTo;
    SidesCore(sp, ps);
    OlderPositions(sp, Priced(sp, env), ps);
    Untouched(sp.long, NoFlow(env.pNow), env.pNow);
    Untouched(sp.short, NoFlow(env.pNow), env.pNow);
    WorldChecks(Priced(sp, env), ps);
  }

  /**
    `sync_pool` keeps the population invariant, and no run-time check inside it can fail; the one
    `Invariant` error left is a market configured without a tick size.
  */
  lemma SyncKeepsWorld(m: Market, sp: SubPool, env: Envelope, ps: map<nat, Position>)
    requires WorldOk(sp, ps)
    ensures KeepsWorld(m, SyncPool(m, sp, env), sp, env, ps)
  {
    hide WorldOk, MovePrice, Exchanged, SideRotated, CheckSubPool, SyncPool, Midway, RotationEvents;
    SyncUnfolds(m, sp, env);
    if Moved(sp, env) {
      hide Synced;
      MovePriceKeepsWorld(m, sp, env, ps);
    } else {
      QuietKeepsWorld(m, sp, env, ps);
    }
  }
}
