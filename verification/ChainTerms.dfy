/**
  What each instruction moves between the vaults, to the unit, and that every run of the runtime
  keeps all buckets filed by band.
*/
module ChainTerms {
  import opened Wrappers
  import opened MoleMath
  import opened Clearing
  import opened Dormant
  import opened Engine
  import opened Holdings
  import opened EngineInvariant
  import opened EngineRuns
  import opened EngineTerms
  import EngineOperations
  import opened EngineBands
  import opened ChainMirror
  import opened Onchain
  import ChainAccounts
  import opened ChainRuns

  // ---------------------------------------------------------------- vaults

  /** The vaults of `c'` are those of `c` after these amounts moved. */
  predicate FundsMoved(c: Chain, c': Chain, paidIn: nat, fee: nat, paidOut: nat, harvested: nat) {
    && c'.vault + paidOut + harvested == c.vault + paidIn
    && c'.feeVault == c.feeVault + fee + harvested
    && c'.deposits == c.deposits + paidIn + fee
    && c'.withdrawals == c.withdrawals + paidOut
  }

  /** A handler that succeeds moves what the engine reports. */
  lemma HandleMoves(c: Chain, pools: map<nat, SubPool>, id: nat, op: EngineOp)
    requires ChainOk(c, pools) && id in pools && Ready(c, id, op) && Handle(c, id, op).1.Ok?
    ensures Build(c, id) == Ok(pools[id]) && Applicable(World(pools[id], Own(c.positions, id)), op)
    ensures
      var (c', res) := Handle(c, id, op);
      var r := EngineResult(c, pools[id], id, op);
      && r.Ok? && res == Ok(r.value.1)
      && var e := r.value.1;
      && FundsMoved(c, c', e.principal, e.fee, e.paid, e.harvested)
      && c'.positions == PutOwn(c.positions, id, r.value.0.ps)
      && c'.nextId == Counted(c, op).nextId
      && ChainOk(c', pools[id := r.value.0.sp])
  {
    hide ChainOk, PoolFine, Build, Handle, EngineStep, Write, Restore, PutOwn, Own, ChainAccounts.Touched, CanSnapshot,
      ChainAccounts.AllSlots;
    var sp := pools[id];
    PoolAt(c, pools, id);
    FineBuilds(c, id, sp);
    StoredReads(c, Counted(c, op), id, sp);
    HandleIs(c, pools, id, op);
    HandleUnfolds(c, id, op, sp);
    var r := EngineResult(c, sp, id, op);
    if r.Ok? {
      WriteLeavesFunds(Counted(c, op), id, r.value.0.sp);
    }
  }

  lemma WriteLeavesFunds(c: Chain, id: nat, sp: SubPool)
    ensures
      var c1 := Write(c, id, sp).0;
      && c1.vault == c.vault && c1.feeVault == c.feeVault && c1.deposits == c.deposits
      && c1.withdrawals == c.withdrawals && c1.nextId == c.nextId
  {
    hide PackChecks, PackLedger, PackBuckets, LooseBuckets, StrictBuckets, PlacedBelow, MissingSlots, LeastOf;
  }

  /** The sub pools behind coherent accounts. */
  lemma PoolsBehind(c: Chain) returns (pools: map<nat, SubPool>)
    requires Coherent(c)
    ensures ChainOk(c, pools)
  {
    hide ChainOk;
    pools :| ChainOk(c, pools);
  }

  lemma SnapshotHasPool(c: Chain, pools: map<nat, SubPool>, id: nat)
    requires ChainOk(c, pools) && CanSnapshot(c, id)
    ensures id in pools
  {
    hide PoolFine, Housed, Balanced;
  }

  /**
    An open that succeeds takes `gross` from the user: the open fee, rounded up to a unit, into the
    fee vault, and the rest, a margin within the market's limits, into the vault; the new position is
    stored under the next id with that margin as its principal.
  */
  lemma OpenMoves(c: Chain, id: nat, d: Direction, gross: u64, env: Envelope) returns (fee: nat, principal: nat)
    requires Coherent(c) && CanSnapshot(c, id) && Execute(c, OpenIx(id, d, gross, env)).1.Ok?
    ensures
      var c' := Execute(c, OpenIx(id, d, gross, env)).0;
      && IsCharge(c.market, gross, fee, principal)
      && c'.feeVault == c.feeVault + fee && c'.vault == c.vault + principal
      && c'.deposits == c.deposits + gross && c'.withdrawals == c.withdrawals
      && c'.nextId == c.nextId + 1
      && c.nextId in c'.positions && c'.positions[c.nextId].subPool == id
      && var pos := c'.positions[c.nextId].position;
      && pos.principal == principal && pos.direction == d && IsFloor(pos.notional, principal, c.market.leverageBps, BPS_SCALE)
  {
    hide ChainOk, Handle, OpenPosition, IsCharge, IsFloor, Own, CanSnapshot, Build;
    var pools := PoolsBehind(c);
    SnapshotHasPool(c, pools, id);
    OpenIsReady(c, pools);
    var op := OpenOp(env, d, gross, c.nextId);
    HandleMoves(c, pools, id, op);
    OpenCharges(c.market, pools[id], env, d, gross, c.nextId);
    OpenedDirection(c.market, pools[id], env, d, gross, c.nextId);
    var (sp', pos, out) := OpenPosition(c.market, pools[id], env, d, gross, c.nextId).value;
    fee, principal := out.fee, pos.principal;
    ChargeAdds(c.market, gross, fee, principal);
  }

  lemma OpenedDirection(m: Market, sp: SubPool, env: Envelope, d: Direction, gross: u64, id: nat)
    requires OpenPosition(m, sp, env, d, gross, id).Ok?
    ensures OpenPosition(m, sp, env, d, gross, id).value.1.direction == d
  {
    hide OpenPosition, SyncPool, Principal, MintShares, AddShares, MulDivFloor, CheckSubPool;
    EngineOperations.OpenUnfolds(m, sp, env, d, gross, id);
  }

  lemma ChargeAdds(m: Market, gross: nat, fee: nat, principal: nat)
    requires IsCharge(m, gross, fee, principal)
    ensures gross == fee + principal
  {
    hide IsCeil;
  }

  /** A close that succeeds pays the position's whole value out of the vault, and nothing else moves. */
  lemma CloseMoves(c: Chain, p: nat, env: Envelope)
    requires Coherent(c) && Execute(c, CloseIx(p, env)).1.Ok?
    ensures p in c.positions && Build(c, c.positions[p].subPool).Ok?
    ensures
      var r := ClosePosition(c.market, Build(c, c.positions[p].subPool).value, env, c.positions[p].position);
      r.Ok? && FundsMoved(c, Execute(c, CloseIx(p, env)).0, 0, 0, r.value.2.withdrawable, 0)
  {
    hide ChainOk, Handle, ClosePosition, CanSnapshot, Build;
    var pools := PoolsBehind(c);
    OpenIsReady(c, pools);
    OwnHas(c, p);
    HandleMoves(c, pools, c.positions[p].subPool, CloseOp(env, p));
  }

  /** A claim that succeeds pays what the recovery shares redeem for out of the vault. */
  lemma ClaimMoves(c: Chain, p: nat, env: Envelope)
    requires Coherent(c) && Execute(c, ClaimIx(p, env)).1.Ok?
    ensures p in c.positions && Build(c, c.positions[p].subPool).Ok?
    ensures
      var r := ClaimRecovery(c.market, Build(c, c.positions[p].subPool).value, env, c.positions[p].position);
      r.Ok? && FundsMoved(c, Execute(c, ClaimIx(p, env)).0, 0, 0, r.value.2.redeemable, 0)
  {
    hide ChainOk, Handle, ClaimRecovery, CanSnapshot, Build;
    var pools := PoolsBehind(c);
    OpenIsReady(c, pools);
    OwnHas(c, p);
    HandleMoves(c, pools, c.positions[p].subPool, ClaimOp(env, p));
  }

  /** A harvest moves the dust of one side from the vault into the fee vault. */
  lemma HarvestMoves(c: Chain, id: nat, d: Direction)
    requires Coherent(c) && CanSnapshot(c, id) && Execute(c, HarvestIx(id, d)).1.Ok?
    ensures Build(c, id).Ok?
    ensures FundsMoved(c, Execute(c, HarvestIx(id, d)).0, 0, 0, 0, Build(c, id).value.Side(d).dust)
  {
    hide ChainOk, Handle, CanSnapshot, Build, CheckSubPool, Own;
    var pools := PoolsBehind(c);
    SnapshotHasPool(c, pools, id);
    HandleMoves(c, pools, id, HarvestOp(d));
  }

  /** No other instruction moves anything between the vaults. */
  lemma OthersMoveNothing(c: Chain, i: Instruction)
    requires Coherent(c) && Issuable(c, i) && Execute(c, i).1.Ok?
    requires !i.OpenIx? && !i.CloseIx? && !i.ClaimIx? && !i.HarvestIx?
    ensures FundsMoved(c, Execute(c, i).0, 0, 0, 0, 0)
  {
    hide ChainOk, Handle, ForceClose, SyncPool, PreSyncBucket, CanSnapshot, Build, Own, DeadRecord;
    var pools := PoolsBehind(c);
    OpenIsReady(c, pools);
    match i
    case SyncIx(id, env) =>
      SnapshotHasPool(c, pools, id);
      HandleMoves(c, pools, id, SyncOp(env));
    case ForceCloseIx(p, env, ack) =>
      OwnHas(c, p);
      HandleMoves(c, pools, c.positions[p].subPool, ForceCloseOp(env, p, ack));
    case PreSyncIx(key) =>
      HandleMoves(c, pools, key.subPool, PreSyncOp(key.direction, key.tick));
    case AddSubPoolIx(id, price, slot) =>
    case PreInitIx(key) =>
    case CloseBucketIx(key) =>
  }

  /** The account `a` shows the books of pool `p`. */
  predicate ShowsPool(a: PoolAccount, p: Pool) {
    && a.equity == p.equity && a.shares == p.shares && a.notional == p.notional && a.recovery == p.recovery
    && a.dust == p.dust && a.generation == p.generation && a.log == p.log
  }

  /** After an instruction of the engine succeeds, the account of the sub pool shows its new books. */
  lemma HandleShows(c: Chain, pools: map<nat, SubPool>, id: nat, op: EngineOp)
    requires ChainOk(c, pools) && id in pools && Ready(c, id, op) && Handle(c, id, op).1.Ok?
    ensures Applicable(World(pools[id], Own(c.positions, id)), op) && EngineResult(c, pools[id], id, op).Ok?
    ensures
      var sp := EngineResult(c, pools[id], id, op).value.0.sp;
      var c' := Handle(c, id, op).0;
      && id in c'.subPools
      && ShowsPool(c'.subPools[id].long, sp.long) && ShowsPool(c'.subPools[id].short, sp.short)
      && c'.subPools[id].lastPrice == sp.lastPrice && c'.subPools[id].lastSlot == sp.lastSlot
  {
    hide ChainOk, PoolFine, Handle, EngineStep, Own, PutOwn, FundsMoved, CanSnapshot;
    HandleMoves(c, pools, id, op);
    var c' := Handle(c, id, op).0;
    var pools' := pools[id := EngineResult(c, pools[id], id, op).value.0.sp];
    PoolAt(c', pools', id);
    OpenIsReady(c', pools');
    FineBuilds(c', id, pools'[id]);
    BuiltShows(c', id);
  }

  lemma BuiltShows(c: Chain, id: nat)
    requires Build(c, id).Ok?
    ensures
      var sp := Build(c, id).value;
      && id in c.subPools
      && ShowsPool(c.subPools[id].long, sp.long) && ShowsPool(c.subPools[id].short, sp.short)
      && c.subPools[id].lastPrice == sp.lastPrice && c.subPools[id].lastSlot == sp.lastSlot
  {
    hide BuildSide;
  }

  // ---------------------------------------------------------------- slots

  /** Nothing but bucket accounts differs. */
  ghost predicate OnlyBuckets(c: Chain, c': Chain) {
    c' == c.(buckets := c'.buckets)
  }

  /** A bucket account is closed exactly when it holds nothing and has no logged event to catch up with. */
  lemma SlotCloses(c: Chain, key: Key)
    ensures
      var (c', res) := CloseSlot(c, key);
      && (res.Ok? <==>
            && key in c.buckets
            && var r := c.buckets[key];
            && r.shares == 0 && r.notional == 0 && r.accrued == 0 && r.count == 0
            && SideKey(key.subPool, key.direction) in c.ledgers
            && r.applied >= c.ledgers[SideKey(key.subPool, key.direction)].nextIndex)
      && (res.Ok? ==> c'.buckets == c.buckets - {key}) && OnlyBuckets(c, c')
  {
  }

  /** A bucket account is created exactly when its sub pool is known and it is not there yet; it is empty. */
  lemma SlotOpens(c: Chain, key: Key)
    ensures
      var (c', res) := PreInitBucket(c, key);
      && (res.Ok? <==> key.subPool in c.subPools && key !in c.buckets)
      && (res.Ok? ==> c'.buckets - {key} == c.buckets && key in c'.buckets)
      && (res.Ok? ==>
            var r := c'.buckets[key];
            && r.tick == key.tick && r.direction == (if key.direction.Long? then 0 else 1)
            && r.shares == 0 && r.notional == 0 && r.accrued == 0 && r.count == 0 && r.applied == 0 && r.anchor == 0)
      && OnlyBuckets(c, c')
  {
    var c' := PreInitBucket(c, key).0;
    if key !in c.buckets {
      assert c'.buckets - {key} == c.buckets;
    }
  }

  // ---------------------------------------------------------------- buckets by band

  ghost predicate BandedPools(m: Market, pools: map<nat, SubPool>) {
    forall id :: id in pools ==> BothBanded(m, pools[id])
  }

  /** The accounts hold sub pools whose buckets and rotate logs are filed by band. */
  ghost predicate BandedChain(c: Chain) {
    exists pools :: ChainOk(c, pools) && BandedPools(c.market, pools)
  }

  lemma HandleKeepsBands(c: Chain, pools: map<nat, SubPool>, id: nat, op: EngineOp)
    requires ChainOk(c, pools) && BandedPools(c.market, pools) && id in pools && Ready(c, id, op)
    requires Handle(c, id, op).1.Ok? && Handle(c, id, op).0.market == c.market
    ensures BandedChain(Handle(c, id, op).0)
  {
    hide ChainOk, PoolFine, Handle, EngineStep, BothBanded, Own, Build, PutOwn, FundsMoved, Sound;
    HandleMoves(c, pools, id, op);
    PoolAt(c, pools, id);
    FineParts(c, id, pools[id]);
    StepKeepsBands(c.market, World(pools[id], Own(c.positions, id)), op);
    var sp' := EngineResult(c, pools[id], id, op).value.0.sp;
    assert BandedPools(c.market, pools[id := sp']);
  }

  lemma PositionKeepsBands(c: Chain, pools: map<nat, SubPool>, p: nat, op: EngineOp)
    requires ChainOk(c, pools) && BandedPools(c.market, pools)
    requires (op.CloseOp? || op.ForceCloseOp? || op.ClaimOp?) && op.id == p
    requires HandlePosition(c, p, op).1.Ok? && HandlePosition(c, p, op).0.market == c.market
    ensures BandedChain(HandlePosition(c, p, op).0)
  {
    hide ChainOk, BandedPools, BandedChain, Handle, CanSnapshot, Own;
    OpenIsReady(c, pools);
    OwnHas(c, p);
    HandleKeepsBands(c, pools, c.positions[p].subPool, op);
  }

  lemma AddKeepsBands(c: Chain, pools: map<nat, SubPool>, id: nat, price: nat, slot: nat)
    requires ChainOk(c, pools) && BandedPools(c.market, pools) && id !in c.subPools
    ensures BandedChain(AddPool(c, id, price, slot))
  {
    hide ChainOk, BothBanded, NewSubPool, EmptyLedger, AccountOf;
    AddPoolKeeps(c, pools, id, price, slot);
    NewIsBanded(c.market, id, price, slot);
    assert BandedPools(c.market, pools[id := NewSubPool(id, price, slot)]);
  }

  lemma SlotKeepsBands(c: Chain, pools: map<nat, SubPool>, key: Key, c': Chain)
    requires ChainOk(c, pools) && BandedPools(c.market, pools)
    requires c' == PreInitBucket(c, key).0 || c' == CloseSlot(c, key).0
    ensures BandedChain(c')
  {
    hide ChainOk, BandedPools, DeadRecord;
    OpenIsReady(c, pools);
    if c' != c {
      DeadSlotKeeps(c, c', pools, key);
    }
    assert ChainOk(c', pools) && BandedPools(c'.market, pools);
  }

  /** An instruction that leaves no sync half-written keeps the buckets of every sub pool filed by band. */
  lemma ExecuteKeepsBands(c: Chain, i: Instruction)
    requires BandedChain(c) && Issuable(c, i) && !HalfWritten(c, i, Execute(c, i).1)
    ensures BandedChain(Execute(c, i).0)
  {
    hide ChainOk, BandedPools, Handle, HandlePosition, Own, PreInitBucket, CloseSlot, AddPool, CanSnapshot;
    var pools :| ChainOk(c, pools) && BandedPools(c.market, pools);
    assert Coherent(c);
    ExecuteIs(c, i);
    if Execute(c, i).1.Ok? {
      OpenIsReady(c, pools);
      hide BandedChain;
      match i
      case SyncIx(id, env) =>
        SnapshotHasPool(c, pools, id);
        HandleKeepsBands(c, pools, id, SyncOp(env));
      case OpenIx(id, d, gross, env) =>
        SnapshotHasPool(c, pools, id);
        HandleKeepsBands(c, pools, id, OpenOp(env, d, gross, c.nextId));
      case CloseIx(p, env) => PositionKeepsBands(c, pools, p, CloseOp(env, p));
      case ForceCloseIx(p, env, ack) => PositionKeepsBands(c, pools, p, ForceCloseOp(env, p, ack));
      case ClaimIx(p, env) => PositionKeepsBands(c, pools, p, ClaimOp(env, p));
      case HarvestIx(id, d) =>
        SnapshotHasPool(c, pools, id);
        HandleKeepsBands(c, pools, id, HarvestOp(d));
      case PreSyncIx(key) => HandleKeepsBands(c, pools, key.subPool, PreSyncOp(key.direction, key.tick));
      case AddSubPoolIx(id, price, slot) => AddKeepsBands(c, pools, id, price, slot);
      case PreInitIx(key) => SlotKeepsBands(c, pools, key, PreInitBucket(c, key).0);
      case CloseBucketIx(key) => SlotKeepsBands(c, pools, key, CloseSlot(c, key).0);
    }
  }

  /**
    After every clean run of the runtime each sub pool it can rebuild has all its buckets, pending
    shares included, and all its rotate records under the tick of the band of their price.
  */
  lemma {:induction false} RunKeepsBands(c: Chain, code: seq<Instruction>)
    requires BandedChain(c) && Clean(c, code)
    ensures BandedChain(Run(c, code))
    decreases |code|
  {
    if code == [] {
    } else {
      hide BandedChain, Execute;
      if Issuable(c, code[0]) {
        ExecuteKeepsBands(c, code[0]);
      }
      RunKeepsBands(if Issuable(c, code[0]) then Execute(c, code[0]).0 else c, code[1..]);
    }
  }

  lemma NewChainBanded(m: Market, strict: bool)
    ensures BandedChain(NewChain(m, strict))
  {
    NewChainOk(m, strict);
    hide ChainOk;
    assert BandedPools(m, map[]);
  }

  /** So in every state a clean run reaches, whatever a sub pool is rebuilt to is filed by band. */
  lemma RebuiltByBand(m: Market, strict: bool, code: seq<Instruction>, id: nat)
    requires Clean(NewChain(m, strict), code) && id in Run(NewChain(m, strict), code).subPools
    ensures
      var c := Run(NewChain(m, strict), code);
      Build(c, id).Ok? && BothBanded(c.market, Build(c, id).value)
  {
    hide ChainOk, Build, Clean, Run, BothBanded;
    NewChainBanded(m, strict);
    RunKeepsBands(NewChain(m, strict), code);
    var c := Run(NewChain(m, strict), code);
    var pools :| ChainOk(c, pools) && BandedPools(c.market, pools);
    OpenIsReady(c, pools);
    PoolAt(c, pools, id);
    FineBuilds(c, id, pools[id]);
  }
}
