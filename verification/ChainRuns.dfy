/**
  Whole runs of the account runtime: solvency in both distribution modes, atomic rollback, and no
  vault underflow or failed check in any reachable state.
*/
module ChainRuns {
  import opened Wrappers
  import opened MoleMath
  import opened Clearing
  import opened Sums
  import opened Dormant
  import opened DormantInvariant
  import opened Onchain
  import opened Engine
  import opened Holdings
  import StoreShares
  import opened EngineInvariant
  import opened EngineSync
  import opened EnginePositions
  import opened EngineOperations
  import opened EngineRuns
  import opened Capacity
  import opened ChainMirror
  import opened ChainAccounts

  // ---------------------------------------------------------------- the invariant

  /** The accounts of sub pool `id` hold `sp`, whose population is this runtime's positions. */
  ghost predicate PoolFine(c: Chain, id: nat, sp: SubPool) {
    && PoolStored(c, id, sp)
    && Sound(World(sp, Own(c.positions, id)))
    && Stored(c.market, sp)
  }

  function FundsOf(pools: map<nat, SubPool>): map<nat, nat> {
    map id | id in pools :: Funds(pools[id])
  }

  /** The vault holds exactly what the sub pools answer for; all deposits are accounted for. */
  ghost predicate Balanced(c: Chain, pools: map<nat, SubPool>) {
    && c.vault == Sum(FundsOf(pools))
    && c.deposits == c.withdrawals + c.vault + c.feeVault
  }

  /** No account without its sub pool, and no position id at or above the counter. */
  ghost predicate Housed(c: Chain) {
    && (forall k :: k in c.buckets ==> k.subPool in c.subPools)
    && (forall k :: k in c.ledgers ==> k.subPool in c.subPools)
    && (forall p :: p in c.positions ==> c.positions[p].subPool in c.subPools && p < c.nextId)
  }

  /** `pools` are the sub pools the accounts of `c` hold. */
  ghost predicate ChainOk(c: Chain, pools: map<nat, SubPool>) {
    && pools.Keys == c.subPools.Keys
    && (forall id :: id in pools ==> PoolFine(c, id, pools[id]))
    && Housed(c)
    && Balanced(c, pools)
  }

  lemma NewChainOk(m: Market, strict: bool)
    ensures ChainOk(NewChain(m, strict), map[])
  {
    SumZero(FundsOf(map[]));
  }

  // ---------------------------------------------------------------- engine states can be written

  lemma BackedLive(p: Pool, hs: map<nat, Holding>)
    requires PoolBacked(p, hs)
    ensures AllLive(p.store)
  {
    forall t | t in p.store.buckets
      ensures !RecordOf(p.store.direction, t, p.store.buckets[t]).IsDead()
    {
      assert StoreShares.SharesOf(p.store)[t] > 0;
    }
  }

  lemma SideWritable(m: Market, p: Pool, d: Direction, ps: map<nat, Position>)
    requires SideOk(p, d, ps) && Roomy(m, p.store) && TotalAllotted(p.store.ledger) < U128
    ensures Writable(m, p.store, d)
  {
    hide PoolOk, PoolBacked, HoldingsOf, AllLive, Inv, TotalAllotted;
    SideParts(p, d, ps);
    PoolParts(p, d);
    BackedLive(p, HoldingsOf(p, d, ps));
  }

  /** A sound sub pool that fits and has passed the checks can be written back and rebuilt. */
  lemma FineIsWritable(m: Market, sp: SubPool, ps: map<nat, Position>)
    requires Sound(World(sp, ps)) && Stored(m, sp)
    ensures PoolWritable(m, sp)
  {
    hide WorldOk, PoolOk, CheckSubPool, SideOk, PositionsOk, PoolCore, Writable, TotalAllotted, Roomy;
    SidesCore(sp, ps);
    SideParts(sp.long, Long, ps);
    SideParts(sp.short, Short, ps);
    ChecksPass(sp);
    SideWritable(m, sp.long, Long, ps);
    SideWritable(m, sp.short, Short, ps);
  }

  /** The sub pool a fine set of accounts is rebuilt to. */
  lemma FineBuilds(c: Chain, id: nat, sp: SubPool)
    requires PoolFine(c, id, sp)
    ensures Build(c, id) == Ok(sp) && CanSnapshot(c, id) && c.subPools[id].id == id && sp.id == id
  {
    hide Sound, Stored, PoolStored, PoolWritable, Build;
    FineIsWritable(c.market, sp, Own(c.positions, id));
    BuildIs(c, id, sp);
    AccountIds(c, id, sp);
    StoredId(c, id, sp);
  }

  lemma StoredId(c: Chain, id: nat, sp: SubPool)
    requires PoolStored(c, id, sp)
    ensures sp.id == id
  {
    hide SideStored;
  }

  // ---------------------------------------------------------------- positions

  lemma OwnAfterPut(ps: map<nat, PositionAccount>, id: nat, own: map<nat, Position>, j: nat)
    requires forall p :: p in own && p in ps ==> ps[p].subPool == id
    requires forall p :: p in ps && ps[p].subPool == id ==> p in own
    ensures Own(PutOwn(ps, id, own), j) == if j == id then own else Own(ps, j)
  {
    var got := Own(PutOwn(ps, id, own), j);
    var want := if j == id then own else Own(ps, j);
    forall p | p in want
      ensures p in got && got[p] == want[p]
    {
    }
    forall p | p in got
      ensures p in want
    {
    }
  }

  /** A step keeps all positions, and adds none but the opened one. */
  lemma StepPositions(m: Market, w: World, op: EngineOp)
    requires Sound(w) && Applicable(w, op) && EngineStep(m, w, op).Ok?
    ensures
      var ps' := EngineStep(m, w, op).value.0.ps;
      && w.ps.Keys <= ps'.Keys
      && ps'.Keys <= w.ps.Keys + (if op.OpenOp? then {op.id} else {})
    ensures EngineStep(m, w, op).value.0.sp.id == w.sp.id
  {
    hide Sound, SyncPool, OpenPosition, ClosePosition, ForceClose, ClaimRecovery, PreSyncBucket, HarvestDust;
    StepKeepsId(m, w, op);
  }

  lemma StepKeepsId(m: Market, w: World, op: EngineOp)
    requires Sound(w) && Applicable(w, op) && EngineStep(m, w, op).Ok?
    ensures EngineStep(m, w, op).value.0.sp.id == w.sp.id
  {
    hide WorldOk, SyncPool, OpenPosition, ClosePosition, ForceClose, ClaimRecovery, Funds, ClosedIn, ClaimedIn,
      OpenedIn, CheckSubPool, ApplyBucket, LazyMigrate, RedeemRecovery, CloseActive, BurnWorthless, Principal,
      MintShares, AddShares, PaidOff, RedeemedFrom, HasValue, MulDivFloor;
    match op
    case SyncOp(env) => SyncKeepsId(m, w.sp, env, w.ps);
    case OpenOp(env, d, gross, id) =>
      SyncKeepsId(m, w.sp, env, w.ps);
      OpenUnfolds(m, w.sp, env, d, gross, id);
    case CloseOp(env, id) =>
      SyncKeepsId(m, w.sp, env, w.ps);
      CloseUnfolds(m, w.sp, env, w.ps[id]);
      CashOutKeepsWorld(SyncPool(m, w.sp, env).value.0, w.ps, id);
    case ForceCloseOp(env, id, ack) =>
      SyncKeepsId(m, w.sp, env, w.ps);
      ForceCloseUnfolds(m, w.sp, env, w.ps[id], ack);
      BurnOutKeepsWorld(SyncPool(m, w.sp, env).value.0, w.ps, id);
    case ClaimOp(env, id) =>
      SyncKeepsId(m, w.sp, env, w.ps);
      ClaimUnfolds(m, w.sp, env, w.ps[id]);
      ClaimKeepsSide(SyncPool(m, w.sp, env).value.0, w.ps, id);
    case PreSyncOp(d, tick) => PreSyncChecked(m, w.sp, d, tick);
    case HarvestOp(d) =>
  }

  lemma SyncKeepsId(m: Market, sp: SubPool, env: Envelope, ps: map<nat, Position>)
    requires WorldOk(sp, ps)
    ensures SyncPool(m, sp, env).Ok? ==> SyncPool(m, sp, env).value.0.id == sp.id && WorldOk(SyncPool(m, sp, env).value.0, ps)
  {
    hide WorldOk, SyncPool, Midway, Exchanged, SideRotated, SyncEvents;
    SyncKeepsWorld(m, sp, env, ps);
  }

  // ---------------------------------------------------------------- one handler

  lemma StoredReads(c: Chain, c': Chain, id: nat, sp: SubPool)
    requires c'.market == c.market && c'.subPools == c.subPools && c'.buckets == c.buckets && c'.ledgers == c.ledgers
    ensures PoolStored(c', id, sp) <==> PoolStored(c, id, sp)
    ensures Build(c', id) == Build(c, id)
    ensures AllSlots(c', id, sp) <==> AllSlots(c, id, sp)
  {
    hide SideStored, Unpack, Listing, Slots, HasSlots;
  }

  lemma OtherSideStored(c: Chain, c': Chain, id: nat, j: nat, d: Direction, s: Store)
    requires Touched(c, c', id) && j != id && SideStored(c.market, c.buckets, c.ledgers, j, d, s)
    ensures SideStored(c'.market, c'.buckets, c'.ledgers, j, d, s)
  {
    hide PackBuckets, PackLedger;
  }

  lemma OtherPoolStored(c: Chain, c': Chain, id: nat, j: nat, sp: SubPool)
    requires Touched(c, c', id) && j != id && PoolStored(c, j, sp)
    ensures PoolStored(c', j, sp)
  {
    OtherSideStored(c, c', id, j, Long, sp.long.store);
    OtherSideStored(c, c', id, j, Short, sp.short.store);
    hide SideStored;
  }

  /** The state with the position counter already advanced. */
  function Counted(c: Chain, op: EngineOp): Chain {
    if op.OpenOp? then c.(nextId := c.nextId + 1) else c
  }

  /** The steps of a handler on a sub pool that can be rebuilt. */
  lemma HandleUnfolds(c: Chain, id: nat, op: EngineOp, sp: SubPool)
    requires Ready(c, id, op) && Build(Counted(c, op), id) == Ok(sp)
    ensures
      var w := World(sp, Own(c.positions, id));
      && Applicable(w, op)
      && var r := EngineStep(c.market, w, op);
      && (r.Err? ==>
            Handle(c, id, op) == (Restore(Counted(c, op), c, id).(nextId := c.nextId), Err(EngineFailed(r.error))))
      && (r.Ok? ==>
            var (c1, written) := Write(Counted(c, op), id, r.value.0.sp);
            && (written.Err? && op.SyncOp? ==> Handle(c, id, op) == (c1, Err(written.error)))
            && (written.Err? && !op.SyncOp? ==>
                  Handle(c, id, op) == (Restore(c1, c, id).(nextId := c.nextId), Err(written.error)))
            && (written.Ok? ==>
                  Handle(c, id, op) == MoveFunds(c1.(positions := PutOwn(c.positions, id, r.value.0.ps)), r.value.1)))
  {
    hide Build, EngineStep, Write, Restore, MoveFunds, PutOwn;
  }

  /** A sub pool's funds are part of the vault. */
  lemma FundsWithin(c: Chain, pools: map<nat, SubPool>, id: nat, sp: SubPool)
    requires Balanced(c, pools) && id in pools
    ensures Funds(pools[id]) <= c.vault
    ensures Sum(FundsOf(pools[id := sp])) == c.vault - Funds(pools[id]) + Funds(sp)
  {
    hide Funds;
    SumAtLeast(FundsOf(pools), id);
    assert FundsOf(pools[id := sp]) == FundsOf(pools)[id := Funds(sp)];
    SumUpdate(FundsOf(pools), id, Funds(sp));
  }

  lemma HousedAfter(c: Chain, c1: Chain, id: nat, own: map<nat, Position>, nextId: nat)
    requires Housed(c) && Touched(c, c1, id) && id in c.subPools && c.nextId <= nextId
    requires forall p :: p in own ==> p < nextId
    ensures Housed(c1.(positions := PutOwn(c.positions, id, own), nextId := nextId))
  {
  }

  /** The counter moves only for an open, and a snapshot taken before it restores it. */
  lemma RestoreAfter(c: Chain, c1: Chain, id: nat, op: EngineOp)
    requires CanSnapshot(c, id) && c.subPools[id].id == id && Touched(Counted(c, op), c1, id)
    ensures Restore(c1, c, id).(nextId := c.nextId) == c
  {
    hide Touched, Restore;
    RestoreUndoes(Counted(c, op), c1, id);
    RestoreIgnoresCounter(c, c1, id, op);
  }

  lemma RestoreIgnoresCounter(c: Chain, c1: Chain, id: nat, op: EngineOp)
    requires CanSnapshot(c, id)
    ensures Restore(c1, c, id) == Restore(c1, Counted(c, op), id)
  {
  }

  lemma TouchedNothing(c: Chain, id: nat)
    ensures Touched(c, c, id)
  {
  }

  /** The state after a successful handler is consistent again. */
  lemma HandledOk(c: Chain, pools: map<nat, SubPool>, id: nat, op: EngineOp, c1: Chain, w': World, e: Effect)
    requires ChainOk(c, pools) && id in pools && Ready(c, id, op)
    requires Touched(Counted(c, op), c1, id) && PoolStored(c1, id, w'.sp)
    requires Sound(w') && Stored(c.market, w'.sp)
    requires Own(c.positions, id).Keys <= w'.ps.Keys
    requires w'.ps.Keys <= Own(c.positions, id).Keys + (if op.OpenOp? then {op.id} else {})
    requires Funds(w'.sp) + e.paid + e.harvested == Funds(pools[id]) + e.principal
    requires !op.OpenOp? ==> e.principal == 0 && e.fee == 0
    requires e.principal == 0 || e.paid + e.harvested == 0
    ensures
      var (c', res) := MoveFunds(c1.(positions := PutOwn(c.positions, id, w'.ps)), e);
      res == Ok(e) && ChainOk(c', pools[id := w'.sp])
  {
    hide Sound, Stored, PoolStored, Funds, Touched, Own, PutOwn, Housed, Balanced, Sum;
    var pools' := pools[id := w'.sp];
    var c2 := c1.(positions := PutOwn(c.positions, id, w'.ps));
    TouchedFields(Counted(c, op), c1, id);
    FundsWithin(c, pools, id, w'.sp);
    BalancedParts(c, pools);
    var (c', res) := MoveFunds(c2, e);
    assert res == Ok(e);
    PutPositions(c, id, op, w'.ps);
    forall j | j in pools'
      ensures PoolFine(c', j, pools'[j])
    {
      OwnAfterPut(c.positions, id, w'.ps, j);
      StoredReads(c1, c', j, pools'[j]);
      if j != id {
        assert PoolFine(c, j, pools[j]);
        StoredReads(c, Counted(c, op), j, pools[j]);
        OtherPoolStored(Counted(c, op), c1, id, j, pools[j]);
      }
    }
    HousedAfterHandle(c, pools, id, op, c1, w'.ps);
    HousedReads(c2, c');
    BalancedFrom(c', pools', c, e);
  }

  lemma TouchedFields(c: Chain, c1: Chain, id: nat)
    requires Touched(c, c1, id)
    ensures c1 == c.(buckets := c1.buckets, ledgers := c1.ledgers, subPools := c1.subPools)
    ensures c1.subPools.Keys == c.subPools.Keys
  {
  }

  lemma BalancedParts(c: Chain, pools: map<nat, SubPool>)
    requires Balanced(c, pools)
    ensures c.vault == Sum(FundsOf(pools)) && c.deposits == c.withdrawals + c.vault + c.feeVault
  {
    hide FundsOf;
  }

  lemma BalancedFrom(c': Chain, pools': map<nat, SubPool>, c: Chain, e: Effect)
    requires c.deposits == c.withdrawals + c.vault + c.feeVault && e.paid + e.harvested <= c.vault
    requires c'.vault == c.vault + e.principal - e.paid - e.harvested == Sum(FundsOf(pools'))
    requires c'.feeVault == c.feeVault + e.fee + e.harvested
    requires c'.deposits == c.deposits + e.principal + e.fee
    requires c'.withdrawals == c.withdrawals + e.paid
    ensures Balanced(c', pools')
  {
    hide FundsOf, Sum;
  }

  lemma HousedReads(c: Chain, c': Chain)
    requires Housed(c) && c'.buckets == c.buckets && c'.ledgers == c.ledgers && c'.positions == c.positions
    requires c'.subPools == c.subPools && c'.nextId == c.nextId
    ensures Housed(c')
  {
  }

  /** The positions written back belong to this sub pool. */
  lemma PutPositions(c: Chain, id: nat, op: EngineOp, own: map<nat, Position>)
    requires Ready(c, id, op)
    requires Own(c.positions, id).Keys <= own.Keys
    requires own.Keys <= Own(c.positions, id).Keys + (if op.OpenOp? then {op.id} else {})
    ensures forall p :: p in own && p in c.positions ==> c.positions[p].subPool == id
    ensures forall p :: p in c.positions && c.positions[p].subPool == id ==> p in own
  {
    forall p | p in own && p in c.positions
      ensures c.positions[p].subPool == id
    {
      assert p in own.Keys;
    }
    forall p | p in c.positions && c.positions[p].subPool == id
      ensures p in own
    {
      assert p in Own(c.positions, id).Keys;
    }
  }

  lemma HousedAfterHandle(c: Chain, pools: map<nat, SubPool>, id: nat, op: EngineOp, c1: Chain, own: map<nat, Position>)
    requires ChainOk(c, pools) && id in pools && Ready(c, id, op)
    requires Touched(Counted(c, op), c1, id)
    requires own.Keys <= Own(c.positions, id).Keys + (if op.OpenOp? then {op.id} else {})
    ensures Housed(c1.(positions := PutOwn(c.positions, id, own)))
  {
    hide PoolFine, Balanced;
    TouchedFields(Counted(c, op), c1, id);
    var n := Counted(c, op).nextId;
    forall p | p in own
      ensures p < n
    {
      assert p in own.Keys;
    }
    HousedCounted(c, op);
    HousedAfter(Counted(c, op), c1, id, own, n);
    assert c1.(positions := PutOwn(c.positions, id, own), nextId := n) == c1.(positions := PutOwn(c.positions, id, own));
  }

  lemma HousedCounted(c: Chain, op: EngineOp)
    requires Housed(c)
    ensures Housed(Counted(c, op))
  {
  }

  /** What the engine makes of `op` on the sub pool the accounts of `id` hold. */
  ghost function EngineResult(c: Chain, sp: SubPool, id: nat, op: EngineOp): ClearingResult<(World, Effect)>
    requires Applicable(World(sp, Own(c.positions, id)), op)
  {
    EngineStep(c.market, World(sp, Own(c.positions, id)), op)
  }

  lemma ReadyApplies(c: Chain, id: nat, op: EngineOp, sp: SubPool)
    requires Ready(c, id, op)
    ensures Applicable(World(sp, Own(c.positions, id)), op)
  {
  }

  lemma PoolAt(c: Chain, pools: map<nat, SubPool>, id: nat)
    requires ChainOk(c, pools) && id in pools
    ensures PoolFine(c, id, pools[id])
  {
    hide PoolFine, Housed, Balanced;
  }

  lemma FineParts(c: Chain, id: nat, sp: SubPool)
    requires PoolFine(c, id, sp)
    ensures PoolStored(c, id, sp) && Sound(World(sp, Own(c.positions, id))) && Stored(c.market, sp)
  {
    hide PoolStored, Sound, Stored;
  }

  lemma OnlyOpensPayIn(m: Market, w: World, op: EngineOp)
    requires Applicable(w, op) && EngineStep(m, w, op).Ok?
    ensures var e := EngineStep(m, w, op).value.1; e.principal == 0 || e.paid + e.harvested == 0
  {
    hide SyncPool, OpenPosition, ClosePosition, ForceClose, ClaimRecovery, PreSyncBucket, HarvestDust;
  }

  /** What a handler does, given what the engine makes of its operation. */
  ghost predicate HandledAs(
    c: Chain, pools: map<nat, SubPool>, id: nat, op: EngineOp, r: ClearingResult<(World, Effect)>,
    c': Chain, res: MirrorResult<Effect>)
  {
    && c'.strict == c.strict && c'.market == c.market
    && (r.Err? ==> c' == c && res == Err(EngineFailed(r.error)))
    && (r.Ok? && (!c.strict || AllSlots(c, id, r.value.0.sp)) ==>
          res == Ok(r.value.1) && ChainOk(c', pools[id := r.value.0.sp]))
    && (r.Ok? && c.strict && !AllSlots(c, id, r.value.0.sp) ==>
          && res.Err? && res.error.BucketSlotExhausted?
          && (!op.SyncOp? ==> c' == c))
  }

  /**
    One handler on a consistent runtime. An engine error leaves every account, position, vault and
    the id counter as before. Otherwise the write-back succeeds, always in loose mode and in strict
    mode when every bucket has a slot, and the runtime is consistent again. A failed write-back is
    rolled back too, except by a sync.
  */
  lemma HandleIs(c: Chain, pools: map<nat, SubPool>, id: nat, op: EngineOp)
    requires ChainOk(c, pools) && id in pools && Ready(c, id, op)
    ensures Applicable(World(pools[id], Own(c.positions, id)), op)
    ensures HandledAs(c, pools, id, op, EngineResult(c, pools[id], id, op), Handle(c, id, op).0, Handle(c, id, op).1)
  {
    hide ChainOk, PoolFine, Sound, Stored, PoolStored, PoolWritable, Build, Handle, EngineStep, Write, Restore,
      MoveFunds, PutOwn, Own, Touched, AllSlots, CanSnapshot, Benign;
    var sp := pools[id];
    var c0 := Counted(c, op);
    PoolAt(c, pools, id);
    FineParts(c, id, sp);
    FineBuilds(c, id, sp);
    StoredReads(c, c0, id, sp);
    ReadyApplies(c, id, op, sp);
    HandleUnfolds(c, id, op, sp);
    TouchedNothing(c0, id);
    var w := World(sp, Own(c.positions, id));
    var r := EngineResult(c, sp, id, op);
    if r.Err? {
      RestoreAfter(c, c0, id, op);
    } else {
      var (w', e) := r.value;
      StepKeepsWorld(c.market, w, op);
      StepStaysStored(c.market, w, op);
      StepPositions(c.market, w, op);
      OnlyOpensPayIn(c.market, w, op);
      FineIsWritable(c.market, w'.sp, w'.ps);
      WriteIs(c0, id, w'.sp, sp);
      StoredReads(c, c0, id, w'.sp);
      var (c1, written) := Write(c0, id, w'.sp);
      TouchedFields(c0, c1, id);
      MovedFields(c1.(positions := PutOwn(c.positions, id, w'.ps)), e);
      if written.Ok? {
        HandledOk(c, pools, id, op, c1, w', e);
      } else {
        RestoreAfter(c, c1, id, op);
      }
    }
  }

  lemma MovedFields(c: Chain, e: Effect)
    ensures var c' := MoveFunds(c, e).0; c'.strict == c.strict && c'.market == c.market
  {
  }

  lemma StepStaysStored(m: Market, w: World, op: EngineOp)
    requires Sound(w) && Applicable(w, op) && Stored(m, w.sp) && EngineStep(m, w, op).Ok?
    ensures Stored(m, EngineStep(m, w, op).value.0.sp)
  {
    hide Sound, EngineStep, CheckSubPool, Fits;
    StepStored(m, w, op);
  }

  // ---------------------------------------------------------------- instructions

  /** The accounts hold some set of sound sub pools, and the vault covers them exactly. */
  ghost predicate Coherent(c: Chain) {
    exists pools :: ChainOk(c, pools)
  }

  /** A sync whose write-back found a slot missing: the one failure the runtime does not roll back. */
  predicate HalfWritten(c: Chain, i: Instruction, res: MirrorResult<Effect>) {
    c.strict && i.SyncIx? && res.Err? && res.error.BucketSlotExhausted?
  }

  /** What one instruction guarantees. */
  ghost predicate ExecutedWell(c: Chain, i: Instruction, c': Chain, res: MirrorResult<Effect>) {
    && c'.strict == c.strict && c'.market == c.market
    && (!HalfWritten(c, i, res) ==> Coherent(c'))
    && (res.Err? && !HalfWritten(c, i, res) ==> c' == c)
    && (res.Err? ==> !res.error.RuntimeInvariant?)
    && (res.Err? && res.error.BucketSlotExhausted? ==> c.strict)
  }

  lemma HandledWell(c: Chain, pools: map<nat, SubPool>, id: nat, op: EngineOp, i: Instruction)
    requires ChainOk(c, pools) && id in pools && Ready(c, id, op)
    requires i.SyncIx? <==> op.SyncOp?
    ensures ExecutedWell(c, i, Handle(c, id, op).0, Handle(c, id, op).1)
  {
    hide ChainOk, Handle, EngineStep, Ready, Own, AllSlots;
    HandleIs(c, pools, id, op);
    var r := EngineResult(c, pools[id], id, op);
    assert ChainOk(c, pools);
    if r.Ok? && ChainOk(Handle(c, id, op).0, pools[id := r.value.0.sp]) {
      assert Coherent(Handle(c, id, op).0);
    }
  }

  /** Ids and accounts line up as the handlers expect. */
  lemma OpenIsReady(c: Chain, pools: map<nat, SubPool>)
    requires ChainOk(c, pools)
    ensures c.nextId !in c.positions
    ensures forall id :: id in pools <==> id in c.subPools
    ensures forall p :: p in c.positions ==> c.positions[p].subPool in pools
    ensures forall k :: k in c.buckets ==> k.subPool in pools
  {
    hide PoolFine, Balanced;
  }

  lemma PoolSnapshots(c: Chain, pools: map<nat, SubPool>, id: nat)
    requires ChainOk(c, pools) && id in pools
    ensures CanSnapshot(c, id)
  {
    hide ChainOk, PoolFine, CanSnapshot;
    PoolAt(c, pools, id);
    FineBuilds(c, id, pools[id]);
  }

  lemma OwnHas(c: Chain, p: nat)
    requires p in c.positions
    ensures p in Own(c.positions, c.positions[p].subPool)
  {
  }

  lemma PositionHandled(c: Chain, pools: map<nat, SubPool>, p: nat, op: EngineOp, i: Instruction)
    requires ChainOk(c, pools) && (op.CloseOp? || op.ForceCloseOp? || op.ClaimOp?) && op.id == p && !i.SyncIx?
    ensures ExecutedWell(c, i, HandlePosition(c, p, op).0, HandlePosition(c, p, op).1)
  {
    hide ChainOk, Handle, Own, CanSnapshot;
    assert ChainOk(c, pools);
    assert Coherent(c);
    OpenIsReady(c, pools);
    if p in c.positions {
      var id := c.positions[p].subPool;
      PoolSnapshots(c, pools, id);
      OwnHas(c, p);
      hide Coherent;
      HandledWell(c, pools, id, op, i);
    }
  }

  // ---------------------------------------------------------------- account life cycle

  /** One dead slot more or less. */
  predicate DeadSlotChange(bs: map<Key, BucketRecord>, bs': map<Key, BucketRecord>, key: Key) {
    || (key !in bs && bs' == bs[key := DeadRecord(key.direction, key.tick)])
    || (key in bs && bs[key].IsDead() && bs' == bs - {key})
  }

  /** Adding or removing a dead slot changes no side. */
  lemma DeadSlotSide(c: Chain, c': Chain, key: Key, id: nat, d: Direction, s: Store)
    requires SideStored(c.market, c.buckets, c.ledgers, id, d, s)
    requires c'.market == c.market && c'.ledgers == c.ledgers
    requires DeadSlotChange(c.buckets, c'.buckets, key)
    requires AllLive(s) && s.direction == d
    ensures SideStored(c'.market, c'.buckets, c'.ledgers, id, d, s)
  {
    PackedLive(s);
    hide PackLedger;
    forall t | t in PackBuckets(s)
      ensures Key(id, d, t) in c'.buckets && c'.buckets[Key(id, d, t)] == PackBuckets(s)[t]
    {
      assert !PackBuckets(s)[t].IsDead();
    }
  }

  lemma DeadSlotPool(c: Chain, c': Chain, key: Key, id: nat, sp: SubPool)
    requires PoolFine(c, id, sp)
    requires c' == c.(buckets := c'.buckets)
    requires DeadSlotChange(c.buckets, c'.buckets, key)
    ensures PoolFine(c', id, sp)
  {
    hide Sound, Stored, SideStored, PoolWritable, DeadSlotChange;
    FineIsWritable(c.market, sp, Own(c.positions, id));
    WritableLive(c.market, sp);
    DeadSlotSide(c, c', key, id, Long, sp.long.store);
    DeadSlotSide(c, c', key, id, Short, sp.short.store);
  }

  lemma WritableLive(m: Market, sp: SubPool)
    requires PoolWritable(m, sp)
    ensures AllLive(sp.long.store) && sp.long.store.direction.Long?
    ensures AllLive(sp.short.store) && sp.short.store.direction.Short?
  {
    hide Inv, AllLive, TotalAllotted;
  }

  /** Dead slots come and go without touching a sub pool, a position or a vault. */
  lemma DeadSlotKeeps(c: Chain, c': Chain, pools: map<nat, SubPool>, key: Key)
    requires ChainOk(c, pools) && c' == c.(buckets := c'.buckets)
    requires DeadSlotChange(c.buckets, c'.buckets, key) && (key in c'.buckets ==> key.subPool in c.subPools)
    ensures ChainOk(c', pools)
  {
    hide PoolFine, DeadRecord, FundsOf;
    forall id | id in pools
      ensures PoolFine(c', id, pools[id])
    {
      DeadSlotPool(c, c', key, id, pools[id]);
    }
  }

  lemma EmptySides(c: Chain, id: nat, d: Direction, m: Market)
    requires forall k :: k in c.buckets ==> k.subPool != id
    requires SideKey(id, d) in c.ledgers && c.ledgers[SideKey(id, d)] == EmptyLedger(d, m.ledgerCap)
    ensures SideStored(m, c.buckets, c.ledgers, id, d, EmptyStore(d))
  {
  }

  lemma NoPositionsYet(c: Chain, id: nat)
    requires Housed(c) && id !in c.subPools
    ensures Own(c.positions, id) == map[]
    ensures forall k :: k in c.buckets ==> k.subPool != id
    ensures forall k :: k in c.ledgers ==> k.subPool != id
  {
  }

  lemma EmptyParts(d: Direction)
    ensures EmptyStore(d).buckets == map[] && EmptyStore(d).ledger == [] && Value(EmptyStore(d)) == 0
  {
  }

  lemma FreshFunds(id: nat, price: nat, slot: nat)
    ensures Funds(NewSubPool(id, price, slot)) == 0
  {
  }

  lemma FreshStored(m: Market, id: nat, price: nat, slot: nat)
    ensures Stored(m, NewSubPool(id, price, slot))
  {
    hide WorldOk, CheckSubPool, NewSubPool, EmptyStore;
    NewWorldOk(id, price, slot);
    NewStores(id, price, slot);
    EmptyParts(Long);
    EmptyParts(Short);
    FreshChecks(NewSubPool(id, price, slot));
  }

  lemma FreshChecks(sp: SubPool)
    requires WorldOk(sp, map[]) && sp.long.store.ledger == [] && sp.short.store.ledger == []
    ensures CheckSubPool(sp).Ok?
  {
    assert TotalAllotted([]) == 0;
    hide WorldOk, PoolOk, CheckSubPool, SideOk, PositionsOk, PoolCore;
    SidesCore(sp, map[]);
    SideParts(sp.long, Long, map[]);
    SideParts(sp.short, Short, map[]);
    ChecksPass(sp);
  }

  lemma AddedSide(c: Chain, c': Chain, j: nat, d: Direction, s: Store, id: nat)
    requires SideStored(c.market, c.buckets, c.ledgers, j, d, s) && j != id
    requires c'.market == c.market && c'.buckets == c.buckets
    requires forall k: SideKey :: k.subPool != id && k in c.ledgers ==> k in c'.ledgers && c'.ledgers[k] == c.ledgers[k]
    ensures SideStored(c'.market, c'.buckets, c'.ledgers, j, d, s)
  {
    hide PackLedger, SlotsHold;
  }

  lemma AddedPool(c: Chain, id: nat, price: nat, slot: nat, j: nat, sp: SubPool)
    requires PoolFine(c, j, sp) && j != id
    ensures PoolFine(AddPool(c, id, price, slot), j, sp)
  {
    var c' := AddPool(c, id, price, slot);
    hide Sound, Stored, SideStored, EmptyLedger;
    AddedSide(c, c', j, Long, sp.long.store, id);
    AddedSide(c, c', j, Short, sp.short.store, id);
  }

  lemma NewPoolFine(c: Chain, id: nat, price: nat, slot: nat)
    requires Housed(c) && id !in c.subPools
    ensures PoolFine(AddPool(c, id, price, slot), id, NewSubPool(id, price, slot))
  {
    hide WorldOk, Stored, SideStored, EmptyLedger, NewSubPool, EmptyStore, AccountOf, Own;
    NoPositionsYet(c, id);
    NewWorldOk(id, price, slot);
    FreshStored(c.market, id, price, slot);
    var c' := AddPool(c, id, price, slot);
    EmptySides(c', id, Long, c.market);
    EmptySides(c', id, Short, c.market);
    NewStores(id, price, slot);
  }

  lemma NewStores(id: nat, price: nat, slot: nat)
    ensures
      var sp := NewSubPool(id, price, slot);
      sp.id == id && sp.long.store == EmptyStore(Long) && sp.short.store == EmptyStore(Short)
  {
  }

  /** A new sub pool joins with nothing. */
  lemma AddPoolKeeps(c: Chain, pools: map<nat, SubPool>, id: nat, price: nat, slot: nat)
    requires ChainOk(c, pools) && id !in c.subPools
    ensures ChainOk(AddPool(c, id, price, slot), pools[id := NewSubPool(id, price, slot)])
  {
    hide PoolFine, NewSubPool, Funds, EmptyLedger, AccountOf, FundsOf, Sum;
    var c', sp := AddPool(c, id, price, slot), NewSubPool(id, price, slot);
    var pools' := pools[id := sp];
    forall j | j in pools'
      ensures PoolFine(c', j, pools'[j])
    {
      if j == id {
        NewPoolFine(c, id, price, slot);
      } else {
        AddedPool(c, id, price, slot, j, pools[j]);
      }
    }
    FreshFunds(id, price, slot);
    FundsOfNew(pools, id, sp);
  }

  lemma FundsOfNew(pools: map<nat, SubPool>, id: nat, sp: SubPool)
    requires id !in pools
    ensures Sum(FundsOf(pools[id := sp])) == Sum(FundsOf(pools)) + Funds(sp)
  {
    hide Funds;
    assert FundsOf(pools[id := sp]) == FundsOf(pools)[id := Funds(sp)];
    SumUpdate(FundsOf(pools), id, Funds(sp));
  }

  lemma PreInitIs(c: Chain, pools: map<nat, SubPool>, key: Key)
    requires ChainOk(c, pools)
    ensures ExecutedWell(c, PreInitIx(key), Silent(PreInitBucket(c, key)).0, Silent(PreInitBucket(c, key)).1)
  {
    hide ChainOk, DeadRecord;
    assert ChainOk(c, pools);
    var c' := PreInitBucket(c, key).0;
    if PreInitBucket(c, key).1.Ok? {
      DeadSlotKeeps(c, c', pools, key);
      assert ChainOk(c', pools);
    }
  }

  lemma CloseSlotIs(c: Chain, pools: map<nat, SubPool>, key: Key)
    requires ChainOk(c, pools)
    ensures ExecutedWell(c, CloseBucketIx(key), Silent(CloseSlot(c, key)).0, Silent(CloseSlot(c, key)).1)
  {
    hide ChainOk, DeadRecord;
    assert ChainOk(c, pools);
    OpenIsReady(c, pools);
    if key in c.buckets {
      PoolSnapshots(c, pools, key.subPool);
      assert key.direction == Long || key.direction == Short;
    }
    var c' := CloseSlot(c, key).0;
    if CloseSlot(c, key).1.Ok? {
      DeadSlotKeeps(c, c', pools, key);
      assert ChainOk(c', pools);
    }
  }

  /**
    Every instruction keeps the runtime coherent and is atomic: a failure leaves all accounts,
    positions, vaults and the id counter as they were. No failure is a vault underflow or a missing
    ledger, and only strict mode runs out of slots. The exception is a strict sync whose write-back
    finds a slot missing.
  */
  lemma ExecuteIs(c: Chain, i: Instruction)
    requires Coherent(c) && Issuable(c, i)
    ensures ExecutedWell(c, i, Execute(c, i).0, Execute(c, i).1)
  {
    hide ChainOk, Handle, HandlePosition, Own, PreInitBucket, CloseSlot, AddPool, ExecutedWell;
    var pools :| ChainOk(c, pools);
    OpenIsReady(c, pools);
    match i
    case SyncIx(id, env) => HandledWell(c, pools, id, SyncOp(env), i);
    case OpenIx(id, d, gross, env) => HandledWell(c, pools, id, OpenOp(env, d, gross, c.nextId), i);
    case CloseIx(p, env) => PositionHandled(c, pools, p, CloseOp(env, p), i);
    case ForceCloseIx(p, env, ack) => PositionHandled(c, pools, p, ForceCloseOp(env, p, ack), i);
    case ClaimIx(p, env) => PositionHandled(c, pools, p, ClaimOp(env, p), i);
    case HarvestIx(id, d) => HandledWell(c, pools, id, HarvestOp(d), i);
    case PreSyncIx(key) => PreSyncHandled(c, pools, key);
    case AddSubPoolIx(id, price, slot) => AddPoolIs(c, pools, id, price, slot);
    case PreInitIx(key) => PreInitIs(c, pools, key);
    case CloseBucketIx(key) => CloseSlotIs(c, pools, key);
  }

  lemma PreSyncHandled(c: Chain, pools: map<nat, SubPool>, key: Key)
    requires ChainOk(c, pools)
    ensures ExecutedWell(c, PreSyncIx(key), Execute(c, PreSyncIx(key)).0, Execute(c, PreSyncIx(key)).1)
  {
    hide ChainOk, Handle, CanSnapshot;
    assert ChainOk(c, pools);
    OpenIsReady(c, pools);
    if key in c.buckets {
      PoolSnapshots(c, pools, key.subPool);
      hide Coherent;
      HandledWell(c, pools, key.subPool, PreSyncOp(key.direction, key.tick), PreSyncIx(key));
    }
  }

  lemma AddPoolIs(c: Chain, pools: map<nat, SubPool>, id: nat, price: nat, slot: nat)
    requires ChainOk(c, pools) && id !in c.subPools
    ensures ExecutedWell(c, AddSubPoolIx(id, price, slot), AddPool(c, id, price, slot), Ok(NO_EFFECT))
  {
    hide ChainOk, EmptyLedger, NewSubPool;
    AddPoolKeeps(c, pools, id, price, slot);
    assert ChainOk(AddPool(c, id, price, slot), pools[id := NewSubPool(id, price, slot)]);
  }

  /** No sync of the run is left half-written; in loose mode none ever is. */
  ghost predicate Clean(c: Chain, code: seq<Instruction>)
    decreases |code|
  {
    code == []
    || (if Issuable(c, code[0])
        then !HalfWritten(c, code[0], Execute(c, code[0]).1) && Clean(Execute(c, code[0]).0, code[1..])
        else Clean(c, code[1..]))
  }

  /** Every state reached by a clean run is coherent, in either distribution mode. */
  lemma {:induction false} RunKeeps(c: Chain, code: seq<Instruction>)
    requires Coherent(c) && Clean(c, code)
    ensures Coherent(Run(c, code))
    decreases |code|
  {
    if code == [] {
    } else {
      hide Coherent, Execute;
      if Issuable(c, code[0]) {
        ExecuteIs(c, code[0]);
      }
      RunKeeps(if Issuable(c, code[0]) then Execute(c, code[0]).0 else c, code[1..]);
    }
  }

  lemma {:induction false} LooseIsClean(c: Chain, code: seq<Instruction>)
    requires Coherent(c) && !c.strict
    ensures Clean(c, code)
    decreases |code|
  {
    if code == [] {
    } else {
      hide Coherent, Execute;
      if Issuable(c, code[0]) {
        ExecuteIs(c, code[0]);
      }
      LooseIsClean(if Issuable(c, code[0]) then Execute(c, code[0]).0 else c, code[1..]);
    }
  }

  lemma NewChainCoherent(m: Market, strict: bool)
    ensures Coherent(NewChain(m, strict))
  {
    NewChainOk(m, strict);
    hide ChainOk;
    assert ChainOk(NewChain(m, strict), map[]);
  }
}
