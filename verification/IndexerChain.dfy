/** The indexer beside the runtime: after every clean run it mirrors every sub pool. */
module IndexerChain {
  import opened Wrappers
  import opened MoleMath
  import opened Clearing
  import opened Dormant
  import opened Onchain
  import opened Engine
  import opened Holdings
  import opened EngineRuns
  import Capacity
  import opened ChainMirror
  import ChainAccounts
  import opened ChainRuns
  import opened Indexer
  import opened IndexerViews
  import IndexerSteps
  import opened IndexerRuns

  // ---------------------------------------------------------------- the relation

  /** A sub pool, or the empty one that a sub pool not yet added starts as. */
  function PoolOrNew(pools: map<nat, SubPool>, id: nat): SubPool {
    if id in pools then pools[id] else NewSubPool(id, 0, 0)
  }

  ghost predicate ShadowsAt(x: State, c: Chain, pools: map<nat, SubPool>, id: nat) {
    Mirrors(x, id, PoolOrNew(pools, id), Own(c.positions, id))
  }

  /** The indexer mirrors every sub pool there is, and knows nothing of any other. */
  ghost predicate Shadows(x: State, c: Chain, pools: map<nat, SubPool>) {
    forall id: nat :: ShadowsAt(x, c, pools, id)
  }

  lemma NewShadows(m: Market, strict: bool)
    ensures Shadows(EmptyState(), NewChain(m, strict), map[]) && ProfitsWithin(EmptyState(), 0)
  {
    forall id: nat
      ensures ShadowsAt(EmptyState(), NewChain(m, strict), map[], id)
    {
      NewShown(m, strict, id);
    }
  }

  lemma NewShown(m: Market, strict: bool, id: nat)
    ensures ShadowsAt(EmptyState(), NewChain(m, strict), map[], id)
  {
    EmptySideShown(id, Long);
    EmptySideShown(id, Short);
    NoOwn(id);
    hide ShowsSide, NewPool;
  }

  lemma NoOwn(id: nat)
    ensures Own(map[], id) == map[]
  {
  }

  lemma EmptySideShown(id: nat, d: Direction)
    ensures ShowsSide(EmptyState(), id, d, NewPool(d))
  {
    assert SideBuckets(EmptyState(), id, d) == map[];
    assert Stripped(View(EmptyStore(d))) == map[];
  }

  /** The runtime's positions bound what the indexer knows. */
  lemma KnownPositions(x: State, c: Chain, pools: map<nat, SubPool>, p: nat)
    requires Shadows(x, c, pools) && p in x.positions
    ensures p in c.positions
  {
    var id := x.positions[p].subPool;
    assert ShadowsAt(x, c, pools, id);
    hide ShowsSide, ShowsPosition, MoneyOk, PoolOrNew;
    assert p in Own(c.positions, id);
  }

  // ---------------------------------------------------------------- one instruction

  /** A successful handler: the engine's result, and where it went. */
  ghost predicate HandledInto(
    c: Chain, pools: map<nat, SubPool>, id: nat, c': Chain, res: MirrorResult<Effect>, w': World, e: Effect)
  {
    && res == Ok(e) && w'.sp.id == id
    && ChainOk(c', pools[id := w'.sp])
    && Own(c'.positions, id) == w'.ps
    && (forall j: nat :: j != id ==> Own(c'.positions, j) == Own(c.positions, j))
  }

  lemma HandledPositions(c: Chain, pools: map<nat, SubPool>, id: nat, op: EngineOp, w': World, e: Effect)
    requires ChainOk(c, pools) && id in pools && Ready(c, id, op)
    requires Applicable(World(pools[id], Own(c.positions, id)), op)
    requires EngineResult(c, pools[id], id, op) == Ok((w', e))
    requires Handle(c, id, op).1.Ok?
    ensures HandledInto(c, pools, id, Handle(c, id, op).0, Handle(c, id, op).1, w', e)
  {
    hide ChainOk, PoolFine, Sound, Capacity.Stored, ChainAccounts.PoolStored, Build, Handle, EngineStep, Write,
      Restore, PutOwn, Own, ChainAccounts.AllSlots, CanSnapshot;
    var sp, c0 := pools[id], Counted(c, op);
    PoolAt(c, pools, id);
    FineParts(c, id, sp);
    FineBuilds(c, id, sp);
    StoredReads(c, c0, id, sp);
    HandleIs(c, pools, id, op);
    HandleUnfolds(c, id, op, sp);
    StepPositions(c.market, World(sp, Own(c.positions, id)), op);
    PutPositions(c, id, op, w'.ps);
    PutOwns(c.positions, id, w'.ps);
    var c1 := Write(c0, id, w'.sp).0.(positions := PutOwn(c.positions, id, w'.ps));
    MovedPositions(c1, e);
  }

  lemma MovedPositions(c: Chain, e: Effect)
    ensures MoveFunds(c, e).0.positions == c.positions
    ensures MoveFunds(c, e).1.Ok? ==> MoveFunds(c, e).1 == Ok(e)
  {
  }

  lemma PutOwns(ps: map<nat, PositionAccount>, id: nat, own: map<nat, Position>)
    requires forall p :: p in own && p in ps ==> ps[p].subPool == id
    requires forall p :: p in ps && ps[p].subPool == id ==> p in own
    ensures Own(PutOwn(ps, id, own), id) == own
    ensures forall j: nat :: j != id ==> Own(PutOwn(ps, id, own), j) == Own(ps, j)
  {
    hide Own, PutOwn;
    OwnAfterPut(ps, id, own, id);
    forall j: nat | j != id
      ensures Own(PutOwn(ps, id, own), j) == Own(ps, j)
    {
      OwnAfterPut(ps, id, own, j);
    }
  }

  /** What the replay of an instruction's events achieves. */
  ghost predicate Followed(x: State, c': Chain, e: Effect, bound: nat) {
    var r := ApplyEvents(x, e.events);
    && (r.Err? ==> r.error == IndexerOverflow)
    && (bound + Inflow(e.events) < U128 ==> r.Ok?)
    && (r.Ok? ==>
          && ProfitsWithin(r.value, bound + Inflow(e.events))
          && exists pools' :: ChainOk(c', pools') && Shadows(r.value, c', pools'))
  }

  /** The same of an outcome: only a success has events. */
  ghost predicate OutcomeFollowed(x: State, outcome: (Chain, MirrorResult<Effect>), bound: nat) {
    outcome.1.Ok? ==> Followed(x, outcome.0, outcome.1.value, bound)
  }

  lemma FollowedFrom(
    x: State, x': State, c: Chain, c': Chain, pools: map<nat, SubPool>, id: nat, sp': SubPool)
    requires Shadows(x, c, pools) && id in pools && Elsewhere(x, x', id)
    requires Mirrors(x', id, sp', Own(c'.positions, id))
    requires forall j: nat :: j != id ==> Own(c'.positions, j) == Own(c.positions, j)
    ensures Shadows(x', c', pools[id := sp'])
  {
    hide Elsewhere, Mirrors, Own, NewSubPool;
    var pools' := pools[id := sp'];
    forall j: nat
      ensures ShadowsAt(x', c', pools', j)
    {
      if j != id {
        assert ShadowsAt(x, c, pools, j);
        MirrorsMoney(x', id, sp', Own(c'.positions, id));
        MirrorsElsewhere(x, x', id, j, PoolOrNew(pools, j), Own(c.positions, j));
      }
    }
  }

  lemma MirrorsMoney(x: State, id: nat, sp: SubPool, ps: map<nat, Position>)
    requires Mirrors(x, id, sp, ps)
    ensures MoneyOk(x)
  {
    hide ShowsSide, ShowsPositions, MoneyOk;
  }

  lemma HandledFollows(x: State, c: Chain, pools: map<nat, SubPool>, id: nat, op: EngineOp, bound: nat)
    requires ChainOk(c, pools) && Shadows(x, c, pools) && ProfitsWithin(x, bound)
    requires id in pools && Ready(c, id, op)
    ensures OutcomeFollowed(x, Handle(c, id, op), bound)
  {
    hide ChainOk, Handle, EngineStep, Own, Shadows, Mirrors, ProfitsWithin, PoolFine, Sound, CanSnapshot, Followed,
      StepMirrored, HandledInto, ChainAccounts.AllSlots;
    HandleIs(c, pools, id, op);
    if Handle(c, id, op).1.Ok? {
      var w := World(pools[id], Own(c.positions, id));
      var (w', e) := EngineResult(c, pools[id], id, op).value;
      HandledPositions(c, pools, id, op, w', e);
      PoolAt(c, pools, id);
      FineParts(c, id, pools[id]);
      FineBuilds(c, id, pools[id]);
      ShadowAt(x, c, pools, id);
      if op.OpenOp? {
        OpensUnknown(x, c, pools, op, id);
      }
      StepReplayed(x, c.market, w, op, bound);
      FollowedInto(x, c, pools, id, Handle(c, id, op).0, Handle(c, id, op).1, w, w', e, bound);
    }
  }

  /** From one sub pool to all of them. */
  lemma FollowedInto(
    x: State, c: Chain, pools: map<nat, SubPool>, id: nat, c': Chain, res: MirrorResult<Effect>, w: World, w': World, e: Effect,
    bound: nat)
    requires Shadows(x, c, pools) && id in pools && w.sp.id == id
    requires HandledInto(c, pools, id, c', res, w', e) && StepMirrored(x, w, w', e, bound)
    ensures res == Ok(e) && Followed(x, c', e, bound)
  {
    hide ChainOk, Own, Shadows, Mirrors, Elsewhere, ProfitsWithin, ApplyEvents, Inflow;
    var r := ApplyEvents(x, e.events);
    if r.Ok? {
      FollowedFrom(x, r.value, c, c', pools, id, w'.sp);
      assert ChainOk(c', pools[id := w'.sp]) && Shadows(r.value, c', pools[id := w'.sp]);
    }
  }

  lemma ShadowAt(x: State, c: Chain, pools: map<nat, SubPool>, id: nat)
    requires Shadows(x, c, pools) && id in pools
    ensures Mirrors(x, id, pools[id], Own(c.positions, id))
  {
    hide Mirrors, Own;
    assert ShadowsAt(x, c, pools, id);
  }

  lemma OpensUnknown(x: State, c: Chain, pools: map<nat, SubPool>, op: EngineOp, id: nat)
    requires Shadows(x, c, pools) && Ready(c, id, op) && op.OpenOp?
    ensures op.id !in x.positions
  {
    hide Shadows;
    if op.id in x.positions {
      KnownPositions(x, c, pools, op.id);
    }
  }

  /** Nothing but a freshly added sub pool is new. */
  lemma SilentFollows(x: State, c: Chain, c': Chain, pools: map<nat, SubPool>, pools': map<nat, SubPool>, bound: nat)
    requires Shadows(x, c, pools) && ChainOk(c', pools') && ProfitsWithin(x, bound) && c'.positions == c.positions
    requires forall j: nat :: PoolOrNew(pools', j).long == PoolOrNew(pools, j).long
                              && PoolOrNew(pools', j).short == PoolOrNew(pools, j).short
    ensures Followed(x, c', NO_EFFECT, bound)
  {
    hide ChainOk, Mirrors, ProfitsWithin, Own, PoolOrNew;
    forall j: nat
      ensures ShadowsAt(x, c', pools', j)
    {
      assert ShadowsAt(x, c, pools, j);
      IndexerSteps.MirrorsReads(x, j, PoolOrNew(pools, j), PoolOrNew(pools', j), Own(c.positions, j));
    }
    assert ChainOk(c', pools') && Shadows(x, c', pools');
  }

  lemma AddedShows(pools: map<nat, SubPool>, id: nat, price: nat, slot: nat)
    requires id !in pools
    ensures
      var pools' := pools[id := NewSubPool(id, price, slot)];
      forall j: nat :: PoolOrNew(pools', j).long == PoolOrNew(pools, j).long
                       && PoolOrNew(pools', j).short == PoolOrNew(pools, j).short
  {
  }

  lemma AddFollows(x: State, c: Chain, pools: map<nat, SubPool>, id: nat, price: nat, slot: nat, bound: nat)
    requires ChainOk(c, pools) && Shadows(x, c, pools) && ProfitsWithin(x, bound) && id !in c.subPools
    ensures Followed(x, AddPool(c, id, price, slot), NO_EFFECT, bound)
  {
    hide ChainOk, Shadows, ProfitsWithin, NewSubPool, EmptyLedger, Followed;
    OpenIsReady(c, pools);
    AddPoolKeeps(c, pools, id, price, slot);
    AddedShows(pools, id, price, slot);
    SilentFollows(x, c, AddPool(c, id, price, slot), pools, pools[id := NewSubPool(id, price, slot)], bound);
  }

  lemma SlotFollows(x: State, c: Chain, pools: map<nat, SubPool>, key: Key, c': Chain, bound: nat)
    requires ChainOk(c, pools) && Shadows(x, c, pools) && ProfitsWithin(x, bound)
    requires c' == PreInitBucket(c, key).0 || c' == CloseSlot(c, key).0
    ensures Followed(x, c', NO_EFFECT, bound)
  {
    hide ChainOk, Shadows, ProfitsWithin, DeadRecord, Followed, PoolOrNew;
    OpenIsReady(c, pools);
    if c' != c {
      DeadSlotKeeps(c, c', pools, key);
    }
    SilentFollows(x, c, c', pools, pools, bound);
  }

  lemma PositionFollows(x: State, c: Chain, pools: map<nat, SubPool>, p: nat, op: EngineOp, bound: nat)
    requires ChainOk(c, pools) && Shadows(x, c, pools) && ProfitsWithin(x, bound)
    requires (op.CloseOp? || op.ForceCloseOp? || op.ClaimOp?) && op.id == p
    ensures OutcomeFollowed(x, HandlePosition(c, p, op), bound)
  {
    hide ChainOk, Handle, Own, Followed, Shadows, ProfitsWithin, CanSnapshot;
    OpenIsReady(c, pools);
    if p in c.positions && CanSnapshot(c, c.positions[p].subPool) {
      OwnHas(c, p);
      HandledFollows(x, c, pools, c.positions[p].subPool, op, bound);
    }
  }

  /** The events of one successful instruction keep the indexer a mirror of the runtime. */
  lemma InstructionFollows(x: State, c: Chain, pools: map<nat, SubPool>, i: Instruction, bound: nat)
    requires ChainOk(c, pools) && Shadows(x, c, pools) && ProfitsWithin(x, bound)
    requires Issuable(c, i)
    ensures OutcomeFollowed(x, Execute(c, i), bound)
  {
    hide ChainOk, Handle, HandlePosition, Own, PreInitBucket, CloseSlot, AddPool, Followed, Shadows, ProfitsWithin;
    OpenIsReady(c, pools);
    match i
    case SyncIx(id, env) => HandledFollows(x, c, pools, id, SyncOp(env), bound);
    case OpenIx(id, d, gross, env) =>
      HandledFollows(x, c, pools, id, OpenOp(env, d, gross, c.nextId), bound);
    case CloseIx(p, env) => PositionFollows(x, c, pools, p, CloseOp(env, p), bound);
    case ForceCloseIx(p, env, ack) => PositionFollows(x, c, pools, p, ForceCloseOp(env, p, ack), bound);
    case ClaimIx(p, env) => PositionFollows(x, c, pools, p, ClaimOp(env, p), bound);
    case HarvestIx(id, d) => HandledFollows(x, c, pools, id, HarvestOp(d), bound);
    case PreSyncIx(key) => PreSyncFollows(x, c, pools, key, bound);
    case AddSubPoolIx(id, price, slot) => AddFollows(x, c, pools, id, price, slot, bound);
    case PreInitIx(key) => SlotFollows(x, c, pools, key, PreInitBucket(c, key).0, bound);
    case CloseBucketIx(key) => SlotFollows(x, c, pools, key, CloseSlot(c, key).0, bound);
  }

  lemma PreSyncFollows(x: State, c: Chain, pools: map<nat, SubPool>, key: Key, bound: nat)
    requires ChainOk(c, pools) && Shadows(x, c, pools) && ProfitsWithin(x, bound)
    ensures OutcomeFollowed(x, Execute(c, PreSyncIx(key)), bound)
  {
    hide ChainOk, Handle, Followed, Shadows, ProfitsWithin, CanSnapshot;
    OpenIsReady(c, pools);
    if key in c.buckets && CanSnapshot(c, key.subPool) {
      HandledFollows(x, c, pools, key.subPool, PreSyncOp(key.direction, key.tick), bound);
    }
  }

  // ---------------------------------------------------------------- whole runs

  /** What the indexer has made of a run: it is fed the events of every instruction that succeeded. */
  ghost function Watch(x: State, c: Chain, code: seq<Instruction>): IndexerResult<State>
    decreases |code|
  {
    if code == [] then Ok(x)
    else if !Issuable(c, code[0]) then Watch(x, c, code[1..])
    else
      var (c', res) := Execute(c, code[0]);
      var x' :- if res.Ok? then ApplyEvents(x, res.value.events) else Ok(x);
      Watch(x', c', code[1..])
  }

  /** Everything the syncs of a run credited. */
  ghost function RunInflow(c: Chain, code: seq<Instruction>): nat
    decreases |code|
  {
    if code == [] then 0
    else if !Issuable(c, code[0]) then RunInflow(c, code[1..])
    else
      var (c', res) := Execute(c, code[0]);
      (if res.Ok? then Inflow(res.value.events) else 0) + RunInflow(c', code[1..])
  }

  /** The indexer's state mirrors each sub pool as the runtime would rebuild it from its accounts. */
  ghost predicate MirrorsAccounts(x: State, c: Chain) {
    forall id :: id in c.subPools ==> Build(c, id).Ok? && Mirrors(x, id, Build(c, id).value, Own(c.positions, id))
  }

  lemma ShadowsAccounts(x: State, c: Chain, pools: map<nat, SubPool>)
    requires ChainOk(c, pools) && Shadows(x, c, pools)
    ensures MirrorsAccounts(x, c)
  {
    hide ChainOk, Shadows, PoolFine, Mirrors, Build, Own;
    OpenIsReady(c, pools);
    forall id | id in c.subPools
      ensures Build(c, id).Ok? && Mirrors(x, id, Build(c, id).value, Own(c.positions, id))
    {
      PoolAt(c, pools, id);
      FineBuilds(c, id, pools[id]);
      ShadowAt(x, c, pools, id);
    }
  }

  /** What holds of the indexer at the end of a run. */
  ghost predicate WatchedWell(r: IndexerResult<State>, end: Chain, bound: nat, more: nat) {
    && (r.Err? ==> r.error == IndexerOverflow)
    && (bound + more < U128 ==> r.Ok?)
    && (r.Ok? ==> MirrorsAccounts(r.value, end) && ProfitsWithin(r.value, bound + more))
  }

  lemma FollowedParts(x: State, c': Chain, e: Effect, bound: nat) returns (pools': map<nat, SubPool>)
    requires Followed(x, c', e, bound)
    ensures
      var r := ApplyEvents(x, e.events);
      && (r.Err? ==> r.error == IndexerOverflow)
      && (bound + Inflow(e.events) < U128 ==> r.Ok?)
      && (r.Ok? ==> ProfitsWithin(r.value, bound + Inflow(e.events)) && ChainOk(c', pools') && Shadows(r.value, c', pools'))
  {
    hide ChainOk, Shadows, ProfitsWithin, ApplyEvents, Inflow;
    if ApplyEvents(x, e.events).Ok? {
      pools' :| ChainOk(c', pools') && Shadows(ApplyEvents(x, e.events).value, c', pools');
    } else {
      pools' := map[];
    }
  }

  /** The induction over the instructions of a clean run. */
  lemma {:induction false} WatchIs(x: State, c: Chain, pools: map<nat, SubPool>, code: seq<Instruction>, bound: nat)
    requires ChainOk(c, pools) && Shadows(x, c, pools) && ProfitsWithin(x, bound) && Clean(c, code)
    ensures WatchedWell(Watch(x, c, code), Run(c, code), bound, RunInflow(c, code))
    decreases |code|
  {
    hide ChainOk, Shadows, ProfitsWithin, Execute, ApplyEvents, Inflow, MirrorsAccounts, Followed;
    if code == [] {
      ShadowsAccounts(x, c, pools);
    } else if !Issuable(c, code[0]) {
      WatchIs(x, c, pools, code[1..], bound);
    } else {
      var (c', res) := Execute(c, code[0]);
      assert Coherent(c);
      ExecuteIs(c, code[0]);
      if res.Ok? {
        InstructionFollows(x, c, pools, code[0], bound);
        var pools' := FollowedParts(x, c', res.value, bound);
        if ApplyEvents(x, res.value.events).Ok? {
          WatchIs(ApplyEvents(x, res.value.events).value, c', pools', code[1..], bound + Inflow(res.value.events));
        }
      } else {
        WatchIs(x, c, pools, code[1..], bound);
      }
    }
  }

  /**
    Replay refinement: an indexer fed the events of every successful instruction of a clean run
    mirrors every sub pool as its accounts stand. Its only possible error is a profit counter at
    2^128, which takes syncs that credited that much in total.
  */
  lemma IndexerMirrorsRuns(m: Market, strict: bool, code: seq<Instruction>)
    requires Clean(NewChain(m, strict), code)
    ensures
      var r := Watch(EmptyState(), NewChain(m, strict), code);
      && (r.Err? ==> r.error == IndexerOverflow && RunInflow(NewChain(m, strict), code) >= U128)
      && (r.Ok? ==> MirrorsAccounts(r.value, Run(NewChain(m, strict), code)))
  {
    hide ChainOk, Shadows, ProfitsWithin, Watch, RunInflow, MirrorsAccounts, Clean, Run, NewChain, EmptyState;
    NewShadows(m, strict);
    NewChainOk(m, strict);
    WatchIs(EmptyState(), NewChain(m, strict), map[], code, 0);
  }

  /** In loose mode every run is clean. */
  lemma IndexerMirrorsLooseRuns(m: Market, code: seq<Instruction>)
    ensures
      var r := Watch(EmptyState(), NewChain(m, false), code);
      && (r.Err? ==> r.error == IndexerOverflow && RunInflow(NewChain(m, false), code) >= U128)
      && (r.Ok? ==> MirrorsAccounts(r.value, Run(NewChain(m, false), code)))
  {
    hide Watch, RunInflow, MirrorsAccounts, Clean, Run, EmptyState, Coherent;
    NewChainCoherent(m, false);
    LooseIsClean(NewChain(m, false), code);
    IndexerMirrorsRuns(m, false, code);
  }
}
