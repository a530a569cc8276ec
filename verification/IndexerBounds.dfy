/**
  When the replay of a run cannot fail: what all syncs together report is bounded by the money that
  was deposited and the number of instructions.
*/
module IndexerBounds {
  import opened Wrappers
  import opened MoleMath
  import opened Sums
  import opened Dormant
  import opened Engine
  import opened EngineInvariant
  import opened EngineSync
  import EnginePositions
  import EngineOperations
  import opened EngineRuns
  import opened ChainMirror
  import ChainAccounts
  import opened ChainRuns
  import opened Onchain
  import ChainStrict
  import opened Indexer
  import opened IndexerRuns
  import opened IndexerChain

  // ---------------------------------------------------------------- one step

  /** A sync transfers no more than the sub pool has. */
  lemma TransferWithin(m: Market, sp: SubPool, env: Envelope, ps: map<nat, Position>)
    requires WorldOk(sp, ps) && SyncPool(m, sp, env).Ok?
    ensures Inflow(SyncPool(m, sp, env).value.1.events) <= EnginePositions.Funds(sp)
  {
    hide WorldOk, SyncPool, Midway, SideRotated, SideExchanged, PoolCore, SyncEvents, Inflow;
    SyncKeepsWorld(m, sp, env, ps);
    SyncInflow(m, sp, env, ps);
    var out := SyncPool(m, sp, env).value.1;
    PaidOutOf(sp.long, Midway(m, sp, env).long, out.long, out.short, env.pNow);
    PaidOutOf(sp.short, Midway(m, sp, env).short, out.short, out.long, env.pNow);
  }

  lemma PaidOutOf(p: Pool, p': Pool, own: Flow, other: Flow, pNow: nat)
    requires SideExchanged(p, p', own, other, pNow)
    ensures Amount(other) <= EnginePositions.SideFunds(p)
  {
    hide Credited;
  }

  /** The events of an operation that syncs first: the sync's, and one that reports no transfer. */
  lemma EventsAfterSync(m: Market, w: World, op: EngineOp)
    requires Applicable(w, op) && (op.OpenOp? || op.CloseOp? || op.ForceCloseOp? || op.ClaimOp?)
    requires EngineStep(m, w, op).Ok?
    ensures SyncPool(m, w.sp, op.env).Ok?
    ensures Inflow(EngineStep(m, w, op).value.1.events) == Inflow(SyncPool(m, w.sp, op.env).value.1.events)
  {
    hide SyncPool, Principal, MintShares, MulDivFloor, AddShares, CheckSubPool, LazyMigrate, CloseActive, BurnWorthless,
      RedeemRecovery, Inflow;
    var synced, events := SyncPool(m, w.sp, op.env).value.1.events, EngineStep(m, w, op).value.1.events;
    var last := events[|events| - 1];
    assert events == synced + [last] && InflowOf(last) == 0;
    LastInflow(synced, last);
  }

  lemma StepInflow(m: Market, w: World, op: EngineOp)
    requires Sound(w) && Applicable(w, op) && EngineStep(m, w, op).Ok?
    ensures Inflow(EngineStep(m, w, op).value.1.events) <= EnginePositions.Funds(w.sp)
  {
    hide WorldOk, SyncPool, OpenPosition, ClosePosition, ForceClose, ClaimRecovery, PreSyncBucket, HarvestDust,
      EnginePositions.Funds, Inflow;
    match op
    case SyncOp(env) => TransferWithin(m, w.sp, env, w.ps);
    case PreSyncOp(d, tick) => InflowOne(EngineStep(m, w, op).value.1.events[0]);
    case HarvestOp(d) => InflowOne(EngineStep(m, w, op).value.1.events[0]);
    case _ =>
      EventsAfterSync(m, w, op);
      TransferWithin(m, w.sp, op.env, w.ps);
  }

  /** Only an open deposits, and it deposits the gross amount. */
  lemma StepDeposits(m: Market, w: World, op: EngineOp)
    requires Applicable(w, op) && EngineStep(m, w, op).Ok?
    ensures
      var e := EngineStep(m, w, op).value.1;
      e.principal + e.fee == (if op.OpenOp? then op.gross else 0)
  {
    hide SyncPool, ClosePosition, ForceClose, ClaimRecovery, PreSyncBucket, HarvestDust, Principal, MintShares,
      MulDivFloor, AddShares, CheckSubPool;
    if op.OpenOp? {
      EngineOperations.PrincipalIs(m, op.gross);
    }
  }

  // ---------------------------------------------------------------- one instruction

  function Gross(i: Instruction): nat {
    if i.OpenIx? then i.gross else 0
  }

  function GrossOf(op: EngineOp): nat {
    if op.OpenOp? then op.gross else 0
  }

  lemma WriteDeposits(c: Chain, id: nat, sp: SubPool)
    ensures Write(c, id, sp).0.deposits == c.deposits
  {
    hide PackBuckets, PackLedger, PackChecks, MissingSlots, LooseBuckets, StrictBuckets, PlacedBelow, AccountOf;
  }

  lemma HandleDeposits(c: Chain, id: nat, op: EngineOp)
    requires Ready(c, id, op)
    ensures Handle(c, id, op).0.deposits <= c.deposits + GrossOf(op)
  {
    hide Build, EngineStep, Write, PutOwn, CanSnapshot;
    var c0 := Counted(c, op);
    if Build(c0, id).Ok? {
      var sp := Build(c0, id).value;
      var w := World(sp, Own(c.positions, id));
      ReadyApplies(c, id, op, sp);
      hide Own;
      if EngineStep(c.market, w, op).Ok? {
        StepDeposits(c.market, w, op);
        WriteDeposits(c0, id, EngineStep(c.market, w, op).value.0.sp);
      }
    }
  }

  lemma ExecuteDeposits(c: Chain, i: Instruction)
    requires Issuable(c, i)
    ensures Execute(c, i).0.deposits <= c.deposits + Gross(i)
  {
    hide Handle, Own, CanSnapshot, EmptyLedger, AccountOf, DeadRecord;
    match i
    case SyncIx(id, env) => HandleDeposits(c, id, SyncOp(env));
    case OpenIx(id, d, gross, env) =>
      if c.nextId !in c.positions {
        HandleDeposits(c, id, OpenOp(env, d, gross, c.nextId));
      }
    case CloseIx(p, env) => PositionDeposits(c, p, CloseOp(env, p));
    case ForceCloseIx(p, env, ack) => PositionDeposits(c, p, ForceCloseOp(env, p, ack));
    case ClaimIx(p, env) => PositionDeposits(c, p, ClaimOp(env, p));
    case HarvestIx(id, d) => HandleDeposits(c, id, HarvestOp(d));
    case PreSyncIx(key) =>
      if key in c.buckets && CanSnapshot(c, key.subPool) {
        HandleDeposits(c, key.subPool, PreSyncOp(key.direction, key.tick));
      }
    case _ =>
  }

  lemma PositionDeposits(c: Chain, p: nat, op: EngineOp)
    requires (op.CloseOp? || op.ForceCloseOp? || op.ClaimOp?) && op.id == p
    ensures HandlePosition(c, p, op).0.deposits <= c.deposits
  {
    hide Handle, Own, CanSnapshot;
    if p in c.positions && CanSnapshot(c, c.positions[p].subPool) {
      OwnHas(c, p);
      HandleDeposits(c, c.positions[p].subPool, op);
    }
  }

  /** What an outcome reports is within the deposits before it. */
  ghost predicate ReportsWithin(outcome: (Chain, MirrorResult<Effect>), deposits: nat) {
    outcome.1.Ok? ==> Inflow(outcome.1.value.events) <= deposits
  }

  lemma HandleReports(c: Chain, pools: map<nat, SubPool>, id: nat, op: EngineOp)
    requires ChainOk(c, pools) && id in pools && Ready(c, id, op)
    ensures ReportsWithin(Handle(c, id, op), c.deposits)
  {
    hide ChainOk, PoolFine, Handle, EngineStep, Own, Sound, CanSnapshot, ChainAccounts.AllSlots, Inflow,
      EnginePositions.Funds, Ready;
    HandleIs(c, pools, id, op);
    var sp := pools[id];
    PoolAt(c, pools, id);
    FineParts(c, id, sp);
    VaultCovers(c, pools, id);
    var w := World(sp, Own(c.positions, id));
    if EngineStep(c.market, w, op).Ok? {
      StepInflow(c.market, w, op);
    }
  }

  lemma VaultCovers(c: Chain, pools: map<nat, SubPool>, id: nat)
    requires ChainOk(c, pools) && id in pools
    ensures EnginePositions.Funds(pools[id]) <= c.deposits
  {
    hide PoolFine, Housed, EnginePositions.Funds, Sum;
    FundsWithin(c, pools, id, pools[id]);
  }

  lemma PositionReports(c: Chain, pools: map<nat, SubPool>, p: nat, op: EngineOp)
    requires ChainOk(c, pools) && (op.CloseOp? || op.ForceCloseOp? || op.ClaimOp?) && op.id == p
    ensures ReportsWithin(HandlePosition(c, p, op), c.deposits)
  {
    hide ChainOk, Handle, Own, CanSnapshot, ReportsWithin;
    assert forall e: MirrorError :: ReportsWithin((c, Err(e)), c.deposits) by { ErrorsReportNothing(c); }
    OpenIsReady(c, pools);
    if p in c.positions {
      PoolSnapshots(c, pools, c.positions[p].subPool);
      OwnHas(c, p);
      HandleReports(c, pools, c.positions[p].subPool, op);
    }
  }

  lemma ErrorsReportNothing(c: Chain)
    ensures forall e: MirrorError :: ReportsWithin((c, Err(e)), c.deposits)
  {
  }

  lemma ExecuteReports(c: Chain, i: Instruction)
    requires Coherent(c) && Issuable(c, i)
    ensures ReportsWithin(Execute(c, i), c.deposits)
  {
    hide ChainOk, Handle, HandlePosition, Own, PreInitBucket, CloseSlot, AddPool, CanSnapshot;
    var pools :| ChainOk(c, pools);
    OpenIsReady(c, pools);
    match i
    case SyncIx(id, env) => HandleReports(c, pools, KnownPool(c, pools, id), SyncOp(env));
    case OpenIx(id, d, gross, env) => HandleReports(c, pools, KnownPool(c, pools, id), OpenOp(env, d, gross, c.nextId));
    case CloseIx(p, env) => PositionReports(c, pools, p, CloseOp(env, p));
    case ForceCloseIx(p, env, ack) => PositionReports(c, pools, p, ForceCloseOp(env, p, ack));
    case ClaimIx(p, env) => PositionReports(c, pools, p, ClaimOp(env, p));
    case HarvestIx(id, d) => HandleReports(c, pools, KnownPool(c, pools, id), HarvestOp(d));
    case PreSyncIx(key) =>
      if key in c.buckets && CanSnapshot(c, key.subPool) {
        HandleReports(c, pools, key.subPool, PreSyncOp(key.direction, key.tick));
      }
    case _ =>
  }

  ghost function KnownPool(c: Chain, pools: map<nat, SubPool>, id: nat): (known: nat)
    requires ChainOk(c, pools) && CanSnapshot(c, id)
    ensures known == id && known in pools
  {
    ChainStrict.SnapshotKnown(c, pools, id);
    id
  }

  // ---------------------------------------------------------------- whole runs

  /** All that the opens of a run bring in. */
  function GrossTotal(code: seq<Instruction>): nat
    decreases |code|
  {
    if code == [] then 0 else Gross(code[0]) + GrossTotal(code[1..])
  }

  lemma {:induction false} InflowBound(c: Chain, code: seq<Instruction>)
    requires Coherent(c) && Clean(c, code)
    ensures RunInflow(c, code) <= Times(|code|, c.deposits + GrossTotal(code))
    decreases |code|
  {
    hide Coherent, Execute, Inflow, Times, HalfWritten;
    if code == [] {
    } else {
      var i, rest := code[0], code[1..];
      var total := c.deposits + GrossTotal(code);
      var c' := if Issuable(c, i) then Execute(c, i).0 else c;
      if Issuable(c, i) {
        ChainStrict.WholeKeeps(c, i);
        ExecuteReports(c, i);
        ExecuteDeposits(c, i);
      }
      InflowBound(c', rest);
      TimesMonotone(|rest|, c'.deposits + GrossTotal(rest), total);
      TimesNext(|rest|, total);
    }
  }

  lemma TimesMonotone(n: nat, x: nat, y: nat)
    requires x <= y
    ensures Times(n, x) <= Times(n, y)
  {
    MulMonotone(x, y, n);
    assert n * x == x * n && n * y == y * n;
  }

  lemma TimesNext(n: nat, x: nat)
    ensures Times(n + 1, x) == Times(n, x) + x
  {
  }

  lemma NewDeposits(m: Market, strict: bool)
    ensures NewChain(m, strict).deposits == 0
  {
  }

  /**
    Replay refinement with a bound known before the run: if the deposits times the number of
    instructions stay below 2^128, the replay of every clean run succeeds, and the indexer mirrors
    every sub pool as its accounts stand.
  */
  lemma IndexerKeepsUp(m: Market, strict: bool, code: seq<Instruction>)
    requires Clean(NewChain(m, strict), code) && Times(|code|, GrossTotal(code)) < U128
    ensures
      var r := Watch(EmptyState(), NewChain(m, strict), code);
      r.Ok? && MirrorsAccounts(r.value, Run(NewChain(m, strict), code))
  {
    hide Watch, RunInflow, MirrorsAccounts, Clean, Run, EmptyState, Coherent, NewChain, Times;
    NewChainCoherent(m, strict);
    NewDeposits(m, strict);
    InflowBound(NewChain(m, strict), code);
    IndexerMirrorsRuns(m, strict, code);
  }

  lemma {:induction false} GrossBound(code: seq<Instruction>)
    ensures GrossTotal(code) <= Times(|code|, U64)
    decreases |code|
  {
    if code == [] {
    } else {
      GrossBound(code[1..]);
      TimesNext(|code[1..]|, U64);
    }
  }

  const SHORT_RUN: nat := 0x1_0000_0000

  lemma ShortRunFits(code: seq<Instruction>)
    requires |code| < SHORT_RUN
    ensures Times(|code|, GrossTotal(code)) < U128
  {
    var n := |code|;
    GrossBound(code);
    TimesMonotone(n, GrossTotal(code), Times(n, U64));
    ShortSquare(n);
    assert Times(n, Times(n, U64)) == n * n * U64;
  }

  lemma ShortSquare(n: nat)
    requires n < SHORT_RUN
    ensures n * n < U64
  {
    MulMonotone(n, SHORT_RUN - 1, n);
    MulMonotone(n, SHORT_RUN - 1, SHORT_RUN - 1);
  }

  /** So no run of fewer than 2^32 instructions can make the replay fail in loose mode. */
  lemma IndexerKeepsUpWithLooseRuns(m: Market, code: seq<Instruction>)
    requires |code| < SHORT_RUN
    ensures
      var r := Watch(EmptyState(), NewChain(m, false), code);
      r.Ok? && MirrorsAccounts(r.value, Run(NewChain(m, false), code))
  {
    hide Watch, MirrorsAccounts, Clean, Run, EmptyState, Coherent, Times;
    NewChainCoherent(m, false);
    LooseIsClean(NewChain(m, false), code);
    ShortRunFits(code);
    IndexerKeepsUp(m, false, code);
  }

  /** Nor in strict mode, when every sync finds the slots of its price initialised. */
  lemma IndexerKeepsUpWithProvisionedRuns(m: Market, code: seq<Instruction>)
    requires |code| < SHORT_RUN && ChainStrict.Provisioned(NewChain(m, true), code)
    ensures
      var r := Watch(EmptyState(), NewChain(m, true), code);
      r.Ok? && MirrorsAccounts(r.value, Run(NewChain(m, true), code))
  {
    hide Watch, MirrorsAccounts, Clean, Run, EmptyState, Coherent, Times, ChainStrict.Provisioned, NewChain;
    NewChainCoherent(m, true);
    ChainStrict.ProvisionedIsClean(NewChain(m, true), code);
    ShortRunFits(code);
    IndexerKeepsUp(m, true, code);
  }
}
