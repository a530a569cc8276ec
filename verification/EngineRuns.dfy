/** One step of a sub pool with its positions, and what every step keeps. */
module EngineRuns {
  import opened Wrappers
  import opened MoleMath
  import opened Clearing
  import opened Dormant
  import opened Engine
  import opened Holdings
  import opened EngineInvariant
  import EngineSync
  import EnginePositions
  import opened EngineOperations

  datatype EngineOp =
    | SyncOp(env: Envelope)
    | OpenOp(env: Envelope, direction: Direction, gross: u64, id: nat)
    | CloseOp(env: Envelope, id: nat)
    | ForceCloseOp(env: Envelope, id: nat, acknowledged: bool)
    | ClaimOp(env: Envelope, id: nat)
    | PreSyncOp(direction: Direction, tick: int)
    | HarvestOp(direction: Direction)

  /** A sub pool and every position ever opened in it. */
  datatype World = World(sp: SubPool, ps: map<nat, Position>)

  /** What crosses the border of the sub pool, and what is reported. */
  datatype Effect = Effect(principal: nat, fee: nat, paid: nat, harvested: nat, events: seq<EngineEvent>)

  /** An open needs an unused id, everything else on a position needs the position. */
  predicate Applicable(w: World, op: EngineOp) {
    match op
    case OpenOp(_, _, _, id) => id !in w.ps
    case CloseOp(_, id) => id in w.ps
    case ForceCloseOp(_, id, _) => id in w.ps
    case ClaimOp(_, id) => id in w.ps
    case _ => true
  }

  ghost function EngineStep(m: Market, w: World, op: EngineOp): ClearingResult<(World, Effect)>
    requires Applicable(w, op)
  {
    match op
    case SyncOp(env) =>
      var r :- SyncPool(m, w.sp, env);
      Ok((w.(sp := r.0), Effect(0, 0, 0, 0, r.1.events)))
    case OpenOp(env, d, gross, id) =>
      var r :- OpenPosition(m, w.sp, env, d, gross, id);
      Ok((World(r.0, w.ps[id := r.1]), Effect(r.1.principal, r.2.fee, 0, 0, r.2.events)))
    case CloseOp(env, id) =>
      var r :- ClosePosition(m, w.sp, env, w.ps[id]);
      Ok((World(r.0, w.ps[id := r.1]), Effect(0, 0, r.2.withdrawable, 0, r.2.events)))
    case ForceCloseOp(env, id, acknowledged) =>
      var r :- ForceClose(m, w.sp, env, w.ps[id], acknowledged);
      Ok((World(r.0, w.ps[id := r.1]), Effect(0, 0, 0, 0, r.2.events)))
    case ClaimOp(env, id) =>
      var r :- ClaimRecovery(m, w.sp, env, w.ps[id]);
      Ok((World(r.0, w.ps[id := r.1]), Effect(0, 0, r.2.redeemable, 0, r.2.events)))
    case PreSyncOp(d, tick) =>
      var r :- PreSyncBucket(m, w.sp, d, tick);
      Ok((w.(sp := r.0), Effect(0, 0, 0, 0, [DormantBucketPendingApplied(w.sp.id, d, tick, r.1)])))
    case HarvestOp(d) =>
      var r :- HarvestDust(m, w.sp, d);
      Ok((w.(sp := r.0), Effect(0, 0, 0, r.1, [DustHarvested(w.sp.id, d, r.1)])))
  }

  ghost predicate Sound(w: World) {
    WorldOk(w.sp, w.ps)
  }

  /**
    Every operation keeps the population and accounts for every unit that enters or leaves; no
    run-time check of the engine can fail, except for a missing tick size and the refusal to
    force-close a position with value.
  */
  lemma StepKeepsWorld(m: Market, w: World, op: EngineOp)
    requires Sound(w) && Applicable(w, op)
    ensures
      var r := EngineStep(m, w, op);
      && (!Benign(r) ==>
            || (r == Err(Invariant(NoTickSize)) && !TickConfigured(m))
            || (r == Err(Invariant(ForceClosePositive)) && op.ForceCloseOp?))
      && (r.Ok? ==>
            var (w', e) := r.value;
            && Sound(w')
            && EnginePositions.Funds(w'.sp) + e.paid + e.harvested == EnginePositions.Funds(w.sp) + e.principal
            && (op.OpenOp? ==> e.principal + e.fee == op.gross)
            && (!op.OpenOp? ==> e.principal == 0 && e.fee == 0))
  {
    hide WorldOk, SyncPool, OpenPosition, ClosePosition, ForceClose, ClaimRecovery, PreSyncBucket, HarvestDust,
      EnginePositions.Funds, ClosedIn, ClaimedIn, LazyMigrate, EngineSync.Synced;
    match op
    case SyncOp(env) =>
      EngineSync.SyncKeepsWorld(m, w.sp, env, w.ps);
      if SyncPool(m, w.sp, env).Ok? {
        EnginePositions.SyncConserves(m, w.sp, env, w.ps);
      }
    case OpenOp(env, d, gross, id) =>
      OpenChecks(m, w.sp, env, d, gross, id, w.ps);
      if OpenPosition(m, w.sp, env, d, gross, id).Ok? {
        OpenKeepsWorld(m, w.sp, env, d, gross, id, w.ps);
      }
    case CloseOp(env, id) =>
      CloseChecks(m, w.sp, env, w.ps, id);
      if ClosePosition(m, w.sp, env, w.ps[id]).Ok? {
        CloseKeepsWorld(m, w.sp, env, w.ps, id);
      }
    case ForceCloseOp(env, id, acknowledged) =>
      ForceCloseChecks(m, w.sp, env, w.ps, id, acknowledged);
      if ForceClose(m, w.sp, env, w.ps[id], acknowledged).Ok? {
        ForceCloseKeepsWorld(m, w.sp, env, w.ps, id, acknowledged);
      }
    case ClaimOp(env, id) =>
      ClaimChecks(m, w.sp, env, w.ps, id);
      if ClaimRecovery(m, w.sp, env, w.ps[id]).Ok? {
        ClaimKeepsWorld(m, w.sp, env, w.ps, id);
      }
    case PreSyncOp(d, tick) =>
      PreSyncKeepsWorld(m, w.sp, d, tick, w.ps);
    case HarvestOp(d) =>
      HarvestKeepsWorld(m, w.sp, d, w.ps);
  }
}
