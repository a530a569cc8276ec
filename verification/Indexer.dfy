/**
  The off-chain indexer (crates/indexer/src/lib.rs) as functions of its state: a second
  implementation that sees only the engine's events.
*/
module Indexer {
  import opened Wrappers
  import opened MoleMath
  import opened Clearing
  import opened Dormant
  import opened Engine
  import opened ChainMirror

  /** Events that do not fit the indexer's positions; the last one stands for three messages. */
  datatype Mismatch =
    | NoSharesIn // pool sync inflow with zero active shares before
    | NoSharesOut // pool sync outflow with zero active shares before
    | AlreadyClosed // event on closed position

  /** Events that do not fit its buckets. */
  datatype BucketFault =
    | MissingView // missing bucket
    | NoTick // recovery without tick

  datatype IndexerError =
    | IndexerOverflow
    | UnknownPosition(id: nat)
    | StateMismatch(what: Mismatch)
    | BucketMismatch(which: BucketFault)

  type IndexerResult<+T> = Result<T, IndexerError>

  /** `PositionView`. */
  datatype PositionView = PositionView(
    subPool: nat, direction: Direction, principal: nat, notional: nat, active: nat, recovery: nat,
    tick: Option<int>, generation: nat, lockedLoss: nat, profit: nat, closed: bool)

  /** `BucketView`; its direction is part of its key. */
  datatype BucketView = BucketView(anchor: nat, shares: nat, notional: nat, accrued: nat)

  datatype RotateEntry = RotateEntry(generation: nat, tick: int)

  /** What is tracked of one direction of a sub pool. */
  datatype SideView = SideView(generation: nat, log: seq<RotateEntry>)

  datatype SubPoolView = SubPoolView(long: SideView, short: SideView) {
    function Side(d: Direction): SideView {
      if d.Long? then long else short
    }

    function With(d: Direction, s: SideView): SubPoolView {
      if d.Long? then this.(long := s) else this.(short := s)
    }
  }

  datatype State = State(
    positions: map<nat, PositionView>, buckets: map<Key, BucketView>, subPools: map<nat, SubPoolView>)

  function EmptyState(): State {
    State(map[], map[], map[])
  }

  function NewSide(): SideView {
    SideView(0, [])
  }

  /** `sub_pool_mut`: the entry, created on first use. */
  function SubPoolAt(x: State, id: nat): SubPoolView {
    if id in x.subPools then x.subPools[id] else SubPoolView(NewSide(), NewSide())
  }

  /** The state once `sub_pool_mut` has been called. */
  function Touch(x: State, id: nat): State {
    x.(subPools := x.subPools[id := SubPoolAt(x, id)])
  }

  function FromMathIx<T>(r: MathResult<T>): IndexerResult<T> {
    match r
    case Ok(v) => Ok(v)
    case Err(_) => Err(IndexerOverflow)
  }

  // ---------------------------------------------------------------- open

  function Max(a: nat, b: nat): nat {
    if a < b then b else a
  }

  /** `apply_open`. */
  function ApplyOpen(x: State, id: nat, p: nat, d: Direction, principal: nat, notional: nat, shares: nat, generation: nat): State {
    var view := PositionView(id, d, principal, notional, shares, 0, None, generation, 0, 0, false);
    var side := SubPoolAt(x, id).Side(d);
    x.(positions := x.positions[p := view],
       subPools := x.subPools[id := SubPoolAt(x, id).With(d, side.(generation := Max(side.generation, generation)))])
  }

  // ---------------------------------------------------------------- pool sync

  /** An open position of that side with active shares of the current generation. */
  predicate IsActive(v: PositionView, id: nat, d: Direction, generation: nat) {
    !v.closed && v.subPool == id && v.direction == d && v.active != 0 && v.generation == generation
  }

  /** The gain of one active holder. */
  function Gained(v: PositionView, inflow: nat, total: nat): IndexerResult<PositionView>
    requires total > 0
  {
    var share :- FromMathIx(MulDivFloor(inflow, v.active, total));
    var profit :- FromMathIx(CheckedAdd(v.profit, share));
    Ok(v.(profit := profit))
  }

  /** The loss of one active holder: profit is used up first, the rest is locked up to the margin. */
  function Lost(v: PositionView, outflow: nat, total: nat): IndexerResult<PositionView>
    requires total > 0
  {
    var share :- FromMathIx(MulDivFloor(outflow, v.active, total));
    var credit := Min(v.profit, share);
    var lock := Min(share - credit, SaturatingSub(v.principal, v.lockedLoss));
    var locked :- FromMathIx(CheckedAdd(v.lockedLoss, lock));
    Ok(v.(profit := v.profit - credit, lockedLoss := locked))
  }

  /** The views once every active holder has gained its share. */
  function GainedViews(views: map<nat, PositionView>, id: nat, d: Direction, g: nat, inflow: nat, total: nat): map<nat, PositionView>
    requires total > 0
    requires forall p :: p in views && IsActive(views[p], id, d, g) ==> Gained(views[p], inflow, total).Ok?
  {
    map p | p in views :: if IsActive(views[p], id, d, g) then Gained(views[p], inflow, total).value else views[p]
  }

  /** The views once every active holder has borne its share. */
  function LostViews(views: map<nat, PositionView>, id: nat, d: Direction, g: nat, outflow: nat, total: nat): map<nat, PositionView>
    requires total > 0
    requires forall p :: p in views && IsActive(views[p], id, d, g) ==> Lost(views[p], outflow, total).Ok?
  {
    map p | p in views :: if IsActive(views[p], id, d, g) then Lost(views[p], outflow, total).value else views[p]
  }

  /** `distribute_active_profit`. */
  function ActiveProfit(x: State, id: nat, d: Direction, inflow: nat, total: nat): IndexerResult<State> {
    if total == 0 then Err(StateMismatch(NoSharesIn))
    else
      var g := SubPoolAt(x, id).Side(d).generation;
      if exists p :: p in x.positions && IsActive(x.positions[p], id, d, g) && Gained(x.positions[p], inflow, total).Err?
      then Err(IndexerOverflow)
      else
        Ok(Touch(x, id).(positions := GainedViews(x.positions, id, d, g, inflow, total)))
  }

  /** `distribute_active_loss`. */
  function ActiveLoss(x: State, id: nat, d: Direction, outflow: nat, total: nat): IndexerResult<State> {
    if total == 0 then Err(StateMismatch(NoSharesOut))
    else
      var g := SubPoolAt(x, id).Side(d).generation;
      if exists p :: p in x.positions && IsActive(x.positions[p], id, d, g) && Lost(x.positions[p], outflow, total).Err?
      then Err(IndexerOverflow)
      else
        Ok(Touch(x, id).(positions := LostViews(x.positions, id, d, g, outflow, total)))
  }

  /** A bucket view as the bucket it mirrors. */
  function AsBucket(v: BucketView): Bucket {
    Bucket(v.anchor, v.shares, v.notional, v.accrued, 0, 0)
  }

  /** The bucket views of one side, by tick. */
  function SideBuckets(x: State, id: nat, d: Direction): map<int, Bucket> {
    map k | k in x.buckets && k.subPool == id && k.direction == d :: k.tick := AsBucket(x.buckets[k])
  }

  /** A resting position in the bucket at `tick`. */
  predicate RestsIn(v: PositionView, k: Key) {
    !v.closed && v.subPool == k.subPool && v.direction == k.direction && v.tick == Some(k.tick) && v.recovery != 0
  }

  /** A bucket's part of a recovery distribution; a bucket without shares is passed over. */
  function BucketPart(b: Bucket, d: Direction, price: nat, amount: nat, total: nat): nat {
    if b.shares == 0 then 0 else Share(amount, Outstanding(d, b, price), total)
  }

  /** What a position gains from its bucket's part. */
  function RestGain(v: PositionView, b: Bucket, part: nat): nat
    requires b.shares > 0
  {
    FloorDiv(part, v.recovery, b.shares)
  }

  /** The bucket a position rests in, if the state has one. */
  function HomeKey(v: PositionView): Key {
    Key(v.subPool, v.direction, if v.tick.Some? then v.tick.value else 0)
  }

  function RestedPosition(x: State, v: PositionView, id: nat, d: Direction, price: nat, amount: nat, total: nat): PositionView {
    var k := HomeKey(v);
    if k in x.buckets && k.subPool == id && k.direction == d && RestsIn(v, k) && x.buckets[k].shares > 0 then
      v.(profit := v.profit + RestGain(v, AsBucket(x.buckets[k]), BucketPart(AsBucket(x.buckets[k]), d, price, amount, total)))
    else v
  }

  /** The bucket views after a distribution. */
  function CreditedViews(x: State, id: nat, d: Direction, amount: nat, price: nat, total: nat): map<Key, BucketView> {
    map k | k in x.buckets ::
      if k.subPool == id && k.direction == d
      then x.buckets[k].(accrued := x.buckets[k].accrued + BucketPart(AsBucket(x.buckets[k]), d, price, amount, total))
      else x.buckets[k]
  }

  /** The position views after a distribution. */
  function RestedViews(x: State, id: nat, d: Direction, amount: nat, price: nat, total: nat): map<nat, PositionView> {
    map p | p in x.positions :: RestedPosition(x, x.positions[p], id, d, price, amount, total)
  }

  /** `distribute_recovery_profit`. */
  ghost function RecoveryProfit(x: State, id: nat, d: Direction, amount: nat, price: nat): IndexerResult<State> {
    var bs := SideBuckets(x, id, d);
    if !ClaimsFit(d, bs, price) then Err(IndexerOverflow)
    else
      var total := TotalOutstanding(d, bs, price);
      if total == 0 then Ok(x)
      else
        var positions, buckets := RestedViews(x, id, d, amount, price, total), CreditedViews(x, id, d, amount, price, total);
        if (exists p :: p in positions && positions[p].profit >= U128) || (exists k :: k in buckets && k.subPool == id && k.direction == d && buckets[k].accrued >= U128)
        then Err(IndexerOverflow)
        else Ok(x.(positions := positions, buckets := buckets))
  }

  /** The gains of one side in a sync. */
  ghost function SideGains(x: State, id: nat, d: Direction, f: Flow, sharesBefore: nat, price: nat): IndexerResult<State> {
    var x1 :- if f.toPool > 0 then ActiveProfit(x, id, d, f.toPool, sharesBefore) else Ok(x);
    if f.toRecovery > 0 || f.residual > 0 then
      if f.toRecovery + f.residual >= U128 then Err(IndexerOverflow)
      else RecoveryProfit(x1, id, d, f.toRecovery + f.residual, price)
    else Ok(x1)
  }

  /** `apply_pool_sync`. */
  ghost function ApplySync(x: State, id: nat, price: nat, longBefore: nat, shortBefore: nat, long: Flow, short: Flow): IndexerResult<State> {
    var x1 :- SideGains(x, id, Long, long, longBefore, price);
    var x2 :- SideGains(x1, id, Short, short, shortBefore, price);
    var x3 :- if Amount(long) > 0 then ActiveLoss(x2, id, Short, Amount(long), shortBefore) else Ok(x2);
    if Amount(short) > 0 then ActiveLoss(x3, id, Long, Amount(short), longBefore) else Ok(x3)
  }

  // ---------------------------------------------------------------- rotation

  /** An active position of the generation that just ended. */
  predicate Rotates(v: PositionView, id: nat, d: Direction, generation: nat) {
    !v.closed && v.subPool == id && v.direction == d && v.generation == generation && v.active != 0
  }

  function RotatedView(v: PositionView, tick: int, generation: nat): PositionView {
    v.(recovery := v.recovery + v.active, tick := Some(tick), active := 0, generation := generation)
  }

  /** The views once every rotating position rests in the bucket at `tick`. */
  function RotatedViews(views: map<nat, PositionView>, id: nat, d: Direction, ended: nat, tick: int, generation: nat)
    : map<nat, PositionView>
  {
    map p | p in views :: if Rotates(views[p], id, d, ended) then RotatedView(views[p], tick, generation) else views[p]
  }

  function BucketAt(x: State, k: Key, anchor: nat): BucketView {
    if k in x.buckets then x.buckets[k] else BucketView(anchor, 0, 0, 0)
  }

  /** `apply_rotate`. */
  function ApplyRotate(x: State, id: nat, d: Direction, tick: int, anchor: nat, shares: nat, notional: nat, ended: nat): IndexerResult<State> {
    var side := SubPoolAt(x, id).Side(d);
    var side' := SideView(side.generation + 1, side.log + [RotateEntry(ended, tick)]);
    var b := BucketAt(x, Key(id, d, tick), anchor);
    if exists p :: p in x.positions && Rotates(x.positions[p], id, d, ended)
                   && x.positions[p].recovery + x.positions[p].active >= U128
    then Err(IndexerOverflow)
    else if b.shares + shares >= U128 || b.notional + notional >= U128 then Err(IndexerOverflow)
    else
      Ok(State(
        RotatedViews(x.positions, id, d, ended, tick, side'.generation),
        x.buckets[Key(id, d, tick) := b.(shares := b.shares + shares, notional := b.notional + notional)],
        x.subPools[id := SubPoolAt(x, id).With(d, side')]))
  }

  // ---------------------------------------------------------------- leaving

  /** `burn_from_bucket`. */
  function BurnFrom(x: State, k: Key, shares: nat, notional: nat, value: nat): IndexerResult<State> {
    if k !in x.buckets then Err(BucketMismatch(MissingView))
    else if shares > x.buckets[k].shares then Err(IndexerOverflow)
    else
      var v := x.buckets[k];
      var v' := v.(shares := v.shares - shares, notional := SaturatingSub(v.notional, notional),
                   accrued := SaturatingSub(v.accrued, value));
      Ok(x.(buckets := if v'.shares == 0 && v'.accrued == 0 then x.buckets - {k} else x.buckets[k := v']))
  }

  /** `apply_close` and `apply_force_close`. */
  function ApplyLeave(x: State, id: nat, p: nat, d: Direction, active: nat, recovery: nat, notional: nat, value: nat): IndexerResult<State> {
    if p !in x.positions then Err(UnknownPosition(p))
    else if x.positions[p].closed then Err(StateMismatch(AlreadyClosed))
    else
      var v := x.positions[p];
      var x1 :-
        if recovery == 0 then Ok(x)
        else if v.tick.None? then Err(BucketMismatch(NoTick))
        else BurnFrom(x, Key(id, d, v.tick.value), recovery, notional, value);
      if active > v.active || recovery > v.recovery then Err(IndexerOverflow)
      else
        var left := v.recovery - recovery;
        Ok(x1.(positions := x1.positions[p :=
          v.(active := v.active - active, recovery := left, tick := if left == 0 then None else v.tick, closed := true)]))
  }

  /** `apply_claim_recovery`. */
  function ApplyClaim(x: State, id: nat, p: nat, d: Direction, tick: int, recovery: nat, notional: nat, value: nat): IndexerResult<State> {
    if p !in x.positions then Err(UnknownPosition(p))
    else if x.positions[p].closed then Err(StateMismatch(AlreadyClosed))
    else
      var v := x.positions[p];
      var x1 :- BurnFrom(x, Key(id, d, tick), recovery, notional, value);
      if recovery > v.recovery then Err(IndexerOverflow)
      else
        var left := v.recovery - recovery;
        Ok(x1.(positions := x1.positions[p :=
          v.(recovery := left, tick := if left == 0 then None else v.tick, profit := SaturatingSub(v.profit, value))]))
  }

  /** `apply`. */
  ghost function ApplyEvent(x: State, e: EngineEvent): IndexerResult<State> {
    match e
    case PoolSync(id, price, longBefore, shortBefore, long, short) => ApplySync(x, id, price, longBefore, shortBefore, long, short)
    case PositionOpened(id, p, d, principal, notional, shares, g) => Ok(ApplyOpen(x, id, p, d, principal, notional, shares, g))
    case PositionClosed(id, p, d, active, recovery, notional, _, value) => ApplyLeave(x, id, p, d, active, recovery, notional, value)
    case PositionForceClosed(id, p, d, active, recovery, notional, value) => ApplyLeave(x, id, p, d, active, recovery, notional, value)
    case DormantRecoveryClaimed(id, p, d, tick, recovery, notional, value) => ApplyClaim(x, id, p, d, tick, recovery, notional, value)
    case ActiveRotatedToRecovery(id, d, tick, anchor, shares, notional, g) => ApplyRotate(x, id, d, tick, anchor, shares, notional, g)
    case DustHarvested(_, _, _) => Ok(x)
    case DormantBucketPendingApplied(_, _, _, _) => Ok(x)
  }

  /** `apply_all`. */
  ghost function ApplyEvents(x: State, events: seq<EngineEvent>): IndexerResult<State>
    decreases |events|
  {
    if events == [] then Ok(x)
    else
      var x' :- ApplyEvent(x, events[0]);
      ApplyEvents(x', events[1..])
  }
}
