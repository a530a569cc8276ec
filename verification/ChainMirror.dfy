/**
  The account runtime (crates/chain-mirror/src/lib.rs) as functions of its state: sub pools are
  rebuilt from their accounts, handed to the engine, and written back, with a snapshot to restore.
*/
module ChainMirror {
  import opened Wrappers
  import opened MoleMath
  import opened Clearing
  import opened Sums
  import opened Dormant
  import opened Onchain
  import opened Engine
  import opened EngineRuns

  /** Address of a bucket account, and of a ledger account. */
  datatype Key = Key(subPool: nat, direction: Direction, tick: int)
  datatype SideKey = SideKey(subPool: nat, direction: Direction)

  /** The fields of a `SubPoolAccount` that belong to one direction. */
  datatype PoolAccount = PoolAccount(
    equity: nat, shares: nat, notional: nat, recovery: nat, dust: nat, generation: nat, log: seq<RotateRecord>)

  datatype SubPoolAccount = SubPoolAccount(id: nat, long: PoolAccount, short: PoolAccount, lastPrice: nat, lastSlot: nat)

  datatype PositionAccount = PositionAccount(subPool: nat, position: Position)

  /** Faults of the runtime's own book-keeping. */
  datatype RuntimeFault =
    | NoLedger // ledger account missing
    | VaultUnderflow // vault underflow

  /** Why a bucket account cannot be created or closed. */
  datatype SlotFault =
    | Initialised // pda already initialised
    | StillLive // bucket still live
    | HasPending // bucket has pending lazy distributions

  datatype MirrorError =
    | EngineFailed(error: ClearingError)
    | SubPoolNotFound(id: nat)
    | PositionNotFound(position: nat)
    | BucketNotInitialized(key: Key)
    | BucketSlotExhausted(side: SideKey)
    | BucketLifecycleViolation(slot: Key, why: SlotFault)
    | RuntimeInvariant(what: RuntimeFault)

  type MirrorResult<+T> = Result<T, MirrorError>

  /** `ChainRuntime`. `strict` selects the account lifecycle of the chain. */
  datatype Chain = Chain(
    market: Market,
    subPools: map<nat, SubPoolAccount>,
    buckets: map<Key, BucketRecord>,
    ledgers: map<SideKey, LedgerRecord>,
    positions: map<nat, PositionAccount>,
    vault: nat, feeVault: nat, deposits: nat, withdrawals: nat,
    nextId: nat, strict: bool)

  function FromEngine<T>(r: ClearingResult<T>): MirrorResult<T> {
    match r
    case Ok(v) => Ok(v)
    case Err(e) => Err(EngineFailed(e))
  }

  // ---------------------------------------------------------------- reading accounts

  /** The bucket accounts of one side, by tick. */
  function Slots(bs: map<Key, BucketRecord>, id: nat, d: Direction): map<int, BucketRecord> {
    map k | k in bs && k.subPool == id && k.direction == d :: k.tick := bs[k]
  }

  ghost function Greatest(keys: set<int>): (k: int)
    requires keys != {}
    ensures k in keys && forall j :: j in keys ==> j <= k
    decreases |keys|
  {
    var k := Pick(keys);
    if keys == {k} then k
    else
      var g := Greatest(keys - {k});
      assert forall j :: j in keys ==> j == k || j in keys - {k};
      if g < k then k else g
  }

  /** The values of a map by ascending key, as a `BTreeMap` yields them. */
  ghost function Listing(m: map<int, BucketRecord>): seq<BucketRecord>
    decreases |m|
  {
    if m.Keys == {} then []
    else
      var k := Greatest(m.Keys);
      Listing(m - {k}) + [m[k]]
  }

  function Attach(a: PoolAccount, s: Store): Pool {
    Pool(a.equity, a.shares, a.notional, a.recovery, a.dust, a.generation, a.log, s)
  }

  function Detach(p: Pool): PoolAccount {
    PoolAccount(p.equity, p.shares, p.notional, p.recovery, p.dust, p.generation, p.log)
  }

  ghost function BuildSide(c: Chain, id: nat, d: Direction): MirrorResult<Store> {
    if SideKey(id, d) !in c.ledgers then Err(RuntimeInvariant(NoLedger))
    else FromEngine(Unpack(Listing(Slots(c.buckets, id, d)), c.ledgers[SideKey(id, d)]))
  }

  /** `build_core_sub_pool`. */
  ghost function Build(c: Chain, id: nat): MirrorResult<SubPool> {
    if id !in c.subPools then Err(SubPoolNotFound(id))
    else
      var a := c.subPools[id];
      var long :- BuildSide(c, id, Long);
      var short :- BuildSide(c, id, Short);
      Ok(SubPool(a.id, Attach(a.long, long), Attach(a.short, short), a.lastPrice, a.lastSlot))
  }

  // ---------------------------------------------------------------- writing accounts

  /** Loose mode: the side's bucket accounts become exactly the packed records. */
  function LooseBuckets(bs: map<Key, BucketRecord>, id: nat, d: Direction, packed: map<int, BucketRecord>): map<Key, BucketRecord> {
    (map k | k in bs && !(k.subPool == id && k.direction == d) :: bs[k])
    + (map t | t in packed :: Key(id, d, t) := packed[t])
  }

  /** A slot the engine no longer uses. */
  function Zeroed(r: BucketRecord): BucketRecord {
    r.(shares := 0, notional := 0, accrued := 0, count := 0)
  }

  /** Strict mode: every packed record goes into its existing slot, leftovers are zeroed in place. */
  function StrictBuckets(bs: map<Key, BucketRecord>, id: nat, d: Direction, packed: map<int, BucketRecord>): map<Key, BucketRecord> {
    map k | k in bs ::
      if k.subPool == id && k.direction == d then
        if k.tick in packed then packed[k.tick] else Zeroed(bs[k])
      else bs[k]
  }

  /** The records below `limit` placed, the rest of the side untouched. */
  function PlacedBelow(bs: map<Key, BucketRecord>, id: nat, d: Direction, packed: map<int, BucketRecord>, limit: int)
    : map<Key, BucketRecord>
  {
    map k | k in bs ::
      if k.subPool == id && k.direction == d && k.tick in packed && k.tick < limit then packed[k.tick] else bs[k]
  }

  /** Ticks the engine needs a slot for and has none. */
  function MissingSlots(bs: map<Key, BucketRecord>, id: nat, d: Direction, packed: map<int, BucketRecord>): set<int> {
    set t | t in packed && Key(id, d, t) !in bs
  }

  ghost function LeastOf(keys: set<int>): (k: int)
    requires keys != {}
    ensures k in keys && forall j :: j in keys ==> k <= j
    decreases |keys|
  {
    var k := Pick(keys);
    if keys == {k} then k
    else
      var g := LeastOf(keys - {k});
      assert forall j :: j in keys ==> j == k || j in keys - {k};
      if k < g then k else g
  }

  /** One direction of `write_core_sub_pool`; a failure in strict mode leaves what was already written. */
  ghost function WriteSide(c: Chain, id: nat, d: Direction, s: Store): (Chain, MirrorResult<()>) {
    var key := SideKey(id, d);
    var check := FromEngine(PackChecks(s, c.market.maxBuckets, c.market.ledgerCap));
    if check.Err? then (c, check)
    else if key !in c.ledgers then (c, Err(RuntimeInvariant(NoLedger)))
    else
      var c1 := c.(ledgers := c.ledgers[key := PackLedger(s, c.market.ledgerCap)]);
      var packed := PackBuckets(s);
      if !c.strict then (c1.(buckets := LooseBuckets(c.buckets, id, d, packed)), Ok(()))
      else
        var missing := MissingSlots(c.buckets, id, d, packed);
        if missing == {} then (c1.(buckets := StrictBuckets(c.buckets, id, d, packed)), Ok(()))
        else
          (c1.(buckets := PlacedBelow(c.buckets, id, d, packed, LeastOf(missing))), Err(BucketSlotExhausted(key)))
  }

  function AccountOf(id: nat, sp: SubPool): SubPoolAccount {
    SubPoolAccount(id, Detach(sp.long), Detach(sp.short), sp.lastPrice, sp.lastSlot)
  }

  /** `write_core_sub_pool`. */
  ghost function Write(c: Chain, id: nat, sp: SubPool): (Chain, MirrorResult<()>) {
    var (c1, long) := WriteSide(c, id, Long, sp.long.store);
    if long.Err? then (c1, long)
    else
      var (c2, short) := WriteSide(c1, id, Short, sp.short.store);
      if short.Err? then (c2, short)
      else if id !in c.subPools then (c2, Err(SubPoolNotFound(id)))
      else (c2.(subPools := c.subPools[id := AccountOf(c.subPools[id].id, sp)]), Ok(()))
  }

  // ---------------------------------------------------------------- snapshot and restore

  /** A snapshot can be taken: the sub pool and both its ledgers exist. */
  predicate CanSnapshot(c: Chain, id: nat) {
    id in c.subPools && SideKey(id, Long) in c.ledgers && SideKey(id, Short) in c.ledgers
  }

  /** `restore_sub_pool`: the accounts of sub pool `id` as they were in `was`. */
  function Restore(c: Chain, was: Chain, id: nat): Chain
    requires CanSnapshot(was, id)
  {
    var home := was.subPools[id].id;
    c.(buckets :=
         (map k | k in c.buckets && k.subPool != home :: c.buckets[k])
         + (map k | k in was.buckets && k.subPool == id :: was.buckets[k]),
       ledgers := c.ledgers[SideKey(id, Long) := was.ledgers[SideKey(id, Long)]]
                           [SideKey(id, Short) := was.ledgers[SideKey(id, Short)]],
       subPools := c.subPools[home := was.subPools[id]])
  }

  // ---------------------------------------------------------------- handlers

  /** The positions of one sub pool. */
  function Own(ps: map<nat, PositionAccount>, id: nat): map<nat, Position> {
    map p | p in ps && ps[p].subPool == id :: ps[p].position
  }

  /** The position accounts after the positions of sub pool `id` have become `own`. */
  function PutOwn(ps: map<nat, PositionAccount>, id: nat, own: map<nat, Position>): map<nat, PositionAccount> {
    ps + (map p | p in own :: PositionAccount(id, own[p]))
  }

  /** What the handlers need before they call the engine. */
  ghost predicate Ready(c: Chain, id: nat, op: EngineOp) {
    && CanSnapshot(c, id)
    && (op.OpenOp? ==> op.id == c.nextId && op.id !in c.positions)
    && (!op.OpenOp? && !op.SyncOp? && !op.PreSyncOp? && !op.HarvestOp? ==> op.id in Own(c.positions, id))
  }

  /**
    The common shape of the handlers: build, run the engine, write back, move funds; on an engine
    error, and on a failed write-back of anything but a sync, the snapshot is restored.
  */
  ghost function Handle(c: Chain, id: nat, op: EngineOp): (Chain, MirrorResult<Effect>)
    requires Ready(c, id, op)
  {
    var c0 := if op.OpenOp? then c.(nextId := c.nextId + 1) else c;
    var built := Build(c0, id);
    if built.Err? then (c0, Err(built.error))
    else
      var w := World(built.value, Own(c.positions, id));
      var r := EngineStep(c.market, w, op);
      if r.Err? then (Restore(c0, c, id).(nextId := c.nextId), Err(EngineFailed(r.error)))
      else
        var (w', e) := r.value;
        var (c1, written) := Write(c0, id, w'.sp);
        if written.Err? then
          (if op.SyncOp? then c1 else Restore(c1, c, id).(nextId := c.nextId), Err(written.error))
        else MoveFunds(c1.(positions := PutOwn(c.positions, id, w'.ps)), e)
  }

  /** Vault book-keeping at the end of a handler. */
  function MoveFunds(c: Chain, e: Effect): (Chain, MirrorResult<Effect>) {
    if e.paid + e.harvested > c.vault then (c, Err(RuntimeInvariant(VaultUnderflow)))
    else
      (c.(vault := c.vault + e.principal - e.paid - e.harvested,
          feeVault := c.feeVault + e.fee + e.harvested,
          deposits := c.deposits + e.principal + e.fee,
          withdrawals := c.withdrawals + e.paid),
       Ok(e))
  }

  // ---------------------------------------------------------------- instructions

  datatype Instruction =
    | SyncIx(subPool: nat, env: Envelope)
    | OpenIx(subPool: nat, direction: Direction, gross: u64, env: Envelope)
    | CloseIx(position: nat, env: Envelope)
    | ForceCloseIx(position: nat, env: Envelope, acknowledged: bool)
    | ClaimIx(position: nat, env: Envelope)
    | HarvestIx(subPool: nat, direction: Direction)
    | PreSyncIx(key: Key)
    | AddSubPoolIx(subPool: nat, price: nat, slot: nat)
    | PreInitIx(key: Key)
    | CloseBucketIx(key: Key)

  const NO_EFFECT := Effect(0, 0, 0, 0, [])

  /**
    What the runtime takes for granted: the sub pool of a sync, open or harvest exists (its snapshot
    panics otherwise), and a sub pool is added only once.
  */
  predicate Issuable(c: Chain, i: Instruction) {
    match i
    case SyncIx(id, _) => CanSnapshot(c, id)
    case OpenIx(id, _, _, _) => CanSnapshot(c, id)
    case HarvestIx(id, _) => CanSnapshot(c, id)
    case AddSubPoolIx(id, _, _) => id !in c.subPools
    case _ => true
  }

  /** A handler of an existing position, on the sub pool the position lives in. */
  ghost function HandlePosition(c: Chain, p: nat, op: EngineOp): (Chain, MirrorResult<Effect>)
    requires (op.CloseOp? || op.ForceCloseOp? || op.ClaimOp?) && op.id == p
  {
    if p !in c.positions then (c, Err(PositionNotFound(p)))
    else if !CanSnapshot(c, c.positions[p].subPool) then (c, Err(RuntimeInvariant(NoLedger)))
    else Handle(c, c.positions[p].subPool, op)
  }

  function EmptyLedger(d: Direction, maxLedger: nat): LedgerRecord {
    PackLedger(EmptyStore(d), maxLedger)
  }

  /** `add_sub_pool`. */
  function AddPool(c: Chain, id: nat, price: nat, slot: nat): Chain {
    c.(subPools := c.subPools[id := AccountOf(id, NewSubPool(id, price, slot))],
       ledgers := c.ledgers[SideKey(id, Long) := EmptyLedger(Long, c.market.ledgerCap)]
                           [SideKey(id, Short) := EmptyLedger(Short, c.market.ledgerCap)])
  }

  /** `pre_init_dormant_bucket`. */
  function PreInitBucket(c: Chain, key: Key): (Chain, MirrorResult<()>) {
    if key.subPool !in c.subPools then (c, Err(SubPoolNotFound(key.subPool)))
    else if key in c.buckets then (c, Err(BucketLifecycleViolation(key, Initialised)))
    else (c.(buckets := c.buckets[key := DeadRecord(key.direction, key.tick)]), Ok(()))
  }

  /** `close_dormant_bucket`. */
  function CloseSlot(c: Chain, key: Key): (Chain, MirrorResult<()>) {
    if key !in c.buckets then (c, Err(BucketNotInitialized(key)))
    else if !c.buckets[key].IsDead() then (c, Err(BucketLifecycleViolation(key, StillLive)))
    else if SideKey(key.subPool, key.direction) !in c.ledgers then (c, Err(RuntimeInvariant(NoLedger)))
    else if c.buckets[key].applied < c.ledgers[SideKey(key.subPool, key.direction)].nextIndex
    then (c, Err(BucketLifecycleViolation(key, HasPending)))
    else (c.(buckets := c.buckets - {key}), Ok(()))
  }

  function Silent(r: (Chain, MirrorResult<()>)): (Chain, MirrorResult<Effect>) {
    (r.0, if r.1.Ok? then Ok(NO_EFFECT) else Err(r.1.error))
  }

  ghost function Execute(c: Chain, i: Instruction): (Chain, MirrorResult<Effect>)
    requires Issuable(c, i)
  {
    match i
    case SyncIx(id, env) => Handle(c, id, SyncOp(env))
    case OpenIx(id, d, gross, env) =>
      if c.nextId in c.positions then (c, Err(PositionNotFound(c.nextId)))
      else Handle(c, id, OpenOp(env, d, gross, c.nextId))
    case CloseIx(p, env) => HandlePosition(c, p, CloseOp(env, p))
    case ForceCloseIx(p, env, acknowledged) => HandlePosition(c, p, ForceCloseOp(env, p, acknowledged))
    case ClaimIx(p, env) => HandlePosition(c, p, ClaimOp(env, p))
    case HarvestIx(id, d) => Handle(c, id, HarvestOp(d))
    case PreSyncIx(key) =>
      if key !in c.buckets then (c, Err(BucketNotInitialized(key)))
      else if !CanSnapshot(c, key.subPool) then (c, Err(RuntimeInvariant(NoLedger)))
      else Handle(c, key.subPool, PreSyncOp(key.direction, key.tick))
    case AddSubPoolIx(id, price, slot) => (AddPool(c, id, price, slot), Ok(NO_EFFECT))
    case PreInitIx(key) => Silent(PreInitBucket(c, key))
    case CloseBucketIx(key) => Silent(CloseSlot(c, key))
  }

  /** `ChainRuntime::new`, in loose or strict mode. */
  function NewChain(m: Market, strict: bool): Chain {
    Chain(m, map[], map[], map[], map[], 0, 0, 0, 0, 1, strict)
  }

  /** A run of instructions from `c`; one that the runtime cannot take is not issued. */
  ghost function Run(c: Chain, code: seq<Instruction>): Chain
    decreases |code|
  {
    if code == [] then c
    else Run(if Issuable(c, code[0]) then Execute(c, code[0]).0 else c, code[1..])
  }
}
