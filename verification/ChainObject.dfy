/**
  The account runtime as the mutable object of crates/chain-mirror/src/lib.rs: handlers rebuild a sub
  pool object from its accounts, run the engine on it, write it back, and restore a snapshot when
  something fails. Every handler is proved to do what `ChainMirror.Execute` says.
*/
module ChainObject {
  import opened Wrappers
  import opened MoleMath
  import opened Clearing
  import opened Sums
  import opened Dormant
  import opened Onchain
  import opened DormantStoreModule
  import opened Engine
  import opened EngineInvariant
  import EngineOperations
  import EnginePositions
  import opened EngineObject
  import opened EngineRuns
  import Capacity
  import opened ChainMirror
  import opened ChainAccounts
  import opened ChainRuns
  import opened ChainVault

  /** `SubPoolSnapshot`. */
  datatype Snapshot = Snapshot(
    subPool: SubPoolAccount, buckets: map<Key, BucketRecord>, long: LedgerRecord, short: LedgerRecord)

  function BucketsOf(bs: map<Key, BucketRecord>, id: nat): map<Key, BucketRecord> {
    map k | k in bs && k.subPool == id :: bs[k]
  }

  function WithoutBucketsOf(bs: map<Key, BucketRecord>, id: nat): map<Key, BucketRecord> {
    map k | k in bs && k.subPool != id :: bs[k]
  }

  function SnapshotOf(c: Chain, id: nat): Snapshot
    requires CanSnapshot(c, id)
  {
    Snapshot(c.subPools[id], BucketsOf(c.buckets, id), c.ledgers[SideKey(id, Long)], c.ledgers[SideKey(id, Short)])
  }

  /** `ChainRuntime`. */
  class ChainRuntime {
    const market: Market
    const strict: bool
    var subPools: map<nat, SubPoolAccount>
    var buckets: map<Key, BucketRecord>
    var ledgers: map<SideKey, LedgerRecord>
    var positions: map<nat, PositionAccount>
    var vault: nat
    var feeVault: nat
    var deposits: nat
    var withdrawals: nat
    var nextId: nat

    function State(): Chain
      reads this
    {
      Chain(market, subPools, buckets, ledgers, positions, vault, feeVault, deposits, withdrawals, nextId, strict)
    }

    /** `new` and `with_strict_pda_lifecycle`. */
    constructor (m: Market, isStrict: bool)
      ensures State() == NewChain(m, isStrict)
    {
      market, strict := m, isStrict;
      subPools, buckets, ledgers, positions := map[], map[], map[], map[];
      vault, feeVault, deposits, withdrawals, nextId := 0, 0, 0, 0, 1;
    }

    // -------------------------------------------------------------- reading accounts

    /** `unpack_dormant`. */
    method UnpackDormant(id: nat, d: Direction) returns (r: MirrorResult<Store>)
      requires OwnTicks(Slots(buckets, id, d))
      ensures r == BuildSide(State(), id, d)
    {
      hide Unpack, Listing, Lists;
      if SideKey(id, d) !in ledgers {
        return Err(RuntimeInvariant(NoLedger));
      }
      var slots := Slots(buckets, id, d);
      var records := InTickOrder(slots);
      ListingLists(slots);
      ListsUnique(records, Listing(slots), slots);
      var store := UnpackDormantStore(records, ledgers[SideKey(id, d)]);
      return FromEngine(store);
    }

    /** `build_core_sub_pool`. */
    method BuildCoreSubPool(id: nat, ghost ps: map<nat, Position>) returns (r: MirrorResult<SubPoolObject>)
      requires OwnTicks(Slots(buckets, id, Long)) && OwnTicks(Slots(buckets, id, Short))
      requires Build(State(), id).Ok? ==> WorldOk(Build(State(), id).value, ps)
      ensures Build(State(), id).Err? ==> r.Err? && r.error == Build(State(), id).error
      ensures Build(State(), id).Ok? ==>
        && r.Ok? && fresh(r.value.Repr())
        && r.value.Valid() && r.value.State() == Build(State(), id).value && r.value.population == ps
    {
      hide WorldOk, BuildSide, OwnTicks, Slots;
      if id !in subPools {
        return Err(SubPoolNotFound(id));
      }
      var a := subPools[id];
      var long := UnpackDormant(id, Long);
      if long.Err? {
        return Err(long.error);
      }
      var short := UnpackDormant(id, Short);
      if short.Err? {
        return Err(short.error);
      }
      var core := new SubPoolObject(
        SubPool(a.id, Attach(a.long, long.value), Attach(a.short, short.value), a.lastPrice, a.lastSlot), ps);
      return Ok(core);
    }

    /** `snapshot_sub_pool`. */
    method SnapshotSubPool(id: nat) returns (snap: Snapshot)
      requires CanSnapshot(State(), id)
      ensures snap == SnapshotOf(State(), id)
    {
      snap := Snapshot(subPools[id], BucketsOf(buckets, id), ledgers[SideKey(id, Long)], ledgers[SideKey(id, Short)]);
    }

    /** `restore_sub_pool`. */
    method RestoreSubPool(snap: Snapshot, ghost was: Chain, id: nat)
      requires CanSnapshot(was, id) && snap == SnapshotOf(was, id)
      modifies this
      ensures State() == Restore(old(State()), was, id)
      ensures positions == old(positions) && nextId == old(nextId)
    {
      var home := snap.subPool.id;
      buckets := WithoutBucketsOf(buckets, home);
      buckets := buckets + snap.buckets;
      ledgers := ledgers[SideKey(id, Long) := snap.long];
      ledgers := ledgers[SideKey(id, Short) := snap.short];
      subPools := subPools[home := snap.subPool];
      RestoresBuckets(old(State()), was, id);
    }

    // -------------------------------------------------------------- writing accounts

    /** `write_buckets_loose`. */
    method WriteBucketsLoose(id: nat, d: Direction, records: seq<BucketRecord>, ghost packed: map<int, BucketRecord>)
      requires Lists(records, packed)
      modifies `buckets
      ensures buckets == LooseBuckets(old(buckets), id, d, packed)
    {
      hide Inserted, RetainLive, Lists, LooseBuckets;
      ghost var was := buckets;
      var live := Ticks(records);
      buckets := RetainLive(buckets, id, d, live);
      InsertedNone(was, id, d, records);
      var i := 0;
      while i < |records|
        invariant 0 <= i <= |records|
        invariant Inserted(was, buckets, id, d, records, i)
      {
        InsertedNext(was, buckets, id, d, records, i, packed);
        buckets := buckets[Key(id, d, records[i].tick) := records[i]];
        i := i + 1;
      }
      InsertedAll(was, buckets, id, d, records, packed);
    }

    /** `write_buckets_strict`: every record needs its slot; leftovers are zeroed in place. */
    method WriteBucketsStrict(id: nat, d: Direction, records: seq<BucketRecord>, ghost packed: map<int, BucketRecord>)
      returns (r: MirrorResult<()>)
      requires Lists(records, packed)
      modifies `buckets
      ensures
        var missing := MissingSlots(old(buckets), id, d, packed);
        && (missing == {} ==> r == Ok(()) && buckets == StrictBuckets(old(buckets), id, d, packed))
        && (missing != {} ==>
              && r == Err(BucketSlotExhausted(SideKey(id, d)))
              && buckets == PlacedBelow(old(buckets), id, d, packed, LeastOf(missing)))
    {
      hide Placed, Zeroing, Lists, MissingSlots, StrictBuckets, PlacedBelow, Zeroed, Ticks;
      ghost var was := buckets;
      var i := 0;
      PlacedNone(was, id, d, records, packed);
      while i < |records|
        invariant 0 <= i <= |records|
        invariant Placed(was, buckets, id, d, records, packed, i)
      {
        var key := Key(id, d, records[i].tick);
        if key !in buckets {
          PlacedStuck(was, buckets, id, d, records, packed, i);
          return Err(BucketSlotExhausted(SideKey(id, d)));
        }
        PlacedNext(was, buckets, id, d, records, packed, i);
        buckets := buckets[key := records[i]];
        i := i + 1;
      }
      PlacedAll(was, buckets, id, d, records, packed);
      var todo := buckets.Keys;
      while todo != {}
        invariant todo <= buckets.Keys
        invariant Zeroing(was, buckets, todo, id, d, packed)
        decreases todo
      {
        var k := Choose(todo);
        ZeroStep(was, buckets, todo, id, d, records, packed, k);
        if k.subPool == id && k.direction == d && k.tick !in Ticks(records) && !buckets[k].IsDead() {
          buckets := buckets[k := Zeroed(buckets[k])];
        }
        todo := todo - {k};
      }
      ZeroedAll(was, buckets, id, d, packed);
      return Ok(());
    }

    /** One direction of `write_core_sub_pool`. */
    method WriteDirection(id: nat, d: Direction, store: DormantStore) returns (r: MirrorResult<()>)
      modifies this
      ensures (State(), r) == WriteSide(old(State()), id, d, store.State())
      ensures subPools == old(subPools) && positions == old(positions) && nextId == old(nextId) && vault == old(vault)
    {
      hide LooseBuckets, StrictBuckets, PlacedBelow, MissingSlots, PackBuckets, PackLedger, Lists;
      var s := store.State();
      var packed := PackDormantStore(s, market.maxBuckets, market.ledgerCap);
      if packed.Err? {
        return Err(EngineFailed(packed.error));
      }
      if SideKey(id, d) !in ledgers {
        return Err(RuntimeInvariant(NoLedger));
      }
      var (records, ledger) := packed.value;
      ledgers := ledgers[SideKey(id, d) := ledger];
      if strict {
        r := WriteBucketsStrict(id, d, records, PackBuckets(s));
      } else {
        WriteBucketsLoose(id, d, records, PackBuckets(s));
        r := Ok(());
      }
    }

    /** `write_core_sub_pool`. */
    method WriteCoreSubPool(id: nat, core: SubPoolObject) returns (r: MirrorResult<()>)
      modifies this
      ensures (State(), r) == Write(old(State()), id, core.State())
      ensures positions == old(positions) && nextId == old(nextId) && vault == old(vault)
    {
      hide WriteSide;
      r := WriteDirection(id, Long, core.long.store);
      if r.Err? {
        return;
      }
      r := WriteDirection(id, Short, core.short.store);
      if r.Err? {
        return;
      }
      if id !in subPools {
        return Err(SubPoolNotFound(id));
      }
      subPools := subPools[id := AccountOf(subPools[id].id, core.State())];
      return Ok(());
    }

    // -------------------------------------------------------------- handlers

    /** The rollback of a failed handler: the snapshot and the id counter. */
    method Rollback(snap: Snapshot, counter: nat, ghost was: Chain, id: nat)
      requires CanSnapshot(was, id) && snap == SnapshotOf(was, id)
      modifies this
      ensures State() == Restore(old(State()), was, id).(nextId := counter)
      ensures positions == old(positions)
    {
      hide Restore, SnapshotOf, CanSnapshot;
      RestoreSubPool(snap, was, id);
      nextId := counter;
    }

    /** The write-back of every handler but `sync`: a failure is rolled back. */
    method WriteOrRollback(id: nat, core: SubPoolObject, snap: Snapshot, counter: nat, ghost was: Chain)
      returns (r: MirrorResult<()>)
      requires CanSnapshot(was, id) && snap == SnapshotOf(was, id)
      modifies this
      ensures
        var (c1, written) := Write(old(State()), id, core.State());
        && r == written
        && State() == if written.Ok? then c1 else Restore(c1, was, id).(nextId := counter)
      ensures positions == old(positions)
    {
      hide Write, Restore, SnapshotOf, CanSnapshot;
      r := WriteCoreSubPool(id, core);
      if r.Err? {
        Rollback(snap, counter, was, id);
      }
    }

    /** Vault book-keeping of a close or a claim. */
    method PayOut(amount: nat, events: seq<EngineEvent>) returns (r: MirrorResult<Effect>)
      modifies `vault, `withdrawals
      ensures (State(), r) == MoveFunds(old(State()), Effect(0, 0, amount, 0, events))
    {
      if amount > vault {
        return Err(RuntimeInvariant(VaultUnderflow));
      }
      vault := vault - amount;
      withdrawals := withdrawals + amount;
      return Ok(Effect(0, 0, amount, 0, events));
    }

    /** Vault book-keeping of a harvest. */
    method PayHarvest(amount: nat, events: seq<EngineEvent>) returns (r: MirrorResult<Effect>)
      modifies `vault, `feeVault
      ensures (State(), r) == MoveFunds(old(State()), Effect(0, 0, 0, amount, events))
    {
      if amount > vault {
        return Err(RuntimeInvariant(VaultUnderflow));
      }
      vault := vault - amount;
      feeVault := feeVault + amount;
      return Ok(Effect(0, 0, 0, amount, events));
    }

    /** The new position and the vault book-keeping of an open. */
    method TakeIn(account: PositionAccount, positionId: nat, out: OpenOutcome, gross: nat) returns (r: MirrorResult<Effect>)
      modifies `positions, `vault, `feeVault, `deposits
      ensures
        var c, principal := old(State()), out.mint.principal + out.mint.dust;
        && State() == c.(positions := c.positions[positionId := account], vault := c.vault + principal,
                         feeVault := c.feeVault + out.fee, deposits := c.deposits + gross)
        && r == Ok(Effect(principal, out.fee, 0, 0, out.events))
    {
      positions := positions[positionId := account];
      var principal := out.mint.principal + out.mint.dust;
      vault := vault + principal;
      feeVault := feeVault + out.fee;
      deposits := deposits + gross;
      return Ok(Effect(principal, out.fee, 0, 0, out.events));
    }

    /** `sync`: a failed write-back is not rolled back. */
    method Sync(id: nat, env: Envelope) returns (r: MirrorResult<Effect>)
      requires Coherent(State()) && Issuable(State(), SyncIx(id, env))
      modifies this
      ensures (State(), r) == Execute(old(State()), SyncIx(id, env))
    {
      hide Coherent, Build, WorldOk, Own, OwnTicks, CanSnapshot, SnapshotOf, Handle, Execute;
      ghost var c := State();
      SyncExecutes(c, id, env);
      CoherentBuilds(c, id);
      var snap := SnapshotSubPool(id);
      var built := BuildCoreSubPool(id, Own(positions, id));
      if built.Err? {
        return Err(built.error);
      }
      assert State() == c;
      r := SyncBuilt(id, env, snap, built.value);
    }

    /** `sync` on the rebuilt sub pool. */
    method SyncBuilt(id: nat, env: Envelope, snap: Snapshot, core: SubPoolObject) returns (r: MirrorResult<Effect>)
      requires Ready(State(), id, SyncOp(env)) && snap == SnapshotOf(State(), id)
      requires core.Valid() && Build(State(), id) == Ok(core.State())
      modifies this, core.Repr()
      ensures (State(), r) == Handle(old(State()), id, SyncOp(env))
    {
      hide Engine.SyncPool, Build, Write, WorldOk, Own, Restore, CanSnapshot, SnapshotOf, Handle;
      ghost var c := State();
      SyncHandled(c, id, env, core.State());
      var outcome := core.SyncPool(market, env);
      assert State() == c;
      if outcome.Err? {
        Rollback(snap, nextId, c, id);
        return Err(EngineFailed(outcome.error));
      }
      var written := WriteCoreSubPool(id, core);
      if written.Err? {
        return Err(written.error);
      }
      return Ok(Effect(0, 0, 0, 0, outcome.value.events));
    }

    /** `harvest_dust`. */
    method HarvestDust(id: nat, d: Direction) returns (r: MirrorResult<Effect>)
      requires Coherent(State()) && Issuable(State(), HarvestIx(id, d))
      modifies this
      ensures (State(), r) == Execute(old(State()), HarvestIx(id, d))
    {
      hide Coherent, Build, WorldOk, Own, OwnTicks, CanSnapshot, SnapshotOf, Handle, Execute;
      ghost var c := State();
      HarvestExecutes(c, id, d);
      CoherentBuilds(c, id);
      var snap := SnapshotSubPool(id);
      var built := BuildCoreSubPool(id, Own(positions, id));
      if built.Err? {
        return Err(built.error);
      }
      assert State() == c;
      r := HarvestBuilt(id, d, snap, built.value);
    }

    /** `harvest_dust` on the rebuilt sub pool. */
    method HarvestBuilt(id: nat, d: Direction, snap: Snapshot, core: SubPoolObject) returns (r: MirrorResult<Effect>)
      requires Ready(State(), id, HarvestOp(d)) && snap == SnapshotOf(State(), id)
      requires core.Valid() && Build(State(), id) == Ok(core.State())
      modifies this, core.Repr()
      ensures (State(), r) == Handle(old(State()), id, HarvestOp(d))
    {
      hide Engine.HarvestDust, Build, Write, WorldOk, Own, Restore, CanSnapshot, SnapshotOf, Handle, MoveFunds;
      ghost var c := State();
      HarvestHandled(c, id, d, core.State());
      var outcome := core.HarvestDust(market, d);
      assert State() == c;
      if outcome.Err? {
        Rollback(snap, nextId, c, id);
        return Err(EngineFailed(outcome.error));
      }
      var written := WriteOrRollback(id, core, snap, nextId, c);
      if written.Err? {
        return Err(written.error);
      }
      r := PayHarvest(outcome.value, [DustHarvested(core.id, d, outcome.value)]);
    }

    /** `pre_sync_bucket`. */
    method PreSyncBucket(key: Key) returns (r: MirrorResult<Effect>)
      requires Coherent(State())
      modifies this
      ensures (State(), r) == Execute(old(State()), PreSyncIx(key))
    {
      hide Coherent, Build, WorldOk, Own, OwnTicks, CanSnapshot, SnapshotOf, Handle, Execute;
      ghost var c := State();
      if key !in buckets {
        PreSyncMissing(c, key);
        return Err(BucketNotInitialized(key));
      }
      PreSyncReady(c, key);
      PreSyncFound(c, key);
      NotBuilt(c, key.subPool, PreSyncOp(key.direction, key.tick));
      CoherentBuilds(c, key.subPool);
      var snap := SnapshotSubPool(key.subPool);
      var built := BuildCoreSubPool(key.subPool, Own(positions, key.subPool));
      if built.Err? {
        return Err(built.error);
      }
      assert State() == c;
      r := PreSyncBuilt(key, snap, built.value);
    }

    /** `pre_sync_bucket` on the rebuilt sub pool. */
    method PreSyncBuilt(key: Key, snap: Snapshot, core: SubPoolObject) returns (r: MirrorResult<Effect>)
      requires Ready(State(), key.subPool, PreSyncOp(key.direction, key.tick)) && snap == SnapshotOf(State(), key.subPool)
      requires core.Valid() && Build(State(), key.subPool) == Ok(core.State())
      modifies this, core.Repr()
      ensures (State(), r) == Handle(old(State()), key.subPool, PreSyncOp(key.direction, key.tick))
    {
      hide Engine.PreSyncBucket, Build, Write, WorldOk, Own, Restore, CanSnapshot, SnapshotOf, Handle;
      ghost var c := State();
      PreSyncHandles(c, key, core.State());
      var outcome := core.PreSyncDormantBucket(market, key.direction, key.tick);
      assert State() == c;
      if outcome.Err? {
        Rollback(snap, nextId, c, key.subPool);
        return Err(EngineFailed(outcome.error));
      }
      var written := WriteOrRollback(key.subPool, core, snap, nextId, c);
      if written.Err? {
        return Err(written.error);
      }
      return Ok(Effect(0, 0, 0, 0, [DormantBucketPendingApplied(core.id, key.direction, key.tick, outcome.value)]));
    }

    /** `open`: the position id is taken from the counter, which is put back on failure. */
    method Open(id: nat, d: Direction, gross: u64, env: Envelope) returns (r: MirrorResult<Effect>)
      requires Coherent(State()) && Issuable(State(), OpenIx(id, d, gross, env))
      modifies this
      ensures (State(), r) == Execute(old(State()), OpenIx(id, d, gross, env))
    {
      hide Coherent, Build, WorldOk, Own, OwnTicks, CanSnapshot, SnapshotOf, Handle, Execute;
      ghost var c := State();
      OpenExecutes(c, id, d, gross, env);
      CoherentBuilds(c, id);
      CoherentCounter(c, id);
      var snap := SnapshotSubPool(id);
      var positionId := nextId;
      nextId := nextId + 1;
      BuildReads(c, State(), id);
      var built := BuildCoreSubPool(id, Own(positions, id));
      if built.Err? {
        return Err(built.error);
      }
      assert State() == Counted(c, OpenOp(env, d, gross, positionId));
      r := OpenBuilt(id, d, gross, env, positionId, snap, built.value, c);
    }

    /** `open` on the rebuilt sub pool; `c` is the state before the counter was advanced. */
    method OpenBuilt(
      id: nat, d: Direction, gross: u64, env: Envelope, positionId: nat, snap: Snapshot, core: SubPoolObject, ghost c: Chain)
      returns (r: MirrorResult<Effect>)
      requires positionId == c.nextId && positionId !in Own(c.positions, id) && positionId !in c.positions
      requires State() == Counted(c, OpenOp(env, d, gross, positionId))
      requires Ready(c, id, OpenOp(env, d, gross, positionId)) && snap == SnapshotOf(c, id)
      requires core.Valid() && core.population == Own(c.positions, id) && Build(State(), id) == Ok(core.State())
      modifies this, core.Repr()
      ensures (State(), r) == Handle(c, id, OpenOp(env, d, gross, positionId))
    {
      hide Engine.OpenPosition, Build, Write, WorldOk, Own, Restore, CanSnapshot, SnapshotOf, Handle;
      ghost var c0 := State();
      OpenHandled(c, id, d, gross, env, core.State());
      var outcome := core.OpenPosition(market, env, d, gross, positionId);
      assert State() == c0;
      if outcome.Err? {
        Rollback(snap, nextId - 1, c, id);
        return Err(EngineFailed(outcome.error));
      }
      var (position, out) := outcome.value;
      var account := PositionAccount(id, position.State());
      var written := WriteOrRollback(id, core, snap, nextId - 1, c);
      if written.Err? {
        return Err(written.error);
      }
      r := TakeIn(account, positionId, out, gross);
    }

    /** `close`: the position is taken out of the map, and put back on failure. */
    method Close(p: nat, env: Envelope) returns (r: MirrorResult<Effect>)
      requires Coherent(State())
      modifies this
      ensures (State(), r) == Execute(old(State()), CloseIx(p, env))
    {
      hide Coherent, Build, WorldOk, Own, OwnTicks, CanSnapshot, SnapshotOf, Handle, HandlePosition, Execute;
      ghost var c := State();
      CloseExecutes(c, p, env);
      PositionExecutes(c, p, CloseOp(env, p));
      if p !in positions {
        return Err(PositionNotFound(p));
      }
      var id := positions[p].subPool;
      CoherentBuilds(c, id);
      var snap := SnapshotSubPool(id);
      var built := BuildCoreSubPool(id, Own(positions, id));
      if built.Err? {
        return Err(built.error);
      }
      assert State() == c;
      r := CloseBuilt(p, env, id, snap, built.value);
    }

    /** `close` on the rebuilt sub pool. */
    method CloseBuilt(p: nat, env: Envelope, id: nat, snap: Snapshot, core: SubPoolObject) returns (r: MirrorResult<Effect>)
      requires Ready(State(), id, CloseOp(env, p)) && snap == SnapshotOf(State(), id)
      requires p in positions && positions[p].subPool == id
      requires core.Valid() && core.population == Own(positions, id) && Build(State(), id) == Ok(core.State())
      modifies this, core.Repr()
      ensures (State(), r) == Handle(old(State()), id, CloseOp(env, p))
    {
      hide Engine.ClosePosition, Build, Write, WorldOk, Own, Restore, CanSnapshot, SnapshotOf, Handle, MoveFunds;
      ghost var c := State();
      OwnPosition(c, p, core.State());
      CloseHandled(c, id, p, env, core.State());
      var account := positions[p];
      positions := positions - {p};
      var position := new PositionObject(account.position);
      ghost var c0 := State();
      var outcome := core.ClosePosition(market, env, position);
      assert State() == c0;
      if outcome.Err? {
        Rollback(snap, nextId, c, id);
        positions := positions[p := account];
        return Err(EngineFailed(outcome.error));
      }
      var closed := PositionAccount(id, position.State());
      var written := WriteOrRollback(id, core, snap, nextId, c);
      if written.Err? {
        positions := positions[p := account];
        return Err(written.error);
      }
      positions := positions[p := closed];
      r := PayOut(outcome.value.withdrawable, outcome.value.events);
    }

    /** `force_close`. */
    method ForceClose(p: nat, env: Envelope, acknowledged: bool) returns (r: MirrorResult<Effect>)
      requires Coherent(State())
      modifies this
      ensures (State(), r) == Execute(old(State()), ForceCloseIx(p, env, acknowledged))
    {
      hide Coherent, Build, WorldOk, Own, OwnTicks, CanSnapshot, SnapshotOf, Handle, HandlePosition, Execute;
      ghost var c := State();
      ForceCloseExecutes(c, p, env, acknowledged);
      PositionExecutes(c, p, ForceCloseOp(env, p, acknowledged));
      if p !in positions {
        return Err(PositionNotFound(p));
      }
      var id := positions[p].subPool;
      CoherentBuilds(c, id);
      var snap := SnapshotSubPool(id);
      var built := BuildCoreSubPool(id, Own(positions, id));
      if built.Err? {
        return Err(built.error);
      }
      assert State() == c;
      r := ForceCloseBuilt(p, env, acknowledged, id, snap, built.value);
    }

    /** `force_close` on the rebuilt sub pool. */
    method ForceCloseBuilt(p: nat, env: Envelope, acknowledged: bool, id: nat, snap: Snapshot, core: SubPoolObject)
      returns (r: MirrorResult<Effect>)
      requires Ready(State(), id, ForceCloseOp(env, p, acknowledged)) && snap == SnapshotOf(State(), id)
      requires p in positions && positions[p].subPool == id
      requires core.Valid() && core.population == Own(positions, id) && Build(State(), id) == Ok(core.State())
      modifies this, core.Repr()
      ensures (State(), r) == Handle(old(State()), id, ForceCloseOp(env, p, acknowledged))
    {
      hide Engine.ForceClose, Build, Write, WorldOk, Own, Restore, CanSnapshot, SnapshotOf, Handle;
      ghost var c := State();
      OwnPosition(c, p, core.State());
      ForceCloseHandled(c, id, p, env, acknowledged, core.State());
      var account := positions[p];
      positions := positions - {p};
      var position := new PositionObject(account.position);
      ghost var c0 := State();
      var outcome := core.ForceCloseZeroValuePosition(market, env, position, acknowledged);
      assert State() == c0;
      if outcome.Err? {
        Rollback(snap, nextId, c, id);
        positions := positions[p := account];
        return Err(EngineFailed(outcome.error));
      }
      var closed := PositionAccount(id, position.State());
      var written := WriteOrRollback(id, core, snap, nextId, c);
      if written.Err? {
        positions := positions[p := account];
        return Err(written.error);
      }
      positions := positions[p := closed];
      return Ok(Effect(0, 0, 0, 0, outcome.value.events));
    }

    /** `claim_recovery`. */
    method ClaimRecovery(p: nat, env: Envelope) returns (r: MirrorResult<Effect>)
      requires Coherent(State())
      modifies this
      ensures (State(), r) == Execute(old(State()), ClaimIx(p, env))
    {
      hide Coherent, Build, WorldOk, Own, OwnTicks, CanSnapshot, SnapshotOf, Handle, HandlePosition, Execute;
      ghost var c := State();
      ClaimExecutes(c, p, env);
      PositionExecutes(c, p, ClaimOp(env, p));
      if p !in positions {
        return Err(PositionNotFound(p));
      }
      var id := positions[p].subPool;
      CoherentBuilds(c, id);
      var snap := SnapshotSubPool(id);
      var built := BuildCoreSubPool(id, Own(positions, id));
      if built.Err? {
        return Err(built.error);
      }
      assert State() == c;
      r := ClaimBuilt(p, env, id, snap, built.value);
    }

    /** `claim_recovery` on the rebuilt sub pool. */
    method ClaimBuilt(p: nat, env: Envelope, id: nat, snap: Snapshot, core: SubPoolObject) returns (r: MirrorResult<Effect>)
      requires Ready(State(), id, ClaimOp(env, p)) && snap == SnapshotOf(State(), id)
      requires p in positions && positions[p].subPool == id
      requires core.Valid() && core.population == Own(positions, id) && Build(State(), id) == Ok(core.State())
      modifies this, core.Repr()
      ensures (State(), r) == Handle(old(State()), id, ClaimOp(env, p))
    {
      hide Engine.ClaimRecovery, Build, Write, WorldOk, Own, Restore, CanSnapshot, SnapshotOf, Handle, MoveFunds;
      ghost var c := State();
      OwnPosition(c, p, core.State());
      ClaimHandled(c, id, p, env, core.State());
      var account := positions[p];
      positions := positions - {p};
      var position := new PositionObject(account.position);
      ghost var c0 := State();
      var outcome := core.ClaimDormantRecovery(market, env, position);
      assert State() == c0;
      if outcome.Err? {
        Rollback(snap, nextId, c, id);
        positions := positions[p := account];
        return Err(EngineFailed(outcome.error));
      }
      var claimed := PositionAccount(id, position.State());
      var written := WriteOrRollback(id, core, snap, nextId, c);
      if written.Err? {
        positions := positions[p := account];
        return Err(written.error);
      }
      positions := positions[p := claimed];
      r := PayOut(outcome.value.redeemable, outcome.value.events);
    }

    // -------------------------------------------------------------- solvency

    /** `check_vault_decomposition`: it passes in every coherent state. */
    method CheckVaultDecomposition() returns (ok: bool)
      ensures ok <==> vault == Decomposition(State())
      ensures Coherent(State()) ==> ok
    {
      hide Coherent, Sum;
      ghost var c := State();
      if Coherent(c) {
        VaultDecomposition(c);
      }
      var funds := AddUp(AccountTotals(State()));
      var accrued := AddUp(BucketTotals(State()));
      var pending := AddUp(LedgerPendings(State()));
      return vault == funds + accrued + pending;
    }

    // -------------------------------------------------------------- account life cycle

    /** `add_sub_pool`. */
    method AddSubPool(id: nat, price: nat, slot: nat)
      modifies this
      ensures State() == AddPool(old(State()), id, price, slot)
    {
      subPools := subPools[id := AccountOf(id, NewSubPool(id, price, slot))];
      ledgers := ledgers[SideKey(id, Long) := EmptyLedger(Long, market.ledgerCap)];
      ledgers := ledgers[SideKey(id, Short) := EmptyLedger(Short, market.ledgerCap)];
    }

    /** `pre_init_dormant_bucket`. */
    method PreInitDormantBucket(key: Key) returns (r: MirrorResult<()>)
      modifies this
      ensures (State(), r) == PreInitBucket(old(State()), key)
    {
      if key.subPool !in subPools {
        return Err(SubPoolNotFound(key.subPool));
      }
      if key in buckets {
        return Err(BucketLifecycleViolation(key, Initialised));
      }
      buckets := buckets[key := DeadRecord(key.direction, key.tick)];
      return Ok(());
    }

    /** `close_dormant_bucket`. */
    method CloseDormantBucket(key: Key) returns (r: MirrorResult<()>)
      modifies this
      ensures (State(), r) == CloseSlot(old(State()), key)
    {
      if key !in buckets {
        return Err(BucketNotInitialized(key));
      }
      var record := buckets[key];
      if !record.IsDead() {
        return Err(BucketLifecycleViolation(key, StillLive));
      }
      var side := SideKey(key.subPool, key.direction);
      if side !in ledgers {
        return Err(RuntimeInvariant(NoLedger));
      }
      if record.applied < ledgers[side].nextIndex {
        return Err(BucketLifecycleViolation(key, HasPending));
      }
      buckets := buckets - {key};
      return Ok(());
    }
  }

  function Ticks(records: seq<BucketRecord>): set<int> {
    set r | r in records :: r.tick
  }

  /** Buckets of the side whose tick is not in `live` are dropped. */
  function RetainLive(bs: map<Key, BucketRecord>, id: nat, d: Direction, live: set<int>): map<Key, BucketRecord> {
    map k | k in bs && !(k.subPool == id && k.direction == d && k.tick !in live) :: bs[k]
  }

  /** Other sides are kept, the side has live ticks only, and the first `i` records are in their places. */
  ghost predicate Inserted(
    was: map<Key, BucketRecord>, now: map<Key, BucketRecord>, id: nat, d: Direction, records: seq<BucketRecord>, i: nat)
  {
    && i <= |records|
    && (forall k: Key :: !(k.subPool == id && k.direction == d) ==>
          (k in now <==> k in was) && (k in was ==> now[k] == was[k]))
    && (forall k: Key :: k.subPool == id && k.direction == d && k in now ==> k.tick in Ticks(records))
    && (forall j :: 0 <= j < i ==> Key(id, d, records[j].tick) in now && now[Key(id, d, records[j].tick)] == records[j])
  }

  lemma InsertedNone(was: map<Key, BucketRecord>, id: nat, d: Direction, records: seq<BucketRecord>)
    ensures Inserted(was, RetainLive(was, id, d, Ticks(records)), id, d, records, 0)
  {
    hide Ticks;
  }

  lemma InsertedNext(
    was: map<Key, BucketRecord>, now: map<Key, BucketRecord>, id: nat, d: Direction, records: seq<BucketRecord>, i: nat,
    packed: map<int, BucketRecord>)
    requires Inserted(was, now, id, d, records, i) && i < |records| && Lists(records, packed)
    ensures Inserted(was, now[Key(id, d, records[i].tick) := records[i]], id, d, records, i + 1)
  {
    hide Ticks, Lists;
    EarlierTicks(records, i, packed);
  }

  lemma EarlierTicks(records: seq<BucketRecord>, i: nat, packed: map<int, BucketRecord>)
    requires i < |records| && Lists(records, packed)
    ensures records[i].tick in Ticks(records)
    ensures forall j :: 0 <= j < i ==> records[j].tick < records[i].tick
  {
    assert records[i] in records;
  }

  lemma InsertedAll(
    was: map<Key, BucketRecord>, now: map<Key, BucketRecord>, id: nat, d: Direction, records: seq<BucketRecord>,
    packed: map<int, BucketRecord>)
    requires Lists(records, packed) && Inserted(was, now, id, d, records, |records|)
    ensures now == LooseBuckets(was, id, d, packed)
  {
    var want := LooseBuckets(was, id, d, packed);
    forall k: Key | k.subPool == id && k.direction == d
      ensures k in now <==> k in want
      ensures k in now ==> now[k] == want[k]
    {
      LooseAt(was, id, d, packed, k.tick);
      assert k == Key(id, d, k.tick);
      TickListed(records, packed, k.tick);
    }
    LooseElsewhere(was, id, d, packed);
    hide LooseBuckets, Lists, Ticks;
    forall k | k in now
      ensures k in want && want[k] == now[k]
    {
    }
    forall k | k in want
      ensures k in now
    {
    }
  }

  lemma TickListed(records: seq<BucketRecord>, packed: map<int, BucketRecord>, t: int)
    requires Lists(records, packed)
    ensures t in Ticks(records) <==> t in packed
    ensures t in packed ==> exists j :: 0 <= j < |records| && records[j].tick == t && records[j] == packed[t]
  {
    if t in packed {
      var j :| 0 <= j < |records| && records[j].tick == t;
      assert records[j] in records && records[j] == packed[t];
    }
  }

  lemma LooseElsewhere(bs: map<Key, BucketRecord>, id: nat, d: Direction, packed: map<int, BucketRecord>)
    ensures SameElsewhere(bs, LooseBuckets(bs, id, d, packed), id, d)
  {
  }

  lemma LooseAt(bs: map<Key, BucketRecord>, id: nat, d: Direction, packed: map<int, BucketRecord>, t: int)
    ensures Key(id, d, t) in LooseBuckets(bs, id, d, packed) <==> t in packed
    ensures t in packed ==> LooseBuckets(bs, id, d, packed)[Key(id, d, t)] == packed[t]
  {
    var put := map u | u in packed :: Key(id, d, u) := packed[u];
    if t in packed {
      assert Key(id, d, t) in put;
    }
    if Key(id, d, t) in put {
      assert Key(id, d, t).tick == t;
    }
  }

  lemma RestoresBuckets(c: Chain, was: Chain, id: nat)
    requires CanSnapshot(was, id)
    ensures Restore(c, was, id).buckets == WithoutBucketsOf(c.buckets, was.subPools[id].id) + BucketsOf(was.buckets, id)
  {
  }

  // ---------------------------------------------------------------- strict slots

  /** The records below the `i`-th are in their slots, nothing else has changed. */
  ghost predicate Placed(
    was: map<Key, BucketRecord>, now: map<Key, BucketRecord>, id: nat, d: Direction, records: seq<BucketRecord>,
    packed: map<int, BucketRecord>, i: nat)
  {
    && i <= |records| && now.Keys == was.Keys
    && (forall j :: 0 <= j < i ==> Key(id, d, records[j].tick) in was)
    && (forall k :: k in was ==>
          now[k] == if k.subPool == id && k.direction == d && k.tick in packed && (i < |records| ==> k.tick < records[i].tick)
                    then packed[k.tick] else was[k])
  }

  lemma PlacedNone(
    was: map<Key, BucketRecord>, id: nat, d: Direction, records: seq<BucketRecord>, packed: map<int, BucketRecord>)
    requires Lists(records, packed)
    ensures Placed(was, was, id, d, records, packed, 0)
  {
    forall k | k in was && k.tick in packed
      ensures |records| > 0 && records[0].tick <= k.tick
    {
      var j :| 0 <= j < |records| && records[j].tick == k.tick;
    }
  }

  /** No packed tick lies between two neighbouring records. */
  lemma NextTick(records: seq<BucketRecord>, packed: map<int, BucketRecord>, i: nat, t: int)
    requires Lists(records, packed) && i < |records| && t in packed
    ensures (i + 1 < |records| ==> t < records[i + 1].tick) <==> t <= records[i].tick
  {
    var j :| 0 <= j < |records| && records[j].tick == t;
  }

  lemma PlacedNext(
    was: map<Key, BucketRecord>, now: map<Key, BucketRecord>, id: nat, d: Direction, records: seq<BucketRecord>,
    packed: map<int, BucketRecord>, i: nat)
    requires Lists(records, packed) && Placed(was, now, id, d, records, packed, i)
    requires i < |records| && Key(id, d, records[i].tick) in now
    ensures Placed(was, now[Key(id, d, records[i].tick) := records[i]], id, d, records, packed, i + 1)
  {
    var key := Key(id, d, records[i].tick);
    var now' := now[key := records[i]];
    assert now'.Keys == was.Keys;
    assert records[i].tick in packed && packed[records[i].tick] == records[i];
    forall k | k in was && k.subPool == id && k.direction == d && k.tick in packed
      ensures (i + 1 < |records| ==> k.tick < records[i + 1].tick) <==> k.tick <= records[i].tick
      ensures k.tick == records[i].tick <==> k == key
    {
      NextTick(records, packed, i, k.tick);
      assert k == Key(id, d, k.tick);
    }
    hide Lists;
  }

  /** A record without slot: it is the first one missing. */
  lemma PlacedStuck(
    was: map<Key, BucketRecord>, now: map<Key, BucketRecord>, id: nat, d: Direction, records: seq<BucketRecord>,
    packed: map<int, BucketRecord>, i: nat)
    requires Lists(records, packed) && Placed(was, now, id, d, records, packed, i)
    requires i < |records| && Key(id, d, records[i].tick) !in now
    ensures
      var missing := MissingSlots(was, id, d, packed);
      missing != {} && now == PlacedBelow(was, id, d, packed, LeastOf(missing))
  {
    var missing := MissingSlots(was, id, d, packed);
    assert records[i].tick in missing;
    forall t | t in missing
      ensures records[i].tick <= t
    {
      var j :| 0 <= j < |records| && records[j].tick == t;
    }
    hide Lists;
    assert LeastOf(missing) == records[i].tick;
    forall k | k in now
      ensures now[k] == PlacedBelow(was, id, d, packed, records[i].tick)[k]
    {
    }
  }

  lemma PlacedAll(
    was: map<Key, BucketRecord>, now: map<Key, BucketRecord>, id: nat, d: Direction, records: seq<BucketRecord>,
    packed: map<int, BucketRecord>)
    requires Lists(records, packed) && Placed(was, now, id, d, records, packed, |records|)
    ensures MissingSlots(was, id, d, packed) == {}
    ensures Zeroing(was, now, now.Keys, id, d, packed)
  {
    forall t | t in packed
      ensures Key(id, d, t) in was
    {
      var j :| 0 <= j < |records| && records[j].tick == t;
    }
  }

  /** The leftovers outside `todo` have been zeroed. */
  ghost predicate Zeroing(
    was: map<Key, BucketRecord>, now: map<Key, BucketRecord>, todo: set<Key>, id: nat, d: Direction, packed: map<int, BucketRecord>)
  {
    && now.Keys == was.Keys
    && (forall k :: k in was ==>
          now[k] == if k.subPool == id && k.direction == d then
                      (if k.tick in packed then packed[k.tick] else if k in todo then was[k] else Zeroed(was[k]))
                    else was[k])
  }

  /** A dead slot is zero already. */
  lemma ZeroStep(
    was: map<Key, BucketRecord>, now: map<Key, BucketRecord>, todo: set<Key>, id: nat, d: Direction, records: seq<BucketRecord>,
    packed: map<int, BucketRecord>, k: Key)
    requires Lists(records, packed) && Zeroing(was, now, todo, id, d, packed) && k in todo && k in now
    ensures
      var left := k.subPool == id && k.direction == d && k.tick !in Ticks(records) && !now[k].IsDead();
      Zeroing(was, if left then now[k := Zeroed(now[k])] else now, todo - {k}, id, d, packed)
  {
    TickListed(records, packed, k.tick);
    hide Lists, Ticks;
  }

  lemma ZeroedAll(
    was: map<Key, BucketRecord>, now: map<Key, BucketRecord>, id: nat, d: Direction, packed: map<int, BucketRecord>)
    requires Zeroing(was, now, {}, id, d, packed)
    ensures now == StrictBuckets(was, id, d, packed)
  {
    forall k | k in was
      ensures now[k] == StrictBuckets(was, id, d, packed)[k]
    {
    }
  }

  // ---------------------------------------------------------------- what the handlers rely on

  /** Slots of a coherent runtime are where they belong, and what is rebuilt from them is sound. */
  lemma CoherentBuilds(c: Chain, id: nat)
    requires Coherent(c)
    ensures OwnTicks(Slots(c.buckets, id, Long)) && OwnTicks(Slots(c.buckets, id, Short))
    ensures Build(c, id).Ok? ==> WorldOk(Build(c, id).value, Own(c.positions, id))
  {
    hide ChainOk, PoolFine, Build, WorldOk, Own, SlotsHold, Slots, OwnTicks, SideStored, Capacity.Stored;
    var pools :| ChainOk(c, pools);
    OpenIsReady(c, pools);
    if id in pools {
      PoolAt(c, pools, id);
      FineParts(c, id, pools[id]);
      FineBuilds(c, id, pools[id]);
      StoredSlots(c, id, pools[id]);
    } else {
      NoSlots(c, id, Long);
      NoSlots(c, id, Short);
      NoPool(c, id);
    }
  }

  lemma StoredSlots(c: Chain, id: nat, sp: SubPool)
    requires PoolStored(c, id, sp)
    ensures OwnTicks(Slots(c.buckets, id, Long)) && OwnTicks(Slots(c.buckets, id, Short))
  {
    hide SlotsHold, Slots, OwnTicks, PackBuckets, PackLedger;
    SlotTicks(c.buckets, id, Long, PackBuckets(sp.long.store));
    SlotTicks(c.buckets, id, Short, PackBuckets(sp.short.store));
  }

  lemma NoSlots(c: Chain, id: nat, d: Direction)
    requires forall k :: k in c.buckets ==> k.subPool != id
    ensures OwnTicks(Slots(c.buckets, id, d))
  {
  }

  lemma NoPool(c: Chain, id: nat)
    requires id !in c.subPools
    ensures Build(c, id).Err?
  {
  }

  lemma BuiltId(c: Chain, id: nat)
    requires Coherent(c) && Build(c, id).Ok?
    ensures Build(c, id).value.id == id
  {
    hide ChainOk, PoolFine, Build;
    var pools :| ChainOk(c, pools);
    OpenIsReady(c, pools);
    if id in pools {
      PoolAt(c, pools, id);
      FineBuilds(c, id, pools[id]);
    } else {
      NoPool(c, id);
    }
  }

  lemma CoherentBuckets(c: Chain, key: Key)
    requires Coherent(c) && key in c.buckets
    ensures CanSnapshot(c, key.subPool)
  {
    hide ChainOk, CanSnapshot;
    var pools :| ChainOk(c, pools);
    OpenIsReady(c, pools);
    PoolSnapshots(c, pools, key.subPool);
  }

  /** The counter is ahead of every position. */
  lemma CoherentCounter(c: Chain, id: nat)
    requires Coherent(c)
    ensures c.nextId !in c.positions && c.nextId !in Own(c.positions, id)
  {
    hide ChainOk;
    var pools :| ChainOk(c, pools);
    OpenIsReady(c, pools);
  }

  /** Rebuilding reads the accounts only. */
  lemma BuildReads(c: Chain, c': Chain, id: nat)
    requires c' == c.(positions := c'.positions, nextId := c'.nextId)
    ensures Build(c', id) == Build(c, id)
  {
    hide Unpack, Listing, Slots;
  }

  lemma PutSame(ps: map<nat, PositionAccount>, id: nat)
    ensures PutOwn(ps, id, Own(ps, id)) == ps
  {
  }

  lemma PutOne(ps: map<nat, PositionAccount>, id: nat, p: nat, pos: Position)
    ensures PutOwn(ps, id, Own(ps, id)[p := pos]) == ps[p := PositionAccount(id, pos)]
  {
  }

  /** What an open takes in is the principal, split into credit and dust, and the fee. */
  lemma OpenPays(m: Market, sp: SubPool, env: Envelope, d: Direction, gross: u64, id: nat, ps: map<nat, Position>)
    requires WorldOk(sp, ps) && id !in ps
    ensures
      var r := Engine.OpenPosition(m, sp, env, d, gross, id);
      r.Ok? ==>
        && r.value.2.mint.principal + r.value.2.mint.dust == r.value.1.principal
        && r.value.1.principal + r.value.2.fee == gross
  {
    hide WorldOk, Engine.OpenPosition, Engine.SyncPool, EnginePositions.Funds;
    if Engine.OpenPosition(m, sp, env, d, gross, id).Ok? {
      EngineOperations.OpenKeepsWorld(m, sp, env, d, gross, id, ps);
    }
  }

  /** The common shape of the handlers of existing sub pools. */
  lemma HandledFrom(c: Chain, id: nat, op: EngineOp, sp: SubPool, r: ClearingResult<(World, Effect)>)
    requires Ready(c, id, op) && !op.OpenOp? && Build(c, id) == Ok(sp)
    requires Applicable(World(sp, Own(c.positions, id)), op)
    requires r == EngineStep(c.market, World(sp, Own(c.positions, id)), op)
    ensures r.Err? ==> Handle(c, id, op) == (Restore(c, c, id).(nextId := c.nextId), Err(EngineFailed(r.error)))
    ensures r.Ok? ==>
      var (c1, written) := Write(c, id, r.value.0.sp);
      && (written.Err? && op.SyncOp? ==> Handle(c, id, op) == (c1, Err(written.error)))
      && (written.Err? && !op.SyncOp? ==> Handle(c, id, op) == (Restore(c1, c, id).(nextId := c.nextId), Err(written.error)))
      && (written.Ok? ==>
            Handle(c, id, op) == MoveFunds(c1.(positions := PutOwn(c.positions, id, r.value.0.ps)), r.value.1))
  {
    hide Build, EngineStep, Write, Own, PutOwn, Restore, CanSnapshot, Handle, MoveFunds, Ready;
    HandleUnfolds(c, id, op, sp);
  }

  /** A handler on a sub pool that cannot be rebuilt. */
  lemma NotBuilt(c: Chain, id: nat, op: EngineOp)
    requires Ready(c, id, op) && !op.OpenOp?
    ensures Build(c, id).Err? ==> Handle(c, id, op) == (c, Err(Build(c, id).error))
  {
    hide Build, EngineStep, Own;
  }

  lemma SyncExecutes(c: Chain, id: nat, env: Envelope)
    requires Coherent(c) && Issuable(c, SyncIx(id, env))
    ensures Ready(c, id, SyncOp(env))
    ensures Execute(c, SyncIx(id, env)) == Handle(c, id, SyncOp(env))
    ensures Build(c, id).Err? ==> Execute(c, SyncIx(id, env)) == (c, Err(Build(c, id).error))
  {
    hide Coherent, Build, Handle;
    NotBuilt(c, id, SyncOp(env));
  }

  lemma SyncHandled(c: Chain, id: nat, env: Envelope, sp: SubPool)
    requires Ready(c, id, SyncOp(env)) && Build(c, id) == Ok(sp)
    ensures
      var op := SyncOp(env);
      var r := Engine.SyncPool(c.market, sp, env);
      && (r.Err? ==> Handle(c, id, op) == (Restore(c, c, id).(nextId := c.nextId), Err(EngineFailed(r.error))))
      && (r.Ok? ==>
            var (c1, written) := Write(c, id, r.value.0);
            && (written.Err? ==> Handle(c, id, op) == (c1, Err(written.error)))
            && (written.Ok? ==> Handle(c, id, op) == (c1, Ok(Effect(0, 0, 0, 0, r.value.1.events)))))
  {
    hide Engine.SyncPool, Build, Write, Own, PutOwn, Restore, CanSnapshot, Handle;
    HandledFrom(c, id, SyncOp(env), sp, EngineStep(c.market, World(sp, Own(c.positions, id)), SyncOp(env)));
    PutSame(c.positions, id);
    WriteKeepsPositions(c, id, Engine.SyncPool(c.market, sp, env));
  }

  lemma WriteKeepsPositions<T>(c: Chain, id: nat, r: ClearingResult<(SubPool, T)>)
    ensures r.Ok? ==> Write(c, id, r.value.0).0.positions == c.positions
  {
    hide LooseBuckets, StrictBuckets, PlacedBelow, MissingSlots, PackBuckets, PackLedger, PackChecks;
  }

  lemma HarvestExecutes(c: Chain, id: nat, d: Direction)
    requires Coherent(c) && Issuable(c, HarvestIx(id, d))
    ensures Ready(c, id, HarvestOp(d))
    ensures Execute(c, HarvestIx(id, d)) == Handle(c, id, HarvestOp(d))
    ensures Build(c, id).Err? ==> Execute(c, HarvestIx(id, d)) == (c, Err(Build(c, id).error))
    ensures Build(c, id).Ok? ==> Build(c, id).value.id == id
  {
    hide Coherent, Build, Handle;
    NotBuilt(c, id, HarvestOp(d));
    if Build(c, id).Ok? {
      BuiltId(c, id);
    }
  }

  lemma HarvestHandled(c: Chain, id: nat, d: Direction, sp: SubPool)
    requires Ready(c, id, HarvestOp(d)) && Build(c, id) == Ok(sp)
    ensures
      var op := HarvestOp(d);
      var r := Engine.HarvestDust(c.market, sp, d);
      && (r.Err? ==> Handle(c, id, op) == (Restore(c, c, id).(nextId := c.nextId), Err(EngineFailed(r.error))))
      && (r.Ok? ==>
            var (c1, written) := Write(c, id, r.value.0);
            && (written.Err? ==> Handle(c, id, op) == (Restore(c1, c, id).(nextId := c.nextId), Err(written.error)))
            && (written.Ok? ==>
                  Handle(c, id, op) == MoveFunds(c1, Effect(0, 0, 0, r.value.1, [DustHarvested(sp.id, d, r.value.1)]))))
  {
    hide Engine.HarvestDust, Build, Write, Own, PutOwn, Restore, CanSnapshot, Handle, MoveFunds;
    HandledFrom(c, id, HarvestOp(d), sp, EngineStep(c.market, World(sp, Own(c.positions, id)), HarvestOp(d)));
    PutSame(c.positions, id);
    WriteKeepsPositions(c, id, Engine.HarvestDust(c.market, sp, d));
  }

  lemma CloseExecutes(c: Chain, p: nat, env: Envelope)
    ensures Execute(c, CloseIx(p, env)) == HandlePosition(c, p, CloseOp(env, p))
  {
    hide HandlePosition;
  }

  lemma ForceCloseExecutes(c: Chain, p: nat, env: Envelope, acknowledged: bool)
    ensures Execute(c, ForceCloseIx(p, env, acknowledged)) == HandlePosition(c, p, ForceCloseOp(env, p, acknowledged))
  {
    hide HandlePosition;
  }

  lemma ClaimExecutes(c: Chain, p: nat, env: Envelope)
    ensures Execute(c, ClaimIx(p, env)) == HandlePosition(c, p, ClaimOp(env, p))
  {
    hide HandlePosition;
  }

  /** The handlers of one position, on the sub pool it lives in. */
  lemma PositionExecutes(c: Chain, p: nat, op: EngineOp)
    requires Coherent(c) && (op.CloseOp? || op.ForceCloseOp? || op.ClaimOp?) && op.id == p
    ensures p !in c.positions ==> HandlePosition(c, p, op) == (c, Err(PositionNotFound(p)))
    ensures p in c.positions ==>
      var id := c.positions[p].subPool;
      && Ready(c, id, op)
      && HandlePosition(c, p, op) == Handle(c, id, op)
      && (Build(c, id).Err? ==> Handle(c, id, op) == (c, Err(Build(c, id).error)))
  {
    hide Coherent, Build, Handle, CanSnapshot, Own;
    if p in c.positions {
      CoherentPosition(c, p);
      NotBuilt(c, c.positions[p].subPool, op);
    }
  }

  lemma CoherentPosition(c: Chain, p: nat)
    requires Coherent(c) && p in c.positions
    ensures CanSnapshot(c, c.positions[p].subPool) && p in Own(c.positions, c.positions[p].subPool)
  {
    hide ChainOk, CanSnapshot, Own;
    var pools :| ChainOk(c, pools);
    OpenIsReady(c, pools);
    PoolSnapshots(c, pools, c.positions[p].subPool);
    OwnHas(c, p);
  }

  /** The position a sub pool's population records. */
  lemma OwnPosition(c: Chain, p: nat, sp: SubPool)
    requires p in c.positions && WorldOk(sp, Own(c.positions, c.positions[p].subPool))
    ensures
      var id := c.positions[p].subPool;
      && p in Own(c.positions, id) && Own(c.positions, id)[p] == c.positions[p].position
      && c.positions[p].position.id == p
  {
    var id := c.positions[p].subPool;
    assert p in Own(c.positions, id);
    hide WorldOk, Own;
    ReadyToLeave(sp, Own(c.positions, id), p);
  }

  function Absent(c: Chain, p: nat): Chain {
    c.(positions := c.positions - {p})
  }

  /** Nothing below the handlers reads or writes positions. */
  lemma AbsentUnnoticed(c: Chain, p: nat, id: nat, sp: SubPool, a: PositionAccount)
    requires p in c.positions && CanSnapshot(c, id)
    ensures
      var account := c.positions[p];
      var (c1, written) := Write(c, id, sp);
      var (c2, written') := Write(Absent(c, p), id, sp);
      && written' == written && c2 == Absent(c1, p) && c1.positions == c.positions
      && Restore(c1, c, id) == Restore(c2, c, id).(positions := c2.positions[p := account])
      && Restore(c, c, id) == Restore(Absent(c, p), c, id).(positions := Absent(c, p).positions[p := account])
      && c2.positions[p := a] == c.positions[p := a]
  {
    hide LooseBuckets, StrictBuckets, PlacedBelow, MissingSlots, PackBuckets, PackLedger, PackChecks;
    PutBack(c.positions, p, c.positions[p]);
    PutBack(c.positions, p, a);
  }

  lemma PutBack(ps: map<nat, PositionAccount>, p: nat, a: PositionAccount)
    requires p in ps
    ensures (ps - {p})[p := a] == ps[p := a] && ps[p := ps[p]] == ps
  {
    assert ((ps - {p})[p := a]).Keys == (ps[p := a]).Keys;
  }

  /** A handler of position `p`, told as its steps: the position is out of the map meanwhile. */
  lemma HandledAbsent(c: Chain, id: nat, op: EngineOp, p: nat, sp: SubPool, r: ClearingResult<(World, Effect)>, pos: Position)
    requires Ready(c, id, op) && (op.CloseOp? || op.ForceCloseOp? || op.ClaimOp?) && Build(c, id) == Ok(sp)
    requires p in c.positions && c.positions[p].subPool == id
    requires Applicable(World(sp, Own(c.positions, id)), op)
    requires r == EngineStep(c.market, World(sp, Own(c.positions, id)), op)
    requires r.Ok? ==> r.value.0.ps == Own(c.positions, id)[p := pos]
    ensures
      var c0, account := Absent(c, p), c.positions[p];
      && (r.Err? ==>
            Handle(c, id, op)
              == (Restore(c0, c, id).(nextId := c.nextId, positions := c0.positions[p := account]), Err(EngineFailed(r.error))))
      && (r.Ok? ==>
            var (c1, written) := Write(c0, id, r.value.0.sp);
            && c1.positions == c0.positions
            && (written.Err? ==>
                  Handle(c, id, op)
                    == (Restore(c1, c, id).(nextId := c.nextId, positions := c0.positions[p := account]), Err(written.error)))
            && (written.Ok? ==>
                  Handle(c, id, op) == MoveFunds(c1.(positions := c1.positions[p := PositionAccount(id, pos)]), r.value.1)))
  {
    hide Build, EngineStep, Write, Own, PutOwn, CanSnapshot, Handle, MoveFunds, Ready, Restore;
    ReadySnapshots(c, id, op);
    HandledFrom(c, id, op, sp, r);
    AbsentUnnoticed(c, p, id, if r.Ok? then r.value.0.sp else sp, PositionAccount(id, pos));
    RestoreKeepsPositions(Absent(c, p), c, id);
    RestoreKeepsPositions(c, c, id);
    if r.Ok? {
      PutOne(c.positions, id, p, pos);
      RestoreKeepsPositions(Write(Absent(c, p), id, r.value.0.sp).0, c, id);
    }
  }

  lemma ReadySnapshots(c: Chain, id: nat, op: EngineOp)
    requires Ready(c, id, op)
    ensures CanSnapshot(c, id)
  {
  }

  lemma RestoreKeepsPositions(c: Chain, was: Chain, id: nat)
    requires CanSnapshot(was, id)
    ensures Restore(c, was, id).positions == c.positions && Restore(c, was, id).nextId == c.nextId
  {
  }

  lemma CloseHandled(c: Chain, id: nat, p: nat, env: Envelope, sp: SubPool)
    requires Ready(c, id, CloseOp(env, p)) && Build(c, id) == Ok(sp)
    requires p in c.positions && c.positions[p].subPool == id
    requires p in Own(c.positions, id) && Own(c.positions, id)[p] == c.positions[p].position
    ensures
      var op, c0, account := CloseOp(env, p), Absent(c, p), c.positions[p];
      var r := Engine.ClosePosition(c.market, sp, env, account.position);
      && (r.Err? ==>
            Handle(c, id, op)
              == (Restore(c0, c, id).(nextId := c.nextId, positions := c0.positions[p := account]), Err(EngineFailed(r.error))))
      && (r.Ok? ==>
            var (c1, written) := Write(c0, id, r.value.0);
            && c1.positions == c0.positions
            && (written.Err? ==>
                  Handle(c, id, op)
                    == (Restore(c1, c, id).(nextId := c.nextId, positions := c0.positions[p := account]), Err(written.error)))
            && (written.Ok? ==>
                  Handle(c, id, op)
                    == MoveFunds(c1.(positions := c1.positions[p := PositionAccount(id, r.value.1)]),
                                 Effect(0, 0, r.value.2.withdrawable, 0, r.value.2.events))))
  {
    hide Engine.ClosePosition, Build, Write, Own, Restore, CanSnapshot, Handle, MoveFunds, Ready;
    var r := Engine.ClosePosition(c.market, sp, env, c.positions[p].position);
    HandledAbsent(c, id, CloseOp(env, p), p, sp, EngineStep(c.market, World(sp, Own(c.positions, id)), CloseOp(env, p)),
                  if r.Ok? then r.value.1 else c.positions[p].position);
  }

  lemma ForceCloseHandled(c: Chain, id: nat, p: nat, env: Envelope, acknowledged: bool, sp: SubPool)
    requires Ready(c, id, ForceCloseOp(env, p, acknowledged)) && Build(c, id) == Ok(sp)
    requires p in c.positions && c.positions[p].subPool == id
    requires p in Own(c.positions, id) && Own(c.positions, id)[p] == c.positions[p].position
    ensures
      var op, c0, account := ForceCloseOp(env, p, acknowledged), Absent(c, p), c.positions[p];
      var r := Engine.ForceClose(c.market, sp, env, account.position, acknowledged);
      && (r.Err? ==>
            Handle(c, id, op)
              == (Restore(c0, c, id).(nextId := c.nextId, positions := c0.positions[p := account]), Err(EngineFailed(r.error))))
      && (r.Ok? ==>
            var (c1, written) := Write(c0, id, r.value.0);
            && c1.positions == c0.positions
            && (written.Err? ==>
                  Handle(c, id, op)
                    == (Restore(c1, c, id).(nextId := c.nextId, positions := c0.positions[p := account]), Err(written.error)))
            && (written.Ok? ==>
                  Handle(c, id, op)
                    == (c1.(positions := c1.positions[p := PositionAccount(id, r.value.1)]),
                        Ok(Effect(0, 0, 0, 0, r.value.2.events)))))
  {
    hide Engine.ForceClose, Build, Write, Own, Restore, CanSnapshot, Handle, Ready;
    var r := Engine.ForceClose(c.market, sp, env, c.positions[p].position, acknowledged);
    var op := ForceCloseOp(env, p, acknowledged);
    HandledAbsent(c, id, op, p, sp, EngineStep(c.market, World(sp, Own(c.positions, id)), op),
                  if r.Ok? then r.value.1 else c.positions[p].position);
  }

  lemma ClaimHandled(c: Chain, id: nat, p: nat, env: Envelope, sp: SubPool)
    requires Ready(c, id, ClaimOp(env, p)) && Build(c, id) == Ok(sp)
    requires p in c.positions && c.positions[p].subPool == id
    requires p in Own(c.positions, id) && Own(c.positions, id)[p] == c.positions[p].position
    ensures
      var op, c0, account := ClaimOp(env, p), Absent(c, p), c.positions[p];
      var r := Engine.ClaimRecovery(c.market, sp, env, account.position);
      && (r.Err? ==>
            Handle(c, id, op)
              == (Restore(c0, c, id).(nextId := c.nextId, positions := c0.positions[p := account]), Err(EngineFailed(r.error))))
      && (r.Ok? ==>
            var (c1, written) := Write(c0, id, r.value.0);
            && c1.positions == c0.positions
            && (written.Err? ==>
                  Handle(c, id, op)
                    == (Restore(c1, c, id).(nextId := c.nextId, positions := c0.positions[p := account]), Err(written.error)))
            && (written.Ok? ==>
                  Handle(c, id, op)
                    == MoveFunds(c1.(positions := c1.positions[p := PositionAccount(id, r.value.1)]),
                                 Effect(0, 0, r.value.2.redeemable, 0, r.value.2.events))))
  {
    hide Engine.ClaimRecovery, Build, Write, Own, Restore, CanSnapshot, Handle, MoveFunds, Ready;
    var r := Engine.ClaimRecovery(c.market, sp, env, c.positions[p].position);
    HandledAbsent(c, id, ClaimOp(env, p), p, sp, EngineStep(c.market, World(sp, Own(c.positions, id)), ClaimOp(env, p)),
                  if r.Ok? then r.value.1 else c.positions[p].position);
  }

  lemma PreSyncMissing(c: Chain, key: Key)
    requires key !in c.buckets
    ensures Execute(c, PreSyncIx(key)) == (c, Err(BucketNotInitialized(key)))
  {
    hide Handle;
  }

  lemma PreSyncReady(c: Chain, key: Key)
    requires Coherent(c) && key in c.buckets
    ensures Ready(c, key.subPool, PreSyncOp(key.direction, key.tick))
  {
    hide Coherent;
    CoherentBuckets(c, key);
  }

  lemma PreSyncFound(c: Chain, key: Key)
    requires key in c.buckets && Ready(c, key.subPool, PreSyncOp(key.direction, key.tick))
    ensures Execute(c, PreSyncIx(key)) == Handle(c, key.subPool, PreSyncOp(key.direction, key.tick))
  {
    hide Handle, CanSnapshot;
  }

  lemma PreSyncHandles(c: Chain, key: Key, sp: SubPool)
    requires Ready(c, key.subPool, PreSyncOp(key.direction, key.tick)) && Build(c, key.subPool) == Ok(sp)
    ensures
      var id, op := key.subPool, PreSyncOp(key.direction, key.tick);
      var r := Engine.PreSyncBucket(c.market, sp, key.direction, key.tick);
      && (r.Err? ==> Handle(c, id, op) == (Restore(c, c, id).(nextId := c.nextId), Err(EngineFailed(r.error))))
      && (r.Ok? ==>
            var (c1, written) := Write(c, id, r.value.0);
            && (written.Err? ==> Handle(c, id, op) == (Restore(c1, c, id).(nextId := c.nextId), Err(written.error)))
            && (written.Ok? ==>
                  Handle(c, id, op)
                    == (c1, Ok(Effect(0, 0, 0, 0, [DormantBucketPendingApplied(sp.id, key.direction, key.tick, r.value.1)])))))
  {
    hide Engine.PreSyncBucket, Build, Write, Own, PutOwn, Restore, CanSnapshot, Handle;
    var id, op := key.subPool, PreSyncOp(key.direction, key.tick);
    HandledFrom(c, id, op, sp, EngineStep(c.market, World(sp, Own(c.positions, id)), op));
    PutSame(c.positions, id);
    WriteKeepsPositions(c, id, Engine.PreSyncBucket(c.market, sp, key.direction, key.tick));
  }

  lemma OpenExecutes(c: Chain, id: nat, d: Direction, gross: u64, env: Envelope)
    requires Coherent(c) && Issuable(c, OpenIx(id, d, gross, env))
    ensures Ready(c, id, OpenOp(env, d, gross, c.nextId))
    ensures Execute(c, OpenIx(id, d, gross, env)) == Handle(c, id, OpenOp(env, d, gross, c.nextId))
    ensures
      var c0 := Counted(c, OpenOp(env, d, gross, c.nextId));
      Build(c0, id).Err? ==> Execute(c, OpenIx(id, d, gross, env)) == (c0, Err(Build(c0, id).error))
  {
    hide Coherent, Build, Own;
    CoherentCounter(c, id);
  }

  /** The handler of an open, once the sub pool is rebuilt. */
  lemma OpenHandled(c: Chain, id: nat, d: Direction, gross: u64, env: Envelope, sp: SubPool)
    requires Ready(c, id, OpenOp(env, d, gross, c.nextId)) && WorldOk(sp, Own(c.positions, id))
    requires c.nextId !in Own(c.positions, id) && c.nextId !in c.positions
    requires Build(Counted(c, OpenOp(env, d, gross, c.nextId)), id) == Ok(sp)
    ensures
      var op := OpenOp(env, d, gross, c.nextId);
      var r := Engine.OpenPosition(c.market, sp, env, d, gross, c.nextId);
      var c0 := Counted(c, op);
      && (r.Err? ==> Handle(c, id, op) == (Restore(c0, c, id).(nextId := c.nextId), Err(EngineFailed(r.error))))
      && (r.Ok? ==>
            var (sp', pos, out) := r.value;
            var (c1, written) := Write(c0, id, sp');
            && pos.principal == out.mint.principal + out.mint.dust
            && (written.Err? ==> Handle(c, id, op) == (Restore(c1, c, id).(nextId := c.nextId), Err(written.error)))
            && (written.Ok? ==>
                  Handle(c, id, op) ==
                    (c1.(positions := c.positions[c.nextId := PositionAccount(id, pos)], vault := c1.vault + pos.principal,
                         feeVault := c1.feeVault + out.fee, deposits := c1.deposits + gross),
                     Ok(Effect(pos.principal, out.fee, 0, 0, out.events)))))
  {
    hide Engine.OpenPosition, Build, Write, WorldOk, Own, PutOwn, Restore, CanSnapshot, Handle, Ready;
    var op := OpenOp(env, d, gross, c.nextId);
    HandleUnfolds(c, id, op, sp);
    OpenPays(c.market, sp, env, d, gross, c.nextId, Own(c.positions, id));
    var r := Engine.OpenPosition(c.market, sp, env, d, gross, c.nextId);
    if r.Ok? {
      PutOne(c.positions, id, c.nextId, r.value.1);
    }
  }
}
