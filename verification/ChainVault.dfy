/** Solvency as the accounts show it: the vault decomposition holds in every reachable state. */
module ChainVault {
  import opened Clearing
  import opened Sums
  import opened Dormant
  import opened DormantInvariant
  import opened Onchain
  import opened Engine
  import EnginePositions
  import opened EngineRuns
  import Capacity
  import opened ChainMirror
  import ChainAccounts
  import opened ChainRuns

  /** Equity and dust of an account. */
  function AccountFunds(a: SubPoolAccount): nat {
    a.long.equity + a.short.equity + a.long.dust + a.short.dust
  }

  function AccountTotals(c: Chain): map<nat, nat> {
    map id | id in c.subPools :: AccountFunds(c.subPools[id])
  }

  function BucketTotals(c: Chain): map<Key, nat> {
    map k | k in c.buckets :: c.buckets[k].accrued
  }

  function LedgerPendings(c: Chain): map<SideKey, nat> {
    map k | k in c.ledgers :: c.ledgers[k].pendingTotal
  }

  /** The right-hand side of `check_vault_decomposition`. */
  ghost function Decomposition(c: Chain): nat {
    Sum(AccountTotals(c)) + Sum(BucketTotals(c)) + Sum(LedgerPendings(c))
  }

  // ---------------------------------------------------------------- one side's buckets

  function SideOf(c: Chain): map<Key, SideKey> {
    map k | k in c.buckets :: SideKey(k.subPool, k.direction)
  }

  /** The buckets of a side accrue what its ledger account says. */
  lemma SideAccrual(c: Chain, id: nat, d: Direction, s: Store)
    requires ChainAccounts.SideStored(c.market, c.buckets, c.ledgers, id, d, s) && Inv(s)
    ensures Sum(Group(BucketTotals(c), SideOf(c), SideKey(id, d))) == s.accruedTotal
  {
    hide Inv, Sum, ChainAccounts.SideStored, GroupOf, LiveAccounts, Accruals;
    var group := GroupOf(c, id, d);
    var live := LiveAccounts(group, s);
    DeadHoldNothing(c, id, d, s);
    SumSubset(group, live);
    LiveAreAccruals(c, id, d, s);
    forall t | t in Accruals(s.buckets)
      ensures exists k :: k in live && TickOfEach(live)[k] == t
    {
      assert Key(id, d, t) in live && TickOfEach(live)[Key(id, d, t)] == t;
    }
    SumRename(live, Accruals(s.buckets), TickOfEach(live));
    AccruedIs(s);
    GroupOfIs(c, id, d);
  }

  /** What the bucket accounts of one side have accrued. */
  ghost function GroupOf(c: Chain, id: nat, d: Direction): map<Key, nat> {
    map k | k in c.buckets && k.subPool == id && k.direction == d :: c.buckets[k].accrued
  }

  lemma GroupOfIs(c: Chain, id: nat, d: Direction)
    ensures Group(BucketTotals(c), SideOf(c), SideKey(id, d)) == GroupOf(c, id, d)
  {
  }

  /** The accounts whose tick the store still uses. */
  function LiveAccounts(group: map<Key, nat>, s: Store): map<Key, nat> {
    map k | k in group && k.tick in s.buckets :: group[k]
  }

  function TickOfEach(live: map<Key, nat>): map<Key, int> {
    map k | k in live :: k.tick
  }

  lemma DeadHoldNothing(c: Chain, id: nat, d: Direction, s: Store)
    requires ChainAccounts.SideStored(c.market, c.buckets, c.ledgers, id, d, s)
    ensures
      var group, live := GroupOf(c, id, d), LiveAccounts(GroupOf(c, id, d), s);
      && live.Keys <= group.Keys && (forall k :: k in live ==> live[k] == group[k])
      && (forall k :: k in group && k !in live ==> group[k] == 0)
  {
    hide PackLedger;
    forall k | k in GroupOf(c, id, d) && k.tick !in s.buckets
      ensures c.buckets[k].accrued == 0
    {
      assert k == Key(id, d, k.tick);
      assert k.tick !in PackBuckets(s);
    }
  }

  lemma LiveAreAccruals(c: Chain, id: nat, d: Direction, s: Store)
    requires ChainAccounts.SideStored(c.market, c.buckets, c.ledgers, id, d, s)
    ensures
      var live := LiveAccounts(GroupOf(c, id, d), s);
      && (forall k :: k in live ==> k.tick in Accruals(s.buckets) && Accruals(s.buckets)[k.tick] == live[k])
      && (forall j, k :: j in live && k in live && j.tick == k.tick ==> j == k)
      && (forall t :: t in Accruals(s.buckets) ==> Key(id, d, t) in live)
  {
    hide PackLedger;
    var live := LiveAccounts(GroupOf(c, id, d), s);
    forall k | k in live
      ensures k.tick in Accruals(s.buckets) && Accruals(s.buckets)[k.tick] == live[k] && k == Key(id, d, k.tick)
    {
      assert k == Key(id, d, k.tick);
      assert k.tick in PackBuckets(s) && PackBuckets(s)[k.tick] == c.buckets[k];
    }
    forall t | t in Accruals(s.buckets)
      ensures Key(id, d, t) in live
    {
      assert t in PackBuckets(s);
    }
  }

  lemma AccruedIs(s: Store)
    requires Inv(s)
    ensures s.accruedTotal == Sum(Accruals(s.buckets))
  {
  }

  // ---------------------------------------------------------------- all sides

  function LedgerAccrueds(c: Chain): map<SideKey, nat> {
    map k | k in c.ledgers :: c.ledgers[k].accruedTotal
  }

  function LedgerValues(c: Chain): map<SideKey, nat> {
    map k | k in c.ledgers :: c.ledgers[k].accruedTotal + c.ledgers[k].pendingTotal
  }

  function HomeOf(c: Chain): map<SideKey, nat> {
    map k | k in c.ledgers :: k.subPool
  }

  function StoreValues(pools: map<nat, SubPool>): map<nat, nat> {
    map id | id in pools :: Value(pools[id].long.store) + Value(pools[id].short.store)
  }

  /** The store of one side of a consistent runtime. */
  function StoreAt(pools: map<nat, SubPool>, k: SideKey): Store
    requires k.subPool in pools
  {
    pools[k.subPool].Side(k.direction).store
  }

  lemma SideAt(c: Chain, pools: map<nat, SubPool>, k: SideKey)
    requires ChainOk(c, pools) && k.subPool in pools
    ensures ChainAccounts.SideStored(c.market, c.buckets, c.ledgers, k.subPool, k.direction, StoreAt(pools, k)) && Inv(StoreAt(pools, k))
  {
    hide ChainOk, Sound, Capacity.Stored, ChainAccounts.SideStored, Inv, AllLive, TotalAllotted;
    PoolAt(c, pools, k.subPool);
    var sp := pools[k.subPool];
    FineIsWritable(c.market, sp, Own(c.positions, k.subPool));
  }

  lemma LedgerAt(c: Chain, pools: map<nat, SubPool>, k: SideKey)
    requires ChainOk(c, pools) && k.subPool in pools
    ensures k in c.ledgers
    ensures c.ledgers[k].accruedTotal == StoreAt(pools, k).accruedTotal
    ensures c.ledgers[k].pendingTotal == StoreAt(pools, k).pendingTotal
  {
    SideAt(c, pools, k);
    hide ChainOk, Inv, ChainAccounts.SlotsHold;
    assert k == SideKey(k.subPool, k.direction);
  }

  lemma LedgersHoused(c: Chain, pools: map<nat, SubPool>)
    requires ChainOk(c, pools)
    ensures forall k :: k in c.ledgers ==> k.subPool in pools
    ensures forall k :: k in c.buckets ==> k.subPool in pools
  {
    hide PoolFine, Balanced;
  }

  lemma BucketsByLedger(c: Chain, pools: map<nat, SubPool>)
    requires ChainOk(c, pools)
    ensures Sum(BucketTotals(c)) == Sum(LedgerAccrueds(c))
  {
    hide ChainOk, Sum, StoreAt, Inv, ChainAccounts.SideStored;
    LedgersHoused(c, pools);
    forall k | k in c.buckets
      ensures SideOf(c)[k] in LedgerAccrueds(c)
    {
      LedgerAt(c, pools, SideOf(c)[k]);
    }
    forall g | g in LedgerAccrueds(c)
      ensures LedgerAccrueds(c)[g] == Sum(Group(BucketTotals(c), SideOf(c), g))
    {
      SideAt(c, pools, g);
      LedgerAt(c, pools, g);
      SideAccrual(c, g.subPool, g.direction, StoreAt(pools, g));
      assert g == SideKey(g.subPool, g.direction);
    }
    SumGroups(BucketTotals(c), SideOf(c), LedgerAccrueds(c));
  }

  lemma PairSum(m: map<SideKey, nat>, id: nat, x: nat, y: nat)
    requires m == map[SideKey(id, Long) := x, SideKey(id, Short) := y]
    ensures Sum(m) == x + y
  {
    SumSplit(m, SideKey(id, Long));
    assert m - {SideKey(id, Long)} == map[SideKey(id, Short) := y];
    SumSingleton(SideKey(id, Short), y);
  }

  lemma LedgersOfPool(c: Chain, pools: map<nat, SubPool>, id: nat)
    requires ChainOk(c, pools) && id in pools
    ensures Sum(Group(LedgerValues(c), HomeOf(c), id)) == StoreValues(pools)[id]
  {
    hide ChainOk, Sum;
    LedgerAt(c, pools, SideKey(id, Long));
    LedgerAt(c, pools, SideKey(id, Short));
    var group := Group(LedgerValues(c), HomeOf(c), id);
    var x, y := Value(pools[id].long.store), Value(pools[id].short.store);
    forall k | k in group
      ensures k == SideKey(id, Long) || k == SideKey(id, Short)
    {
      assert k == SideKey(k.subPool, k.direction);
      assert k.direction == Long || k.direction == Short;
    }
    assert group == map[SideKey(id, Long) := x, SideKey(id, Short) := y];
    PairSum(group, id, x, y);
  }

  lemma LedgersByPool(c: Chain, pools: map<nat, SubPool>)
    requires ChainOk(c, pools)
    ensures Sum(LedgerValues(c)) == Sum(StoreValues(pools))
  {
    hide ChainOk, Sum;
    LedgersHoused(c, pools);
    forall id | id in StoreValues(pools)
      ensures StoreValues(pools)[id] == Sum(Group(LedgerValues(c), HomeOf(c), id))
    {
      LedgersOfPool(c, pools, id);
    }
    SumGroups(LedgerValues(c), HomeOf(c), StoreValues(pools));
  }

  lemma AccountAt(c: Chain, pools: map<nat, SubPool>, id: nat)
    requires ChainOk(c, pools) && id in pools
    ensures id in c.subPools
    ensures AccountFunds(c.subPools[id]) + StoreValues(pools)[id] == EnginePositions.Funds(pools[id])
  {
    hide ChainOk, Sound, Capacity.Stored, ChainAccounts.SideStored, Value;
    PoolAt(c, pools, id);
  }

  /**
    Solvency: in every coherent state the vault holds exactly the pool equities, the bucket accruals,
    the in-flight distributions and the dust of all accounts, and every deposit is either withdrawn,
    in the vault, or in the fee vault.
  */
  lemma VaultDecomposition(c: Chain)
    requires Coherent(c)
    ensures c.vault == Decomposition(c)
    ensures c.deposits == c.withdrawals + c.vault + c.feeVault
  {
    hide ChainOk, Sum, AccountTotals, BucketTotals;
    var pools :| ChainOk(c, pools);
    BucketsByLedger(c, pools);
    LedgersByPool(c, pools);
    LedgersSplit(c);
    FundsSplit(c, pools);
    OkBalanced(c, pools);
  }

  lemma OkBalanced(c: Chain, pools: map<nat, SubPool>)
    requires ChainOk(c, pools)
    ensures c.vault == Sum(FundsOf(pools)) && c.deposits == c.withdrawals + c.vault + c.feeVault
  {
    hide PoolFine, Housed, Sum, FundsOf;
  }

  lemma LedgersSplit(c: Chain)
    ensures Sum(LedgerValues(c)) == Sum(LedgerAccrueds(c)) + Sum(LedgerPendings(c))
  {
    hide Sum;
    SumAdd(LedgerAccrueds(c), LedgerPendings(c), LedgerValues(c));
  }

  /** Funds are equity and dust on the accounts, and what the stores answer for. */
  lemma FundsSplit(c: Chain, pools: map<nat, SubPool>)
    requires ChainOk(c, pools)
    ensures Sum(FundsOf(pools)) == Sum(AccountTotals(c)) + Sum(StoreValues(pools))
  {
    hide ChainOk, Sum, EnginePositions.Funds;
    SamePools(c, pools);
    forall id | id in pools
      ensures FundsOf(pools)[id] == AccountTotals(c)[id] + StoreValues(pools)[id]
    {
      AccountAt(c, pools, id);
    }
    SumAdd(AccountTotals(c), StoreValues(pools), FundsOf(pools));
  }

  lemma SamePools(c: Chain, pools: map<nat, SubPool>)
    requires ChainOk(c, pools)
    ensures c.subPools.Keys == pools.Keys
  {
    hide PoolFine, Housed, Sum, FundsOf;
  }

  /** So after every run of the loose runtime, in either distribution mode. */
  lemma LooseRunsAreSolvent(m: Market, code: seq<Instruction>)
    ensures
      var c := Run(NewChain(m, false), code);
      c.vault == Decomposition(c) && c.deposits == c.withdrawals + c.vault + c.feeVault
  {
    hide Coherent, Run, Decomposition, NewChain;
    NewChainCoherent(m, false);
    NewChainLoose(m);
    LooseIsClean(NewChain(m, false), code);
    RunKeeps(NewChain(m, false), code);
    VaultDecomposition(Run(NewChain(m, false), code));
  }

  lemma NewChainLoose(m: Market)
    ensures !NewChain(m, false).strict
  {
  }

  // ---------------------------------------------------------------- adding a sub pool twice

  /** What the accounts of sub pool `id` answer for besides its buckets. */
  function Overwritten(c: Chain, id: nat): nat
    requires CanSnapshot(c, id)
  {
    AccountFunds(c.subPools[id]) + c.ledgers[SideKey(id, Long)].pendingTotal + c.ledgers[SideKey(id, Short)].pendingTotal
  }

  lemma AddedTotals(c: Chain, id: nat, price: nat, slot: nat)
    ensures AccountTotals(AddPool(c, id, price, slot)) == AccountTotals(c)[id := 0]
    ensures LedgerPendings(AddPool(c, id, price, slot)) == LedgerPendings(c)[SideKey(id, Long) := 0][SideKey(id, Short) := 0]
    ensures BucketTotals(AddPool(c, id, price, slot)) == BucketTotals(c)
  {
  }

  /**
    Adding a sub pool under an id that is in use overwrites its accounts: the vault no longer
    decomposes, by exactly the equities, dust and in-flight distributions that were overwritten. So
    the runtime stays coherent only if there were none.
  */
  lemma ReaddingLosesFunds(c: Chain, id: nat, price: nat, slot: nat)
    requires Coherent(c) && CanSnapshot(c, id)
    ensures AddPool(c, id, price, slot).vault == Decomposition(AddPool(c, id, price, slot)) + Overwritten(c, id)
    ensures Overwritten(c, id) > 0 ==> !Coherent(AddPool(c, id, price, slot))
  {
    hide Coherent, AccountTotals, LedgerPendings, BucketTotals, Sum, EmptyLedger, AccountOf;
    var c' := AddPool(c, id, price, slot);
    VaultDecomposition(c);
    AddedTotals(c, id, price, slot);
    SumUpdate(AccountTotals(c), id, 0);
    SumUpdate(LedgerPendings(c), SideKey(id, Long), 0);
    SumUpdate(LedgerPendings(c)[SideKey(id, Long) := 0], SideKey(id, Short), 0);
    TotalsAt(c, id);
    if Coherent(c') {
      VaultDecomposition(c');
    }
  }

  lemma TotalsAt(c: Chain, id: nat)
    requires CanSnapshot(c, id)
    ensures id in AccountTotals(c) && AccountTotals(c)[id] == AccountFunds(c.subPools[id])
    ensures forall d: Direction :: SideKey(id, d) in LedgerPendings(c)
    ensures forall d: Direction :: LedgerPendings(c)[SideKey(id, d)] == c.ledgers[SideKey(id, d)].pendingTotal
  {
    forall d: Direction
      ensures SideKey(id, d) in c.ledgers
    {
      assert d.Long? || d.Short?;
    }
  }
}
