/**
  The position operations as a whole: they keep the population, no run-time check of theirs can
  fail, and they pay out exactly what leaves the sub pool.
*/
module EngineOperations {
  import opened Wrappers
  import opened MoleMath
  import opened Clearing
  import opened Sums
  import opened Dormant
  import opened DormantInvariant
  import DormantRefinement
  import opened Engine
  import opened Holdings
  import StoreShares
  import opened EngineInvariant
  import opened EngineSync
  import opened EnginePositions

  /** `r` fails because `s` does. */
  predicate FailsAs<T, S>(r: ClearingResult<T>, s: ClearingResult<S>) {
    r.Err? && s.Err? && r.error == s.error
  }

  /** No run-time check failed, unless the market has no tick size. */
  predicate ChecksHold<T>(m: Market, r: ClearingResult<T>) {
    !Benign(r) ==> r == Err(Invariant(NoTickSize)) && !TickConfigured(m)
  }

  // ---------------------------------------------------------------- open

  /** A mint splits the principal into credit and dust. */
  lemma MintIs(m: Market, p: Pool, principal: nat)
    requires ZeroIff(p)
    ensures
      var r := MintShares(m, p, principal);
      && Benign(r)
      && (r.Ok? ==>
            var mint := r.value;
            && mint.principal + mint.dust == principal
            && (p.equity == 0 ==> mint.shares == principal && mint.principal == principal)
            && (p.equity > 0 ==>
                  && 0 < p.shares
                  && mint.shares == FloorDiv(principal, p.shares, p.equity) > 0
                  && mint.principal == FloorDiv(mint.shares, p.equity, p.shares)))
  {
    hide FloorDiv;
  }

  lemma AddSharesIs(p: Pool, d: Direction, mint: Mint, notional: nat, hs: map<nat, Holding>, id: nat)
    requires PoolOk(p, d) && PoolBacked(p, hs)
    requires id !in hs || hs[id] == NOTHING
    requires p.equity == 0 ==> mint.shares == mint.principal
    requires p.equity > 0 ==> mint.shares > 0
    requires mint.shares == 0 ==> notional == 0
    ensures
      var r := AddShares(p, mint, notional);
      && Benign(r)
      && (r.Ok? ==>
            && r.value == p.(equity := p.equity + mint.principal, shares := p.shares + mint.shares,
                             notional := p.notional + notional, dust := p.dust + mint.dust)
            && mint.shares < U128
            && PoolOk(r.value, d)
            && PoolBacked(r.value, hs[id := Holding(mint.shares, notional, 0, 0)]))
  {
    hide PoolOk, Backed, StoreShares.SharesOf;
    PoolParts(p, d);
    Minted(p.shares, p.notional, StoreShares.SharesOf(p.store), hs, id, mint.shares, notional);
    var r := AddShares(p, mint, notional);
    if r.Ok? {
      PoolGrows(p, r.value, d);
    }
  }

  lemma PoolGrows(p: Pool, p': Pool, d: Direction)
    requires PoolOk(p, d)
    requires p' == p.(equity := p'.equity, shares := p'.shares, notional := p'.notional, dust := p'.dust)
    requires p'.equity < U128 && p'.shares < U128 && p'.notional < U128 && p'.dust < U128
    requires ZeroIff(p')
    ensures PoolOk(p', d)
  {
    hide Inv, LogOk, Sum, BucketShares;
  }

  /** The steps of an open. */
  lemma OpenUnfolds(m: Market, sp: SubPool, env: Envelope, d: Direction, gross: u64, id: nat)
    ensures
      var r := OpenPosition(m, sp, env, d, gross, id);
      var synced := SyncPool(m, sp, env);
      && (r.Err? ==>
            || Benign(r) || FailsAs(r, synced) || FailsAs(r, Principal(m, gross))
            || (synced.Ok? && Principal(m, gross).Ok? &&
                  var p := synced.value.0.Side(d);
                  var mint := MintShares(m, p, Principal(m, gross).value.1);
                  || FailsAs(r, mint)
                  || (mint.Ok? &&
                        var notional := MulDivFloor(Principal(m, gross).value.1, m.leverageBps, BPS_SCALE);
                        notional.Ok? &&
                          var p' := AddShares(p, mint.value, notional.value);
                          || FailsAs(r, p')
                          || (p'.Ok? && FailsAs(r, CheckSubPool(synced.value.0.With(d, p'.value)))))))
      && (r.Ok? ==>
            && synced.Ok? && Principal(m, gross).Ok?
            && var (sp', pos, out) := r.value;
            && var (fee, principal) := Principal(m, gross).value;
            && var p := synced.value.0.Side(d);
            && MintShares(m, p, principal) == Ok(out.mint)
            && MulDivFloor(principal, m.leverageBps, BPS_SCALE) == Ok(out.notional)
            && AddShares(p, out.mint, out.notional).Ok?
            && sp' == synced.value.0.With(d, AddShares(p, out.mint, out.notional).value)
            && CheckSubPool(sp').Ok?
            && m.schemaVersion == SCHEMA_VERSION_CURRENT
            && out.fee == fee
            && pos == Position(id, d, Open, principal, out.notional, out.mint.shares, 0, None, 0,
                               AddShares(p, out.mint, out.notional).value.generation, m.schemaVersion)
            && out.events == synced.value.1.events
                 + [PositionOpened(sp.id, id, d, principal, out.notional, out.mint.shares, pos.generation)])
  {
    hide SyncPool, Principal, MintShares, MulDivFloor, AddShares, CheckSubPool;
  }

  /** An opened position: what it cost and what it was given. */
  ghost predicate OpenedIn(m: Market, sp1: SubPool, sp': SubPool, d: Direction, gross: u64, pos: Position, out: OpenOutcome) {
    var p, p' := sp1.Side(d), sp'.Side(d);
    && sp' == sp1.With(d, p')
    && p' == p.(equity := p.equity + out.mint.principal, shares := p.shares + out.mint.shares,
                notional := p.notional + out.notional, dust := p.dust + out.mint.dust)
    && out.mint.principal + out.mint.dust == pos.principal
    && pos.principal + out.fee == gross
    && pos == Position(pos.id, d, Open, pos.principal, out.notional, out.mint.shares, 0, None, 0,
                       p.generation, m.schemaVersion)
  }

  lemma PrincipalIs(m: Market, gross: u64)
    ensures
      var r := Principal(m, gross);
      && Benign(r)
      && (r.Ok? ==> r.value.0 + r.value.1 == gross)
  {
    hide CeilDiv;
  }

  lemma NoPrincipalNoNotional(m: Market, principal: nat, notional: nat)
    requires MulDivFloor(principal, m.leverageBps, BPS_SCALE) == Ok(notional) && principal == 0
    ensures notional == 0
  {
    ZeroProduct(0, m.leverageBps, BPS_SCALE);
  }

  lemma OpenFields(p: Pool, pos: Position)
    requires LogOk(p.log, p.generation) && pos.generation == p.generation && pos.recovery == 0 && pos.tick.None?
    ensures HoldingOf(p, pos) == Holding(pos.active, pos.notional, 0, 0)
  {
  }

  /** Opening after the sync. */
  lemma OpenAfterSync(
    m: Market, sp: SubPool, d: Direction, gross: u64, id: nat, ps: map<nat, Position>, mint: Mint, notional: nat)
    requires WorldOk(sp, ps) && id !in ps
    requires Principal(m, gross).Ok? && MintShares(m, sp.Side(d), Principal(m, gross).value.1) == Ok(mint)
    requires MulDivFloor(Principal(m, gross).value.1, m.leverageBps, BPS_SCALE) == Ok(notional)
    ensures
      var r := AddShares(sp.Side(d), mint, notional);
      var principal := Principal(m, gross).value.1;
      && Benign(r)
      && (r.Ok? ==>
            var pos := Position(id, d, Open, principal, notional, mint.shares, 0, None, 0, r.value.generation, m.schemaVersion);
            && WorldOk(sp.With(d, r.value), ps[id := pos])
            && r.value == sp.Side(d).(equity := sp.Side(d).equity + mint.principal, shares := sp.Side(d).shares + mint.shares,
                                      notional := sp.Side(d).notional + notional, dust := sp.Side(d).dust + mint.dust)
            && mint.principal + mint.dust == principal
            && PoolOk(sp.With(d, r.value).long, Long) && PoolOk(sp.With(d, r.value).short, Short))
  {
    hide WorldOk, PoolOk, PoolBacked, HoldingsOf, Principal, MintShares, MulDivFloor, AddShares, PositionsOk, HoldingOf;
    var p := sp.Side(d);
    SidesCore(sp, ps);
    SideParts(p, d, ps);
    SideParts(sp.Side(d.Opposite()), d.Opposite(), ps);
    PoolParts(p, d);
    MintIs(m, p, Principal(m, gross).value.1);
    if mint.shares == 0 {
      NoPrincipalNoNotional(m, Principal(m, gross).value.1, notional);
    }
    assert id !in HoldingsOf(p, d, ps) by {
      FreshHolding(p, d, ps, id);
    }
    AddSharesIs(p, d, mint, notional, HoldingsOf(p, d, ps), id);
    var r := AddShares(p, mint, notional);
    if r.Ok? {
      var pos := Position(id, d, Open, Principal(m, gross).value.1, notional, mint.shares, 0, None, 0, p.generation, m.schemaVersion);
      OpenFields(p, pos);
      WorldAfter(sp, sp.With(d, r.value), ps, d, id, pos);
    }
  }

  lemma FreshHolding(p: Pool, d: Direction, ps: map<nat, Position>, id: nat)
    requires id !in ps
    ensures id !in HoldingsOf(p, d, ps)
  {
  }

  lemma SideParts(p: Pool, d: Direction, ps: map<nat, Position>)
    requires SideOk(p, d, ps)
    ensures PoolOk(p, d) && PoolBacked(p, HoldingsOf(p, d, ps))
  {
    hide PoolOk, PoolBacked, HoldingsOf;
  }

  lemma OpenChecks(m: Market, sp: SubPool, env: Envelope, d: Direction, gross: u64, id: nat, ps: map<nat, Position>)
    requires WorldOk(sp, ps) && id !in ps
    ensures ChecksHold(m, OpenPosition(m, sp, env, d, gross, id))
  {
    hide WorldOk, SyncPool, OpenPosition, Principal, MintShares, MulDivFloor, AddShares, CheckSubPool, Synced, PoolOk;
    SyncKeepsWorld(m, sp, env, ps);
    OpenUnfolds(m, sp, env, d, gross, id);
    PrincipalIs(m, gross);
    var synced := SyncPool(m, sp, env);
    if synced.Ok? && Principal(m, gross).Ok? {
      var sp1, principal := synced.value.0, Principal(m, gross).value.1;
      SidesCore(sp1, ps);
      MintIs(m, sp1.Side(d), principal);
      var mint, notional := MintShares(m, sp1.Side(d), principal), MulDivFloor(principal, m.leverageBps, BPS_SCALE);
      if mint.Ok? && notional.Ok? {
        OpenAfterSync(m, sp1, d, gross, id, ps, mint.value, notional.value);
        if AddShares(sp1.Side(d), mint.value, notional.value).Ok? {
          ChecksPass(sp1.With(d, AddShares(sp1.Side(d), mint.value, notional.value).value));
        }
      }
    }
  }

  lemma OpenedFunds(m: Market, sp1: SubPool, sp': SubPool, d: Direction, gross: u64, pos: Position, out: OpenOutcome)
    requires OpenedIn(m, sp1, sp', d, gross, pos, out)
    ensures Funds(sp') == Funds(sp1) + pos.principal
  {
    hide Value;
  }

  /** An open keeps the population; what the sub pool gains is the principal, the rest of the payment is the fee. */
  lemma OpenKeepsWorld(m: Market, sp: SubPool, env: Envelope, d: Direction, gross: u64, id: nat, ps: map<nat, Position>)
    requires WorldOk(sp, ps) && id !in ps && OpenPosition(m, sp, env, d, gross, id).Ok?
    ensures
      var (sp', pos, out) := OpenPosition(m, sp, env, d, gross, id).value;
      && WorldOk(sp', ps[id := pos])
      && SyncPool(m, sp, env).Ok?
      && OpenedIn(m, SyncPool(m, sp, env).value.0, sp', d, gross, pos, out)
      && pos.id == id
      && Funds(sp') == Funds(sp) + pos.principal
  {
    hide WorldOk, SyncPool, OpenPosition, Principal, MintShares, MulDivFloor, AddShares, Synced, PoolOk, Funds;
    SyncKeepsWorld(m, sp, env, ps);
    OpenUnfolds(m, sp, env, d, gross, id);
    PrincipalIs(m, gross);
    SyncConserves(m, sp, env, ps);
    var sp1 := SyncPool(m, sp, env).value.0;
    var (sp', pos, out) := OpenPosition(m, sp, env, d, gross, id).value;
    OpenAfterSync(m, sp1, d, gross, id, ps, out.mint, out.notional);
    OpenedFunds(m, sp1, sp', d, gross, pos, out);
  }

  // ---------------------------------------------------------------- close

  /** What leaves a pool when migrated position `pos` is closed. */
  ghost predicate PaidOff(p: Pool, p': Pool, pos: Position, value: nat, receipt: RedeemReceipt) {
    if pos.active > 0 then
      && 0 < p.shares && value == FloorDiv(p.equity, pos.active, p.shares) <= p.equity
      && pos.active <= p.shares && pos.notional <= p.notional
      && p' == p.(equity := p.equity - value, shares := p.shares - pos.active, notional := p.notional - pos.notional)
      && receipt == RedeemReceipt(0, 0, 0)
    else if pos.recovery > 0 then
      value == 0 && pos.tick.Some? && RedeemedFrom(p, p', pos.tick.value, pos.recovery, receipt)
    else p' == p && value == 0 && receipt == RedeemReceipt(0, 0, 0)
  }

  /** What cashing out does to the store: its recovery shares are redeemed, nothing else. */
  ghost predicate StoreLeft(p: Pool, p': Pool, pos: Position, receipt: RedeemReceipt) {
    && p'.log == p.log && p'.generation == p.generation
    && (if pos.recovery > 0 then
          && pos.tick.Some? && receipt.burnedShares == pos.recovery
          && IdealRedeem(View(p.store), pos.tick.value, pos.recovery) == Ok((View(p'.store), receipt))
        else p'.store == p.store && receipt == RedeemReceipt(0, 0, 0))
  }

  lemma PaidOffStore(p: Pool, p': Pool, pos: Position, value: nat, receipt: RedeemReceipt)
    requires PaidOff(p, p', pos, value, receipt) && (pos.active > 0 ==> pos.recovery == 0)
    ensures StoreLeft(p, p', pos, receipt)
  {
    hide IdealRedeem, View, FloorDiv;
  }

  lemma NothingToRedeem(p: Pool, pos: Position)
    requires pos.recovery == 0
    ensures RedeemRecovery(p, pos) == Ok((p, pos, RedeemReceipt(0, 0, 0)))
  {
  }

  lemma NothingActiveToClose(p: Pool, pos: Position)
    requires pos.active == 0
    ensures CloseActive(p, pos) == Ok((p, pos, 0))
    ensures BurnWorthless(p, pos) == Ok((p, pos))
  {
  }

  lemma EmptyHolding(hs: map<nat, Holding>, pos: Position)
    requires Holds(hs, pos) && pos.active == 0 && pos.recovery == 0 && pos.notional == 0 && pos.tick.None?
    ensures hs[pos.id := NOTHING] == hs
  {
  }

  /** Cashing out a position, active or resting: the pool stays consistent and backed by the others. */
  lemma CashOut(p: Pool, d: Direction, pos: Position, hs: map<nat, Holding>)
    requires PoolOk(p, d) && PoolBacked(p, hs) && Holds(hs, pos) && PosOk(p.generation, pos)
    ensures CloseActive(p, pos).Ok?
    ensures
      var a := CloseActive(p, pos).value;
      var r := RedeemRecovery(a.0, a.1);
      && (r.Err? ==> r.error == MathOverflow)
      && (r.Ok? ==>
            && PoolOk(r.value.0, d) && PoolBacked(r.value.0, hs[pos.id := NOTHING])
            && PaidOff(p, r.value.0, pos, a.2, r.value.2)
            && r.value.1 == pos.(active := 0, recovery := 0, tick := None))
  {
    hide PoolOk, Backed, RedeemedFrom, CloseActive, RedeemRecovery, FloorDiv, StoreShares.SharesOf;
    if pos.active > 0 {
      CloseActiveIs(p, d, pos, hs);
      NothingToRedeem(CloseActive(p, pos).value.0, CloseActive(p, pos).value.1);
    } else {
      NothingActiveToClose(p, pos);
      if pos.recovery > 0 {
        RedeemRecoveryIs(p, d, pos, hs);
      } else {
        NothingToRedeem(p, pos);
        EmptyHolding(hs, pos);
      }
    }
  }

  lemma PaidOffFunds(p: Pool, p': Pool, pos: Position, value: nat, receipt: RedeemReceipt)
    requires PaidOff(p, p', pos, value, receipt)
    ensures SideFunds(p') + value + receipt.redeemable == SideFunds(p)
    ensures p'.log == p.log && p'.generation == p.generation
  {
    hide Value, FloorDiv, IdealRedeem, View;
  }

  /** The position `id` as it holds its part of the pool, once migrated. */
  lemma MigratedHolds(sp: SubPool, ps: map<nat, Position>, id: nat)
    requires WorldOk(sp, ps) && id in ps
    ensures
      var pos := ps[id];
      var p := sp.Side(pos.direction);
      && LazyMigrate(p, pos).Ok?
      && var pos1 := LazyMigrate(p, pos).value;
      && pos.id == id && pos1.id == id && pos1.direction == pos.direction && pos1.schemaVersion == pos.schemaVersion
      && pos1.principal == pos.principal && pos1.generation == p.generation
      && PosOk(p.generation, pos1)
      && PoolOk(p, pos.direction) && PoolBacked(p, HoldingsOf(p, pos.direction, ps))
      && Holds(HoldingsOf(p, pos.direction, ps), pos1)
      && (pos1.status.Closed? ==> pos.status.Closed?)
      && (pos.status.Closed? ==> pos1.active == 0 && pos1.recovery == 0)
  {
    var pos := ps[id];
    var p := sp.Side(pos.direction);
    SidesCore(sp, ps);
    SideParts(p, pos.direction, ps);
    PoolParts(p, pos.direction);
    LazyMigrateIs(p, pos);
    hide PoolOk, PoolBacked, WorldOk, SideOk;
    assert HoldingsOf(p, pos.direction, ps)[id] == HoldingOf(p, pos);
  }

  /** A position that holds nothing any more. */
  lemma GoneFields(p: Pool, pos: Position)
    requires pos.active == 0 && pos.recovery == 0 && pos.notional == 0 && pos.tick.None?
    ensures HoldingOf(p, pos) == NOTHING
  {
  }

  /** Replacing one position by an emptied one. */
  lemma WorldEmptied(sp: SubPool, p': Pool, ps: map<nat, Position>, id: nat, pos': Position)
    requires WorldOk(sp, ps) && id in ps
    requires pos'.id == id && pos'.direction == ps[id].direction
    requires pos'.active == 0 && pos'.recovery == 0 && pos'.notional == 0 && pos'.tick.None?
    requires pos'.generation == sp.Side(pos'.direction).generation
    requires p'.log == sp.Side(pos'.direction).log && p'.generation == sp.Side(pos'.direction).generation
    requires PoolOk(p', pos'.direction)
    requires PoolBacked(p', HoldingsOf(sp.Side(pos'.direction), pos'.direction, ps)[id := NOTHING])
    ensures WorldOk(sp.With(pos'.direction, p'), ps[id := pos'])
    ensures Benign(CheckSubPool(sp.With(pos'.direction, p')))
  {
    hide WorldOk, PoolOk, PoolBacked, HoldingsOf, HoldingOf, CheckSubPool;
    GoneFields(sp.Side(pos'.direction), pos');
    WorldAfter(sp, sp.With(pos'.direction, p'), ps, pos'.direction, id, pos');
    WorldChecks(sp.With(pos'.direction, p'), ps[id := pos']);
  }

  /** The steps of a close. */
  lemma CloseUnfolds(m: Market, sp: SubPool, env: Envelope, pos: Position)
    ensures
      var r := ClosePosition(m, sp, env, pos);
      var d := pos.direction;
      var synced := SyncPool(m, sp, env);
      && (synced.Ok? ==>
            var migrated := LazyMigrate(synced.value.0.Side(d), pos);
            migrated.Ok? ==>
              var a := CloseActive(synced.value.0.Side(d), migrated.value);
              a.Ok? ==>
                var cashed := RedeemRecovery(a.value.0, a.value.1);
                && (r.Err? ==>
                      || Benign(r) || FailsAs(r, cashed)
                      || (cashed.Ok? && FailsAs(r, CheckSubPool(synced.value.0.With(d, cashed.value.0)))))
                && (r.Ok? ==>
                      && cashed.Ok?
                      && r.value.0 == synced.value.0.With(d, cashed.value.0)
                      && r.value.1 == cashed.value.1.(notional := 0, status := Closed)
                      && r.value.2.activeValue == a.value.2
                      && r.value.2.recoveryValue == cashed.value.2.redeemable
                      && r.value.2.withdrawable == a.value.2 + cashed.value.2.redeemable
                      && r.value.2.withdrawable > 0
                      && r.value.2.events == synced.value.1.events
                           + [PositionClosed(sp.id, pos.id, d, migrated.value.active, cashed.value.2.burnedShares,
                                             cashed.value.2.burnedNotional, a.value.2, cashed.value.2.redeemable)]))
      && (synced.Err? && r.Err? ==> Benign(r) || FailsAs(r, synced))
      && (r.Ok? ==> synced.Ok? && !pos.status.Closed?)
  {
    hide SyncPool, LazyMigrate, CloseActive, RedeemRecovery, CheckSubPool;
  }

  /** What a close did, after its sync. */
  ghost predicate ClosedIn(sp1: SubPool, sp': SubPool, pos: Position, pos': Position, out: CloseOutcome) {
    var d := pos.direction;
    && LazyMigrate(sp1.Side(d), pos).Ok?
    && var pos1 := LazyMigrate(sp1.Side(d), pos).value;
    && sp' == sp1.With(d, sp'.Side(d))
    && pos' == pos1.(active := 0, recovery := 0, tick := None, notional := 0, status := Closed)
    && (exists receipt :: PaidOff(sp1.Side(d), sp'.Side(d), pos1, out.activeValue, receipt)
                          && receipt.redeemable == out.recoveryValue)
    && out.withdrawable == out.activeValue + out.recoveryValue
  }

  /** After a successful sync, cashing out a position keeps the population. */
  lemma CashOutKeepsWorld(sp: SubPool, ps: map<nat, Position>, id: nat)
    requires WorldOk(sp, ps) && id in ps
    ensures
      var d := ps[id].direction;
      && LazyMigrate(sp.Side(d), ps[id]).Ok?
      && var pos1 := LazyMigrate(sp.Side(d), ps[id]).value;
      && CloseActive(sp.Side(d), pos1).Ok?
      && var a := CloseActive(sp.Side(d), pos1).value;
      && var r := RedeemRecovery(a.0, a.1);
      && Benign(r)
      && (r.Ok? ==>
            var sp' := sp.With(d, r.value.0);
            var pos' := r.value.1.(notional := 0, status := Closed);
            && WorldOk(sp', ps[id := pos']) && Benign(CheckSubPool(sp'))
            && PaidOff(sp.Side(d), r.value.0, pos1, a.2, r.value.2)
            && r.value.1 == pos1.(active := 0, recovery := 0, tick := None))
  {
    hide WorldOk, PoolOk, PoolBacked, HoldingsOf, LazyMigrate, CloseActive, RedeemRecovery, CheckSubPool, PaidOff,
      Holds;
    MigratedHolds(sp, ps, id);
    var d := ps[id].direction;
    var p := sp.Side(d);
    var pos1 := LazyMigrate(p, ps[id]).value;
    CashOut(p, d, pos1, HoldingsOf(p, d, ps));
    var a := CloseActive(p, pos1).value;
    var r := RedeemRecovery(a.0, a.1);
    if r.Ok? {
      PaidOffFunds(p, r.value.0, pos1, a.2, r.value.2);
      WorldEmptied(sp, r.value.0, ps, id, r.value.1.(notional := 0, status := Closed));
    }
  }

  lemma CloseChecks(m: Market, sp: SubPool, env: Envelope, ps: map<nat, Position>, id: nat)
    requires WorldOk(sp, ps) && id in ps
    ensures ChecksHold(m, ClosePosition(m, sp, env, ps[id]))
  {
    hide WorldOk, SyncPool, ClosePosition, LazyMigrate, CloseActive, RedeemRecovery, CheckSubPool, Synced, PaidOff;
    SyncKeepsWorld(m, sp, env, ps);
    CloseUnfolds(m, sp, env, ps[id]);
    if SyncPool(m, sp, env).Ok? {
      CashOutKeepsWorld(SyncPool(m, sp, env).value.0, ps, id);
    }
  }

  /** A close keeps the population and pays exactly what the sub pool loses. */
  lemma CloseKeepsWorld(m: Market, sp: SubPool, env: Envelope, ps: map<nat, Position>, id: nat)
    requires WorldOk(sp, ps) && id in ps && ClosePosition(m, sp, env, ps[id]).Ok?
    ensures
      var (sp', pos', out) := ClosePosition(m, sp, env, ps[id]).value;
      && WorldOk(sp', ps[id := pos'])
      && SyncPool(m, sp, env).Ok?
      && ClosedIn(SyncPool(m, sp, env).value.0, sp', ps[id], pos', out)
      && 0 < out.withdrawable <= Funds(sp)
      && Funds(sp') == Funds(sp) - out.withdrawable
  {
    hide WorldOk, SyncPool, ClosePosition, LazyMigrate, CloseActive, RedeemRecovery, CheckSubPool, Synced, PaidOff,
      SideFunds;
    SyncKeepsWorld(m, sp, env, ps);
    CloseUnfolds(m, sp, env, ps[id]);
    SyncConserves(m, sp, env, ps);
    var sp1, d := SyncPool(m, sp, env).value.0, ps[id].direction;
    CashOutKeepsWorld(sp1, ps, id);
    var pos1 := LazyMigrate(sp1.Side(d), ps[id]).value;
    var a := CloseActive(sp1.Side(d), pos1).value;
    var r := RedeemRecovery(a.0, a.1).value;
    PaidOffFunds(sp1.Side(d), r.0, pos1, a.2, r.2);
  }

  // ---------------------------------------------------------------- force close

  /** The pool after a forfeit: worthless shares are gone, forfeited recovery is dust. */
  ghost function Forfeited(p: Pool, amount: nat): Pool {
    p.(dust := p.dust + amount)
  }

  /** The steps of a forced close. */
  lemma ForceCloseUnfolds(m: Market, sp: SubPool, env: Envelope, pos: Position, ack: bool)
    ensures
      var r := ForceClose(m, sp, env, pos, ack);
      var d := pos.direction;
      var synced := SyncPool(m, sp, env);
      && (synced.Ok? ==>
            var migrated := LazyMigrate(synced.value.0.Side(d), pos);
            migrated.Ok? ==>
              var a := BurnWorthless(synced.value.0.Side(d), migrated.value);
              && (a.Err? && r.Err? ==> Benign(r) || FailsAs(r, a))
              && (a.Ok? ==>
                    var cashed := RedeemRecovery(a.value.0, a.value.1);
                    && (r.Err? ==>
                          || Benign(r) || FailsAs(r, cashed)
                          || (cashed.Ok?
                              && (cashed.value.2.redeemable > 0 ==> cashed.value.0.dust + cashed.value.2.redeemable < U128)
                              && FailsAs(r, CheckSubPool(synced.value.0.With(d, Forfeited(cashed.value.0, cashed.value.2.redeemable))))))
                    && (r.Ok? ==>
                          && cashed.Ok?
                          && (cashed.value.2.redeemable > 0 ==> cashed.value.0.dust + cashed.value.2.redeemable < U128)
                          && r.value.0 == synced.value.0.With(d, Forfeited(cashed.value.0, cashed.value.2.redeemable))
                          && r.value.1 == cashed.value.1.(notional := 0, status := Closed)
                          && r.value.2.forfeited == cashed.value.2.redeemable
                          && r.value.2.activeBurned == migrated.value.active
                          && r.value.2.events == synced.value.1.events
                               + [PositionForceClosed(sp.id, pos.id, d, migrated.value.active, cashed.value.2.burnedShares,
                                                      cashed.value.2.burnedNotional, cashed.value.2.redeemable)]))
              && (r.Ok? ==> a.Ok?))
      && (synced.Err? && r.Err? ==> Benign(r) || FailsAs(r, synced))
      && (r.Ok? ==> synced.Ok? && !pos.status.Closed? && ack)
  {
    hide SyncPool, LazyMigrate, BurnWorthless, RedeemRecovery, CheckSubPool;
  }

  /** Active shares of a migrated position that are worth something. */
  predicate HasValue(p: Pool, pos: Position) {
    pos.active > 0 && p.shares > 0 && FloorDiv(p.equity, pos.active, p.shares) > 0
  }

  /** A position without active value gives up its shares; its recovery value stays behind as dust. */
  lemma BurnOut(p: Pool, d: Direction, pos: Position, hs: map<nat, Holding>)
    requires PoolOk(p, d) && PoolBacked(p, hs) && Holds(hs, pos) && PosOk(p.generation, pos)
    ensures HasValue(p, pos) ==> BurnWorthless(p, pos) == Err(Invariant(ForceClosePositive))
    ensures !HasValue(p, pos) ==>
      && BurnWorthless(p, pos).Ok?
      && var a := BurnWorthless(p, pos).value;
      && var r := RedeemRecovery(a.0, a.1);
      && (r.Err? ==> r.error == MathOverflow)
      && (r.Ok? ==>
            && PoolOk(r.value.0, d) && PoolBacked(r.value.0, hs[pos.id := NOTHING])
            && r.value.1 == pos.(active := 0, recovery := 0, tick := None)
            && r.value.0.log == p.log && r.value.0.generation == p.generation
            && StoreLeft(p, r.value.0, pos, r.value.2)
            && SideFunds(r.value.0) + r.value.2.redeemable == SideFunds(p))
  {
    hide PoolOk, Backed, BurnWorthless, RedeemRecovery, FloorDiv, StoreShares.SharesOf, View, IdealRedeem, Value;
    if pos.active > 0 {
      BurnWorthlessIs(p, d, pos, hs);
      if !HasValue(p, pos) {
        NothingToRedeem(BurnWorthless(p, pos).value.0, BurnWorthless(p, pos).value.1);
      }
    } else {
      NothingActiveToClose(p, pos);
      if pos.recovery > 0 {
        RedeemRecoveryIs(p, d, pos, hs);
      } else {
        NothingToRedeem(p, pos);
        EmptyHolding(hs, pos);
      }
    }
  }

  lemma ForfeitKeepsPool(p: Pool, d: Direction, amount: nat, hs: map<nat, Holding>)
    requires PoolOk(p, d) && PoolBacked(p, hs) && (amount > 0 ==> p.dust + amount < U128)
    ensures PoolOk(Forfeited(p, amount), d) && PoolBacked(Forfeited(p, amount), hs)
  {
    hide Inv, LogOk, Backed, Sum, BucketShares;
  }

  lemma BurnOutKeepsWorld(sp: SubPool, ps: map<nat, Position>, id: nat)
    requires WorldOk(sp, ps) && id in ps
    ensures
      var d := ps[id].direction;
      && LazyMigrate(sp.Side(d), ps[id]).Ok?
      && var pos1 := LazyMigrate(sp.Side(d), ps[id]).value;
      && var a := BurnWorthless(sp.Side(d), pos1);
      && (HasValue(sp.Side(d), pos1) ==> a == Err(Invariant(ForceClosePositive)))
      && (!HasValue(sp.Side(d), pos1) ==>
            && a.Ok?
            && var r := RedeemRecovery(a.value.0, a.value.1);
            && Benign(r)
            && (r.Ok? ==>
                  var amount := r.value.2.redeemable;
                  var sp' := sp.With(d, Forfeited(r.value.0, amount));
                  var pos' := r.value.1.(notional := 0, status := Closed);
                  && r.value.1 == pos1.(active := 0, recovery := 0, tick := None)
                  && StoreLeft(sp.Side(d), r.value.0, pos1, r.value.2)
                  && Funds(sp') == Funds(sp)
                  && ((amount > 0 ==> r.value.0.dust + amount < U128) ==>
                        WorldOk(sp', ps[id := pos']) && Benign(CheckSubPool(sp')))))
  {
    hide WorldOk, PoolOk, PoolBacked, HoldingsOf, LazyMigrate, BurnWorthless, RedeemRecovery, CheckSubPool, Holds,
      HasValue, Value, StoreLeft;
    MigratedHolds(sp, ps, id);
    var d := ps[id].direction;
    var p := sp.Side(d);
    var pos1 := LazyMigrate(p, ps[id]).value;
    BurnOut(p, d, pos1, HoldingsOf(p, d, ps));
    if !HasValue(p, pos1) {
      var a := BurnWorthless(p, pos1).value;
      var r := RedeemRecovery(a.0, a.1);
      if r.Ok? {
        var amount := r.value.2.redeemable;
        if amount > 0 ==> r.value.0.dust + amount < U128 {
          ForfeitKeepsPool(r.value.0, d, amount, HoldingsOf(p, d, ps)[id := NOTHING]);
          WorldEmptied(sp, Forfeited(r.value.0, amount), ps, id, r.value.1.(notional := 0, status := Closed));
        }
      }
    }
  }

  /** A forced close fails a check only when the position still has active value. */
  lemma ForceCloseChecks(m: Market, sp: SubPool, env: Envelope, ps: map<nat, Position>, id: nat, ack: bool)
    requires WorldOk(sp, ps) && id in ps
    ensures
      var r := ForceClose(m, sp, env, ps[id], ack);
      || ChecksHold(m, r)
      || (r == Err(Invariant(ForceClosePositive))
          && SyncPool(m, sp, env).Ok?
          && var p := SyncPool(m, sp, env).value.0.Side(ps[id].direction);
          && LazyMigrate(p, ps[id]).Ok? && HasValue(p, LazyMigrate(p, ps[id]).value))
  {
    hide WorldOk, SyncPool, ForceClose, LazyMigrate, BurnWorthless, RedeemRecovery, CheckSubPool, Synced, HasValue,
      Funds;
    SyncKeepsWorld(m, sp, env, ps);
    ForceCloseUnfolds(m, sp, env, ps[id], ack);
    if SyncPool(m, sp, env).Ok? {
      BurnOutKeepsWorld(SyncPool(m, sp, env).value.0, ps, id);
    }
  }

  /** A forced close keeps the population and every unit in the sub pool. */
  lemma ForceCloseKeepsWorld(m: Market, sp: SubPool, env: Envelope, ps: map<nat, Position>, id: nat, ack: bool)
    requires WorldOk(sp, ps) && id in ps && ForceClose(m, sp, env, ps[id], ack).Ok?
    ensures
      var (sp', pos', out) := ForceClose(m, sp, env, ps[id], ack).value;
      && WorldOk(sp', ps[id := pos'])
      && SyncPool(m, sp, env).Ok?
      && Funds(sp') == Funds(sp)
      && pos'.status.Closed? && pos'.active == 0 && pos'.recovery == 0
  {
    hide WorldOk, SyncPool, ForceClose, LazyMigrate, BurnWorthless, RedeemRecovery, CheckSubPool, Synced, HasValue,
      Funds;
    SyncKeepsWorld(m, sp, env, ps);
    ForceCloseUnfolds(m, sp, env, ps[id], ack);
    SyncConserves(m, sp, env, ps);
    BurnOutKeepsWorld(SyncPool(m, sp, env).value.0, ps, id);
  }

  // ---------------------------------------------------------------- claim

  lemma ClaimUnfolds(m: Market, sp: SubPool, env: Envelope, pos: Position)
    ensures
      var r := ClaimRecovery(m, sp, env, pos);
      var d := pos.direction;
      var synced := SyncPool(m, sp, env);
      && (synced.Ok? ==>
            var migrated := LazyMigrate(synced.value.0.Side(d), pos);
            migrated.Ok? ==>
              var cashed := RedeemRecovery(synced.value.0.Side(d), migrated.value);
              && (r.Err? ==>
                    || Benign(r)
                    || (migrated.value.recovery > 0 && FailsAs(r, cashed))
                    || (migrated.value.recovery > 0 && cashed.Ok?
                        && FailsAs(r, CheckSubPool(synced.value.0.With(d, cashed.value.0)))))
              && (r.Ok? ==>
                    && migrated.value.recovery > 0
                    && cashed.Ok?
                    && r.value.0 == synced.value.0.With(d, cashed.value.0)
                    && r.value.1 == cashed.value.1
                    && r.value.2.redeemable == cashed.value.2.redeemable
                    && r.value.2.events == synced.value.1.events
                         + [DormantRecoveryClaimed(
                              sp.id, pos.id, d, if migrated.value.tick.Some? then migrated.value.tick.value else 0,
                              cashed.value.2.burnedShares, cashed.value.2.burnedNotional, cashed.value.2.redeemable)]))
      && (synced.Err? && r.Err? ==> Benign(r) || FailsAs(r, synced))
      && (r.Ok? ==> synced.Ok?)
  {
    hide SyncPool, LazyMigrate, RedeemRecovery, CheckSubPool;
  }

  lemma ClaimKeepsSide(sp: SubPool, ps: map<nat, Position>, id: nat)
    requires WorldOk(sp, ps) && id in ps
    ensures
      var d := ps[id].direction;
      && LazyMigrate(sp.Side(d), ps[id]).Ok?
      && var pos1 := LazyMigrate(sp.Side(d), ps[id]).value;
      && (pos1.recovery > 0 ==>
            && pos1.active == 0 && pos1.notional == 0 && pos1.tick.Some?
            && var r := RedeemRecovery(sp.Side(d), pos1);
            && Benign(r)
            && (r.Ok? ==>
                  var sp' := sp.With(d, r.value.0);
                  && WorldOk(sp', ps[id := r.value.1]) && Benign(CheckSubPool(sp'))
                  && RedeemedFrom(sp.Side(d), r.value.0, pos1.tick.value, pos1.recovery, r.value.2)
                  && r.value.1 == pos1.(recovery := 0, tick := None)))
  {
    hide WorldOk, PoolOk, PoolBacked, HoldingsOf, LazyMigrate, RedeemRecovery, CheckSubPool, Holds, View, IdealRedeem;
    MigratedHolds(sp, ps, id);
    var d := ps[id].direction;
    var p := sp.Side(d);
    var pos1 := LazyMigrate(p, ps[id]).value;
    if pos1.recovery > 0 {
      RedeemRecoveryIs(p, d, pos1, HoldingsOf(p, d, ps));
      var r := RedeemRecovery(p, pos1);
      if r.Ok? {
        WorldEmptied(sp, r.value.0, ps, id, r.value.1);
      }
    }
  }

  lemma ClaimChecks(m: Market, sp: SubPool, env: Envelope, ps: map<nat, Position>, id: nat)
    requires WorldOk(sp, ps) && id in ps
    ensures ChecksHold(m, ClaimRecovery(m, sp, env, ps[id]))
  {
    hide WorldOk, SyncPool, ClaimRecovery, LazyMigrate, RedeemRecovery, CheckSubPool, Synced, RedeemedFrom;
    SyncKeepsWorld(m, sp, env, ps);
    ClaimUnfolds(m, sp, env, ps[id]);
    if SyncPool(m, sp, env).Ok? {
      ClaimKeepsSide(SyncPool(m, sp, env).value.0, ps, id);
    }
  }

  /** What a claim did, after its sync. */
  ghost predicate ClaimedIn(sp1: SubPool, sp': SubPool, pos: Position, pos': Position, out: ClaimOutcome) {
    var d := pos.direction;
    && LazyMigrate(sp1.Side(d), pos).Ok?
    && var pos1 := LazyMigrate(sp1.Side(d), pos).value;
    && sp' == sp1.With(d, sp'.Side(d))
    && pos1.recovery > 0 && pos1.tick.Some?
    && pos' == pos1.(recovery := 0, tick := None)
    && (exists receipt :: RedeemedFrom(sp1.Side(d), sp'.Side(d), pos1.tick.value, pos1.recovery, receipt)
                          && receipt.redeemable == out.redeemable)
  }

  /** A claim keeps the population and pays exactly what the sub pool loses. */
  lemma ClaimKeepsWorld(m: Market, sp: SubPool, env: Envelope, ps: map<nat, Position>, id: nat)
    requires WorldOk(sp, ps) && id in ps && ClaimRecovery(m, sp, env, ps[id]).Ok?
    ensures
      var (sp', pos', out) := ClaimRecovery(m, sp, env, ps[id]).value;
      && WorldOk(sp', ps[id := pos'])
      && SyncPool(m, sp, env).Ok?
      && ClaimedIn(SyncPool(m, sp, env).value.0, sp', ps[id], pos', out)
      && out.redeemable <= Funds(sp)
      && Funds(sp') == Funds(sp) - out.redeemable
  {
    hide WorldOk, SyncPool, ClaimRecovery, LazyMigrate, RedeemRecovery, CheckSubPool, Synced, View, IdealRedeem, Value;
    SyncKeepsWorld(m, sp, env, ps);
    ClaimUnfolds(m, sp, env, ps[id]);
    SyncConserves(m, sp, env, ps);
    ClaimKeepsSide(SyncPool(m, sp, env).value.0, ps, id);
  }

  // ---------------------------------------------------------------- keeper calls

  lemma SharesOnlyMatter(p: Pool, p': Pool, d: Direction, hs: map<nat, Holding>)
    requires PoolOk(p, d) && PoolBacked(p, hs)
    requires p' == p.(store := p'.store, dust := p'.dust) && p'.dust <= p.dust
    requires Inv(p'.store) && p'.store.direction == d && StoreShares.SharesOf(p'.store) == StoreShares.SharesOf(p.store)
    ensures PoolOk(p', d) && PoolBacked(p', hs)
  {
    hide Inv, LogOk, Backed, Sum, BucketShares;
  }

  lemma SideReplaced(sp: SubPool, p': Pool, d: Direction, ps: map<nat, Position>)
    requires WorldOk(sp, ps)
    requires p' == sp.Side(d).(store := p'.store, dust := p'.dust) && p'.dust <= sp.Side(d).dust
    requires Inv(p'.store) && p'.store.direction == d && StoreShares.SharesOf(p'.store) == StoreShares.SharesOf(sp.Side(d).store)
    ensures WorldOk(sp.With(d, p'), ps) && Benign(CheckSubPool(sp.With(d, p')))
  {
    hide WorldOk, PoolOk, PoolBacked, HoldingsOf, SideOk, Inv, StoreShares.SharesOf, CheckSubPool;
    SidesCore(sp, ps);
    SideParts(sp.Side(d), d, ps);
    SharesOnlyMatter(sp.Side(d), p', d, HoldingsOf(sp.Side(d), d, ps));
    SameLogSameHoldings(sp.Side(d), p', d, ps);
    SideFrom(p', d, ps);
    WorldFromSide(sp, p', d, ps);
    WorldChecks(sp.With(d, p'), ps);
  }

  lemma WorldFromSide(sp: SubPool, p': Pool, d: Direction, ps: map<nat, Position>)
    requires WorldOk(sp, ps) && SideOk(p', d, ps) && p'.generation == sp.Side(d).generation
    ensures WorldOk(sp.With(d, p'), ps)
  {
    hide SideOk, PosOk;
  }

  lemma PreSyncUnfolds(m: Market, sp: SubPool, d: Direction, tick: int)
    requires tick in sp.Side(d).store.buckets ==> sp.Side(d).store.buckets[tick].applied <= sp.Side(d).store.nextIndex
    ensures
      var r := PreSyncBucket(m, sp, d, tick);
      var applied := ApplyBucket(sp.Side(d).store, tick);
      && (applied.Err? ==> r.Err? && (Benign(r) || FailsAs(r, applied)))
      && (applied.Ok? ==>
            var sp' := sp.With(d, sp.Side(d).(store := applied.value));
            && (r.Err? ==> Benign(r) || FailsAs(r, CheckSubPool(sp')))
            && (r.Ok? ==>
                  && r.value.0 == sp' && tick in sp.Side(d).store.buckets
                  && r.value.1 == sp.Side(d).store.nextIndex - sp.Side(d).store.buckets[tick].applied))
  {
    hide ApplyBucket, CheckSubPool;
  }

  /** `pre_sync_dormant_bucket` keeps the population and moves value only inside the store. */
  lemma PreSyncKeepsWorld(m: Market, sp: SubPool, d: Direction, tick: int, ps: map<nat, Position>)
    requires WorldOk(sp, ps)
    ensures
      var r := PreSyncBucket(m, sp, d, tick);
      && Benign(r)
      && (r.Ok? ==> WorldOk(r.value.0, ps) && Funds(r.value.0) == Funds(sp))
  {
    hide WorldOk, ApplyBucket, CheckSubPool, View, PoolOk, StoreShares.SharesOf, SideOk, PositionsOk, PoolCore,
      PreSyncBucket, BucketOk, Inv;
    var s := sp.Side(d).store;
    SidesCore(sp, ps);
    SideParts(sp.Side(d), d, ps);
    PoolParts(sp.Side(d), d);
    DormantRefinement.AppliedBucket(s, tick);
    BucketInWindow(s, tick);
    PreSyncUnfolds(m, sp, d, tick);
    if ApplyBucket(s, tick).Ok? {
      StoreShares.ApplyKeepsShares(s, tick);
      SideReplaced(sp, sp.Side(d).(store := ApplyBucket(s, tick).value), d, ps);
    }
  }

  lemma BucketInWindow(s: Store, tick: int)
    requires Inv(s)
    ensures tick in s.buckets ==> s.gcOffset <= s.buckets[tick].applied <= s.nextIndex
  {
    assert tick in s.buckets ==> BucketOk(s, s.buckets[tick]);
  }

  /** `harvest_dust` takes exactly the dust of one side. */
  lemma HarvestKeepsWorld(m: Market, sp: SubPool, d: Direction, ps: map<nat, Position>)
    requires WorldOk(sp, ps)
    ensures
      var r := HarvestDust(m, sp, d);
      && Benign(r)
      && (r.Ok? ==>
            && WorldOk(r.value.0, ps)
            && r.value.1 == sp.Side(d).dust <= Funds(sp)
            && Funds(r.value.0) == Funds(sp) - r.value.1)
  {
    hide WorldOk, CheckSubPool, Inv, PoolOk, StoreShares.SharesOf, SideOk, PositionsOk, PoolCore, Value;
    SidesCore(sp, ps);
    SideParts(sp.Side(d), d, ps);
    PoolParts(sp.Side(d), d);
    SideReplaced(sp, sp.Side(d).(dust := 0), d, ps);
  }
}
