/** What opens and closes mean for the holders: exact round trips and protected share prices. */
module EngineClaims {
  import opened Wrappers
  import opened MoleMath
  import opened Clearing
  import opened Dormant
  import opened Engine
  import opened Holdings
  import opened EngineInvariant
  import opened EngineSync
  import opened EnginePositions
  import opened EngineOperations

  // ---------------------------------------------------------------- arithmetic of a mint

  /** Redeeming freshly minted shares gives back exactly what was credited for them. */
  lemma MintRedeems(equity: nat, shares: nat, minted: nat, credited: nat)
    requires 0 < equity && 0 < shares && credited == FloorDiv(minted, equity, shares)
    ensures FloorDiv(equity + credited, minted, shares + minted) == credited
  {
    FloorDivBounds(minted, equity, shares);
    var n, d := (equity + credited) * minted, shares + minted;
    assert minted * equity == equity * minted;
    assert n == equity * minted + credited * minted;
    assert credited * d == credited * shares + credited * minted;
    FromQuotient(equity + credited, minted, d, credited, n - credited * d);
  }

  lemma FirstMintRedeems(principal: nat)
    requires principal > 0
    ensures FloorDiv(principal, principal, principal) == principal
  {
    PartBound(principal, principal, principal);
  }

  /** A mint costs the prior holders together less than one unit, and never profits them. */
  lemma MintDilutes(equity: nat, shares: nat, minted: nat, credited: nat)
    requires 0 < shares && credited == FloorDiv(minted, equity, shares)
    ensures (equity + credited) * shares <= equity * (shares + minted)
    ensures equity * (shares + minted) < (equity + credited) * shares + (shares + minted)
  {
    FloorDivBounds(minted, equity, shares);
    assert (equity + credited) * shares == equity * shares + credited * shares;
    assert equity * (shares + minted) == equity * shares + minted * equity;
  }

  /** A redemption never lowers what is left per share. */
  lemma RedeemLeavesPrice(equity: nat, shares: nat, burned: nat)
    requires 0 < shares && burned <= shares
    ensures FloorDiv(equity, burned, shares) <= equity
    ensures (equity - FloorDiv(equity, burned, shares)) * shares >= equity * (shares - burned)
  {
    PartBound(equity, burned, shares);
    FloorDivBounds(equity, burned, shares);
    var v := FloorDiv(equity, burned, shares);
    assert (equity - v) * shares == equity * shares - v * shares;
    assert equity * (shares - burned) == equity * shares - equity * burned;
  }

  // ---------------------------------------------------------------- share prices

  /** What `OpenedIn` means for the arithmetic of the pool. */
  lemma OpenCredits(m: Market, sp: SubPool, env: Envelope, d: Direction, gross: u64, id: nat, ps: map<nat, Position>)
    requires WorldOk(sp, ps) && id !in ps && OpenPosition(m, sp, env, d, gross, id).Ok?
    ensures
      var (sp', pos, out) := OpenPosition(m, sp, env, d, gross, id).value;
      && SyncPool(m, sp, env).Ok?
      && var p := SyncPool(m, sp, env).value.0.Side(d);
      && OpenedIn(m, SyncPool(m, sp, env).value.0, sp', d, gross, pos, out)
      && ZeroIff(p)
      && (p.equity == 0 ==> out.mint.shares == pos.principal && out.mint.principal == pos.principal)
      && (p.equity > 0 ==>
            && out.mint.shares > 0
            && out.mint.principal == FloorDiv(out.mint.shares, p.equity, p.shares))
  {
    hide WorldOk, SyncPool, OpenPosition, Principal, MintShares, MulDivFloor, AddShares, Synced, PoolOk, Funds,
      OpenedIn, FloorDiv;
    OpenKeepsWorld(m, sp, env, d, gross, id, ps);
    OpenUnfolds(m, sp, env, d, gross, id);
    SyncKeepsWorld(m, sp, env, ps);
    SidesCore(SyncPool(m, sp, env).value.0, ps);
    MintIs(m, SyncPool(m, sp, env).value.0.Side(d), Principal(m, gross).value.1);
  }

  /**
    An open never raises the value per share of the prior holders and lowers their total value by
    less than one unit: with `e / s` per share before and `e' / s'` after, `e - s * e' / s' < 1`.
  */
  lemma OpenProtectsHolders(
    m: Market, sp: SubPool, env: Envelope, d: Direction, gross: u64, id: nat, ps: map<nat, Position>)
    requires WorldOk(sp, ps) && id !in ps && OpenPosition(m, sp, env, d, gross, id).Ok?
    ensures
      var (sp', _, _) := OpenPosition(m, sp, env, d, gross, id).value;
      && SyncPool(m, sp, env).Ok?
      && var p, p' := SyncPool(m, sp, env).value.0.Side(d), sp'.Side(d);
      && (p.shares > 0 ==>
            && p'.equity * p.shares <= p.equity * p'.shares
            && p.equity * p'.shares < p'.equity * p.shares + p'.shares)
  {
    hide WorldOk, SyncPool, OpenPosition, FloorDiv;
    OpenCredits(m, sp, env, d, gross, id, ps);
    var (sp', pos, out) := OpenPosition(m, sp, env, d, gross, id).value;
    var p := SyncPool(m, sp, env).value.0.Side(d);
    if p.shares > 0 {
      MintDilutes(p.equity, p.shares, out.mint.shares, out.mint.principal);
    }
  }

  /** A close never lowers the value per active share of the remaining holders. */
  lemma CloseProtectsHolders(m: Market, sp: SubPool, env: Envelope, ps: map<nat, Position>, id: nat)
    requires WorldOk(sp, ps) && id in ps && ClosePosition(m, sp, env, ps[id]).Ok?
    ensures
      var (sp', _, _) := ClosePosition(m, sp, env, ps[id]).value;
      && SyncPool(m, sp, env).Ok?
      && var p, p' := SyncPool(m, sp, env).value.0.Side(ps[id].direction), sp'.Side(ps[id].direction);
      p'.equity * p.shares >= p.equity * p'.shares
  {
    hide WorldOk, SyncPool, ClosePosition, FloorDiv, LazyMigrate, Funds, RedeemedFrom, Synced;
    CloseKeepsWorld(m, sp, env, ps, id);
    var sp1 := SyncPool(m, sp, env).value.0;
    var (sp', pos', out) := ClosePosition(m, sp, env, ps[id]).value;
    var d := ps[id].direction;
    var pos1 := LazyMigrate(sp1.Side(d), ps[id]).value;
    PaidOffPrice(sp1.Side(d), sp'.Side(d), pos1, out.activeValue);
  }

  lemma PaidOffPrice(p: Pool, p': Pool, pos: Position, value: nat)
    requires exists receipt :: PaidOff(p, p', pos, value, receipt)
    ensures p'.equity * p.shares >= p.equity * p'.shares
  {
    hide FloorDiv, IdealRedeem;
    if pos.active > 0 {
      RedeemLeavesPrice(p.equity, p.shares, pos.active);
    }
  }

  // ---------------------------------------------------------------- open and close again

  /** The envelope and market let a sync through at the price the sub pool already has. */
  predicate Undisturbed(m: Market, sp: SubPool, env: Envelope) {
    SyncGuard(m, env).Ok? && env.pNow == sp.lastPrice
  }

  /** At an unchanged price a sync only records the slot. */
  lemma UndisturbedSync(m: Market, sp: SubPool, env: Envelope)
    requires Undisturbed(m, sp, env) && CheckSubPool(sp).Ok?
    ensures SyncPool(m, sp, env) == Ok((Priced(sp, env), Quiet(env.pNow)))
  {
    SameChecks(sp, Priced(sp, env));
    hide CheckSubPool, PriceMoveBps, MovePrice;
  }

  lemma SameChecks(sp: SubPool, sp': SubPool)
    requires sp'.long == sp.long && sp'.short == sp.short
    ensures CheckSubPool(sp') == CheckSubPool(sp)
  {
  }

  /** A close whose steps all succeed, succeeds. */
  lemma CloseSucceeds(
    m: Market, sp: SubPool, env: Envelope, pos: Position, sp1: SubPool, out: SyncOutcome, p: Pool, value: nat)
    requires m.schemaVersion == SCHEMA_VERSION_CURRENT == pos.schemaVersion && !pos.status.Closed?
    requires SyncPool(m, sp, env) == Ok((sp1, out))
    requires LazyMigrate(sp1.Side(pos.direction), pos) == Ok(pos)
    requires CloseActive(sp1.Side(pos.direction), pos) == Ok((p, pos.(active := 0), value))
    requires pos.recovery == 0 && value < U128
    ensures value == 0 ==> ClosePosition(m, sp, env, pos) == Err(WithdrawableZero)
    ensures value > 0 && CheckSubPool(sp1.With(pos.direction, p)).Ok? ==>
      var r := ClosePosition(m, sp, env, pos);
      && r.Ok?
      && r.value.0 == sp1.With(pos.direction, p)
      && r.value.2.withdrawable == value && r.value.2.activeValue == value && r.value.2.recoveryValue == 0
  {
    NothingToRedeem(p, pos.(active := 0));
    hide SyncPool, LazyMigrate, CloseActive, RedeemRecovery, CheckSubPool;
  }

  /** Shares minted by `mint` on pool `p`, closed again. */
  lemma MintedShareCloses(p: Pool, p': Pool, mint: Mint, notional: nat, pos: Position)
    requires ZeroIff(p)
    requires p'.equity == p.equity + mint.principal && p'.shares == p.shares + mint.shares
    requires p'.notional == p.notional + notional
    requires p.equity == 0 ==> mint.shares == mint.principal
    requires p.equity > 0 ==> mint.shares > 0 && mint.principal == FloorDiv(mint.shares, p.equity, p.shares)
    requires pos.active == mint.shares && pos.notional == notional
    requires InRange(p')
    requires pos.active == 0 ==> notional == 0
    ensures CloseActive(p', pos) ==
      Ok((p'.(equity := p.equity, shares := p.shares, notional := p.notional), pos.(active := 0), mint.principal))
  {
    if p.equity > 0 {
      MintRedeems(p.equity, p.shares, mint.shares, mint.principal);
    } else if mint.shares > 0 {
      FirstMintRedeems(mint.principal);
    }
    hide FloorDiv;
  }

  lemma FreshDoesNotMigrate(p: Pool, pos: Position)
    requires pos.generation == p.generation
    ensures LazyMigrate(p, pos) == Ok(pos)
  {
  }

  /** Closing the fresh position leaves the pool as it was before the open, plus dust. */
  lemma RestoredChecks(sp1: SubPool, sp2: SubPool, ps: map<nat, Position>, d: Direction)
    requires WorldOk(sp1, ps) && CheckSubPool(sp1).Ok?
    requires sp2 == sp1.With(d, sp2.Side(d))
    requires sp2.Side(d).store == sp1.Side(d).store && PoolOk(sp2.Side(d), d)
    ensures CheckSubPool(sp2).Ok?
  {
    hide WorldOk, PoolOk, CheckSubPool, SideOk, PositionsOk, PoolCore, TotalAllotted;
    SidesCore(sp1, ps);
    SideParts(sp1.long, Long, ps);
    SideParts(sp1.short, Short, ps);
    ChecksPass(sp1);
    ChecksPass(sp2);
  }

  /**
    Opening and closing again at the same price pays exactly what the open credited to the pool, and
    leaves equity, shares, notional and both stores as the open found them, for every pool that
    accepts the open; only the recorded dust stays. The close fails exactly when nothing was credited.
  */
  lemma OpenThenClose(
    m: Market, sp: SubPool, env: Envelope, env': Envelope, d: Direction, gross: u64, id: nat, ps: map<nat, Position>)
    requires WorldOk(sp, ps) && id !in ps && OpenPosition(m, sp, env, d, gross, id).Ok?
    requires env'.pNow == env.pNow && SyncGuard(m, env').Ok?
    ensures
      var (sp1, pos, out) := OpenPosition(m, sp, env, d, gross, id).value;
      var r := ClosePosition(m, sp1, env', pos);
      && (out.mint.principal == 0 ==> r == Err(WithdrawableZero))
      && (out.mint.principal > 0 ==>
            && r.Ok?
            && r.value.2.withdrawable == out.mint.principal
            && SyncPool(m, sp, env).Ok?
            && var before := SyncPool(m, sp, env).value.0;
            && r.value.0 == Priced(before, env').With(d, before.Side(d).(dust := before.Side(d).dust + out.mint.dust)))
  {
    hide WorldOk, SyncPool, OpenPosition, Principal, MintShares, MulDivFloor, AddShares, Funds, CheckSubPool,
      LazyMigrate, CloseActive, ClosePosition, FloorDiv, PoolOk, PoolBacked, HoldingsOf, PositionsOk;
    OpenCredits(m, sp, env, d, gross, id, ps);
    OpenUnfolds(m, sp, env, d, gross, id);
    OpenKeepsWorld(m, sp, env, d, gross, id, ps);
    var (sp1, pos, out) := OpenPosition(m, sp, env, d, gross, id).value;
    var before := SyncPool(m, sp, env).value.0;
    var ps1 := ps[id := pos];
    SyncedPrice(m, sp, env, ps);
    UndisturbedSync(m, sp1, env');
    SidesCore(sp1, ps1);
    SideParts(sp1.Side(d), d, ps1);
    PoolParts(sp1.Side(d), d);
    assert PosOk(sp1.Side(d).generation, pos) by {
      PositionAt(sp1, ps1, id);
    }
    var sp2 := Priced(sp1, env');
    MintedShareCloses(before.Side(d), sp1.Side(d), out.mint, out.notional, pos);
    FreshDoesNotMigrate(sp1.Side(d), pos);
    var p := CloseActive(sp1.Side(d), pos).value.0;
    CloseSucceeds(m, sp1, env', pos, sp2, Quiet(env'.pNow), p, out.mint.principal);
    PoolShrinks(sp1.Side(d), p, d);
    SameChecks(sp1, sp2);
    RestoredChecks(sp1, sp1.With(d, p), ps1, d);
    SameChecks(sp1.With(d, p), sp2.With(d, p));
  }

  lemma SyncedPrice(m: Market, sp: SubPool, env: Envelope, ps: map<nat, Position>)
    requires WorldOk(sp, ps) && SyncPool(m, sp, env).Ok?
    ensures SyncPool(m, sp, env).value.0.lastPrice == env.pNow
  {
    SyncKeepsWorld(m, sp, env, ps);
    hide WorldOk, SyncPool, Midway, SideRotated, Exchanged, SyncEvents;
  }

  lemma PositionAt(sp: SubPool, ps: map<nat, Position>, id: nat)
    requires PositionsOk(sp, ps) && id in ps
    ensures PosOk(sp.Side(ps[id].direction).generation, ps[id])
  {
    hide PosOk;
  }
}
