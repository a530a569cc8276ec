/**
  The population behind a pool: what every position holds once migrated, and the pool totals as
  sums over those holdings.
*/
module Holdings {
  import opened Sums

  /** A migrated position: active shares with their notional, or recovery shares in a bucket. */
  datatype Holding = Holding(active: nat, notional: nat, recovery: nat, tick: int)

  const NOTHING := Holding(0, 0, 0, 0)

  function Actives(hs: map<nat, Holding>): map<nat, nat> {
    map id | id in hs :: hs[id].active
  }

  function Notionals(hs: map<nat, Holding>): map<nat, nat> {
    map id | id in hs :: hs[id].notional
  }

  function RecoveredAt(h: Holding, tick: int): nat {
    if h.tick == tick then h.recovery else 0
  }

  function Recoveries(hs: map<nat, Holding>, tick: int): map<nat, nat> {
    map id | id in hs :: RecoveredAt(hs[id], tick)
  }

  predicate HoldingOk(h: Holding) {
    && (h.active > 0 ==> h.recovery == 0)
    && (h.active == 0 ==> h.notional == 0)
  }

  /**
    The totals of a pool are backed by holdings: active shares and notional are sums over all
    holdings, each bucket's recovery shares are a positive sum over the holdings at its tick, and
    no holding lies at a tick without a bucket.
  */
  ghost predicate Backed(shares: nat, notional: nat, buckets: map<int, nat>, hs: map<nat, Holding>) {
    && (forall id :: id in hs ==> HoldingOk(hs[id]))
    && shares == Sum(Actives(hs))
    && notional == Sum(Notionals(hs))
    && (forall t :: t in buckets ==> 0 < buckets[t] == Sum(Recoveries(hs, t)))
    && (forall id :: id in hs && hs[id].recovery > 0 ==> hs[id].tick in buckets)
  }

  // ---------------------------------------------------------------- one holding changes

  lemma SetSums(hs: map<nat, Holding>, id: nat, h: Holding)
    ensures Actives(hs[id := h]) == Actives(hs)[id := h.active]
    ensures Notionals(hs[id := h]) == Notionals(hs)[id := h.notional]
  {
  }

  lemma SetRecoveries(hs: map<nat, Holding>, id: nat, h: Holding, t: int)
    ensures Recoveries(hs[id := h], t) == Recoveries(hs, t)[id := RecoveredAt(h, t)]
  {
  }

  /** The total at `t` changes by what the one holding changes. */
  lemma SetRecovered(hs: map<nat, Holding>, id: nat, h: Holding, t: int)
    ensures
      var was := if id in hs then RecoveredAt(hs[id], t) else 0;
      && was <= Sum(Recoveries(hs, t))
      && Sum(Recoveries(hs[id := h], t)) == Sum(Recoveries(hs, t)) - was + RecoveredAt(h, t)
  {
    SetRecoveries(hs, id, h, t);
    SumUpdate(Recoveries(hs, t), id, RecoveredAt(h, t));
    if id in hs {
      SumAtLeast(Recoveries(hs, t), id);
    }
  }

  lemma SetActives(hs: map<nat, Holding>, id: nat, h: Holding)
    ensures
      var was := if id in hs then hs[id] else NOTHING;
      && was.active <= Sum(Actives(hs)) && was.notional <= Sum(Notionals(hs))
      && Sum(Actives(hs[id := h])) == Sum(Actives(hs)) - was.active + h.active
      && Sum(Notionals(hs[id := h])) == Sum(Notionals(hs)) - was.notional + h.notional
  {
    SetSums(hs, id, h);
    SumUpdate(Actives(hs), id, h.active);
    SumUpdate(Notionals(hs), id, h.notional);
    if id in hs {
      SumAtLeast(Actives(hs), id);
      SumAtLeast(Notionals(hs), id);
    }
  }

  /** Minting: a holding that was nothing becomes active. */
  lemma Minted(
    shares: nat, notional: nat, buckets: map<int, nat>, hs: map<nat, Holding>, id: nat, active: nat, added: nat)
    requires Backed(shares, notional, buckets, hs)
    requires id !in hs || hs[id] == NOTHING
    requires active == 0 ==> added == 0
    ensures Backed(shares + active, notional + added, buckets, hs[id := Holding(active, added, 0, 0)])
  {
    hide Sum, Actives, Notionals, Recoveries;
    var h := Holding(active, added, 0, 0);
    SetActives(hs, id, h);
    forall t | t in buckets
      ensures Sum(Recoveries(hs[id := h], t)) == Sum(Recoveries(hs, t))
    {
      SetRecovered(hs, id, h, t);
    }
  }

  /** Burning all active shares of one holding; the pool has at least as many. */
  lemma Burned(shares: nat, notional: nat, buckets: map<int, nat>, hs: map<nat, Holding>, id: nat)
    requires Backed(shares, notional, buckets, hs)
    requires id in hs && hs[id].active > 0
    ensures hs[id].active <= shares && hs[id].notional <= notional
    ensures Backed(shares - hs[id].active, notional - hs[id].notional, buckets, hs[id := NOTHING])
  {
    hide Sum, Actives, Notionals, Recoveries;
    SetActives(hs, id, NOTHING);
    forall t | t in buckets
      ensures Sum(Recoveries(hs[id := NOTHING], t)) == Sum(Recoveries(hs, t))
    {
      SetRecovered(hs, id, NOTHING, t);
    }
  }

  /** The bucket totals after `burn` recovery shares have left the bucket at `tick`. */
  function Taken(buckets: map<int, nat>, tick: int, burn: nat): map<int, nat>
    requires tick in buckets && burn <= buckets[tick]
  {
    if buckets[tick] == burn then buckets - {tick} else buckets[tick := buckets[tick] - burn]
  }

  lemma TwoAt(hs: map<nat, Holding>, i: nat, j: nat)
    requires i in hs && j in hs && i != j && hs[i].tick == hs[j].tick
    ensures hs[i].recovery + hs[j].recovery <= Sum(Recoveries(hs, hs[i].tick))
  {
    SumAtLeastTwo(Recoveries(hs, hs[i].tick), i, j);
  }

  /** Redeeming all recovery shares of one holding; its bucket exists and has at least as many. */
  lemma Redeemed(shares: nat, notional: nat, buckets: map<int, nat>, hs: map<nat, Holding>, id: nat)
    requires Backed(shares, notional, buckets, hs)
    requires id in hs && hs[id].recovery > 0
    ensures hs[id].tick in buckets && hs[id].recovery <= buckets[hs[id].tick]
    ensures Backed(shares, notional, Taken(buckets, hs[id].tick, hs[id].recovery), hs[id := NOTHING])
  {
    hide Sum, Actives, Notionals, Recoveries;
    var h, hs' := hs[id], hs[id := NOTHING];
    SetRecovered(hs, id, NOTHING, h.tick);
    SetActives(hs, id, NOTHING);
    var left := Taken(buckets, h.tick, h.recovery);
    forall t | t in left
      ensures 0 < left[t] == Sum(Recoveries(hs', t))
    {
      SetRecovered(hs, id, NOTHING, t);
    }
    forall j | j in hs' && hs'[j].recovery > 0
      ensures hs'[j].tick in left
    {
      if hs[j].tick == h.tick {
        TwoAt(hs, id, j);
      }
    }
  }

  // ---------------------------------------------------------------- all active holdings rest

  function Rest(h: Holding, tick: int): Holding {
    if h.active > 0 then Holding(0, 0, h.active, tick) else h
  }

  function RestAll(hs: map<nat, Holding>, tick: int): map<nat, Holding> {
    map id | id in hs :: Rest(hs[id], tick)
  }

  /** A bucket total raised by `added`, from zero if there was none. */
  function Raised(buckets: map<int, nat>, tick: int, added: nat): map<int, nat> {
    buckets[tick := (if tick in buckets then buckets[tick] else 0) + added]
  }

  /** No bucket at `tick`, no recovery shares there. */
  lemma NoneAt(shares: nat, notional: nat, buckets: map<int, nat>, hs: map<nat, Holding>, tick: int)
    requires Backed(shares, notional, buckets, hs)
    ensures Sum(Recoveries(hs, tick)) == if tick in buckets then buckets[tick] else 0
  {
    if tick !in buckets {
      SumZero(Recoveries(hs, tick));
    }
  }

  lemma RestedRecoveries(hs: map<nat, Holding>, tick: int, t: int)
    requires forall id :: id in hs ==> HoldingOk(hs[id])
    ensures Sum(Recoveries(RestAll(hs, tick), t)) == Sum(Recoveries(hs, t)) + (if t == tick then Sum(Actives(hs)) else 0)
  {
    hide Sum;
    var rested := RestAll(hs, tick);
    if t == tick {
      SumAdd(Recoveries(hs, t), Actives(hs), Recoveries(rested, t));
    } else {
      forall id | id in hs
        ensures Recoveries(rested, t)[id] == Recoveries(hs, t)[id]
      {
      }
      assert Recoveries(rested, t) == Recoveries(hs, t);
    }
  }

  lemma NothingActive(hs: map<nat, Holding>, tick: int)
    requires forall id :: id in hs ==> HoldingOk(hs[id])
    ensures Sum(Actives(RestAll(hs, tick))) == 0 && Sum(Notionals(RestAll(hs, tick))) == 0
  {
    SumZero(Actives(RestAll(hs, tick)));
    SumZero(Notionals(RestAll(hs, tick)));
  }

  /** A rotation: every active holding becomes a recovery holding of the bucket at `tick`. */
  lemma Rotated(shares: nat, notional: nat, buckets: map<int, nat>, hs: map<nat, Holding>, tick: int)
    requires Backed(shares, notional, buckets, hs) && shares > 0
    ensures Backed(0, 0, Raised(buckets, tick, shares), RestAll(hs, tick))
  {
    hide Sum, Recoveries;
    var rested := RestAll(hs, tick);
    NothingActive(hs, tick);
    NoneAt(shares, notional, buckets, hs, tick);
    var raised := Raised(buckets, tick, shares);
    forall t | t in raised
      ensures 0 < raised[t] == Sum(Recoveries(rested, t))
    {
      RestedRecoveries(hs, tick, t);
    }
  }

  /** A pool without active shares has no active notional. */
  lemma NoSharesNoNotional(shares: nat, notional: nat, buckets: map<int, nat>, hs: map<nat, Holding>)
    requires Backed(shares, notional, buckets, hs) && shares == 0
    ensures notional == 0
  {
    SumZeroInv(Actives(hs));
    forall id | id in hs
      ensures Notionals(hs)[id] == 0
    {
      assert Actives(hs)[id] == 0;
    }
    SumZero(Notionals(hs));
  }
}
