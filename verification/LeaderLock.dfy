/**
  The keeper leader lease (crates/keeper-decoder/src/leader_lock.rs) and its safety over whole runs:
  the leases of a lock follow one another in slot time.
*/
module LeaderLock {
  import opened Wrappers

  type Pubkey = nat

  /** The fields of a `KeeperLeaderLock`. */
  datatype Lock = Lock(hasLeader: bool, leader: Pubkey, heartbeat: nat, threshold: nat)

  datatype HeartbeatOutcome =
    | AcquiredFresh
    | AcquiredFromStale(previous: Pubkey, elapsed: nat)
    | Refreshed
    | RejectedHeldByOther(holder: Pubkey, untilStale: nat)
    | RejectedClockSkew(callerSlot: nat, recordedSlot: nat)
  {
    /** `is_leader`. */
    predicate IsLeader() {
      AcquiredFresh? || AcquiredFromStale? || Refreshed?
    }
  }

  datatype ReleaseOutcome = Released | RejectedNotHolder(holder: Pubkey) | RejectedNotHeld

  /** The all-zero key of a lock without leader. */
  const NO_KEY: Pubkey := 0

  /** `fresh`. */
  function Fresh(slot: nat, threshold: nat): Lock {
    Lock(false, NO_KEY, slot, threshold)
  }

  function Elapsed(l: Lock, slot: nat): nat {
    if slot >= l.heartbeat then slot - l.heartbeat else 0
  }

  /** `is_stale`. */
  predicate IsStale(l: Lock, slot: nat) {
    !l.hasLeader || Elapsed(l, slot) > l.threshold
  }

  /** `is_held_by`. */
  predicate IsHeldBy(l: Lock, signer: Pubkey, slot: nat) {
    l.hasLeader && l.leader == signer && !IsStale(l, slot)
  }

  /** `keeper_bot_should_submit`. */
  predicate ShouldSubmit(l: Lock, signer: Pubkey, slot: nat) {
    IsHeldBy(l, signer, slot) || IsStale(l, slot)
  }

  /** What `try_heartbeat` does to the lock. */
  function Heartbeat(l: Lock, signer: Pubkey, slot: nat): (Lock, HeartbeatOutcome) {
    if slot < l.heartbeat then (l, RejectedClockSkew(slot, l.heartbeat))
    else
      var taken := l.(hasLeader := true, leader := signer, heartbeat := slot);
      if !l.hasLeader then (taken, AcquiredFresh)
      else if IsStale(l, slot) then (taken, AcquiredFromStale(l.leader, Elapsed(l, slot)))
      else if l.leader == signer then (taken, Refreshed)
      else (l, RejectedHeldByOther(l.leader, if l.threshold >= Elapsed(l, slot) then l.threshold - Elapsed(l, slot) else 0))
  }

  /** What `try_release` does to the lock; the slot is not checked against the recorded one. */
  function Release(l: Lock, signer: Pubkey, slot: nat): (Lock, ReleaseOutcome) {
    if !l.hasLeader then (l, RejectedNotHeld)
    else if l.leader != signer then (l, RejectedNotHolder(l.leader))
    else (l.(hasLeader := false, leader := NO_KEY, heartbeat := slot), Released)
  }

  /** `KeeperLeaderLock`, updated in place. */
  class KeeperLeaderLock {
    var hasLeader: bool
    var currentLeader: Pubkey
    var lastHeartbeatSlot: nat
    var takeoverThresholdSlots: nat

    function State(): Lock
      reads this
    {
      Lock(hasLeader, currentLeader, lastHeartbeatSlot, takeoverThresholdSlots)
    }

    constructor (currentSlot: nat, threshold: nat)
      ensures State() == Fresh(currentSlot, threshold)
    {
      hasLeader, currentLeader, lastHeartbeatSlot, takeoverThresholdSlots := false, NO_KEY, currentSlot, threshold;
    }

    /** `is_stale`. */
    method Stale(currentSlot: nat) returns (r: bool)
      ensures r == IsStale(State(), currentSlot)
    {
      if !hasLeader {
        return true;
      }
      var elapsed := if currentSlot >= lastHeartbeatSlot then currentSlot - lastHeartbeatSlot else 0;
      return elapsed > takeoverThresholdSlots;
    }

    /** `try_heartbeat`. */
    method TryHeartbeat(signer: Pubkey, currentSlot: nat) returns (r: HeartbeatOutcome)
      modifies this
      ensures (State(), r) == Heartbeat(old(State()), signer, currentSlot)
      ensures !r.IsLeader() ==> unchanged(this)
    {
      if currentSlot < lastHeartbeatSlot {
        return RejectedClockSkew(currentSlot, lastHeartbeatSlot);
      }
      if !hasLeader {
        hasLeader := true;
        currentLeader := signer;
        lastHeartbeatSlot := currentSlot;
        return AcquiredFresh;
      }
      var leader := currentLeader;
      var stale := Stale(currentSlot);
      var elapsed := currentSlot - lastHeartbeatSlot;
      if leader == signer {
        lastHeartbeatSlot := currentSlot;
        return if stale then AcquiredFromStale(leader, elapsed) else Refreshed;
      } else if stale {
        currentLeader := signer;
        lastHeartbeatSlot := currentSlot;
        return AcquiredFromStale(leader, elapsed);
      } else {
        return RejectedHeldByOther(
            leader, if takeoverThresholdSlots >= elapsed then takeoverThresholdSlots - elapsed else 0);
      }
    }

    /** `try_release`. */
    method TryRelease(signer: Pubkey, currentSlot: nat) returns (r: ReleaseOutcome)
      modifies this
      ensures (State(), r) == Release(old(State()), signer, currentSlot)
      ensures r != Released ==> unchanged(this)
    {
      if !hasLeader {
        return RejectedNotHeld;
      }
      if currentLeader != signer {
        return RejectedNotHolder(currentLeader);
      }
      hasLeader := false;
      currentLeader := NO_KEY;
      lastHeartbeatSlot := currentSlot;
      return Released;
    }
  }

  // ---------------------------------------------------------------- single heartbeats

  /** The bot's prediction is exact as long as its slot is not behind the recorded one. */
  lemma PredictionIsExact(l: Lock, signer: Pubkey, slot: nat)
    ensures Heartbeat(l, signer, slot).1.IsLeader() <==> slot >= l.heartbeat && ShouldSubmit(l, signer, slot)
  {
  }

  /** A rejected keeper is told exactly how long it will stay rejected. */
  lemma BackoffIsExact(l: Lock, signer: Pubkey, slot: nat, later: nat)
    requires Heartbeat(l, signer, slot).1.RejectedHeldByOther? && later >= slot
    ensures
      var wait := Heartbeat(l, signer, slot).1.untilStale;
      Heartbeat(l, signer, later).1.IsLeader() <==> later > slot + wait
  {
  }

  // ---------------------------------------------------------------- runs

  datatype Action = Beat(signer: Pubkey, slot: nat) | Leave(signer: Pubkey, slot: nat)

  /** One tenure: from its first heartbeat to `last + threshold`, or to its release. */
  datatype Lease = Lease(keeper: Pubkey, first: nat, last: nat, released: Option<nat>)

  /** A lock together with every lease it has granted. */
  datatype History = History(lock: Lock, leases: seq<Lease>)

  function Step(h: History, a: Action): History {
    match a
    case Beat(signer, slot) =>
      var (l, outcome) := Heartbeat(h.lock, signer, slot);
      var leases := h.leases;
      History(l,
        if outcome.AcquiredFresh? || outcome.AcquiredFromStale? then leases + [Lease(signer, slot, slot, None)]
        else if outcome.Refreshed? && leases != [] then leases[|leases| - 1 := leases[|leases| - 1].(last := slot)]
        else leases)
    case Leave(signer, slot) =>
      var (l, outcome) := Release(h.lock, signer, slot);
      var leases := h.leases;
      History(l,
        if outcome.Released? && leases != [] then leases[|leases| - 1 := leases[|leases| - 1].(released := Some(slot))]
        else leases)
  }

  function Run(h: History, actions: seq<Action>): History
    decreases |actions|
  {
    if actions == [] then h else Run(Step(h, actions[0]), actions[1..])
  }

  function Start(slot: nat, threshold: nat): History {
    History(Fresh(slot, threshold), [])
  }

  /** `a` is over before `b` begins. */
  predicate Before(a: Lease, b: Lease, threshold: nat) {
    && a.last <= b.first
    && (match a.released
        case Some(r) => r <= b.first
        case None => a.last + threshold < b.first)
  }

  /** The leases follow one another in slot time. */
  predicate Ordered(leases: seq<Lease>, threshold: nat) {
    forall i, j :: 0 <= i < j < |leases| ==> Before(leases[i], leases[j], threshold)
  }

  /** An accepted release that reports a slot before the last heartbeat. */
  predicate Regresses(l: Lock, a: Action) {
    a.Leave? && Release(l, a.signer, a.slot).1.Released? && a.slot < l.heartbeat
  }

  /** No release of the run reports a slot before the recorded one. */
  predicate Regular(h: History, actions: seq<Action>)
    decreases |actions|
  {
    actions == [] || (!Regresses(h.lock, actions[0]) && Regular(Step(h, actions[0]), actions[1..]))
  }

  /** The last lease is the lock's own. */
  predicate Agrees(h: History) {
    && (h.lock.hasLeader ==> h.leases != [])
    && (h.leases != [] ==>
          var lease := h.leases[|h.leases| - 1];
          && lease.first <= lease.last <= h.lock.heartbeat
          && (h.lock.hasLeader ==> lease.keeper == h.lock.leader && lease.last == h.lock.heartbeat && lease.released.None?)
          && (!h.lock.hasLeader ==> lease.released == Some(h.lock.heartbeat)))
  }

  lemma StepKeeps(h: History, a: Action)
    requires Agrees(h) && Ordered(h.leases, h.lock.threshold) && !Regresses(h.lock, a)
    ensures
      var h' := Step(h, a);
      && Agrees(h') && Ordered(h'.leases, h'.lock.threshold)
      && h'.lock.threshold == h.lock.threshold && h'.lock.heartbeat >= h.lock.heartbeat
  {
    var n, t := |h.leases|, h.lock.threshold;
    var leases' := Step(h, a).leases;
    forall i, j | 0 <= i < j < |leases'|
      ensures Before(leases'[i], leases'[j], t)
    {
      assert i < n - 1 ==> Before(h.leases[i], h.leases[n - 1], t);
      assert j < n ==> Before(h.leases[i], h.leases[j], t);
    }
  }

  /**
    Lease safety: in every run whose releases never report a slot before the recorded one, each
    lease is over, by release or by more than the threshold without a heartbeat, before the next
    begins; and the recorded slot never moves back.
  */
  lemma {:induction false} LeasesAreOrdered(h: History, actions: seq<Action>)
    requires Agrees(h) && Ordered(h.leases, h.lock.threshold) && Regular(h, actions)
    ensures
      var h' := Run(h, actions);
      && Agrees(h') && Ordered(h'.leases, h'.lock.threshold)
      && h'.lock.threshold == h.lock.threshold && h'.lock.heartbeat >= h.lock.heartbeat
    decreases |actions|
  {
    if actions == [] {
    } else {
      hide Ordered, Step, Agrees, Regresses;
      StepKeeps(h, actions[0]);
      LeasesAreOrdered(Step(h, actions[0]), actions[1..]);
    }
  }

  lemma StartOrdered(slot: nat, threshold: nat)
    ensures Agrees(Start(slot, threshold)) && Ordered(Start(slot, threshold).leases, threshold)
  {
  }

  /** Slot `s` lies inside a lease. */
  predicate Covers(lease: Lease, threshold: nat, s: nat) {
    && lease.first <= s
    && (match lease.released
        case Some(r) => s < r
        case None => s <= lease.last + threshold)
  }

  /** At any slot at most one lease is in force, in every run from a fresh lock. */
  lemma OneLeaderAtATime(slot: nat, threshold: nat, actions: seq<Action>, i: nat, j: nat, s: nat)
    requires Regular(Start(slot, threshold), actions)
    requires
      var leases := Run(Start(slot, threshold), actions).leases;
      && i < |leases| && j < |leases|
      && Covers(leases[i], threshold, s) && Covers(leases[j], threshold, s)
    ensures i == j
  {
    hide Run, Regular, Ordered, Covers;
    StartOrdered(slot, threshold);
    LeasesAreOrdered(Start(slot, threshold), actions);
    var leases := Run(Start(slot, threshold), actions).leases;
    if i < j {
      NeverBoth(leases, threshold, i, j, s);
    } else if j < i {
      NeverBoth(leases, threshold, j, i, s);
    }
  }

  lemma NeverBoth(leases: seq<Lease>, threshold: nat, i: nat, j: nat, s: nat)
    requires Ordered(leases, threshold) && i < j < |leases|
    ensures !(Covers(leases[i], threshold, s) && Covers(leases[j], threshold, s))
  {
    assert Before(leases[i], leases[j], threshold);
  }

  /** Whoever the lock reports as its holder has the last lease, and that lease is in force. */
  lemma HolderHasTheLease(slot: nat, threshold: nat, actions: seq<Action>, signer: Pubkey, s: nat)
    requires Regular(Start(slot, threshold), actions)
    ensures
      var h := Run(Start(slot, threshold), actions);
      s >= h.lock.heartbeat ==>
        (IsHeldBy(h.lock, signer, s) <==>
           && h.leases != []
           && h.leases[|h.leases| - 1].keeper == signer
           && Covers(h.leases[|h.leases| - 1], threshold, s))
  {
    LeasesAreOrdered(Start(slot, threshold), actions);
    hide Run, Regular;
  }

  // ---------------------------------------------------------------- releases that go back

  /**
    The exact condition: after an accepted release, whether another keeper's heartbeat can break the
    order of the leases depends on nothing but the slot the release reports.
  */
  lemma ReleaseMustNotRegress(h: History, signer: Pubkey, slot: nat)
    requires Agrees(h) && Ordered(h.leases, h.lock.threshold) && Release(h.lock, signer, slot).1.Released?
    ensures
      (forall other: Pubkey, s: nat :: Ordered(Step(Step(h, Leave(signer, slot)), Beat(other, s)).leases, h.lock.threshold))
        <==> slot >= h.lock.heartbeat
  {
    var released := Step(h, Leave(signer, slot));
    if slot >= h.lock.heartbeat {
      StepKeeps(h, Leave(signer, slot));
      forall other: Pubkey, s: nat
        ensures Ordered(Step(released, Beat(other, s)).leases, h.lock.threshold)
      {
        StepKeeps(released, Beat(other, s));
      }
    } else {
      var taken := Step(released, Beat(signer + 1, slot));
      var n := |h.leases|;
      assert taken.leases[n - 1].last == h.lock.heartbeat && taken.leases[n].first == slot;
      assert !Before(taken.leases[n - 1], taken.leases[n], h.lock.threshold);
    }
  }
}
