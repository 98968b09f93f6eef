/** The acquire handler: it reads the owner, acquires, and then requests or clears a stop by what it
    had read. The lease can change hands between the two, and a request can be cleared again. */
module LeaseHandover {
  import opened Numbers
  import opened Leases
  import opened ChunkExecution
  import StopProtocol

  datatype Flag = Requested | Cleared | Untouched

  /** What the handler does to the cancel flag after a successful acquire. */
  function FlagAfter(seen: string, owner: string, force: bool): Flag {
    if force && seen != "" && seen != owner then Requested
    else if seen != owner then Cleared
    else Untouched
  }

  /** The handler when no other thread gets in between: whoever is displaced by force has its motion
      cancelled, and a fresh owner does not inherit an old stop. */
  method AcquireLease(lease: Lease, robot: Robot, owner: string, force: bool, readAt: real, checkedAt: real, now: real)
    returns (r: Result<Info>)
    modifies lease`info, robot`cancel
    ensures r.Err? ==> robot.cancel == old(robot.cancel)
    ensures var seen := OwnerOf(Expired(old(lease.info), lease.holds, readAt));
      r.Ok? ==>
        && r.value.owner == owner && OwnerOf(lease.info) == owner
        && robot.cancel == match FlagAfter(seen, owner, force)
                           case Requested => true
                           case Cleared => false
                           case Untouched => old(robot.cancel)
  {
    var seen := lease.Owner(readAt);
    r := lease.Acquire(owner, force, checkedAt, now);
    if r.Err? {
      return;
    }
    if force && seen != "" && seen != r.value.owner {
      robot.RequestStop();
    } else if seen != r.value.owner {
      robot.ClearStop();
    }
  }

  // In every run: the handler reads the owner in world `i` and is granted the lease at step `j`.

  predicate Grants(s: Step, owner: string) { s.Grant? && s.owner == owner }

  /** An owner that the handler has not read came to the lease after it read. */
  lemma {:induction false} NewOwnerWasGranted(worlds: seq<World>, steps: seq<Step>, ttl: real, i: nat, j: nat,
                                              owner: string) returns (k: nat)
    requires IsRun(worlds, steps, ttl) && i <= j < |worlds| && owner != ""
    requires OwnerOf(worlds[i].info) != owner && OwnerOf(worlds[j].info) == owner
    ensures i <= k < j && Grants(steps[k], owner)
    decreases j - i
  {
    if OwnerOf(worlds[j - 1].info) == owner {
      k := NewOwnerWasGranted(worlds, steps, ttl, i, j - 1, owner);
    } else {
      assert worlds[j] == Do(worlds[j - 1], steps[j - 1], ttl);
      k := j - 1;
    }
  }

  /** A forced acquire requests a stop exactly when the handler had read some other owner. If it
      displaces an owner without requesting one, that owner was granted the lease after the handler
      had read. */
  lemma DisplacedOwnerIsStopped(worlds: seq<World>, steps: seq<Step>, ttl: real, i: nat, j: nat, owner: string)
    returns (k: nat)
    requires IsRun(worlds, steps, ttl) && i <= j < |steps|
    requires Grants(steps[j], owner) && steps[j].force
    requires OwnerOf(worlds[j].info) != "" && OwnerOf(worlds[j].info) != owner
    ensures var (seen, victim) := (OwnerOf(worlds[i].info), OwnerOf(worlds[j].info));
      && OwnerOf(worlds[j + 1].info) == owner
      && (FlagAfter(seen, owner, true) == Requested <==> seen != "" && seen != owner)
      && (FlagAfter(seen, owner, true) != Requested ==> i <= k < j && Grants(steps[k], victim))
  {
    assert worlds[j + 1] == Do(worlds[j], steps[j], ttl);
    k := i;
    var seen, victim := OwnerOf(worlds[i].info), OwnerOf(worlds[j].info);
    if FlagAfter(seen, owner, true) != Requested {
      k := NewOwnerWasGranted(worlds, steps, ttl, i, j, victim);
    }
  }

  /** For a motion that was in flight when the handler read the owner a forced acquire requests a stop,
      unless its owner released the lease or lost it to somebody else's force first. */
  lemma StopIsRequestedInFlight(worlds: seq<World>, steps: seq<Step>, ttl: real, b: nat, i: nat, j: nat, hold: nat,
                                victim: string, owner: string)
    requires IsRun(worlds, steps, ttl) && b < i <= j < |steps| && victim != "" && victim != owner
    requires steps[b].Begin? && steps[b].hold == hold && OwnerOf(worlds[b].info) == victim
    requires forall k | b < k < j :: !(steps[k].End? && steps[k].hold == hold)
    requires forall k | b < k < j :: !Released(worlds, steps, k, victim) && !Forced(steps, k, victim)
    requires Grants(steps[j], owner) && steps[j].force
    ensures OwnerOf(worlds[i].info) == OwnerOf(worlds[j].info) == victim
    ensures FlagAfter(OwnerOf(worlds[i].info), owner, true) == Requested
  {
    HoldProtectsOwner(worlds, steps, ttl, b, i, hold, victim);
    HoldProtectsOwner(worlds, steps, ttl, b, j, hold, victim);
  }

  /** The gap is real: the handler reads no owner, another client acquires and starts a motion, and the
      forced acquire that displaces it clears the flag. */
  lemma DisplacedMotionCanGoOn(victim: string, owner: string, ttl: real)
    requires victim != "" && owner != "" && victim != owner
    ensures var info := Info(victim, 0.0, 0.0 + ttl);
      var worlds := [World(None, 0, map[]), World(None, 0, map[]), World(Some(info), 0, map[]),
                     World(Some(info), 1, map[0 := victim]),
                     World(Some(Info(owner, 0.0, 0.0 + ttl)), 1, map[0 := victim])];
      var steps := [Expire(0.0), Grant(victim, false, 0.0), Begin(0, victim), Grant(owner, true, 0.0)];
      && IsRun(worlds, steps, ttl)
      && OwnerOf(worlds[3].info) == victim && 0 in worlds[4].open
      && FlagAfter(OwnerOf(worlds[1].info), owner, true) == Cleared
  {
    var none: map<nat, string> := map[];
    assert none[0 := victim] == map[0 := victim];
  }

  // From the request to the stop.

  /** If no acquire clears the flag in between, the request takes effect: until the motion returns with
      reason `user` it streams at most one more setpoint, and its next look at the flag aborts it. */
  lemma InFlightMotionStops(worlds: seq<World>, steps: seq<Step>, ttl: real, b: nat, i: nat, j: nat, hold: nat,
                            victim: string, owner: string, t: StopProtocol.Trace, r: nat, n: nat)
    requires IsRun(worlds, steps, ttl) && b < i <= j < |steps| && victim != "" && victim != owner
    requires steps[b].Begin? && steps[b].hold == hold && OwnerOf(worlds[b].info) == victim
    requires forall k | b < k < j :: !(steps[k].End? && steps[k].hold == hold)
    requires forall k | b < k < j :: !Released(worlds, steps, k, victim) && !Forced(steps, k, victim)
    requires Grants(steps[j], owner) && steps[j].force
    requires t.Valid() && r < n <= |t.steps|
    requires FlagAfter(OwnerOf(worlds[i].info), owner, true) == Requested ==> t.steps[r] == StopProtocol.Request
    requires StopProtocol.Standing(t.steps, r + 1, n)
    ensures StopProtocol.Count(t.steps[r + 1..n], StopProtocol.Send) <= 1
    ensures n < |t.steps| && t.steps[n] == StopProtocol.Check ==> t.worlds[n + 1].at == StopProtocol.Aborting
  {
    StopIsRequestedInFlight(worlds, steps, ttl, b, i, j, hold, victim, owner);
    assert StopProtocol.Next(t.worlds[r], t.steps[r], t.worlds[r + 1]);
    StopProtocol.StopIsNotLost(t, r + 1, n);
    if n < |t.steps| { StopProtocol.StandingFlagAborts(t, r + 1, n); }
  }

  /** When an acquire clears the flag: the handler had read that nobody held the lease, or the owner it
      had read lost it before the grant. So no acquire that reads after a theft clears the request
      while the thief keeps the lease. */
  lemma ClearingNeedsVacancy(worlds: seq<World>, steps: seq<Step>, ttl: real, i: nat, j: nat) returns (k: nat)
    requires IsRun(worlds, steps, ttl) && i <= j < |steps| && steps[j].Grant?
    requires !Blocked(worlds[j].info, steps[j].owner, steps[j].force)
    requires FlagAfter(OwnerOf(worlds[i].info), steps[j].owner, steps[j].force) == Cleared
    ensures var seen := OwnerOf(worlds[i].info);
      seen == "" ||
      (&& i <= k < j
       && (Released(worlds, steps, k, seen) || Lapsed(worlds, steps, ttl, k, seen) || Forced(steps, k, seen)))
  {
    k := i;
    var seen := OwnerOf(worlds[i].info);
    if seen != "" {
      k := OwnershipPasses(worlds, steps, ttl, i, j, seen);
    }
  }

  /** The condition is needed: the thief releases at once, a third client acquires the free lease, its
      handler clears the flag, and the motion of the first one, still in flight, streams on. */
  lemma RequestCanBeCleared(victim: string, thief: string, third: string, ttl: real)
    requires victim != "" && thief != "" && third != "" && victim != thief
    ensures var (first, second) := (Info(victim, 0.0, 0.0 + ttl), Info(thief, 0.0, 0.0 + ttl));
      var open := map[0 := victim];
      var worlds := [World(None, 0, map[]), World(Some(first), 0, map[]), World(Some(first), 1, open),
                     World(Some(second), 1, open), World(None, 1, open),
                     World(Some(Info(third, 0.0, 0.0 + ttl)), 1, open)];
      var steps := [Grant(victim, false, 0.0), Begin(0, victim), Grant(thief, true, 0.0), Drop(thief),
                    Grant(third, false, 0.0)];
      && IsRun(worlds, steps, ttl) && 0 in worlds[5].open
      && FlagAfter(OwnerOf(worlds[2].info), thief, true) == Requested
      && FlagAfter(OwnerOf(worlds[4].info), third, false) == Cleared
    ensures FlagStreamsOn().Valid() && FlagStreamsOn().steps[0] == StopProtocol.Request
    ensures StopProtocol.Count(FlagStreamsOn().steps, StopProtocol.Send) == 2
  {
    var none: map<nat, string> := map[];
    assert none[0 := victim] == map[0 := victim];
    CountTwo();
  }

  /** A request, the clearing, and two more setpoints. */
  function FlagStreamsOn(): StopProtocol.Trace {
    var past, tick := StopProtocol.PastCheck, StopProtocol.AtTick;
    StopProtocol.Trace(
      [StopProtocol.World(false, past), StopProtocol.World(true, past), StopProtocol.World(false, past),
       StopProtocol.World(false, tick), StopProtocol.World(false, past), StopProtocol.World(false, tick)],
      [StopProtocol.Request, StopProtocol.Clear] + [StopProtocol.Send]
      + [StopProtocol.Check, StopProtocol.Send])
  }

  lemma CountTwo()
    ensures StopProtocol.Count(FlagStreamsOn().steps, StopProtocol.Send) == 2
  {
    StopProtocol.CountPair(StopProtocol.Request, StopProtocol.Clear);
    StopProtocol.CountPair(StopProtocol.Check, StopProtocol.Send);
    StopProtocol.CountOne(StopProtocol.Send);
    StopProtocol.CountConcat([StopProtocol.Request, StopProtocol.Clear], [StopProtocol.Send], StopProtocol.Send);
    StopProtocol.CountConcat([StopProtocol.Request, StopProtocol.Clear] + [StopProtocol.Send],
                             [StopProtocol.Check, StopProtocol.Send], StopProtocol.Send);
  }
}
