/** The single-writer lease: an owner, an expiry, and a count of requests in flight. The lease's lock is
    taken once by each method, and twice by `Owner`, `Acquire` and `Check`, which look at the expiry
    first; any interleaving of threads is a sequence of the single sections. */
module Leases {
  import opened Numbers

  datatype Info = Info(owner: string, acquiredAt: real, expiresAt: real)

  datatype LeaseError = EmptyOwner | HeldByOther | NotHeld

  datatype Result<T> = Ok(value: T) | Err(error: LeaseError)

  function OwnerOf(info: Option<Info>): string { if info.Some? then info.value.owner else "" }

  /** Nothing expires while a request of the owner is in flight. */
  function Expired(info: Option<Info>, holds: int, now: real): Option<Info> {
    if holds <= 0 && info.Some? && now > info.value.expiresAt then None else info
  }

  function Refreshed(info: Option<Info>, owner: string, now: real, ttl: real): Option<Info> {
    if info.Some? && info.value.owner == owner then Some(info.value.(expiresAt := now + ttl)) else info
  }

  predicate Blocked(info: Option<Info>, owner: string, force: bool) {
    info.Some? && info.value.owner != owner && !force
  }

  class Lease {
    const ttl: real
    var info: Option<Info>
    var holds: int

    constructor (ttl: real)
      ensures this.ttl == ttl && info == None && holds == 0
    {
      this.ttl := ttl;
      info, holds := None, 0;
    }

    method ExpireIfStale(now: real)
      modifies this`info
      ensures info == Expired(old(info), holds, now)
    {
      if holds > 0 {
        return;
      }
      if info.Some? && now > info.value.expiresAt {
        info := None;
      }
    }

    method Owner(now: real) returns (owner: string)
      modifies this`info
      ensures info == Expired(old(info), holds, now) && owner == OwnerOf(info)
    {
      ExpireIfStale(now);
      owner := if info.Some? then info.value.owner else "";
    }

    /** The second section of `acquire`. */
    method Grant(owner: string, force: bool, now: real) returns (r: Result<Info>)
      modifies this`info
      ensures r.Ok? <==> !Blocked(old(info), owner, force)
      ensures r.Ok? ==> r.value == Info(owner, now, now + ttl) && info == Some(r.value)
      ensures r.Err? ==> info == old(info) && r.error == HeldByOther
    {
      if info.Some? && info.value.owner != owner && !force {
        return Err(HeldByOther);
      }
      info := Some(Info(owner, now, now + ttl));
      r := Ok(info.value);
    }

    /** Both sections of `acquire`, when no other thread gets in between: a dead owner's lease can be
        had as soon as its time is up and none of its requests is in flight. */
    method Acquire(owner: string, force: bool, checkedAt: real, now: real) returns (r: Result<Info>)
      modifies this`info
      ensures owner == "" ==> r == Err(EmptyOwner) && info == old(info)
      ensures owner != "" ==>
        (r.Ok? <==> force || old(info) == None || old(info).value.owner == owner
                    || (holds <= 0 && checkedAt > old(info).value.expiresAt))
      ensures r.Ok? ==> r.value == Info(owner, now, now + ttl) && info == Some(r.value)
      ensures r.Err? ==> info == old(info)
    {
      if owner == "" {
        return Err(EmptyOwner);
      }
      ExpireIfStale(checkedAt);
      r := Grant(owner, force, now);
    }

    method Heartbeat(owner: string, now: real) returns (r: Result<Info>)
      modifies this`info
      ensures r.Ok? <==> old(info).Some? && old(info).value.owner == owner
      ensures r.Ok? ==> info == Some(r.value)
      ensures info == Refreshed(old(info), owner, now, ttl)
    {
      if info == None || info.value.owner != owner {
        return Err(NotHeld);
      }
      info := Some(info.value.(expiresAt := now + ttl));
      r := Ok(info.value);
    }

    method Release(owner: string) returns (r: Result<()>)
      modifies this`info
      ensures r.Ok? <==> old(info) == None || old(info).value.owner == owner
      ensures info == if r.Ok? then None else old(info)
    {
      if info.Some? && info.value.owner != owner {
        return Err(HeldByOther);
      }
      info := None;
      r := Ok(());
    }

    method Check(owner: string, now: real) returns (r: Result<()>)
      modifies this`info
      ensures info == Expired(old(info), holds, now)
      ensures r.Ok? <==> info.Some? && info.value.owner == owner
    {
      ExpireIfStale(now);
      if info == None {
        return Err(NotHeld);
      }
      r := if info.value.owner == owner then Ok(()) else Err(HeldByOther);
    }

    /** The section of `hold` that marks the request as in flight. */
    method BeginHold()
      modifies this`holds
      ensures holds == old(holds) + 1
    {
      holds := holds + 1;
    }

    /** The section of `hold` that ends it and gives the owner a full period again. */
    method EndHold(owner: string, now: real)
      modifies this
      ensures holds == old(holds) - 1 && info == Refreshed(old(info), owner, now, ttl)
    {
      holds := holds - 1;
      if info.Some? && info.value.owner == owner {
        info := Some(info.value.(expiresAt := now + ttl));
      }
    }
  }

  // Every run.

  /** The sections, as other threads see them. Each open hold has its own number. */
  datatype Step =
    | Expire(now: real)
    | Grant(owner: string, force: bool, now: real)
    | Beat(owner: string, now: real)
    | Drop(owner: string)
    | Begin(hold: nat, owner: string)
    | End(hold: nat, now: real)

  datatype World = World(info: Option<Info>, holds: int, open: map<nat, string>)

  predicate Can(w: World, s: Step) {
    match s
    case Begin(hold, _) => hold !in w.open
    case End(hold, _) => hold in w.open
    case _ => true
  }

  function Do(w: World, s: Step, ttl: real): World
    requires Can(w, s)
  {
    match s
    case Expire(now) => w.(info := Expired(w.info, w.holds, now))
    case Grant(owner, force, now) =>
      if Blocked(w.info, owner, force) then w else w.(info := Some(Info(owner, now, now + ttl)))
    case Beat(owner, now) => w.(info := Refreshed(w.info, owner, now, ttl))
    case Drop(owner) => if w.info.Some? && w.info.value.owner != owner then w else w.(info := None)
    case Begin(hold, owner) => w.(holds := w.holds + 1, open := w.open[hold := owner])
    case End(hold, now) =>
      World(Refreshed(w.info, w.open[hold], now, ttl), w.holds - 1, w.open - {hold})
  }

  ghost predicate IsRun(worlds: seq<World>, steps: seq<Step>, ttl: real) {
    && |worlds| == |steps| + 1
    && worlds[0] == World(None, 0, map[])
    && forall k | 0 <= k < |steps| :: Can(worlds[k], steps[k]) && worlds[k + 1] == Do(worlds[k], steps[k], ttl)
  }

  lemma {:induction false} HoldsCountOpenHolds(worlds: seq<World>, steps: seq<Step>, ttl: real, n: nat)
    requires IsRun(worlds, steps, ttl) && n < |worlds|
    ensures worlds[n].holds == |worlds[n].open|
  {
    if n > 0 {
      HoldsCountOpenHolds(worlds, steps, ttl, n - 1);
      assert worlds[n] == Do(worlds[n - 1], steps[n - 1], ttl);
      var s, open := steps[n - 1], worlds[n - 1].open;
      if s.Begin? {
        assert open[s.hold := s.owner].Keys == open.Keys + {s.hold};
        CountIsKeys(open);
        CountIsKeys(worlds[n].open);
      } else if s.End? {
        assert (open - {s.hold}).Keys == open.Keys - {s.hold};
        CountIsKeys(open);
        CountIsKeys(worlds[n].open);
      }
    }
  }

  lemma CountIsKeys(m: map<nat, string>)
    ensures |m| == |m.Keys|
  {}

  /** The step gives the current owner a full period, from the returned moment on. */
  function RefreshedBy(w: World, s: Step, ttl: real): Option<real>
    requires Can(w, s)
  {
    match s
    case Grant(owner, force, now) => if Blocked(w.info, owner, force) then None else Some(now)
    case Beat(owner, now) => if w.info.Some? && w.info.value.owner == owner then Some(now) else None
    case End(hold, now) => if w.info.Some? && w.info.value.owner == w.open[hold] then Some(now) else None
    case _ => None
  }

  /** When the owner of world `n` was last refreshed. */
  ghost function LastRefresh(worlds: seq<World>, steps: seq<Step>, ttl: real, n: nat): real
    requires IsRun(worlds, steps, ttl) && n < |worlds|
  {
    if n == 0 then 0.0
    else
      var now := RefreshedBy(worlds[n - 1], steps[n - 1], ttl);
      if now.Some? then now.value else LastRefresh(worlds, steps, ttl, n - 1)
  }

  lemma {:induction false} ExpiryIsLastRefresh(worlds: seq<World>, steps: seq<Step>, ttl: real, n: nat)
    requires IsRun(worlds, steps, ttl) && n < |worlds| && worlds[n].info.Some?
    ensures worlds[n].info.value.expiresAt == LastRefresh(worlds, steps, ttl, n) + ttl
  {
    if n > 0 {
      assert worlds[n] == Do(worlds[n - 1], steps[n - 1], ttl);
      if worlds[n - 1].info.Some? { ExpiryIsLastRefresh(worlds, steps, ttl, n - 1); }
    }
  }

  /** The owner gave the lease up at step `k`. */
  predicate Released(worlds: seq<World>, steps: seq<Step>, k: nat, owner: string)
    requires k < |steps| && k < |worlds|
  {
    steps[k] == Drop(owner) && OwnerOf(worlds[k].info) == owner
  }

  /** The lease lapsed at step `k`: no request was in flight and the clock was past the owner's last
      refresh by more than the period. */
  ghost predicate Lapsed(worlds: seq<World>, steps: seq<Step>, ttl: real, k: nat, owner: string)
    requires IsRun(worlds, steps, ttl) && k < |steps|
  {
    && steps[k].Expire? && OwnerOf(worlds[k].info) == owner
    && worlds[k].open == map[] && steps[k].now > LastRefresh(worlds, steps, ttl, k) + ttl
  }

  /** Another client forced the lease away from `owner` at step `k`. */
  predicate Forced(steps: seq<Step>, k: nat, owner: string)
    requires k < |steps|
  {
    steps[k].Grant? && steps[k].force && steps[k].owner != owner
  }

  /** One step takes the lease away from its owner only by release, lapse or force. */
  lemma OwnerLosesLease(worlds: seq<World>, steps: seq<Step>, ttl: real, k: nat, owner: string)
    requires IsRun(worlds, steps, ttl) && k < |steps| && owner != ""
    requires OwnerOf(worlds[k].info) == owner && OwnerOf(worlds[k + 1].info) != owner
    ensures Released(worlds, steps, k, owner) || Lapsed(worlds, steps, ttl, k, owner) || Forced(steps, k, owner)
  {
    assert worlds[k + 1] == Do(worlds[k], steps[k], ttl);
    ExpiryIsLastRefresh(worlds, steps, ttl, k);
    HoldsCountOpenHolds(worlds, steps, ttl, k);
  }

  /** Whenever the lease has gone from one owner to another, the first one had released it, or it had
      lapsed with no request in flight, or somebody used force. */
  lemma {:induction false} OwnershipPasses(worlds: seq<World>, steps: seq<Step>, ttl: real, i: nat, j: nat, owner: string)
    returns (k: nat)
    requires IsRun(worlds, steps, ttl) && i <= j < |worlds| && owner != ""
    requires OwnerOf(worlds[i].info) == owner && OwnerOf(worlds[j].info) != owner
    ensures i <= k < j
    ensures Released(worlds, steps, k, owner) || Lapsed(worlds, steps, ttl, k, owner) || Forced(steps, k, owner)
    decreases j - i
  {
    if OwnerOf(worlds[i + 1].info) != owner {
      OwnerLosesLease(worlds, steps, ttl, i, owner);
      k := i;
    } else {
      k := OwnershipPasses(worlds, steps, ttl, i + 1, j, owner);
    }
  }

  lemma {:induction false} HoldStaysOpen(worlds: seq<World>, steps: seq<Step>, ttl: real, i: nat, j: nat, hold: nat)
    requires IsRun(worlds, steps, ttl) && i <= j < |worlds| && hold in worlds[i].open
    requires forall k | i <= k < j :: !(steps[k].End? && steps[k].hold == hold)
    ensures hold in worlds[j].open
    decreases j - i
  {
    if i < j {
      assert worlds[i + 1] == Do(worlds[i], steps[i], ttl);
      HoldStaysOpen(worlds, steps, ttl, i + 1, j, hold);
    }
  }

  /** From the step that marks a request as in flight until the one that ends it, the recorded owner
      changes only by its own release or by force, however much time passes. */
  lemma HoldProtectsOwner(worlds: seq<World>, steps: seq<Step>, ttl: real, i: nat, j: nat, hold: nat, owner: string)
    requires IsRun(worlds, steps, ttl) && i < j < |worlds| && owner != ""
    requires steps[i].Begin? && steps[i].hold == hold && OwnerOf(worlds[i].info) == owner
    requires forall k | i < k < j :: !(steps[k].End? && steps[k].hold == hold)
    requires forall k | i < k < j :: !Released(worlds, steps, k, owner) && !Forced(steps, k, owner)
    ensures OwnerOf(worlds[j].info) == owner
  {
    assert worlds[i + 1] == Do(worlds[i], steps[i], ttl);
    if OwnerOf(worlds[j].info) != owner {
      var k := OwnershipPasses(worlds, steps, ttl, i + 1, j, owner);
      HoldStaysOpen(worlds, steps, ttl, i + 1, k, hold);
      assert false;
    }
  }

  /** A client that refreshes in time keeps the lease: as long as every look at the clock comes at
      most one period after its last refresh, only its own release or force can end its ownership. */
  lemma LiveOwnerKeepsLease(worlds: seq<World>, steps: seq<Step>, ttl: real, i: nat, j: nat, owner: string)
    requires IsRun(worlds, steps, ttl) && i <= j < |worlds| && owner != "" && OwnerOf(worlds[i].info) == owner
    requires forall k | i <= k < j && steps[k].Expire? :: steps[k].now <= LastRefresh(worlds, steps, ttl, k) + ttl
    requires forall k | i <= k < j :: !Released(worlds, steps, k, owner) && !Forced(steps, k, owner)
    ensures OwnerOf(worlds[j].info) == owner
  {
    if OwnerOf(worlds[j].info) != owner {
      var k := OwnershipPasses(worlds, steps, ttl, i, j, owner);
      assert false;
    }
  }
}
