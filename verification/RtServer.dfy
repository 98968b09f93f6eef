/** The 1 kHz daemon: the double-buffered mailbox, the in-place clamp and the real-time loop, and
    why the clamp is the Python filter's position output. */
module RtServer {
  import opened Numbers
  import opened Geometry
  import opened Types
  import opened SafetyFilters
  import opened FilterTraces
  import opened FilterProgress

  /** Position, then the orientation quaternion. */
  type Pose7 = p: seq<real> | |p| == 7 witness [0.45, 0.0, 0.30, 1.0, 0.0, 0.0, 0.0]

  datatype SetPoint = SetPoint(pose: Pose7, wrench: Wrench, gripperWidth: real, gripperForce: real)

  const DEFAULT := SetPoint([0.45, 0.0, 0.30, 1.0, 0.0, 0.0, 0.0], [0.0, 0.0, 0.0, 0.0, 0.0, 0.0], -1.0, 20.0)

  const STALE_MS := 100.0

  function Position(p: seq<real>): Vec
    requires |p| == 7
  {
    Vec(p[0], p[1], p[2])
  }

  /** The handoff: the producer fills the back buffer, then flips the index. */
  class SetPointMailbox {
    const buf: array<SetPoint>
    var front: int
    var stampNs: int
    ghost var latest: SetPoint

    ghost predicate Valid()
      reads this, buf
    {
      buf.Length == 2 && 0 <= front < 2 && buf[front] == latest
    }

    constructor ()
      ensures Valid() && fresh(buf) && latest == DEFAULT && stampNs == 0
    {
      var b := new SetPoint[2](_ => DEFAULT);
      buf := b;
      front, stampNs, latest := 0, 0, DEFAULT;
      new;
      assert buf[front] == DEFAULT;
    }

    method Publish(sp: SetPoint, nowNs: int)
      requires Valid()
      modifies this, buf
      ensures Valid() && latest == sp && stampNs == nowNs
      ensures buf[1 - front] == old(latest)
    {
      buf[1 - front] := sp;
      front := 1 - front;
      stampNs := nowNs;
      latest := sp;
    }

    /** Without the lock the caller keeps what it has. */
    method TryRead(gotLock: bool, was: SetPoint) returns (ok: bool, out: SetPoint)
      requires Valid()
      ensures ok == gotLock && out == if gotLock then latest else was
    {
      if !gotLock {
        return false, was;
      }
      return true, buf[front];
    }

    method AgeMs(nowNs: int) returns (age: real)
      ensures age == (nowNs - stampNs) as real / 1000000.0
    {
      age := (nowNs - stampNs) as real / 1000000.0;
    }
  }

  /** Clip into the box, then limit the step from the previous command. */
  function Clamped(norm: Vec -> real, box: Box, cap: real, prev: Vec, pos: Vec): Vec {
    var x := box.Clip(pos);
    var step := norm(x.Sub(prev));
    if step > cap && step > TINY then Toward(prev, x, cap / step) else x
  }

  class SafetyBox {
    const norm: Vec -> real
    const box: Box
    const maxLinearSpeed: real

    constructor (norm: Vec -> real, box: Box, maxLinearSpeed: real)
      ensures this.norm == norm && this.box == box && this.maxLinearSpeed == maxLinearSpeed
    {
      this.norm, this.box, this.maxLinearSpeed := norm, box, maxLinearSpeed;
    }

    /** Edits the position of `pose` in place; the orientation passes through. */
    method ClampInto(pose: array<real>, prev: array<real>, dt: real)
      requires pose.Length == 7 && prev.Length == 7 && pose != prev
      modifies pose
      ensures Position(pose[..])
           == Clamped(norm, box, PerTick(maxLinearSpeed, dt), Position(prev[..]), Position(old(pose[..])))
      ensures pose[3..] == old(pose[3..])
    {
      pose[0] := Min(Max(pose[0], box.lo.x), box.hi.x);
      pose[1] := Min(Max(pose[1], box.lo.y), box.hi.y);
      pose[2] := Min(Max(pose[2], box.lo.z), box.hi.z);
      var dx, dy, dz := pose[0] - prev[0], pose[1] - prev[1], pose[2] - prev[2];
      var step := norm(Vec(dx, dy, dz));
      var cap := PerTick(maxLinearSpeed, dt);
      if step > cap && step > TINY {
        var s := cap / step;
        pose[0] := prev[0] + s * dx;
        pose[1] := prev[1] + s * dy;
        pose[2] := prev[2] + s * dz;
      }
    }
  }

  // The clamp refines the Python filter.

  /** `np.allclose` makes no difference for this target: it is inside, or not even close. */
  predicate Clearly(box: Box, pos: Vec) { box.Clip(pos) == pos || !AllClose(box.Clip(pos), pos) }

  lemma LimitsCoincide(norm: Vec -> real, p: Profile, dt: real, ref: Vec, x: Vec)
    requires IsNorm(norm) && SaneCaps(p) && dt >= TINY
    requires TINY <= PerTick(p.maxLinearSpeed, dt) <= p.maxJumpLinear
    ensures var step := norm(x.Sub(ref));
      AfterSpeed(norm, p, dt, ref, AfterJump(norm, p, ref, x))
      == if step > PerTick(p.maxLinearSpeed, dt) then Toward(ref, x, PerTick(p.maxLinearSpeed, dt) / step) else x
  {
    hide IsNorm, Kept, AfterSpeed, AfterJump, Toward, Rate, PerTick, Vec.Sub;
    var step, cap, k := norm(x.Sub(ref)), PerTick(p.maxLinearSpeed, dt), Kept(norm, p, dt, ref, x);
    assert StepCap(p, dt) == cap;
    LinearStages(norm, p, dt, ref, x);
    TowardDistance(norm, ref, x, k);
    NormNonNeg(norm, x.Sub(ref));
    TowardEnds(ref, x);
    if step > cap {
      Quotient(k, step, cap);
    } else if step > 0.0 {
      WholeWay(k, step, norm(Toward(ref, x, k).Sub(ref)));
    } else {
      SamePoint(norm, x, ref);
      TowardSelf(ref, k);
    }
  }

  lemma Quotient(k: real, step: real, cap: real)
    requires k * step == cap && 0.0 < step
    ensures k == cap / step
  {
    DivAtMost(cap, k, step);
    DivAtLeast(cap, k, step);
  }

  lemma WholeWay(k: real, step: real, d: real)
    requires d == k * step && d == step && 0.0 < step
    ensures k == 1.0
  {
    Quotient(k, step, step);
    assert step / step == 1.0;
  }

  lemma TowardSelf(a: Vec, k: real)
    ensures Toward(a, a, k) == a
  {}

  /** With a speed cap that binds before the jump cap and lies above the guard value, and no
      acceleration cap, the daemon commands exactly the position the Python filter would. */
  lemma ClampIsTheFilter(sp: Space, p: Profile, dt: real, m: Memory, target: Pose, s: RobotState, cap: Wrench)
    requires IsNorm(sp.norm) && SaneCaps(p) && dt >= TINY && p.maxLinearAccel == None
    requires TINY <= PerTick(p.maxLinearSpeed, dt) <= p.maxJumpLinear
    requires m.pose.Some? && !p.rejectOutside && Within(s.wrench, cap) && Clearly(p.box, target.pos)
    ensures var v := Filter(sp, p, dt, m, target, s, cap).1;
      v.Passed? && v.pose.pos == Clamped(sp.norm, p.box, PerTick(p.maxLinearSpeed, dt), m.pose.value.pos, target.pos)
  {
    WithinMeans(s.wrench, cap);
    hide IsNorm, AfterSpeed, AfterJump, Toward, Rate, PerTick, Vec.Sub, Exceeds, AllClose, Box.Clip, AfterTurnJump,
      AfterTurnSpeed;
    LimitsCoincide(sp.norm, p, dt, m.pose.value.pos, p.box.Clip(target.pos));
  }

  /** A position after the limit on the step. */
  function Limited(norm: Vec -> real, cap: real, ref: Vec, x: Vec): Vec
    requires 0.0 < cap
  {
    var step := norm(x.Sub(ref));
    if step > cap then Toward(ref, x, cap / step) else x
  }

  /** Both lie at least a step cap away from the reference, in the same direction. */
  predicate SameWayBeyond(norm: Vec -> real, cap: real, ref: Vec, a: Vec, b: Vec) {
    var (na, nb) := (norm(a.Sub(ref)), norm(b.Sub(ref)));
    cap <= na && cap <= nb && a.Sub(ref).Scale(nb) == b.Sub(ref).Scale(na)
  }

  lemma Cancel(c: real, x: real, y: real)
    requires 0.0 < c && c * x == c * y
    ensures x == y
  {
    if x < y { MulStep(c, x, y); }
    if y < x { MulStep(c, y, x); }
  }

  lemma MulStep(c: real, x: real, y: real)
    requires 0.0 < c && x < y
    ensures c * x < c * y
  {
    CrossStrict(0.0, c, x, y);
  }

  lemma Reorder(a: real, b: real, c: real, u: real)
    ensures c * b * (a * u) == a * c * (b * u)
  {}

  lemma Ratios(u: real, v: real, na: real, nb: real, ka: real, kb: real, cap: real)
    requires 0.0 < cap && 0.0 < na && 0.0 < nb && ka * na == cap && kb * nb == cap
    ensures ka * u == kb * v <==> nb * u == na * v
  {
    var n := na * nb;
    CrossStrict(0.0, na, 0.0, nb);
    Reorder(ka, nb, na, u);
    Reorder(kb, na, nb, v);
    assert na * nb * (ka * u) == cap * (nb * u);
    assert nb * na * (kb * v) == cap * (na * v);
    if ka * u == kb * v {
      Cancel(cap, nb * u, na * v);
    }
    if nb * u == na * v {
      assert n * (ka * u) == n * (kb * v);
      Cancel(n, ka * u, kb * v);
    }
  }

  /** The limit maps two positions to the same one only if it cuts both to the same point. */
  lemma LimitedEqual(norm: Vec -> real, cap: real, ref: Vec, a: Vec, b: Vec)
    requires IsNorm(norm) && 0.0 < cap
    ensures Limited(norm, cap, ref, a) == Limited(norm, cap, ref, b) <==> a == b || SameWayBeyond(norm, cap, ref, a, b)
  {
    hide IsNorm, Toward, Vec.Sub, Vec.Scale, Limited;
    var (na, nb) := (norm(a.Sub(ref)), norm(b.Sub(ref)));
    LimitedLength(norm, cap, ref, a);
    LimitedLength(norm, cap, ref, b);
    if cap <= na && cap <= nb {
      AtLeastCap(norm, cap, ref, a);
      AtLeastCap(norm, cap, ref, b);
      DivMul(cap, na);
      DivMul(cap, nb);
      SamePlace(ref, a, b, na, nb, cap / na, cap / nb, cap);
      if a == b { assert a.Sub(ref).Scale(nb) == b.Sub(ref).Scale(na); }
    } else {
      BelowCap(norm, cap, ref, a);
      BelowCap(norm, cap, ref, b);
    }
  }

  lemma BelowCap(norm: Vec -> real, cap: real, ref: Vec, x: Vec)
    requires 0.0 < cap
    ensures norm(x.Sub(ref)) < cap ==> Limited(norm, cap, ref, x) == x
  {}

  // The coordinates of `Toward` and of a scaled difference.

  function Along(r: real, k: real, x: real): real { r + k * (x - r) }

  function Times(n: real, x: real, r: real): real { n * (x - r) }

  lemma SameAxis(r: real, x: real, y: real, na: real, nb: real, ka: real, kb: real, cap: real)
    requires 0.0 < cap && 0.0 < na && 0.0 < nb && ka * na == cap && kb * nb == cap
    ensures Along(r, ka, x) == Along(r, kb, y) <==> Times(nb, x, r) == Times(na, y, r)
  {
    Ratios(x - r, y - r, na, nb, ka, kb, cap);
  }

  lemma Coordinates(ref: Vec, a: Vec, k: real)
    ensures Toward(ref, a, k) == Vec(Along(ref.x, k, a.x), Along(ref.y, k, a.y), Along(ref.z, k, a.z))
    ensures a.Sub(ref).Scale(k) == Vec(Times(k, a.x, ref.x), Times(k, a.y, ref.y), Times(k, a.z, ref.z))
  {}

  lemma SamePlace(ref: Vec, a: Vec, b: Vec, na: real, nb: real, ka: real, kb: real, cap: real)
    requires 0.0 < cap && 0.0 < na && 0.0 < nb && ka * na == cap && kb * nb == cap
    ensures Toward(ref, a, ka) == Toward(ref, b, kb) <==> a.Sub(ref).Scale(nb) == b.Sub(ref).Scale(na)
  {
    hide Toward, Vec.Sub, Vec.Scale, Along, Times;
    Coordinates(ref, a, ka);
    Coordinates(ref, b, kb);
    Coordinates(ref, a, nb);
    Coordinates(ref, b, na);
    SameAxis(ref.x, a.x, b.x, na, nb, ka, kb, cap);
    SameAxis(ref.y, a.y, b.y, na, nb, ka, kb, cap);
    SameAxis(ref.z, a.z, b.z, na, nb, ka, kb, cap);
  }

  lemma LimitedLength(norm: Vec -> real, cap: real, ref: Vec, x: Vec)
    requires IsNorm(norm) && 0.0 < cap
    ensures norm(Limited(norm, cap, ref, x).Sub(ref)) == Min(norm(x.Sub(ref)), cap)
  {
    hide IsNorm, Toward, Vec.Sub;
    var step := norm(x.Sub(ref));
    if step > cap {
      DivUnit(cap, step);
      TowardDistance(norm, ref, x, cap / step);
      DivMul(cap, step);
    }
  }

  lemma AtLeastCap(norm: Vec -> real, cap: real, ref: Vec, x: Vec)
    requires 0.0 < cap <= norm(x.Sub(ref))
    ensures Limited(norm, cap, ref, x) == Toward(ref, x, cap / norm(x.Sub(ref)))
  {
    if cap == norm(x.Sub(ref)) { TowardEnds(ref, x); }
  }

  /** Without that condition daemon and filter agree exactly when both cut the step short and to the
      same point: the filter lets a target just outside the box through, and the daemon clips it. */
  lemma SlackMakesTheDifference(sp: Space, p: Profile, dt: real, m: Memory, target: Pose, s: RobotState, cap: Wrench)
    requires IsNorm(sp.norm) && SaneCaps(p) && dt >= TINY && p.maxLinearAccel == None
    requires TINY <= PerTick(p.maxLinearSpeed, dt) <= p.maxJumpLinear
    requires m.pose.Some? && !p.rejectOutside && Within(s.wrench, cap)
    ensures var v := Filter(sp, p, dt, m, target, s, cap).1;
      var (ref, reach) := (m.pose.value.pos, PerTick(p.maxLinearSpeed, dt));
      && v.Passed?
      && (v.pose.pos == Clamped(sp.norm, p.box, reach, ref, target.pos) <==>
            Clearly(p.box, target.pos) || SameWayBeyond(sp.norm, reach, ref, target.pos, p.box.Clip(target.pos)))
  {
    WithinMeans(s.wrench, cap);
    hide IsNorm, AfterSpeed, AfterJump, Toward, Rate, PerTick, Vec.Sub, Exceeds, AllClose, Box.Clip, AfterTurnJump,
      AfterTurnSpeed, SameWayBeyond;
    var (ref, reach) := (m.pose.value.pos, PerTick(p.maxLinearSpeed, dt));
    LimitsCoincide(sp.norm, p, dt, ref, target.pos);
    LimitsCoincide(sp.norm, p, dt, ref, p.box.Clip(target.pos));
    LimitedEqual(sp.norm, reach, ref, target.pos, p.box.Clip(target.pos));
  }

  // The real-time loop.

  /** What one tick finds: whether it got the mailbox's lock, what is published, and its age. */
  datatype Glance = Glance(gotLock: bool, latest: SetPoint, ageMs: real)

  datatype LoopState = LoopState(current: SetPoint, last: Pose7)

  function Tick(box: SafetyBox, dt: real, st: LoopState, g: Glance): LoopState {
    var current := if g.gotLock then g.latest else st.current;
    var target := if g.ageMs > STALE_MS then st.last else current.pose;
    var pos := Clamped(box.norm, box.box, PerTick(box.maxLinearSpeed, dt), Position(st.last), Position(target));
    LoopState(current, [pos.x, pos.y, pos.z] + target[3..])
  }

  function Feed(st: LoopState, g: Glance): Wrench {
    if g.ageMs > STALE_MS then [0.0, 0.0, 0.0, 0.0, 0.0, 0.0]
    else if g.gotLock then g.latest.wrench else st.current.wrench
  }

  class RtLoop {
    const safety: SafetyBox
    const dt: real
    const lastCmd: array<real>
    var current: SetPoint
    var streamed: seq<(Pose7, Wrench)>

    ghost predicate Valid()
      reads this
    {
      lastCmd.Length == 7
    }

    ghost function Now(): LoopState
      reads this, lastCmd
      requires Valid()
    {
      LoopState(current, lastCmd[..])
    }

    /** The loop starts from what the mailbox holds when the network thread is already running: the
        measured seed, a client's first pose, or, without the lock, the default one. */
    constructor (safety: SafetyBox, dt: real, mailbox: SetPointMailbox, gotLock: bool)
      requires mailbox.Valid()
      ensures Valid() && fresh(lastCmd) && this.safety == safety && this.dt == dt
      ensures var first := if gotLock then mailbox.latest else DEFAULT;
        Now() == LoopState(first, first.pose) && streamed == []
    {
      var ok, first := mailbox.TryRead(gotLock, DEFAULT);
      var pose: seq<real> := first.pose;
      var copy := new real[7](i requires 0 <= i < 7 => pose[i]);
      this.safety, this.dt, lastCmd, current, streamed := safety, dt, copy, first, [];
      new;
      assert lastCmd[..] == pose;
    }

    method Run(mailbox: SetPointMailbox, gotLock: bool, nowNs: int)
      requires Valid() && mailbox.Valid()
      modifies this`current, this`streamed, lastCmd
      ensures Valid()
      ensures var g := Glance(gotLock, mailbox.latest, (nowNs - mailbox.stampNs) as real / 1000000.0);
        && Now() == Tick(safety, dt, old(Now()), g)
        && streamed == old(streamed) + [(Now().last, Feed(old(Now()), g))]
    {
      hide Clamped, Position;
      ghost var was, g := Now(), Glance(gotLock, mailbox.latest, (nowNs - mailbox.stampNs) as real / 1000000.0);
      var ok, sp := mailbox.TryRead(gotLock, current);
      if ok {
        current := sp;
      }
      var age := mailbox.AgeMs(nowNs);
      var stale := age > STALE_MS;
      var target := new real[7];
      for i := 0 to 7
        invariant forall j | 0 <= j < i :: target[j] == if stale then lastCmd[j] else current.pose[j]
        modifies target
      {
        target[i] := if stale then lastCmd[i] else current.pose[i];
      }
      ghost var wanted: Pose7 := if stale then lastCmd[..] else current.pose;
      assert target[..] == wanted;
      safety.ClampInto(target, lastCmd, dt);
      Assembled(target[..], wanted);
      assert lastCmd[..] == was.last;
      assert target[..] == Tick(safety, dt, was, g).last;
      var ff: Wrench := if stale then [0.0, 0.0, 0.0, 0.0, 0.0, 0.0] else current.wrench;
      streamed := streamed + [(target[..], ff)];
      for i := 0 to 7
        invariant forall j | 0 <= j < i :: lastCmd[j] == target[j]
        modifies lastCmd
      {
        lastCmd[i] := target[i];
      }
      assert lastCmd[..] == target[..];
    }
  }

  lemma Assembled(p: seq<real>, wanted: seq<real>)
    requires |p| == 7 && |wanted| == 7 && p[3..] == wanted[3..]
    ensures p == [Position(p).x, Position(p).y, Position(p).z] + wanted[3..]
  {
    assert forall i | 3 <= i < 7 :: p[i] == p[3..][i - 3] && wanted[i] == wanted[3..][i - 3];
  }

  // Every run.

  function RunLoop(box: SafetyBox, dt: real, st: LoopState, glances: seq<Glance>, n: nat): LoopState
    requires n <= |glances|
  {
    if n == 0 then st else Tick(box, dt, RunLoop(box, dt, st, glances, n - 1), glances[n - 1])
  }

  ghost predicate SaneBox(box: SafetyBox, dt: real) {
    && IsNorm(box.norm) && 0.0 <= PerTick(box.maxLinearSpeed, dt)
    && box.box.lo.x <= box.box.hi.x && box.box.lo.y <= box.box.hi.y && box.box.lo.z <= box.box.hi.z
  }

  lemma ClipIsInside(b: Box, v: Vec)
    requires b.lo.x <= b.hi.x && b.lo.y <= b.hi.y && b.lo.z <= b.hi.z
    ensures b.Contains(b.Clip(v)) && (b.Contains(v) <==> b.Clip(v) == v)
  {}

  lemma ClampedIsSafe(norm: Vec -> real, b: Box, cap: real, prev: Vec, pos: Vec)
    requires IsNorm(norm) && 0.0 <= cap && b.lo.x <= b.hi.x && b.lo.y <= b.hi.y && b.lo.z <= b.hi.z
    requires b.Contains(prev)
    ensures b.Contains(Clamped(norm, b, cap, prev, pos))
    ensures norm(Clamped(norm, b, cap, prev, pos).Sub(prev)) <= Max(cap, TINY)
  {
    hide IsNorm, Toward, Vec.Sub, Box.Clip, Box.Contains;
    var x := b.Clip(pos);
    var step := norm(x.Sub(prev));
    ClipIsInside(b, pos);
    if step > cap && step > TINY {
      DivUnit(cap, step);
      TowardStaysInside(b, prev, x, cap / step);
      TowardDistance(norm, prev, x, cap / step);
      DivMul(cap, step);
    }
  }

  /** A tick on stale commands repeats the last position when that lies in the box, and with a positive
      step cap only then: from outside, the clamp moves even on stale commands. No wrench is fed forward. */
  lemma StaleTickHolds(box: SafetyBox, dt: real, st: LoopState, g: Glance)
    requires SaneBox(box, dt) && g.ageMs > STALE_MS
    ensures box.box.Contains(Position(st.last)) ==> Tick(box, dt, st, g).last == st.last
    ensures 0.0 < PerTick(box.maxLinearSpeed, dt) && Tick(box, dt, st, g).last == st.last ==>
      box.box.Contains(Position(st.last))
    ensures forall j | 0 <= j < 6 :: Feed(st, g)[j] == 0.0
  {
    hide IsNorm, Toward, PerTick, Box.Contains, Box.Clip;
    var prev, cap := Position(st.last), PerTick(box.maxLinearSpeed, dt);
    ClipIsInside(box.box, prev);
    var x := box.box.Clip(prev);
    var step := box.norm(x.Sub(prev));
    SelfDistance(box.norm, prev);
    Assembled(st.last, st.last);
    if step > cap && step > TINY {
      DivAtMost(cap, 0.0, step);
      DivUnit(cap, step);
      TowardDistance(box.norm, prev, x, cap / step);
      DivMul(cap, step);
    }
  }

  lemma SelfDistance(norm: Vec -> real, v: Vec)
    requires IsNorm(norm)
    ensures norm(v.Sub(v)) == 0.0
  {
    ZeroNorm(norm);
    assert v.Sub(v) == ORIGIN;
  }

  /** From a seed in the box every pose the loop streams lies in the box and is at most one step cap
      away from the one before (or the guard value, if that is larger), whatever the clients publish,
      however late, and whoever holds the mailbox's lock; on stale commands it does not move at all. */
  lemma {:induction false} RtRunIsSafe(box: SafetyBox, dt: real, st: LoopState, glances: seq<Glance>, n: nat)
    requires SaneBox(box, dt) && box.box.Contains(Position(st.last)) && n <= |glances|
    ensures var now := RunLoop(box, dt, st, glances, n);
      && box.box.Contains(Position(now.last))
      && (n < |glances| ==>
            var next := RunLoop(box, dt, st, glances, n + 1);
            && box.norm(Position(next.last).Sub(Position(now.last))) <= Max(PerTick(box.maxLinearSpeed, dt), TINY)
            && (glances[n].ageMs > STALE_MS ==> next.last == now.last))
  {
    hide IsNorm, Clamped, PerTick, Box.Contains, Vec.Sub;
    if n > 0 {
      RtRunIsSafe(box, dt, st, glances, n - 1);
      StepIsSafe(box, dt, RunLoop(box, dt, st, glances, n - 1), glances[n - 1]);
    }
    if n < |glances| {
      StepIsSafe(box, dt, RunLoop(box, dt, st, glances, n), glances[n]);
    }
  }

  lemma StepIsSafe(box: SafetyBox, dt: real, st: LoopState, g: Glance)
    requires SaneBox(box, dt) && box.box.Contains(Position(st.last))
    ensures var next := Tick(box, dt, st, g);
      && box.box.Contains(Position(next.last))
      && box.norm(Position(next.last).Sub(Position(st.last))) <= Max(PerTick(box.maxLinearSpeed, dt), TINY)
      && (g.ageMs > STALE_MS ==> next.last == st.last)
  {
    hide IsNorm, Clamped, PerTick, Box.Contains, Vec.Sub;
    var current := if g.gotLock then g.latest else st.current;
    var target := if g.ageMs > STALE_MS then st.last else current.pose;
    ClampedIsSafe(box.norm, box.box, PerTick(box.maxLinearSpeed, dt), Position(st.last), Position(target));
    if g.ageMs > STALE_MS { StaleTickHolds(box, dt, st, g); }
  }

  // Following a client.

  /** The clamp comes nearer to the clipped position by exactly the step cap, or all the way. */
  lemma ClampedApproaches(norm: Vec -> real, b: Box, cap: real, prev: Vec, pos: Vec)
    requires IsNorm(norm) && TINY <= cap
    ensures var (aim, out) := (b.Clip(pos), Clamped(norm, b, cap, prev, pos));
      var gap := norm(aim.Sub(prev));
      && norm(aim.Sub(out)) == gap - Min(gap, cap)
      && (gap <= cap ==> out == aim)
  {
    hide IsNorm, Toward, Vec.Sub, Box.Clip;
    var aim := b.Clip(pos);
    var step := norm(aim.Sub(prev));
    SelfDistance(norm, aim);
    if step > cap && step > TINY {
      DivUnit(cap, step);
      TowardDistance(norm, prev, aim, cap / step);
      DivMul(cap, step);
      Uncovered(cap / step, step);
    }
  }

  lemma Uncovered(s: real, d: real)
    ensures (1.0 - s) * d == d - s * d
  {}

  /** On fresh commands the daemon follows: a published position inside the box and no farther than the
      step cap is streamed exactly, a farther one comes nearer by exactly the step cap, and one outside
      counts as the nearest position of the box. The orientation and the wrench are the published ones. */
  lemma FreshPoseIsFollowed(box: SafetyBox, dt: real, st: LoopState, g: Glance, cap: real, w: Vec)
    requires SaneBox(box, dt) && TINY <= cap == box.maxLinearSpeed * dt && g.ageMs <= 100.0
    requires box.box.Contains(w)
    ensures var (next, seen) := (Tick(box, dt, st, g), if g.gotLock then g.latest else st.current);
      var (from, to, now) := (Position(st.last), Position(seen.pose), Position(next.last));
      var aim := box.box.Clip(to);
      && next.current == seen && next.last[3..] == seen.pose[3..]
      && Feed(st, g) == seen.wrench
      && box.norm(aim.Sub(now)) == box.norm(aim.Sub(from)) - Min(box.norm(aim.Sub(from)), cap)
      && (box.box.Contains(to) ==> aim == to)
      && (box.box.Contains(to) && box.norm(to.Sub(from)) <= cap ==> next.last == seen.pose)
      && box.box.Contains(aim)
      && Abs(aim.x - to.x) <= Abs(w.x - to.x) && Abs(aim.y - to.y) <= Abs(w.y - to.y) && Abs(aim.z - to.z) <= Abs(w.z - to.z)
  {
    var seen := if g.gotLock then g.latest else st.current;
    var to := Position(seen.pose);
    ClampIsNearest(to.x, box.box.lo.x, box.box.hi.x, w.x);
    ClampIsNearest(to.y, box.box.lo.y, box.box.hi.y, w.y);
    ClampIsNearest(to.z, box.box.lo.z, box.box.hi.z, w.z);
    ClipIsInside(box.box, to);
    ClampedApproaches(box.norm, box.box, cap, Position(st.last), to);
    assert PerTick(box.maxLinearSpeed, dt) == cap;
    hide IsNorm, Clamped, PerTick, Box.Contains, Box.Clip, Vec.Sub, Abs;
    Assembled(seen.pose, seen.pose);
  }

  /** Every glance is fresh and finds the pose `p`, if it gets the lock at all; the first one gets it,
      unless the pose was read before. */
  predicate Publishes(st: LoopState, glances: seq<Glance>, p: Pose7) {
    && (forall k | 0 <= k < |glances| :: glances[k].ageMs <= 100.0 && (glances[k].gotLock ==> glances[k].latest.pose == p))
    && (st.current.pose == p || (glances != [] && glances[0].gotLock))
  }

  /** What is left of the way to a constant published pose inside the box, after `n` ticks. */
  lemma {:induction false} GapAfterTicks(box: SafetyBox, dt: real, st: LoopState, glances: seq<Glance>, p: Pose7, cap: real,
                                         n: nat)
    requires SaneBox(box, dt) && TINY <= cap == box.maxLinearSpeed * dt && box.box.Contains(Position(p))
    requires Publishes(st, glances, p) && n <= |glances|
    ensures var now := RunLoop(box, dt, st, glances, n);
      && box.norm(Position(p).Sub(Position(now.last))) == Left(box.norm(Position(p).Sub(Position(st.last))), cap, n)
      && (0 < n ==> now.current.pose == p && now.last[3..] == p[3..])
  {
    var d := box.norm(Position(p).Sub(Position(st.last)));
    NormNonNeg(box.norm, Position(p).Sub(Position(st.last)));
    if n == 0 {
      LeftAtStart(d, cap);
    } else {
      var was, g := RunLoop(box, dt, st, glances, n - 1), glances[n - 1];
      GapAfterTicks(box, dt, st, glances, p, cap, n - 1);
      assert (if g.gotLock then g.latest else was.current).pose == p;
      assert g.ageMs <= 100.0;
      FreshPoseIsFollowed(box, dt, was, g, cap, Position(p));
      hide Tick, Left, IsNorm, Vec.Sub, Box.Contains, Position;
      LeftNext(d, cap, n - 1);
    }
  }

  /** A constant published pose inside the box is reached within ceil(distance / step cap) fresh ticks,
      orientation included, and then held. */
  lemma PublishedPoseIsReached(box: SafetyBox, dt: real, st: LoopState, glances: seq<Glance>, p: Pose7, cap: real)
    requires SaneBox(box, dt) && TINY <= cap == box.maxLinearSpeed * dt && box.box.Contains(Position(p))
    requires Publishes(st, glances, p) && 0 < |glances|
    requires |glances| >= Ceil(box.norm(Position(p).Sub(Position(st.last))) / cap)
    ensures RunLoop(box, dt, st, glances, |glances|).last == p
  {
    hide IsNorm, RunLoop, Vec.Sub;
    var d, n := box.norm(Position(p).Sub(Position(st.last))), |glances|;
    GapAfterTicks(box, dt, st, glances, p, cap, n);
    CeilAtMost(d / cap, n);
    DivAtMost(d, n as real, cap);
    var now := RunLoop(box, dt, st, glances, n).last;
    SamePoint(box.norm, Position(p), Position(now));
    Assembled(now, p);
    Assembled(p, p);
  }
}
