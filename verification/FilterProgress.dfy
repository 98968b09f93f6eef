/** What the Cartesian filter does with its limits: each one that trips is used in full, so that a
    limited command still goes as far as it may. */
module FilterProgress {
  import opened Numbers
  import opened Geometry
  import opened Types
  import opened SafetyFilters
  import opened FilterTraces
  import opened InterpolationBounds

  // The box.

  lemma ClampIsNearest(x: real, lo: real, hi: real, w: real)
    requires lo <= w <= hi
    ensures lo <= Clamp(x, lo, hi) <= hi
    ensures Abs(Clamp(x, lo, hi) - x) <= Abs(w - x)
  {}

  /** A target inside the slackened box is not changed by the box; any other one is moved to the nearest
      point of the box itself, coordinate by coordinate. */
  lemma BoxedIsNearest(p: Profile, pos: Vec, w: Vec)
    requires p.box.Contains(w)
    ensures var out := AfterBox(p, pos);
      && (Inflate(p.box).Contains(pos) ==> out == pos)
      && (!Inflate(p.box).Contains(pos) ==>
            && p.box.Contains(out)
            && Abs(out.x - pos.x) <= Abs(w.x - pos.x)
            && Abs(out.y - pos.y) <= Abs(w.y - pos.y)
            && Abs(out.z - pos.z) <= Abs(w.z - pos.z))
  {
    InsideMeansInflated(p.box, pos);
    ClampIsNearest(pos.x, p.box.lo.x, p.box.hi.x, w.x);
    ClampIsNearest(pos.y, p.box.lo.y, p.box.hi.y, w.y);
    ClampIsNearest(pos.z, p.box.lo.z, p.box.hi.z, w.z);
    hide Inflate, AllClose, Clamp, Abs;
  }

  // The angular limits.

  /** A slerp that turns in exact proportion. */
  ghost predicate TurnsInProportion(sp: Space, a: Quat, b: Quat) {
    forall t: real {:trigger sp.slerp(a, b, t)} ::
      0.0 <= t <= 1.0 ==> sp.angle(a, sp.slerp(a, b, t)) == t * sp.angle(a, b)
  }

  lemma TurnTakesLimit(sp: Space, ref: Quat, quat: Quat, limit: real)
    requires TurnsInProportion(sp, ref, quat) && TINY <= limit < sp.angle(ref, quat)
    ensures sp.angle(ref, sp.slerp(ref, quat, Share(limit, sp.angle(ref, quat)))) == limit
  {
    hide Share;
    ShareBounds(limit, sp.angle(ref, quat));
  }

  /** An accepted command turns as far as the target asks, or by the smaller of the two angular caps. */
  lemma TurnUsesCaps(sp: Space, p: Profile, dt: real, m: Memory, target: Pose, s: RobotState, cap: Wrench, limit: real)
    requires dt >= TINY && TINY <= p.maxJumpAngular && TINY <= limit == p.maxAngularSpeed * dt
    requires Filter(sp, p, dt, m, target, s, cap).1.Passed?
    requires TurnsInProportion(sp, Reference(m, s).quat, target.quat)
    requires TurnsInProportion(sp, Reference(m, s).quat, AfterTurnJump(sp, p, Reference(m, s).quat, target.quat))
    ensures var (v, ref) := (Filter(sp, p, dt, m, target, s, cap).1, Reference(m, s).quat);
      var turn := sp.angle(ref, target.quat);
      && sp.angle(ref, v.pose.quat) == Min(turn, Min(p.maxJumpAngular, limit))
      && (turn <= Min(p.maxJumpAngular, limit) ==> v.pose.quat == target.quat)
  {
    QuatOfFilter(sp, p, dt, m, target, s, cap);
    hide Filter, TurnsInProportion, AfterTurnJump, AfterTurnSpeed;
    var ref := Reference(m, s).quat;
    TurnJumpExact(sp, p, ref, target.quat);
    TurnSpeedExact(sp, p, dt, ref, AfterTurnJump(sp, p, ref, target.quat), limit);
  }

  lemma TurnJumpExact(sp: Space, p: Profile, ref: Quat, quat: Quat)
    requires TINY <= p.maxJumpAngular && TurnsInProportion(sp, ref, quat)
    ensures var out := AfterTurnJump(sp, p, ref, quat);
      && sp.angle(ref, out) == Min(sp.angle(ref, quat), p.maxJumpAngular)
      && (sp.angle(ref, quat) <= p.maxJumpAngular ==> out == quat)
  {
    hide Share, TurnsInProportion;
    if sp.angle(ref, quat) > p.maxJumpAngular { TurnTakesLimit(sp, ref, quat, p.maxJumpAngular); }
  }

  lemma TurnSpeedExact(sp: Space, p: Profile, dt: real, ref: Quat, quat: Quat, limit: real)
    requires dt >= TINY && TINY <= limit == p.maxAngularSpeed * dt && TurnsInProportion(sp, ref, quat)
    ensures var out := AfterTurnSpeed(sp, p, dt, ref, quat);
      && sp.angle(ref, out) == Min(sp.angle(ref, quat), limit)
      && (sp.angle(ref, quat) <= limit ==> out == quat)
  {
    TurnRate(sp.angle(ref, quat), dt, p.maxAngularSpeed);
    hide Share, TurnsInProportion, Rate, PerTick;
    if sp.angle(ref, quat) > limit { TurnTakesLimit(sp, ref, quat, limit); }
  }

  lemma QuatOfFilter(sp: Space, p: Profile, dt: real, m: Memory, target: Pose, s: RobotState, cap: Wrench)
    requires Filter(sp, p, dt, m, target, s, cap).1.Passed?
    ensures var ref := Reference(m, s).quat;
      Filter(sp, p, dt, m, target, s, cap).1.pose.quat
      == AfterTurnSpeed(sp, p, dt, ref, AfterTurnJump(sp, p, ref, target.quat))
  {
    hide AfterBox, AfterJump, AfterSpeed, AfterAccel, AccelTrips, Exceeds, AllClose, Rate, AfterTurnJump, AfterTurnSpeed;
  }

  lemma TurnRate(step: real, dt: real, speed: real)
    requires dt >= TINY && TINY <= speed * dt
    ensures Rate(step, dt) <= speed <==> step <= speed * dt
    ensures PerTick(speed, dt) == speed * dt
  {
    if speed < 0.0 { Cross(speed, 0.0, 0.0, dt); }
    RateBound(step, dt, speed);
  }

  // The acceleration cap.

  /** The velocity changes by exactly the cap, or all the way to the requested one, and always straight
      towards it; the position follows the velocity. */
  lemma AccelUsesCap(norm: Vec -> real, p: Profile, dt: real, last: Vec, ref: Vec, x: Vec)
    requires IsNorm(norm) && dt >= TINY && p.maxLinearAccel.Some? && TINY <= p.maxLinearAccel.value * dt
    ensures var want := x.Sub(ref).Scale(1.0 / dt);
      var (pos, v) := AfterAccel(norm, p, dt, last, ref, x);
      && norm(v.Sub(last)) == Min(norm(want.Sub(last)), p.maxLinearAccel.value * dt)
      && norm(want.Sub(v)) == norm(want.Sub(last)) - norm(v.Sub(last))
      && (norm(want.Sub(last)) <= p.maxLinearAccel.value * dt ==> v == want)
      && pos == ref.Add(v.Scale(dt))
  {
    var want, limit := Velocity(dt, ref, x), PerTick(p.maxLinearAccel.value, dt);
    assert want == x.Sub(ref).Scale(1.0 / dt);
    ZeroNorm(norm);
    SelfSub(want);
    VelocityOfStep(norm, dt, ref, x, 0.0);
    hide IsNorm, Velocity, Toward, Vec.Sub, Vec.Add, Vec.Scale, Share, Rate;
    var change := norm(want.Sub(last));
    if change > limit {
      ShareBounds(limit, change);
      TowardDistance(norm, last, want, Share(limit, change));
      LessShare(Share(limit, change), change);
    }
  }

  lemma SelfSub(v: Vec)
    ensures v.Sub(v) == ORIGIN
  {}

  lemma LessShare(s: real, d: real)
    ensures (1.0 - s) * d == d - s * d
  {}

  /** The velocity remembered by an accepted command is the one that takes the reference to it, with the
      acceleration cap on or off. */
  lemma VelocityIsRemembered(sp: Space, p: Profile, dt: real, m: Memory, c: Call)
    requires IsNorm(sp.norm) && dt >= TINY && Filter(sp, p, dt, m, c.target, c.s, c.cap).1.Passed?
    ensures var (m', v) := Filter(sp, p, dt, m, c.target, c.s, c.cap);
      && m'.velocity.Some? && m'.q == m.q && m'.pose == Some(v.pose)
      && v.pose.pos == Reference(m, c.s).pos.Add(m'.velocity.value.Scale(dt))
  {
    var ref := Reference(m, c.s).pos;
    var x := AfterSpeed(sp.norm, p, dt, ref, AfterJump(sp.norm, p, ref, AfterBox(p, c.target.pos)));
    VelocityOfStep(sp.norm, dt, ref, x, 0.0);
    hide IsNorm, AfterBox, AfterSpeed, AfterJump, AfterTurnSpeed, AfterTurnJump, PerTick, Rate, Exceeds, AllClose,
      Box.Clip, Vec.Sub, Vec.Add, Vec.Scale, Toward, Velocity, Share, AccelTrips;
  }

  /** Every call of the run asks for the velocity `u`: a target inside the box, one step at `u` away from the
      last command, within the step cap, under a tolerable wrench. */
  ghost predicate AsksFor(sp: Space, p: Profile, dt: real, m: Memory, calls: seq<Call>, u: Vec) {
    forall k | 0 <= k < |calls| ::
      && After(sp, p, dt, m, calls, k).pose.Some?
      && calls[k].target.pos == After(sp, p, dt, m, calls, k).pose.value.pos.Add(u.Scale(dt))
      && Inflate(p.box).Contains(calls[k].target.pos)
      && Within(calls[k].s.wrench, calls[k].cap)
  }

  lemma StagesPass(norm: Vec -> real, p: Profile, dt: real, ref: Vec, x: Vec)
    requires SaneCaps(p) && norm(x.Sub(ref)) <= StepCap(p, dt)
    ensures AfterSpeed(norm, p, dt, ref, AfterJump(norm, p, ref, x)) == x
  {
    hide Rate, PerTick, Toward, Share;
    RateBound(norm(x.Sub(ref)), dt, p.maxLinearSpeed);
  }

  lemma StepOf(norm: Vec -> real, ref: Vec, u: Vec, dt: real)
    requires IsNorm(norm) && 0.0 <= dt
    ensures norm(ref.Add(u.Scale(dt)).Sub(ref)) == dt * norm(u)
  {
    hide IsNorm;
    assert ref.Add(u.Scale(dt)).Sub(ref) == u.Scale(dt);
    Scaled(norm, dt, u);
  }

  /** One call that asks for `u`. */
  lemma Accelerate(sp: Space, p: Profile, dt: real, m: Memory, c: Call, u: Vec)
    requires IsNorm(sp.norm) && SaneCaps(p) && dt >= TINY && dt * sp.norm(u) <= StepCap(p, dt)
    requires p.maxLinearAccel.Some? && TINY <= p.maxLinearAccel.value * dt
    requires m.pose.Some? && m.velocity.Some? && c.target.pos == m.pose.value.pos.Add(u.Scale(dt))
    requires Inflate(p.box).Contains(c.target.pos) && Within(c.s.wrench, c.cap)
    ensures var m' := Filter(sp, p, dt, m, c.target, c.s, c.cap).0;
      var (gap, step) := (sp.norm(u.Sub(m.velocity.value)), p.maxLinearAccel.value * dt);
      && m'.pose.Some? && m'.velocity.Some?
      && sp.norm(m'.velocity.value.Sub(m.velocity.value)) == Min(gap, step)
      && sp.norm(u.Sub(m'.velocity.value)) == gap - Min(gap, step)
      && (gap <= step ==> m'.velocity.value == u)
  {
    WithinMeans(c.s.wrench, c.cap);
    InsideMeansInflated(p.box, c.target.pos);
    BoxedIsInflated(p, c.target.pos);
    StepOf(sp.norm, m.pose.value.pos, u, dt);
    StepOfVelocity(dt, m.pose.value.pos, u);
    StagesPass(sp.norm, p, dt, m.pose.value.pos, c.target.pos);
    AccelUsesCap(sp.norm, p, dt, m.velocity.value, m.pose.value.pos, c.target.pos);
    assert c.target.pos.Sub(m.pose.value.pos).Scale(1.0 / dt) == Velocity(dt, m.pose.value.pos, c.target.pos);
    hide IsNorm, AfterBox, AfterAccel, AfterSpeed, AfterJump, AfterTurnSpeed, AfterTurnJump, StepCap, PerTick, Rate,
      Exceeds, AllClose, Box.Clip, Vec.Sub, Vec.Add, Vec.Scale, Toward, Velocity, AccelTrips, SaneCaps, Inflate, Within;
  }

  /** The inductive form: what is left of the way to `u` shrinks by one step of the cap per call, and the
      speed is what is no longer left. */
  lemma {:induction false} SpeedLeft(sp: Space, p: Profile, dt: real, m: Memory, calls: seq<Call>, u: Vec, step: real,
                                     k: nat)
    requires IsNorm(sp.norm) && SaneCaps(p) && dt >= TINY && dt * sp.norm(u) <= StepCap(p, dt)
    requires p.maxLinearAccel.Some? && TINY <= step == p.maxLinearAccel.value * dt
    requires m.pose.Some? && m.velocity == Some(ORIGIN) && AsksFor(sp, p, dt, m, calls, u) && k <= |calls|
    ensures var now := After(sp, p, dt, m, calls, k);
      && now.pose.Some? && now.velocity.Some?
      && sp.norm(u.Sub(now.velocity.value)) == Left(sp.norm(u), step, k)
      && sp.norm(now.velocity.value) == sp.norm(u) - Left(sp.norm(u), step, k)
  {
    hide IsNorm, Filter, StepCap, SaneCaps, Within, Inflate, Left, Vec.Sub, Vec.Add, Vec.Scale;
    NormNonNeg(sp.norm, u);
    if k == 0 {
      FromRest(u);
      ZeroNorm(sp.norm);
      LeftAtStart(sp.norm(u), step);
    } else {
      var was := After(sp, p, dt, m, calls, k - 1);
      SpeedLeft(sp, p, dt, m, calls, u, step, k - 1);
      Accelerate(sp, p, dt, was, calls[k - 1], u);
      var now := After(sp, p, dt, m, calls, k);
      hide AsksFor;
      SpeedBetween(sp.norm, u, was.velocity.value, now.velocity.value);
      LeftNext(sp.norm(u), step, k - 1);
    }
  }

  /** From rest, under a constant requested velocity `u`, the commanded velocity is `k` steps of the
      acceleration cap nearer to it after `k` calls, and its speed is min(k * accel * dt, |u|). */
  lemma SpeedGrowsByTheCap(sp: Space, p: Profile, dt: real, m: Memory, calls: seq<Call>, u: Vec, step: real, k: nat)
    requires IsNorm(sp.norm) && SaneCaps(p) && dt >= TINY && dt * sp.norm(u) <= StepCap(p, dt)
    requires p.maxLinearAccel.Some? && TINY <= step == p.maxLinearAccel.value * dt
    requires m.pose.Some? && m.velocity == Some(ORIGIN) && AsksFor(sp, p, dt, m, calls, u) && k <= |calls|
    ensures var now := After(sp, p, dt, m, calls, k);
      && now.velocity.Some?
      && sp.norm(u.Sub(now.velocity.value)) == Max(0.0, sp.norm(u) - k as real * step)
      && sp.norm(now.velocity.value) == Min(k as real * step, sp.norm(u))
  {
    SpeedLeft(sp, p, dt, m, calls, u, step, k);
    hide IsNorm, After, StepCap, SaneCaps, AsksFor, Vec.Sub, Vec.Scale;
    LeftMeans(sp.norm(u), step, k);
    hide Left;
  }

  lemma LeftMeans(d: real, step: real, k: nat)
    ensures Left(d, step, k) == Max(0.0, d - k as real * step)
    ensures d - Left(d, step, k) == Min(k as real * step, d)
  {}

  lemma FromRest(u: Vec)
    ensures u.Sub(ORIGIN) == u
  {}

  lemma SpeedBetween(norm: Vec -> real, u: Vec, was: Vec, now: Vec)
    requires IsNorm(norm)
    ensures norm(u) - norm(u.Sub(now)) <= norm(now) <= norm(was) + norm(now.Sub(was))
  {
    hide IsNorm;
    assert u == now.Add(u.Sub(now)) && now == was.Add(now.Sub(was));
    hide Vec.Sub, Vec.Add;
    Triangle(norm, now, u.Sub(now));
    Triangle(norm, was, now.Sub(was));
  }
}
