/** What the Cartesian filter guarantees over whole sequences of calls. */
module FilterTraces {
  import opened Numbers
  import opened Geometry
  import opened Types
  import opened SafetyFilters
  import opened InterpolationBounds

  predicate SaneCaps(p: Profile) {
    && 0.0 <= p.maxJumpLinear && 0.0 <= p.maxLinearSpeed
    && p.box.lo.x <= p.box.hi.x && p.box.lo.y <= p.box.hi.y && p.box.lo.z <= p.box.hi.z
  }

  /** The most one accepted command may move. */
  function StepCap(p: Profile, dt: real): real { Min(p.maxJumpLinear, PerTick(p.maxLinearSpeed, Max(dt, TINY))) }

  // The box as `np.allclose` sees it.

  /** The largest coordinate that still counts as close to the upper bound `h`. */
  function Slackened(h: real): real {
    if h + 0.00000001 >= 0.0 then (h + 0.00000001) / 0.99999 else (h + 0.00000001) / 1.00001
  }

  function Inflate(b: Box): Box {
    Box(Vec(-Slackened(-b.lo.x), -Slackened(-b.lo.y), -Slackened(-b.lo.z)),
        Vec(Slackened(b.hi.x), Slackened(b.hi.y), Slackened(b.hi.z)))
  }

  lemma CloseToClamp(x: real, lo: real, hi: real)
    requires lo <= hi
    ensures Close(Clamp(x, lo, hi), x) <==> -Slackened(-lo) <= x <= Slackened(hi)
  {}

  /** A target counts as inside exactly when it lies in the slightly larger box. */
  lemma InsideMeansInflated(b: Box, v: Vec)
    requires b.lo.x <= b.hi.x && b.lo.y <= b.hi.y && b.lo.z <= b.hi.z
    ensures AllClose(b.Clip(v), v) <==> Inflate(b).Contains(v)
    ensures Inflate(b).Contains(b.Clip(v))
  {
    CloseToClamp(v.x, b.lo.x, b.hi.x);
    CloseToClamp(v.y, b.lo.y, b.hi.y);
    CloseToClamp(v.z, b.lo.z, b.hi.z);
  }

  /** How far a coordinate lies outside an interval. */
  function Beyond(x: real, lo: real, hi: real): real { Max(0.0, Max(lo - x, x - hi)) }

  predicate NoFarther(b: Box, v: Vec, w: Vec) {
    && Beyond(v.x, b.lo.x, b.hi.x) <= Beyond(w.x, b.lo.x, b.hi.x)
    && Beyond(v.y, b.lo.y, b.hi.y) <= Beyond(w.y, b.lo.y, b.hi.y)
    && Beyond(v.z, b.lo.z, b.hi.z) <= Beyond(w.z, b.lo.z, b.hi.z)
  }

  lemma BeyondShrinks(a: real, b: real, t: real, w: real, lo: real, hi: real)
    requires 0.0 <= t <= 1.0 && lo <= b <= hi && w == a + t * (b - a)
    ensures Beyond(w, lo, hi) <= Beyond(a, lo, hi)
  {
    BetweenReals(a, b, t, Min(a, lo), Max(a, hi));
  }

  lemma TowardShrinks(box: Box, a: Vec, b: Vec, t: real)
    requires 0.0 <= t <= 1.0 && box.Contains(b)
    ensures NoFarther(box, Toward(a, b, t), a)
  {
    hide Beyond;
    var w := Toward(a, b, t);
    BeyondShrinks(a.x, b.x, t, w.x, box.lo.x, box.hi.x);
    BeyondShrinks(a.y, b.y, t, w.y, box.lo.y, box.hi.y);
    BeyondShrinks(a.z, b.z, t, w.z, box.lo.z, box.hi.z);
  }

  // One limit.

  lemma ShareBounds(limit: real, step: real)
    requires 0.0 <= limit < step
    ensures 0.0 <= Share(limit, step) <= 1.0
    ensures Share(limit, step) * step <= limit
    ensures step >= TINY ==> Share(limit, step) * step == limit
  {
    var m := Max(step, TINY);
    DivUnit(limit, m);
    DivMul(limit, m);
    MulMono(step, m, Share(limit, step));
  }

  lemma TowardTwice(a: Vec, b: Vec, s: real, t: real)
    ensures Toward(a, Toward(a, b, s), t) == Toward(a, b, t * s)
  {
    Nested(a.x, b.x, s, t);
    Nested(a.y, b.y, s, t);
    Nested(a.z, b.z, s, t);
  }

  lemma Nested(a: real, b: real, s: real, t: real)
    ensures a + t * (a + s * (b - a) - a) == a + t * s * (b - a)
  {}

  /** The share of the boxed step that survives both linear limits. */
  function Kept(norm: Vec -> real, p: Profile, dt: real, ref: Vec, x: Vec): real {
    var step := norm(x.Sub(ref));
    var s := if step > p.maxJumpLinear then Share(p.maxJumpLinear, step) else 1.0;
    var next := norm(AfterJump(norm, p, ref, x).Sub(ref));
    var t := if Rate(next, dt) > p.maxLinearSpeed then Share(PerTick(p.maxLinearSpeed, dt), next) else 1.0;
    t * s
  }

  lemma JumpStage(norm: Vec -> real, p: Profile, ref: Vec, x: Vec, s: real)
    requires IsNorm(norm) && 0.0 <= p.maxJumpLinear
    requires s == if norm(x.Sub(ref)) > p.maxJumpLinear then Share(p.maxJumpLinear, norm(x.Sub(ref))) else 1.0
    ensures 0.0 <= s <= 1.0
    ensures AfterJump(norm, p, ref, x) == Toward(ref, x, s)
    ensures norm(AfterJump(norm, p, ref, x).Sub(ref)) <= Min(norm(x.Sub(ref)), p.maxJumpLinear)
    ensures p.maxJumpLinear >= TINY ==>
      norm(AfterJump(norm, p, ref, x).Sub(ref)) == Min(norm(x.Sub(ref)), p.maxJumpLinear)
  {
    hide IsNorm, Share;
    var step := norm(x.Sub(ref));
    TowardEnds(ref, x);
    if step > p.maxJumpLinear {
      ShareBounds(p.maxJumpLinear, step);
      TowardDistance(norm, ref, x, s);
    }
  }

  lemma RateBound(step: real, dt: real, speed: real)
    requires 0.0 <= speed
    ensures Rate(step, dt) <= speed <==> step <= PerTick(speed, Max(dt, TINY))
  {
    DivAtMost(step, speed, Max(dt, TINY));
  }

  lemma PerTickBounds(speed: real, dt: real)
    requires 0.0 <= speed && 0.0 < dt
    ensures 0.0 <= PerTick(speed, dt) <= PerTick(speed, Max(dt, TINY))
  {
    MulNonNeg(speed, dt);
    MulMono(dt, Max(dt, TINY), speed);
  }

  lemma SpeedStage(norm: Vec -> real, p: Profile, dt: real, ref: Vec, x: Vec, t: real)
    requires IsNorm(norm) && 0.0 <= p.maxLinearSpeed && 0.0 < dt
    requires t == if Rate(norm(x.Sub(ref)), dt) > p.maxLinearSpeed
                  then Share(PerTick(p.maxLinearSpeed, dt), norm(x.Sub(ref))) else 1.0
    ensures 0.0 <= t <= 1.0
    ensures AfterSpeed(norm, p, dt, ref, x) == Toward(ref, x, t)
    ensures norm(AfterSpeed(norm, p, dt, ref, x).Sub(ref))
         <= Min(norm(x.Sub(ref)), PerTick(p.maxLinearSpeed, Max(dt, TINY)))
    ensures dt >= TINY && PerTick(p.maxLinearSpeed, dt) >= TINY ==>
      norm(AfterSpeed(norm, p, dt, ref, x).Sub(ref)) == Min(norm(x.Sub(ref)), PerTick(p.maxLinearSpeed, dt))
  {
    hide IsNorm, Share, Rate, PerTick, Toward;
    var step := norm(x.Sub(ref));
    RateBound(step, dt, p.maxLinearSpeed);
    TowardEnds(ref, x);
    PerTickBounds(p.maxLinearSpeed, dt);
    if Rate(step, dt) > p.maxLinearSpeed {
      ShareBounds(PerTick(p.maxLinearSpeed, dt), step);
      TowardDistance(norm, ref, x, t);
    }
  }

  lemma UnitProduct(t: real, s: real)
    requires 0.0 <= t <= 1.0 && 0.0 <= s <= 1.0
    ensures 0.0 <= t * s <= 1.0
  {
    var u := 1.0 - t;
    MulNonNeg(t, s);
    MulNonNeg(u, s);
    assert (1.0 - t) * s == s - t * s;
  }

  /** The linear stages keep a share of the way to the boxed target and respect both caps;
      with caps no smaller than the filter's guard value they use them in full. */
  lemma LinearStages(norm: Vec -> real, p: Profile, dt: real, ref: Vec, x: Vec)
    requires IsNorm(norm) && SaneCaps(p) && 0.0 < dt
    ensures 0.0 <= Kept(norm, p, dt, ref, x) <= 1.0
    ensures var out := AfterSpeed(norm, p, dt, ref, AfterJump(norm, p, ref, x));
      && out == Toward(ref, x, Kept(norm, p, dt, ref, x))
      && norm(out.Sub(ref)) <= Min(norm(x.Sub(ref)), StepCap(p, dt))
      && (StepCap(p, dt) >= TINY && dt >= TINY ==> norm(out.Sub(ref)) == Min(norm(x.Sub(ref)), StepCap(p, dt)))
  {
    hide IsNorm, Share, Rate, PerTick, AfterSpeed, AfterJump, Toward, Vec.Sub;
    var step := norm(x.Sub(ref));
    var s := if step > p.maxJumpLinear then Share(p.maxJumpLinear, step) else 1.0;
    JumpStage(norm, p, ref, x, s);
    var y := AfterJump(norm, p, ref, x);
    var next := norm(y.Sub(ref));
    var t := if Rate(next, dt) > p.maxLinearSpeed then Share(PerTick(p.maxLinearSpeed, dt), next) else 1.0;
    SpeedStage(norm, p, dt, ref, y, t);
    TowardTwice(ref, x, s, t);
    UnitProduct(t, s);
    assert Kept(norm, p, dt, ref, x) == t * s;
  }

  // One accepted command, without the acceleration cap.

  function Reference(m: Memory, s: RobotState): Pose { if m.pose.Some? then m.pose.value else s.tcp }

  lemma BoxedIsInflated(p: Profile, pos: Vec)
    requires SaneCaps(p)
    ensures Inflate(p.box).Contains(AfterBox(p, pos))
    ensures Inflate(p.box).Contains(pos) ==> AfterBox(p, pos) == pos
  {
    hide Inflate, Box.Clip, AllClose;
    InsideMeansInflated(p.box, pos);
  }

  lemma AcceptedStep(sp: Space, p: Profile, dt: real, m: Memory, target: Pose, s: RobotState, cap: Wrench)
    requires IsNorm(sp.norm) && SaneCaps(p) && 0.0 < dt && p.maxLinearAccel == None
    requires Filter(sp, p, dt, m, target, s, cap).1.Passed?
    ensures var (m', v) := Filter(sp, p, dt, m, target, s, cap);
      && m'.pose == Some(v.pose)
      && sp.norm(v.pose.pos.Sub(Reference(m, s).pos)) <= StepCap(p, dt)
      && NoFarther(Inflate(p.box), v.pose.pos, Reference(m, s).pos)
  {
    hide IsNorm, Inflate, NoFarther, Kept, AfterSpeed, AfterJump, AfterBox, Box.Clip, AllClose, Toward,
      StepCap, Exceeds, Rate, AfterTurnJump, AfterTurnSpeed, Box.Contains;
    var ref := Reference(m, s).pos;
    var x := AfterBox(p, target.pos);
    LinearStages(sp.norm, p, dt, ref, x);
    BoxedIsInflated(p, target.pos);
    TowardShrinks(Inflate(p.box), ref, x, Kept(sp.norm, p, dt, ref, x));
  }

  /** What a target must satisfy to be in spec with respect to the reference. */
  ghost predicate WithinLimits(sp: Space, p: Profile, dt: real, ref: Pose, target: Pose) {
    && Inflate(p.box).Contains(target.pos)
    && sp.norm(target.pos.Sub(ref.pos)) <= StepCap(p, dt)
    && sp.angle(ref.quat, target.quat) <= Min(p.maxJumpAngular, PerTick(p.maxAngularSpeed, Max(dt, TINY)))
  }

  /** An accepted command is reported as clipped exactly when the target violates some limit; a
      command that is not is the target itself. */
  lemma UnclippedMeansInSpec(sp: Space, p: Profile, dt: real, m: Memory, target: Pose, s: RobotState, cap: Wrench)
    requires SaneCaps(p) && 0.0 <= p.maxAngularSpeed && p.maxLinearAccel == None
    requires Filter(sp, p, dt, m, target, s, cap).1.Passed?
    ensures var v := Filter(sp, p, dt, m, target, s, cap).1;
      && (v.clips == [] <==> WithinLimits(sp, p, dt, Reference(m, s), target))
      && (v.clips == [] ==> v.pose == target)
  {
    hide Inflate, Box.Contains, Box.Clip, AllClose, Exceeds, Rate, Share, PerTick, Toward, Vec.Sub;
    var ref := Reference(m, s);
    InsideMeansInflated(p.box, target.pos);
    RateBound(sp.norm(target.pos.Sub(ref.pos)), dt, p.maxLinearSpeed);
    RateBound(sp.angle(ref.quat, target.quat), dt, p.maxAngularSpeed);
  }

  /** A speed limit, or the acceleration cap, is exceeded by what the jump limits leave. */
  predicate SpeedTrips(sp: Space, p: Profile, dt: real, m: Memory, ref: Pose, boxed: Vec, quat: Quat) {
    var (hopped, turned) := (AfterJump(sp.norm, p, ref.pos, boxed), AfterTurnJump(sp, p, ref.quat, quat));
    || Rate(sp.norm(hopped.Sub(ref.pos)), dt) > p.maxLinearSpeed
    || Rate(sp.angle(ref.quat, turned), dt) > p.maxAngularSpeed
    || AccelTrips(sp.norm, p, dt, LastVelocity(m), ref.pos, AfterSpeed(sp.norm, p, dt, ref.pos, hopped))
  }

  function Stage(r: StopReason): nat { if r == Workspace then 0 else if r == PoseJump then 1 else 2 }

  /** Each reason is reported exactly when its limit is exceeded at its stage, and they come in the
      order of the stages. */
  lemma ReasonsAreTrue(sp: Space, p: Profile, dt: real, m: Memory, target: Pose, s: RobotState, cap: Wrench)
    requires SaneCaps(p) && Filter(sp, p, dt, m, target, s, cap).1.Passed?
    ensures var (v, ref, boxed) := (Filter(sp, p, dt, m, target, s, cap).1, Reference(m, s), AfterBox(p, target.pos));
      && (Workspace in v.clips <==> !Inflate(p.box).Contains(target.pos))
      && (PoseJump in v.clips <==>
            (sp.norm(boxed.Sub(ref.pos)) > p.maxJumpLinear || sp.angle(ref.quat, target.quat) > p.maxJumpAngular))
      && (TcpSpeed in v.clips <==> SpeedTrips(sp, p, dt, m, ref, boxed, target.quat))
      && (forall i, j | 0 <= i < j < |v.clips| :: Stage(v.clips[i]) <= Stage(v.clips[j]))
  {
    hide Inflate, Box.Contains, Box.Clip, AllClose, Exceeds, Rate, AfterBox, AfterJump, AfterTurnJump, AfterSpeed,
      AfterTurnSpeed, AfterAccel, AccelTrips, Vec.Sub;
    InsideMeansInflated(p.box, target.pos);
    hide Filter;
    StagesInOrder(sp, p, dt, m, target, s, cap);
  }

  lemma StagesInOrder(sp: Space, p: Profile, dt: real, m: Memory, target: Pose, s: RobotState, cap: Wrench)
    requires Filter(sp, p, dt, m, target, s, cap).1.Passed?
    ensures var v := Filter(sp, p, dt, m, target, s, cap).1;
      forall i, j | 0 <= i < j < |v.clips| :: Stage(v.clips[i]) <= Stage(v.clips[j])
  {
    hide Box.Clip, AllClose, Exceeds, Rate, AfterBox, AfterJump, AfterTurnJump, AfterSpeed, AfterTurnSpeed, AfterAccel,
      AccelTrips, Vec.Sub;
  }

  lemma TurnLimited(sp: Space, ref: Quat, quat: Quat, limit: real)
    requires SlerpOk(sp, ref, quat) && 0.0 <= limit < sp.angle(ref, quat)
    ensures sp.angle(ref, sp.slerp(ref, quat, Share(limit, sp.angle(ref, quat)))) <= limit
  {
    ShareBounds(limit, sp.angle(ref, quat));
  }

  /** With a slerp that turns in proportion, an accepted command turns at most the smaller of the two
      angular caps from the previous one. */
  lemma AcceptedTurn(sp: Space, p: Profile, dt: real, m: Memory, target: Pose, s: RobotState, cap: Wrench)
    requires 0.0 < dt && 0.0 <= p.maxJumpAngular && 0.0 <= p.maxAngularSpeed
    requires Filter(sp, p, dt, m, target, s, cap).1.Passed?
    requires SlerpOk(sp, Reference(m, s).quat, target.quat)
    requires SlerpOk(sp, Reference(m, s).quat, AfterTurnJump(sp, p, Reference(m, s).quat, target.quat))
    ensures var v := Filter(sp, p, dt, m, target, s, cap).1;
      sp.angle(Reference(m, s).quat, v.pose.quat)
        <= Min(p.maxJumpAngular, PerTick(p.maxAngularSpeed, Max(dt, TINY)))
  {
    hide AfterBox, AfterJump, AfterSpeed, AfterAccel, AccelTrips, Exceeds, AllClose, Rate, Share, PerTick, SlerpOk;
    var ref := Reference(m, s).quat;
    var turned := AfterTurnJump(sp, p, ref, target.quat);
    if sp.angle(ref, target.quat) > p.maxJumpAngular { TurnLimited(sp, ref, target.quat, p.maxJumpAngular); }
    RateBound(sp.angle(ref, turned), dt, p.maxAngularSpeed);
    PerTickBounds(p.maxAngularSpeed, dt);
    if Rate(sp.angle(ref, turned), dt) > p.maxAngularSpeed {
      TurnLimited(sp, ref, turned, PerTick(p.maxAngularSpeed, dt));
    }
  }

  // Whole runs.

  datatype Call = Call(target: Pose, s: RobotState, cap: Wrench)

  /** The memory after the first `k` calls of a run; a rejected call leaves it alone. */
  function After(sp: Space, p: Profile, dt: real, m: Memory, calls: seq<Call>, k: nat): Memory
    requires k <= |calls|
  {
    if k == 0 then m
    else
      var c := calls[k - 1];
      Filter(sp, p, dt, After(sp, p, dt, m, calls, k - 1), c.target, c.s, c.cap).0
  }

  function VerdictAt(sp: Space, p: Profile, dt: real, m: Memory, calls: seq<Call>, k: nat): Verdict
    requires k < |calls|
  {
    Filter(sp, p, dt, After(sp, p, dt, m, calls, k), calls[k].target, calls[k].s, calls[k].cap).1
  }

  lemma {:induction false} MemoryStays(sp: Space, p: Profile, dt: real, m: Memory, calls: seq<Call>, k: nat)
    requires k <= |calls| && m.pose.Some?
    ensures After(sp, p, dt, m, calls, k).pose.Some?
  {
    if k > 0 { MemoryStays(sp, p, dt, m, calls, k - 1); }
  }

  /** Over any run of targets, accepted or rejected: each accepted command moves at most the
      step cap from the previously accepted one, and no coordinate of the commanded position
      ever gets farther outside the (slackened) box than it was at any earlier time. */
  lemma {:induction false} RunIsSafe(sp: Space, p: Profile, dt: real, m: Memory, calls: seq<Call>, j: nat, k: nat)
    requires IsNorm(sp.norm) && SaneCaps(p) && 0.0 < dt && p.maxLinearAccel == None
    requires m.pose.Some? && j <= k <= |calls|
    ensures After(sp, p, dt, m, calls, j).pose.Some? && After(sp, p, dt, m, calls, k).pose.Some?
    ensures NoFarther(Inflate(p.box), After(sp, p, dt, m, calls, k).pose.value.pos,
                      After(sp, p, dt, m, calls, j).pose.value.pos)
    ensures k < |calls| && VerdictAt(sp, p, dt, m, calls, k).Passed? ==>
      sp.norm(VerdictAt(sp, p, dt, m, calls, k).pose.pos.Sub(After(sp, p, dt, m, calls, k).pose.value.pos))
        <= StepCap(p, dt)
    decreases k
  {
    hide IsNorm, Filter, Inflate, StepCap;
    MemoryStays(sp, p, dt, m, calls, j);
    MemoryStays(sp, p, dt, m, calls, k);
    if k < |calls| && VerdictAt(sp, p, dt, m, calls, k).Passed? {
      AcceptedStep(sp, p, dt, After(sp, p, dt, m, calls, k), calls[k].target, calls[k].s, calls[k].cap);
    }
    if j < k {
      RunIsSafe(sp, p, dt, m, calls, j, k - 1);
      if VerdictAt(sp, p, dt, m, calls, k - 1).Passed? {
        AcceptedStep(sp, p, dt, After(sp, p, dt, m, calls, k - 1), calls[k - 1].target, calls[k - 1].s,
                     calls[k - 1].cap);
      } else {
        RejectionForgets(sp, p, dt, After(sp, p, dt, m, calls, k - 1), calls[k - 1]);
      }
    }
  }

  lemma RejectionForgets(sp: Space, p: Profile, dt: real, m: Memory, c: Call)
    requires Filter(sp, p, dt, m, c.target, c.s, c.cap).1.Rejected?
    ensures Filter(sp, p, dt, m, c.target, c.s, c.cap).0 == m
  {}

  /** A run that starts inside never leaves. */
  lemma RunStaysInside(sp: Space, p: Profile, dt: real, m: Memory, calls: seq<Call>, k: nat)
    requires IsNorm(sp.norm) && SaneCaps(p) && 0.0 < dt && p.maxLinearAccel == None
    requires m.pose.Some? && Inflate(p.box).Contains(m.pose.value.pos) && k <= |calls|
    ensures After(sp, p, dt, m, calls, k).pose.Some?
    ensures Inflate(p.box).Contains(After(sp, p, dt, m, calls, k).pose.value.pos)
  {
    RunIsSafe(sp, p, dt, m, calls, 0, k);
  }

  // Convergence.

  predicate Steady(calls: seq<Call>, t: Vec) {
    forall c | c in calls :: c.target.pos == t && Within(c.s.wrench, c.cap)
  }

  function Left(distance: real, cap: real, k: nat): real { Max(0.0, distance - k as real * cap) }

  lemma LeftNext(distance: real, cap: real, k: nat)
    requires 0.0 <= distance && 0.0 <= cap
    ensures Left(distance, cap, k) - Min(Left(distance, cap, k), cap) == Left(distance, cap, k + 1)
  {
    assert (k + 1) as real * cap == k as real * cap + cap;
    MulNonNeg(k as real, cap);
  }

  lemma Approach(sp: Space, p: Profile, dt: real, m: Memory, c: Call)
    requires IsNorm(sp.norm) && SaneCaps(p) && dt >= TINY && p.maxLinearAccel == None
    requires StepCap(p, dt) >= TINY && m.pose.Some?
    requires Inflate(p.box).Contains(c.target.pos) && Within(c.s.wrench, c.cap)
    ensures var (m', v) := Filter(sp, p, dt, m, c.target, c.s, c.cap);
      var gap := sp.norm(c.target.pos.Sub(m.pose.value.pos));
      v.Passed? && m'.pose == Some(v.pose) && sp.norm(c.target.pos.Sub(v.pose.pos)) == gap - Min(gap, StepCap(p, dt))
  {
    WithinMeans(c.s.wrench, c.cap);
    hide IsNorm, Inflate, Kept, AfterSpeed, AfterJump, Toward, StepCap, Exceeds, Rate, AfterTurnJump,
      AfterTurnSpeed, Vec.Sub;
    var ref, x := m.pose.value.pos, c.target.pos;
    InsideMeansInflated(p.box, x);
    BoxedIsInflated(p, x);
    LinearStages(sp.norm, p, dt, ref, x);
    TowardDistance(sp.norm, ref, x, Kept(sp.norm, p, dt, ref, x));
  }

  /** A constant target inside the box is approached by exactly one step cap per tick. */
  lemma {:induction false} GapAfter(sp: Space, p: Profile, dt: real, m: Memory, calls: seq<Call>, t: Vec, k: nat)
    requires IsNorm(sp.norm) && SaneCaps(p) && dt >= TINY && p.maxLinearAccel == None
    requires StepCap(p, dt) >= TINY && m.pose.Some? && Inflate(p.box).Contains(t)
    requires Steady(calls, t) && k <= |calls|
    ensures After(sp, p, dt, m, calls, k).pose.Some?
    ensures sp.norm(t.Sub(After(sp, p, dt, m, calls, k).pose.value.pos))
         == Left(sp.norm(t.Sub(m.pose.value.pos)), StepCap(p, dt), k)
  {
    hide IsNorm, Filter, Inflate, StepCap, Left, Steady, SaneCaps, Vec.Sub;
    var d := sp.norm(t.Sub(m.pose.value.pos));
    NormNonNeg(sp.norm, t.Sub(m.pose.value.pos));
    if k == 0 {
      LeftAtStart(d, StepCap(p, dt));
    } else {
      GapAfter(sp, p, dt, m, calls, t, k - 1);
      SteadyAt(calls, t, k - 1);
      Approach(sp, p, dt, After(sp, p, dt, m, calls, k - 1), calls[k - 1]);
      LeftNext(d, StepCap(p, dt), k - 1);
    }
  }

  lemma LeftAtStart(distance: real, cap: real)
    requires 0.0 <= distance
    ensures Left(distance, cap, 0) == distance
  {}

  lemma SteadyAt(calls: seq<Call>, t: Vec, k: nat)
    requires Steady(calls, t) && k < |calls|
    ensures calls[k].target.pos == t && Within(calls[k].s.wrench, calls[k].cap)
  {
    hide Within;
    assert calls[k] in calls;
  }

  /** ... so it is reached within ceil(distance / step cap) ticks and then held. */
  lemma TargetIsReached(sp: Space, p: Profile, dt: real, m: Memory, calls: seq<Call>, t: Vec)
    requires IsNorm(sp.norm) && SaneCaps(p) && dt >= TINY && p.maxLinearAccel == None
    requires StepCap(p, dt) >= TINY && m.pose.Some? && Inflate(p.box).Contains(t) && Steady(calls, t)
    requires |calls| >= Ceil(sp.norm(t.Sub(m.pose.value.pos)) / StepCap(p, dt))
    ensures After(sp, p, dt, m, calls, |calls|).pose.Some?
    ensures After(sp, p, dt, m, calls, |calls|).pose.value.pos == t
  {
    hide IsNorm, Filter, Inflate, StepCap, Steady, Vec.Sub;
    var d, cap, n := sp.norm(t.Sub(m.pose.value.pos)), StepCap(p, dt), |calls|;
    GapAfter(sp, p, dt, m, calls, t, n);
    CeilAtMost(d / cap, n);
    DivAtMost(d, n as real, cap);
    SamePoint(sp.norm, t, After(sp, p, dt, m, calls, n).pose.value.pos);
  }

  // The acceleration cap.

  lemma ConvexNorm(norm: Vec -> real, a: Vec, b: Vec, t: real, bound: real)
    requires IsNorm(norm) && 0.0 <= t <= 1.0 && norm(a) <= bound && norm(b) <= bound
    ensures norm(Toward(a, b, t)) <= bound
  {
    hide IsNorm;
    var u := 1.0 - t;
    var na, nb := norm(a), norm(b);
    TowardIsBlend(a, b, t, u);
    hide Toward, Vec.Scale, Vec.Add;
    Scaled(norm, u, a);
    Scaled(norm, t, b);
    Triangle(norm, a.Scale(u), b.Scale(t));
    Average(na, nb, t, u, bound);
  }

  lemma TowardIsBlend(a: Vec, b: Vec, t: real, u: real)
    requires u == 1.0 - t
    ensures Toward(a, b, t) == a.Scale(u).Add(b.Scale(t))
  {
    Blend(a.x, b.x, t, u);
    Blend(a.y, b.y, t, u);
    Blend(a.z, b.z, t, u);
  }

  lemma Average(na: real, nb: real, t: real, u: real, bound: real)
    requires na <= bound && nb <= bound && 0.0 <= t <= 1.0 && u == 1.0 - t
    ensures u * na + t * nb <= bound
  {
    Cross(t, 1.0, na, bound);
    MulMono(nb, bound, t);
    assert (1.0 - t) * na == na - t * na;
  }

  lemma Blend(a: real, b: real, t: real, u: real)
    requires u == 1.0 - t
    ensures a + t * (b - a) == u * a + t * b
  {
    assert (1.0 - t) * a == a - t * a;
  }

  /** The velocity bound that both per-tick caps imply. */
  function VelocityCap(p: Profile, dt: real): real { Rate(StepCap(p, dt), dt) }

  lemma VelocityOfStep(norm: Vec -> real, dt: real, ref: Vec, pos: Vec, cap: real)
    requires IsNorm(norm) && dt >= TINY && 0.0 <= cap
    ensures norm(Velocity(dt, ref, pos)) <= Rate(cap, dt) <==> norm(pos.Sub(ref)) <= cap
    ensures ref.Add(Velocity(dt, ref, pos).Scale(dt)) == pos
  {
    hide IsNorm;
    var d, r := pos.Sub(ref), Rate(1.0, dt);
    DivMul(1.0, dt);
    var n := norm(d);
    Inverse(n, dt, r);
    Inverse(cap, dt, r);
    Scaled(norm, r, d);
    MulCancel(n, cap, r);
    Undo(ref.x, pos.x, r, dt);
    Undo(ref.y, pos.y, r, dt);
    Undo(ref.z, pos.z, r, dt);
  }

  lemma Inverse(a: real, dt: real, r: real)
    requires 0.0 < dt && r * dt == 1.0
    ensures a / dt == r * a && 0.0 < r
  {
    var q := a / dt;
    DivMul(a, dt);
    assert q * dt == a;
    assert r * (q * dt) == r * a;
    assert r * (q * dt) == q * (r * dt);
    assert q * (r * dt) == q * 1.0;
    if r <= 0.0 { Cross(r, 0.0, 0.0, dt); }
  }

  lemma Undo(a: real, b: real, r: real, dt: real)
    requires r * dt == 1.0
    ensures a + dt * (r * (b - a)) == b
  {
    var c := b - a;
    assert dt * (r * c) == (r * dt) * c;
    assert (r * dt) * c == 1.0 * c;
  }

  lemma AccelStage(norm: Vec -> real, p: Profile, dt: real, last: Vec, ref: Vec, x: Vec)
    requires IsNorm(norm) && SaneCaps(p) && dt >= TINY && p.maxLinearAccel.Some? && 0.0 <= p.maxLinearAccel.value
    requires norm(last) <= VelocityCap(p, dt) && norm(x.Sub(ref)) <= StepCap(p, dt)
    ensures var (pos, v) := AfterAccel(norm, p, dt, last, ref, x);
      && norm(v.Sub(last)) <= PerTick(p.maxLinearAccel.value, dt)
      && norm(v) <= VelocityCap(p, dt)
      && norm(pos.Sub(ref)) <= StepCap(p, dt)
      && pos == ref.Add(v.Scale(dt))
  {
    hide IsNorm, StepCap, Share, Rate, PerTick, Toward, Vec.Sub, Vec.Add, Vec.Scale, Velocity;
    var v, limit := Velocity(dt, ref, x), PerTick(p.maxLinearAccel.value, dt);
    var change := norm(v.Sub(last));
    StepCapNonNeg(p, dt);
    VelocityOfStep(norm, dt, ref, x, StepCap(p, dt));
    if change > limit {
      PerTickBounds(p.maxLinearAccel.value, dt);
      ShareBounds(limit, change);
      var s := Share(limit, change);
      TowardDistance(norm, last, v, s);
      ConvexNorm(norm, last, v, s, VelocityCap(p, dt));
      var v' := Toward(last, v, s);
      StepOfVelocity(dt, ref, v');
      VelocityOfStep(norm, dt, ref, ref.Add(v'.Scale(dt)), StepCap(p, dt));
    }
  }

  lemma StepCapNonNeg(p: Profile, dt: real)
    requires SaneCaps(p) && 0.0 < dt
    ensures 0.0 <= StepCap(p, dt)
  {
    MulNonNeg(p.maxLinearSpeed, Max(dt, TINY));
  }

  lemma StepOfVelocity(dt: real, ref: Vec, v: Vec)
    requires dt >= TINY
    ensures Velocity(dt, ref, ref.Add(v.Scale(dt))) == v
  {
    var r := Rate(1.0, dt);
    DivMul(1.0, dt);
    Redo(ref.x, v.x, r, dt);
    Redo(ref.y, v.y, r, dt);
    Redo(ref.z, v.z, r, dt);
  }

  lemma Redo(a: real, v: real, r: real, dt: real)
    requires r * dt == 1.0
    ensures r * (a + dt * v - a) == v
  {
    assert r * (dt * v) == (r * dt) * v;
    assert (r * dt) * v == 1.0 * v;
  }

  lemma AcceleratedStep(sp: Space, p: Profile, dt: real, m: Memory, c: Call)
    requires IsNorm(sp.norm) && SaneCaps(p) && dt >= TINY && p.maxLinearAccel.Some? && 0.0 <= p.maxLinearAccel.value
    requires m.pose.Some? && m.velocity.Some? && sp.norm(m.velocity.value) <= VelocityCap(p, dt)
    requires Filter(sp, p, dt, m, c.target, c.s, c.cap).1.Passed?
    ensures var (m', v) := Filter(sp, p, dt, m, c.target, c.s, c.cap);
      && m'.pose == Some(v.pose) && m'.velocity.Some?
      && sp.norm(m'.velocity.value.Sub(m.velocity.value)) <= PerTick(p.maxLinearAccel.value, dt)
      && sp.norm(m'.velocity.value) <= VelocityCap(p, dt)
      && sp.norm(v.pose.pos.Sub(m.pose.value.pos)) <= StepCap(p, dt)
      && v.pose.pos == m.pose.value.pos.Add(m'.velocity.value.Scale(dt))
  {
    hide IsNorm, AfterBox, AfterAccel, AfterSpeed, AfterJump, AfterTurnSpeed, AfterTurnJump, StepCap, PerTick, Rate,
      Exceeds, AllClose, Box.Clip, Vec.Sub, Vec.Add, Vec.Scale, Toward, Kept, AccelTrips, VelocityCap, SaneCaps;
    var ref := m.pose.value.pos;
    var x := AfterBox(p, c.target.pos);
    LinearStages(sp.norm, p, dt, ref, x);
    AccelStage(sp.norm, p, dt, m.velocity.value, ref, AfterSpeed(sp.norm, p, dt, ref, AfterJump(sp.norm, p, ref, x)));
  }

  lemma RestIsSlow(sp: Space, p: Profile, dt: real)
    requires IsNorm(sp.norm) && SaneCaps(p) && dt >= TINY
    ensures sp.norm(ORIGIN) <= VelocityCap(p, dt)
  {
    ZeroNorm(sp.norm);
    StepCapNonNeg(p, dt);
    DivAtLeast(StepCap(p, dt), 0.0, dt);
  }

  ghost predicate Moving(sp: Space, p: Profile, dt: real, m: Memory) {
    m.pose.Some? && m.velocity.Some? && sp.norm(m.velocity.value) <= VelocityCap(p, dt)
  }

  lemma {:induction false} VelocityStaysCapped(sp: Space, p: Profile, dt: real, m: Memory, calls: seq<Call>, k: nat)
    requires IsNorm(sp.norm) && SaneCaps(p) && dt >= TINY && p.maxLinearAccel.Some? && 0.0 <= p.maxLinearAccel.value
    requires Moving(sp, p, dt, m) && k <= |calls|
    ensures Moving(sp, p, dt, After(sp, p, dt, m, calls, k))
  {
    hide IsNorm, Filter, VelocityCap, PerTick, SaneCaps, StepCap;
    if k > 0 {
      VelocityStaysCapped(sp, p, dt, m, calls, k - 1);
      var was, c := After(sp, p, dt, m, calls, k - 1), calls[k - 1];
      if VerdictAt(sp, p, dt, m, calls, k - 1).Passed? {
        AcceleratedStep(sp, p, dt, was, c);
      } else {
        RejectionForgets(sp, p, dt, was, c);
      }
    }
  }

  /** With the acceleration cap on, over any run after a reset: consecutive commanded velocities
      differ by at most accel * dt, positions follow those velocities, and the speed and jump
      caps still hold. */
  lemma AccelRunIsSmooth(sp: Space, p: Profile, dt: real, m: Memory, calls: seq<Call>, k: nat)
    requires IsNorm(sp.norm) && SaneCaps(p) && dt >= TINY && p.maxLinearAccel.Some? && 0.0 <= p.maxLinearAccel.value
    requires m.pose.Some? && m.velocity == Some(ORIGIN)
    requires k < |calls| && VerdictAt(sp, p, dt, m, calls, k).Passed?
    ensures var (was, now) := (After(sp, p, dt, m, calls, k), After(sp, p, dt, m, calls, k + 1));
      && was.pose.Some? && was.velocity.Some? && now.pose.Some? && now.velocity.Some?
      && sp.norm(now.velocity.value.Sub(was.velocity.value)) <= PerTick(p.maxLinearAccel.value, dt)
      && sp.norm(now.pose.value.pos.Sub(was.pose.value.pos)) <= StepCap(p, dt)
      && now.pose.value.pos == was.pose.value.pos.Add(now.velocity.value.Scale(dt))
  {
    hide IsNorm, Filter, VelocityCap, PerTick, SaneCaps, StepCap;
    RestIsSlow(sp, p, dt);
    VelocityStaysCapped(sp, p, dt, m, calls, k);
    AcceleratedStep(sp, p, dt, After(sp, p, dt, m, calls, k), calls[k]);
  }
}
