/** The per-setpoint safety filter: every command passes through it before it is streamed. */
module SafetyFilters {
  import opened Numbers
  import opened Geometry
  import opened Types

  const TINY := 0.000000001

  /** `np.allclose` on one coordinate, with numpy's default tolerances. */
  predicate Close(a: real, b: real) { Abs(a - b) <= 0.00000001 + 0.00001 * Abs(b) }

  predicate AllClose(a: Vec, b: Vec) { Close(a.x, b.x) && Close(a.y, b.y) && Close(a.z, b.z) }

  /** The filter's state: the previous commanded setpoints and commanded velocity. */
  datatype Memory = Memory(pose: Option<Pose>, q: Option<seq<real>>, velocity: Option<Vec>)

  datatype Verdict =
    | Rejected(reason: StopReason)
    | Passed(pose: Pose, clips: seq<StopReason>)

  /** The fraction of a step that a tripped limit keeps. */
  function Share(limit: real, step: real): real { limit / Max(step, TINY) }

  /** A per-tick step as a rate. */
  function Rate(step: real, dt: real): real { step / Max(dt, TINY) }

  /** A rate as a per-tick amount. */
  function PerTick(rate: real, dt: real): real { rate * dt }

  function AfterJump(norm: Vec -> real, p: Profile, ref: Vec, pos: Vec): Vec {
    var step := norm(pos.Sub(ref));
    if step > p.maxJumpLinear then Toward(ref, pos, Share(p.maxJumpLinear, step)) else pos
  }

  function AfterSpeed(norm: Vec -> real, p: Profile, dt: real, ref: Vec, pos: Vec): Vec {
    var step := norm(pos.Sub(ref));
    if Rate(step, dt) > p.maxLinearSpeed then Toward(ref, pos, Share(PerTick(p.maxLinearSpeed, dt), step)) else pos
  }

  function AfterTurnJump(sp: Space, p: Profile, ref: Quat, quat: Quat): Quat {
    var turn := sp.angle(ref, quat);
    if turn > p.maxJumpAngular then sp.slerp(ref, quat, Share(p.maxJumpAngular, turn)) else quat
  }

  function AfterTurnSpeed(sp: Space, p: Profile, dt: real, ref: Quat, quat: Quat): Quat {
    var turn := sp.angle(ref, quat);
    if Rate(turn, dt) > p.maxAngularSpeed
    then sp.slerp(ref, quat, Share(PerTick(p.maxAngularSpeed, dt), turn))
    else quat
  }

  /** The velocity a position command asks for. */
  function Velocity(dt: real, ref: Vec, pos: Vec): Vec { pos.Sub(ref).Scale(Rate(1.0, dt)) }

  /** The acceleration stage returns the position and the velocity to remember. */
  function AfterAccel(norm: Vec -> real, p: Profile, dt: real, last: Vec, ref: Vec, pos: Vec): (Vec, Vec) {
    var v := Velocity(dt, ref, pos);
    match p.maxLinearAccel
    case None => (pos, v)
    case Some(a) =>
      var change := norm(v.Sub(last));
      if change > PerTick(a, dt) then
        var v' := Toward(last, v, Share(PerTick(a, dt), change));
        (ref.Add(v'.Scale(dt)), v')
      else (pos, v)
  }

  function AfterBox(p: Profile, pos: Vec): Vec {
    var inside := p.box.Clip(pos);
    if AllClose(inside, pos) then pos else inside
  }

  function LastVelocity(m: Memory): Vec { if m.velocity.Some? then m.velocity.value else ORIGIN }

  function Noted(clips: seq<StopReason>, tripped: bool, reason: StopReason): seq<StopReason> {
    if tripped then clips + [reason] else clips
  }

  /** What one call of the Cartesian filter returns and remembers. */
  function Filter(sp: Space, p: Profile, dt: real, m: Memory, target: Pose, s: RobotState, cap: Wrench)
    : (Memory, Verdict)
  {
    if Exceeds(s.wrench, cap) then (m, Rejected(ContactWrench))
    else if !AllClose(p.box.Clip(target.pos), target.pos) && p.rejectOutside then (m, Rejected(Workspace))
    else
      var ref := if m.pose.Some? then m.pose.value else s.tcp;
      var boxed := AfterBox(p, target.pos);
      var hopped := AfterJump(sp.norm, p, ref.pos, boxed);
      var turned := AfterTurnJump(sp, p, ref.quat, target.quat);
      var slowed := AfterSpeed(sp.norm, p, dt, ref.pos, hopped);
      var spun := AfterTurnSpeed(sp, p, dt, ref.quat, turned);
      var (pos, velocity) := AfterAccel(sp.norm, p, dt, LastVelocity(m), ref.pos, slowed);
      var c1 := Noted([], !AllClose(p.box.Clip(target.pos), target.pos), Workspace);
      var c2 := Noted(c1, sp.norm(boxed.Sub(ref.pos)) > p.maxJumpLinear, PoseJump);
      var c3 := Noted(c2, sp.angle(ref.quat, target.quat) > p.maxJumpAngular, PoseJump);
      var c4 := Noted(c3, Rate(sp.norm(hopped.Sub(ref.pos)), dt) > p.maxLinearSpeed, TcpSpeed);
      var c5 := Noted(c4, Rate(sp.angle(ref.quat, turned), dt) > p.maxAngularSpeed, TcpSpeed);
      var clips := Noted(c5, AccelTrips(sp.norm, p, dt, LastVelocity(m), ref.pos, slowed), TcpSpeed);
      (m.(pose := Some(Pose(pos, spun)), velocity := Some(velocity)), Passed(Pose(pos, spun), clips))
  }

  predicate AccelTrips(norm: Vec -> real, p: Profile, dt: real, last: Vec, ref: Vec, pos: Vec) {
    p.maxLinearAccel.Some? && norm(Velocity(dt, ref, pos).Sub(last)) > PerTick(p.maxLinearAccel.value, dt)
  }

  // The joint filter.

  function Sign(x: real): real { if x > 0.0 then 1.0 else if x < 0.0 then -1.0 else 0.0 }

  function JointClip(p: Profile, q: seq<real>): seq<real>
    requires |q| == |p.jointLower| == |p.jointUpper|
  {
    seq(|q|, i requires 0 <= i < |q| =>
      Clamp(q[i], p.jointLower[i] + p.jointMargin, p.jointUpper[i] - p.jointMargin))
  }

  predicate JointsClose(a: seq<real>, b: seq<real>)
    requires |a| == |b|
  {
    forall i | 0 <= i < |a| :: Close(a[i], b[i])
  }

  function JointBox(p: Profile, q: seq<real>): seq<real>
    requires |q| == |p.jointLower| == |p.jointUpper|
  {
    if JointsClose(JointClip(p, q), q) then q else JointClip(p, q)
  }

  function JointStepCap(p: Profile, dt: real): real { 2.0 * p.jointSpeedScale * dt }

  function LimitJoint(cap: real, ref: real, x: real): real {
    if Abs(x - ref) > cap then ref + Sign(x - ref) * cap else x
  }

  predicate AnyJointBeyond(cap: real, ref: seq<real>, q: seq<real>)
    requires |ref| == |q|
  {
    exists i | 0 <= i < |q| :: Abs(q[i] - ref[i]) > cap
  }

  function JointStep(cap: real, ref: seq<real>, q: seq<real>): seq<real>
    requires |ref| == |q|
  {
    if AnyJointBeyond(cap, ref, q)
    then seq(|q|, i requires 0 <= i < |q| => LimitJoint(cap, ref[i], q[i]))
    else q
  }

  /** The profile, the target and the reference describe the same number of joints. */
  predicate JointsMatch(p: Profile, m: Memory, q: seq<real>, s: RobotState) {
    && |q| == |p.jointLower| == |p.jointUpper| == |s.q|
    && (m.q.Some? ==> |m.q.value| == |q|)
  }

  function FilterJoints(p: Profile, dt: real, m: Memory, q: seq<real>, s: RobotState): (Memory, seq<real>, bool)
    requires JointsMatch(p, m, q, s)
  {
    var ref := if m.q.Some? then m.q.value else s.q;
    var boxed := JointBox(p, q);
    var out := JointStep(JointStepCap(p, dt), ref, boxed);
    (m.(q := Some(out)), out,
     !JointsClose(JointClip(p, q), q) || AnyJointBeyond(JointStepCap(p, dt), ref, boxed))
  }

  /** The filter object. It edits its own copy of the target stage by stage and remembers the
      setpoint it finally lets through. */
  class SafetyFilter {
    var p: Profile
    const dt: real
    const sp: Space
    var prevPose: Option<Pose>
    var prevQ: Option<seq<real>>
    var prevVelocity: Option<Vec>

    constructor (sp: Space, p: Profile, dt: real)
      ensures this.sp == sp && this.p == p && this.dt == dt
      ensures Remembered() == Memory(None, None, None)
    {
      this.sp, this.p, this.dt := sp, p, dt;
      prevPose, prevQ, prevVelocity := None, None, None;
    }

    function Remembered(): Memory
      reads this
    {
      Memory(prevPose, prevQ, prevVelocity)
    }

    /** Anchors the filter at a measured state, at rest. */
    method Reset(s: RobotState)
      modifies this`prevPose, this`prevQ, this`prevVelocity
      ensures Remembered() == Memory(Some(s.tcp), Some(s.q), Some(ORIGIN))
    {
      prevPose, prevQ := Some(s.tcp), Some(s.q);
      prevVelocity := Some(ORIGIN);
    }

    method SetProfile(profile: Profile)
      modifies this`p
      ensures p == profile
    {
      p := profile;
    }

    /** The per-tick jump limits on position and orientation. */
    method LimitJump(ref: Pose, target: Pose, clips: seq<StopReason>) returns (pose: Pose, noted: seq<StopReason>)
      ensures pose.pos == AfterJump(sp.norm, p, ref.pos, target.pos)
      ensures pose.quat == AfterTurnJump(sp, p, ref.quat, target.quat)
      ensures noted == Noted(Noted(clips, sp.norm(target.pos.Sub(ref.pos)) > p.maxJumpLinear, PoseJump),
                             sp.angle(ref.quat, target.quat) > p.maxJumpAngular, PoseJump)
    {
      pose, noted := target, clips;
      var step := sp.norm(pose.pos.Sub(ref.pos));
      if step > p.maxJumpLinear {
        pose := pose.(pos := Toward(ref.pos, pose.pos, Share(p.maxJumpLinear, step)));
        noted := noted + [PoseJump];
      }
      var turn := sp.angle(ref.quat, pose.quat);
      if turn > p.maxJumpAngular {
        pose := pose.(quat := sp.slerp(ref.quat, pose.quat, Share(p.maxJumpAngular, turn)));
        noted := noted + [PoseJump];
      }
    }

    /** The per-tick speed limits on position and orientation. */
    method LimitSpeed(ref: Pose, target: Pose, clips: seq<StopReason>) returns (pose: Pose, noted: seq<StopReason>)
      ensures pose.pos == AfterSpeed(sp.norm, p, dt, ref.pos, target.pos)
      ensures pose.quat == AfterTurnSpeed(sp, p, dt, ref.quat, target.quat)
      ensures noted == Noted(Noted(clips, Rate(sp.norm(target.pos.Sub(ref.pos)), dt) > p.maxLinearSpeed, TcpSpeed),
                             Rate(sp.angle(ref.quat, target.quat), dt) > p.maxAngularSpeed, TcpSpeed)
    {
      hide Toward, Rate, PerTick, Share;
      pose, noted := target, clips;
      var step := sp.norm(pose.pos.Sub(ref.pos));
      if Rate(step, dt) > p.maxLinearSpeed {
        pose := pose.(pos := Toward(ref.pos, pose.pos, Share(PerTick(p.maxLinearSpeed, dt), step)));
        noted := noted + [TcpSpeed];
      }
      var turn := sp.angle(ref.quat, pose.quat);
      if Rate(turn, dt) > p.maxAngularSpeed {
        pose := pose.(quat := sp.slerp(ref.quat, pose.quat, Share(PerTick(p.maxAngularSpeed, dt), turn)));
        noted := noted + [TcpSpeed];
      }
    }

    /** The acceleration limit against the previous commanded velocity, which it updates. */
    method LimitAccel(ref: Vec, target: Vec, clips: seq<StopReason>) returns (pos: Vec, noted: seq<StopReason>)
      modifies this`prevVelocity
      ensures prevVelocity.Some?
      ensures (pos, prevVelocity.value) == AfterAccel(sp.norm, p, dt, LastVelocity(old(Remembered())), ref, target)
      ensures noted == Noted(clips, AccelTrips(sp.norm, p, dt, LastVelocity(old(Remembered())), ref, target), TcpSpeed)
    {
      hide Toward, Rate, PerTick, Share;
      pos, noted := target, clips;
      var velocity := target.Sub(ref).Scale(Rate(1.0, dt));
      if p.maxLinearAccel.Some? {
        var last := if prevVelocity.Some? then prevVelocity.value else ORIGIN;
        var change := sp.norm(velocity.Sub(last));
        var maxChange := PerTick(p.maxLinearAccel.value, dt);
        if change > maxChange {
          velocity := Toward(last, velocity, Share(maxChange, change));
          pos := ref.Add(velocity.Scale(dt));
          noted := noted + [TcpSpeed];
        }
      }
      prevVelocity := Some(velocity);
    }

    method FilterCartesian(target: Pose, s: RobotState, cap: Wrench) returns (v: Verdict)
      modifies this`prevPose, this`prevVelocity
      ensures (Remembered(), v) == Filter(sp, p, dt, old(Remembered()), target, s, cap)
    {
      hide Exceeds, AllClose, Box.Clip, AfterJump, AfterTurnJump, AfterSpeed, AfterTurnSpeed, AfterAccel, AccelTrips,
        Rate, Vec.Sub;
      if Exceeds(s.wrench, cap) {
        return Rejected(ContactWrench);
      }
      var clips: seq<StopReason> := [];
      var pose := target;
      var inside := p.box.Clip(pose.pos);
      if !AllClose(inside, pose.pos) {
        if p.rejectOutside {
          return Rejected(Workspace);
        }
        clips := clips + [Workspace];
        pose := pose.(pos := inside);
      }
      var ref := if prevPose.Some? then prevPose.value else s.tcp;
      pose, clips := ApplyLimits(ref, pose, clips);
      prevPose := Some(pose);
      v := Passed(pose, clips);
    }

    /** All limits on a target that has passed the box, one after the other. */
    method ApplyLimits(ref: Pose, target: Pose, clips: seq<StopReason>) returns (pose: Pose, noted: seq<StopReason>)
      modifies this`prevVelocity
      ensures prevVelocity.Some?
      ensures var (hopped, turned) := (AfterJump(sp.norm, p, ref.pos, target.pos), AfterTurnJump(sp, p, ref.quat, target.quat));
        var slowed := AfterSpeed(sp.norm, p, dt, ref.pos, hopped);
        && pose.quat == AfterTurnSpeed(sp, p, dt, ref.quat, turned)
        && (pose.pos, prevVelocity.value) == AfterAccel(sp.norm, p, dt, LastVelocity(old(Remembered())), ref.pos, slowed)
        && var c2 := Noted(clips, sp.norm(target.pos.Sub(ref.pos)) > p.maxJumpLinear, PoseJump);
           var c3 := Noted(c2, sp.angle(ref.quat, target.quat) > p.maxJumpAngular, PoseJump);
           var c4 := Noted(c3, Rate(sp.norm(hopped.Sub(ref.pos)), dt) > p.maxLinearSpeed, TcpSpeed);
           var c5 := Noted(c4, Rate(sp.angle(ref.quat, turned), dt) > p.maxAngularSpeed, TcpSpeed);
           noted == Noted(c5, AccelTrips(sp.norm, p, dt, LastVelocity(old(Remembered())), ref.pos, slowed), TcpSpeed)
    {
      hide AfterJump, AfterTurnJump, AfterSpeed, AfterTurnSpeed, AfterAccel, AccelTrips, Rate, Noted, Vec.Sub;
      pose, noted := LimitJump(ref, target, clips);
      pose, noted := LimitSpeed(ref, pose, noted);
      var pos;
      pos, noted := LimitAccel(ref.pos, pose.pos, noted);
      pose := pose.(pos := pos);
    }

    method FilterJoint(target: seq<real>, s: RobotState) returns (q: seq<real>, clipped: bool)
      requires JointsMatch(p, Remembered(), target, s)
      modifies this`prevQ
      ensures (Remembered(), q, clipped) == FilterJoints(p, dt, old(Remembered()), target, s)
    {
      hide LimitJoint, Close, Clamp, Abs;
      q, clipped := target, false;
      var inside := JointClip(p, q);
      if !JointsClose(inside, q) {
        clipped := true;
        q := inside;
      }
      var ref := if prevQ.Some? then prevQ.value else s.q;
      var maxStep := 2.0 * p.jointSpeedScale * dt;
      if AnyJointBeyond(maxStep, ref, q) {
        q := JointStep(maxStep, ref, q);
        clipped := true;
      }
      prevQ := Some(q);
    }

    method StateTooOld(ageMs: real) returns (tooOld: bool)
      ensures tooOld <==> p.stopOnStaleState && ageMs > p.stateTimeoutMs
    {
      tooOld := p.stopOnStaleState && ageMs > p.stateTimeoutMs;
    }
  }
}
