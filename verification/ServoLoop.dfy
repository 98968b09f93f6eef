/** The always-on servo loop: latest-target streaming with a hold-on-stale watchdog. Other threads
    publish targets between any two of the loop's locked sections. */
module ServoLoops {
  import opened Numbers
  import opened Geometry
  import opened Types
  import opened SafetyFilters
  import opened Interpolation
  import opened ActionChunks
  import opened Backends
  import opened ChunkExecution

  /** The command buffer under the loop's lock. Chunk iterators are objects: `iters` holds what each
      of them still has to yield, `chunk` names the active one. */
  datatype Buffer = Buffer(
    cartesian: bool,
    pose: Option<Pose>,
    q: Option<seq<real>>,
    gripper: Option<GripperCommand>,
    stamp: real,
    iters: seq<seq<Tick>>,
    chunk: Option<nat>)

  /** The loop's private copy of the buffer, and the age of the command in it in seconds. */
  datatype Snapshot = Snapshot(cartesian: bool, pose: Option<Pose>, q: Option<seq<real>>,
                               gripper: Option<GripperCommand>, age: real)

  /** Everything one tick decides on. */
  datatype View = View(s: RobotState, stateAgeMs: real, snap: Snapshot, faulted: bool)

  /** What one tick does to the backend. */
  datatype Write =
    | Halted(reason: StopReason)
    | Held(pose: Pose)
    | HeldJoints(q: seq<real>)
    | Live(pose: Pose, gripper: Option<GripperCommand>)
    | LiveJoints(q: seq<real>)
    | Crashed                       // streaming was refused: the backend was not in a matching mode
    | Quiet

  function PublishPose(b: Buffer, pose: Pose, gripper: Option<GripperCommand>, now: real): Buffer {
    b.(cartesian := true, chunk := None, pose := Some(pose), stamp := now,
       gripper := if gripper.Some? then gripper else b.gripper)
  }

  function PublishJoints(b: Buffer, q: seq<real>, now: real): Buffer {
    b.(cartesian := false, chunk := None, q := Some(q), stamp := now)
  }

  function PublishChunk(b: Buffer, ticks: seq<Tick>, now: real): Buffer {
    b.(cartesian := true, iters := b.iters + [ticks], chunk := Some(|b.iters|), stamp := now)
  }

  /** The loop asks the iterator it has taken for its next setpoint. */
  function Pull(b: Buffer, it: nat, now: real): Buffer
    requires it < |b.iters|
  {
    if b.iters[it] == [] then b.(chunk := None)
    else
      var t := b.iters[it][0];
      b.(cartesian := true, pose := Some(t.pose), stamp := now, iters := b.iters[it := b.iters[it][1..]],
         gripper := if t.grip.Some? then t.grip else b.gripper)
  }

  function Look(b: Buffer, now: real): Snapshot { Snapshot(b.cartesian, b.pose, b.q, b.gripper, now - b.stamp) }

  predicate StateIsStale(p: Profile, v: View) { p.stopOnStaleState && v.stateAgeMs > p.stateTimeoutMs }

  predicate CommandIsStale(p: Profile, v: View) { v.snap.age > p.commandTimeoutMs / 1000.0 && p.stopOnStaleCommand }

  predicate HeldTooLong(p: Profile, v: View) {
    CommandIsStale(p, v) && p.holdTimeoutMs.Some? && v.snap.age > p.holdTimeoutMs.value / 1000.0
  }

  /** The mode after trying to make sure that streaming is possible. The loop goes by the mode it
      measured, which need not be the mode in force any more. */
  function StreamMode(measured: ControlMode, mode: ControlMode, cartesian: bool): ControlMode {
    if cartesian then if measured.IsCartesian() then mode else NrtCartesianMotionForce
    else if measured.IsCartesian() || measured.Idle? then NrtJointImpedance else mode
  }

  predicate Streams(mode: ControlMode, cartesian: bool) {
    if cartesian then mode.IsCartesian() else !mode.IsCartesian() && !mode.Idle?
  }

  /** A write that streams, or the crash if the backend refuses it. */
  function Attempt(mode: ControlMode, cartesian: bool, w: Write): Write {
    if Streams(mode, cartesian) then w else Crashed
  }

  predicate ViewFits(p: Profile, m: Memory, v: View) {
    && |v.s.q| == |p.jointLower| == |p.jointUpper|
    && (v.snap.q.Some? ==> |v.snap.q.value| == |p.jointLower|)
    && (m.q.Some? ==> |m.q.value| == |p.jointLower|)
  }

  /** The decide-and-write section, with the backend in the given mode: the filter's memory, the
      control mode, the write. */
  function Decide(sp: Space, p: Profile, dt: real, m: Memory, mode: ControlMode, v: View): (Memory, ControlMode, Write)
    requires ViewFits(p, m, v)
  {
    if v.faulted then (m, Idle, Halted(BackendFault))
    else if StateIsStale(p, v) then (m, Idle, Halted(StaleState))
    else if HeldTooLong(p, v) then (m, Idle, Halted(StaleCommand))
    else if CommandIsStale(p, v) then
      var mode' := StreamMode(v.s.mode, mode, v.snap.cartesian);
      (Memory(Some(v.s.tcp), Some(v.s.q), Some(ORIGIN)), mode',
       Attempt(mode', v.snap.cartesian, if v.snap.cartesian then Held(v.s.tcp) else HeldJoints(v.s.q)))
    else if v.snap.cartesian && v.snap.pose.Some? then
      var (m', verdict) := Filter(sp, p, dt, m, v.snap.pose.value, v.s, p.maxContactWrench);
      var mode' := StreamMode(v.s.mode, mode, true);
      if verdict.Passed? then (m', mode', Attempt(mode', true, Live(verdict.pose, v.snap.gripper)))
      else (m', Idle, Halted(verdict.reason))
    else if !v.snap.cartesian && v.snap.q.Some? then
      var (m', q, _) := FilterJoints(p, dt, m, v.snap.q.value, v.s);
      var mode' := StreamMode(v.s.mode, mode, false);
      (m', mode', Attempt(mode', false, LiveJoints(q)))
    else (m, mode, Quiet)
  }

  /** The Cartesian setpoints a write streams. */
  function Poses(w: Write): seq<Pose> {
    match w
    case Held(pose) => [pose]
    case Live(pose, _) => [pose]
    case _ => []
  }

  function Joints(w: Write): seq<seq<real>> {
    match w
    case HeldJoints(q) => [q]
    case LiveJoints(q) => [q]
    case _ => []
  }

  function Grips(w: Write): seq<GripperCommand> {
    if w.Live? && w.gripper.Some? then [w.gripper.value] else []
  }

  class ReactiveServoLoop {
    const robot: Robot
    const hz: real
    var cartesian: bool
    var targetPose: Option<Pose>
    var targetQ: Option<seq<real>>
    var targetGripper: Option<GripperCommand>
    var commandStamp: real
    var iters: seq<seq<Tick>>
    var chunk: Option<nat>

    ghost function Buffered(): Buffer
      reads this
    {
      Buffer(cartesian, targetPose, targetQ, targetGripper, commandStamp, iters, chunk)
    }

    ghost predicate Valid()
      reads this, robot, robot.filter
    {
      robot.Valid() && 0.0 < hz && (chunk.Some? ==> chunk.value < |iters|)
    }

    constructor (robot: Robot, hz: real)
      requires robot.Valid() && 0.0 < hz
      ensures Valid() && this.robot == robot && this.hz == hz
      ensures Buffered() == Buffer(true, None, None, None, 0.0, [], None)
    {
      this.robot, this.hz := robot, hz;
      cartesian, targetPose, targetQ, targetGripper := true, None, None, None;
      commandStamp, iters, chunk := 0.0, [], None;
    }

    method SetCartesianTarget(pose: Pose, gripper: Option<GripperCommand>, now: real)
      requires Valid()
      modifies this`cartesian, this`chunk, this`targetPose, this`targetGripper, this`commandStamp
      ensures Valid() && Buffered() == PublishPose(old(Buffered()), pose, gripper, now)
    {
      cartesian := true;
      chunk := None;
      targetPose := Some(pose);
      if gripper.Some? {
        targetGripper := gripper;
      }
      commandStamp := now;
    }

    method SetJointTarget(q: seq<real>, now: real)
      requires Valid()
      modifies this`cartesian, this`chunk, this`targetQ, this`commandStamp
      ensures Valid() && Buffered() == PublishJoints(old(Buffered()), q, now)
    {
      cartesian := false;
      chunk := None;
      targetQ := Some(q);
      commandStamp := now;
    }

    /** Stages a chunk, planned from the pose `s` measured now. The targets stay as they are until
        the loop pulls the first setpoint. */
    method EnqueueChunk(c: Chunk, s: RobotState, now: real) returns (ok: bool)
      requires Valid() && c.waypoints != []
      modifies this`cartesian, this`iters, this`chunk, this`commandStamp
      ensures Valid()
      ensures ok <==> ForExecution(robot.sp.qnorm, c, s.tcp).Some?
      ensures Buffered() ==
        if !ok then old(Buffered())
        else
          var caps := Caps(Some(robot.profile.maxLinearSpeed), Some(robot.profile.maxAngularSpeed));
          PublishChunk(old(Buffered()),
                       Plan(robot.sp, hz, caps, ForExecution(robot.sp.qnorm, c, s.tcp).value.waypoints, s.tcp, 0), now)
    {
      hide ForExecution, Plan;
      var resolved := PrepareChunk(robot.sp.qnorm, c, s.tcp);
      if resolved.None? {
        return false;
      }
      var caps := Caps(Some(robot.profile.maxLinearSpeed), Some(robot.profile.maxAngularSpeed));
      var interp := new CartesianChunkInterpolator(robot.sp, resolved.value.waypoints, s.tcp, hz, caps);
      var ticks := interp.Setpoints();
      cartesian := true;
      iters := iters + [ticks];
      chunk := Some(|iters| - 1);
      commandStamp := now;
      ok := true;
    }

    /** Seeds the targets with the measured pose, in a Cartesian mode. */
    method Start(first: RobotState, again: RobotState, now: real)
      requires Valid() && first.mode == robot.backend.mode
      modifies this`targetPose, this`targetQ, this`commandStamp, robot.backend`mode, robot.backend`maxWrench, robot.backend`limits,
        robot.filter`prevPose, robot.filter`prevQ, robot.filter`prevVelocity
      ensures Valid() && robot.backend.mode.IsCartesian()
      ensures var s := if old(robot.backend.mode).IsCartesian() then first else again;
        && Buffered() == old(Buffered()).(pose := Some(s.tcp), q := Some(s.q), stamp := now)
        && robot.filter.Remembered() == Memory(Some(s.tcp), Some(s.q), Some(ORIGIN))
    {
      var s := first;
      if !s.mode.IsCartesian() {
        robot.backend.SetMode(NrtCartesianMotionForce, Some(robot.profile.maxContactWrench));
        s := again;
      }
      robot.filter.Reset(s);
      targetPose := Some(s.tcp);
      targetQ := Some(s.q);
      commandStamp := now;
    }

    /** Goes by the measured state, not by the backend. */
    method EnsureStreamMode(s: RobotState, cartesian: bool)
      modifies robot.backend`mode, robot.backend`maxWrench, robot.backend`limits
      ensures robot.backend.mode == StreamMode(s.mode, old(robot.backend.mode), cartesian)
    {
      if cartesian {
        if !s.mode.IsCartesian() {
          robot.backend.SetMode(NrtCartesianMotionForce, Some(robot.profile.maxContactWrench));
        }
      } else if s.mode.IsCartesian() || s.mode == Idle {
        robot.backend.SetMode(NrtJointImpedance, None);
      }
    }

    /** Advances the iterator that was active when the loop looked at it. */
    method PullSetpoint(it: nat, now: real)
      requires Valid() && it < |iters|
      modifies this`cartesian, this`targetPose, this`targetGripper, this`commandStamp, this`iters, this`chunk
      ensures Valid() && Buffered() == Pull(old(Buffered()), it, now)
    {
      if iters[it] == [] {
        chunk := None;
        return;
      }
      var t := iters[it][0];
      iters := iters[it := iters[it][1..]];
      cartesian := true;
      targetPose := Some(t.pose);
      if t.grip.Some? {
        targetGripper := t.grip;
      }
      commandStamp := now;
    }

    /** The section under the shared writer lock. The state was measured before the lock was taken, so
        mode and filter may have moved on since. A refused stream ends the section at once. */
    method DecideAndWrite(v: View) returns (w: Write)
      requires Valid() && ViewFits(robot.profile, robot.filter.Remembered(), v)
      modifies this`targetGripper, robot.filter`prevPose, robot.filter`prevQ, robot.filter`prevVelocity,
        robot.backend`mode, robot.backend`maxWrench, robot.backend`limits, robot.backend`cartesianLog, robot.backend`jointLog,
        robot.backend`gripperLog
      ensures Valid()
      ensures (robot.filter.Remembered(), robot.backend.mode, w)
           == Decide(robot.sp, robot.profile, 1.0 / robot.hz, old(robot.filter.Remembered()), old(robot.backend.mode), v)
      ensures robot.backend.cartesianLog == old(robot.backend.cartesianLog) + Poses(w)
      ensures robot.backend.jointLog == old(robot.backend.jointLog) + Joints(w)
      ensures robot.backend.gripperLog == old(robot.backend.gripperLog) + Grips(w)
      ensures targetGripper == if Grips(w) != [] then None else old(targetGripper)
    {
      hide Filter, FilterJoints, ControlMode.IsCartesian, StreamMode, Attempt;
      var p := robot.filter.p;
      if v.faulted {
        robot.backend.Stop();
        return Halted(BackendFault);
      }
      var tooOld := robot.filter.StateTooOld(v.stateAgeMs);
      if tooOld {
        robot.backend.Stop();
        return Halted(StaleState);
      }
      if v.snap.age > p.commandTimeoutMs / 1000.0 && p.stopOnStaleCommand {
        if p.holdTimeoutMs.Some? && v.snap.age > p.holdTimeoutMs.value / 1000.0 {
          robot.backend.Stop();
          return Halted(StaleCommand);
        }
        w := Hold(v);
      } else if v.snap.cartesian && v.snap.pose.Some? {
        w := StreamLive(v);
      } else if !v.snap.cartesian && v.snap.q.Some? {
        w := StreamLiveJoints(v);
      } else {
        w := Quiet;
      }
    }

    /** One tick, when no target is published while it runs. */
    method RunTick(s: RobotState, stateAgeMs: real, pullAt: real, lookAt: real, faulted: bool) returns (w: Write)
      requires Valid()
      requires ViewFits(robot.profile, robot.filter.Remembered(), View(s, stateAgeMs, Look(Buffered(), lookAt), faulted))
      modifies this, robot.filter`prevPose, robot.filter`prevQ, robot.filter`prevVelocity,
        robot.backend`mode, robot.backend`maxWrench, robot.backend`limits, robot.backend`cartesianLog, robot.backend`jointLog,
        robot.backend`gripperLog
      ensures Valid()
      ensures var b := if old(chunk).Some? then Pull(old(Buffered()), old(chunk).value, pullAt) else old(Buffered());
        && (robot.filter.Remembered(), robot.backend.mode, w)
           == Decide(robot.sp, robot.profile, 1.0 / robot.hz, old(robot.filter.Remembered()), old(robot.backend.mode),
                     View(s, stateAgeMs, Look(b, lookAt), faulted))
        && Buffered() == if Grips(w) != [] then b.(gripper := None) else b
      ensures |Poses(w)| + |Joints(w)| <= 1
      ensures robot.backend.cartesianLog == old(robot.backend.cartesianLog) + Poses(w)
      ensures robot.backend.jointLog == old(robot.backend.jointLog) + Joints(w)
      ensures robot.backend.gripperLog == old(robot.backend.gripperLog) + Grips(w)
    {
      hide Decide;
      if chunk.Some? {
        PullSetpoint(chunk.value, pullAt);
      }
      var snap := Snapshot(cartesian, targetPose, targetQ, targetGripper, lookAt - commandStamp);
      w := DecideAndWrite(View(s, stateAgeMs, snap, faulted));
    }

    /** What a crash leads to: the backend is stopped, outside the writer lock. */
    method AfterCrash()
      modifies robot.backend`mode
      ensures robot.backend.mode == Idle
    {
      robot.backend.Stop();
    }

    /** Holding re-issues what this tick measured, never an old target. */
    method Hold(v: View) returns (w: Write)
      requires Valid()
      modifies robot.filter`prevPose, robot.filter`prevQ, robot.filter`prevVelocity,
        robot.backend`mode, robot.backend`maxWrench, robot.backend`limits, robot.backend`cartesianLog, robot.backend`jointLog
      ensures Valid()
      ensures robot.filter.Remembered() == Memory(Some(v.s.tcp), Some(v.s.q), Some(ORIGIN))
      ensures robot.backend.mode == StreamMode(v.s.mode, old(robot.backend.mode), v.snap.cartesian)
      ensures w == Attempt(robot.backend.mode, v.snap.cartesian,
                           if v.snap.cartesian then Held(v.s.tcp) else HeldJoints(v.s.q))
      ensures Grips(w) == []
      ensures robot.backend.cartesianLog == old(robot.backend.cartesianLog) + Poses(w)
      ensures robot.backend.jointLog == old(robot.backend.jointLog) + Joints(w)
    {
      hide StreamMode, ControlMode.IsCartesian;
      robot.filter.Reset(v.s);
      EnsureStreamMode(v.s, v.snap.cartesian);
      if v.snap.cartesian {
        var ok := robot.backend.StreamCartesian(v.s.tcp);
        w := if ok then Held(v.s.tcp) else Crashed;
      } else {
        var ok := robot.backend.StreamJoint(v.s.q);
        w := if ok then HeldJoints(v.s.q) else Crashed;
      }
    }

    method StreamLiveJoints(v: View) returns (w: Write)
      requires Valid() && v.snap.q.Some?
      requires JointsMatch(robot.profile, robot.filter.Remembered(), v.snap.q.value, v.s)
      modifies robot.filter`prevQ, robot.backend`mode, robot.backend`maxWrench, robot.backend`limits, robot.backend`jointLog
      ensures Valid()
      ensures var (m, q, _) := FilterJoints(robot.profile, 1.0 / robot.hz, old(robot.filter.Remembered()),
                                            v.snap.q.value, v.s);
        && robot.filter.Remembered() == m
        && robot.backend.mode == StreamMode(v.s.mode, old(robot.backend.mode), false)
        && w == Attempt(robot.backend.mode, false, LiveJoints(q))
      ensures robot.backend.jointLog == old(robot.backend.jointLog) + Joints(w)
      ensures Poses(w) == [] && Grips(w) == []
    {
      hide FilterJoints, StreamMode, ControlMode.IsCartesian;
      var q, _ := robot.filter.FilterJoint(v.snap.q.value, v.s);
      EnsureStreamMode(v.s, false);
      var ok := robot.backend.StreamJoint(q);
      w := if ok then LiveJoints(q) else Crashed;
    }

    method StreamLive(v: View) returns (w: Write)
      requires Valid() && v.snap.pose.Some?
      modifies this`targetGripper, robot.filter`prevPose, robot.filter`prevVelocity, robot.backend`mode,
        robot.backend`maxWrench, robot.backend`limits, robot.backend`cartesianLog, robot.backend`gripperLog
      ensures Valid()
      ensures var (m, verdict) := Filter(robot.sp, robot.profile, 1.0 / robot.hz, old(robot.filter.Remembered()),
                                         v.snap.pose.value, v.s, robot.profile.maxContactWrench);
        && robot.filter.Remembered() == m
        && if verdict.Passed?
           then robot.backend.mode == StreamMode(v.s.mode, old(robot.backend.mode), true)
                && w == Attempt(robot.backend.mode, true, Live(verdict.pose, v.snap.gripper))
           else robot.backend.mode == Idle && w == Halted(verdict.reason)
      ensures robot.backend.cartesianLog == old(robot.backend.cartesianLog) + Poses(w)
      ensures robot.backend.gripperLog == old(robot.backend.gripperLog) + Grips(w)
      ensures targetGripper == if Grips(w) != [] then None else old(targetGripper)
      ensures Joints(w) == []
    {
      hide Filter, StreamMode, ControlMode.IsCartesian;
      var verdict := robot.filter.FilterCartesian(v.snap.pose.value, v.s, robot.profile.maxContactWrench);
      if verdict.Rejected? {
        robot.backend.Stop();
        return Halted(verdict.reason);
      }
      EnsureStreamMode(v.s, true);
      var ok := robot.backend.StreamCartesian(verdict.pose);
      if !ok {
        return Crashed;
      }
      if v.snap.gripper.Some? {
        robot.backend.MoveGripper(v.snap.gripper.value);
        targetGripper := None;
      }
      w := Live(verdict.pose, v.snap.gripper);
    }
  }
}
