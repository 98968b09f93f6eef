/** The shared data types: states, commands, chunks and safety profiles. */
module Types {
  import opened Numbers
  import opened Geometry

  datatype ControlMode =
    | Idle
    | NrtJointPosition | NrtJointImpedance | NrtCartesianMotionForce | NrtPrimitive
    | RtJointPosition | RtJointImpedance | RtCartesianMotionForce | RtJointTorque
  {
    predicate IsCartesian() { NrtCartesianMotionForce? || RtCartesianMotionForce? }
  }

  datatype StopReason =
    | NoReason | User | StaleCommand | StaleState | Workspace | JointLimit
    | TcpSpeed | PoseJump | ContactWrench | BackendFault

  /** Forces and torques along the six Cartesian axes. */
  type Wrench = w: seq<real> | |w| == 6 witness [0.0, 0.0, 0.0, 0.0, 0.0, 0.0]

  /** `np.any(np.abs(w) > cap)`. */
  predicate Exceeds(w: Wrench, cap: Wrench) {
    exists i | 0 <= i < 6 :: Abs(w[i]) > cap[i]
  }

  /** Every axis lies inside its interval. */
  predicate Within(w: Wrench, cap: Wrench) { forall j | 0 <= j < 6 :: -cap[j] <= w[j] <= cap[j] }

  lemma WithinMeans(w: Wrench, cap: Wrench)
    ensures Within(w, cap) <==> !Exceeds(w, cap)
  {}

  function MinWrench(a: Wrench, b: Wrench): Wrench { seq(6, i requires 0 <= i < 6 => Min(a[i], b[i])) }

  function AddWrench(a: Wrench, b: Wrench): Wrench { seq(6, i requires 0 <= i < 6 => a[i] + b[i]) }

  datatype GripperCommand = GripperCommand(width: real, force: real, velocity: real, grasp: bool)

  datatype RobotState = RobotState(
    stamp: real, q: seq<real>, tcp: Pose, wrench: Wrench, gripperWidth: real, mode: ControlMode)

  datatype Profile = Profile(
    name: string,
    box: Box,
    rejectOutside: bool,
    maxLinearSpeed: real,
    maxAngularSpeed: real,
    maxJumpLinear: real,
    maxJumpAngular: real,
    maxLinearAccel: Option<real>,
    jointMargin: real,
    jointSpeedScale: real,
    jointLower: seq<real>,
    jointUpper: seq<real>,
    maxContactWrench: Wrench,
    maxWrenchAllowance: Wrench,
    commandTimeoutMs: real,
    stateTimeoutMs: real,
    stopOnStaleCommand: bool,
    stopOnStaleState: bool,
    holdTimeoutMs: Option<real>)

  /** A waypoint carries a frame count or a duration; the duration wins when both are given. */
  datatype Timing = Frames(n: int) | Duration(seconds: real)

  datatype Waypoint = Waypoint(
    position: Vec, quaternion: Option<Quat>, gripper: Option<GripperCommand>, timing: Timing)

  /** Waypoint poses are absolute, or relative to the TCP pose at the start of the chunk. */
  datatype Representation = Absolute | RelativeToStart

  datatype Chunk = Chunk(
    waypoints: seq<Waypoint>,
    representation: Representation,
    nExecute: Option<int>,
    maxLinearSpeed: real,
    maxAngularSpeed: real,
    maxContactWrench: Option<Wrench>,
    wrenchAllowance: Option<Wrench>,
    gripGate: Option<real>,
    safetyProfile: string)
}
