/** The blocking Cartesian executor: per-tick safety gates, cooperative cancel and the deferred
    gripper-close gate. */
module ChunkExecution {
  import opened Numbers
  import opened Geometry
  import opened Types
  import opened SafetyFilters
  import opened Interpolation
  import opened ActionChunks
  import opened Backends

  /** What one tick observes: whether another thread asked for a stop since the flag was last
      looked at, the robot's fault line, and the measured state. */
  datatype TickInput = TickInput(stopRequested: bool, fault: bool, state: RobotState)

  /** Everything that stays fixed while a chunk runs. */
  datatype Setup = Setup(sp: Space, profile: Profile, hz: real, wrenchCap: Wrench, gate: Option<real>)

  /** A closing command waiting for its settle window, due at the given tick. */
  datatype Pending = Pending(command: GripperCommand, due: nat, segment: nat, arrived: nat)

  /** The fate of one gripper command: the tick it arrived at, the tick it was decided at, and
      whether it reached the gripper. */
  datatype GripEvent = GripEvent(segment: nat, arrived: nat, decided: nat, command: GripperCommand, sent: bool)

  datatype Progress = Progress(
    memory: Memory,
    cancel: bool,
    tick: nat,
    streamed: seq<Pose>,
    events: seq<GripEvent>,
    clipped: bool,
    stop: Option<StopReason>,
    lastCommand: Option<Vec>,
    closeAborted: bool,
    closeIssued: bool,
    pending: Option<Pending>)

  /** The settle window in seconds. */
  const SETTLE_SECONDS := 0.35

  function SettleTicks(hz: real, segmentTicks: nat): int {
    MinInt(Round(SETTLE_SECONDS * hz), MaxInt(1, segmentTicks / 2))
  }

  /** A command closes if it grasps, or narrows a plausible measured width. */
  predicate Closing(c: GripperCommand, width: real) {
    c.grasp || (width > 0.000001 && c.width < width - 0.001)
  }

  function TrackingError(sp: Space, lastCommand: Option<Vec>, s: RobotState): real {
    if lastCommand.Some? then sp.norm(lastCommand.value.Sub(s.tcp.pos)) else 0.0
  }

  predicate GateRefuses(x: Setup, st: Progress, s: RobotState) {
    st.closeAborted || st.clipped || (x.gate.Some? && TrackingError(x.sp, st.lastCommand, s) > x.gate.value)
  }

  /** A deferred close is decided against the state at hand. */
  function Resolve(x: Setup, st: Progress, p: Pending, s: RobotState): Progress {
    var refused := GateRefuses(x, st, s);
    st.(pending := None,
        closeAborted := st.closeAborted || refused,
        closeIssued := st.closeIssued || !refused,
        events := st.events + [GripEvent(p.segment, p.arrived, st.tick, p.command, !refused)])
  }

  function ResolveIfDue(x: Setup, st: Progress, s: RobotState): Progress {
    if st.pending.Some? && st.tick >= st.pending.value.due then Resolve(x, st, st.pending.value, s) else st
  }

  predicate GateActive(x: Setup, st: Progress, c: GripperCommand) {
    x.gate.Some? && !(c.grasp && st.closeIssued)
  }

  function HandleCommand(x: Setup, st: Progress, c: GripperCommand, t: Tick, s: RobotState): Progress {
    if Closing(c, s.gripperWidth) && GateActive(x, st, c) then
      if st.closeAborted then
        st.(events := st.events + [GripEvent(t.segment, st.tick, st.tick, c, false)])
      else
        var resolved := if st.pending.Some? then Resolve(x, st, st.pending.value, s) else st;
        resolved.(pending := Some(Pending(c, MaxInt(0, st.tick + SettleTicks(x.hz, t.segmentTicks)), t.segment, st.tick)))
    else
      st.(events := st.events + [GripEvent(t.segment, st.tick, st.tick, c, true)],
          closeIssued := st.closeIssued || Closing(c, s.gripperWidth))
  }

  /** The part of a tick after the gates have let it through and the filter has answered. */
  function Stream(x: Setup, st: Progress, v: Verdict, t: Tick, s: RobotState): Progress
    requires v.Passed?
  {
    var streamed := st.(streamed := st.streamed + [v.pose], clipped := st.clipped || v.clips != []);
    var resolved := ResolveIfDue(x, streamed, s);
    var handled := if t.grip.Some? then HandleCommand(x, resolved, t.grip.value, t, s) else resolved;
    handled.(lastCommand := Some(v.pose.pos))
  }

  /** One tick of the executor. A set `stop` means the loop was left at this tick. */
  function Advance(x: Setup, st: Progress, t: Tick, i: TickInput): Progress
    requires 0.0 < x.hz
  {
    var begun := st.(tick := st.tick + 1, cancel := st.cancel || i.stopRequested);
    if begun.cancel then begun.(cancel := false, stop := Some(User))
    else if i.fault then begun.(stop := Some(BackendFault))
    else if Exceeds(i.state.wrench, x.wrenchCap) then begun.(stop := Some(ContactWrench))
    else
      var (memory, v) := Filter(x.sp, x.profile, 1.0 / x.hz, begun.memory, t.pose, i.state, x.wrenchCap);
      if v.Rejected? then begun.(memory := memory, stop := Some(v.reason))
      else Stream(x, begun.(memory := memory), v, t, i.state)
  }

  /** The progress after `n` ticks, or after the tick that stopped the chunk. */
  function Run(x: Setup, st: Progress, ticks: seq<Tick>, env: nat -> TickInput, n: nat): Progress
    requires 0.0 < x.hz && n <= |ticks|
  {
    if n == 0 then st
    else
      var before := Run(x, st, ticks, env, n - 1);
      if before.stop.Some? then before else Advance(x, before, ticks[n - 1], env(n - 1))
  }

  /** A close still pending when the loop ends is decided now, or dropped if the chunk stopped. */
  function Finish(x: Setup, st: Progress, last: RobotState): Progress {
    if st.pending.None? then st
    else if st.stop.None? then Resolve(x, st, st.pending.value, last)
    else
      var p := st.pending.value;
      st.(pending := None, closeAborted := true,
          events := st.events + [GripEvent(p.segment, p.arrived, st.tick, p.command, false)])
  }

  // What the chunk and the profile agree on.

  /** A chunk may tighten a cap, never relax it; a cap that is not positive is ignored. */
  function Tightened(profileCap: real, chunkCap: real): real {
    if chunkCap > 0.0 then Min(profileCap, chunkCap) else profileCap
  }

  function ExecutorCaps(p: Profile, c: Chunk): Caps {
    Caps(Some(Tightened(p.maxLinearSpeed, c.maxLinearSpeed)), Some(Tightened(p.maxAngularSpeed, c.maxAngularSpeed)))
  }

  function Allowance(p: Profile, c: Chunk): Wrench {
    if c.wrenchAllowance.Some? then MinWrench(c.wrenchAllowance.value, p.maxWrenchAllowance)
    else [0.0, 0.0, 0.0, 0.0, 0.0, 0.0]
  }

  /** Whether the chunk gets any payload headroom. */
  predicate Relaxed(p: Profile, c: Chunk) {
    c.wrenchAllowance.Some? && exists i | 0 <= i < 6 :: Allowance(p, c)[i] > 0.0
  }

  function EffectiveWrench(p: Profile, c: Chunk): Wrench {
    var raised := if Relaxed(p, c) then AddWrench(p.maxContactWrench, Allowance(p, c)) else p.maxContactWrench;
    if c.maxContactWrench.Some? then MinWrench(raised, c.maxContactWrench.value) else raised
  }

  function SetupFor(sp: Space, p: Profile, hz: real, c: Chunk): Setup {
    Setup(sp, p, hz, EffectiveWrench(p, c), c.gripGate)
  }

  function ChunkPlan(sp: Space, p: Profile, hz: real, c: Chunk, start: Pose): seq<Tick>
    requires 0.0 < hz
  {
    Plan(sp, hz, ExecutorCaps(p, c), c.waypoints, start, 0)
  }

  /** The state in which the tick loop is entered. */
  function Initial(start: RobotState): Progress {
    Progress(Memory(Some(start.tcp), Some(start.q), Some(ORIGIN)), false, 0, [], [], false, None, None, false, false,
             None)
  }

  /** A whole run of a resolved chunk. */
  function Execution(sp: Space, p: Profile, hz: real, c: Chunk, start: RobotState, env: nat -> TickInput,
                     last: RobotState): Progress
    requires 0.0 < hz
  {
    var ticks := ChunkPlan(sp, p, hz, c, start.tcp);
    Finish(SetupFor(sp, p, hz, c), Run(SetupFor(sp, p, hz, c), Initial(start), ticks, env, |ticks|), last)
  }

  function Sent(events: seq<GripEvent>): seq<GripperCommand> {
    if events == [] then []
    else Sent(events[..|events| - 1]) + if events[|events| - 1].sent then [events[|events| - 1].command] else []
  }

  lemma SentSnoc(events: seq<GripEvent>, e: GripEvent)
    ensures Sent(events + [e]) == Sent(events) + if e.sent then [e.command] else []
  {
    assert (events + [e])[..|events|] == events;
  }

  datatype Outcome =
    | Refused                 // a profile mismatch or an unusable start orientation
    | AbortedAtEntry          // a stop was already pending
    | Ran(success: bool, reason: StopReason, clipped: bool, closeAborted: bool)

  function Report(st: Progress): Outcome {
    Ran(st.stop.None?, if st.stop.Some? then st.stop.value else NoReason, st.clipped, st.closeAborted)
  }

  class Robot {
    const sp: Space
    const hz: real
    const backend: Backend
    const filter: SafetyFilter
    var profile: Profile
    var cancel: bool

    ghost predicate Valid()
      reads this, filter
    {
      0.0 < hz && filter.p == profile && filter.sp == sp && filter.dt == 1.0 / hz
    }

    constructor (sp: Space, hz: real, profile: Profile, backend: Backend)
      requires 0.0 < hz
      ensures Valid() && !cancel && this.backend == backend && this.profile == profile && this.hz == hz && this.sp == sp
      ensures fresh(filter)
    {
      this.sp, this.hz, this.profile, this.backend := sp, hz, profile, backend;
      cancel := false;
      filter := new SafetyFilter(sp, profile, 1.0 / hz);
    }

    method RequestStop()
      modifies this`cancel
      ensures cancel
    {
      cancel := true;
    }

    method ClearStop()
      modifies this`cancel
      ensures !cancel
    {
      cancel := false;
    }

    method Stop()
      modifies this`cancel, backend`mode
      ensures cancel && backend.mode == Idle
    {
      cancel := true;
      backend.Stop();
    }

    /** Executes a chunk. `first` and `again` are the states read before and after an automatic
        mode start, `env` what each tick observes, `last` the state read when the loop has ended. */
    method ExecuteCartesianChunk(chunk: Chunk, first: RobotState, again: RobotState, env: nat -> TickInput,
                                 last: RobotState)
      returns (out: Outcome)
      requires Valid() && chunk.waypoints != []
      modifies this`cancel, filter`prevPose, filter`prevQ, filter`prevVelocity,
        backend`mode, backend`maxWrench, backend`limits, backend`cartesianLog, backend`gripperLog
      ensures Valid()
      ensures old(cancel) ==> out == AbortedAtEntry && !cancel && unchanged(backend) && unchanged(filter)
      ensures !old(cancel) && chunk.safetyProfile != "" && chunk.safetyProfile != profile.name ==>
        out == Refused && !cancel && unchanged(backend)
      ensures !old(cancel) && (chunk.safetyProfile == "" || chunk.safetyProfile == profile.name) ==>
        var start := if old(backend.mode).IsCartesian() then first else again;
        var resolved := ForExecution(sp.qnorm, chunk, start.tcp);
        if resolved.None? then out == Refused && backend.cartesianLog == old(backend.cartesianLog)
        else
          var st := Execution(sp, profile, hz, resolved.value, start, env, last);
          && out == Report(st)
          && cancel == st.cancel
          && backend.cartesianLog == old(backend.cartesianLog) + st.streamed
          && backend.gripperLog == old(backend.gripperLog) + Sent(st.events)
          && (if st.stop.Some? then backend.mode == Idle else backend.mode.IsCartesian())
          && backend.maxWrench == (if Relaxed(profile, resolved.value) || !old(backend.mode).IsCartesian()
                                   then profile.maxContactWrench else old(backend.maxWrench))
          && backend.limits == old(backend.limits)
               + (if old(backend.mode).IsCartesian() then [] else [profile.maxContactWrench])
               + if Relaxed(profile, resolved.value)
                 then [EffectiveWrench(profile, resolved.value), profile.maxContactWrench] else []
    {
      hide Execution, ForExecution, Relaxed, EffectiveWrench, ExecutorCaps, ControlMode.IsCartesian;
      if cancel {
        cancel := false;
        return AbortedAtEntry;
      }
      if chunk.safetyProfile != "" && chunk.safetyProfile != profile.name {
        return Refused;
      }
      var start := first;
      if !backend.mode.IsCartesian() {
        CartesianModes();
        backend.SetMode(NrtCartesianMotionForce, Some(profile.maxContactWrench));
        start := again;
      }
      filter.Reset(start);
      var resolved := PrepareChunk(sp.qnorm, chunk, start.tcp);
      if resolved.None? {
        return Refused;
      }
      out := RunResolved(resolved.value, start, env, last);
    }

    /** The part of the executor after the chunk is resolved and the filter anchored. */
    method RunResolved(c: Chunk, start: RobotState, env: nat -> TickInput, last: RobotState) returns (out: Outcome)
      requires Valid() && !cancel && backend.mode.IsCartesian()
      requires filter.Remembered() == Initial(start).memory
      modifies this`cancel, filter`prevPose, filter`prevVelocity,
        backend`mode, backend`maxWrench, backend`limits, backend`cartesianLog, backend`gripperLog
      ensures Valid()
      ensures var st := Execution(sp, profile, hz, c, start, env, last);
        && out == Report(st)
        && cancel == st.cancel
        && backend.cartesianLog == old(backend.cartesianLog) + st.streamed
        && backend.gripperLog == old(backend.gripperLog) + Sent(st.events)
        && (if st.stop.Some? then backend.mode == Idle else backend.mode.IsCartesian())
        && backend.maxWrench == (if Relaxed(profile, c) then profile.maxContactWrench else old(backend.maxWrench))
        && backend.limits == old(backend.limits)
             + if Relaxed(profile, c) then [EffectiveWrench(profile, c), profile.maxContactWrench] else []
    {
      hide Relaxed, EffectiveWrench, ExecutorCaps, ControlMode.IsCartesian, Advance, Plan, Finish;
      var wrenchCap := EffectiveWrench(profile, c);
      var relaxed := Relaxed(profile, c);
      var interp := new CartesianChunkInterpolator(sp, c.waypoints, start.tcp, hz, ExecutorCaps(profile, c));
      var ticks := interp.Setpoints();
      if relaxed {
        backend.SetContactWrenchLimit(wrenchCap);
      }
      var run := new ChunkRun(this, SetupFor(sp, profile, hz, c));
      assert run.Now() == Initial(start);
      run.Play(ticks, env);
      run.Close(last);
      if relaxed {
        backend.SetContactWrenchLimit(profile.maxContactWrench);
      }
      out := Ran(run.stop.None?, if run.stop.Some? then run.stop.value else NoReason, run.clipped, run.closeAborted);
    }
  }

  lemma CartesianModes()
    ensures NrtCartesianMotionForce.IsCartesian() && RtCartesianMotionForce.IsCartesian()
  {}

  lemma {:induction false} StoppedEarly(x: Setup, st: Progress, ticks: seq<Tick>, env: nat -> TickInput, k: nat, n: nat)
    requires 0.0 < x.hz && k <= n <= |ticks|
    requires k == n || Run(x, st, ticks, env, k).stop.Some?
    ensures Run(x, st, ticks, env, n) == Run(x, st, ticks, env, k)
    decreases n
  {
    hide Advance;
    if k < n { StoppedEarly(x, st, ticks, env, k, n - 1); }
  }

  /** The local state of one chunk while its tick loop runs. */
  class ChunkRun {
    const robot: Robot
    const x: Setup
    var tick: nat
    var stop: Option<StopReason>
    var clipped: bool
    var lastCommand: Option<Vec>
    var closeAborted: bool
    var closeIssued: bool
    var pending: Option<Pending>
    ghost var streamed: seq<Pose>
    ghost var events: seq<GripEvent>
    ghost const cartesianBase: seq<Pose>
    ghost const gripperBase: seq<GripperCommand>

    /** What has been streamed and sent is exactly what the backend has logged. */
    ghost predicate Logged()
      reads this, robot.backend
    {
      && robot.backend.cartesianLog == cartesianBase + streamed
      && robot.backend.gripperLog == gripperBase + Sent(events)
    }

    ghost function Now(): Progress
      reads this, robot, robot.filter
    {
      Progress(robot.filter.Remembered(), robot.cancel, tick, streamed, events, clipped, stop, lastCommand,
               closeAborted, closeIssued, pending)
    }

    constructor (robot: Robot, x: Setup)
      ensures this.robot == robot && this.x == x && Logged()
      ensures cartesianBase == robot.backend.cartesianLog && gripperBase == robot.backend.gripperLog
      ensures Now() == Progress(robot.filter.Remembered(), robot.cancel, 0, [], [], false, None, None, false, false, None)
    {
      this.robot, this.x := robot, x;
      tick, stop, clipped, lastCommand := 0, None, false, None;
      closeAborted, closeIssued, pending := false, false, None;
      streamed, events := [], [];
      cartesianBase, gripperBase := robot.backend.cartesianLog, robot.backend.gripperLog;
    }

    /** Evaluates the tracking gate and fires or drops a close. */
    method TryFireClose(p: Pending, s: RobotState)
      requires x.sp == robot.sp && Logged() && pending == Some(p)
      modifies this`closeAborted, this`closeIssued, this`pending, this`events, robot.backend`gripperLog
      ensures Logged() && Now() == Resolve(x, old(Now()), p, s)
    {
      hide Sent;
      pending := None;
      var error := if lastCommand.Some? then x.sp.norm(lastCommand.value.Sub(s.tcp.pos)) else 0.0;
      if closeAborted || clipped || (x.gate.Some? && error > x.gate.value) {
        closeAborted := true;
        SentSnoc(events, GripEvent(p.segment, p.arrived, tick, p.command, false));
        events := events + [GripEvent(p.segment, p.arrived, tick, p.command, false)];
      } else {
        robot.backend.MoveGripper(p.command);
        closeIssued := true;
        SentSnoc(events, GripEvent(p.segment, p.arrived, tick, p.command, true));
        events := events + [GripEvent(p.segment, p.arrived, tick, p.command, true)];
      }
    }

    /** Sends, defers or drops the command of this tick. */
    method Command(c: GripperCommand, t: Tick, s: RobotState)
      requires x.sp == robot.sp && Logged()
      modifies this`closeAborted, this`closeIssued, this`pending, this`events, robot.backend`gripperLog
      ensures Logged() && Now() == HandleCommand(x, old(Now()), c, t, s)
    {
      hide Sent, Resolve, SettleTicks;
      var closing := Closing(c, s.gripperWidth);
      var gateActive := x.gate.Some? && !(c.grasp && closeIssued);
      if closing && gateActive {
        if closeAborted {
          SentSnoc(events, GripEvent(t.segment, tick, tick, c, false));
          events := events + [GripEvent(t.segment, tick, tick, c, false)];
        } else {
          if pending.Some? {
            TryFireClose(pending.value, s);
          }
          var settle := SettleTicks(x.hz, t.segmentTicks);
          pending := Some(Pending(c, MaxInt(0, tick + settle), t.segment, tick));
        }
      } else {
        robot.backend.MoveGripper(c);
        closeIssued := closeIssued || closing;
        SentSnoc(events, GripEvent(t.segment, tick, tick, c, true));
        events := events + [GripEvent(t.segment, tick, tick, c, true)];
      }
    }

    /** Streams the filtered pose, then serves the gripper. */
    method StreamSetpoint(v: Verdict, t: Tick, s: RobotState)
      requires v.Passed? && x.sp == robot.sp && Logged() && robot.backend.mode.IsCartesian()
      modifies this`clipped, this`streamed, this`lastCommand, this`closeAborted, this`closeIssued, this`pending,
        this`events, robot.backend`cartesianLog, robot.backend`gripperLog
      ensures Logged() && Now() == Stream(x, old(Now()), v, t, s)
    {
      hide Sent, HandleCommand, Resolve;
      if v.clips != [] {
        clipped := true;
      }
      var inMode := robot.backend.StreamCartesian(v.pose);
      assert inMode;
      streamed := streamed + [v.pose];
      if pending.Some? && tick >= pending.value.due {
        TryFireClose(pending.value, s);
      }
      if t.grip.Some? {
        Command(t.grip.value, t, s);
      }
      lastCommand := Some(v.pose.pos);
    }

    /** The body of the tick loop. */
    method Step(t: Tick, i: TickInput)
      requires robot.Valid() && x.sp == robot.sp && x.profile == robot.profile && x.hz == robot.hz
      requires Logged() && stop.None? && robot.backend.mode.IsCartesian()
      modifies this, robot`cancel, robot.filter`prevPose, robot.filter`prevVelocity,
        robot.backend`mode, robot.backend`cartesianLog, robot.backend`gripperLog
      ensures robot.Valid() && Logged() && Now() == Advance(x, old(Now()), t, i) && tick == old(tick) + 1
      ensures if stop.None? then robot.backend.mode.IsCartesian() else robot.backend.mode == Idle
    {
      hide Sent, Filter, Exceeds, Stream, ControlMode.IsCartesian;
      tick := tick + 1;
      if i.stopRequested {
        robot.cancel := true;
      }
      if robot.cancel {
        robot.cancel := false;
        robot.backend.Stop();
        stop := Some(User);
        return;
      }
      if i.fault {
        robot.backend.Stop();
        stop := Some(BackendFault);
        return;
      }
      if Exceeds(i.state.wrench, x.wrenchCap) {
        robot.backend.Stop();
        stop := Some(ContactWrench);
        return;
      }
      var v := robot.filter.FilterCartesian(t.pose, i.state, x.wrenchCap);
      if v.Rejected? {
        robot.backend.Stop();
        stop := Some(v.reason);
        return;
      }
      StreamSetpoint(v, t, i.state);
    }

    /** The tick loop. */
    method Play(ticks: seq<Tick>, env: nat -> TickInput)
      requires robot.Valid() && x.sp == robot.sp && x.profile == robot.profile && x.hz == robot.hz
      requires Logged() && stop.None? && tick == 0 && robot.backend.mode.IsCartesian()
      modifies this, robot`cancel, robot.filter`prevPose, robot.filter`prevVelocity,
        robot.backend`mode, robot.backend`cartesianLog, robot.backend`gripperLog
      ensures robot.Valid() && Logged() && Now() == Run(x, old(Now()), ticks, env, |ticks|)
      ensures if stop.None? then robot.backend.mode.IsCartesian() else robot.backend.mode == Idle
    {
      hide Advance, ControlMode.IsCartesian, Sent;
      ghost var begun := Now();
      while tick < |ticks| && stop.None?
        invariant robot.Valid() && Logged() && tick <= |ticks|
        invariant Now() == Run(x, begun, ticks, env, tick)
        invariant if stop.None? then robot.backend.mode.IsCartesian() else robot.backend.mode == Idle
        decreases |ticks| - tick
      {
        Step(ticks[tick], env(tick));
      }
      StoppedEarly(x, begun, ticks, env, tick, |ticks|);
    }

    /** What happens to a close that is still pending when the loop ends. */
    method Close(last: RobotState)
      requires x.sp == robot.sp && Logged()
      modifies this`closeAborted, this`closeIssued, this`pending, this`events, robot.backend`gripperLog
      ensures Logged() && Now() == Finish(x, old(Now()), last)
    {
      hide Sent, Resolve;
      if pending.Some? {
        var p := pending.value;
        if stop.None? {
          TryFireClose(p, last);
        } else {
          pending := None;
          closeAborted := true;
          SentSnoc(events, GripEvent(p.segment, p.arrived, tick, p.command, false));
          events := events + [GripEvent(p.segment, p.arrived, tick, p.command, false)];
        }
      }
    }
  }
}
