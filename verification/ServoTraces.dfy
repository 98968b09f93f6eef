/** The servo loop over every interleaving of its own steps with targets published by others, with its
    removal, and with the writers that may follow. */
module ServoTraces {
  import opened Numbers
  import opened Geometry
  import opened Types
  import opened SafetyFilters
  import opened FilterTraces
  import opened FilterProgress
  import ExecutorGates
  import opened Interpolation
  import opened JointExecution
  import opened ServoLoops

  /** Where the loop thread is inside its tick. */
  datatype Phase =
    | Between
    | Measured(s: RobotState, ageMs: real)
    | Taken(s: RobotState, ageMs: real, it: nat)      // holds an iterator it has not advanced yet
    | Refreshed(s: RobotState, ageMs: real)
    | Looked(view: View)
    | Failed                                          // a refused stream has ended the loop
    | Ended

  /** What happened under the writer lock: a write of this loop, or what another writer left in the
      shared filter. */
  datatype Entry =
    | Ours(view: View, write: Write)
    | Theirs(pose: Pose, q: seq<real>)

  /** `installed` and `running` are the server's reference to the loop and the loop's own flag. */
  datatype World = World(buffer: Buffer, phase: Phase, memory: Memory, mode: ControlMode, history: seq<Entry>,
                         installed: bool, running: bool)

  datatype Event =
    | SetPose(pose: Pose, gripper: Option<GripperCommand>, now: real)
    | SetJoints(q: seq<real>, now: real)
    | SetChunk(ticks: seq<Tick>, now: real)
    | Measure(s: RobotState, ageMs: real)
    | Take
    | Advance(now: real)
    | LookUp(now: real, faulted: bool)
    | Act
    | CleanUp                                         // the crash handler stops the backend
    | Remove                                          // the server takes the loop out
    | Halt                                            // and tells it to stop
    | Other(memory: Memory, mode: ControlMode)        // another writer's section
  {
    predicate Publishes() { SetPose? || SetJoints? || SetChunk? }
  }

  datatype Config = Config(sp: Space, p: Profile, dt: real)

  predicate Fits(p: Profile, w: World) {
    && |p.jointLower| == |p.jointUpper|
    && (w.buffer.q.Some? ==> |w.buffer.q.value| == |p.jointLower|)
    && (w.buffer.chunk.Some? ==> w.buffer.chunk.value < |w.buffer.iters|)
    && (w.memory.q.Some? ==> |w.memory.q.value| == |p.jointLower|)
    && match w.phase
       case Measured(s, _) => |s.q| == |p.jointLower|
       case Taken(s, _, it) => |s.q| == |p.jointLower| && it < |w.buffer.iters|
       case Refreshed(s, _) => |s.q| == |p.jointLower|
       case Looked(v) => ViewFits(p, w.memory, v)
       case _ => true
  }

  /** What any writer that goes through the shared filter leaves behind. */
  ghost predicate Filtered(c: Config, m: Memory) {
    && m.pose.Some? && m.q.Some? && |m.q.value| == |c.p.jointLower|
    && (c.p.maxLinearAccel.Some? ==> Moving(c.sp, c.p, c.dt, m))
  }

  /** A measured mode is the one in force at that moment. Other writers come only once the loop is
      taken out: as long as it is installed, blocking motions are refused. */
  ghost predicate Enabled(c: Config, w: World, e: Event) {
    match e
    case SetPose(_, _, _) => true
    case SetJoints(q, _) => |q| == |c.p.jointLower|
    case SetChunk(_, _) => true
    case Measure(s, _) => w.phase.Between? && w.running && s.mode == w.mode && |s.q| == |c.p.jointLower|
    case Take => w.phase.Measured?
    case Advance(_) => w.phase.Taken?
    case LookUp(_, _) => w.phase.Refreshed?
    case Act => w.phase.Looked?
    case CleanUp => w.phase.Failed?
    case Remove => w.installed
    case Halt => !w.installed
    case Other(m, _) => !w.installed && Filtered(c, m)
  }

  ghost function Do(c: Config, w: World, e: Event): (w': World)
    requires Enabled(c, w, e) && Fits(c.p, w)
    ensures Fits(c.p, w')
  {
    var b := w.buffer;
    match e
    case SetPose(pose, gripper, now) => w.(buffer := PublishPose(b, pose, gripper, now))
    case SetJoints(q, now) => w.(buffer := PublishJoints(b, q, now))
    case SetChunk(ticks, now) => w.(buffer := PublishChunk(b, ticks, now))
    case Measure(s, ageMs) => w.(phase := Measured(s, ageMs))
    case Take =>
      w.(phase := if b.chunk.Some? then Taken(w.phase.s, w.phase.ageMs, b.chunk.value)
                  else Refreshed(w.phase.s, w.phase.ageMs))
    case Advance(now) => w.(buffer := Pull(b, w.phase.it, now), phase := Refreshed(w.phase.s, w.phase.ageMs))
    case LookUp(now, faulted) => w.(phase := Looked(View(w.phase.s, w.phase.ageMs, Look(b, now), faulted)))
    case Act =>
      var v := w.phase.view;
      var (m, mode, out) := Decide(c.sp, c.p, c.dt, w.memory, w.mode, v);
      MemoryFits(c.sp, c.p, c.dt, w.memory, w.mode, v);
      w.(buffer := if Grips(out) != [] then b.(gripper := None) else b,
         phase := if out.Crashed? then Failed else Between,
         memory := m, mode := mode, history := w.history + [Ours(v, out)])
    case CleanUp => w.(phase := Ended, mode := Idle, running := false)
    case Remove => w.(installed := false)
    case Halt => w.(running := false)
    case Other(m, mode) => w.(memory := m, mode := mode, history := w.history + [Theirs(m.pose.value, m.q.value)])
  }

  lemma MemoryFits(sp: Space, p: Profile, dt: real, m: Memory, mode: ControlMode, v: View)
    requires ViewFits(p, m, v)
    ensures var m' := Decide(sp, p, dt, m, mode, v).0;
      m'.q.Some? ==> |m'.q.value| == |p.jointLower|
  {
    hide Filter, JointStep, JointBox, JointsClose, AnyJointBeyond;
    if !v.snap.cartesian && v.snap.q.Some? {
      BoxKeepsLength(p, v.snap.q.value);
      var ref := if m.q.Some? then m.q.value else v.s.q;
      StepKeepsLength(JointStepCap(p, dt), ref, JointBox(p, v.snap.q.value));
    }
    FilterKeepsJoints(sp, p, dt, m, v);
  }

  lemma StepKeepsLength(cap: real, ref: seq<real>, q: seq<real>)
    requires |ref| == |q|
    ensures |JointStep(cap, ref, q)| == |q|
  {}

  lemma FilterKeepsJoints(sp: Space, p: Profile, dt: real, m: Memory, v: View)
    ensures v.snap.pose.Some? ==> Filter(sp, p, dt, m, v.snap.pose.value, v.s, p.maxContactWrench).0.q == m.q
  {
    hide AfterBox, AfterJump, AfterSpeed, AfterAccel, AfterTurnJump, AfterTurnSpeed, Exceeds, AllClose, Rate, AccelTrips;
  }

  /** The world after the first `n` events. */
  ghost predicate Feasible(c: Config, w: World, events: seq<Event>)
    requires Fits(c.p, w)
    decreases |events|, 0
  {
    events == [] ||
    (var n := |events| - 1;
     Feasible(c, w, events[..n]) && Enabled(c, Ends(c, w, events[..n]), events[n]))
  }

  ghost function Ends(c: Config, w: World, events: seq<Event>): (w': World)
    requires Fits(c.p, w) && Feasible(c, w, events)
    ensures Fits(c.p, w')
    decreases |events|, 1
  {
    if events == [] then w
    else
      var n := |events| - 1;
      Do(c, Ends(c, w, events[..n]), events[n])
  }

  // What every run guarantees.

  /** The pose the next live setpoint is measured against: the last live setpoint, or the pose
      measured by the last hold, or the last pose another writer commanded, whichever came last. */
  function PoseReference(start: RobotState, history: seq<Entry>): Pose {
    if history == [] then start.tcp
    else
      match history[|history| - 1]
      case Theirs(pose, _) => pose
      case Ours(v, w) =>
        if w.Live? then w.pose
        else if w.Held? || w.HeldJoints? then v.s.tcp
        else PoseReference(start, history[..|history| - 1])
  }

  function JointReference(start: RobotState, history: seq<Entry>): seq<real> {
    if history == [] then start.q
    else
      match history[|history| - 1]
      case Theirs(_, q) => q
      case Ours(v, w) =>
        if w.LiveJoints? then w.q
        else if w.Held? || w.HeldJoints? then v.s.q
        else JointReference(start, history[..|history| - 1])
  }

  ghost predicate EntryOk(c: Config, start: RobotState, history: seq<Entry>, k: nat)
    requires k < |history|
  {
    history[k].Ours? ==>
      && RightKind(c.p, history[k].view, history[k].write)
      && LiveOk(c, PoseReference(start, history[..k]), history[k].view, history[k].write)
      && LiveJointsOk(c, JointReference(start, history[..k]), history[k].view, history[k].write)
  }

  /** The last command is older than the profile allows. */
  predicate Overdue(p: Profile, v: View) { p.stopOnStaleCommand && v.snap.age > p.commandTimeoutMs / 1000.0 }

  /** Which write a tick makes: what stops it comes first, then holding, then the live target. Only a
      refused stream makes a tick that should write end without one. */
  predicate RightKind(p: Profile, v: View, w: Write) {
    if v.faulted then w == Halted(BackendFault)
    else if p.stopOnStaleState && v.stateAgeMs > p.stateTimeoutMs then w == Halted(StaleState)
    else if Overdue(p, v) then
      if p.holdTimeoutMs.Some? && v.snap.age > p.holdTimeoutMs.value / 1000.0 then w == Halted(StaleCommand)
      else w.Crashed? || w == if v.snap.cartesian then Held(v.s.tcp) else HeldJoints(v.s.q)
    else if v.snap.cartesian && v.snap.pose.Some? then
      if !Within(v.s.wrench, p.maxContactWrench) then w == Halted(ContactWrench)
      else if p.rejectOutside && !Inflate(p.box).Contains(v.snap.pose.value.pos) then w == Halted(Workspace)
      else w.Crashed? || (w.Live? && w.gripper == v.snap.gripper)
    else if !v.snap.cartesian && v.snap.q.Some? then w.Crashed? || w.LiveJoints?
    else w == Quiet
  }

  /** A live setpoint is one filter step away from the reference; it is the target itself when that is
      within all limits, and otherwise one full step cap nearer to it (as far as it lies in the box). */
  ghost predicate LiveOk(c: Config, ref: Pose, v: View, w: Write) {
    w.Live? ==>
      && v.snap.cartesian && v.snap.pose.Some?
      && c.sp.norm(w.pose.pos.Sub(ref.pos)) <= StepCap(c.p, c.dt)
      && (c.p.maxLinearAccel == None ==>
            && NoFarther(Inflate(c.p.box), w.pose.pos, ref.pos)
            && FullStep(c, ref, v.snap.pose.value, w.pose))
  }

  ghost predicate FullStep(c: Config, ref: Pose, target: Pose, out: Pose) {
    && (0.0 <= c.p.maxAngularSpeed && WithinLimits(c.sp, c.p, c.dt, ref, target) ==> out == target)
    && (c.dt >= TINY && StepCap(c.p, c.dt) >= TINY ==>
          var aim := AfterBox(c.p, target.pos);
          var gap := c.sp.norm(aim.Sub(ref.pos));
          c.sp.norm(aim.Sub(out.pos)) == gap - Min(gap, StepCap(c.p, c.dt)))
  }

  /** A live joint command moves each joint to its target in range, or by the step cap towards it. */
  predicate LiveJointsOk(c: Config, joints: seq<real>, v: View, w: Write) {
    w.LiveJoints? ==>
      && |w.q| == |joints| == |c.p.jointLower| == |c.p.jointUpper|
      && !v.snap.cartesian && v.snap.q.Some? && |v.snap.q.value| == |w.q| == |JointBox(c.p, v.snap.q.value)|
      && (forall i | 0 <= i < |w.q| :: Abs(w.q[i] - joints[i]) <= JointStepCap(c.p, c.dt))
      && JointsNoFarther(c.p, w.q, joints)
      && var boxed := JointBox(c.p, v.snap.q.value);
         forall i | 0 <= i < |w.q| ::
           Abs(boxed[i] - w.q[i]) == Max(0.0, Abs(boxed[i] - joints[i]) - JointStepCap(c.p, c.dt))
  }

  ghost predicate SaneConfig(c: Config) {
    && IsNorm(c.sp.norm) && SaneCaps(c.p) && SaneJoints(c.p) && 0.0 < c.dt
    && (c.p.maxLinearAccel.Some? ==> c.dt >= TINY && 0.0 <= c.p.maxLinearAccel.value)
  }

  ghost predicate Remembers(c: Config, start: RobotState, w: World) {
    && w.memory.pose == Some(PoseReference(start, w.history))
    && w.memory.q == Some(JointReference(start, w.history))
    && (c.p.maxLinearAccel.Some? ==> Moving(c.sp, c.p, c.dt, w.memory))
  }

  /** While the loop is installed nobody else writes, so the mode it measured is the mode in force. */
  predicate Undisturbed(w: World) {
    && (forall k | 0 <= k < |w.history| :: w.history[k].Ours? && !w.history[k].write.Crashed?)
    && match w.phase
       case Between => true
       case Measured(s, _) => s.mode == w.mode
       case Taken(s, _, _) => s.mode == w.mode
       case Refreshed(s, _) => s.mode == w.mode
       case Looked(v) => v.s.mode == w.mode
       case _ => false
  }

  ghost predicate ServoInv(c: Config, start: RobotState, w: World) {
    && (w.phase.Failed? || w.phase.Ended? || Remembers(c, start, w))
    && (w.installed ==> Undisturbed(w))
    && forall k | 0 <= k < |w.history| :: EntryOk(c, start, w.history, k)
  }

  lemma EntryAppended(c: Config, start: RobotState, history: seq<Entry>, e: Entry)
    requires forall k | 0 <= k < |history| :: EntryOk(c, start, history, k)
    requires EntryOk(c, start, history + [e], |history|)
    ensures forall k | 0 <= k < |history + [e]| :: EntryOk(c, start, history + [e], k)
  {
    forall k | 0 <= k < |history| ensures EntryOk(c, start, history + [e], k) {
      assert (history + [e])[..k] == history[..k];
      assert EntryOk(c, start, history, k);
    }
  }

  /** A live Cartesian write is one filter step. */
  lemma LiveStep(c: Config, m: Memory, v: View)
    requires SaneConfig(c) && m.pose.Some? && v.snap.pose.Some?
    requires c.p.maxLinearAccel.Some? ==> Moving(c.sp, c.p, c.dt, m)
    ensures var (m', verdict) := Filter(c.sp, c.p, c.dt, m, v.snap.pose.value, v.s, c.p.maxContactWrench);
      && m'.q == m.q
      && (verdict.Rejected? ==> m' == m)
      && (c.p.maxLinearAccel.Some? ==> Moving(c.sp, c.p, c.dt, m'))
      && (verdict.Passed? ==>
            && m'.pose == Some(verdict.pose)
            && c.sp.norm(verdict.pose.pos.Sub(m.pose.value.pos)) <= StepCap(c.p, c.dt)
            && (c.p.maxLinearAccel == None ==>
                  && NoFarther(Inflate(c.p.box), verdict.pose.pos, m.pose.value.pos)
                  && FullStep(c, m.pose.value, v.snap.pose.value, verdict.pose)))
  {
    hide Filter, IsNorm, StepCap, Inflate, NoFarther, SaneJoints, VelocityCap, PerTick, Vec.Sub, Vec.Add, Vec.Scale,
      FullStep;
    FilterKeepsJoints(c.sp, c.p, c.dt, m, v);
    var call := Call(v.snap.pose.value, v.s, c.p.maxContactWrench);
    if Filter(c.sp, c.p, c.dt, m, call.target, call.s, call.cap).1.Passed? {
      if c.p.maxLinearAccel.Some? {
        AcceleratedStep(c.sp, c.p, c.dt, m, call);
      } else {
        AcceptedStep(c.sp, c.p, c.dt, m, call.target, call.s, call.cap);
        StepIsFull(c, m, v);
      }
    } else {
      RejectionForgets(c.sp, c.p, c.dt, m, call);
    }
  }

  lemma StepIsFull(c: Config, m: Memory, v: View)
    requires SaneConfig(c) && c.p.maxLinearAccel == None && m.pose.Some? && v.snap.pose.Some?
    requires Filter(c.sp, c.p, c.dt, m, v.snap.pose.value, v.s, c.p.maxContactWrench).1.Passed?
    ensures FullStep(c, m.pose.value, v.snap.pose.value,
                     Filter(c.sp, c.p, c.dt, m, v.snap.pose.value, v.s, c.p.maxContactWrench).1.pose)
  {
    var (target, ref) := (v.snap.pose.value, m.pose.value);
    if 0.0 <= c.p.maxAngularSpeed { UnclippedMeansInSpec(c.sp, c.p, c.dt, m, target, v.s, c.p.maxContactWrench); }
    if c.dt >= TINY && StepCap(c.p, c.dt) >= TINY {
      LinearStages(c.sp.norm, c.p, c.dt, ref.pos, AfterBox(c.p, target.pos));
      TowardDistance(c.sp.norm, ref.pos, AfterBox(c.p, target.pos), Kept(c.sp.norm, c.p, c.dt, ref.pos, AfterBox(c.p, target.pos)));
      PositionOfFilter(c, m, v);
      LessShare(Kept(c.sp.norm, c.p, c.dt, ref.pos, AfterBox(c.p, target.pos)), c.sp.norm(AfterBox(c.p, target.pos).Sub(ref.pos)));
    }
    hide Filter, IsNorm, StepCap, SaneJoints, Kept, AfterBox, AfterSpeed, AfterJump, Toward, WithinLimits, Vec.Sub;
  }

  lemma PositionOfFilter(c: Config, m: Memory, v: View)
    requires c.p.maxLinearAccel == None && m.pose.Some? && v.snap.pose.Some?
    requires Filter(c.sp, c.p, c.dt, m, v.snap.pose.value, v.s, c.p.maxContactWrench).1.Passed?
    ensures var x := AfterBox(c.p, v.snap.pose.value.pos);
      Filter(c.sp, c.p, c.dt, m, v.snap.pose.value, v.s, c.p.maxContactWrench).1.pose.pos
      == AfterSpeed(c.sp.norm, c.p, c.dt, m.pose.value.pos, AfterJump(c.sp.norm, c.p, m.pose.value.pos, x))
  {
    hide AfterBox, AfterJump, AfterSpeed, AfterTurnJump, AfterTurnSpeed, Exceeds, AllClose, Rate, Velocity;
  }

  lemma LiveJointStep(c: Config, m: Memory, v: View)
    requires SaneConfig(c) && ViewFits(c.p, m, v) && m.q.Some? && v.snap.q.Some?
    ensures var (m', q, _) := FilterJoints(c.p, c.dt, m, v.snap.q.value, v.s);
      && m' == m.(q := Some(q)) && |q| == |m.q.value| == |c.p.jointLower|
      && (forall i | 0 <= i < |q| :: Abs(q[i] - m.q.value[i]) <= JointStepCap(c.p, c.dt))
      && JointsNoFarther(c.p, q, m.q.value)
      && var boxed := JointBox(c.p, v.snap.q.value);
         && |boxed| == |q|
         && forall i | 0 <= i < |q| ::
              Abs(boxed[i] - q[i]) == Max(0.0, Abs(boxed[i] - m.q.value[i]) - JointStepCap(c.p, c.dt))
  {
    hide IsNorm, JointsNoFarther, JointStep, JointBox, JointsClose, AnyJointBeyond, SaneCaps, Abs, InSlack;
    JointCommandIsSafe(c.p, c.dt, m, v.snap.q.value, v.s);
    JointCommandUsesCap(c.p, c.dt, m, v.snap.q.value, v.s);
  }

  lemma HoldIsSlow(c: Config, s: RobotState)
    requires SaneConfig(c) && c.p.maxLinearAccel.Some?
    ensures Moving(c.sp, c.p, c.dt, Memory(Some(s.tcp), Some(s.q), Some(ORIGIN)))
  {
    hide IsNorm;
    RestIsSlow(c.sp, c.p, c.dt);
  }

  /** One write obeys the rules of its tick. */
  lemma ActIsOk(c: Config, start: RobotState, w: World)
    requires SaneConfig(c) && w.phase.Looked? && Fits(c.p, w) && ServoInv(c, start, w)
    ensures var (m, _, out) := Decide(c.sp, c.p, c.dt, w.memory, w.mode, w.phase.view);
      EntryOk(c, start, w.history + [Ours(w.phase.view, out)], |w.history|)
  {
    var v := w.phase.view;
    var out := Decide(c.sp, c.p, c.dt, w.memory, w.mode, v).2;
    var e, history := Ours(v, out), w.history;
    assert (history + [e])[..|history|] == history && (history + [e])[|history|] == e;
    hide SaneConfig, PoseReference, JointReference, Fits, Decide, RightKind, LiveOk, LiveJointsOk, Undisturbed;
    assert ViewFits(c.p, w.memory, v) by { LookedFits(c.p, w); }
    WriteIsOk(c, w.memory, w.mode, v);
  }

  lemma LookedFits(p: Profile, w: World)
    requires Fits(p, w) && w.phase.Looked?
    ensures ViewFits(p, w.memory, w.phase.view)
  {}

  lemma WriteIsOk(c: Config, m: Memory, mode: ControlMode, v: View)
    requires SaneConfig(c) && ViewFits(c.p, m, v) && m.pose.Some? && m.q.Some?
    requires c.p.maxLinearAccel.Some? ==> Moving(c.sp, c.p, c.dt, m)
    ensures var out := Decide(c.sp, c.p, c.dt, m, mode, v).2;
      RightKind(c.p, v, out) && LiveOk(c, m.pose.value, v, out) && LiveJointsOk(c, m.q.value, v, out)
  {
    KindIsRight(c, m, mode, v);
    hide SaneConfig, Filter, FilterJoints, StepCap, Inflate, NoFarther, Moving, JointsNoFarther, JointStepCap, JointBox,
      StreamMode, Vec.Sub, StateIsStale, CommandIsStale, HeldTooLong, RightKind, FullStep, Abs;
    if v.snap.pose.Some? { LiveStep(c, m, v); }
    if v.snap.q.Some? { LiveJointStep(c, m, v); }
  }

  lemma KindIsRight(c: Config, m: Memory, mode: ControlMode, v: View)
    requires SaneConfig(c) && ViewFits(c.p, m, v)
    ensures RightKind(c.p, v, Decide(c.sp, c.p, c.dt, m, mode, v).2)
  {
    if v.snap.pose.Some? {
      ExecutorGates.FilterRejects(c.sp, c.p, c.dt, m, v.snap.pose.value, v.s, c.p.maxContactWrench);
      InsideMeansInflated(c.p.box, v.snap.pose.value.pos);
    }
    hide SaneConfig, Filter, FilterJoints, StreamMode, Within, Inflate, AllClose, Box.Clip, Box.Contains;
  }

  /** The filter's memory stays the reference: the live setpoint just sent, or the pose just held. */
  lemma ActMovesReference(c: Config, start: RobotState, w: World)
    requires SaneConfig(c) && w.phase.Looked? && Fits(c.p, w) && ServoInv(c, start, w)
    requires !Decide(c.sp, c.p, c.dt, w.memory, w.mode, w.phase.view).2.Crashed?
    ensures var (m, _, out) := Decide(c.sp, c.p, c.dt, w.memory, w.mode, w.phase.view);
      var history := w.history + [Ours(w.phase.view, out)];
      && m.pose == Some(PoseReference(start, history)) && m.q == Some(JointReference(start, history))
      && (c.p.maxLinearAccel.Some? ==> Moving(c.sp, c.p, c.dt, m))
  {
    var v := w.phase.view;
    var out := Decide(c.sp, c.p, c.dt, w.memory, w.mode, v).2;
    var e, history := Ours(v, out), w.history;
    assert (history + [e])[..|history|] == history && (history + [e])[|history|] == e;
    hide SaneConfig, Moving, EntryOk, Decide, Fits, Undisturbed;
    assert ViewFits(c.p, w.memory, v) by { LookedFits(c.p, w); }
    WriteMovesMemory(c, w.memory, w.mode, v);
  }

  lemma WriteMovesMemory(c: Config, m: Memory, mode: ControlMode, v: View)
    requires SaneConfig(c) && ViewFits(c.p, m, v) && m.pose.Some? && m.q.Some?
    requires c.p.maxLinearAccel.Some? ==> Moving(c.sp, c.p, c.dt, m)
    requires !Decide(c.sp, c.p, c.dt, m, mode, v).2.Crashed?
    ensures var (m', _, out) := Decide(c.sp, c.p, c.dt, m, mode, v);
      && m'.pose == (if out.Live? then Some(out.pose) else if out.Held? || out.HeldJoints? then Some(v.s.tcp) else m.pose)
      && m'.q == (if out.LiveJoints? then Some(out.q) else if out.Held? || out.HeldJoints? then Some(v.s.q) else m.q)
      && (c.p.maxLinearAccel.Some? ==> Moving(c.sp, c.p, c.dt, m'))
  {
    hide SaneConfig, Filter, FilterJoints, StepCap, Inflate, NoFarther, Moving, JointsNoFarther, JointStepCap,
      StreamMode, Vec.Sub, StateIsStale, CommandIsStale, HeldTooLong;
    if v.snap.pose.Some? {
      LiveStep(c, m, v);
      var (_, verdict) := Filter(c.sp, c.p, c.dt, m, v.snap.pose.value, v.s, c.p.maxContactWrench);
      assert verdict.Passed? || verdict.Rejected?;
    }
    if v.snap.q.Some? { JointMemory(c, m, v); }
    if c.p.maxLinearAccel.Some? { HoldIsSlow(c, v.s); }
  }

  lemma JointMemory(c: Config, m: Memory, v: View)
    requires ViewFits(c.p, m, v) && v.snap.q.Some?
    requires c.p.maxLinearAccel.Some? ==> Moving(c.sp, c.p, c.dt, m)
    ensures var (m', q, _) := FilterJoints(c.p, c.dt, m, v.snap.q.value, v.s);
      m' == m.(q := Some(q)) && (c.p.maxLinearAccel.Some? ==> Moving(c.sp, c.p, c.dt, m'))
  {
    hide JointStep, JointBox, JointsClose, AnyJointBeyond, VelocityCap;
  }

  /** In the mode it measured, a tick never crashes; it leaves a mode that fits the stream alone, changes
      any other one to one that fits, and a halt leaves the backend idle. */
  lemma NoCrashInMode(c: Config, m: Memory, v: View)
    requires ViewFits(c.p, m, v)
    ensures var (_, mode, out) := Decide(c.sp, c.p, c.dt, m, v.s.mode, v);
      var was := v.s.mode;
      && !out.Crashed?
      && (out.Halted? <==> Poses(out) == [] && Joints(out) == [] && out != Quiet)
      && (out.Halted? ==> mode == Idle)
      && (out.Live? || out.Held? ==> mode.IsCartesian() && (was.IsCartesian() ==> mode == was))
      && (out.LiveJoints? || out.HeldJoints? ==>
            !mode.IsCartesian() && mode != Idle && (!was.IsCartesian() && was != Idle ==> mode == was))
      && (out == Quiet ==> mode == was)
  {
    hide Filter, FilterJoints, StateIsStale, CommandIsStale, HeldTooLong;
  }

  lemma ActKeepsInv(c: Config, start: RobotState, w: World)
    requires SaneConfig(c) && w.phase.Looked? && Fits(c.p, w) && ServoInv(c, start, w)
    ensures ServoInv(c, start, Do(c, w, Act))
  {
    var v := w.phase.view;
    var out := Decide(c.sp, c.p, c.dt, w.memory, w.mode, v).2;
    hide SaneConfig, Decide, Moving, PoseReference, JointReference, EntryOk;
    ActIsOk(c, start, w);
    if !out.Crashed? { ActMovesReference(c, start, w); }
    if w.installed { NoCrashInMode(c, w.memory, v); }
    EntryAppended(c, start, w.history, Ours(v, out));
  }

  lemma OtherKeepsInv(c: Config, start: RobotState, w: World, m: Memory, mode: ControlMode)
    requires Enabled(c, w, Other(m, mode)) && Fits(c.p, w) && ServoInv(c, start, w)
    ensures ServoInv(c, start, Do(c, w, Other(m, mode)))
  {
    var e, history := Theirs(m.pose.value, m.q.value), w.history;
    assert (history + [e])[..|history|] == history && (history + [e])[|history|] == e;
    hide Moving, LiveOk, LiveJointsOk, RightKind;
    assert EntryOk(c, start, history + [e], |history|);
    hide EntryOk;
    EntryAppended(c, start, history, e);
  }

  lemma StepKeepsInv(c: Config, start: RobotState, w: World, e: Event)
    requires SaneConfig(c) && Enabled(c, w, e) && Fits(c.p, w) && ServoInv(c, start, w)
    ensures ServoInv(c, start, Do(c, w, e))
  {
    hide SaneConfig, EntryOk, Decide, Pull, Look, Moving;
    if e.Act? { ActKeepsInv(c, start, w); }
    if e.Other? { OtherKeepsInv(c, start, w, e.memory, e.mode); }
  }

  predicate Started(c: Config, start: RobotState, w: World) {
    && w.memory == Memory(Some(start.tcp), Some(start.q), Some(ORIGIN))
    && w.history == [] && w.phase == Between && w.installed && w.running && Fits(c.p, w)
  }

  /** Whatever the other threads publish and whenever they do it, and also after the loop has been
      taken out and other writers have come in between its measurement and its write, every tick of
      every run is within the rules: it streams nothing when faulted, on stale state or after a hold
      that lasted too long; it holds what it measured itself on a stale command; and a live setpoint
      is one filter step away from the last command, its own or another writer's, or from the pose
      held since. While it is installed nobody else writes and no stream is refused. */
  lemma {:induction false} EveryTickIsSafe(c: Config, start: RobotState, w: World, events: seq<Event>)
    requires SaneConfig(c) && Started(c, start, w) && Feasible(c, w, events)
    ensures ServoInv(c, start, Ends(c, w, events))
    decreases |events|
  {
    hide SaneConfig, Do, Fits, Enabled, EntryOk, Moving;
    if events == [] {
      if c.p.maxLinearAccel.Some? { HoldIsSlow(c, start); }
    } else {
      var n := |events| - 1;
      EveryTickIsSafe(c, start, w, events[..n]);
      StepKeepsInv(c, start, Ends(c, w, events[..n]), events[n]);
    }
  }

  /** The pose an entry anchors the filter at, other than by a live setpoint of the loop. */
  function Anchor(e: Entry): Option<Vec> {
    match e
    case Theirs(pose, _) => Some(pose.pos)
    case Ours(v, w) => if w.Held? || w.HeldJoints? then Some(v.s.tcp.pos) else None
  }

  /** Live setpoints never leave the box while the start, every held pose and every pose another
      writer commanded are inside. */
  lemma {:induction false} LiveStaysInside(c: Config, start: RobotState, history: seq<Entry>)
    requires c.p.maxLinearAccel == None && Inflate(c.p.box).Contains(start.tcp.pos)
    requires forall k | 0 <= k < |history| :: EntryOk(c, start, history, k)
    requires forall k | 0 <= k < |history| && Anchor(history[k]).Some? ::
      Inflate(c.p.box).Contains(Anchor(history[k]).value)
    ensures Inflate(c.p.box).Contains(PoseReference(start, history).pos)
    ensures forall k | 0 <= k < |history| && history[k].Ours? && history[k].write.Live? ::
      Inflate(c.p.box).Contains(history[k].write.pose.pos)
    decreases |history|
  {
    hide Inflate, StepCap, LiveJointsOk, RightKind, Vec.Sub;
    if history != [] {
      var n := |history| - 1;
      forall k | 0 <= k < n ensures EntryOk(c, start, history[..n], k) {
        assert history[..n][..k] == history[..k];
        assert EntryOk(c, start, history, k);
      }
      LiveStaysInside(c, start, history[..n]);
      assert EntryOk(c, start, history, n);
      assert Anchor(history[n]).Some? ==> Inflate(c.p.box).Contains(Anchor(history[n]).value);
    }
  }

  // After the loop has been told to stop.

  /** How many writes of its own the loop has made. */
  function OwnWrites(history: seq<Entry>): nat {
    if history == [] then 0
    else OwnWrites(history[..|history| - 1]) + if history[|history| - 1].Ours? then 1 else 0
  }

  /** The write of the tick that is under way. */
  function Owed(phase: Phase): nat {
    if phase.Measured? || phase.Taken? || phase.Refreshed? || phase.Looked? then 1 else 0
  }

  /** Once told to stop, the loop finishes at most the one tick it is in, and writes at most once more,
      whatever the others do meanwhile. */
  lemma {:induction false} HaltedLoopWritesOnce(c: Config, w: World, events: seq<Event>)
    requires Fits(c.p, w) && Feasible(c, w, events) && !w.running
    ensures var end := Ends(c, w, events);
      !end.running && OwnWrites(end.history) + Owed(end.phase) <= OwnWrites(w.history) + Owed(w.phase)
    decreases |events|
  {
    hide Decide, Fits, Pull, Look;
    if events != [] {
      var n := |events| - 1;
      HaltedLoopWritesOnce(c, w, events[..n]);
      var was := Ends(c, w, events[..n]);
      var now := Do(c, was, events[n]);
      if events[n].Act? || events[n].Other? {
        assert now.history[..|now.history| - 1] == was.history;
      }
    }
  }
}
