/** The dry run of a chunk, and why it is the stream the executor sends. */
module Previews {
  import opened Numbers
  import opened Geometry
  import opened Types
  import opened SafetyFilters
  import opened FilterTraces
  import opened Interpolation
  import opened InterpolationBounds
  import opened ActionChunks
  import opened ChunkExecution
  import opened CloseGate
  import opened ExecutorGates

  /** The caps of the preview: a chunk cap of zero means "none", any other one takes part in the
      minimum; without a profile only the chunk's caps bind. */
  function PreviewCap(profileCap: Option<real>, chunkCap: real): Option<real> {
    if chunkCap == 0.0 then profileCap
    else if profileCap.None? then Some(chunkCap)
    else Some(Min(chunkCap, profileCap.value))
  }

  function PreviewCaps(p: Option<Profile>, c: Chunk): Caps {
    Caps(PreviewCap(if p.Some? then Some(p.value.maxLinearSpeed) else None, c.maxLinearSpeed),
         PreviewCap(if p.Some? then Some(p.value.maxAngularSpeed) else None, c.maxAngularSpeed))
  }

  /** Executor and preview agree on a cap exactly when the chunk's cap is not negative, or is one
      that does not tighten anything. The executor's is the smaller of the profile's and a positive one
      of the chunk; a preview without a profile takes the chunk's alone. */
  lemma CapsAgree(profileCap: real, chunkCap: real)
    ensures PreviewCap(Some(profileCap), chunkCap) == Some(Tightened(profileCap, chunkCap))
       <==> 0.0 <= chunkCap || profileCap <= chunkCap
    ensures Tightened(profileCap, chunkCap) <= profileCap && (0.0 < chunkCap ==> Tightened(profileCap, chunkCap) <= chunkCap)
    ensures Tightened(profileCap, chunkCap) == profileCap || 0.0 < chunkCap == Tightened(profileCap, chunkCap)
    ensures PreviewCap(None, 0.0) == None && (chunkCap != 0.0 ==> PreviewCap(None, chunkCap) == Some(chunkCap))
  {}

  function Poses(ticks: seq<Tick>): seq<Pose> { seq(|ticks|, i requires 0 <= i < |ticks| => ticks[i].pose) }

  /** A gripper actuation inside the previewed stream. */
  datatype GripperEvent = GripperEvent(tick: nat, position: Vec, command: GripperCommand, closing: bool)

  datatype ChunkPreview = ChunkPreview(setpoints: seq<Pose>, events: seq<GripperEvent>, durationSeconds: real)

  function CommandedWidth(c: GripperCommand): real { if c.grasp then 0.0 else c.width }

  function PreviousWidth(events: seq<GripperEvent>): Option<real> {
    if events == [] then None else Some(CommandedWidth(events[|events| - 1].command))
  }

  predicate Narrowing(c: GripperCommand, before: Option<real>) {
    c.grasp || (before.Some? && c.width < before.value - 0.000001)
  }

  /** The gripper events of a stretch of the stream. */
  function Annotated(ticks: seq<Tick>): seq<GripperEvent> {
    if ticks == [] then []
    else
      var k := |ticks| - 1;
      var before := Annotated(ticks[..k]);
      before + if ticks[k].grip.None? then []
               else [GripperEvent(k, ticks[k].pose.pos, ticks[k].grip.value,
                                  Narrowing(ticks[k].grip.value, PreviousWidth(before)))]
  }

  method PlanChunkPreview(sp: Space, chunk: Chunk, start: Pose, p: Option<Profile>, hz: real)
    returns (preview: Option<ChunkPreview>)
    requires 0.0 < hz && chunk.waypoints != []
    ensures preview.Some? <==> ForExecution(sp.qnorm, chunk, start).Some?
    ensures preview.Some? ==>
      var c := ForExecution(sp.qnorm, chunk, start).value;
      var ticks := Plan(sp, hz, PreviewCaps(p, c), c.waypoints, start, 0);
      && preview.value.setpoints == Poses(ticks)
      && preview.value.durationSeconds == |ticks| as real / hz
      && preview.value.events == Annotated(ticks)
  {
    hide PreviewCaps, ForExecution, Plan, Annotated;
    var resolved := PrepareChunk(sp.qnorm, chunk, start);
    if resolved.None? {
      return None;
    }
    var c := resolved.value;
    var interp := new CartesianChunkInterpolator(sp, c.waypoints, start, hz, PreviewCaps(p, c));
    var ticks := interp.Setpoints();
    var poses, events := Annotate(ticks);
    preview := Some(ChunkPreview(poses, events, |poses| as real / hz));
  }

  /** Collects the poses and the gripper events, remembering the width commanded last. */
  method Annotate(ticks: seq<Tick>) returns (poses: seq<Pose>, events: seq<GripperEvent>)
    ensures poses == Poses(ticks) && events == Annotated(ticks)
  {
    poses, events := [], [];
    var prevWidth: Option<real> := None;
    for i := 0 to |ticks|
      invariant poses == Poses(ticks[..i])
      invariant events == Annotated(ticks[..i]) && prevWidth == PreviousWidth(events)
    {
      assert ticks[..i + 1][..i] == ticks[..i];
      var pose, grip := ticks[i].pose, ticks[i].grip;
      if grip.Some? {
        var width := if grip.value.grasp then 0.0 else grip.value.width;
        var closing := grip.value.grasp || (prevWidth.Some? && width < prevWidth.value - 0.000001);
        events := events + [GripperEvent(|poses|, pose.pos, grip.value, closing)];
        prevWidth := Some(width);
      }
      poses := poses + [pose];
    }
    assert ticks[..|ticks|] == ticks;
  }

  /** The event list names every gripper command of the stream once, in order, at the tick and
      position it arrives at, and says whether it closes relative to the command before it. */
  predicate Announced(ticks: seq<Tick>, events: seq<GripperEvent>) {
    && |events| == |Arrivals(ticks)|
    && forall k | 0 <= k < |events| ::
      var e, a := events[k], Arrivals(ticks)[k];
      && 1 <= a.tick <= |ticks| && e.tick == a.tick - 1
      && e.position == ticks[e.tick].pose.pos && e.command == a.command
      && (e.closing <==> ClosesAfter(events, k))
  }

  /** A grasp, or a width below that of the command before (a grasp counts as closed). */
  predicate ClosesAfter(events: seq<GripperEvent>, k: nat)
    requires k < |events|
  {
    var c := events[k].command;
    || c.grasp
    || (0 < k && var was := events[k - 1].command; c.width < (if was.grasp then 0.0 else was.width) - 0.000001)
  }

  lemma LastCloses(before: seq<GripperEvent>, e: GripperEvent)
    ensures ClosesAfter(before + [e], |before|) <==> Narrowing(e.command, PreviousWidth(before))
  {}

  lemma ClosesAsBefore(before: seq<GripperEvent>, e: GripperEvent, k: nat)
    requires k < |before|
    ensures ClosesAfter(before + [e], k) <==> ClosesAfter(before, k)
  {}

  lemma {:induction false} EventsAreAnnounced(ticks: seq<Tick>)
    ensures Announced(ticks, Annotated(ticks))
  {
    if ticks != [] {
      var k := |ticks| - 1;
      EventsAreAnnounced(ticks[..k]);
      hide Announced, Narrowing, PreviousWidth;
      if ticks[k].grip.Some? {
        var before := Annotated(ticks[..k]);
        OneMoreAnnounced(ticks, before, GripperEvent(k, ticks[k].pose.pos, ticks[k].grip.value,
                                                     Narrowing(ticks[k].grip.value, PreviousWidth(before))));
      } else {
        SilentTick(ticks, Annotated(ticks[..k]));
      }
    }
  }

  lemma SilentTick(ticks: seq<Tick>, events: seq<GripperEvent>)
    requires ticks != [] && ticks[|ticks| - 1].grip.None? && Announced(ticks[..|ticks| - 1], events)
    ensures Announced(ticks, events)
  {
    hide ClosesAfter;
  }

  lemma OneMoreAnnounced(ticks: seq<Tick>, before: seq<GripperEvent>, e: GripperEvent)
    requires ticks != [] && ticks[|ticks| - 1].grip.Some? && Announced(ticks[..|ticks| - 1], before)
    requires var k := |ticks| - 1;
      && e.tick == k && e.position == ticks[k].pose.pos && e.command == ticks[k].grip.value
      && e.closing == Narrowing(e.command, PreviousWidth(before))
    ensures Announced(ticks, before + [e])
  {
    hide ClosesAfter, Narrowing, PreviousWidth;
    LastCloses(before, e);
    forall j | 0 <= j < |before| ensures ClosesAfter(before + [e], j) <==> ClosesAfter(before, j) {
      ClosesAsBefore(before, e, j);
    }
  }

  // Why the executor sends exactly that stream.

  /** A setpoint that already respects every limit passes the filter unchanged. */
  lemma InSpecPasses(sp: Space, p: Profile, dt: real, m: Memory, target: Pose, s: RobotState, cap: Wrench)
    requires 0.0 < dt && 0.0 <= p.maxLinearSpeed && 0.0 <= p.maxAngularSpeed && p.maxLinearAccel == None
    requires m.pose.Some? && p.box.Contains(target.pos) && Within(s.wrench, cap)
    requires WithinStep(sp, m.pose.value, target, p.maxJumpLinear, p.maxJumpAngular)
    requires WithinStep(sp, m.pose.value, target, PerTick(p.maxLinearSpeed, dt), PerTick(p.maxAngularSpeed, dt))
    ensures var (m', v) := Filter(sp, p, dt, m, target, s, cap);
      v == Passed(target, []) && m'.pose == Some(target)
  {
    WithinMeans(s.wrench, cap);
    hide Exceeds, Within, Rate, PerTick, Share, Toward, Vec.Sub;
    var ref := m.pose.value;
    RateBound(sp.norm(target.pos.Sub(ref.pos)), dt, p.maxLinearSpeed);
    RateBound(sp.angle(ref.quat, target.quat), dt, p.maxAngularSpeed);
    PerTickBounds(p.maxLinearSpeed, dt);
    PerTickBounds(p.maxAngularSpeed, dt);
    assert p.box.Clip(target.pos) == target.pos;
    assert AllClose(target.pos, target.pos);
  }

  /** Every waypoint keeps the orientation the chunk starts with. */
  predicate HoldsOrientation(ws: seq<Waypoint>) { forall w | w in ws :: w.quaternion.None? }

  /** Turning under the speed cap stays under the jump cap, or the chunk does not turn at all. */
  ghost predicate TurnsInSpec(sp: Space, p: Profile, hz: real, ws: seq<Waypoint>, start: Pose)
    requires 0.0 < hz
  {
    || PerTick(p.maxAngularSpeed, 1.0 / hz) <= p.maxJumpAngular
    || (HoldsOrientation(ws) && sp.angle(start.quat, start.quat) == 0.0 && 0.0 <= p.maxJumpAngular)
  }

  /** What a caller can check before sending a resolved chunk. */
  ghost predicate InSpec(sp: Space, p: Profile, hz: real, c: Chunk, start: Pose)
    requires 0.0 < hz
  {
    && 0.0 < p.maxLinearSpeed && 0.0 < p.maxAngularSpeed && p.maxLinearAccel == None
    && 0.0 <= c.maxLinearSpeed && 0.0 <= c.maxAngularSpeed
    && PerTick(p.maxLinearSpeed, 1.0 / hz) <= p.maxJumpLinear
    && p.box.Contains(start.pos) && (forall w | w in c.waypoints :: p.box.Contains(w.position))
    && SlerpsAlong(sp, c.waypoints, start) && TurnsInSpec(sp, p, hz, c.waypoints, start)
  }

  lemma StillTick(sp: Space, from: Pose, to: Pose, k: nat, n: nat)
    requires IsEase(sp.ease, sp.peak) && 1 <= k <= n
    requires SlerpOk(sp, from.quat, to.quat) && sp.angle(from.quat, to.quat) == 0.0
    ensures sp.angle(PoseAt(sp, from, to, k - 1, n).quat, PoseAt(sp, from, to, k, n).quat) <= 0.0
    ensures k == 1 ==> sp.angle(from.quat, PoseAt(sp, from, to, k, n).quat) <= 0.0
  {
    hide IsEase, Toward;
    EaseAt(sp.ease, sp.peak, k, n);
    var s, t := sp.ease((k - 1) as real / n as real), sp.ease(k as real / n as real);
    SlerpBetween(sp, from.quat, to.quat, s, t, t - s);
    assert (t - s) * 0.0 == 0.0 && t * 0.0 == 0.0;
  }

  ghost predicate Still(sp: Space, from: Pose, ticks: seq<Tick>) {
    forall i | 0 <= i < |ticks| :: sp.angle(PoseBefore(from, ticks, i).quat, ticks[i].pose.quat) <= 0.0
  }

  /** A chunk that holds its orientation does not turn at any tick. */
  lemma {:induction false} PlanHoldsStill(sp: Space, hz: real, caps: Caps, ws: seq<Waypoint>, from: Pose, last: Pose,
                                          index: nat)
    requires IsEase(sp.ease, sp.peak) && 0.0 < hz && HoldsOrientation(ws) && SlerpsAlong(sp, ws, from)
    requires sp.angle(from.quat, from.quat) == 0.0 && SameTurn(sp, last.quat, from.quat)
    ensures Still(sp, last, Plan(sp, hz, caps, ws, from, index))
    decreases ws
  {
    hide IsEase, SegmentTicks, PoseAt;
    if ws != [] {
      var to := TargetPose(from, ws[0]);
      var n := SegmentTicks(sp, hz, caps, from, to, ws[0].timing);
      var head := Segment(sp, from, to, n, index, ws[0].gripper);
      StillSegment(sp, last, from, to, n, index, ws[0].gripper);
      PlanHoldsStill(sp, hz, caps, ws[1..], to, head[n - 1].pose, index + 1);
      hide Segment;
      StillConcat(sp, last, head, Plan(sp, hz, caps, ws[1..], to, index + 1));
    }
  }

  lemma StillSegment(sp: Space, last: Pose, from: Pose, to: Pose, n: nat, index: nat, grip: Option<GripperCommand>)
    requires IsEase(sp.ease, sp.peak) && 0 < n && SlerpOk(sp, from.quat, to.quat)
    requires sp.angle(from.quat, to.quat) == 0.0 && SameTurn(sp, last.quat, from.quat)
    ensures var ticks := Segment(sp, from, to, n, index, grip);
      Still(sp, last, ticks) && SameTurn(sp, ticks[n - 1].pose.quat, to.quat)
  {
    var ticks := Segment(sp, from, to, n, index, grip);
    EaseEnd(sp.ease, sp.peak, n);
    hide IsEase, Toward;
    assert SameTurn(sp, sp.slerp(from.quat, to.quat, 1.0), to.quat);
    assert ticks[n - 1].pose.quat == sp.slerp(from.quat, to.quat, 1.0);
    hide SlerpOk, PoseAt;
    forall i | 0 <= i < |ticks| ensures sp.angle(PoseBefore(last, ticks, i).quat, ticks[i].pose.quat) <= 0.0 {
      StillTick(sp, from, to, i + 1, n);
    }
  }

  lemma StillConcat(sp: Space, from: Pose, a: seq<Tick>, b: seq<Tick>)
    requires a != [] && Still(sp, from, a) && Still(sp, a[|a| - 1].pose, b)
    ensures Still(sp, from, a + b)
  {
    forall i | 0 <= i < |a + b| ensures sp.angle(PoseBefore(from, a + b, i).quat, (a + b)[i].pose.quat) <= 0.0 {
      if i < |a| {
        assert PoseBefore(from, a + b, i) == PoseBefore(from, a, i);
      } else {
        assert PoseBefore(from, a + b, i) == PoseBefore(a[|a| - 1].pose, b, i - |a|);
        assert (a + b)[i] == b[i - |a|];
      }
    }
  }

  /** Each tick of the plan meets every limit of the filter relative to the tick before it. */
  ghost predicate Compliant(sp: Space, p: Profile, dt: real, from: Pose, ticks: seq<Tick>) {
    forall i | 0 <= i < |ticks| ::
      && p.box.Contains(ticks[i].pose.pos)
      && WithinStep(sp, PoseBefore(from, ticks, i), ticks[i].pose, p.maxJumpLinear, p.maxJumpAngular)
      && WithinStep(sp, PoseBefore(from, ticks, i), ticks[i].pose,
                    PerTick(p.maxLinearSpeed, dt), PerTick(p.maxAngularSpeed, dt))
  }

  lemma CapsTighten(p: Profile, c: Chunk, dt: real)
    requires 0.0 < p.maxLinearSpeed && 0.0 < p.maxAngularSpeed && 0.0 < dt
    ensures BothCapped(ExecutorCaps(p, c))
    ensures PerTick(ExecutorCaps(p, c).linear.value, dt) <= PerTick(p.maxLinearSpeed, dt)
    ensures 0.0 <= PerTick(ExecutorCaps(p, c).angular.value, dt) <= PerTick(p.maxAngularSpeed, dt)
  {
    MulMono(ExecutorCaps(p, c).linear.value, p.maxLinearSpeed, dt);
    MulMono(ExecutorCaps(p, c).angular.value, p.maxAngularSpeed, dt);
    MulNonNeg(ExecutorCaps(p, c).angular.value, dt);
  }

  lemma PlanComplies(sp: Space, p: Profile, hz: real, c: Chunk, start: Pose)
    requires IsNorm(sp.norm) && IsEase(sp.ease, sp.peak) && 0.0 < hz && InSpec(sp, p, hz, c, start)
    ensures Compliant(sp, p, 1.0 / hz, start, ChunkPlan(sp, p, hz, c, start))
  {
    hide IsNorm, IsEase, Plan, PerTick, SlerpsAlong, HoldsOrientation, Box.Contains, ExecutorCaps, Vec.Sub;
    var dt := 1.0 / hz;
    DivMul(1.0, hz);
    DivAtLeast(1.0, 0.0, hz);
    var caps, ticks := ExecutorCaps(p, c), ChunkPlan(sp, p, hz, c, start);
    CapsTighten(p, c, dt);
    PlanInBox(sp, hz, caps, c.waypoints, start, 0, p.box);
    PlanSmooth(sp, hz, caps, c.waypoints, start, start, 0);
    if !(PerTick(p.maxAngularSpeed, dt) <= p.maxJumpAngular) {
      PlanHoldsStill(sp, hz, caps, c.waypoints, start, start, 0);
    }
    forall i | 0 <= i < |ticks|
      ensures p.box.Contains(ticks[i].pose.pos)
      ensures WithinStep(sp, PoseBefore(start, ticks, i), ticks[i].pose, p.maxJumpLinear, p.maxJumpAngular)
      ensures WithinStep(sp, PoseBefore(start, ticks, i), ticks[i].pose,
                         PerTick(p.maxLinearSpeed, dt), PerTick(p.maxAngularSpeed, dt))
    {
      assert ticks[i] in ticks;
      assert WithinStep(sp, PoseBefore(start, ticks, i), ticks[i].pose,
                        PerTick(caps.linear.value, dt), PerTick(caps.angular.value, dt));
    }
  }

  /** As long as nothing stops it, the run repeats the plan tick by tick; a stop cuts it short. */
  ghost predicate Repeats(x: Setup, start: Pose, ticks: seq<Tick>, env: nat -> TickInput, st: Progress, n: nat)
    requires n <= |ticks|
  {
    && !st.clipped && |st.streamed| <= n && st.streamed == Poses(ticks[..|st.streamed|])
    && (st.stop.None? <==> Undisturbed(x, env, n))
    && (st.stop.None? ==> |st.streamed| == n && !st.cancel && st.memory.pose == Some(PoseBefore(start, ticks, n)))
  }

  lemma {:induction false} RunRepeatsPlan(x: Setup, start: RobotState, ticks: seq<Tick>, env: nat -> TickInput, n: nat)
    requires 0.0 < x.hz && 0.0 <= x.profile.maxLinearSpeed && 0.0 <= x.profile.maxAngularSpeed
    requires x.profile.maxLinearAccel == None
    requires Compliant(x.sp, x.profile, 1.0 / x.hz, start.tcp, ticks) && n <= |ticks|
    ensures Repeats(x, start.tcp, ticks, env, Run(x, Initial(start), ticks, env, n), n)
  {
    hide Compliant, Advance, Calm;
    if n > 0 {
      RunRepeatsPlan(x, start, ticks, env, n - 1);
      var st := Run(x, Initial(start), ticks, env, n - 1);
      if st.stop.None? {
        StepRepeatsPlan(x, start.tcp, ticks, env, st, n - 1);
      } else {
        assert !Undisturbed(x, env, n - 1);
      }
    }
  }

  lemma StepRepeatsPlan(x: Setup, start: Pose, ticks: seq<Tick>, env: nat -> TickInput, st: Progress, n: nat)
    requires 0.0 < x.hz && 0.0 <= x.profile.maxLinearSpeed && 0.0 <= x.profile.maxAngularSpeed
    requires x.profile.maxLinearAccel == None
    requires Compliant(x.sp, x.profile, 1.0 / x.hz, start, ticks) && n < |ticks|
    requires st.stop.None? && Repeats(x, start, ticks, env, st, n)
    ensures Repeats(x, start, ticks, env, Advance(x, st, ticks[n], env(n)), n + 1)
  {
    hide Exceeds, Filter, Stream, WithinStep, Box.Contains, PerTick;
    hide Within;
    var i := env(n);
    WithinMeans(i.state.wrench, x.wrenchCap);
    var begun := st.(tick := st.tick + 1, cancel := st.cancel || i.stopRequested);
    if Calm(x, i) {
      var dt := 1.0 / x.hz;
      DivMul(1.0, x.hz);
      DivAtLeast(1.0, 0.0, x.hz);
      assert 0.0 < dt;
      InSpecPasses(x.sp, x.profile, dt, begun.memory, ticks[n].pose, i.state, x.wrenchCap);
      var (memory, v) := Filter(x.sp, x.profile, dt, begun.memory, ticks[n].pose, i.state, x.wrenchCap);
      StreamAdds(x, begun.(memory := memory), v, ticks[n], i.state);
      assert ticks[..n + 1][..n] == ticks[..n];
    }
  }

  /** The preview is the executed stream. A chunk that is in spec is never clipped; whatever it
      sends is a prefix of the previewed setpoints, and all of them exactly when no stop request,
      fault or excessive wrench is met on the way. */
  lemma PreviewIsExecution(sp: Space, p: Profile, hz: real, c: Chunk, start: RobotState, env: nat -> TickInput,
                           last: RobotState)
    requires IsNorm(sp.norm) && IsEase(sp.ease, sp.peak) && 0.0 < hz && InSpec(sp, p, hz, c, start.tcp)
    ensures var st := Execution(sp, p, hz, c, start, env, last);
      var preview := Poses(Plan(sp, hz, PreviewCaps(Some(p), c), c.waypoints, start.tcp, 0));
      && !st.clipped
      && |st.streamed| <= |preview| && st.streamed == preview[..|st.streamed|]
      && (st.stop.None? <==> Undisturbed(SetupFor(sp, p, hz, c), env, |preview|))
      && (st.stop.None? ==> st.streamed == preview)
  {
    hide IsNorm, IsEase, Plan, PerTick, SlerpsAlong, TurnsInSpec, Box.Contains, Run, Undisturbed, Compliant,
      EffectiveWrench, Initial, GateRefuses;
    CapsAgree(p.maxLinearSpeed, c.maxLinearSpeed);
    CapsAgree(p.maxAngularSpeed, c.maxAngularSpeed);
    var ticks, x := ChunkPlan(sp, p, hz, c, start.tcp), SetupFor(sp, p, hz, c);
    PlanComplies(sp, p, hz, c, start.tcp);
    RunRepeatsPlan(x, start, ticks, env, |ticks|);
    assert ticks[..|ticks|] == ticks;
  }

  /** The two in a row, from the same measured state: what the backend has logged afterwards is what
      the preview announced, up to the tick that stopped the chunk if one did. */
  method PreviewThenExecute(robot: Robot, chunk: Chunk, start: RobotState, env: nat -> TickInput, last: RobotState)
    returns (preview: Option<ChunkPreview>, out: Outcome)
    requires robot.Valid() && !robot.cancel && chunk.waypoints != []
    requires chunk.safetyProfile == "" || chunk.safetyProfile == robot.profile.name
    requires IsNorm(robot.sp.norm) && IsEase(robot.sp.ease, robot.sp.peak)
    requires var c := ForExecution(robot.sp.qnorm, chunk, start.tcp);
      c.Some? ==> InSpec(robot.sp, robot.profile, robot.hz, c.value, start.tcp)
    modifies robot`cancel, robot.filter`prevPose, robot.filter`prevQ, robot.filter`prevVelocity,
      robot.backend`mode, robot.backend`maxWrench, robot.backend`limits, robot.backend`cartesianLog, robot.backend`gripperLog
    ensures preview.Some? <==> ForExecution(robot.sp.qnorm, chunk, start.tcp).Some?
    ensures preview.None? ==> out == Outcome.Refused && robot.backend.cartesianLog == old(robot.backend.cartesianLog)
    ensures preview.Some? ==>
      var (setpoints, before, after) :=
        (preview.value.setpoints, old(robot.backend.cartesianLog), robot.backend.cartesianLog);
      var x := SetupFor(robot.sp, robot.profile, robot.hz, ForExecution(robot.sp.qnorm, chunk, start.tcp).value);
      && out.Ran? && !out.clipped
      && before <= after && after[|before|..] <= setpoints
      && (out.success <==> Undisturbed(x, env, |setpoints|))
      && (out.success ==> after == before + setpoints)
  {
    hide IsNorm, IsEase, InSpec, ForExecution, Plan, Execution, Undisturbed, Annotated, PreviewCaps, SetupFor, Relaxed,
      ControlMode.IsCartesian;
    ghost var c := ForExecution(robot.sp.qnorm, chunk, start.tcp);
    preview := PlanChunkPreview(robot.sp, chunk, start.tcp, Some(robot.profile), robot.hz);
    out := robot.ExecuteCartesianChunk(chunk, start, start, env, last);
    if c.Some? {
      PreviewIsExecution(robot.sp, robot.profile, robot.hz, c.value, start, env, last);
    }
  }
}
