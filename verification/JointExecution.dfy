/** The joint-space executor: interpolation, filter and gates, and why an in-range chunk is sent
    exactly as planned. */
module JointExecution {
  import opened Numbers
  import opened Geometry
  import opened Types
  import opened SafetyFilters
  import opened FilterTraces
  import opened Interpolation
  import opened InterpolationBounds
  import opened Backends
  import opened ChunkExecution

  datatype JointWaypoint = JointWaypoint(positions: seq<real>, timing: Timing)

  datatype JointChunk = JointChunk(waypoints: seq<JointWaypoint>, safetyProfile: string)

  /** The largest joint displacement. */
  function Excursion(a: seq<real>, b: seq<real>): real
    requires |a| == |b|
  {
    if a == [] then 0.0
    else
      var k := |a| - 1;
      Max(Excursion(a[..k], b[..k]), Abs(b[k] - a[k]))
  }

  lemma {:induction false} ExcursionBounds(a: seq<real>, b: seq<real>)
    requires |a| == |b|
    ensures 0.0 <= Excursion(a, b)
    ensures forall i | 0 <= i < |a| :: Abs(b[i] - a[i]) <= Excursion(a, b)
  {
    if a != [] {
      var k := |a| - 1;
      ExcursionBounds(a[..k], b[..k]);
      assert forall i | 0 <= i < k :: a[..k][i] == a[i] && b[..k][i] == b[i];
    }
  }

  function JointSegmentTicks(sp: Space, hz: real, cap: real, from: seq<real>, to: seq<real>, t: Timing): (n: nat)
    requires 0.0 < hz && |from| == |to|
    ensures 0 < n
  {
    MaxInt(NominalTicks(t, hz), StretchedTicks(sp.peak, Excursion(from, to), Some(cap), 1.0 / hz))
  }

  function Between(s: real, from: seq<real>, to: seq<real>): (q: seq<real>)
    requires |from| == |to|
    ensures |q| == |from|
  {
    seq(|from|, i requires 0 <= i < |from| => from[i] + s * (to[i] - from[i]))
  }

  function JointSegment(sp: Space, from: seq<real>, to: seq<real>, n: nat): (qs: seq<seq<real>>)
    requires 0 < n && |from| == |to|
    ensures |qs| == n
  {
    seq(n, k requires 0 <= k < n => Between(sp.ease((k + 1) as real / n as real), from, to))
  }

  predicate Sized(ws: seq<JointWaypoint>, n: nat) { forall w | w in ws :: |w.positions| == n }

  function JointPlan(sp: Space, hz: real, cap: real, ws: seq<JointWaypoint>, from: seq<real>): seq<seq<real>>
    requires 0.0 < hz && Sized(ws, |from|)
  {
    if ws == [] then []
    else
      var k := |ws| - 1;
      var was := if k == 0 then from else ws[k - 1].positions;
      JointPlan(sp, hz, cap, ws[..k], from)
      + JointSegment(sp, was, ws[k].positions, JointSegmentTicks(sp, hz, cap, was, ws[k].positions, ws[k].timing))
  }

  /** The generator behind a joint chunk. */
  method JointSetpoints(sp: Space, hz: real, cap: real, ws: seq<JointWaypoint>, start: seq<real>)
    returns (qs: seq<seq<real>>)
    requires 0.0 < hz && Sized(ws, |start|)
    ensures qs == JointPlan(sp, hz, cap, ws, start)
  {
    qs := [];
    var prev := start;
    for i := 0 to |ws|
      invariant prev == if i == 0 then start else ws[i - 1].positions
      invariant qs == JointPlan(sp, hz, cap, ws[..i], start)
    {
      hide JointSegment, JointSegmentTicks, Sized;
      SizedPrefix(ws, |start|, i);
      var n := JointTicksFor(sp, hz, cap, prev, ws[i].positions, ws[i].timing);
      var segment := InterpolateJoints(sp, prev, ws[i].positions, n);
      qs := qs + segment;
      prev := ws[i].positions;
    }
    assert ws[..|ws|] == ws;
  }

  lemma SizedPrefix(ws: seq<JointWaypoint>, n: nat, i: nat)
    requires Sized(ws, n) && i < |ws|
    ensures Sized(ws[..i], n) && Sized(ws[..i + 1], n) && ws[..i + 1][..i] == ws[..i]
    ensures |ws[i].positions| == n && (0 < i ==> |ws[i - 1].positions| == n)
  {}

  method JointTicksFor(sp: Space, hz: real, cap: real, from: seq<real>, to: seq<real>, t: Timing) returns (n: nat)
    requires 0.0 < hz && |from| == |to|
    ensures n == JointSegmentTicks(sp, hz, cap, from, to, t)
  {
    hide StretchedTicks, Round, ResolveDuration, Excursion;
    n := NominalTicks(t, hz);
    if cap > 0.0 {
      n := MaxInt(n, StretchedTicks(sp.peak, Excursion(from, to), Some(cap), 1.0 / hz));
    } else {
      Unstretched(sp.peak, Excursion(from, to), Some(cap), 1.0 / hz);
    }
  }

  method InterpolateJoints(sp: Space, from: seq<real>, to: seq<real>, n: nat) returns (qs: seq<seq<real>>)
    requires 0 < n && |from| == |to|
    ensures qs == JointSegment(sp, from, to, n)
  {
    hide Between;
    qs := [];
    for k := 1 to n + 1
      invariant qs == JointSegment(sp, from, to, n)[..k - 1]
    {
      qs := qs + [Between(sp.ease(k as real / n as real), from, to)];
    }
  }

  /** The excursion is that of some joint. */
  lemma {:induction false} ExcursionIsAttained(a: seq<real>, b: seq<real>) returns (i: nat)
    requires |a| == |b| && a != []
    ensures i < |a| && Excursion(a, b) == Abs(b[i] - a[i])
  {
    var k := |a| - 1;
    i := k;
    if Excursion(a[..k], b[..k]) > Abs(b[k] - a[k]) {
      if k > 0 {
        i := ExcursionIsAttained(a[..k], b[..k]);
      }
    }
  }

  /** A joint segment is the shortest one that is not shorter than requested and in which the largest
      excursion fits under the speed cap. */
  lemma JointTicksAreLeast(sp: Space, hz: real, cap: real, from: seq<real>, to: seq<real>, t: Timing, n: int)
    requires 0.0 < hz && |from| == |to|
    ensures JointSegmentTicks(sp, hz, cap, from, to, t) <= n <==>
      NominalTicks(t, hz) <= n && Fits(sp.peak, Excursion(from, to), Some(cap), 1.0 / hz, n)
  {
    Period(hz);
    hide StretchedTicks, RoundedTicks, Fits, Excursion, ResolveDuration;
    if 1 <= n { StretchedIsLeast(sp.peak, Excursion(from, to), Some(cap), 1.0 / hz, n); } else { NominalAtLeastOne(t, hz); }
  }

  /** The plan of a chunk begins with the plan of its first waypoints, and after those of waypoint `j`
      it has arrived there exactly. */
  lemma {:induction false} JointSegmentsEndOnWaypoints(sp: Space, hz: real, cap: real, ws: seq<JointWaypoint>,
                                                       from: seq<real>, j: nat)
    requires IsEase(sp.ease, sp.peak) && 0.0 < hz && Sized(ws, |from|) && j < |ws|
    ensures Sized(ws[..j + 1], |from|)
    ensures var (some, all) := (JointPlan(sp, hz, cap, ws[..j + 1], from), JointPlan(sp, hz, cap, ws, from));
      some <= all && some != [] && some[|some| - 1] == ws[j].positions
    decreases |ws|
  {
    hide IsEase, Sized, JointPlan;
    var k := |ws| - 1;
    SizedPrefix(ws, |from|, j);
    SizedPrefix(ws, |from|, k);
    if j == k {
      assert ws[..j + 1] == ws;
      JointPlanEnd(sp, hz, cap, ws, from);
    } else {
      JointSegmentsEndOnWaypoints(sp, hz, cap, ws[..k], from, j);
      assert ws[..k][..j + 1] == ws[..j + 1] && ws[..k][j] == ws[j];
      JointPlanGrows(sp, hz, cap, ws, from);
    }
  }

  lemma JointPlanGrows(sp: Space, hz: real, cap: real, ws: seq<JointWaypoint>, from: seq<real>)
    requires 0.0 < hz && ws != [] && Sized(ws, |from|) && Sized(ws[..|ws| - 1], |from|)
    ensures JointPlan(sp, hz, cap, ws[..|ws| - 1], from) <= JointPlan(sp, hz, cap, ws, from)
  {
    hide JointSegmentTicks, JointSegment;
  }

  lemma JointPlanEnd(sp: Space, hz: real, cap: real, ws: seq<JointWaypoint>, from: seq<real>)
    requires IsEase(sp.ease, sp.peak) && 0.0 < hz && Sized(ws, |from|) && ws != []
    ensures var qs := JointPlan(sp, hz, cap, ws, from);
      qs != [] && qs[|qs| - 1] == ws[|ws| - 1].positions
  {
    hide JointSegmentTicks, IsEase, JointSegment;
    var k := |ws| - 1;
    SizedPrefix(ws, |from|, k);
    var was := if k == 0 then from else ws[k - 1].positions;
    JointSegmentEnd(sp, was, ws[k].positions, JointSegmentTicks(sp, hz, cap, was, ws[k].positions, ws[k].timing));
  }

  lemma JointSegmentEnd(sp: Space, from: seq<real>, to: seq<real>, n: nat)
    requires IsEase(sp.ease, sp.peak) && 0 < n && |from| == |to|
    ensures JointSegment(sp, from, to, n)[n - 1] == to
  {
    EaseEnd(sp.ease, sp.peak, n);
    BetweenEnds(from, to);
    hide Between, IsEase;
    assert JointSegment(sp, from, to, n)[n - 1] == Between(sp.ease(n as real / n as real), from, to);
  }

  /** Every joint of every tick is the eased share of its way on, and never goes back. */
  lemma JointPathIsEased(sp: Space, from: seq<real>, to: seq<real>, n: nat, k: nat, i: nat, t: real)
    requires IsEase(sp.ease, sp.peak) && 1 <= k <= n && |from| == |to| && i < |from| && t == sp.ease(k as real / n as real)
    ensures var qs := JointSegment(sp, from, to, n);
      var (was, now) := (if k == 1 then from else qs[k - 2], qs[k - 1]);
      && |was| == |now| == |from|
      && Abs(now[i] - from[i]) == t * Abs(to[i] - from[i])
      && Abs(now[i] - from[i]) + Abs(to[i] - now[i]) == Abs(to[i] - from[i])
      && Abs(to[i] - now[i]) <= Abs(to[i] - was[i])
  {
    EaseAt(sp.ease, sp.peak, k, n);
    var s := sp.ease((k - 1) as real / n as real);
    JointSegmentAt(sp, from, to, n, k, t);
    if k == 1 {
      EaseStart(sp.ease, sp.peak, n);
      BetweenEnds(from, to);
    } else {
      JointSegmentAt(sp, from, to, n, k - 1, s);
    }
    hide IsEase, Abs, Between, JointSegment;
    JointCovered(from, to, s, t, i);
  }

  lemma JointSegmentAt(sp: Space, from: seq<real>, to: seq<real>, n: nat, k: nat, t: real)
    requires 1 <= k <= n && |from| == |to| && t == sp.ease(k as real / n as real)
    ensures JointSegment(sp, from, to, n)[k - 1] == Between(t, from, to)
  {
    hide Between;
  }

  lemma JointCovered(from: seq<real>, to: seq<real>, s: real, t: real, i: nat)
    requires 0.0 <= s <= t <= 1.0 && |from| == |to| && i < |from|
    ensures var (was, now) := (Between(s, from, to)[i], Between(t, from, to)[i]);
      && Abs(now - from[i]) == t * Abs(to[i] - from[i])
      && Abs(now - from[i]) + Abs(to[i] - now) == Abs(to[i] - from[i])
      && Abs(to[i] - now) <= Abs(to[i] - was)
  {
    hide Abs, Part;
    BetweenAt(s, from, to, i);
    BetweenAt(t, from, to, i);
    hide Between;
    Shares(from[i], to[i], s, t);
  }

  function Part(a: real, b: real, s: real): real { a + s * (b - a) }

  lemma BetweenAt(s: real, from: seq<real>, to: seq<real>, i: nat)
    requires |from| == |to| && i < |from|
    ensures Between(s, from, to)[i] == Part(from[i], to[i], s)
  {}

  lemma Shares(a: real, b: real, s: real, t: real)
    requires 0.0 <= s <= t <= 1.0
    ensures Abs(Part(a, b, t) - a) == t * Abs(b - a)
    ensures Abs(Part(a, b, t) - a) + Abs(b - Part(a, b, t)) == Abs(b - a)
    ensures Abs(b - Part(a, b, t)) <= Abs(b - Part(a, b, s))
  {
    hide Abs, Part;
    var d := Abs(b - a);
    ShareDone(a, b, t);
    ShareLeft(a, b, t);
    ShareLeft(a, b, s);
    AbsIsNonNeg(b - a);
    Leftover(s, t, d);
  }

  lemma AbsIsNonNeg(x: real)
    ensures 0.0 <= Abs(x)
  {}

  lemma ShareDone(a: real, b: real, t: real)
    requires 0.0 <= t
    ensures Abs(Part(a, b, t) - a) == t * Abs(b - a)
  {
    hide Abs;
    var c := b - a;
    AbsMul(t, c);
    AbsOfShare(t);
    assert Part(a, b, t) - a == t * c;
  }

  lemma ShareLeft(a: real, b: real, t: real)
    requires t <= 1.0
    ensures Abs(b - Part(a, b, t)) == (1.0 - t) * Abs(b - a)
  {
    hide Abs;
    var c, u := b - a, 1.0 - t;
    AbsMul(u, c);
    AbsOfShare(u);
    Remainder(a, b, t, u);
    assert b - Part(a, b, t) == u * c;
  }

  lemma AbsOfShare(t: real)
    requires 0.0 <= t
    ensures Abs(t) == t
  {}

  // The executor.

  datatype JointProgress = JointProgress(
    memory: Memory, cancel: bool, streamed: seq<seq<real>>, clipped: bool, stop: Option<StopReason>)

  predicate JointsOf(p: Profile, m: Memory, n: nat) {
    |p.jointLower| == |p.jointUpper| == n && m.q.Some? && |m.q.value| == n
  }

  function JointAdvance(p: Profile, dt: real, st: JointProgress, q: seq<real>, i: TickInput): JointProgress
    requires JointsOf(p, st.memory, |q|) && |i.state.q| == |q|
  {
    var begun := st.(cancel := st.cancel || i.stopRequested);
    if begun.cancel then begun.(cancel := false, stop := Some(User))
    else if i.fault then begun.(stop := Some(BackendFault))
    else if Exceeds(i.state.wrench, p.maxContactWrench) then begun.(stop := Some(ContactWrench))
    else
      var (memory, out, clipped) := FilterJoints(p, dt, begun.memory, q, i.state);
      begun.(memory := memory, streamed := begun.streamed + [out], clipped := begun.clipped || clipped)
  }

  predicate JointInputs(qs: seq<seq<real>>, env: nat -> TickInput, n: nat) {
    && (forall q | q in qs :: |q| == n)
    && forall i | 0 <= i < |qs| :: |env(i).state.q| == n
  }

  function JointRun(p: Profile, dt: real, st: JointProgress, qs: seq<seq<real>>, env: nat -> TickInput, n: nat,
                    joints: nat): (out: JointProgress)
    requires JointsOf(p, st.memory, joints) && JointInputs(qs, env, joints) && n <= |qs|
    ensures JointsOf(p, out.memory, joints)
  {
    if n == 0 then st
    else
      var before := JointRun(p, dt, st, qs, env, n - 1, joints);
      if before.stop.Some? then before else JointAdvance(p, dt, before, qs[n - 1], env(n - 1))
  }

  function JointInitial(start: RobotState): JointProgress {
    JointProgress(Memory(Some(start.tcp), Some(start.q), Some(ORIGIN)), false, [], false, None)
  }

  /** The speed the joint interpolator plans with, and the filter enforces per tick. */
  function JointSpeed(p: Profile): real { 2.0 * p.jointSpeedScale }

  lemma {:induction false} JointStoppedEarly(p: Profile, dt: real, st: JointProgress, qs: seq<seq<real>>,
                                             env: nat -> TickInput, k: nat, n: nat, joints: nat)
    requires JointsOf(p, st.memory, joints) && JointInputs(qs, env, joints) && k <= n <= |qs|
    requires k == n || JointRun(p, dt, st, qs, env, k, joints).stop.Some?
    ensures JointRun(p, dt, st, qs, env, n, joints) == JointRun(p, dt, st, qs, env, k, joints)
    decreases n
  {
    hide JointAdvance;
    if k < n { JointStoppedEarly(p, dt, st, qs, env, k, n - 1, joints); }
  }

  lemma {:induction false} PlanIsSized(sp: Space, hz: real, cap: real, ws: seq<JointWaypoint>, from: seq<real>)
    requires 0.0 < hz && Sized(ws, |from|)
    ensures forall q | q in JointPlan(sp, hz, cap, ws, from) :: |q| == |from|
    decreases |ws|
  {
    hide JointSegmentTicks, JointSegment;
    if ws != [] {
      var k := |ws| - 1;
      assert ws[k] in ws && (k > 0 ==> ws[k - 1] in ws);
      var was := if k == 0 then from else ws[k - 1].positions;
      PlanIsSized(sp, hz, cap, ws[..k], from);
      SegmentIsSized(sp, was, ws[k].positions, JointSegmentTicks(sp, hz, cap, was, ws[k].positions, ws[k].timing));
    }
  }

  lemma SegmentIsSized(sp: Space, from: seq<real>, to: seq<real>, n: nat)
    requires 0 < n && |from| == |to|
    ensures forall q | q in JointSegment(sp, from, to, n) :: |q| == |from|
  {
    hide Between;
    var qs := JointSegment(sp, from, to, n);
    forall k | 0 <= k < n ensures |qs[k]| == |from| {
      assert qs[k] == Between(sp.ease((k + 1) as real / n as real), from, to);
    }
  }

  /** Executes a joint chunk on a robot. `first` and `again` are the states read before and after
      an automatic mode start, `env` what each tick observes. */
  method ExecuteJointChunk(robot: Robot, chunk: JointChunk, first: RobotState, again: RobotState,
                           env: nat -> TickInput)
    returns (out: Outcome)
    requires robot.Valid() && Sized(chunk.waypoints, |robot.profile.jointLower|)
    requires |robot.profile.jointLower| == |robot.profile.jointUpper| == |first.q| == |again.q|
    requires forall i: nat :: |env(i).state.q| == |first.q|
    modifies robot`cancel, robot.filter`prevPose, robot.filter`prevQ, robot.filter`prevVelocity,
      robot.backend`mode, robot.backend`maxWrench, robot.backend`limits, robot.backend`jointLog
    ensures robot.Valid()
    ensures old(robot.cancel) ==>
      out == AbortedAtEntry && !robot.cancel && unchanged(robot.backend) && unchanged(robot.filter)
    ensures !old(robot.cancel) && chunk.safetyProfile != "" && chunk.safetyProfile != robot.profile.name ==>
      out == Refused && unchanged(robot.backend)
    ensures !old(robot.cancel) && !(chunk.safetyProfile != "" && chunk.safetyProfile != robot.profile.name) ==>
      var start := if old(robot.backend.mode).IsCartesian() || old(robot.backend.mode).Idle? then again else first;
      var qs := JointPlan(robot.sp, robot.hz, 2.0 * robot.profile.jointSpeedScale, chunk.waypoints, start.q);
      JointInputs(qs, env, |start.q|) &&
      var st := JointRun(robot.profile, 1.0 / robot.hz, JointInitial(start), qs, env, |qs|, |start.q|);
      && out == Ran(st.stop.None?, if st.stop.Some? then st.stop.value else NoReason, st.clipped, false)
      && robot.cancel == st.cancel
      && robot.backend.jointLog == old(robot.backend.jointLog) + st.streamed
      && (st.stop.Some? ==> robot.backend.mode == Idle)
  {
    hide JointAdvance, JointPlan, FilterJoints, Exceeds;
    if robot.cancel {
      robot.cancel := false;
      return AbortedAtEntry;
    }
    if chunk.safetyProfile != "" && chunk.safetyProfile != robot.profile.name {
      return Refused;
    }
    var start := first;
    if robot.backend.mode.IsCartesian() || robot.backend.mode.Idle? {
      robot.backend.SetMode(NrtJointImpedance, None);
      start := again;
    }
    robot.filter.Reset(start);
    var qs := JointSetpoints(robot.sp, robot.hz, 2.0 * robot.profile.jointSpeedScale, chunk.waypoints, start.q);
    PlanIsSized(robot.sp, robot.hz, 2.0 * robot.profile.jointSpeedScale, chunk.waypoints, start.q);
    out := PlayJoints(robot, qs, env, start);
  }

  /** The tick loop. */
  method PlayJoints(robot: Robot, qs: seq<seq<real>>, env: nat -> TickInput, start: RobotState) returns (out: Outcome)
    requires robot.Valid() && !robot.cancel && !robot.backend.mode.IsCartesian() && !robot.backend.mode.Idle?
    requires JointsOf(robot.profile, robot.filter.Remembered(), |start.q|) && JointInputs(qs, env, |start.q|)
    requires robot.filter.Remembered() == JointInitial(start).memory
    modifies robot`cancel, robot.filter`prevQ, robot.backend`mode, robot.backend`jointLog
    ensures robot.Valid()
    ensures var st := JointRun(robot.profile, 1.0 / robot.hz, JointInitial(start), qs, env, |qs|, |start.q|);
      && out == Ran(st.stop.None?, if st.stop.Some? then st.stop.value else NoReason, st.clipped, false)
      && robot.cancel == st.cancel
      && robot.backend.jointLog == old(robot.backend.jointLog) + st.streamed
      && (st.stop.Some? ==> robot.backend.mode == Idle)
  {
    hide JointAdvance, ControlMode.IsCartesian;
    var st, k := JointInitial(start), 0;
    while k < |qs| && st.stop.None?
      invariant robot.Valid() && 0 <= k <= |qs|
      invariant st == JointRun(robot.profile, 1.0 / robot.hz, JointInitial(start), qs, env, k, |start.q|)
      invariant st.memory == robot.filter.Remembered() && st.cancel == robot.cancel
      invariant robot.backend.jointLog == old(robot.backend.jointLog) + st.streamed
      invariant if st.stop.None? then !robot.backend.mode.IsCartesian() && !robot.backend.mode.Idle?
                else robot.backend.mode == Idle
      decreases |qs| - k
    {
      assert qs[k] in qs;
      st := JointTickStep(robot, st, qs[k], env(k));
      k := k + 1;
    }
    JointStoppedEarly(robot.profile, 1.0 / robot.hz, JointInitial(start), qs, env, k, |qs|, |start.q|);
    out := Ran(st.stop.None?, if st.stop.Some? then st.stop.value else NoReason, st.clipped, false);
  }

  /** One tick: the stop flag, the fault line and the wrench are looked at before anything moves. */
  method JointTickStep(robot: Robot, st: JointProgress, q: seq<real>, i: TickInput) returns (out: JointProgress)
    requires robot.Valid() && !robot.backend.mode.IsCartesian() && !robot.backend.mode.Idle? && st.stop.None?
    requires JointsOf(robot.profile, st.memory, |q|) && |i.state.q| == |q|
    requires st.memory == robot.filter.Remembered() && st.cancel == robot.cancel
    modifies robot`cancel, robot.filter`prevQ, robot.backend`mode, robot.backend`jointLog
    ensures robot.Valid()
    ensures out == JointAdvance(robot.profile, 1.0 / robot.hz, st, q, i)
    ensures out.memory == robot.filter.Remembered() && out.cancel == robot.cancel
    ensures if out.stop.None?
            then robot.backend.mode == old(robot.backend.mode)
                 && robot.backend.jointLog == old(robot.backend.jointLog) + [out.streamed[|st.streamed|]]
                 && out.streamed == st.streamed + [out.streamed[|st.streamed|]]
            else robot.backend.mode == Idle && robot.backend.jointLog == old(robot.backend.jointLog)
                 && out.streamed == st.streamed
  {
    hide FilterJoints, Exceeds, ControlMode.IsCartesian;
    out := st;
    if i.stopRequested {
      robot.cancel := true;
    }
    if robot.cancel {
      robot.cancel := false;
      robot.backend.Stop();
      return out.(cancel := false, stop := Some(User));
    }
    if i.fault {
      robot.backend.Stop();
      return out.(stop := Some(BackendFault));
    }
    if Exceeds(i.state.wrench, robot.profile.maxContactWrench) {
      robot.backend.Stop();
      return out.(stop := Some(ContactWrench));
    }
    var sent, changed := robot.filter.FilterJoint(q, i.state);
    var inMode := robot.backend.StreamJoint(sent);
    assert inMode;
    out := out.(memory := robot.filter.Remembered(), streamed := out.streamed + [sent],
                clipped := out.clipped || changed);
  }

  // One filtered command.

  predicate SaneJoints(p: Profile) {
    && |p.jointLower| == |p.jointUpper| && 0.0 <= p.jointSpeedScale
    && forall i | 0 <= i < |p.jointLower| :: p.jointLower[i] + p.jointMargin <= p.jointUpper[i] - p.jointMargin
  }

  function Lowest(p: Profile, i: nat): real
    requires i < |p.jointLower|
  {
    -Slackened(-(p.jointLower[i] + p.jointMargin))
  }

  function Highest(p: Profile, i: nat): real
    requires i < |p.jointUpper|
  {
    Slackened(p.jointUpper[i] - p.jointMargin)
  }

  /** No joint is farther outside its (slackened) range in `q` than in `was`. */
  predicate JointsNoFarther(p: Profile, q: seq<real>, was: seq<real>)
    requires |q| == |was| == |p.jointLower| == |p.jointUpper|
  {
    forall i | 0 <= i < |q| :: Beyond(q[i], Lowest(p, i), Highest(p, i)) <= Beyond(was[i], Lowest(p, i), Highest(p, i))
  }

  lemma ClampIsClose(x: real, lo: real, hi: real)
    requires lo <= hi
    ensures -Slackened(-lo) <= Clamp(x, lo, hi) <= Slackened(hi)
  {}

  lemma LimitStaysBetween(cap: real, ref: real, x: real, lo: real, hi: real)
    requires 0.0 <= cap && lo <= x <= hi
    ensures Abs(LimitJoint(cap, ref, x) - ref) <= cap
    ensures Beyond(LimitJoint(cap, ref, x), lo, hi) <= Beyond(ref, lo, hi)
  {}

  lemma BoxedJointInRange(p: Profile, q: seq<real>, i: nat)
    requires SaneJoints(p) && |q| == |p.jointLower| && i < |q|
    ensures Lowest(p, i) <= JointBox(p, q)[i] <= Highest(p, i)
  {
    hide Slackened, Close, Clamp;
    var lo, hi := p.jointLower[i] + p.jointMargin, p.jointUpper[i] - p.jointMargin;
    CloseToClamp(q[i], lo, hi);
    ClampIsClose(q[i], lo, hi);
    if JointsClose(JointClip(p, q), q) {
      assert Close(JointClip(p, q)[i], q[i]);
    }
  }

  /** An accepted joint command moves each joint at most the step cap and never takes one farther
      outside its range. */
  lemma JointCommandIsSafe(p: Profile, dt: real, m: Memory, q: seq<real>, s: RobotState)
    requires JointsMatch(p, m, q, s) && SaneJoints(p) && 0.0 < dt
    ensures var ref := if m.q.Some? then m.q.value else s.q;
      var (m', out, _) := FilterJoints(p, dt, m, q, s);
      && m'.q == Some(out) && |out| == |q|
      && (forall i | 0 <= i < |q| :: Abs(out[i] - ref[i]) <= JointStepCap(p, dt))
      && JointsNoFarther(p, out, ref)
  {
    hide Slackened, LimitJoint, Beyond, Lowest, Highest, JointBox, JointClip, JointsClose;
    var ref := if m.q.Some? then m.q.value else s.q;
    var cap, boxed, out := JointStepCap(p, dt), JointBox(p, q), FilterJoints(p, dt, m, q, s).1;
    MulNonNeg(2.0 * p.jointSpeedScale, dt);
    BoxKeepsLength(p, q);
    forall i | 0 <= i < |q|
      ensures Abs(out[i] - ref[i]) <= cap
      ensures Beyond(out[i], Lowest(p, i), Highest(p, i)) <= Beyond(ref[i], Lowest(p, i), Highest(p, i))
    {
      BoxedJointInRange(p, q, i);
      LimitStaysBetween(cap, ref[i], boxed[i], Lowest(p, i), Highest(p, i));
      StepIsLimit(cap, ref, boxed, i);
    }
  }

  lemma BoxKeepsLength(p: Profile, q: seq<real>)
    requires |q| == |p.jointLower| == |p.jointUpper|
    ensures |JointBox(p, q)| == |q|
  {}

  lemma StepIsLimit(cap: real, ref: seq<real>, q: seq<real>, i: nat)
    requires |ref| == |q| && i < |q|
    ensures |JointStep(cap, ref, q)| == |q| && JointStep(cap, ref, q)[i] == LimitJoint(cap, ref[i], q[i])
  {}

  // What the filter does with its caps.

  /** A joint counts as in range if it lies in its slackened interval. */
  predicate InSlack(p: Profile, q: seq<real>)
    requires |q| == |p.jointLower| == |p.jointUpper|
  {
    forall i | 0 <= i < |q| :: Lowest(p, i) <= q[i] <= Highest(p, i)
  }

  /** A target in range is not changed by the range check; any other one is moved to the nearest point
      of the range, joint by joint. */
  lemma BoxIsNearest(p: Profile, q: seq<real>, i: nat, w: real)
    requires SaneJoints(p) && |q| == |p.jointLower| && i < |q|
    requires p.jointLower[i] + p.jointMargin <= w <= p.jointUpper[i] - p.jointMargin
    ensures JointsClose(JointClip(p, q), q) <==> InSlack(p, q)
    ensures InSlack(p, q) ==> JointBox(p, q) == q
    ensures !InSlack(p, q) ==>
      && p.jointLower[i] + p.jointMargin <= JointBox(p, q)[i] <= p.jointUpper[i] - p.jointMargin
      && Abs(JointBox(p, q)[i] - q[i]) <= Abs(w - q[i])
  {
    hide Slackened, Close;
    forall j | 0 <= j < |q| ensures Close(JointClip(p, q)[j], q[j]) <==> Lowest(p, j) <= q[j] <= Highest(p, j) {
      CloseToClamp(q[j], p.jointLower[j] + p.jointMargin, p.jointUpper[j] - p.jointMargin);
    }
  }

  lemma LimitUsesCap(cap: real, ref: real, x: real)
    requires 0.0 <= cap
    ensures Abs(x - LimitJoint(cap, ref, x)) == Max(0.0, Abs(x - ref) - cap)
  {}

  /** Each joint comes nearer to the range-checked target by exactly the step cap, or all the way; and
      the call reports a clip exactly when some joint was out of range or farther than the cap. */
  lemma JointCommandUsesCap(p: Profile, dt: real, m: Memory, q: seq<real>, s: RobotState)
    requires JointsMatch(p, m, q, s) && SaneJoints(p) && 0.0 < dt
    ensures var (ref, boxed, cap) := (if m.q.Some? then m.q.value else s.q, JointBox(p, q), 2.0 * p.jointSpeedScale * dt);
      var (_, out, clipped) := FilterJoints(p, dt, m, q, s);
      && |boxed| == |out| == |q|
      && (forall i | 0 <= i < |q| :: Abs(boxed[i] - out[i]) == Max(0.0, Abs(boxed[i] - ref[i]) - cap))
      && (clipped <==> !InSlack(p, q) || exists i | 0 <= i < |q| :: Abs(boxed[i] - ref[i]) > cap)
  {
    hide LimitJoint, Slackened, Lowest, Highest, JointBox, JointClip, JointsClose, InSlack, Abs;
    var (ref, boxed, cap) := (if m.q.Some? then m.q.value else s.q, JointBox(p, q), JointStepCap(p, dt));
    MulNonNeg(2.0 * p.jointSpeedScale, dt);
    BoxKeepsLength(p, q);
    if |q| > 0 {
      BoxIsNearest(p, q, 0, p.jointLower[0] + p.jointMargin);
    } else {
      NoJointsInSlack(p, q);
    }
    forall i | 0 <= i < |q| ensures Abs(boxed[i] - FilterJoints(p, dt, m, q, s).1[i]) == Max(0.0, Abs(boxed[i] - ref[i]) - cap) {
      LimitUsesCap(cap, ref[i], boxed[i]);
      StepIsLimit(cap, ref, boxed, i);
    }
  }

  lemma NoJointsInSlack(p: Profile, q: seq<real>)
    requires |q| == |p.jointLower| == |p.jointUpper| == 0
    ensures InSlack(p, q) && JointsClose(JointClip(p, q), q)
  {}

  /** The filter's memory after `k` calls with one and the same target. */
  function JointsAfter(p: Profile, dt: real, m: Memory, t: seq<real>, states: nat -> RobotState, k: nat): (m': Memory)
    requires |t| == |p.jointLower| == |p.jointUpper| && m.q.Some? && |m.q.value| == |t|
    requires forall i: nat :: |states(i).q| == |t|
    ensures m'.q.Some? && |m'.q.value| == |t|
  {
    if k == 0 then m
    else
      var before := JointsAfter(p, dt, m, t, states, k - 1);
      BoxKeepsLength(p, t);
      FilterJoints(p, dt, before, t, states(k - 1)).0
  }

  /** A constant target in range is reached, joint by joint: after `k` calls what is left of each
      joint's way is the way less `k` step caps. */
  lemma {:induction false} JointTargetIsReached(p: Profile, dt: real, m: Memory, t: seq<real>, states: nat -> RobotState,
                                                k: nat, i: nat)
    requires |t| == |p.jointLower| == |p.jointUpper| && m.q.Some? && |m.q.value| == |t|
    requires forall j: nat :: |states(j).q| == |t|
    requires SaneJoints(p) && 0.0 < dt && InSlack(p, t) && i < |t|
    ensures Abs(t[i] - JointsAfter(p, dt, m, t, states, k).q.value[i])
         == Left(Abs(t[i] - m.q.value[i]), JointStepCap(p, dt), k)
  {
    hide FilterJoints, InSlack, SaneJoints, JointStepCap, Left, Abs;
    var d := Abs(t[i] - m.q.value[i]);
    CapNonNeg(p, dt);
    AbsNonNeg(t[i] - m.q.value[i]);
    if k == 0 {
      LeftAtStart(d, JointStepCap(p, dt));
    } else {
      JointTargetIsReached(p, dt, m, t, states, k - 1, i);
      JointApproach(p, dt, JointsAfter(p, dt, m, t, states, k - 1), t, states(k - 1), i);
      LeftNext(d, JointStepCap(p, dt), k - 1);
    }
  }

  lemma AbsNonNeg(x: real)
    ensures 0.0 <= Abs(x)
  {}

  lemma CapNonNeg(p: Profile, dt: real)
    requires SaneJoints(p) && 0.0 < dt
    ensures 0.0 <= JointStepCap(p, dt)
  {
    MulNonNeg(2.0 * p.jointSpeedScale, dt);
  }

  lemma JointApproach(p: Profile, dt: real, m: Memory, t: seq<real>, s: RobotState, i: nat)
    requires JointsMatch(p, m, t, s) && m.q.Some? && SaneJoints(p) && 0.0 < dt && InSlack(p, t) && i < |t|
    ensures var m' := FilterJoints(p, dt, m, t, s).0;
      && m'.q.Some? && |m'.q.value| == |t|
      && Abs(t[i] - m'.q.value[i])
         == Abs(t[i] - m.q.value[i]) - Min(Abs(t[i] - m.q.value[i]), JointStepCap(p, dt))
  {
    hide FilterJoints, InSlack, SaneJoints, JointBox, Abs;
    JointCommandUsesCap(p, dt, m, t, s);
    UnchangedInSlack(p, t);
    MemoryIsCommand(p, dt, m, t, s);
  }

  lemma UnchangedInSlack(p: Profile, t: seq<real>)
    requires SaneJoints(p) && |t| == |p.jointLower| && |t| > 0 && InSlack(p, t)
    ensures JointBox(p, t) == t
  {
    BoxIsNearest(p, t, 0, p.jointLower[0] + p.jointMargin);
  }

  lemma MemoryIsCommand(p: Profile, dt: real, m: Memory, q: seq<real>, s: RobotState)
    requires JointsMatch(p, m, q, s)
    ensures FilterJoints(p, dt, m, q, s).0.q == Some(FilterJoints(p, dt, m, q, s).1)
  {
    hide JointStep, JointBox, JointsClose, AnyJointBeyond;
  }

  // Whole runs.

  /** Consecutive streamed joint commands (the first one from the start) differ by at most the step
      cap in every joint, and no joint ever gets farther outside its range. */
  ghost predicate JointTrace(p: Profile, dt: real, start: seq<real>, st: JointProgress) {
    && st.memory.q == Some(JointBefore(start, st.streamed, |st.streamed|))
    && (forall k | 0 <= k < |st.streamed| :: JointStepOk(p, dt, start, st.streamed, k))
  }

  lemma JointAdvanceIsSafe(p: Profile, dt: real, start: seq<real>, st: JointProgress, q: seq<real>, i: TickInput)
    requires SaneJoints(p) && 0.0 < dt && JointsOf(p, st.memory, |q|) && |i.state.q| == |q| && |start| == |q|
    requires JointTrace(p, dt, start, st)
    ensures JointTrace(p, dt, start, JointAdvance(p, dt, st, q, i))
  {
    hide FilterJoints, Exceeds, JointStepCap, JointsNoFarther;
    JointCommandIsSafe(p, dt, st.memory, q, i.state);
    var out := JointAdvance(p, dt, st, q, i);
    forall k | 0 <= k < |out.streamed| ensures JointStepOk(p, dt, start, out.streamed, k) {
      if k < |st.streamed| {
        assert JointStepOk(p, dt, start, st.streamed, k);
      }
    }
  }

  /** Every run of the joint executor is such a trace, whether the chunk is in range or not. */
  lemma {:induction false} JointRunIsSafe(p: Profile, dt: real, start: RobotState, qs: seq<seq<real>>,
                                          env: nat -> TickInput, n: nat)
    requires SaneJoints(p) && 0.0 < dt && |p.jointLower| == |start.q| && JointInputs(qs, env, |start.q|) && n <= |qs|
    ensures JointTrace(p, dt, start.q, JointRun(p, dt, JointInitial(start), qs, env, n, |start.q|))
  {
    hide JointAdvance, JointStepOk, SaneJoints;
    if n > 0 {
      JointRunIsSafe(p, dt, start, qs, env, n - 1);
      assert qs[n - 1] in qs;
      JointAdvanceIsSafe(p, dt, start.q, JointRun(p, dt, JointInitial(start), qs, env, n - 1, |start.q|), qs[n - 1],
                         env(n - 1));
    }
  }

  function JointBefore(start: seq<real>, streamed: seq<seq<real>>, k: nat): seq<real>
    requires k <= |streamed|
  {
    if k == 0 then start else streamed[k - 1]
  }

  predicate JointStepOk(p: Profile, dt: real, start: seq<real>, streamed: seq<seq<real>>, k: nat)
    requires k < |streamed|
  {
    var was, now := JointBefore(start, streamed, k), streamed[k];
    && |was| == |now| == |p.jointLower| == |p.jointUpper|
    && (forall i | 0 <= i < |now| :: Abs(now[i] - was[i]) <= JointStepCap(p, dt))
    && JointsNoFarther(p, now, was)
  }

  // An in-range chunk is sent exactly as planned.

  predicate InRange(p: Profile, q: seq<real>) {
    && |q| == |p.jointLower| == |p.jointUpper|
    && forall i | 0 <= i < |q| :: p.jointLower[i] + p.jointMargin <= q[i] <= p.jointUpper[i] - p.jointMargin
  }

  predicate StepsWithin(cap: real, was: seq<real>, now: seq<real>) {
    |was| == |now| && forall i | 0 <= i < |now| :: Abs(now[i] - was[i]) <= cap
  }

  ghost predicate JointsCompliant(p: Profile, cap: real, start: seq<real>, qs: seq<seq<real>>) {
    forall k | 0 <= k < |qs| :: InRange(p, qs[k]) && StepsWithin(cap, JointBefore(start, qs, k), qs[k])
  }

  lemma JointTick(a: real, b: real, s: real, t: real, rise: real, d: real, cap: real)
    requires 0.0 <= rise == t - s && Abs(b - a) <= d && rise * d <= cap
    ensures Abs(a + t * (b - a) - (a + s * (b - a))) <= cap
  {
    var c := b - a;
    assert (t - s) * c == t * c - s * c;
    AbsMul(rise, c);
    MulMono(Abs(c), d, rise);
  }

  lemma JointSegmentTick(sp: Space, p: Profile, hz: real, from: seq<real>, to: seq<real>, k: nat, n: nat)
    requires IsEase(sp.ease, sp.peak) && 0.0 < hz && 0.0 < p.jointSpeedScale && InRange(p, from) && InRange(p, to)
    requires 1 <= k <= n && n >= StretchedTicks(sp.peak, Excursion(from, to), Some(JointSpeed(p)), 1.0 / hz)
    ensures InRange(p, Between(sp.ease(k as real / n as real), from, to))
    ensures StepsWithin(JointStepCap(p, 1.0 / hz), Between(sp.ease((k - 1) as real / n as real), from, to),
                        Between(sp.ease(k as real / n as real), from, to))
  {
    hide IsEase, StretchedTicks, Excursion;
    DivMul(1.0, hz);
    DivAtLeast(1.0, 0.0, hz);
    EaseAt(sp.ease, sp.peak, k, n);
    EasePeak(sp.ease, sp.peak);
    ExcursionBounds(from, to);
    var s, t := sp.ease((k - 1) as real / n as real), sp.ease(k as real / n as real);
    var d, cap, rise := Excursion(from, to), JointStepCap(p, 1.0 / hz), t - s;
    SteepestTick(sp.peak, d, JointSpeed(p), 1.0 / hz, n, rise);
    JointsBetween(p, from, to, s, t, rise, d, cap);
  }

  lemma JointsBetween(p: Profile, from: seq<real>, to: seq<real>, s: real, t: real, rise: real, d: real, cap: real)
    requires InRange(p, from) && InRange(p, to) && 0.0 <= s <= t <= 1.0 && rise == t - s && rise * d <= cap
    requires forall i | 0 <= i < |from| :: Abs(to[i] - from[i]) <= d
    ensures InRange(p, Between(t, from, to)) && StepsWithin(cap, Between(s, from, to), Between(t, from, to))
  {
    forall i | 0 <= i < |from|
      ensures p.jointLower[i] + p.jointMargin <= Between(t, from, to)[i] <= p.jointUpper[i] - p.jointMargin
      ensures Abs(Between(t, from, to)[i] - Between(s, from, to)[i]) <= cap
    {
      BetweenReals(from[i], to[i], t, p.jointLower[i] + p.jointMargin, p.jointUpper[i] - p.jointMargin);
      JointTick(from[i], to[i], s, t, rise, d, cap);
    }
  }

  lemma BetweenEnds(from: seq<real>, to: seq<real>)
    requires |from| == |to|
    ensures Between(0.0, from, to) == from && Between(1.0, from, to) == to
  {}

  lemma JointSegmentComplies(sp: Space, p: Profile, hz: real, from: seq<real>, to: seq<real>, t: Timing)
    requires IsEase(sp.ease, sp.peak) && 0.0 < hz && 0.0 < p.jointSpeedScale && InRange(p, from) && InRange(p, to)
    ensures var n := JointSegmentTicks(sp, hz, JointSpeed(p), from, to, t);
      var qs := JointSegment(sp, from, to, n);
      JointsCompliant(p, JointStepCap(p, 1.0 / hz), from, qs) && qs[n - 1] == to
  {
    hide IsEase, StretchedTicks, NominalTicks, StepsWithin, Between, JointStepCap;
    var n := JointSegmentTicks(sp, hz, JointSpeed(p), from, to, t);
    var qs, cap := JointSegment(sp, from, to, n), JointStepCap(p, 1.0 / hz);
    EaseStart(sp.ease, sp.peak, n);
    EaseEnd(sp.ease, sp.peak, n);
    BetweenEnds(from, to);
    hide InRange;
    forall k | 0 <= k < |qs| ensures InRange(p, qs[k]) && StepsWithin(cap, JointBefore(from, qs, k), qs[k]) {
      JointSegmentTick(sp, p, hz, from, to, k + 1, n);
    }
  }

  lemma CompliantConcat(p: Profile, cap: real, start: seq<real>, a: seq<seq<real>>, b: seq<seq<real>>)
    requires JointsCompliant(p, cap, start, a)
    requires JointsCompliant(p, cap, JointBefore(start, a, |a|), b)
    ensures JointsCompliant(p, cap, start, a + b)
    ensures b != [] ==> JointBefore(start, a + b, |a + b|) == b[|b| - 1]
  {
    hide InRange, StepsWithin;
    var from := JointBefore(start, a, |a|);
    forall k | 0 <= k < |a + b|
      ensures InRange(p, (a + b)[k]) && StepsWithin(cap, JointBefore(start, a + b, k), (a + b)[k])
    {
      if k < |a| {
        assert JointBefore(start, a + b, k) == JointBefore(start, a, k);
      } else {
        assert (a + b)[k] == b[k - |a|];
        assert JointBefore(start, a + b, k) == JointBefore(from, b, k - |a|);
      }
    }
  }

  predicate AllInRange(p: Profile, ws: seq<JointWaypoint>) { forall w | w in ws :: InRange(p, w.positions) }

  lemma InRangePrefix(p: Profile, ws: seq<JointWaypoint>, i: nat)
    requires AllInRange(p, ws) && i < |ws|
    ensures AllInRange(p, ws[..i]) && InRange(p, ws[i].positions) && (0 < i ==> InRange(p, ws[i - 1].positions))
  {
    hide InRange;
  }

  lemma {:induction false} JointPlanComplies(sp: Space, p: Profile, hz: real, ws: seq<JointWaypoint>, start: seq<real>)
    requires IsEase(sp.ease, sp.peak) && 0.0 < hz && 0.0 < p.jointSpeedScale
    requires InRange(p, start) && AllInRange(p, ws) && Sized(ws, |start|)
    ensures var qs := JointPlan(sp, hz, JointSpeed(p), ws, start);
      && JointsCompliant(p, JointStepCap(p, 1.0 / hz), start, qs)
      && JointBefore(start, qs, |qs|) == if ws == [] then start else ws[|ws| - 1].positions
    decreases |ws|
  {
    if ws != [] {
      var k := |ws| - 1;
      hide IsEase, JointStepCap, JointSegmentTicks, JointSegment, JointsCompliant, InRange, Sized, AllInRange;
      InRangePrefix(p, ws, k);
      SizedPrefix(ws, |start|, k);
      var was := if k == 0 then start else ws[k - 1].positions;
      var n := JointSegmentTicks(sp, hz, JointSpeed(p), was, ws[k].positions, ws[k].timing);
      var head, segment := JointPlan(sp, hz, JointSpeed(p), ws[..k], start), JointSegment(sp, was, ws[k].positions, n);
      assert JointPlan(sp, hz, JointSpeed(p), ws, start) == head + segment;
      JointPlanComplies(sp, p, hz, ws[..k], start);
      JointSegmentComplies(sp, p, hz, was, ws[k].positions, ws[k].timing);
      hide JointPlan;
      CompliantConcat(p, JointStepCap(p, 1.0 / hz), start, head, segment);
    }
  }

  lemma InRangePasses(p: Profile, dt: real, m: Memory, q: seq<real>, s: RobotState)
    requires JointsMatch(p, m, q, s) && m.q.Some? && InRange(p, q) && StepsWithin(JointStepCap(p, dt), m.q.value, q)
    ensures FilterJoints(p, dt, m, q, s) == (m.(q := Some(q)), q, false)
  {
    hide JointStepCap;
    assert JointClip(p, q) == q;
    assert forall i | 0 <= i < |q| :: Close(q[i], q[i]);
  }

  /** The run follows the plan tick by tick and is cut short only by a stop. */
  ghost predicate JointRepeats(p: Profile, start: seq<real>, qs: seq<seq<real>>, env: nat -> TickInput,
                               st: JointProgress, n: nat)
    requires n <= |qs|
  {
    && !st.clipped && |st.streamed| <= n && st.streamed == qs[..|st.streamed|]
    && (st.stop.None? <==> JointUndisturbed(p, env, n))
    && (st.stop.None? ==> |st.streamed| == n && !st.cancel && st.memory.q == Some(JointBefore(start, qs, n)))
  }

  lemma JointStepRepeats(p: Profile, dt: real, start: seq<real>, qs: seq<seq<real>>, env: nat -> TickInput,
                         st: JointProgress, n: nat)
    requires n < |qs| && JointsOf(p, st.memory, |qs[n]|) && |env(n).state.q| == |qs[n]|
    requires JointsCompliant(p, JointStepCap(p, dt), start, qs)
    requires st.stop.None? && JointRepeats(p, start, qs, env, st, n)
    ensures JointRepeats(p, start, qs, env, JointAdvance(p, dt, st, qs[n], env(n)), n + 1)
  {
    hide JointAdvance, JointStepCap, InRange, StepsWithin, JointCalm, JointInputs, JointsOf;
    assert JointUndisturbed(p, env, n + 1) <==> JointUndisturbed(p, env, n) && JointCalm(p, env(n));
    hide JointUndisturbed;
    assert InRange(p, qs[n]) && StepsWithin(JointStepCap(p, dt), JointBefore(start, qs, n), qs[n]);
    hide JointsCompliant;
    JointCalmStep(p, dt, st, qs[n], env(n));
    assert qs[..n + 1] == qs[..n] + [qs[n]];
  }

  lemma JointCalmStep(p: Profile, dt: real, st: JointProgress, q: seq<real>, i: TickInput)
    requires JointsOf(p, st.memory, |q|) && |i.state.q| == |q| && st.stop.None? && !st.cancel
    requires InRange(p, q) && StepsWithin(JointStepCap(p, dt), st.memory.q.value, q)
    ensures var out := JointAdvance(p, dt, st, q, i);
      && out.clipped == st.clipped && (out.stop.None? <==> JointCalm(p, i))
      && (JointCalm(p, i) ==> out.memory.q == Some(q) && out.streamed == st.streamed + [q] && !out.cancel)
      && (!JointCalm(p, i) ==> out.streamed == st.streamed)
  {
    WithinMeans(i.state.wrench, p.maxContactWrench);
    hide FilterJoints, Exceeds, JointStepCap, InRange, StepsWithin;
    InRangePasses(p, dt, st.memory, q, i.state);
  }

  lemma {:induction false} JointRunRepeatsPlan(p: Profile, dt: real, start: RobotState, qs: seq<seq<real>>,
                                               env: nat -> TickInput, n: nat)
    requires InRange(p, start.q) && JointInputs(qs, env, |start.q|) && n <= |qs|
    requires JointsCompliant(p, JointStepCap(p, dt), start.q, qs)
    ensures JointRepeats(p, start.q, qs, env, JointRun(p, dt, JointInitial(start), qs, env, n, |start.q|), n)
  {
    hide JointAdvance, JointsCompliant, JointCalm, JointStepCap;
    if n > 0 {
      JointRunRepeatsPlan(p, dt, start, qs, env, n - 1);
      assert qs[n - 1] in qs;
      var st := JointRun(p, dt, JointInitial(start), qs, env, n - 1, |start.q|);
      if st.stop.None? {
        JointStepRepeats(p, dt, start.q, qs, env, st, n - 1);
      } else {
        assert !JointUndisturbed(p, env, n - 1);
      }
    }
  }

  predicate JointCalm(p: Profile, i: TickInput) {
    !i.stopRequested && !i.fault && Within(i.state.wrench, p.maxContactWrench)
  }

  predicate JointUndisturbed(p: Profile, env: nat -> TickInput, n: nat) {
    forall i | 0 <= i < n :: JointCalm(p, env(i))
  }

  /** One command for each of the ticks before the first that is not calm, which stops the chunk. */
  ghost predicate JointGatesHeld(p: Profile, env: nat -> TickInput, st: JointProgress, n: nat) {
    var k := |st.streamed|;
    && k <= n && !st.cancel && (forall i | 0 <= i < k :: JointCalm(p, env(i)))
    && (st.stop.None? ==> k == n)
    && (st.stop.Some? ==>
          && k < n && !JointCalm(p, env(k))
          && st.stop.value == if env(k).stopRequested then User else if env(k).fault then BackendFault else ContactWrench)
  }

  /** Every joint command a chunk streams, in range or not, was streamed on a tick with no stop request,
      no fault and every axis of the wrench inside its interval; the first tick that is not calm stops
      the chunk, which reports the first gate that failed there. */
  lemma {:induction false} JointRunHoldsGates(p: Profile, dt: real, start: RobotState, qs: seq<seq<real>>,
                                              env: nat -> TickInput, n: nat)
    requires JointsOf(p, JointInitial(start).memory, |start.q|) && JointInputs(qs, env, |start.q|) && n <= |qs|
    ensures JointGatesHeld(p, env, JointRun(p, dt, JointInitial(start), qs, env, n, |start.q|), n)
    ensures var st := JointRun(p, dt, JointInitial(start), qs, env, n, |start.q|);
      forall k, j | 0 <= k < |st.streamed| && 0 <= j < 6 ::
        -p.maxContactWrench[j] <= env(k).state.wrench[j] <= p.maxContactWrench[j]
  {
    hide FilterJoints, Exceeds, Within, JointInputs;
    if n > 0 {
      JointRunHoldsGates(p, dt, start, qs, env, n - 1);
      var st := JointRun(p, dt, JointInitial(start), qs, env, n - 1, |start.q|);
      assert |qs[n - 1]| == |start.q| && |env(n - 1).state.q| == |start.q| by { InputsAt(qs, env, |start.q|, n - 1); }
      WithinMeans(env(n - 1).state.wrench, p.maxContactWrench);
    }
    var st := JointRun(p, dt, JointInitial(start), qs, env, n, |start.q|);
    forall k, j | 0 <= k < |st.streamed| && 0 <= j < 6
      ensures -p.maxContactWrench[j] <= env(k).state.wrench[j] <= p.maxContactWrench[j]
    {
      assert JointCalm(p, env(k));
      WithinAt(env(k).state.wrench, p.maxContactWrench, j);
    }
  }

  /** The filter changed the command of tick `k` (from 0). */
  predicate JointClippedAt(p: Profile, dt: real, start: RobotState, qs: seq<seq<real>>, env: nat -> TickInput, k: nat)
    requires JointsOf(p, JointInitial(start).memory, |start.q|) && JointInputs(qs, env, |start.q|) && k < |qs|
  {
    assert |qs[k]| == |start.q| && |env(k).state.q| == |start.q| by { InputsAt(qs, env, |start.q|, k); }
    FilterJoints(p, dt, JointRun(p, dt, JointInitial(start), qs, env, k, |start.q|).memory, qs[k], env(k).state).2
  }

  /** The result reports a clip exactly when the filter has changed a command, and success exactly when
      every command of the plan was streamed. */
  lemma {:induction false} JointReportTellsTheRun(p: Profile, dt: real, start: RobotState, qs: seq<seq<real>>,
                                                  env: nat -> TickInput, n: nat)
    requires JointsOf(p, JointInitial(start).memory, |start.q|) && JointInputs(qs, env, |start.q|) && n <= |qs|
    ensures var st := JointRun(p, dt, JointInitial(start), qs, env, n, |start.q|);
      && |st.streamed| <= n && (st.stop.None? <==> |st.streamed| == n)
      && (st.clipped <==> exists k | 0 <= k < |st.streamed| :: JointClippedAt(p, dt, start, qs, env, k))
  {
    hide FilterJoints, Exceeds, JointInputs, JointGatesHeld;
    if n > 0 {
      JointReportTellsTheRun(p, dt, start, qs, env, n - 1);
      InputsAt(qs, env, |start.q|, n - 1);
      var st := JointRun(p, dt, JointInitial(start), qs, env, n - 1, |start.q|);
      if st.stop.None? {
        var out := JointAdvance(p, dt, st, qs[n - 1], env(n - 1));
        hide JointRun;
        JointAdvanceReports(p, dt, st, qs[n - 1], env(n - 1));
        if out.stop.None? {
          assert JointClippedAt(p, dt, start, qs, env, n - 1)
            <==> FilterJoints(p, dt, st.memory, qs[n - 1], env(n - 1).state).2;
        }
        hide JointAdvance, JointClippedAt;
      }
    }
  }

  lemma JointAdvanceReports(p: Profile, dt: real, st: JointProgress, q: seq<real>, i: TickInput)
    requires JointsOf(p, st.memory, |q|) && |i.state.q| == |q| && st.stop.None?
    ensures var out := JointAdvance(p, dt, st, q, i);
      && (out.stop.Some? ==> out.streamed == st.streamed && out.clipped == st.clipped)
      && (out.stop.None? ==>
            |out.streamed| == |st.streamed| + 1
            && out.clipped == (st.clipped || FilterJoints(p, dt, st.memory, q, i.state).2))
  {
    hide FilterJoints, Exceeds;
  }

  lemma InputsAt(qs: seq<seq<real>>, env: nat -> TickInput, n: nat, i: nat)
    requires JointInputs(qs, env, n) && i < |qs|
    ensures |qs[i]| == n && |env(i).state.q| == n
  {
    assert qs[i] in qs;
  }

  lemma WithinAt(w: Wrench, cap: Wrench, j: nat)
    requires Within(w, cap) && j < 6
    ensures -cap[j] <= w[j] <= cap[j]
  {}

  /** A joint chunk whose start and waypoints are in range is never clipped: it streams a prefix of
      its plan, and all of it exactly when no stop request, fault or excessive wrench is met. */
  lemma JointChunkIsSentAsPlanned(sp: Space, p: Profile, hz: real, chunk: JointChunk, start: RobotState,
                                  env: nat -> TickInput)
    requires IsEase(sp.ease, sp.peak) && 0.0 < hz && 0.0 < p.jointSpeedScale
    requires InRange(p, start.q) && AllInRange(p, chunk.waypoints)
    requires forall i: nat :: |env(i).state.q| == |start.q|
    ensures Sized(chunk.waypoints, |start.q|)
    ensures var qs := JointPlan(sp, hz, 2.0 * p.jointSpeedScale, chunk.waypoints, start.q);
      JointInputs(qs, env, |start.q|) &&
      var st := JointRun(p, 1.0 / hz, JointInitial(start), qs, env, |qs|, |start.q|);
      && !st.clipped
      && |st.streamed| <= |qs| && st.streamed == qs[..|st.streamed|]
      && (st.stop.None? <==> JointUndisturbed(p, env, |qs|))
      && (st.stop.None? ==> st.streamed == qs)
  {
    hide IsEase, JointStepCap, JointUndisturbed, JointsCompliant, JointAdvance;
    JointPlanComplies(sp, p, hz, chunk.waypoints, start.q);
    PlanIsSized(sp, hz, 2.0 * p.jointSpeedScale, chunk.waypoints, start.q);
    var qs := JointPlan(sp, hz, 2.0 * p.jointSpeedScale, chunk.waypoints, start.q);
    JointRunRepeatsPlan(p, 1.0 / hz, start, qs, env, |qs|);
    assert qs[..|qs|] == qs;
  }
}
