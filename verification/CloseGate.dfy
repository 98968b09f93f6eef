/** What the deferred close gate guarantees over a whole chunk. */
module CloseGate {
  import opened Numbers
  import opened Geometry
  import opened Types
  import opened SafetyFilters
  import opened Interpolation
  import opened InterpolationBounds
  import opened ChunkExecution

  /** A gripper command together with the (1-based) tick it arrives at. */
  datatype Arrival = Arrival(tick: nat, segment: nat, command: GripperCommand)

  /** The commands a stretch of the plan carries, in order. */
  function Arrivals(ticks: seq<Tick>): seq<Arrival> {
    if ticks == [] then []
    else
      var t := ticks[|ticks| - 1];
      Arrivals(ticks[..|ticks| - 1])
      + if t.grip.Some? then [Arrival(|ticks|, t.segment, t.grip.value)] else []
  }

  function Decided(events: seq<GripEvent>): seq<Arrival> {
    seq(|events|, i requires 0 <= i < |events| => Arrival(events[i].arrived, events[i].segment, events[i].command))
  }

  function Waiting(p: Option<Pending>): seq<Arrival> {
    if p.Some? then [Arrival(p.value.arrived, p.value.segment, p.value.command)] else []
  }

  /** The plan of a chunk as the executor receives it. */
  predicate WholePlan(ticks: seq<Tick>) {
    && (forall i | 0 <= i < |ticks| :: Laid(ticks, i))
    && (ticks != [] ==> ticks[0].offset == 1 && ticks[|ticks| - 1].offset == ticks[|ticks| - 1].segmentTicks)
  }

  // The schedule: every pending close is resolved before the next command is looked at.

  lemma SettleFits(hz: real, n: nat)
    requires 0.0 < hz && 1 <= n
    ensures 0 <= SettleTicks(hz, n) <= MaxInt(1, n / 2) <= n
  {
    MulNonNeg(SETTLE_SECONDS, hz);
    RoundBounds(SETTLE_SECONDS * hz);
  }

  /** A pending close belongs to the segment being executed. It is due within half that segment (or
      one tick), hence no later than the first tick of the next one, and it has only just arrived or
      is not due yet. */
  predicate InSegment(ticks: seq<Tick>, st: Progress) {
    st.pending.Some? ==>
      var p := st.pending.value;
      && 1 <= st.tick <= |ticks|
      && var t := ticks[st.tick - 1];
         && p.segment == t.segment
         && p.arrived + t.offset == st.tick + 1
         && p.due <= p.arrived + MaxInt(1, t.segmentTicks / 2)
         && (st.tick < p.due || p.arrived == st.tick)
  }

  predicate OnSchedule(ticks: seq<Tick>, st: Progress) {
    && st.tick <= |ticks|
    && Decided(st.events) + Waiting(st.pending) == Arrivals(ticks[..st.tick])
    && InSegment(ticks, st)
  }

  lemma DecidedSnoc(events: seq<GripEvent>, e: GripEvent)
    ensures Decided(events + [e]) == Decided(events) + [Arrival(e.arrived, e.segment, e.command)]
  {}

  lemma ArrivalsSnoc(ticks: seq<Tick>, n: nat)
    requires n < |ticks|
    ensures Arrivals(ticks[..n + 1])
         == Arrivals(ticks[..n])
            + if ticks[n].grip.Some? then [Arrival(n + 1, ticks[n].segment, ticks[n].grip.value)] else []
  {
    assert ticks[..n + 1][..n] == ticks[..n];
  }

  lemma ResolveKeepsArrivals(x: Setup, st: Progress, s: RobotState)
    requires st.pending.Some?
    ensures var out := Resolve(x, st, st.pending.value, s);
      Decided(out.events) + Waiting(out.pending) == Decided(st.events) + Waiting(st.pending)
  {
    hide GateRefuses;
    var p := st.pending.value;
    DecidedSnoc(st.events, GripEvent(p.segment, p.arrived, st.tick, p.command, !GateRefuses(x, st, s)));
  }

  /** After the due check, what is still pending belongs to the current segment; at the first tick
      of a segment nothing is. */
  lemma DueStep(x: Setup, st: Progress, ticks: seq<Tick>, s: RobotState)
    requires WholePlan(ticks) && 1 <= st.tick <= |ticks|
    requires OnSchedule(ticks, st.(tick := st.tick - 1))
    ensures var out := ResolveIfDue(x, st, s);
      && out.tick == st.tick && out.streamed == st.streamed
      && Decided(out.events) + Waiting(out.pending) == Arrivals(ticks[..st.tick - 1])
      && InSegment(ticks, out)
      && (ticks[st.tick - 1].offset == 1 ==> out.pending.None?)
  {
    hide GateRefuses, Arrivals;
    if st.pending.Some? {
      assert Laid(ticks, st.tick - 2) && Laid(ticks, st.tick - 1);
      ResolveKeepsArrivals(x, st, s);
    }
  }

  /** So the executor's branch for a second close arriving before the first is resolved is never
      taken: by the time a command is looked at, no close is pending. */
  lemma NoSecondPending(x: Setup, st: Progress, ticks: seq<Tick>, s: RobotState)
    requires WholePlan(ticks) && 1 <= st.tick <= |ticks| && ticks[st.tick - 1].grip.Some?
    requires OnSchedule(ticks, st.(tick := st.tick - 1))
    ensures ResolveIfDue(x, st, s).pending.None?
  {
    assert Laid(ticks, st.tick - 1);
    DueStep(x, st, ticks, s);
  }

  lemma CommandStep(x: Setup, st: Progress, ticks: seq<Tick>, s: RobotState)
    requires 0.0 < x.hz && 1 <= st.tick <= |ticks| && Laid(ticks, st.tick - 1) && ticks[st.tick - 1].grip.Some?
    requires st.pending.None? && Decided(st.events) == Arrivals(ticks[..st.tick - 1])
    ensures var t := ticks[st.tick - 1];
      OnSchedule(ticks, HandleCommand(x, st, t.grip.value, t, s))
  {
    hide Closing, Closes, GateActive, SettleTicks, Arrivals, Resolve;
    var t := ticks[st.tick - 1];
    ArrivalsSnoc(ticks, st.tick - 1);
    SettleFits(x.hz, t.segmentTicks);
    DecidedSnoc(st.events, GripEvent(t.segment, st.tick, st.tick, t.grip.value, true));
    DecidedSnoc(st.events, GripEvent(t.segment, st.tick, st.tick, t.grip.value, false));
  }

  lemma StreamStaysOnSchedule(x: Setup, st: Progress, ticks: seq<Tick>, v: Verdict, s: RobotState)
    requires WholePlan(ticks) && 0.0 < x.hz && v.Passed? && 1 <= st.tick <= |ticks|
    requires OnSchedule(ticks, st.(tick := st.tick - 1))
    ensures OnSchedule(ticks, Stream(x, st, v, ticks[st.tick - 1], s))
    ensures Stream(x, st, v, ticks[st.tick - 1], s).tick == st.tick
  {
    hide HandleCommand, ResolveIfDue, Arrivals, Decided;
    var t := ticks[st.tick - 1];
    assert Laid(ticks, st.tick - 1);
    var streamed := st.(streamed := st.streamed + [v.pose], clipped := st.clipped || v.clips != []);
    DueStep(x, streamed, ticks, s);
    var resolved := ResolveIfDue(x, streamed, s);
    if t.grip.Some? {
      CommandStep(x, resolved, ticks, s);
      HandleKeepsTick(x, resolved, t.grip.value, t, s);
    } else {
      ArrivalsSnoc(ticks, st.tick - 1);
    }
  }

  lemma HandleKeepsTick(x: Setup, st: Progress, c: GripperCommand, t: Tick, s: RobotState)
    ensures HandleCommand(x, st, c, t, s).tick == st.tick
    ensures HandleCommand(x, st, c, t, s).streamed == st.streamed
    ensures HandleCommand(x, st, c, t, s).clipped == st.clipped
    ensures HandleCommand(x, st, c, t, s).stop == st.stop
    ensures HandleCommand(x, st, c, t, s).memory == st.memory
    ensures HandleCommand(x, st, c, t, s).cancel == st.cancel
  {
    hide Closing, Closes, GateActive, SettleTicks, GateRefuses;
  }

  // Whole runs.

  /** While the run lasts it has executed exactly one tick per setpoint and is on schedule; once it
      stopped at a tick, everything up to the tick before it has been accounted for. */
  predicate RunShape(ticks: seq<Tick>, st: Progress, n: nat) {
    if st.stop.None? then st.tick == n && |st.streamed| == n && OnSchedule(ticks, st)
    else 1 <= st.tick <= n && |st.streamed| == st.tick - 1 && OnSchedule(ticks, st.(tick := st.tick - 1))
  }

  lemma {:induction false} RunIsOnSchedule(x: Setup, start: RobotState, ticks: seq<Tick>, env: nat -> TickInput, n: nat)
    requires WholePlan(ticks) && 0.0 < x.hz && n <= |ticks|
    ensures RunShape(ticks, Run(x, Initial(start), ticks, env, n), n)
  {
    hide Filter, Exceeds, Stream, OnSchedule;
    if n == 0 {
      EmptySchedule(ticks, start);
    } else {
      RunIsOnSchedule(x, start, ticks, env, n - 1);
      var before := Run(x, Initial(start), ticks, env, n - 1);
      if before.stop.None? {
        AdvanceStaysOnSchedule(x, before, ticks, env(n - 1));
      }
    }
  }

  lemma EmptySchedule(ticks: seq<Tick>, start: RobotState)
    ensures OnSchedule(ticks, Initial(start))
  {}

  lemma AdvanceStaysOnSchedule(x: Setup, st: Progress, ticks: seq<Tick>, i: TickInput)
    requires WholePlan(ticks) && 0.0 < x.hz && st.tick < |ticks| && st.stop.None?
    requires |st.streamed| == st.tick && OnSchedule(ticks, st)
    ensures RunShape(ticks, Advance(x, st, ticks[st.tick], i), st.tick + 1)
  {
    hide Filter, Exceeds, Stream;
    var begun := st.(tick := st.tick + 1, cancel := st.cancel || i.stopRequested);
    ScheduleIgnores(ticks, st, begun.(tick := st.tick));
    if !begun.cancel && !i.fault && !Exceeds(i.state.wrench, x.wrenchCap) {
      var (memory, v) := Filter(x.sp, x.profile, 1.0 / x.hz, begun.memory, ticks[st.tick].pose, i.state, x.wrenchCap);
      if v.Passed? {
        var m := begun.(memory := memory);
        ScheduleIgnores(ticks, st, m.(tick := st.tick));
        StreamStaysOnSchedule(x, m, ticks, v, i.state);
        StreamAdds(x, m, v, ticks[st.tick], i.state);
      }
    }
  }

  lemma StreamAdds(x: Setup, st: Progress, v: Verdict, t: Tick, s: RobotState)
    requires v.Passed?
    ensures var out := Stream(x, st, v, t, s);
      && out.streamed == st.streamed + [v.pose] && out.stop == st.stop && out.memory == st.memory
      && out.tick == st.tick && out.cancel == st.cancel
      && out.clipped == (st.clipped || v.clips != []) && out.lastCommand == Some(v.pose.pos)
  {
    hide HandleCommand, GateRefuses;
    var streamed := st.(streamed := st.streamed + [v.pose], clipped := st.clipped || v.clips != []);
    if t.grip.Some? {
      HandleKeepsTick(x, ResolveIfDue(x, streamed, s), t.grip.value, t, s);
    }
  }

  /** The schedule only concerns the tick, the decided commands and the pending close. */
  lemma ScheduleIgnores(ticks: seq<Tick>, a: Progress, b: Progress)
    requires OnSchedule(ticks, a) && a.tick == b.tick && a.events == b.events && a.pending == b.pending
    ensures OnSchedule(ticks, b)
  {}

  // Which commands a plan carries.

  function Commands(arrivals: seq<Arrival>): seq<(nat, GripperCommand)> {
    seq(|arrivals|, i requires 0 <= i < |arrivals| => (arrivals[i].segment, arrivals[i].command))
  }

  /** The commands of the waypoints, each with its waypoint's index, in waypoint order. */
  function WaypointCommands(ws: seq<Waypoint>): seq<(nat, GripperCommand)> {
    if ws == [] then []
    else
      var k := |ws| - 1;
      WaypointCommands(ws[..k]) + if ws[k].gripper.Some? then [(k, ws[k].gripper.value)] else []
  }

  lemma {:induction false} ArrivalsOfSegment(a: seq<Tick>, b: seq<Tick>, grip: Option<GripperCommand>, index: nat)
    requires b != [] && b[0].grip == grip && b[0].segment == index
    requires forall i | 0 < i < |b| :: b[i].grip.None?
    ensures Commands(Arrivals(a + b))
         == Commands(Arrivals(a)) + if grip.Some? then [(index, grip.value)] else []
    decreases |b|
  {
    var k := |b| - 1;
    assert (a + b)[..|a| + k] == a + b[..k];
    if k > 0 {
      ArrivalsOfSegment(a, b[..k], grip, index);
    } else {
      assert a + b[..0] == a;
    }
  }

  lemma {:induction false} PlanCarriesCommands(sp: Space, hz: real, caps: Caps, ws: seq<Waypoint>, from: Pose)
    requires 0.0 < hz
    ensures Commands(Arrivals(Plan(sp, hz, caps, ws, from, 0))) == WaypointCommands(ws)
    decreases |ws|
  {
    hide SegmentTicks, PoseAt, Plan;
    if ws == [] {
      EmptyPlan(sp, hz, caps, from);
    } else {
      var k := |ws| - 1;
      PlanCarriesCommands(sp, hz, caps, ws[..k], from);
      PlanSnoc(sp, hz, caps, ws, from, 0);
      var was := PoseAfter(ws, from, k);
      var to := TargetPose(was, ws[k]);
      var last := Segment(sp, was, to, SegmentTicks(sp, hz, caps, was, to, ws[k].timing), k, ws[k].gripper);
      ArrivalsOfSegment(Plan(sp, hz, caps, ws[..k], from, 0), last, ws[k].gripper, k);
    }
  }

  lemma EmptyPlan(sp: Space, hz: real, caps: Caps, from: Pose)
    requires 0.0 < hz
    ensures Plan(sp, hz, caps, [], from, 0) == []
  {}

  lemma PlanIsWhole(sp: Space, p: Profile, hz: real, c: Chunk, start: Pose)
    requires 0.0 < hz
    ensures WholePlan(ChunkPlan(sp, p, hz, c, start))
  {
    PlanLaid(sp, hz, ExecutorCaps(p, c), c.waypoints, start, 0);
  }

  /** On a clean finish the gripper command of every executed waypoint has been decided exactly
      once, in waypoint order; a stopped chunk has decided exactly those that arrived before the
      tick it stopped at. Either way nothing is left pending. */
  lemma EveryCommandDecidedOnce(sp: Space, p: Profile, hz: real, c: Chunk, start: RobotState, env: nat -> TickInput,
                                last: RobotState)
    requires 0.0 < hz
    ensures var st := Execution(sp, p, hz, c, start, env, last);
      var ticks := ChunkPlan(sp, p, hz, c, start.tcp);
      && st.pending.None? && |st.streamed| <= |ticks|
      && Decided(st.events) == Arrivals(ticks[..|st.streamed|])
      && (st.stop.None? ==> |st.streamed| == |ticks| && Commands(Decided(st.events)) == WaypointCommands(c.waypoints))
  {
    hide ChunkPlan, SetupFor, Run, GateRefuses, Initial, Arrivals;
    var ticks := ChunkPlan(sp, p, hz, c, start.tcp);
    var x := SetupFor(sp, p, hz, c);
    SetupHz(sp, p, hz, c);
    PlanIsWhole(sp, p, hz, c, start.tcp);
    RunIsOnSchedule(x, start, ticks, env, |ticks|);
    var st := Run(x, Initial(start), ticks, env, |ticks|);
    if st.pending.Some? {
      var w := st.pending.value;
      DecidedSnoc(st.events, GripEvent(w.segment, w.arrived, st.tick, w.command, false));
      DecidedSnoc(st.events, GripEvent(w.segment, w.arrived, st.tick, w.command, true));
    }
    if st.stop.None? {
      assert ticks[..|ticks|] == ticks;
      PlanCommands(sp, p, hz, c, start.tcp);
    }
  }

  lemma SetupHz(sp: Space, p: Profile, hz: real, c: Chunk)
    ensures SetupFor(sp, p, hz, c).hz == hz && SetupFor(sp, p, hz, c).gate == c.gripGate
    ensures SetupFor(sp, p, hz, c).sp == sp && SetupFor(sp, p, hz, c).profile == p
  {}

  lemma PlanCommands(sp: Space, p: Profile, hz: real, c: Chunk, start: Pose)
    requires 0.0 < hz
    ensures Commands(Arrivals(ChunkPlan(sp, p, hz, c, start))) == WaypointCommands(c.waypoints)
  {
    PlanCarriesCommands(sp, hz, ExecutorCaps(p, c), c.waypoints, start);
  }

  // The gate.

  /** A command that closes: a grasp, or a width more than a millimetre below the measured one, unless
      no plausible width was measured. */
  predicate Closes(c: GripperCommand, measured: real) {
    c.grasp || (measured > 0.000001 && measured - c.width > 0.001)
  }

  lemma ClosingMeans(c: GripperCommand, measured: real)
    ensures Closing(c, measured) <==> Closes(c, measured)
  {}

  /** Whether a command counted as closing when it arrived. */
  predicate ClosedOnArrival(env: nat -> TickInput, e: GripEvent) {
    1 <= e.arrived && Closes(e.command, env(e.arrived - 1).state.gripperWidth)
  }

  /** Everything commanded before tick `n` is exactly the plan. */
  predicate UnclippedUpTo(ticks: seq<Tick>, streamed: seq<Pose>, n: nat) {
    n <= |streamed| && n <= |ticks| && forall j | 0 <= j < n :: streamed[j] == ticks[j].pose
  }

  /** The distance between the command of tick `k` and a measured state. */
  function Error(sp: Space, streamed: seq<Pose>, k: nat, s: RobotState): real
    requires 1 <= k <= |streamed|
  {
    sp.norm(streamed[k - 1].pos.Sub(s.tcp.pos))
  }

  /** How many ticks a close waits: 0.35 s to the nearest tick, cut to half its segment, and at least
      one tick. */
  predicate Waited(hz: real, segmentTicks: nat, n: int) {
    var half := MaxInt(1, segmentTicks / 2);
    && 1 <= n <= half
    && (Abs(0.35 * hz - n as real) <= 0.5 || (n == half && 0.35 * hz > n as real) || (n == 1 && 0.35 * hz < 1.0))
  }

  lemma WindowIsFull(hz: real, segmentTicks: nat)
    requires 0.0 < hz
    ensures Waited(hz, segmentTicks, MaxInt(1, SettleTicks(hz, segmentTicks)))
  {
    RoundBounds(SETTLE_SECONDS * hz);
    hide Round;
  }

  /** The settled measurement a close was allowed on: at a tick of the run one settle window after its
      arrival, against the previous tick's command. */
  predicate Settled(x: Setup, ticks: seq<Tick>, env: nat -> TickInput, streamed: seq<Pose>, e: GripEvent)
    requires x.gate.Some?
  {
    && 1 <= e.arrived < e.decided <= |streamed| <= |ticks|
    && Waited(x.hz, ticks[e.arrived - 1].segmentTicks, e.decided - e.arrived)
    && Error(x.sp, streamed, e.decided - 1, env(e.decided - 1).state) <= x.gate.value
  }

  /** The one case without a settle window: the close arrived at the very last tick, which is a
      segment of its own, and was measured on the state read when the loop had ended, against that
      tick's command. */
  predicate MeasuredAtEnd(x: Setup, ticks: seq<Tick>, last: RobotState, streamed: seq<Pose>, e: GripEvent)
    requires x.gate.Some?
  {
    && 1 <= e.arrived == e.decided == |ticks| == |streamed|
    && ticks[e.arrived - 1].segmentTicks == 1
    && Error(x.sp, streamed, e.decided, last) <= x.gate.value
  }

  predicate OnTarget(x: Setup, ticks: seq<Tick>, env: nat -> TickInput, last: RobotState, streamed: seq<Pose>,
                     e: GripEvent)
    requires x.gate.Some?
  {
    Settled(x, ticks, env, streamed, e) || MeasuredAtEnd(x, ticks, last, streamed, e)
  }

  /** A grasp after an earlier close that reached the gripper. */
  ghost predicate Sustains(env: nat -> TickInput, events: seq<GripEvent>, k: nat)
    requires k < |events|
  {
    events[k].command.grasp && exists j | 0 <= j < k :: events[j].sent && ClosedOnArrival(env, events[j])
  }

  /** Why a closing command may reach the gripper while a gate is set: it was measured on target
      with no clip and no withheld command before it, or it sustains a grasp after an earlier
      close that did reach the gripper. */
  ghost predicate Justified(x: Setup, ticks: seq<Tick>, env: nat -> TickInput, last: RobotState, streamed: seq<Pose>,
                      events: seq<GripEvent>, k: nat)
    requires x.gate.Some? && k < |events|
  {
    var e := events[k];
    || (OnTarget(x, ticks, env, last, streamed, e)
        && UnclippedUpTo(ticks, streamed, e.decided)
        && forall j | 0 <= j < k :: events[j].sent)
    || (e.decided == e.arrived && Sustains(env, events, k))
  }

  ghost predicate EventOk(x: Setup, ticks: seq<Tick>, env: nat -> TickInput, last: RobotState, streamed: seq<Pose>,
                    events: seq<GripEvent>, k: nat)
    requires x.gate.Some? && k < |events|
  {
    var e := events[k];
    && 1 <= e.arrived
    && (ClosedOnArrival(env, e) && e.sent ==> Justified(x, ticks, env, last, streamed, events, k))
    && (!ClosedOnArrival(env, e) || Sustains(env, events, k) ==> e.sent && e.decided == e.arrived)
  }

  ghost predicate IssuedMeans(env: nat -> TickInput, st: Progress) {
    st.closeIssued <==> exists k | 0 <= k < |st.events| :: st.events[k].sent && ClosedOnArrival(env, st.events[k])
  }

  predicate AbortedMeans(st: Progress) {
    st.closeAborted <==> exists k | 0 <= k < |st.events| :: !st.events[k].sent
  }

  predicate PendingOk(x: Setup, ticks: seq<Tick>, env: nat -> TickInput, st: Progress) {
    st.pending.Some? ==>
      var p := st.pending.value;
      && 1 <= p.arrived <= |st.streamed| <= |ticks|
      && p.due == p.arrived + SettleTicks(x.hz, ticks[p.arrived - 1].segmentTicks)
      && Closes(p.command, env(p.arrived - 1).state.gripperWidth)
      && (p.command.grasp ==> !st.closeIssued)
  }

  ghost predicate GateInv(x: Setup, ticks: seq<Tick>, env: nat -> TickInput, last: RobotState, st: Progress)
    requires x.gate.Some?
  {
    && |st.streamed| <= |ticks|
    && IssuedMeans(env, st)
    && AbortedMeans(st)
    && (!st.clipped ==> UnclippedUpTo(ticks, st.streamed, |st.streamed|))
    && (forall k | 0 <= k < |st.events| :: EventOk(x, ticks, env, last, st.streamed, st.events, k))
    && PendingOk(x, ticks, env, st)
  }

  /** The position commanded at tick `k` (none before the first). */
  function CommandAt(streamed: seq<Pose>, k: nat): Option<Vec>
    requires k <= |streamed|
  {
    if k == 0 then None else Some(streamed[k - 1].pos)
  }

  lemma EventOkExtends(x: Setup, ticks: seq<Tick>, env: nat -> TickInput, last: RobotState,
                       streamed: seq<Pose>, more: seq<Pose>, events: seq<GripEvent>, e: seq<GripEvent>, k: nat)
    requires x.gate.Some? && k < |events| && |streamed + more| <= |ticks|
    requires EventOk(x, ticks, env, last, streamed, events, k)
    ensures EventOk(x, ticks, env, last, streamed + more, events + e, k)
  {
    hide Closing, Closes, SettleTicks;
    var ev := events[k];
    if ClosedOnArrival(env, ev) && ev.sent {
      assert Justified(x, ticks, env, last, streamed, events, k);
      if OnTarget(x, ticks, env, last, streamed, ev) && UnclippedUpTo(ticks, streamed, ev.decided)
         && (forall j | 0 <= j < k :: events[j].sent) {
        if |streamed| == |ticks| { assert streamed + more == streamed; }
        assert OnTarget(x, ticks, env, last, streamed + more, ev);
        assert UnclippedUpTo(ticks, streamed + more, ev.decided);
        assert forall j | 0 <= j < k :: (events + e)[j].sent;
      } else {
        var j :| 0 <= j < k && events[j].sent && ClosedOnArrival(env, events[j]);
        assert (events + e)[j] == events[j];
      }
      assert Justified(x, ticks, env, last, streamed + more, events + e, k);
    }
  }

  lemma EventsOkExtend(x: Setup, ticks: seq<Tick>, env: nat -> TickInput, last: RobotState,
                       streamed: seq<Pose>, more: seq<Pose>, events: seq<GripEvent>, e: seq<GripEvent>)
    requires x.gate.Some? && |streamed + more| <= |ticks|
    requires forall k | 0 <= k < |events| :: EventOk(x, ticks, env, last, streamed, events, k)
    ensures forall k | 0 <= k < |events| :: EventOk(x, ticks, env, last, streamed + more, events + e, k)
  {
    hide EventOk;
    forall k | 0 <= k < |events| ensures EventOk(x, ticks, env, last, streamed + more, events + e, k) {
      EventOkExtends(x, ticks, env, last, streamed, more, events, e, k);
    }
  }

  /** Appending a decided event. */
  lemma Append(x: Setup, ticks: seq<Tick>, env: nat -> TickInput, last: RobotState, st: Progress, e: GripEvent,
               out: Progress)
    requires x.gate.Some? && GateInv(x, ticks, env, last, st)
    requires out == st.(events := st.events + [e], pending := out.pending,
                        closeIssued := st.closeIssued || (e.sent && ClosedOnArrival(env, e)),
                        closeAborted := st.closeAborted || !e.sent)
    requires PendingOk(x, ticks, env, out)
    requires EventOk(x, ticks, env, last, st.streamed, st.events + [e], |st.events|)
    ensures GateInv(x, ticks, env, last, out)
  {
    hide EventOk, ClosedOnArrival, PendingOk, UnclippedUpTo;
    var n := |st.events|;
    EventsOkExtend(x, ticks, env, last, st.streamed, [], st.events, [e]);
    assert st.streamed + [] == st.streamed;
    assert out.events[n] == e;
    assert forall k | 0 <= k < n :: out.events[k] == st.events[k];
  }

  /** Deciding a pending close: refused, or on a settled measurement. */
  lemma ResolveKeepsGate(x: Setup, ticks: seq<Tick>, env: nat -> TickInput, last: RobotState, st: Progress, s: RobotState)
    requires x.gate.Some? && GateInv(x, ticks, env, last, st) && st.pending.Some? && st.tick == |st.streamed|
    requires var p := st.pending.value;
      !GateRefuses(x, st, s) ==>
        OnTarget(x, ticks, env, last, st.streamed, GripEvent(p.segment, p.arrived, st.tick, p.command, true))
    ensures GateInv(x, ticks, env, last, Resolve(x, st, st.pending.value, s))
  {
    hide Closing, Closes, SettleTicks, OnTarget, TrackingError, UnclippedUpTo;
    var p, n := st.pending.value, |st.events|;
    var refused := GateRefuses(x, st, s);
    var e := GripEvent(p.segment, p.arrived, st.tick, p.command, !refused);
    var events := st.events + [e];
    assert events[n] == e && ClosedOnArrival(env, e);
    GraspSustains(env, st, e);
    hide IssuedMeans, Sustains;
    if !refused {
      assert forall j | 0 <= j < |st.events| :: events[j].sent;
      assert Justified(x, ticks, env, last, st.streamed, events, |st.events|);
    }
    Append(x, ticks, env, last, st, e, Resolve(x, st, p, s));
  }

  /** A command handled while nothing is pending. */
  lemma CommandKeepsGate(x: Setup, ticks: seq<Tick>, env: nat -> TickInput, last: RobotState, st: Progress)
    requires x.gate.Some? && 0.0 < x.hz && GateInv(x, ticks, env, last, st) && st.pending.None?
    requires 1 <= st.tick == |st.streamed| && Laid(ticks, st.tick - 1) && ticks[st.tick - 1].grip.Some?
    ensures var t := ticks[st.tick - 1];
      GateInv(x, ticks, env, last, HandleCommand(x, st, t.grip.value, t, env(st.tick - 1).state))
  {
    hide Closing, Closes, SettleTicks, OnTarget, UnclippedUpTo, Resolve;
    var t := ticks[st.tick - 1];
    var c, s := t.grip.value, env(st.tick - 1).state;
    var out, n := HandleCommand(x, st, c, t, s), |st.events|;
    SettleFits(x.hz, t.segmentTicks);
    ClosingMeans(c, s.gripperWidth);
    if Closing(c, s.gripperWidth) && GateActive(x, st, c) && !st.closeAborted {
      assert out == st.(pending := out.pending) && PendingOk(x, ticks, env, out);
      GateIgnoresPending(x, ticks, env, last, st, out);
    } else {
      var e := out.events[n];
      assert out.events == st.events + [e];
      assert ClosedOnArrival(env, e) <==> Closing(c, s.gripperWidth);
      GraspSustains(env, st, e);
      assert EventOk(x, ticks, env, last, st.streamed, st.events + [e], n);
      hide EventOk, ClosedOnArrival;
      Append(x, ticks, env, last, st, e, out);
    }
  }

  lemma GateIgnoresPending(x: Setup, ticks: seq<Tick>, env: nat -> TickInput, last: RobotState, a: Progress, b: Progress)
    requires x.gate.Some? && GateInv(x, ticks, env, last, a)
    requires b == a.(pending := b.pending) && PendingOk(x, ticks, env, b)
    ensures GateInv(x, ticks, env, last, b)
  {
    hide EventOk, ClosedOnArrival, PendingOk, UnclippedUpTo;
  }

  /** The flag `closeIssued` tells a grasp that sustains from one that does not. */
  lemma GraspSustains(env: nat -> TickInput, st: Progress, e: GripEvent)
    requires IssuedMeans(env, st)
    ensures Sustains(env, st.events + [e], |st.events|) <==> e.command.grasp && st.closeIssued
  {
    hide ClosedOnArrival;
    var n, events := |st.events|, st.events + [e];
    assert events[n] == e && forall j | 0 <= j < n :: events[j] == st.events[j];
    if st.closeIssued {
      var j :| 0 <= j < n && st.events[j].sent && ClosedOnArrival(env, st.events[j]);
      assert events[j].sent && ClosedOnArrival(env, events[j]);
    }
  }

  /** A filter call without clips changes nothing. */
  lemma NoClipNoChange(sp: Space, p: Profile, dt: real, m: Memory, target: Pose, s: RobotState, cap: Wrench)
    requires Filter(sp, p, dt, m, target, s, cap).1.Passed? && Filter(sp, p, dt, m, target, s, cap).1.clips == []
    ensures Filter(sp, p, dt, m, target, s, cap).1.pose == target
  {
    hide Exceeds, AllClose, Box.Clip, Toward, Share, Rate, PerTick, Vec.Sub, Vec.Scale, Vec.Add;
  }

  /** Streaming one more setpoint. */
  lemma ExtendKeepsGate(x: Setup, ticks: seq<Tick>, env: nat -> TickInput, last: RobotState, st: Progress, v: Verdict)
    requires x.gate.Some? && GateInv(x, ticks, env, last, st) && v.Passed? && |st.streamed| < |ticks|
    requires v.clips == [] ==> v.pose == ticks[|st.streamed|].pose
    ensures GateInv(x, ticks, env, last,
                    st.(streamed := st.streamed + [v.pose], clipped := st.clipped || v.clips != []))
  {
    hide EventOk, ClosedOnArrival, Closing, Closes, SettleTicks;
    EventsOkExtend(x, ticks, env, last, st.streamed, [v.pose], st.events, []);
    assert st.events + [] == st.events;
  }

  lemma DueKeepsGate(x: Setup, ticks: seq<Tick>, env: nat -> TickInput, last: RobotState, st: Progress)
    requires x.gate.Some? && 0.0 < x.hz && GateInv(x, ticks, env, last, st)
    requires 1 <= st.tick == |st.streamed| && st.lastCommand == CommandAt(st.streamed, st.tick - 1)
    requires st.pending.Some? ==> var p := st.pending.value;
      p.arrived < st.tick && (st.tick <= p.due || p.arrived == st.tick - 1)
    ensures GateInv(x, ticks, env, last, ResolveIfDue(x, st, env(st.tick - 1).state))
  {
    hide GateInv, Resolve, Closing, Closes, SettleTicks;
    if st.pending.Some? && st.tick >= st.pending.value.due {
      var p, s := st.pending.value, env(st.tick - 1).state;
      PendingFacts(x, ticks, env, last, st);
      if !GateRefuses(x, st, s) {
        assert TrackingError(x.sp, st.lastCommand, s) == Error(x.sp, st.streamed, st.tick - 1, s);
        DueAfterWindow(x, ticks, env, st);
        assert OnTarget(x, ticks, env, last, st.streamed, GripEvent(p.segment, p.arrived, st.tick, p.command, true));
      }
      ResolveKeepsGate(x, ticks, env, last, st, s);
    }
  }

  /** A close that is decided in the loop has waited its window. */
  lemma DueAfterWindow(x: Setup, ticks: seq<Tick>, env: nat -> TickInput, st: Progress)
    requires 0.0 < x.hz && st.pending.Some? && PendingOk(x, ticks, env, st) && st.tick >= st.pending.value.due
    requires var p := st.pending.value; p.arrived < st.tick && (st.tick <= p.due || p.arrived == st.tick - 1)
    ensures Waited(x.hz, ticks[st.pending.value.arrived - 1].segmentTicks, st.tick - st.pending.value.arrived)
  {
    hide Closes, SettleTicks, Waited;
    WindowIsFull(x.hz, ticks[st.pending.value.arrived - 1].segmentTicks);
  }

  lemma PendingFacts(x: Setup, ticks: seq<Tick>, env: nat -> TickInput, last: RobotState, st: Progress)
    requires x.gate.Some? && GateInv(x, ticks, env, last, st) && st.pending.Some?
    ensures PendingOk(x, ticks, env, st) && |st.streamed| <= |ticks| && IssuedMeans(env, st)
  {
    hide EventOk, ClosedOnArrival, Closing, Closes, SettleTicks;
  }

  lemma StreamKeepsGate(x: Setup, ticks: seq<Tick>, env: nat -> TickInput, last: RobotState, st: Progress, v: Verdict)
    requires x.gate.Some? && 0.0 < x.hz && WholePlan(ticks) && v.Passed?
    requires GateInv(x, ticks, env, last, st) && 1 <= st.tick <= |ticks| && |st.streamed| == st.tick - 1
    requires st.lastCommand == CommandAt(st.streamed, st.tick - 1) && OnSchedule(ticks, st.(tick := st.tick - 1))
    requires v.clips == [] ==> v.pose == ticks[st.tick - 1].pose
    ensures GateInv(x, ticks, env, last, Stream(x, st, v, ticks[st.tick - 1], env(st.tick - 1).state))
  {
    hide GateInv, HandleCommand, ResolveIfDue, Decided, Arrivals, Closing, Closes, SettleTicks;
    var t, s := ticks[st.tick - 1], env(st.tick - 1).state;
    assert Laid(ticks, st.tick - 1);
    var streamed := st.(streamed := st.streamed + [v.pose], clipped := st.clipped || v.clips != []);
    ExtendKeepsGate(x, ticks, env, last, st, v);
    if st.pending.Some? { PendingFacts(x, ticks, env, last, st); }
    DueKeepsGate(x, ticks, env, last, streamed);
    DueStep(x, streamed, ticks, s);
    var resolved := ResolveIfDue(x, streamed, s);
    if t.grip.Some? {
      CommandKeepsGate(x, ticks, env, last, resolved);
    }
    var handled := if t.grip.Some? then HandleCommand(x, resolved, t.grip.value, t, s) else resolved;
    GateIgnores(x, ticks, env, last, handled, handled.(lastCommand := Some(v.pose.pos)));
  }

  /** The invariant only concerns the streamed poses, the events and the gate's own flags. */
  lemma GateIgnores(x: Setup, ticks: seq<Tick>, env: nat -> TickInput, last: RobotState, a: Progress, b: Progress)
    requires x.gate.Some? && GateInv(x, ticks, env, last, a)
    requires b == a.(lastCommand := b.lastCommand, tick := b.tick, cancel := b.cancel, memory := b.memory, stop := b.stop)
    ensures GateInv(x, ticks, env, last, b)
  {
    hide EventOk, ClosedOnArrival, Closing, Closes, SettleTicks, UnclippedUpTo;
  }

  ghost predicate GateRun(x: Setup, ticks: seq<Tick>, env: nat -> TickInput, last: RobotState, st: Progress)
    requires x.gate.Some?
  {
    GateInv(x, ticks, env, last, st) && st.lastCommand == CommandAt(st.streamed, |st.streamed|)
  }

  lemma AdvanceKeepsGate(x: Setup, ticks: seq<Tick>, env: nat -> TickInput, last: RobotState, st: Progress)
    requires x.gate.Some? && 0.0 < x.hz && WholePlan(ticks) && GateRun(x, ticks, env, last, st)
    requires st.stop.None? && |st.streamed| == st.tick < |ticks| && OnSchedule(ticks, st)
    ensures GateRun(x, ticks, env, last, Advance(x, st, ticks[st.tick], env(st.tick)))
  {
    hide GateInv, Filter, Exceeds, Stream, OnSchedule;
    var t, i := ticks[st.tick], env(st.tick);
    var begun := st.(tick := st.tick + 1, cancel := st.cancel || i.stopRequested);
    var out := Advance(x, st, t, i);
    if begun.cancel || i.fault || Exceeds(i.state.wrench, x.wrenchCap) {
      GateIgnores(x, ticks, env, last, st, out);
    } else {
      var (memory, v) := Filter(x.sp, x.profile, 1.0 / x.hz, begun.memory, t.pose, i.state, x.wrenchCap);
      var m := begun.(memory := memory);
      GateIgnores(x, ticks, env, last, st, m);
      if v.Passed? {
        if v.clips == [] { NoClipNoChange(x.sp, x.profile, 1.0 / x.hz, begun.memory, t.pose, i.state, x.wrenchCap); }
        ScheduleIgnores(ticks, st, m.(tick := st.tick));
        StreamKeepsGate(x, ticks, env, last, m, v);
        StreamAdds(x, m, v, t, i.state);
      } else {
        GateIgnores(x, ticks, env, last, st, out);
      }
    }
  }

  lemma {:induction false} RunKeepsGate(x: Setup, start: RobotState, ticks: seq<Tick>, env: nat -> TickInput,
                                        last: RobotState, n: nat)
    requires x.gate.Some? && 0.0 < x.hz && WholePlan(ticks) && n <= |ticks|
    ensures GateRun(x, ticks, env, last, Run(x, Initial(start), ticks, env, n))
  {
    hide Advance, OnSchedule, EventOk, ClosedOnArrival;
    if n > 0 {
      hide GateInv;
      RunKeepsGate(x, start, ticks, env, last, n - 1);
      RunIsOnSchedule(x, start, ticks, env, n - 1);
      var before := Run(x, Initial(start), ticks, env, n - 1);
      if before.stop.None? {
        AdvanceKeepsGate(x, ticks, env, last, before);
      }
    }
  }

  /** With a gate set, over every run of every chunk: each command that grasps, or narrows a plausible
      measured width by more than a millimetre, and reaches the gripper is justified; one that does
      neither, or that sustains a grasp, is sent when it arrives. */
  lemma ClosesAreJustified(sp: Space, p: Profile, hz: real, c: Chunk, start: RobotState, env: nat -> TickInput,
                           last: RobotState, k: nat)
    requires 0.0 < hz && c.gripGate.Some? && k < |Execution(sp, p, hz, c, start, env, last).events|
    ensures var st := Execution(sp, p, hz, c, start, env, last);
      var ticks := ChunkPlan(sp, p, hz, c, start.tcp);
      var e := st.events[k];
      1 <= e.arrived &&
      var width := env(e.arrived - 1).state.gripperWidth;
      var closes := e.command.grasp || (width > 0.000001 && e.command.width < width - 0.001);
      && (closes && e.sent ==> Justified(SetupFor(sp, p, hz, c), ticks, env, last, st.streamed, st.events, k))
      && (!closes || Sustains(env, st.events, k) ==> e.sent && e.decided == e.arrived)
  {
    hide ChunkPlan, SetupFor, Run, Initial, Resolve, Closing, Justified, Sustains, SettleTicks;
    var ticks := ChunkPlan(sp, p, hz, c, start.tcp);
    var x := SetupFor(sp, p, hz, c);
    SetupHz(sp, p, hz, c);
    PlanIsWhole(sp, p, hz, c, start.tcp);
    RunIsOnSchedule(x, start, ticks, env, |ticks|);
    RunKeepsGate(x, start, ticks, env, last, |ticks|);
    FinishKeepsGate(x, ticks, env, last, Run(x, Initial(start), ticks, env, |ticks|));
    EventAt(x, ticks, env, last, Finish(x, Run(x, Initial(start), ticks, env, |ticks|), last), k);
  }

  lemma EventAt(x: Setup, ticks: seq<Tick>, env: nat -> TickInput, last: RobotState, st: Progress, k: nat)
    requires x.gate.Some? && GateInv(x, ticks, env, last, st) && k < |st.events|
    ensures EventOk(x, ticks, env, last, st.streamed, st.events, k)
  {
    hide EventOk;
  }

  /** A close that is still pending after a clean run arrived at the very last tick, and that tick is
      a segment of its own: every other close has been decided inside the loop. */
  lemma OnlyLastTickPends(ticks: seq<Tick>, st: Progress)
    requires WholePlan(ticks) && OnSchedule(ticks, st) && st.tick == |ticks| && st.pending.Some?
    ensures st.pending.value.arrived == |ticks| && ticks[|ticks| - 1].segmentTicks == 1
  {
    hide Decided, Arrivals;
    assert Laid(ticks, |ticks| - 1);
  }

  lemma FinishKeepsGate(x: Setup, ticks: seq<Tick>, env: nat -> TickInput, last: RobotState, st: Progress)
    requires x.gate.Some? && GateRun(x, ticks, env, last, st) && RunShape(ticks, st, |ticks|) && WholePlan(ticks)
    ensures GateInv(x, ticks, env, last, Finish(x, st, last))
  {
    hide GateInv, EventOk, Resolve, Closing, Closes, SettleTicks, Decided, Arrivals;
    if st.pending.Some? {
      var w := st.pending.value;
      PendingFacts(x, ticks, env, last, st);
      if st.stop.None? {
        OnlyLastTickPends(ticks, st);
        if !GateRefuses(x, st, last) {
          assert TrackingError(x.sp, st.lastCommand, last) == Error(x.sp, st.streamed, st.tick, last);
          assert OnTarget(x, ticks, env, last, st.streamed, GripEvent(w.segment, w.arrived, st.tick, w.command, true));
        }
        ResolveKeepsGate(x, ticks, env, last, st, last);
      } else {
        var e := GripEvent(w.segment, w.arrived, st.tick, w.command, false);
        var out := Finish(x, st, last);
        GraspSustains(env, st, e);
        DroppedOk(x, ticks, env, last, st.streamed, st.events, e);
        Append(x, ticks, env, last, st, e, out);
      }
    }
  }

  lemma DroppedOk(x: Setup, ticks: seq<Tick>, env: nat -> TickInput, last: RobotState, streamed: seq<Pose>,
                  events: seq<GripEvent>, e: GripEvent)
    requires x.gate.Some? && !e.sent && ClosedOnArrival(env, e) && !Sustains(env, events + [e], |events|)
    ensures EventOk(x, ticks, env, last, streamed, events + [e], |events|)
  {
    hide Closing, Closes;
    assert (events + [e])[|events|] == e;
  }

  // The other direction: a command is only ever withheld for a cause.

  /** The filter modified the setpoint of tick `j` (counted from 0). */
  predicate ClippedAt(x: Setup, start: RobotState, ticks: seq<Tick>, env: nat -> TickInput, j: nat)
    requires 0.0 < x.hz && j < |ticks|
  {
    var before := Run(x, Initial(start), ticks, env, j);
    var v := Filter(x.sp, x.profile, 1.0 / x.hz, before.memory, ticks[j].pose, env(j).state, x.wrenchCap).1;
    v.Passed? && v.clips != []
  }

  /** Off target at the decision: one settle window after the arrival, or after the last tick for a
      close that arrived only there. */
  predicate OffTarget(x: Setup, ticks: seq<Tick>, env: nat -> TickInput, last: RobotState, streamed: seq<Pose>,
                      e: GripEvent)
    requires x.gate.Some? && 1 <= e.decided <= |streamed|
  {
    || (1 <= e.arrived < e.decided <= |ticks|
        && Waited(x.hz, ticks[e.arrived - 1].segmentTicks, e.decided - e.arrived)
        && Error(x.sp, streamed, e.decided - 1, env(e.decided - 1).state) > x.gate.value)
    || (e.arrived == e.decided == |ticks| && ticks[e.arrived - 1].segmentTicks == 1
        && Error(x.sp, streamed, e.decided, last) > x.gate.value)
  }

  ghost predicate Caused(x: Setup, start: RobotState, ticks: seq<Tick>, env: nat -> TickInput, last: RobotState,
                         streamed: seq<Pose>, events: seq<GripEvent>, k: nat)
    requires x.gate.Some? && 0.0 < x.hz && k < |events| && |streamed| <= |ticks|
  {
    var e := events[k];
    !e.sent ==>
      && ClosedOnArrival(env, e) && 1 <= e.decided <= |streamed|
      && (|| (exists j | 0 <= j < k :: !events[j].sent)
          || (exists j | 0 <= j < e.decided :: ClippedAt(x, start, ticks, env, j))
          || OffTarget(x, ticks, env, last, streamed, e))
  }

  ghost predicate CauseInv(x: Setup, start: RobotState, ticks: seq<Tick>, env: nat -> TickInput, last: RobotState,
                           st: Progress)
    requires x.gate.Some? && 0.0 < x.hz && |st.streamed| <= |ticks|
  {
    && (st.clipped ==> exists j | 0 <= j < |st.streamed| :: ClippedAt(x, start, ticks, env, j))
    && forall k | 0 <= k < |st.events| :: Caused(x, start, ticks, env, last, st.streamed, st.events, k)
  }

  lemma CausedExtends(x: Setup, start: RobotState, ticks: seq<Tick>, env: nat -> TickInput, last: RobotState,
                      streamed: seq<Pose>, more: seq<Pose>, events: seq<GripEvent>, e: seq<GripEvent>)
    requires x.gate.Some? && 0.0 < x.hz && |streamed + more| <= |ticks|
    requires forall k | 0 <= k < |events| :: Caused(x, start, ticks, env, last, streamed, events, k)
    ensures forall k | 0 <= k < |events| :: Caused(x, start, ticks, env, last, streamed + more, events + e, k)
  {
    hide ClippedAt, ClosedOnArrival, Closing, Closes;
    forall k | 0 <= k < |events| ensures Caused(x, start, ticks, env, last, streamed + more, events + e, k) {
      assert Caused(x, start, ticks, env, last, streamed, events, k);
      if !events[k].sent {
        if j :| 0 <= j < k && !events[j].sent {
          assert !(events + e)[j].sent;
        }
      }
    }
  }

  lemma ResolveKeepsCause(x: Setup, start: RobotState, ticks: seq<Tick>, env: nat -> TickInput, last: RobotState,
                          st: Progress, s: RobotState)
    requires x.gate.Some? && 0.0 < x.hz && GateInv(x, ticks, env, last, st) && CauseInv(x, start, ticks, env, last, st)
    requires st.pending.Some? && 1 <= st.tick == |st.streamed|
    requires (1 <= st.pending.value.arrived < st.tick && s == env(st.tick - 1).state
              && Waited(x.hz, ticks[st.pending.value.arrived - 1].segmentTicks, st.tick - st.pending.value.arrived)
              && st.lastCommand == CommandAt(st.streamed, st.tick - 1))
          || (st.tick == |ticks| && s == last && st.lastCommand == CommandAt(st.streamed, st.tick)
              && st.pending.value.arrived == |ticks| && ticks[|ticks| - 1].segmentTicks == 1)
    ensures CauseInv(x, start, ticks, env, last, Resolve(x, st, st.pending.value, s))
  {
    hide ClippedAt, Closing, Closes, SettleTicks, EventOk, IssuedMeans, UnclippedUpTo;
    var p, refused, n := st.pending.value, GateRefuses(x, st, s), |st.events|;
    var e := GripEvent(p.segment, p.arrived, st.tick, p.command, !refused);
    var events := st.events + [e];
    CausedExtends(x, start, ticks, env, last, st.streamed, [], st.events, [e]);
    assert st.streamed + [] == st.streamed && events[n] == e;
    if st.closeAborted {
      var j :| 0 <= j < n && !st.events[j].sent;
      assert !events[j].sent;
    }
    assert Caused(x, start, ticks, env, last, st.streamed, events, n);
  }

  lemma CommandKeepsCause(x: Setup, start: RobotState, ticks: seq<Tick>, env: nat -> TickInput, last: RobotState,
                          st: Progress)
    requires x.gate.Some? && 0.0 < x.hz && GateInv(x, ticks, env, last, st) && CauseInv(x, start, ticks, env, last, st)
    requires st.pending.None? && 1 <= st.tick == |st.streamed| && ticks[st.tick - 1].grip.Some?
    ensures var t := ticks[st.tick - 1];
      CauseInv(x, start, ticks, env, last, HandleCommand(x, st, t.grip.value, t, env(st.tick - 1).state))
  {
    hide ClippedAt, Closing, Closes, SettleTicks, EventOk, IssuedMeans, UnclippedUpTo, Resolve;
    var t, n := ticks[st.tick - 1], |st.events|;
    var c, s := t.grip.value, env(st.tick - 1).state;
    var out := HandleCommand(x, st, c, t, s);
    ClosingMeans(c, s.gripperWidth);
    if out.events != st.events {
      var e := out.events[n];
      assert out.events == st.events + [e];
      CausedExtends(x, start, ticks, env, last, st.streamed, [], st.events, [e]);
      assert st.streamed + [] == st.streamed;
      if st.closeAborted {
        var j :| 0 <= j < n && !st.events[j].sent;
        assert !out.events[j].sent;
      }
      assert Caused(x, start, ticks, env, last, st.streamed, out.events, n);
    }
  }

  lemma CauseIgnores(x: Setup, start: RobotState, ticks: seq<Tick>, env: nat -> TickInput, last: RobotState,
                     a: Progress, b: Progress)
    requires x.gate.Some? && 0.0 < x.hz && |a.streamed| <= |ticks| && CauseInv(x, start, ticks, env, last, a)
    requires b.streamed == a.streamed && b.events == a.events && b.clipped == a.clipped
    ensures CauseInv(x, start, ticks, env, last, b)
  {
    hide ClippedAt, Caused;
  }

  lemma StreamKeepsCause(x: Setup, start: RobotState, ticks: seq<Tick>, env: nat -> TickInput, last: RobotState,
                         st: Progress, v: Verdict)
    requires x.gate.Some? && 0.0 < x.hz && WholePlan(ticks) && v.Passed?
    requires GateInv(x, ticks, env, last, st) && CauseInv(x, start, ticks, env, last, st)
    requires 1 <= st.tick <= |ticks| && |st.streamed| == st.tick - 1
    requires st.lastCommand == CommandAt(st.streamed, st.tick - 1) && OnSchedule(ticks, st.(tick := st.tick - 1))
    requires v.clips == [] ==> v.pose == ticks[st.tick - 1].pose
    requires v.clips != [] ==> ClippedAt(x, start, ticks, env, st.tick - 1)
    ensures |Stream(x, st, v, ticks[st.tick - 1], env(st.tick - 1).state).streamed| <= |ticks|
    ensures CauseInv(x, start, ticks, env, last, Stream(x, st, v, ticks[st.tick - 1], env(st.tick - 1).state))
  {
    hide GateInv, HandleCommand, Resolve, Decided, Arrivals, Closing, Closes, SettleTicks, ClippedAt, Caused;
    var t, s := ticks[st.tick - 1], env(st.tick - 1).state;
    assert Laid(ticks, st.tick - 1);
    var streamed := st.(streamed := st.streamed + [v.pose], clipped := st.clipped || v.clips != []);
    ExtendKeepsGate(x, ticks, env, last, st, v);
    CausedExtends(x, start, ticks, env, last, st.streamed, [v.pose], st.events, []);
    assert st.events + [] == st.events;
    assert CauseInv(x, start, ticks, env, last, streamed);
    if st.pending.Some? {
      PendingFacts(x, ticks, env, last, st);
      if st.tick >= st.pending.value.due {
        DueAfterWindow(x, ticks, env, streamed);
        ResolveKeepsCause(x, start, ticks, env, last, streamed, s);
      }
    }
    DueKeepsGate(x, ticks, env, last, streamed);
    DueStep(x, streamed, ticks, s);
    var resolved := ResolveIfDue(x, streamed, s);
    if t.grip.Some? {
      CommandKeepsCause(x, start, ticks, env, last, resolved);
      HandleKeepsTick(x, resolved, t.grip.value, t, s);
    }
    var handled := if t.grip.Some? then HandleCommand(x, resolved, t.grip.value, t, s) else resolved;
    CauseIgnores(x, start, ticks, env, last, handled, handled.(lastCommand := Some(v.pose.pos)));
  }

  lemma {:induction false} RunKeepsCause(x: Setup, start: RobotState, ticks: seq<Tick>, env: nat -> TickInput,
                                         last: RobotState, n: nat)
    requires x.gate.Some? && 0.0 < x.hz && WholePlan(ticks) && n <= |ticks|
    ensures var st := Run(x, Initial(start), ticks, env, n);
      |st.streamed| <= |ticks| && CauseInv(x, start, ticks, env, last, st)
  {
    hide GateInv, Filter, Exceeds, Stream, OnSchedule, Caused;
    if n > 0 {
      RunKeepsCause(x, start, ticks, env, last, n - 1);
      RunKeepsGate(x, start, ticks, env, last, n - 1);
      RunIsOnSchedule(x, start, ticks, env, n - 1);
      var st := Run(x, Initial(start), ticks, env, n - 1);
      if st.stop.None? {
        AdvanceKeepsCause(x, start, ticks, env, last, st);
      }
    }
  }

  lemma AdvanceKeepsCause(x: Setup, start: RobotState, ticks: seq<Tick>, env: nat -> TickInput, last: RobotState,
                          st: Progress)
    requires x.gate.Some? && 0.0 < x.hz && WholePlan(ticks) && GateRun(x, ticks, env, last, st)
    requires st.stop.None? && |st.streamed| == st.tick < |ticks| && OnSchedule(ticks, st)
    requires st == Run(x, Initial(start), ticks, env, st.tick) && CauseInv(x, start, ticks, env, last, st)
    ensures var out := Advance(x, st, ticks[st.tick], env(st.tick));
      |out.streamed| <= |ticks| && CauseInv(x, start, ticks, env, last, out)
  {
    hide GateInv, Filter, Exceeds, Stream, OnSchedule, CauseInv;
    var t, i := ticks[st.tick], env(st.tick);
    var begun := st.(tick := st.tick + 1, cancel := st.cancel || i.stopRequested);
    var out := Advance(x, st, t, i);
    if begun.cancel || i.fault || Exceeds(i.state.wrench, x.wrenchCap) {
      CauseIgnores(x, start, ticks, env, last, st, out);
    } else {
      var (memory, v) := Filter(x.sp, x.profile, 1.0 / x.hz, begun.memory, t.pose, i.state, x.wrenchCap);
      var m := begun.(memory := memory);
      GateIgnores(x, ticks, env, last, st, m);
      CauseIgnores(x, start, ticks, env, last, st, m);
      if v.Passed? {
        if v.clips == [] { NoClipNoChange(x.sp, x.profile, 1.0 / x.hz, begun.memory, t.pose, i.state, x.wrenchCap); }
        ScheduleIgnores(ticks, st, m.(tick := st.tick));
        StreamKeepsCause(x, start, ticks, env, last, m, v);
      } else {
        CauseIgnores(x, start, ticks, env, last, st, out);
      }
    }
  }

  /** A command that never reached the gripper was a closing one, and: an earlier command was
      already withheld, or the filter had clipped, or the arm was measured off target, or the
      chunk was stopped while the command was still pending. */
  lemma WithheldForCause(sp: Space, p: Profile, hz: real, c: Chunk, start: RobotState, env: nat -> TickInput,
                         last: RobotState, k: nat)
    requires 0.0 < hz && c.gripGate.Some?
    requires k < |Execution(sp, p, hz, c, start, env, last).events|
    requires !Execution(sp, p, hz, c, start, env, last).events[k].sent
    ensures var st := Execution(sp, p, hz, c, start, env, last);
      var ticks := ChunkPlan(sp, p, hz, c, start.tcp);
      var e := st.events[k];
      && 1 <= e.arrived && |st.streamed| <= |ticks|
      && (e.command.grasp || var width := env(e.arrived - 1).state.gripperWidth;
                             width > 0.000001 && e.command.width < width - 0.001)
      && (|| Caused(SetupFor(sp, p, hz, c), start, ticks, env, last, st.streamed, st.events, k)
          || (st.stop.Some? && k == |st.events| - 1 && e.decided == |st.streamed| + 1))
  {
    hide ChunkPlan, SetupFor, Run, GateRefuses, Closing, SettleTicks, EventOk, ClippedAt, OffTarget, Initial, Caused,
      GateInv;
    var ticks := ChunkPlan(sp, p, hz, c, start.tcp);
    var x := SetupFor(sp, p, hz, c);
    SetupHz(sp, p, hz, c);
    PlanIsWhole(sp, p, hz, c, start.tcp);
    RunIsOnSchedule(x, start, ticks, env, |ticks|);
    RunKeepsGate(x, start, ticks, env, last, |ticks|);
    RunKeepsCause(x, start, ticks, env, last, |ticks|);
    FinishKeepsGate(x, ticks, env, last, Run(x, Initial(start), ticks, env, |ticks|));
    var st := Run(x, Initial(start), ticks, env, |ticks|);
    if st.pending.Some? {
      PendingFacts(x, ticks, env, last, st);
      if st.stop.None? {
        OnlyLastTickPends(ticks, st);
        ResolveKeepsCause(x, start, ticks, env, last, st, last);
      } else {
        var w := st.pending.value;
        CausedExtends(x, start, ticks, env, last, st.streamed, [], st.events,
                      [GripEvent(w.segment, w.arrived, st.tick, w.command, false)]);
        assert st.streamed + [] == st.streamed;
      }
    }
    WithheldClosed(x, ticks, env, last, Finish(x, st, last), k);
  }

  lemma WithheldClosed(x: Setup, ticks: seq<Tick>, env: nat -> TickInput, last: RobotState, st: Progress, k: nat)
    requires x.gate.Some? && GateInv(x, ticks, env, last, st) && k < |st.events| && !st.events[k].sent
    ensures ClosedOnArrival(env, st.events[k])
  {
    assert EventOk(x, ticks, env, last, st.streamed, st.events, k);
  }
}
