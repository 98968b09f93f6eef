/** What the result of a chunk tells about its run, and what happens to gripper commands without a gate. */
module ChunkReports {
  import opened Numbers
  import opened Geometry
  import opened Types
  import opened SafetyFilters
  import opened Interpolation
  import opened InterpolationBounds
  import opened ChunkExecution
  import opened CloseGate

  /** The clip flag and the withheld flag tell what has happened; without a gate every command has been
      sent when it arrived. */
  ghost predicate Told(x: Setup, start: RobotState, ticks: seq<Tick>, env: nat -> TickInput, st: Progress)
    requires 0.0 < x.hz && |st.streamed| <= |ticks|
  {
    && (st.clipped <==> exists j | 0 <= j < |st.streamed| :: ClippedAt(x, start, ticks, env, j))
    && AbortedMeans(st)
    && (x.gate.None? ==> st.pending.None? && forall k | 0 <= k < |st.events| :: SentAtOnce(st.events[k]))
  }

  predicate SentAtOnce(e: GripEvent) { e.sent && e.decided == e.arrived }

  lemma AbortedAppend(st: Progress, out: Progress, e: GripEvent)
    requires AbortedMeans(st) && out.events == st.events + [e]
    requires out.closeAborted == (st.closeAborted || !e.sent)
    ensures AbortedMeans(out)
  {
    var n := |st.events|;
    assert out.events[n] == e && forall j | 0 <= j < n :: out.events[j] == st.events[j];
    if st.closeAborted {
      var k :| 0 <= k < n && !st.events[k].sent;
      assert !out.events[k].sent;
    }
  }

  lemma ResolveKeepsAborted(x: Setup, st: Progress, s: RobotState)
    requires AbortedMeans(st) && st.pending.Some?
    ensures AbortedMeans(Resolve(x, st, st.pending.value, s)) && Resolve(x, st, st.pending.value, s).pending.None?
  {
    hide TrackingError, AbortedMeans;
    var out := Resolve(x, st, st.pending.value, s);
    AbortedAppend(st, out, out.events[|st.events|]);
  }

  lemma HandleKeepsAborted(x: Setup, st: Progress, c: GripperCommand, t: Tick, s: RobotState)
    requires AbortedMeans(st)
    ensures var out := HandleCommand(x, st, c, t, s);
      && AbortedMeans(out)
      && (x.gate.None? ==>
            out.pending == st.pending && out.events == st.events + [GripEvent(t.segment, st.tick, st.tick, c, true)])
  {
    hide Closing, SettleTicks, Resolve, AbortedMeans;
    var out := HandleCommand(x, st, c, t, s);
    if Closing(c, s.gripperWidth) && GateActive(x, st, c) {
      if st.closeAborted {
        AbortedAppend(st, out, out.events[|st.events|]);
      } else {
        if st.pending.Some? { ResolveKeepsAborted(x, st, s); }
        var resolved := if st.pending.Some? then Resolve(x, st, st.pending.value, s) else st;
        AbortedIgnores(resolved, out);
      }
    } else {
      AbortedAppend(st, out, out.events[|st.events|]);
    }
  }

  lemma AbortedIgnores(a: Progress, b: Progress)
    requires AbortedMeans(a) && a.events == b.events && a.closeAborted == b.closeAborted
    ensures AbortedMeans(b)
  {}

  lemma StreamKeepsTold(x: Setup, start: RobotState, ticks: seq<Tick>, env: nat -> TickInput, st: Progress, v: Verdict,
                        t: Tick, s: RobotState)
    requires 0.0 < x.hz && v.Passed? && |st.streamed| < |ticks| && Told(x, start, ticks, env, st)
    requires v.clips != [] <==> ClippedAt(x, start, ticks, env, |st.streamed|)
    ensures |Stream(x, st, v, t, s).streamed| <= |ticks| && Told(x, start, ticks, env, Stream(x, st, v, t, s))
  {
    hide ClippedAt, AbortedMeans, HandleCommand, Resolve;
    StreamAdds(x, st, v, t, s);
    var streamed := st.(streamed := st.streamed + [v.pose], clipped := st.clipped || v.clips != []);
    AbortedIgnores(st, streamed);
    if st.pending.Some? { ResolveKeepsAborted(x, streamed, s); }
    var resolved := ResolveIfDue(x, streamed, s);
    if t.grip.Some? { HandleKeepsAborted(x, resolved, t.grip.value, t, s); }
    var handled := if t.grip.Some? then HandleCommand(x, resolved, t.grip.value, t, s) else resolved;
    AbortedIgnores(handled, handled.(lastCommand := Some(v.pose.pos)));
  }

  lemma TellsOfThis(x: Setup, start: RobotState, ticks: seq<Tick>, env: nat -> TickInput, a: Progress, b: Progress)
    requires 0.0 < x.hz && |a.streamed| <= |ticks| && Told(x, start, ticks, env, a)
    requires b == a.(lastCommand := b.lastCommand, tick := b.tick, cancel := b.cancel, memory := b.memory, stop := b.stop)
    ensures Told(x, start, ticks, env, b)
  {
    hide ClippedAt, SentAtOnce;
  }

  lemma AdvanceKeepsTold(x: Setup, start: RobotState, ticks: seq<Tick>, env: nat -> TickInput, st: Progress)
    requires 0.0 < x.hz && st.stop.None? && |st.streamed| == st.tick < |ticks| && Told(x, start, ticks, env, st)
    requires st == Run(x, Initial(start), ticks, env, st.tick)
    ensures var out := Advance(x, st, ticks[st.tick], env(st.tick));
      |out.streamed| <= |ticks| && Told(x, start, ticks, env, out)
  {
    hide Filter, Exceeds, Stream, Told;
    var t, i := ticks[st.tick], env(st.tick);
    var begun := st.(tick := st.tick + 1, cancel := st.cancel || i.stopRequested);
    var out := Advance(x, st, t, i);
    if begun.cancel || i.fault || Exceeds(i.state.wrench, x.wrenchCap) {
      TellsOfThis(x, start, ticks, env, st, out);
    } else {
      var (memory, v) := Filter(x.sp, x.profile, 1.0 / x.hz, begun.memory, t.pose, i.state, x.wrenchCap);
      var m := begun.(memory := memory);
      TellsOfThis(x, start, ticks, env, st, m);
      if v.Passed? {
        StreamKeepsTold(x, start, ticks, env, m, v, t, i.state);
      } else {
        TellsOfThis(x, start, ticks, env, st, out);
      }
    }
  }

  lemma {:induction false} RunKeepsTold(x: Setup, start: RobotState, ticks: seq<Tick>, env: nat -> TickInput, n: nat)
    requires 0.0 < x.hz && WholePlan(ticks) && n <= |ticks|
    ensures var st := Run(x, Initial(start), ticks, env, n);
      |st.streamed| <= |ticks| && Told(x, start, ticks, env, st)
  {
    hide Filter, Exceeds, Stream, OnSchedule, ClippedAt, Advance;
    if n > 0 {
      RunKeepsTold(x, start, ticks, env, n - 1);
      RunIsOnSchedule(x, start, ticks, env, n - 1);
      var st := Run(x, Initial(start), ticks, env, n - 1);
      if st.stop.None? {
        AdvanceKeepsTold(x, start, ticks, env, st);
      }
    }
  }

  lemma FinishKeepsTold(x: Setup, start: RobotState, ticks: seq<Tick>, env: nat -> TickInput, st: Progress, last: RobotState)
    requires 0.0 < x.hz && |st.streamed| <= |ticks| && Told(x, start, ticks, env, st)
    ensures var out := Finish(x, st, last);
      out.streamed == st.streamed && out.stop == st.stop && out.cancel == st.cancel && Told(x, start, ticks, env, out)
  {
    hide ClippedAt, AbortedMeans, GateRefuses;
    if st.pending.Some? {
      ResolveKeepsAborted(x, st, last);
      var out := Finish(x, st, last);
      if st.stop.Some? { AbortedAppend(st, out, out.events[|st.events|]); }
    }
  }

  /** The result of a chunk tells what happened: success means that every setpoint was streamed, the
      clip flag that the filter modified one, the abort flag that a gripper command was withheld. */
  lemma ReportTellsTheRun(sp: Space, p: Profile, hz: real, c: Chunk, start: RobotState, env: nat -> TickInput,
                          last: RobotState)
    requires 0.0 < hz
    ensures var st := Execution(sp, p, hz, c, start, env, last);
      var (x, ticks) := (SetupFor(sp, p, hz, c), ChunkPlan(sp, p, hz, c, start.tcp));
      && |st.streamed| <= |ticks|
      && match Report(st)
         case Ran(success, _, clipped, closeAborted) =>
           && (success <==> |st.streamed| == |ticks|)
           && (clipped <==> exists j | 0 <= j < |st.streamed| :: ClippedAt(x, start, ticks, env, j))
           && (closeAborted <==> exists k | 0 <= k < |st.events| :: !st.events[k].sent)
  {
    var x, ticks := SetupFor(sp, p, hz, c), ChunkPlan(sp, p, hz, c, start.tcp);
    SetupHz(sp, p, hz, c);
    PlanIsWhole(sp, p, hz, c, start.tcp);
    hide SetupFor, ChunkPlan, Run, Finish, Initial, ClippedAt;
    RunKeepsTold(x, start, ticks, env, |ticks|);
    RunIsOnSchedule(x, start, ticks, env, |ticks|);
    FinishKeepsTold(x, start, ticks, env, Run(x, Initial(start), ticks, env, |ticks|), last);
  }

  /** If all were sent, the commands sent are the commands decided, in order. */
  lemma {:induction false} AllSent(events: seq<GripEvent>)
    requires forall k | 0 <= k < |events| :: events[k].sent
    ensures |Sent(events)| == |events| && forall k | 0 <= k < |events| :: Sent(events)[k] == events[k].command
  {
    if events != [] { AllSent(events[..|events| - 1]); }
  }

  /** Without a gate every gripper command is sent on the tick it arrives; a chunk that runs to its end has
      sent the commands of its waypoints, each once and in their order. */
  lemma UngatedCommandsAreSent(sp: Space, p: Profile, hz: real, c: Chunk, start: RobotState, env: nat -> TickInput,
                               last: RobotState)
    requires 0.0 < hz && c.gripGate.None?
    ensures var st := Execution(sp, p, hz, c, start, env, last);
      && (forall e | e in st.events :: e.sent && e.decided == e.arrived)
      && |Sent(st.events)| == |st.events|
      && (st.stop.None? ==>
            && |Sent(st.events)| == |WaypointCommands(c.waypoints)|
            && forall k | 0 <= k < |Sent(st.events)| :: Sent(st.events)[k] == WaypointCommands(c.waypoints)[k].1)
  {
    var x, ticks := SetupFor(sp, p, hz, c), ChunkPlan(sp, p, hz, c, start.tcp);
    SetupHz(sp, p, hz, c);
    PlanIsWhole(sp, p, hz, c, start.tcp);
    EveryCommandDecidedOnce(sp, p, hz, c, start, env, last);
    hide SetupFor, ChunkPlan, Run, Finish, Initial, ClippedAt, WaypointCommands, Arrivals, Sent;
    RunKeepsTold(x, start, ticks, env, |ticks|);
    FinishKeepsTold(x, start, ticks, env, Run(x, Initial(start), ticks, env, |ticks|), last);
    AllSent(Execution(sp, p, hz, c, start, env, last).events);
    hide Execution;
    CommandsOf(Execution(sp, p, hz, c, start, env, last).events);
  }

  lemma CommandsOf(events: seq<GripEvent>)
    ensures |Commands(Decided(events))| == |events|
    ensures forall k | 0 <= k < |events| :: Commands(Decided(events))[k].1 == events[k].command
  {}
}
