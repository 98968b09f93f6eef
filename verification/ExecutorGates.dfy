/** The executor's gates over a whole chunk: nothing is streamed past a stop request, a fault or an
    excessive wrench, and the reported reason is the first gate that failed. */
module ExecutorGates {
  import opened Numbers
  import opened Geometry
  import opened Types
  import opened SafetyFilters
  import opened FilterTraces
  import opened Interpolation
  import opened ChunkExecution
  import opened CloseGate

  /** The tick passes every gate before the filter. */
  predicate Calm(x: Setup, i: TickInput) { !i.stopRequested && !i.fault && Within(i.state.wrench, x.wrenchCap) }

  /** No stop request, no fault and no excessive wrench during the first `n` ticks. */
  predicate Undisturbed(x: Setup, env: nat -> TickInput, n: nat) {
    forall i | 0 <= i < n :: Calm(x, env(i))
  }

  /** The profile rejects targets outside its box, and this is one. */
  predicate Refused(p: Profile, target: Pose) {
    p.rejectOutside && !AllClose(p.box.Clip(target.pos), target.pos)
  }

  /** A tick whose setpoint is streamed. */
  predicate Passes(x: Setup, ticks: seq<Tick>, env: nat -> TickInput, i: nat)
    requires i < |ticks|
  {
    Calm(x, env(i)) && !Refused(x.profile, ticks[i].pose)
  }

  /** What a chunk reports that was stopped at tick `i` (from 0): the first gate that fails. A calm tick
      can only be stopped by the filter of a profile that rejects targets outside its box. */
  ghost predicate StoppedBy(x: Setup, ticks: seq<Tick>, env: nat -> TickInput, i: nat, reason: StopReason)
    requires i < |ticks|
  {
    if env(i).stopRequested then reason == User
    else if env(i).fault then reason == BackendFault
    else if !Within(env(i).state.wrench, x.wrenchCap) then reason == ContactWrench
    else reason == Workspace && Refused(x.profile, ticks[i].pose)
  }

  /** One setpoint for each of the ticks before the first that does not pass, which stops the chunk. */
  ghost predicate GatesHeld(x: Setup, ticks: seq<Tick>, env: nat -> TickInput, st: Progress, n: nat)
    requires n <= |ticks|
  {
    var k := |st.streamed|;
    && k <= n && !st.cancel && (forall i | 0 <= i < k :: Passes(x, ticks, env, i))
    && (st.stop.None? ==> k == st.tick == n)
    && (st.stop.Some? ==> k < n && st.tick == k + 1 && !Passes(x, ticks, env, k)
                          && StoppedBy(x, ticks, env, k, st.stop.value))
  }

  lemma StepHoldsGates(x: Setup, ticks: seq<Tick>, env: nat -> TickInput, st: Progress, n: nat)
    requires 0.0 < x.hz && n < |ticks| && st.stop.None? && GatesHeld(x, ticks, env, st, n)
    ensures GatesHeld(x, ticks, env, Advance(x, st, ticks[n], env(n)), n + 1)
  {
    hide Filter, Exceeds, Stream, Refused, Within;
    var i := env(n);
    WithinMeans(i.state.wrench, x.wrenchCap);
    var begun := st.(tick := st.tick + 1, cancel := st.cancel || i.stopRequested);
    if Calm(x, i) {
      FilterRejects(x.sp, x.profile, 1.0 / x.hz, begun.memory, ticks[n].pose, i.state, x.wrenchCap);
      var (memory, v) := Filter(x.sp, x.profile, 1.0 / x.hz, begun.memory, ticks[n].pose, i.state, x.wrenchCap);
      if v.Passed? { StreamAdds(x, begun.(memory := memory), v, ticks[n], i.state); }
    }
  }

  /** When the filter refuses a command, and why. */
  lemma FilterRejects(sp: Space, p: Profile, dt: real, m: Memory, target: Pose, s: RobotState, cap: Wrench)
    ensures var v := Filter(sp, p, dt, m, target, s, cap).1;
      && (!Within(s.wrench, cap) ==> v == Rejected(ContactWrench))
      && (Within(s.wrench, cap) && Refused(p, target) ==> v == Rejected(Workspace))
      && (Within(s.wrench, cap) && !Refused(p, target) ==> v.Passed?)
  {
    WithinMeans(s.wrench, cap);
    hide Exceeds, Within, AllClose, Box.Clip, AfterBox, AfterJump, AfterTurnJump, AfterSpeed, AfterTurnSpeed, AfterAccel,
      AccelTrips, Rate;
  }

  /** Every setpoint a chunk streams was streamed on a tick with no stop request, no fault and every
      axis of the wrench inside its interval; the first tick that does not pass stops the chunk, which
      reports the first gate that failed there. */
  lemma {:induction false} RunHoldsGates(x: Setup, start: RobotState, ticks: seq<Tick>, env: nat -> TickInput, n: nat)
    requires 0.0 < x.hz && n <= |ticks|
    ensures GatesHeld(x, ticks, env, Run(x, Initial(start), ticks, env, n), n)
  {
    hide Advance, Passes;
    if n > 0 {
      RunHoldsGates(x, start, ticks, env, n - 1);
      var st := Run(x, Initial(start), ticks, env, n - 1);
      if st.stop.None? { StepHoldsGates(x, ticks, env, st, n - 1); }
    }
  }

  /** The wrench envelope of a chunk on one axis: the profile's cap, plus what the chunk asks for as far
      as the profile grants it if any axis is granted something, and at most the chunk's own cap. */
  lemma EnvelopeIs(p: Profile, c: Chunk, i: nat)
    requires i < 6
    ensures var granted := c.wrenchAllowance.Some?
        && exists j | 0 <= j < 6 :: c.wrenchAllowance.value[j] > 0.0 && p.maxWrenchAllowance[j] > 0.0;
      var raised := p.maxContactWrench[i]
        + if granted then Min(c.wrenchAllowance.value[i], p.maxWrenchAllowance[i]) else 0.0;
      && (Relaxed(p, c) <==> granted)
      && EffectiveWrench(p, c)[i]
      == if c.maxContactWrench.Some? && c.maxContactWrench.value[i] < raised then c.maxContactWrench.value[i] else raised
  {
    if c.wrenchAllowance.Some? {
      assert forall j | 0 <= j < 6 ::
        Allowance(p, c)[j] > 0.0 <==> c.wrenchAllowance.value[j] > 0.0 && p.maxWrenchAllowance[j] > 0.0;
    }
  }

  /** Over a whole chunk, axis by axis: at every streamed tick the measured wrench lies inside the
      envelope; a chunk that was stopped for its wrench has an axis outside at its last tick, and one
      with every axis inside there was stopped for something else. */
  lemma WrenchIsRespected(sp: Space, p: Profile, hz: real, c: Chunk, start: RobotState, env: nat -> TickInput,
                          last: RobotState)
    requires 0.0 < hz
    ensures var (st, e) := (Execution(sp, p, hz, c, start, env, last), EffectiveWrench(p, c));
      && (forall k, j | 0 <= k < |st.streamed| && 0 <= j < 6 :: -e[j] <= env(k).state.wrench[j] <= e[j])
      && (st.stop == Some(ContactWrench) <==>
            && st.stop.Some? && !env(|st.streamed|).stopRequested && !env(|st.streamed|).fault
            && exists j | 0 <= j < 6 :: !(-e[j] <= env(|st.streamed|).state.wrench[j] <= e[j]))
  {
    hide Run, ChunkPlan, EffectiveWrench, Initial, Refused, GateRefuses;
    var (x, ticks) := (SetupFor(sp, p, hz, c), ChunkPlan(sp, p, hz, c, start.tcp));
    RunHoldsGates(x, start, ticks, env, |ticks|);
    var (st, e) := (Execution(sp, p, hz, c, start, env, last), EffectiveWrench(p, c));
    forall k | 0 <= k < |st.streamed| ensures Within(env(k).state.wrench, e) {
      assert Passes(x, ticks, env, k);
    }
  }

  // The stream as a run of the filter.

  /** What the filter is asked at each tick. */
  function Calls(x: Setup, ticks: seq<Tick>, env: nat -> TickInput): seq<Call> {
    seq(|ticks|, k requires 0 <= k < |ticks| => Call(ticks[k].pose, env(k).state, x.wrenchCap))
  }

  ghost predicate IsFilterRun(x: Setup, dt: real, start: RobotState, calls: seq<Call>, st: Progress) {
    && |st.streamed| <= |calls|
    && (forall k | 0 <= k < |st.streamed| :: Answers(x, dt, start, calls, k, st.streamed[k]))
    && st.memory == After(x.sp, x.profile, dt, Initial(start).memory, calls, |st.streamed|)
  }

  /** The filter lets the k-th call pass with this pose. */
  ghost predicate Answers(x: Setup, dt: real, start: RobotState, calls: seq<Call>, k: nat, pose: Pose)
    requires k < |calls|
  {
    var v := VerdictAt(x.sp, x.profile, dt, Initial(start).memory, calls, k);
    v.Passed? && v.pose == pose
  }

  lemma AdvanceFilters(x: Setup, dt: real, start: RobotState, ticks: seq<Tick>, env: nat -> TickInput, st: Progress)
    requires 0.0 < x.hz && dt == 1.0 / x.hz && st.stop.None? && |st.streamed| < |ticks|
    requires IsFilterRun(x, dt, start, Calls(x, ticks, env), st)
    ensures IsFilterRun(x, dt, start, Calls(x, ticks, env), Advance(x, st, ticks[|st.streamed|], env(|st.streamed|)))
  {
    hide Filter, Exceeds, Stream, IsFilterRun, Calls;
    var n := |st.streamed|;
    var i, t := env(n), ticks[n];
    var begun := st.(tick := st.tick + 1, cancel := st.cancel || i.stopRequested);
    var out := Advance(x, st, t, i);
    if begun.cancel || i.fault || Exceeds(i.state.wrench, x.wrenchCap) {
      FilteredSame(x, dt, start, Calls(x, ticks, env), st, out);
    } else {
      var (memory, v) := Filter(x.sp, x.profile, dt, begun.memory, t.pose, i.state, x.wrenchCap);
      if v.Passed? {
        StreamAdds(x, begun.(memory := memory), v, t, i.state);
        OneMoreCall(x, dt, start, ticks, env, st, out, v);
      } else {
        RejectionForgets(x.sp, x.profile, dt, begun.memory, Call(t.pose, i.state, x.wrenchCap));
        FilteredSame(x, dt, start, Calls(x, ticks, env), st, out);
      }
    }
  }

  lemma FilteredSame(x: Setup, dt: real, start: RobotState, calls: seq<Call>, a: Progress, b: Progress)
    requires IsFilterRun(x, dt, start, calls, a) && a.streamed == b.streamed && a.memory == b.memory
    ensures IsFilterRun(x, dt, start, calls, b)
  {}

  lemma OneMoreCall(x: Setup, dt: real, start: RobotState, ticks: seq<Tick>, env: nat -> TickInput, st: Progress,
                    out: Progress, v: Verdict)
    requires |st.streamed| < |ticks| && IsFilterRun(x, dt, start, Calls(x, ticks, env), st) && v.Passed?
    requires var n := |st.streamed|;
      (out.memory, v) == Filter(x.sp, x.profile, dt, st.memory, ticks[n].pose, env(n).state, x.wrenchCap)
    requires out.streamed == st.streamed + [v.pose]
    ensures IsFilterRun(x, dt, start, Calls(x, ticks, env), out)
  {
    hide Filter;
    var n, calls, m := |st.streamed|, Calls(x, ticks, env), Initial(start).memory;
    assert calls[n] == Call(ticks[n].pose, env(n).state, x.wrenchCap);
    assert VerdictAt(x.sp, x.profile, dt, m, calls, n) == v;
    assert After(x.sp, x.profile, dt, m, calls, n + 1) == out.memory;
    assert Answers(x, dt, start, calls, n, out.streamed[n]);
    hide Answers, After, VerdictAt, Calls;
    assert forall k | 0 <= k < n :: out.streamed[k] == st.streamed[k];
  }

  lemma {:induction false} StreamIsFiltered(x: Setup, dt: real, start: RobotState, ticks: seq<Tick>, env: nat -> TickInput,
                                            n: nat)
    requires 0.0 < x.hz && dt == 1.0 / x.hz && n <= |ticks|
    ensures IsFilterRun(x, dt, start, Calls(x, ticks, env), Run(x, Initial(start), ticks, env, n))
  {
    hide Advance, IsFilterRun, GatesHeld;
    if n == 0 {
      NothingFiltered(x, dt, start, Calls(x, ticks, env));
    } else {
      StreamIsFiltered(x, dt, start, ticks, env, n - 1);
      RunHoldsGates(x, start, ticks, env, n - 1);
      var st := Run(x, Initial(start), ticks, env, n - 1);
      if st.stop.None? {
        TicksDone(x, ticks, env, st, n - 1);
        AdvanceFilters(x, dt, start, ticks, env, st);
      }
    }
  }

  lemma NothingFiltered(x: Setup, dt: real, start: RobotState, calls: seq<Call>)
    ensures IsFilterRun(x, dt, start, calls, Initial(start))
  {}

  lemma TicksDone(x: Setup, ticks: seq<Tick>, env: nat -> TickInput, st: Progress, n: nat)
    requires n <= |ticks| && GatesHeld(x, ticks, env, st, n) && st.stop.None?
    ensures |st.streamed| == n
  {}

  /** Whatever the chunk asks for, consecutive setpoints of its stream (the first one from the start pose)
      are at most one step cap apart, and from a start inside the box the stream stays inside. */
  lemma ChunkStreamIsSafe(sp: Space, p: Profile, hz: real, c: Chunk, start: RobotState, env: nat -> TickInput,
                          last: RobotState, k: nat)
    requires IsNorm(sp.norm) && SaneCaps(p) && 0.0 < hz && p.maxLinearAccel == None
    requires k < |Execution(sp, p, hz, c, start, env, last).streamed|
    ensures var streamed := Execution(sp, p, hz, c, start, env, last).streamed;
      && sp.norm(streamed[k].pos.Sub((if k == 0 then start.tcp else streamed[k - 1]).pos)) <= StepCap(p, 1.0 / hz)
      && (Inflate(p.box).Contains(start.tcp.pos) ==> Inflate(p.box).Contains(streamed[k].pos))
  {
    hide Run, IsNorm, SaneCaps, Inflate, StepCap, ChunkPlan, GateRefuses, Filter, Box.Contains, Vec.Sub, IsFilterRun;
    var (x, ticks) := (SetupFor(sp, p, hz, c), ChunkPlan(sp, p, hz, c, start.tcp));
    StreamIsFiltered(x, 1.0 / hz, start, ticks, env, |ticks|);
    FilteredIsSafe(x, 1.0 / hz, start, Calls(x, ticks, env), Run(x, Initial(start), ticks, env, |ticks|), k);
  }

  lemma FilteredIsSafe(x: Setup, dt: real, start: RobotState, calls: seq<Call>, st: Progress, k: nat)
    requires IsNorm(x.sp.norm) && SaneCaps(x.profile) && 0.0 < dt && x.profile.maxLinearAccel == None
    requires IsFilterRun(x, dt, start, calls, st) && k < |st.streamed|
    ensures x.sp.norm(st.streamed[k].pos.Sub((if k == 0 then start.tcp else st.streamed[k - 1]).pos)) <= StepCap(x.profile, dt)
    ensures Inflate(x.profile.box).Contains(start.tcp.pos) ==> Inflate(x.profile.box).Contains(st.streamed[k].pos)
  {
    hide IsNorm, SaneCaps, Inflate, StepCap, Filter, Box.Contains, Vec.Sub;
    var sp, p, m := x.sp, x.profile, Initial(start).memory;
    assert Answers(x, dt, start, calls, k, st.streamed[k]);
    RunIsSafe(sp, p, dt, m, calls, k, k);
    AcceptedMoves(sp, p, dt, m, calls, k);
    if 0 < k {
      assert Answers(x, dt, start, calls, k - 1, st.streamed[k - 1]);
      AcceptedMoves(sp, p, dt, m, calls, k - 1);
    }
    if Inflate(p.box).Contains(start.tcp.pos) { RunStaysInside(sp, p, dt, m, calls, k + 1); }
  }

  lemma AcceptedMoves(sp: Space, p: Profile, dt: real, m: Memory, calls: seq<Call>, k: nat)
    requires IsNorm(sp.norm) && SaneCaps(p) && 0.0 < dt && p.maxLinearAccel == None && k < |calls|
    requires VerdictAt(sp, p, dt, m, calls, k).Passed?
    ensures After(sp, p, dt, m, calls, k + 1).pose == Some(VerdictAt(sp, p, dt, m, calls, k).pose)
  {
    hide Filter, IsNorm, SaneCaps, Inflate, StepCap;
    AcceptedStep(sp, p, dt, After(sp, p, dt, m, calls, k), calls[k].target, calls[k].s, calls[k].cap);
  }
}
