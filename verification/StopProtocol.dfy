/** The cooperative cancel flag, shared by one executing thread and any number of threads that
    request a stop. The executor looks at the flag, clears it and streams in separate steps, so
    requests can arrive in between. */
module StopProtocol {
  import opened Numbers
  import opened Geometry
  import opened Types
  import opened SafetyFilters
  import opened Interpolation
  import opened ChunkExecution
  import opened CloseGate
  import opened JointExecution

  /** Where the executing thread is: between chunks, about to make the entry check, about to make a
      tick check, committed to abort the chunk (it saw the flag and is about to clear it), or past
      the tick check and not yet streamed. */
  datatype Place = Outside | AtEntry | AtTick | Aborting | PastCheck

  datatype World = World(flag: bool, at: Place)

  datatype Step =
    | Request            // any thread: request_stop
    | Clear              // any thread: clear_stop
    | Begin              // a blocking Cartesian or joint chunk is called
    | Check              // the flag is looked at
    | Abort              // the flag is cleared and the chunk returns with reason `user`
    | Send             // one setpoint is streamed
    | Leave              // the chunk ends for another reason: done, fault, wrench, rejection, error

  predicate Enabled(w: World, s: Step) {
    match s
    case Request | Clear => true
    case Begin => w.at == Outside
    case Check => w.at == AtEntry || w.at == AtTick
    case Abort => w.at == Aborting
    case Send => w.at == PastCheck
    case Leave => w.at == AtTick || w.at == PastCheck
  }

  function Do(w: World, s: Step): World {
    match s
    case Request => w.(flag := true)
    case Clear => w.(flag := false)
    case Begin => w.(at := AtEntry)
    case Check => w.(at := if w.flag then Aborting else if w.at == AtEntry then AtTick else PastCheck)
    case Abort => World(false, Outside)
    case Send => w.(at := AtTick)
    case Leave => w.(at := Outside)
  }

  predicate Next(w: World, s: Step, w': World) { Enabled(w, s) && w' == Do(w, s) }

  datatype Trace = Trace(worlds: seq<World>, steps: seq<Step>) {
    ghost predicate Valid() {
      |worlds| == |steps| + 1 && forall i | 0 <= i < |steps| :: Next(worlds[i], steps[i], worlds[i + 1])
    }
  }

  function Count(steps: seq<Step>, s: Step): nat {
    if steps == [] then 0
    else Count(steps[..|steps| - 1], s) + if steps[|steps| - 1] == s then 1 else 0
  }

  lemma CountSnoc(steps: seq<Step>, i: nat, j: nat, s: Step)
    requires i <= j < |steps|
    ensures Count(steps[i..j + 1], s) == Count(steps[i..j], s) + if steps[j] == s then 1 else 0
  {
    assert steps[i..j + 1][..j - i] == steps[i..j];
  }

  /** Neither cleared nor consumed between the two moments. */
  predicate Standing(steps: seq<Step>, i: nat, j: nat)
    requires i <= j <= |steps|
  {
    forall k | i <= k < j :: steps[k] != Clear && steps[k] != Abort
  }

  /** A stop is not lost. From any moment the flag is set until some chunk returns with reason
      `user`, at most one more setpoint is streamed, and none at all unless the executor was already
      past its tick check; all that time the flag stays set or the executor is about to abort. */
  lemma {:induction false} StopIsNotLost(t: Trace, i: nat, j: nat)
    requires t.Valid() && i <= j <= |t.steps| && t.worlds[i].flag && Standing(t.steps, i, j)
    ensures t.worlds[j].flag
    ensures t.worlds[j].at == PastCheck ==> t.worlds[i].at == PastCheck && Count(t.steps[i..j], Send) == 0
    ensures Count(t.steps[i..j], Send) <= if t.worlds[i].at == PastCheck then 1 else 0
    decreases j
  {
    if i < j {
      StopIsNotLost(t, i, j - 1);
      CountSnoc(t.steps, i, j - 1, Send);
      assert Next(t.worlds[j - 1], t.steps[j - 1], t.worlds[j]);
    }
  }

  /** The next look at a standing flag aborts: no tick check and no entry check lets it pass, so
      the chunk can only return with reason `user` or end for a reason of its own before that. */
  lemma StandingFlagAborts(t: Trace, i: nat, j: nat)
    requires t.Valid() && i <= j < |t.steps| && t.worlds[i].flag && Standing(t.steps, i, j)
    ensures t.steps[j] == Check ==> t.worlds[j + 1].at == Aborting
  {
    StopIsNotLost(t, i, j);
    assert Next(t.worlds[j], t.steps[j], t.worlds[j + 1]);
  }

  /** A stop that is pending when a chunk is entered makes that chunk stream nothing. */
  lemma PendingAtEntryStreamsNothing(t: Trace, i: nat, j: nat)
    requires t.Valid() && i <= j <= |t.steps| && t.worlds[i] == World(true, AtEntry) && Standing(t.steps, i, j)
    ensures Count(t.steps[i..j], Send) == 0
  {
    StopIsNotLost(t, i, j);
  }

  /** A request whose effect is still to come. */
  function Owed(w: World): nat { if w.flag || w.at == Aborting then 1 else 0 }

  /** Each request is consumed at most once: chunks return with reason `user` no more often than a
      stop was requested (or pending when the trace begins). */
  lemma {:induction false} ConsumedOnce(t: Trace, j: nat)
    requires t.Valid() && j <= |t.steps|
    ensures Count(t.steps[..j], Abort) + Owed(t.worlds[j]) <= Count(t.steps[..j], Request) + Owed(t.worlds[0])
    decreases j
  {
    if j > 0 {
      ConsumedOnce(t, j - 1);
      CountSnoc(t.steps, 0, j - 1, Abort);
      CountSnoc(t.steps, 0, j - 1, Request);
      assert t.steps[0..j] == t.steps[..j] && t.steps[0..j - 1] == t.steps[..j - 1];
      assert Next(t.worlds[j - 1], t.steps[j - 1], t.worlds[j]);
    }
  }

  // The executors take exactly these steps.

  function Play(w: World, steps: seq<Step>): Option<World>
    decreases |steps|
  {
    if steps == [] then Some(w)
    else if Enabled(w, steps[0]) then Play(Do(w, steps[0]), steps[1..])
    else None
  }

  /** What one tick does, by what it finds. */
  function TickSteps(requested: bool, flagged: bool, stopped: bool): seq<Step> {
    if requested then [Request, Check, Abort]
    else if flagged then [Check, Abort]
    else if stopped then [Check, Leave]
    else [Check, Send]
  }

  lemma PlayFirst(w: World, s: Step, rest: seq<Step>)
    requires Enabled(w, s)
    ensures Play(w, [s] + rest) == Play(Do(w, s), rest)
  {
    assert ([s] + rest)[1..] == rest;
  }

  lemma PlayPair(w: World, s: Step, s': Step)
    requires Enabled(w, s) && Enabled(Do(w, s), s')
    ensures Play(w, [s, s']) == Some(Do(Do(w, s), s'))
    ensures Count([s, s'], Send) == (if s == Send then 1 else 0) + if s' == Send then 1 else 0
  {
    PlayFirst(w, s, [s']);
    PlayFirst(Do(w, s), s', []);
    assert [s] + [s'] == [s, s'] && [s'] + [] == [s'];
    var pair := [s, s'];
    assert pair[..1] == [s] && pair[1] == s' && [s][..0] == [];
    assert Count([s], Send) == if s == Send then 1 else 0;
    assert Count(pair, Send) == Count(pair[..1], Send) + if pair[1] == Send then 1 else 0;
  }

  lemma TickPlays(requested: bool, flagged: bool, stopped: bool)
    requires requested || flagged ==> stopped
    ensures Play(World(flagged, AtTick), TickSteps(requested, flagged, stopped))
         == Some(World(false, if stopped then Outside else AtTick))
    ensures Count(TickSteps(requested, flagged, stopped), Send) == if stopped then 0 else 1
  {
    var w := World(requested || flagged, AtTick);
    PlayPair(w, Check, if requested || flagged then Abort else if stopped then Leave else Send);
    if requested {
      PlayFirst(World(flagged, AtTick), Request, [Check, Abort]);
      assert [Request] + [Check, Abort] == [Request, Check, Abort];
      assert [Request, Check, Abort][..2][..1] == [Request] && [Request][..0] == [];
      assert [Request, Check, Abort][..2] == [Request, Check];
    }
  }

  /** A tick of the Cartesian executor is such a sequence, streams what it streams and stops with
      reason `user` exactly when it aborts. */
  lemma CartesianTickIsSteps(x: Setup, st: Progress, t: Tick, i: TickInput)
    requires 0.0 < x.hz && st.stop.None?
    ensures var out := Advance(x, st, t, i);
      var steps := TickSteps(i.stopRequested, st.cancel, out.stop.Some?);
      && Play(World(st.cancel, AtTick), steps) == Some(World(out.cancel, if out.stop.Some? then Outside else AtTick))
      && |out.streamed| == |st.streamed| + Count(steps, Send)
      && (st.cancel || i.stopRequested <==> Abort in steps)
      && (Abort in steps ==> out.stop == Some(User))
  {
    hide Filter, Exceeds, Stream, Play;
    var out := Advance(x, st, t, i);
    TickPlays(i.stopRequested, st.cancel, out.stop.Some?);
    var begun := st.(tick := st.tick + 1, cancel := st.cancel || i.stopRequested);
    if !begun.cancel && !i.fault && !Exceeds(i.state.wrench, x.wrenchCap) {
      var (memory, v) := Filter(x.sp, x.profile, 1.0 / x.hz, begun.memory, t.pose, i.state, x.wrenchCap);
      if v.Passed? { StreamAdds(x, begun.(memory := memory), v, t, i.state); }
    }
  }

  lemma JointTickIsSteps(p: Profile, dt: real, st: JointProgress, q: seq<real>, i: TickInput)
    requires JointsOf(p, st.memory, |q|) && |i.state.q| == |q| && st.stop.None?
    ensures var out := JointAdvance(p, dt, st, q, i);
      var steps := TickSteps(i.stopRequested, st.cancel, out.stop.Some?);
      && Play(World(st.cancel, AtTick), steps) == Some(World(out.cancel, if out.stop.Some? then Outside else AtTick))
      && |out.streamed| == |st.streamed| + Count(steps, Send)
      && (st.cancel || i.stopRequested <==> Abort in steps)
      && (Abort in steps ==> out.stop == Some(User))
  {
    hide FilterJoints, Exceeds, Play;
    var out := JointAdvance(p, dt, st, q, i);
    TickPlays(i.stopRequested, st.cancel, out.stop.Some?);
  }

  // Hence over a whole chunk.

  lemma {:induction false} StreamedAtMost(x: Setup, start: RobotState, ticks: seq<Tick>, env: nat -> TickInput, n: nat)
    requires 0.0 < x.hz && n <= |ticks|
    ensures |Run(x, Initial(start), ticks, env, n).streamed| <= n
    ensures !Run(x, Initial(start), ticks, env, n).cancel
  {
    hide Advance;
    if n > 0 {
      StreamedAtMost(x, start, ticks, env, n - 1);
      var st := Run(x, Initial(start), ticks, env, n - 1);
      if st.stop.None? {
        CartesianTickIsSteps(x, st, ticks[n - 1], env(n - 1));
        TickPlays(env(n - 1).stopRequested, st.cancel, Advance(x, st, ticks[n - 1], env(n - 1)).stop.Some?);
      }
    }
  }

  /** A request observed at tick `i` (counted from 0) leaves at most the `i` setpoints of the
      earlier ticks, and the flag is consumed. */
  lemma RequestEndsChunk(x: Setup, start: RobotState, ticks: seq<Tick>, env: nat -> TickInput, i: nat)
    requires 0.0 < x.hz && i < |ticks| && env(i).stopRequested
    ensures var st := Run(x, Initial(start), ticks, env, |ticks|);
      st.stop.Some? && |st.streamed| <= i && !st.cancel
    ensures Run(x, Initial(start), ticks, env, i).stop.None? ==>
      Run(x, Initial(start), ticks, env, |ticks|).stop == Some(User)
  {
    hide Advance;
    StreamedAtMost(x, start, ticks, env, i);
    StreamedAtMost(x, start, ticks, env, |ticks|);
    var st := Run(x, Initial(start), ticks, env, i);
    if st.stop.None? {
      CartesianTickIsSteps(x, st, ticks[i], env(i));
      TickPlays(true, st.cancel, true);
      StoppedEarly(x, Initial(start), ticks, env, i + 1, |ticks|);
    } else {
      StoppedEarly(x, Initial(start), ticks, env, i, |ticks|);
    }
  }

  // A whole call is such a sequence, the entry check included.

  lemma {:induction false} PlayConcat(w: World, a: seq<Step>, b: seq<Step>)
    requires Play(w, a).Some?
    ensures Play(w, a + b) == Play(Play(w, a).value, b)
    decreases |a|
  {
    if a == [] {
      assert a + b == b;
    } else {
      assert (a + b)[0] == a[0] && (a + b)[1..] == a[1..] + b;
      PlayConcat(Do(w, a[0]), a[1..], b);
    }
  }

  lemma {:induction false} CountConcat(a: seq<Step>, b: seq<Step>, s: Step)
    ensures Count(a + b, s) == Count(a, s) + Count(b, s)
    decreases |b|
  {
    if b == [] {
      assert a + b == a;
    } else {
      var k := |b| - 1;
      assert (a + b)[..|a + b| - 1] == a + b[..k];
      CountConcat(a, b[..k], s);
    }
  }

  function EntrySteps(flagged: bool): seq<Step> { if flagged then [Begin] + [Check, Abort] else [Begin] + [Check] }

  /** With the flag set on entry a chunk is begun, looks at the flag and aborts: the flag is consumed
      and nothing is streamed. Without it the ticks come next. */
  lemma EntryIsSteps(flagged: bool)
    ensures Play(World(flagged, Outside), EntrySteps(flagged))
         == Some(World(false, if flagged then Outside else AtTick))
    ensures Count(EntrySteps(flagged), Send) == 0
  {
    var w := World(flagged, AtEntry);
    PlayFirst(World(flagged, Outside), Begin, if flagged then [Check, Abort] else [Check]);
    CountConcat([Begin], if flagged then [Check, Abort] else [Check], Send);
    CountOne(Begin);
    CountOne(Check);
    if flagged {
      PlayPair(w, Check, Abort);
    } else {
      PlayFirst(w, Check, []);
      assert [Check] + [] == [Check];
    }
  }

  lemma CountOne(s: Step)
    ensures Count([s], Send) == if s == Send then 1 else 0
  {
    assert [s][..0] == [];
  }

  lemma CountPair(s: Step, s': Step)
    ensures Count([s, s'], Send) == (if s == Send then 1 else 0) + if s' == Send then 1 else 0
  {
    assert [s] + [s'] == [s, s'];
    CountConcat([s], [s'], Send);
    CountOne(s);
    CountOne(s');
  }

  /** The steps of the first `n` ticks, or of those up to the one that stopped the chunk. */
  function RunSteps(x: Setup, start: RobotState, ticks: seq<Tick>, env: nat -> TickInput, n: nat): seq<Step>
    requires 0.0 < x.hz && n <= |ticks|
  {
    if n == 0 then []
    else
      var st := Run(x, Initial(start), ticks, env, n - 1);
      RunSteps(x, start, ticks, env, n - 1)
      + if st.stop.Some? then []
        else TickSteps(env(n - 1).stopRequested, st.cancel, Advance(x, st, ticks[n - 1], env(n - 1)).stop.Some?)
  }

  lemma {:induction false} RunIsSteps(x: Setup, start: RobotState, ticks: seq<Tick>, env: nat -> TickInput, n: nat)
    requires 0.0 < x.hz && n <= |ticks|
    ensures var (st, steps) := (Run(x, Initial(start), ticks, env, n), RunSteps(x, start, ticks, env, n));
      && Play(World(false, AtTick), steps) == Some(World(st.cancel, if st.stop.Some? then Outside else AtTick))
      && Count(steps, Send) == |st.streamed|
  {
    hide Advance, TickSteps, Play;
    if n == 0 {
      NothingPlayed(World(false, AtTick));
    } else {
      RunIsSteps(x, start, ticks, env, n - 1);
      var (st, before) := (Run(x, Initial(start), ticks, env, n - 1), RunSteps(x, start, ticks, env, n - 1));
      if st.stop.None? {
        var i := env(n - 1);
        var tick := TickSteps(i.stopRequested, st.cancel, Advance(x, st, ticks[n - 1], i).stop.Some?);
        CartesianTickIsSteps(x, st, ticks[n - 1], i);
        PlayConcat(World(false, AtTick), before, tick);
        CountConcat(before, tick, Send);
      } else {
        assert before + [] == before;
      }
    }
  }

  lemma NothingPlayed(w: World)
    ensures Play(w, []) == Some(w)
  {}

  /** The steps of a call of the Cartesian executor on a resolved chunk. */
  function CallSteps(x: Setup, start: RobotState, ticks: seq<Tick>, env: nat -> TickInput, flagged: bool): seq<Step>
    requires 0.0 < x.hz
  {
    EntrySteps(flagged)
    + if flagged then []
      else RunSteps(x, start, ticks, env, |ticks|)
           + if Run(x, Initial(start), ticks, env, |ticks|).stop.None? then [Leave] else []
  }

  /** From entry to return a call is a sequence of protocol steps: it streams what those stream, leaves
      the flag as they do and ends outside. With the flag set on entry nothing is streamed. */
  lemma CallIsSteps(sp: Space, p: Profile, hz: real, c: Chunk, start: RobotState, env: nat -> TickInput,
                    last: RobotState, flagged: bool)
    requires 0.0 < hz
    ensures SetupFor(sp, p, hz, c).hz == hz
    ensures var st := Execution(sp, p, hz, c, start, env, last);
      var steps := CallSteps(SetupFor(sp, p, hz, c), start, ChunkPlan(sp, p, hz, c, start.tcp), env, flagged);
      && Play(World(flagged, Outside), steps) == Some(World(if flagged then false else st.cancel, Outside))
      && Count(steps, Send) == if flagged then 0 else |st.streamed|
  {
    hide ChunkPlan, SetupFor, Run, RunSteps, EntrySteps, GateRefuses, Initial, Play;
    SetupHz(sp, p, hz, c);
    var (x, ticks) := (SetupFor(sp, p, hz, c), ChunkPlan(sp, p, hz, c, start.tcp));
    EntryIsSteps(flagged);
    if flagged {
      assert EntrySteps(true) + [] == EntrySteps(true);
    } else {
      var st, steps := Run(x, Initial(start), ticks, env, |ticks|), RunSteps(x, start, ticks, env, |ticks|);
      var end := if st.stop.None? then [Leave] else [];
      RunIsSteps(x, start, ticks, env, |ticks|);
      PlayConcat(World(false, AtTick), steps, end);
      PlayConcat(World(false, Outside), EntrySteps(false), steps + end);
      CountConcat(steps, end, Send);
      CountConcat(EntrySteps(false), steps + end, Send);
      LeavePlays(st.cancel);
      NothingPlayed(World(st.cancel, Outside));
    }
  }

  lemma LeavePlays(flag: bool)
    ensures Play(World(flag, AtTick), [Leave]) == Some(World(flag, Outside))
    ensures Count([Leave], Send) == 0
  {
    PlayFirst(World(flag, AtTick), Leave, []);
    assert [Leave] + [] == [Leave];
    CountOne(Leave);
  }
}
