/** The client-side check of a chunk, and how it predicts what the interpolator will do. */
module Preflights {
  import opened Numbers
  import opened Geometry
  import opened Types
  import opened Interpolation
  import opened ChunkExecution

  /** A note about the waypoint with the given index. */
  datatype Note =
    | OutsideWorkspace(index: nat)
    | TooFast(index: nat)
    | TurnsTooFast(index: nat)

  /** The last orientation among the first `k` waypoints, as far as the chunk itself tells. */
  function LastQuat(ws: seq<Waypoint>, k: nat): Option<Quat>
    requires k <= |ws|
  {
    if k == 0 then None
    else if ws[k - 1].quaternion.Some? then ws[k - 1].quaternion
    else LastQuat(ws, k - 1)
  }

  predicate Timed(w: Waypoint) { w.timing.Duration? && w.timing.seconds > 0.0 }

  predicate Fast(peak: real, distance: real, seconds: real, cap: real)
    requires 0.0 < seconds
  {
    peak * distance / seconds > cap
  }

  predicate MovesTooFast(sp: Space, p: Profile, c: Chunk, i: nat)
    requires i < |c.waypoints|
  {
    && 0 < i && Timed(c.waypoints[i])
    && Fast(sp.peak, sp.norm(c.waypoints[i].position.Sub(c.waypoints[i - 1].position)),
            c.waypoints[i].timing.seconds, ExecutorCaps(p, c).linear.value)
  }

  predicate SpinsTooFast(sp: Space, p: Profile, c: Chunk, i: nat)
    requires i < |c.waypoints|
  {
    var (was, q) := (LastQuat(c.waypoints, i), c.waypoints[i].quaternion);
    && 0 < i && Timed(c.waypoints[i]) && was.Some? && q.Some?
    && Fast(sp.peak, sp.angle(was.value, q.value), c.waypoints[i].timing.seconds, ExecutorCaps(p, c).angular.value)
  }

  predicate Applies(sp: Space, p: Profile, c: Chunk, note: Note) {
    && note.index < |c.waypoints|
    && match note
       case OutsideWorkspace(i) => !p.box.Contains(c.waypoints[i].position)
       case TooFast(i) => MovesTooFast(sp, p, c, i)
       case TurnsTooFast(i) => SpinsTooFast(sp, p, c, i)
  }

  function NotesAt(sp: Space, p: Profile, c: Chunk, i: nat): seq<Note>
    requires i < |c.waypoints|
  {
    (if p.box.Contains(c.waypoints[i].position) then [] else [OutsideWorkspace(i)])
    + (if MovesTooFast(sp, p, c, i) then [TooFast(i)] else [])
    + if SpinsTooFast(sp, p, c, i) then [TurnsTooFast(i)] else []
  }

  function NotesUpTo(sp: Space, p: Profile, c: Chunk, k: nat): seq<Note>
    requires k <= |c.waypoints|
  {
    if k == 0 then [] else NotesUpTo(sp, p, c, k - 1) + NotesAt(sp, p, c, k - 1)
  }

  predicate InOrder(notes: seq<Note>) {
    forall a, b | 0 <= a < b < |notes| :: notes[a].index <= notes[b].index && notes[a] != notes[b]
  }

  lemma NotesHere(sp: Space, p: Profile, c: Chunk, i: nat)
    requires i < |c.waypoints|
    ensures forall note: Note :: note in NotesAt(sp, p, c, i) <==> note.index == i && Applies(sp, p, c, note)
    ensures InOrder(NotesAt(sp, p, c, i))
  {
    hide MovesTooFast, SpinsTooFast, Box.Contains;
  }

  lemma InOrderConcat(a: seq<Note>, b: seq<Note>, k: nat)
    requires InOrder(a) && InOrder(b)
    requires (forall note | note in a :: note.index < k) && (forall note | note in b :: note.index == k)
    ensures InOrder(a + b)
  {}

  lemma {:induction false} NotesApply(sp: Space, p: Profile, c: Chunk, k: nat)
    requires k <= |c.waypoints|
    ensures forall note: Note :: note in NotesUpTo(sp, p, c, k) <==> note.index < k && Applies(sp, p, c, note)
    ensures InOrder(NotesUpTo(sp, p, c, k))
  {
    hide NotesAt, InOrder, Applies;
    if k > 0 {
      NotesApply(sp, p, c, k - 1);
      NotesHere(sp, p, c, k - 1);
      InOrderConcat(NotesUpTo(sp, p, c, k - 1), NotesAt(sp, p, c, k - 1), k - 1);
    } else {
      assert InOrder([]) by { NoNotes(); }
    }
  }

  lemma NoNotes()
    ensures InOrder([])
  {}

  /** Lists every note that applies, once, in waypoint order, and nothing else. */
  method ValidateChunk(sp: Space, p: Profile, c: Chunk) returns (notes: seq<Note>)
    ensures forall note: Note :: note in notes <==> Applies(sp, p, c, note)
    ensures InOrder(notes)
  {
    hide Applies, Fast, Box.Contains;
    notes := [];
    var linear := if c.maxLinearSpeed > 0.0 then Min(p.maxLinearSpeed, c.maxLinearSpeed) else p.maxLinearSpeed;
    var angular := if c.maxAngularSpeed > 0.0 then Min(p.maxAngularSpeed, c.maxAngularSpeed) else p.maxAngularSpeed;
    var prev: Option<Vec> := None;
    var prevQuat: Option<Quat> := None;
    for i := 0 to |c.waypoints|
      invariant prev == if i == 0 then None else Some(c.waypoints[i - 1].position)
      invariant prevQuat == LastQuat(c.waypoints, i)
      invariant notes == NotesUpTo(sp, p, c, i)
    {
      var w := c.waypoints[i];
      if !p.box.Contains(w.position) {
        notes := notes + [OutsideWorkspace(i)];
      }
      if prev.Some? && Timed(w) {
        if Fast(sp.peak, sp.norm(w.position.Sub(prev.value)), w.timing.seconds, linear) {
          notes := notes + [TooFast(i)];
        }
        if prevQuat.Some? && w.quaternion.Some?
           && Fast(sp.peak, sp.angle(prevQuat.value, w.quaternion.value), w.timing.seconds, angular) {
          notes := notes + [TurnsTooFast(i)];
        }
      }
      prev := Some(w.position);
      if w.quaternion.Some? {
        prevQuat := w.quaternion;
      }
    }
    NotesApply(sp, p, c, |c.waypoints|);
    OnlyWaypoints(sp, p, c);
  }

  lemma OnlyWaypoints(sp: Space, p: Profile, c: Chunk)
    ensures forall note: Note | Applies(sp, p, c, note) :: note.index < |c.waypoints|
  {}

  // Against the interpolator.

  /** A displacement scaled to the peak of the ease. */
  function Need(peak: real, distance: real): real { peak * distance }

  /** The ticks asked for, before rounding. */
  function Asked(seconds: real, hz: real): real { seconds * hz }

  /** A displacement of `need` takes more than `ticks` ticks under a cap. */
  predicate Over(need: real, ticks: real, cap: real, hz: real)
    requires 0.0 < hz
  {
    need > ticks * (cap * (1.0 / hz))
  }

  lemma FastIsOver(peak: real, distance: real, seconds: real, cap: real, hz: real)
    requires 0.0 < seconds && 0.0 < hz
    ensures Fast(peak, distance, seconds, cap) <==> Over(Need(peak, distance), Asked(seconds, hz), cap, hz)
  {
    var dt, q := 1.0 / hz, peak * distance;
    DivMul(1.0, hz);
    DivAtMost(q, cap, seconds);
    Ticks(cap, seconds, hz, dt);
  }

  lemma StretchedIsOver(peak: real, distance: real, cap: real, hz: real, n: int)
    requires 0.0 < cap && 0.0 < hz
    ensures StretchedTicks(peak, distance, Some(cap), 1.0 / hz) > n <==> Over(Need(peak, distance), n as real, cap, hz)
  {
    hide TicksUnder;
    DivMul(1.0, hz);
    DivAtLeast(1.0, 0.0, hz);
    TicksUnderAtMost(peak, distance, cap, 1.0 / hz, n);
  }

  lemma OverIsMonotone(need: real, few: real, many: real, cap: real, hz: real)
    requires 0.0 < cap && 0.0 < hz && few <= many && Over(need, many, cap, hz)
    ensures Over(need, few, cap, hz)
  {
    DivMul(1.0, hz);
    DivAtLeast(1.0, 0.0, hz);
    MulNonZero(cap, 1.0 / hz);
    MulMono(few, many, cap * (1.0 / hz));
  }

  lemma Ticks(cap: real, seconds: real, hz: real, dt: real)
    requires dt * hz == 1.0
    ensures seconds * hz * (cap * dt) == cap * seconds
  {
    calc {
      seconds * hz * (cap * dt);
      cap * seconds * (dt * hz);
      { assert cap * seconds * 1.0 == cap * seconds; }
      cap * seconds;
    }
  }

  /** The orientation a waypoint turns away from, if the chunk fixes one before it. */
  lemma {:induction false} LastQuatIsInForce(ws: seq<Waypoint>, start: Pose, k: nat)
    requires k <= |ws|
    ensures PoseAfter(ws, start, k).quat == if LastQuat(ws, k).Some? then LastQuat(ws, k).value else start.quat
    ensures 0 < k ==> PoseAfter(ws, start, k).pos == ws[k - 1].position
  {
    if k > 0 { LastQuatIsInForce(ws, start, k - 1); }
  }

  function SegmentTicksOf(sp: Space, p: Profile, hz: real, c: Chunk, start: Pose, i: nat): nat
    requires 0.0 < hz && i < |c.waypoints|
  {
    var was := PoseAfter(c.waypoints, start, i);
    SegmentTicks(sp, hz, ExecutorCaps(p, c), was, TargetPose(was, c.waypoints[i]), c.waypoints[i].timing)
  }

  predicate SpeedNoted(sp: Space, p: Profile, c: Chunk, i: nat) {
    Applies(sp, p, c, TooFast(i)) || Applies(sp, p, c, TurnsTooFast(i))
  }

  /** The eased peak displacement and turn of waypoint `i`. */
  function LinearNeed(sp: Space, ws: seq<Waypoint>, start: Pose, i: nat): real
    requires i < |ws|
  {
    Need(sp.peak, sp.norm(ws[i].position.Sub(PoseAfter(ws, start, i).pos)))
  }

  function TurnNeed(sp: Space, ws: seq<Waypoint>, start: Pose, i: nat): real
    requires i < |ws|
  {
    var was := PoseAfter(ws, start, i);
    Need(sp.peak, sp.angle(was.quat, TargetPose(was, ws[i]).quat))
  }

  /** Some axis needs more than `ticks` ticks; the turn counts only if `turns`. */
  predicate TooMuch(sp: Space, p: Profile, hz: real, c: Chunk, start: Pose, i: nat, ticks: real, turns: bool)
    requires 0.0 < hz && i < |c.waypoints|
  {
    || Over(LinearNeed(sp, c.waypoints, start, i), ticks, ExecutorCaps(p, c).linear.value, hz)
    || (turns && Over(TurnNeed(sp, c.waypoints, start, i), ticks, ExecutorCaps(p, c).angular.value, hz))
  }

  /** The chunk itself says which turn waypoint `i` makes. */
  predicate TurnSeen(ws: seq<Waypoint>, i: nat)
    requires i < |ws|
  {
    ws[i].quaternion.Some? && LastQuat(ws, i).Some?
  }

  /** A speed note is raised exactly when an axis the preflight can see needs more than the
      requested time. */
  lemma NotedExactly(sp: Space, p: Profile, hz: real, c: Chunk, start: Pose, i: nat)
    requires 0.0 < hz && 0 < i < |c.waypoints| && Timed(c.waypoints[i])
    ensures SpeedNoted(sp, p, c, i)
       <==> TooMuch(sp, p, hz, c, start, i, Asked(c.waypoints[i].timing.seconds, hz), TurnSeen(c.waypoints, i))
  {
    hide Fast, Over, Asked, Need, Vec.Sub;
    var w, was := c.waypoints[i], PoseAfter(c.waypoints, start, i);
    LastQuatIsInForce(c.waypoints, start, i);
    FastIsOver(sp.peak, sp.norm(w.position.Sub(was.pos)), w.timing.seconds, ExecutorCaps(p, c).linear.value, hz);
    FastIsOver(sp.peak, sp.angle(was.quat, TargetPose(was, w).quat), w.timing.seconds,
               ExecutorCaps(p, c).angular.value, hz);
  }

  /** A segment gets more than `n` ticks exactly when an axis needs more than `n`, for every `n` that
      is at least what was requested. */
  lemma StretchedExactly(sp: Space, p: Profile, hz: real, c: Chunk, start: Pose, i: nat, n: int)
    requires 0.0 < hz && i < |c.waypoints| && 0.0 < p.maxLinearSpeed && 0.0 < p.maxAngularSpeed
    requires NominalTicks(c.waypoints[i].timing, hz) <= n
    ensures SegmentTicksOf(sp, p, hz, c, start, i) > n <==> TooMuch(sp, p, hz, c, start, i, n as real, true)
  {
    hide NominalTicks, StretchedTicks, Over, Need, Vec.Sub;
    var was := PoseAfter(c.waypoints, start, i);
    var to, caps := TargetPose(was, c.waypoints[i]), ExecutorCaps(p, c);
    StretchedIsOver(sp.peak, sp.norm(to.pos.Sub(was.pos)), caps.linear.value, hz, n);
    StretchedIsOver(sp.peak, sp.angle(was.quat, to.quat), caps.angular.value, hz, n);
  }

  /** For every timed waypoint after the first: when note and stretching disagree. A segment is
      stretched without a note if some axis needs more than the ticks it is rounded to while no
      visible one needs more than was requested; a note is raised without stretching if a visible
      axis needs more than was requested while none needs more than the rounded ticks. */
  lemma NoteAndStretchDisagree(sp: Space, p: Profile, hz: real, c: Chunk, start: Pose, i: nat)
    requires 0.0 < hz && 0 < i < |c.waypoints| && Timed(c.waypoints[i])
    requires 0.0 < p.maxLinearSpeed && 0.0 < p.maxAngularSpeed
    ensures var (w, seen) := (c.waypoints[i], TurnSeen(c.waypoints, i));
      var (asked, given) := (Asked(w.timing.seconds, hz), NominalTicks(w.timing, hz));
      var stretched := SegmentTicksOf(sp, p, hz, c, start, i) > given;
      && (stretched && !SpeedNoted(sp, p, c, i) <==>
            TooMuch(sp, p, hz, c, start, i, given as real, true) && !TooMuch(sp, p, hz, c, start, i, asked, seen))
      && (SpeedNoted(sp, p, c, i) && !stretched <==>
            TooMuch(sp, p, hz, c, start, i, asked, seen) && !TooMuch(sp, p, hz, c, start, i, given as real, true))
  {
    hide NominalTicks, SegmentTicksOf, SpeedNoted, Asked, TooMuch;
    NotedExactly(sp, p, hz, c, start, i);
    StretchedExactly(sp, p, hz, c, start, i, NominalTicks(c.waypoints[i].timing, hz));
  }

  /** A waypoint that keeps the orientation in force turns by nothing. */
  lemma UnseenTurn(sp: Space, p: Profile, hz: real, c: Chunk, start: Pose, i: nat, ticks: real)
    requires 0.0 < hz && i < |c.waypoints| && 0.0 < p.maxAngularSpeed && 0.0 <= ticks
    requires TurnIsVisible(sp, c.waypoints, start, i)
    ensures TooMuch(sp, p, hz, c, start, i, ticks, true)
       <==> TooMuch(sp, p, hz, c, start, i, ticks, TurnSeen(c.waypoints, i))
  {
    if c.waypoints[i].quaternion.None? {
      var cap := ExecutorCaps(p, c).angular.value;
      assert TurnNeed(sp, c.waypoints, start, i) == 0.0 by { assert sp.peak * 0.0 == 0.0; }
      DivMul(1.0, hz);
      DivAtLeast(1.0, 0.0, hz);
      MulNonZero(cap, 1.0 / hz);
      MulNonNeg(ticks, cap * (1.0 / hz));
    }
  }

  /** The preflight can see the turn of waypoint `i`: it keeps the orientation in force, or an
      earlier waypoint of the chunk says which orientation it turns away from. */
  ghost predicate TurnIsVisible(sp: Space, ws: seq<Waypoint>, start: Pose, i: nat)
    requires i < |ws|
  {
    if ws[i].quaternion.Some? then LastQuat(ws, i).Some?
    else var q := PoseAfter(ws, start, i).quat; sp.angle(q, q) == 0.0
  }

  lemma TooMuchIsMonotone(sp: Space, p: Profile, hz: real, c: Chunk, start: Pose, i: nat, few: real, many: real)
    requires 0.0 < hz && i < |c.waypoints| && 0.0 < p.maxLinearSpeed && 0.0 < p.maxAngularSpeed && few <= many
    requires TooMuch(sp, p, hz, c, start, i, many, true)
    ensures TooMuch(sp, p, hz, c, start, i, few, true)
  {
    hide Over;
    var (lin, ang) := (LinearNeed(sp, c.waypoints, start, i), TurnNeed(sp, c.waypoints, start, i));
    var caps := ExecutorCaps(p, c);
    if Over(lin, many, caps.linear.value, hz) { OverIsMonotone(lin, few, many, caps.linear.value, hz); }
    if Over(ang, many, caps.angular.value, hz) { OverIsMonotone(ang, few, many, caps.angular.value, hz); }
  }

  lemma AskedIsPositive(seconds: real, hz: real)
    requires 0.0 < seconds && 0.0 < hz
    ensures 0.0 < Asked(seconds, hz)
  {
    MulNonZero(seconds, hz);
  }

  lemma AskedIsRounded(seconds: real, hz: real)
    ensures Asked(seconds, hz) <= RoundedTicks(seconds, hz) as real + 0.5
  {
    RoundBounds(seconds * hz);
  }

  lemma NominalIsRounded(t: Timing, hz: real)
    requires 0.0 < hz && t.Duration?
    ensures NominalTicks(t, hz) == RoundedTicks(t.seconds, hz)
  {
    hide RoundedTicks;
  }

  /** Rounding decides the direction: where the duration is not rounded up a note means that the
      segment is stretched, and where it is not rounded down stretching means a note. For a whole
      number of ticks they agree. */
  lemma NoteMeansStretched(sp: Space, p: Profile, hz: real, c: Chunk, start: Pose, i: nat)
    requires 0.0 < hz && 0 < i < |c.waypoints| && Timed(c.waypoints[i])
    requires 0.0 < p.maxLinearSpeed && 0.0 < p.maxAngularSpeed && TurnIsVisible(sp, c.waypoints, start, i)
    ensures var (w, given) := (c.waypoints[i], NominalTicks(c.waypoints[i].timing, hz));
      var (noted, stretched) := (SpeedNoted(sp, p, c, i), SegmentTicksOf(sp, p, hz, c, start, i) > given);
      && (given as real <= Asked(w.timing.seconds, hz) && noted ==> stretched)
      && (Asked(w.timing.seconds, hz) <= given as real && stretched ==> noted)
  {
    hide NominalTicks, SegmentTicksOf, SpeedNoted, Asked, TooMuch, TurnIsVisible;
    var seconds, given := c.waypoints[i].timing.seconds, NominalTicks(c.waypoints[i].timing, hz);
    var asked := Asked(seconds, hz);
    AskedIsPositive(seconds, hz);
    NotedExactly(sp, p, hz, c, start, i);
    StretchedExactly(sp, p, hz, c, start, i, given);
    UnseenTurn(sp, p, hz, c, start, i, asked);
    if given as real <= asked && SpeedNoted(sp, p, c, i) {
      TooMuchIsMonotone(sp, p, hz, c, start, i, given as real, asked);
    }
    if asked <= given as real && TooMuch(sp, p, hz, c, start, i, given as real, true) {
      TooMuchIsMonotone(sp, p, hz, c, start, i, asked, given as real);
    }
  }

  /** No note means at most one tick more than requested. */
  lemma NoNoteOneTick(sp: Space, p: Profile, hz: real, c: Chunk, start: Pose, i: nat)
    requires 0.0 < hz && 0 < i < |c.waypoints| && Timed(c.waypoints[i])
    requires 0.0 < p.maxLinearSpeed && 0.0 < p.maxAngularSpeed && TurnIsVisible(sp, c.waypoints, start, i)
    requires !SpeedNoted(sp, p, c, i)
    ensures SegmentTicksOf(sp, p, hz, c, start, i) <= NominalTicks(c.waypoints[i].timing, hz) + 1
  {
    hide SpeedNoted, SegmentTicksOf, NominalTicks, RoundedTicks, Asked, TooMuch, TurnIsVisible;
    var seconds, n := c.waypoints[i].timing.seconds, NominalTicks(c.waypoints[i].timing, hz);
    var asked := Asked(seconds, hz);
    NominalIsRounded(c.waypoints[i].timing, hz);
    AskedIsPositive(seconds, hz);
    AskedIsRounded(seconds, hz);
    NotedExactly(sp, p, hz, c, start, i);
    StretchedExactly(sp, p, hz, c, start, i, n + 1);
    UnseenTurn(sp, p, hz, c, start, i, asked);
    if TooMuch(sp, p, hz, c, start, i, (n + 1) as real, true) {
      TooMuchIsMonotone(sp, p, hz, c, start, i, asked, (n + 1) as real);
    }
  }

  // Each way of disagreeing happens, in a lawful space: at one tick per second, one metre per second.

  function Walk(): Space {
    Space(Taxicab, (q: Quat) => 1.0, (a: Quat, b: Quat) => if a == b then 0.0 else 10.0,
          (a: Quat, b: Quat, t: real) => b, (s: real) => s, 1.0)
  }

  function Step(x: real, quat: Option<Quat>, seconds: real): Waypoint {
    Waypoint(Vec(x, 0.0, 0.0), quat, None, Duration(seconds))
  }

  function TwoSteps(x: real, quat: Option<Quat>, seconds: real): Chunk {
    Chunk([Step(0.0, None, 1.0), Step(x, quat, seconds)], Absolute, None, 0.0, 0.0, None, None, None, "")
  }

  /** 1.4 metres in 1.4 seconds: no note, but rounded down to one tick and stretched to two.
      1.7 metres in 1.6 seconds: a note, but rounded up to two ticks, which suffice.
      A first orientation far from the one at the start: no note, but stretched. */
  lemma DisagreementsHappen(p: Profile, start: Pose, far: Quat)
    requires p.maxLinearSpeed == 1.0 && p.maxAngularSpeed == 1.0 && far != start.quat
    ensures IsNorm(Walk().norm) && IsEase(Walk().ease, Walk().peak)
    ensures NominalTicks(Duration(1.4), 1.0) == 1 && NominalTicks(Duration(1.6), 1.0) == 2
    ensures var c := TwoSteps(1.4, None, 1.4);
      !SpeedNoted(Walk(), p, c, 1) && SegmentTicksOf(Walk(), p, 1.0, c, start, 1) > 1
    ensures var c := TwoSteps(1.7, None, 1.6);
      SpeedNoted(Walk(), p, c, 1) && SegmentTicksOf(Walk(), p, 1.0, c, start, 1) == 2
    ensures var c := TwoSteps(0.0, Some(far), 2.0);
      !SpeedNoted(Walk(), p, c, 1) && SegmentTicksOf(Walk(), p, 1.0, c, start, 1) > 2
  {
    LawsAreSatisfiable();
    assert RoundedTicks(1.4, 1.0) == 1 && RoundedTicks(1.6, 1.0) == 2 && RoundedTicks(2.0, 1.0) == 2;
    hide IsNorm, IsEase, Walk, SpeedNoted, SegmentTicksOf, NominalTicks, RoundedTicks, TwoSteps;
    Example(p, start, 1.4, None, 1.4, 1);
    Example(p, start, 1.7, None, 1.6, 2);
    Example(p, start, 0.0, Some(far), 2.0, 2);
  }

  lemma Example(p: Profile, start: Pose, x: real, quat: Option<Quat>, seconds: real, n: nat)
    requires p.maxLinearSpeed == 1.0 && p.maxAngularSpeed == 1.0 && 0.0 <= x && 0.0 < seconds
    requires n == RoundedTicks(seconds, 1.0)
    ensures var c := TwoSteps(x, quat, seconds);
      && NominalTicks(Duration(seconds), 1.0) == n
      && (SpeedNoted(Walk(), p, c, 1) <==> x > seconds)
      && (SegmentTicksOf(Walk(), p, 1.0, c, start, 1) > n <==>
            x > n as real || (quat.Some? && quat.value != start.quat && 10.0 > n as real))
  {
    var c := TwoSteps(x, quat, seconds);
    var ws := c.waypoints;
    NominalIsRounded(Duration(seconds), 1.0);
    assert PoseAfter(ws, start, 1) == Pose(ws[0].position, start.quat) by { assert PoseAfter(ws, start, 0) == start; }
    assert LastQuat(ws, 1) == None;
    assert LinearNeed(Walk(), ws, start, 1) == x;
    assert TurnNeed(Walk(), ws, start, 1) == if quat.Some? && quat.value != start.quat then 10.0 else 0.0;
    NotedExactly(Walk(), p, 1.0, c, start, 1);
    StretchedExactly(Walk(), p, 1.0, c, start, 1, n);
  }
}
