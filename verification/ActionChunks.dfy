/** Preparing a chunk for execution: relative poses are anchored at the live start pose and only
    the execution horizon is kept. */
module ActionChunks {
  import opened Numbers
  import opened Geometry
  import opened Types
  import opened Transforms

  /** The number of waypoints that are executed before replanning. */
  function HorizonExec(c: Chunk): nat
    requires c.waypoints != []
  {
    MaxInt(1, MinInt(if c.nExecute.Some? then c.nExecute.value else |c.waypoints|, |c.waypoints|))
  }

  /** Constructing a waypoint normalises its quaternion and refuses a (near) zero one. */
  function BuildWaypoint(qnorm: Quat -> real, w: Waypoint): Option<Waypoint> {
    match w.quaternion
    case None => Some(w)
    case Some(q) => if qnorm(q) < EPS then None else Some(w.(quaternion := Some(Divide(q, qnorm(q)))))
  }

  function ResolveWaypoint(qnorm: Quat -> real, start: Pose, w: Waypoint): Option<Waypoint> {
    var quat := if w.quaternion.None? then start.quat
                else QuatNormalize(qnorm, QuatMul(start.quat, w.quaternion.value));
    BuildWaypoint(qnorm, w.(position := start.pos.Add(QuatRotate(qnorm, start.quat, w.position)),
                            quaternion := Some(quat)))
  }

  /** All waypoints resolved, or nothing if one of them is refused. */
  function ResolveAll(qnorm: Quat -> real, start: Pose, ws: seq<Waypoint>): Option<seq<Waypoint>> {
    if ws == [] then Some([])
    else
      var init := ResolveAll(qnorm, start, ws[..|ws| - 1]);
      var last := ResolveWaypoint(qnorm, start, ws[|ws| - 1]);
      if init.Some? && last.Some? then Some(init.value + [last.value]) else None
  }

  function ResolveToAbsolute(qnorm: Quat -> real, c: Chunk, start: Pose): Option<Chunk> {
    if c.representation.Absolute? then Some(c)
    else
      var ws := ResolveAll(qnorm, start, c.waypoints);
      if ws.Some? then Some(c.(waypoints := ws.value, representation := Absolute)) else None
  }

  function ForExecution(qnorm: Quat -> real, c: Chunk, start: Pose): Option<Chunk>
    requires c.waypoints != []
  {
    var r := ResolveToAbsolute(qnorm, c, start);
    if r.None? then None
    else if HorizonExec(c) >= |r.value.waypoints| then r
    else Some(r.value.(waypoints := r.value.waypoints[..HorizonExec(c)], nExecute := None))
  }

  lemma {:induction false} ResolvedEach(qnorm: Quat -> real, start: Pose, ws: seq<Waypoint>)
    ensures ResolveAll(qnorm, start, ws).Some? <==> forall w | w in ws :: ResolveWaypoint(qnorm, start, w).Some?
    ensures ResolveAll(qnorm, start, ws).Some? ==>
      |ResolveAll(qnorm, start, ws).value| == |ws|
      && forall i | 0 <= i < |ws| :: Some(ResolveAll(qnorm, start, ws).value[i]) == ResolveWaypoint(qnorm, start, ws[i])
  {
    hide ResolveWaypoint;
    if ws != [] {
      var init := ws[..|ws| - 1];
      ResolvedEach(qnorm, start, init);
      assert ws == init + [ws[|ws| - 1]];
    }
  }

  lemma BuiltIsResolved(qnorm: Quat -> real, start: Pose, w: Waypoint, position: Vec, quat: Quat)
    requires position == start.pos.Add(QuatRotate(qnorm, start.quat, w.position))
    requires quat == if w.quaternion.None? then start.quat
                     else QuatNormalize(qnorm, QuatMul(start.quat, w.quaternion.value))
    ensures BuildWaypoint(qnorm, Waypoint(position, Some(quat), w.gripper, w.timing)) == ResolveWaypoint(qnorm, start, w)
  {
    hide QuatRotate, QuatNormalize, QuatMul, BuildWaypoint;
  }

  method ResolveWaypoints(qnorm: Quat -> real, c: Chunk, start: Pose) returns (r: Option<Chunk>)
    ensures r == ResolveToAbsolute(qnorm, c, start)
  {
    hide QuatRotate, QuatNormalize, QuatMul, BuildWaypoint, ResolveWaypoint;
    if c.representation.Absolute? {
      return Some(c);
    }
    var built: seq<Waypoint> := [];
    for i := 0 to |c.waypoints|
      invariant ResolveAll(qnorm, start, c.waypoints[..i]) == Some(built)
    {
      var w := c.waypoints[i];
      var position := start.pos.Add(QuatRotate(qnorm, start.quat, w.position));
      var quat := if w.quaternion.None? then start.quat
                  else QuatNormalize(qnorm, QuatMul(start.quat, w.quaternion.value));
      var next := BuildWaypoint(qnorm, Waypoint(position, Some(quat), w.gripper, w.timing));
      BuiltIsResolved(qnorm, start, w, position, quat);
      assert c.waypoints[..i + 1][..i] == c.waypoints[..i];
      if next.None? {
        ResolvedEach(qnorm, start, c.waypoints);
        assert w in c.waypoints;
        return None;
      }
      built := built + [next.value];
    }
    assert c.waypoints[..|c.waypoints|] == c.waypoints;
    r := Some(c.(waypoints := built, representation := Absolute));
  }

  method PrepareChunk(qnorm: Quat -> real, c: Chunk, start: Pose) returns (r: Option<Chunk>)
    requires c.waypoints != []
    ensures r == ForExecution(qnorm, c, start)
  {
    r := ResolveWaypoints(qnorm, c, start);
    var horizon := HorizonExec(c);
    if r.Some? && horizon < |r.value.waypoints| {
      r := Some(r.value.(waypoints := r.value.waypoints[..horizon], nExecute := None));
    }
  }

  // What preparing a chunk keeps.

  /** Resolving a waypoint moves its pose only, and fails only if it has no orientation of its own and the
      start has none worth the name either. */
  lemma ResolveKeepsRest(qnorm: Quat -> real, start: Pose, w: Waypoint)
    requires IsQuatNorm(qnorm)
    ensures var out := ResolveWaypoint(qnorm, start, w);
      && (out.None? <==> w.quaternion.None? && qnorm(start.quat) < EPS)
      && (out.Some? ==> out.value.gripper == w.gripper && out.value.timing == w.timing && out.value.quaternion.Some?)
  {
    hide QuatRotate, QuatMul;
    if w.quaternion.Some? {
      var q := QuatMul(start.quat, w.quaternion.value);
      NormalizeIsCanonical(qnorm, q);
      UnitNorm(qnorm, QuatNormalize(qnorm, q));
    }
    hide QuatNormalize, IsQuatNorm;
  }

  /** A prepared chunk is the chunk with absolute waypoints, as many as are executed before replanning:
      all of them, or as many as asked for, but one at least. Their gripper commands and timing, and
      for an absolute chunk everything about them, are the chunk's own. A chunk is refused exactly when
      it is relative, some waypoint has no orientation and the start pose has none to lend. */
  lemma PreparedChunk(qnorm: Quat -> real, c: Chunk, start: Pose)
    requires IsQuatNorm(qnorm) && c.waypoints != []
    ensures var (r, asked) := (ForExecution(qnorm, c, start), c.nExecute);
      && (r.None? <==>
            c.representation.RelativeToStart? && qnorm(start.quat) < EPS && exists w | w in c.waypoints :: w.quaternion.None?)
      && (r.Some? ==>
            && |r.value.waypoints| == (if asked.None? || asked.value >= |c.waypoints| then |c.waypoints|
                                       else if asked.value < 1 then 1 else asked.value)
            && (forall i | 0 <= i < |r.value.waypoints| ::
                  && r.value.waypoints[i].gripper == c.waypoints[i].gripper
                  && r.value.waypoints[i].timing == c.waypoints[i].timing)
            && (c.representation.Absolute? ==> r.value.waypoints <= c.waypoints)
            && r.value == c.(waypoints := r.value.waypoints, representation := Absolute, nExecute := r.value.nExecute))
  {
    hide ResolveWaypoint, IsQuatNorm;
    ResolvedEach(qnorm, start, c.waypoints);
    forall w | w in c.waypoints
      ensures var out := ResolveWaypoint(qnorm, start, w);
        && (out.None? <==> w.quaternion.None? && qnorm(start.quat) < EPS)
        && (out.Some? ==> out.value.gripper == w.gripper && out.value.timing == w.timing)
    {
      ResolveKeepsRest(qnorm, start, w);
    }
  }

  // Relative chunks move with the robot.

  /** A rigid motion: rotate by `r`, then shift by `t`. */
  function Moved(qnorm: Quat -> real, r: Quat, t: Vec, p: Pose): Pose {
    Pose(t.Add(QuatRotate(qnorm, r, p.pos)), QuatNormalize(qnorm, QuatMul(r, p.quat)))
  }

  lemma RotateUnit(qnorm: Quat -> real, q: Quat, v: Vec)
    requires IsQuatNorm(qnorm) && Unit(q)
    ensures QuatRotate(qnorm, q, v) == Sandwich(q, v)
  {
    hide IsQuatNorm, QuatNormalize, Sandwich;
    NormalizeUnit(qnorm, q);
    SandwichUpToSign(QuatNormalize(qnorm, q), q, v);
  }

  lemma NormalizeProduct(qnorm: Quat -> real, a: Quat, b: Quat)
    requires IsQuatNorm(qnorm) && Unit(a) && Unit(b)
    ensures UpToSign(QuatNormalize(qnorm, QuatMul(a, b)), QuatMul(a, b))
    ensures Unit(QuatNormalize(qnorm, QuatMul(a, b)))
  {
    hide IsQuatNorm, QuatNormalize, QuatMul, UpToSign, NormSquared;
    UnitMul(a, b);
    NormalizeUnit(qnorm, QuatMul(a, b));
    UnitUpToSign(QuatNormalize(qnorm, QuatMul(a, b)), QuatMul(a, b));
  }

  lemma BuildUnit(qnorm: Quat -> real, w: Waypoint)
    requires IsQuatNorm(qnorm) && w.quaternion.Some? && Unit(w.quaternion.value)
    ensures BuildWaypoint(qnorm, w) == Some(w)
  {
    UnitNorm(qnorm, w.quaternion.value);
    NormalizeUnit(qnorm, w.quaternion.value);
  }

  /** The unnormalised orientation a relative waypoint stands for. */
  function Composed(start: Quat, w: Waypoint): Quat {
    if w.quaternion.None? then start else QuatMul(start, w.quaternion.value)
  }

  ghost predicate UnitWaypoint(w: Waypoint) { w.quaternion.Some? ==> Unit(w.quaternion.value) }

  lemma ResolvedPose(qnorm: Quat -> real, start: Pose, w: Waypoint)
    requires IsQuatNorm(qnorm) && Unit(start.quat) && UnitWaypoint(w)
    ensures var out := ResolveWaypoint(qnorm, start, w);
      && out.Some? && out.value.quaternion.Some?
      && out.value.position == start.pos.Add(Sandwich(start.quat, w.position))
      && UpToSign(out.value.quaternion.value, Composed(start.quat, w))
      && Unit(out.value.quaternion.value)
  {
    hide IsQuatNorm, QuatNormalize, QuatMul, Sandwich, BuildWaypoint, NormSquared, QuatRotate;
    RotateUnit(qnorm, start.quat, w.position);
    if w.quaternion.Some? { NormalizeProduct(qnorm, start.quat, w.quaternion.value); }
    var quat := if w.quaternion.None? then start.quat
                else QuatNormalize(qnorm, QuatMul(start.quat, w.quaternion.value));
    BuildUnit(qnorm, Waypoint(start.pos.Add(QuatRotate(qnorm, start.quat, w.position)), Some(quat), w.gripper, w.timing));
  }

  /** Resolving at a rigidly moved start gives the rigidly moved waypoint. */
  lemma ResolveIsEquivariant(qnorm: Quat -> real, start: Pose, w: Waypoint, r: Quat, t: Vec)
    requires IsQuatNorm(qnorm) && Unit(start.quat) && UnitWaypoint(w) && Unit(r)
    ensures var here := ResolveWaypoint(qnorm, start, w);
      var there := ResolveWaypoint(qnorm, Moved(qnorm, r, t, start), w);
      && here.Some? && there.Some? && here.value.quaternion.Some? && there.value.quaternion.Some?
      && var image := Moved(qnorm, r, t, Pose(here.value.position, here.value.quaternion.value));
         there.value.position == image.pos && UpToSign(there.value.quaternion.value, image.quat)
  {
    hide IsQuatNorm, QuatNormalize, QuatMul, QuatConj, Sandwich, ResolveWaypoint, NormSquared, QuatRotate, UpToSign;
    var s, v := start.quat, w.position;
    var moved := Moved(qnorm, r, t, start);
    NormalizeProduct(qnorm, r, s);
    ResolvedPose(qnorm, start, w);
    ResolvedPose(qnorm, moved, w);
    var here := ResolveWaypoint(qnorm, start, w).value;
    var there := ResolveWaypoint(qnorm, moved, w).value;
    var q := here.quaternion.value;
    // positions
    RotateUnit(qnorm, r, start.pos);
    RotateUnit(qnorm, r, here.position);
    SandwichAdd(r, start.pos, Sandwich(s, v));
    SandwichMul(r, s, v);
    SandwichUpToSign(moved.quat, QuatMul(r, s), v);
    // orientations
    NormalizeProduct(qnorm, r, q);
    ComposedMoves(r, s, moved.quat, w);
    Reflexive(r);
    UpToSignMul(r, r, q, Composed(s, w));
    UpToSignTrans(there.quaternion.value, Composed(moved.quat, w), QuatMul(r, Composed(s, w)));
    UpToSignTrans(QuatMul(r, q), QuatMul(r, Composed(s, w)), QuatMul(r, Composed(s, w)));
    UpToSignTrans(there.quaternion.value, QuatMul(r, Composed(s, w)), QuatMul(r, q));
    UpToSignTrans(QuatNormalize(qnorm, QuatMul(r, q)), QuatMul(r, q), QuatMul(r, q));
    UpToSignTrans(there.quaternion.value, QuatMul(r, q), QuatNormalize(qnorm, QuatMul(r, q)));
  }

  lemma Reflexive(a: Quat)
    ensures UpToSign(a, a)
  {}

  lemma ComposedMoves(r: Quat, s: Quat, m: Quat, w: Waypoint)
    requires UpToSign(m, QuatMul(r, s))
    ensures UpToSign(Composed(m, w), QuatMul(r, Composed(s, w)))
    ensures forall a: Quat :: UpToSign(a, a)
  {
    hide QuatMul;
    if w.quaternion.Some? {
      UpToSignMul(m, QuatMul(r, s), w.quaternion.value, w.quaternion.value);
      MulAssoc(r, s, w.quaternion.value);
    }
  }

  /** A whole relative chunk, sliced to its horizon, moves with the start pose. */
  lemma ChunkIsEquivariant(qnorm: Quat -> real, c: Chunk, start: Pose, r: Quat, t: Vec)
    requires IsQuatNorm(qnorm) && Unit(start.quat) && Unit(r) && c.waypoints != []
    requires c.representation.RelativeToStart? && forall w | w in c.waypoints :: UnitWaypoint(w)
    ensures var here := ForExecution(qnorm, c, start);
      var there := ForExecution(qnorm, c, Moved(qnorm, r, t, start));
      && here.Some? && there.Some?
      && |here.value.waypoints| == |there.value.waypoints| == HorizonExec(c)
      && forall i | 0 <= i < HorizonExec(c) ::
           var (a, b) := (here.value.waypoints[i], there.value.waypoints[i]);
           && a.quaternion.Some? && b.quaternion.Some?
           && var image := Moved(qnorm, r, t, Pose(a.position, a.quaternion.value));
              b.position == image.pos && UpToSign(b.quaternion.value, image.quat)
  {
    hide IsQuatNorm, QuatNormalize, QuatMul, ResolveWaypoint, NormSquared, QuatRotate, UpToSign, Moved, UnitWaypoint;
    var moved := Moved(qnorm, r, t, start);
    forall w | w in c.waypoints
      ensures ResolveWaypoint(qnorm, start, w).Some? && ResolveWaypoint(qnorm, moved, w).Some?
    {
      ResolveIsEquivariant(qnorm, start, w, r, t);
    }
    ResolvedEach(qnorm, start, c.waypoints);
    ResolvedEach(qnorm, moved, c.waypoints);
    var here, there := ForExecution(qnorm, c, start).value, ForExecution(qnorm, c, moved).value;
    forall i | 0 <= i < HorizonExec(c)
      ensures var (a, b) := (here.waypoints[i], there.waypoints[i]);
        && a.quaternion.Some? && b.quaternion.Some?
        && var image := Moved(qnorm, r, t, Pose(a.position, a.quaternion.value));
           b.position == image.pos && UpToSign(b.quaternion.value, image.quat)
    {
      ResolveIsEquivariant(qnorm, start, c.waypoints[i], r, t);
    }
  }

  /** Resolving one waypoint is integrating it as a displacement in the TCP frame. */
  lemma ResolveIsTcpIntegration(qnorm: Quat -> real, fromRotvec: Vec -> Quat, start: Pose, w: Waypoint, turn: Vec)
    requires IsQuatNorm(qnorm) && Unit(start.quat) && UnitWaypoint(w) && w.quaternion == Some(fromRotvec(turn))
    ensures var out := ResolveWaypoint(qnorm, start, w);
      && out.Some? && out.value.quaternion.Some?
      && Pose(out.value.position, out.value.quaternion.value)
         == IntegratePose(qnorm, fromRotvec, start, w.position, turn, Tcp)
  {
    hide IsQuatNorm, QuatNormalize, QuatMul, NormSquared, QuatRotate, BuildWaypoint;
    NormalizeProduct(qnorm, start.quat, w.quaternion.value);
    var quat := QuatNormalize(qnorm, QuatMul(start.quat, w.quaternion.value));
    BuildUnit(qnorm, Waypoint(start.pos.Add(QuatRotate(qnorm, start.quat, w.position)), Some(quat), w.gripper, w.timing));
  }
}
