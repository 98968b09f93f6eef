/** The interpolated stream: how far one tick moves, where segments end, what it stays inside. */
module InterpolationBounds {
  import opened Numbers
  import opened Geometry
  import opened Types
  import opened SafetyFilters
  import opened Interpolation

  /** What `quat_slerp` and `quat_angle` are assumed to satisfy between two orientations. When
      both are the same orientation the first two clauses only say that turning nowhere has
      angle zero. */
  ghost predicate SlerpOk(sp: Space, a: Quat, b: Quat) {
    && 0.0 <= sp.angle(a, b)
    && (forall s: real, t: real {:trigger sp.slerp(a, b, s), sp.slerp(a, b, t)} ::
          0.0 <= s <= t <= 1.0 ==> sp.angle(sp.slerp(a, b, s), sp.slerp(a, b, t)) <= (t - s) * sp.angle(a, b))
    && (forall t: real {:trigger sp.slerp(a, b, t)} ::
          0.0 <= t <= 1.0 ==> sp.angle(a, sp.slerp(a, b, t)) <= t * sp.angle(a, b))
    && SameTurn(sp, sp.slerp(a, b, 1.0), b)
  }

  /** Two quaternions from which every orientation is equally far: q and -q, for one. */
  ghost predicate SameTurn(sp: Space, a: Quat, b: Quat) {
    forall c: Quat :: sp.angle(a, c) == sp.angle(b, c)
  }

  ghost predicate SlerpsAlong(sp: Space, ws: seq<Waypoint>, from: Pose) {
    ws == [] ||
    var to := TargetPose(from, ws[0]);
    SlerpOk(sp, from.quat, to.quat) && SlerpsAlong(sp, ws[1..], to)
  }

  function PoseBefore(from: Pose, ticks: seq<Tick>, i: nat): Pose
    requires i <= |ticks|
  {
    if i == 0 then from else ticks[i - 1].pose
  }

  predicate WithinStep(sp: Space, a: Pose, b: Pose, linear: real, angular: real) {
    sp.norm(b.pos.Sub(a.pos)) <= linear && sp.angle(a.quat, b.quat) <= angular
  }

  /** Every tick stays within the given step of the tick before it. */
  ghost predicate Smooth(sp: Space, from: Pose, ticks: seq<Tick>, linear: real, angular: real) {
    forall i | 0 <= i < |ticks| :: WithinStep(sp, PoseBefore(from, ticks, i), ticks[i].pose, linear, angular)
  }

  // The length of a segment.

  /** A frame count is a number of ticks, at least one; a duration is rounded to the nearest. */
  lemma TicksRequested(n: int, seconds: real, hz: real)
    requires 0.0 < hz
    ensures NominalTicks(Frames(n), hz) == MaxInt(1, n)
    ensures var ticks := NominalTicks(Duration(seconds), hz);
      ticks >= 1 && (Abs(seconds * hz - ticks as real) <= 0.5 || (ticks == 1 && seconds * hz < 1.0))
  {
    FramesRequested(n, hz);
    DurationRequested(seconds, hz);
  }

  lemma FramesRequested(n: int, hz: real)
    requires 0.0 < hz
    ensures NominalTicks(Frames(n), hz) == MaxInt(1, n)
  {
    hide RoundedTicks;
    DivMul(n as real, hz);
    RoundOfWhole(n);
    RoundedIs(n as real / hz, hz, n as real);
  }

  lemma RoundedIs(seconds: real, hz: real, x: real)
    requires seconds * hz == x
    ensures RoundedTicks(seconds, hz) == MaxInt(1, Round(x))
  {
    hide Round;
  }

  lemma DurationRequested(seconds: real, hz: real)
    requires 0.0 < hz
    ensures var ticks := NominalTicks(Duration(seconds), hz);
      ticks >= 1 && (Abs(seconds * hz - ticks as real) <= 0.5 || (ticks == 1 && seconds * hz < 1.0))
  {
    hide Round, Abs, RoundedTicks;
    var x := seconds * hz;
    RoundedAtLeastOne(x);
    RoundedIs(seconds, hz, x);
  }

  lemma RoundOfWhole(n: int)
    ensures Round(n as real) == n
  {}

  lemma RoundedAtLeastOne(x: real)
    ensures var ticks := MaxInt(1, Round(x)); Abs(x - ticks as real) <= 0.5 || (ticks == 1 && x < 1.0)
  {
    RoundIsNearest(x);
  }

  /** In `n` ticks the steepest tick of a displacement stays under the cap; no cap, or one that is not
      positive, asks for nothing. */
  predicate Fits(peak: real, distance: real, cap: Option<real>, dt: real, n: int) {
    cap.Some? && cap.value > 0.0 ==> peak * distance <= n as real * (cap.value * dt)
  }

  lemma StretchedIsLeast(peak: real, distance: real, cap: Option<real>, dt: real, n: int)
    requires 0.0 < dt && 1 <= n
    ensures StretchedTicks(peak, distance, cap, dt) <= n <==> Fits(peak, distance, cap, dt, n)
  {
    hide TicksUnder;
    if cap.Some? && cap.value > 0.0 { TicksUnderAtMost(peak, distance, cap.value, dt, n); }
  }

  /** The control period. */
  lemma Period(hz: real)
    requires 0.0 < hz
    ensures 0.0 < 1.0 / hz
  {}

  /** A segment is the shortest one that is not shorter than requested and in which both axes fit
      under their caps. */
  lemma SegmentTicksAreLeast(sp: Space, hz: real, caps: Caps, from: Pose, to: Pose, t: Timing, n: int)
    requires 0.0 < hz
    ensures SegmentTicks(sp, hz, caps, from, to, t) <= n <==>
      && NominalTicks(t, hz) <= n
      && Fits(sp.peak, sp.norm(to.pos.Sub(from.pos)), caps.linear, 1.0 / hz, n)
      && Fits(sp.peak, sp.angle(from.quat, to.quat), caps.angular, 1.0 / hz, n)
  {
    Period(hz);
    hide StretchedTicks, RoundedTicks, Fits, Vec.Sub, ResolveDuration;
    if 1 <= n {
      StretchedIsLeast(sp.peak, sp.norm(to.pos.Sub(from.pos)), caps.linear, 1.0 / hz, n);
      StretchedIsLeast(sp.peak, sp.angle(from.quat, to.quat), caps.angular, 1.0 / hz, n);
    } else {
      NominalAtLeastOne(t, hz);
    }
  }

  lemma NominalAtLeastOne(t: Timing, hz: real)
    requires 0.0 < hz
    ensures 1 <= NominalTicks(t, hz)
  {
    hide Round, ResolveDuration;
  }

  /** The ticks of a segment follow the ease: after `k` of `n` ticks the eased share of k / n of the way
      has been covered, straight, without ever going back, and the orientation is the slerp's at that
      share. */
  lemma PathIsEased(sp: Space, from: Pose, to: Pose, n: nat, index: nat, grip: Option<GripperCommand>, k: nat)
    requires IsNorm(sp.norm) && IsEase(sp.ease, sp.peak) && 1 <= k <= n
    ensures var ticks := Segment(sp, from, to, n, index, grip);
      var (was, now) := (if k == 1 then from.pos else ticks[k - 2].pose.pos, ticks[k - 1].pose);
      var (s, d) := (sp.ease(k as real / n as real), sp.norm(to.pos.Sub(from.pos)));
      && sp.norm(now.pos.Sub(from.pos)) == s * d
      && sp.norm(now.pos.Sub(from.pos)) + sp.norm(to.pos.Sub(now.pos)) == d
      && sp.norm(to.pos.Sub(now.pos)) <= sp.norm(to.pos.Sub(was))
      && now.quat == sp.slerp(from.quat, to.quat, s)
  {
    hide IsNorm, IsEase, Toward, Vec.Sub;
    EaseAt(sp.ease, sp.peak, k, n);
    var s, t := sp.ease((k - 1) as real / n as real), sp.ease(k as real / n as real);
    Covered(sp.norm, from.pos, to.pos, s, t);
    if k == 1 {
      EaseStart(sp.ease, sp.peak, n);
      TowardEnds(from.pos, to.pos);
    }
    SegmentAt(sp, from, to, n, index, grip, k);
    if k > 1 { SegmentAt(sp, from, to, n, index, grip, k - 1); }
    hide Segment;
  }

  lemma SegmentAt(sp: Space, from: Pose, to: Pose, n: nat, index: nat, grip: Option<GripperCommand>, k: nat)
    requires 1 <= k <= n
    ensures var (ticks, s) := (Segment(sp, from, to, n, index, grip), sp.ease(k as real / n as real));
      ticks[k - 1].pose == Pose(Toward(from.pos, to.pos, s), sp.slerp(from.quat, to.quat, s))
  {
    hide Toward;
  }

  lemma Covered(norm: Vec -> real, a: Vec, b: Vec, s: real, t: real)
    requires IsNorm(norm) && 0.0 <= s <= t <= 1.0
    ensures var d := norm(b.Sub(a));
      && norm(Toward(a, b, t).Sub(a)) == t * d
      && norm(Toward(a, b, t).Sub(a)) + norm(b.Sub(Toward(a, b, t))) == d
      && norm(b.Sub(Toward(a, b, t))) <= norm(b.Sub(Toward(a, b, s)))
  {
    hide IsNorm, Toward, Vec.Sub;
    var d := norm(b.Sub(a));
    NormNonNeg(norm, b.Sub(a));
    TowardDistance(norm, a, b, s);
    TowardDistance(norm, a, b, t);
    Leftover(s, t, d);
  }

  lemma Leftover(s: real, t: real, d: real)
    requires s <= t && 0.0 <= d
    ensures t * d + (1.0 - t) * d == d && (1.0 - t) * d <= (1.0 - s) * d
  {
    var u, v := 1.0 - t, 1.0 - s;
    MulMono(u, v, d);
    assert (1.0 - t) * d == d - t * d;
  }

  // One tick.

  lemma EaseAt(ease: real -> real, peak: real, k: nat, n: nat)
    requires IsEase(ease, peak) && 1 <= k <= n
    ensures var s, t := (k - 1) as real / n as real, k as real / n as real;
      && 0.0 <= s <= t <= 1.0
      && t - s == 1.0 / n as real
      && 0.0 <= ease(s) <= ease(t) <= 1.0
      && ease(t) - ease(s) <= peak * (1.0 / n as real)
  {
    var m := n as real;
    var s, t, u := (k - 1) as real / m, k as real / m, 1.0 / m;
    DivUnit((k - 1) as real, m);
    DivUnit(k as real, m);
    assert t - s == u;
    assert ease(t) - ease(s) <= peak * (t - s);
    assert 0.0 <= ease(s) - ease(0.0);
    assert 0.0 <= ease(1.0) - ease(t);
    DivAtLeast(1.0, 0.0, m);
  }

  /** n ticks suffice: the steepest tick of an eased displacement d stays under the cap. */
  lemma SteepestTick(peak: real, d: real, cap: real, dt: real, n: nat, rise: real)
    requires 0.0 <= d && 0.0 < cap && 0.0 < dt && 0 < n && 0.0 <= peak
    requires n >= StretchedTicks(peak, d, Some(cap), dt)
    requires rise <= peak * (1.0 / n as real)
    ensures rise * d <= PerTick(cap, dt)
  {
    MulNonZero(cap, dt);
    var c, m, u, q := cap * dt, n as real, 1.0 / n as real, peak * d;
    CeilAtMost(q / c, n);
    DivAtMost(q, m, c);
    assert q <= m * c;
    DivMul(1.0, m);
    DivAtLeast(1.0, 0.0, m);
    MulMono(rise, peak * u, d);
    Regroup(peak, u, d);
    MulMono(q, m * c, u);
    Cancel(u, m, c);
  }

  lemma Regroup(a: real, b: real, c: real)
    ensures a * b * c == b * (a * c)
  {}

  lemma Cancel(u: real, m: real, c: real)
    requires u * m == 1.0
    ensures u * (m * c) == c
  {
    assert u * (m * c) == (u * m) * c;
    assert (u * m) * c == 1.0 * c;
  }

  lemma PositionStep(sp: Space, from: Pose, to: Pose, k: nat, n: nat, cap: real, dt: real)
    requires IsNorm(sp.norm) && IsEase(sp.ease, sp.peak) && 1 <= k <= n && 0.0 < cap && 0.0 < dt
    requires n >= StretchedTicks(sp.peak, sp.norm(to.pos.Sub(from.pos)), Some(cap), dt)
    ensures sp.norm(PoseAt(sp, from, to, k, n).pos.Sub(PoseAt(sp, from, to, k - 1, n).pos)) <= PerTick(cap, dt)
  {
    hide IsNorm, IsEase, StretchedTicks, PerTick, Toward;
    EaseAt(sp.ease, sp.peak, k, n);
    EasePeak(sp.ease, sp.peak);
    var s, t := sp.ease((k - 1) as real / n as real), sp.ease(k as real / n as real);
    var rise, d := t - s, sp.norm(to.pos.Sub(from.pos));
    NormNonNeg(sp.norm, to.pos.Sub(from.pos));
    TowardBetween(sp.norm, from.pos, to.pos, s, t, rise);
    SteepestTick(sp.peak, d, cap, dt, n, rise);
  }

  lemma TurnStep(sp: Space, from: Pose, to: Pose, k: nat, n: nat, cap: real, dt: real)
    requires SlerpOk(sp, from.quat, to.quat) && IsEase(sp.ease, sp.peak) && 1 <= k <= n && 0.0 < cap && 0.0 < dt
    requires n >= StretchedTicks(sp.peak, sp.angle(from.quat, to.quat), Some(cap), dt)
    ensures sp.angle(PoseAt(sp, from, to, k - 1, n).quat, PoseAt(sp, from, to, k, n).quat) <= PerTick(cap, dt)
    ensures k == 1 ==> sp.angle(from.quat, PoseAt(sp, from, to, k, n).quat) <= PerTick(cap, dt)
  {
    hide IsEase, StretchedTicks, PerTick;
    EaseAt(sp.ease, sp.peak, k, n);
    EasePeak(sp.ease, sp.peak);
    var s, t := sp.ease((k - 1) as real / n as real), sp.ease(k as real / n as real);
    var rise, d := t - s, sp.angle(from.quat, to.quat);
    SteepestTick(sp.peak, d, cap, dt, n, rise);
    SlerpBetween(sp, from.quat, to.quat, s, t, rise);
    if k == 1 { EaseStart(sp.ease, sp.peak, n); }
  }

  lemma EaseStart(ease: real -> real, peak: real, n: nat)
    requires IsEase(ease, peak) && 0 < n
    ensures ease(0 as real / n as real) == 0.0
  {
    assert 0 as real / n as real == 0.0;
  }

  lemma EaseEnd(ease: real -> real, peak: real, n: nat)
    requires IsEase(ease, peak) && 0 < n
    ensures ease(n as real / n as real) == 1.0
  {
    assert n as real / n as real == 1.0;
  }

  lemma SlerpBetween(sp: Space, a: Quat, b: Quat, s: real, t: real, gap: real)
    requires SlerpOk(sp, a, b) && 0.0 <= s <= t <= 1.0 && gap == t - s
    ensures sp.angle(sp.slerp(a, b, s), sp.slerp(a, b, t)) <= gap * sp.angle(a, b)
    ensures sp.angle(a, sp.slerp(a, b, t)) <= t * sp.angle(a, b)
  {
    var d := sp.angle(a, b);
    assert (t - s) * d == gap * d;
  }

  // One segment.

  /** Caps that are in force on both axes. */
  predicate BothCapped(caps: Caps) {
    && caps.linear.Some? && caps.linear.value > 0.0
    && caps.angular.Some? && caps.angular.value > 0.0
  }

  lemma SegmentSmooth(sp: Space, hz: real, caps: Caps, last: Pose, from: Pose, to: Pose, t: Timing, index: nat,
                      grip: Option<GripperCommand>)
    requires IsNorm(sp.norm) && IsEase(sp.ease, sp.peak) && 0.0 < hz && BothCapped(caps)
    requires last.pos == from.pos && SameTurn(sp, last.quat, from.quat) && SlerpOk(sp, from.quat, to.quat)
    ensures var n := SegmentTicks(sp, hz, caps, from, to, t);
      var ticks := Segment(sp, from, to, n, index, grip);
      && Smooth(sp, last, ticks, PerTick(caps.linear.value, 1.0 / hz), PerTick(caps.angular.value, 1.0 / hz))
      && ticks[n - 1].pose.pos == to.pos
      && SameTurn(sp, ticks[n - 1].pose.quat, to.quat)
  {
    hide IsNorm, StretchedTicks, PerTick, Toward, Round;
    var dt := 1.0 / hz;
    DivAtLeast(1.0, 0.0, hz);
    DivMul(1.0, hz);
    assert dt > 0.0;
    var n := SegmentTicks(sp, hz, caps, from, to, t);
    var ticks := Segment(sp, from, to, n, index, grip);
    var linear, angular := PerTick(caps.linear.value, dt), PerTick(caps.angular.value, dt);
    EaseStart(sp.ease, sp.peak, n);
    EaseEnd(sp.ease, sp.peak, n);
    TowardEnds(from.pos, to.pos);
    hide IsEase, SlerpOk;
    forall i | 0 <= i < |ticks| ensures WithinStep(sp, PoseBefore(last, ticks, i), ticks[i].pose, linear, angular) {
      PositionStep(sp, from, to, i + 1, n, caps.linear.value, dt);
      TurnStep(sp, from, to, i + 1, n, caps.angular.value, dt);
    }
  }

  // The whole plan.

  lemma SmoothConcat(sp: Space, from: Pose, a: seq<Tick>, b: seq<Tick>, linear: real, angular: real)
    requires a != [] && Smooth(sp, from, a, linear, angular) && Smooth(sp, a[|a| - 1].pose, b, linear, angular)
    ensures Smooth(sp, from, a + b, linear, angular)
  {
    hide WithinStep;
    forall i | 0 <= i < |a + b|
      ensures WithinStep(sp, PoseBefore(from, a + b, i), (a + b)[i].pose, linear, angular)
    {
      if i < |a| {
        assert PoseBefore(from, a + b, i) == PoseBefore(from, a, i);
      } else {
        var j := i - |a|;
        assert PoseBefore(from, a + b, i) == PoseBefore(a[|a| - 1].pose, b, j);
        assert WithinStep(sp, PoseBefore(a[|a| - 1].pose, b, j), b[j].pose, linear, angular);
      }
    }
  }

  /** Every tick of the plan of any chunk moves at most cap*dt from the tick before it (the first
      one from `last`), in position and in orientation. */
  lemma {:induction false} PlanSmooth(sp: Space, hz: real, caps: Caps, ws: seq<Waypoint>, from: Pose, last: Pose,
                                      index: nat)
    requires IsNorm(sp.norm) && IsEase(sp.ease, sp.peak) && 0.0 < hz && BothCapped(caps)
    requires last.pos == from.pos && SameTurn(sp, last.quat, from.quat) && SlerpsAlong(sp, ws, from)
    ensures Smooth(sp, last, Plan(sp, hz, caps, ws, from, index),
                   PerTick(caps.linear.value, 1.0 / hz), PerTick(caps.angular.value, 1.0 / hz))
    decreases ws
  {
    hide IsNorm, IsEase, SegmentTicks, PerTick, WithinStep, SlerpOk, SameTurn;
    if ws != [] {
      var to := TargetPose(from, ws[0]);
      var n := SegmentTicks(sp, hz, caps, from, to, ws[0].timing);
      var head := Segment(sp, from, to, n, index, ws[0].gripper);
      SegmentSmooth(sp, hz, caps, last, from, to, ws[0].timing, index, ws[0].gripper);
      PlanSmooth(sp, hz, caps, ws[1..], to, head[n - 1].pose, index + 1);
      SmoothConcat(sp, last, head, Plan(sp, hz, caps, ws[1..], to, index + 1),
                   PerTick(caps.linear.value, 1.0 / hz), PerTick(caps.angular.value, 1.0 / hz));
    }
  }

  lemma {:induction false} PlanSplit(sp: Space, hz: real, caps: Caps, ws: seq<Waypoint>, from: Pose, index: nat, j: nat)
    requires 0.0 < hz && j <= |ws|
    ensures Plan(sp, hz, caps, ws, from, index)
         == Plan(sp, hz, caps, ws[..j], from, index) + Plan(sp, hz, caps, ws[j..], PoseAfter(ws, from, j), index + j)
    decreases j
  {
    hide SegmentTicks, Segment;
    if j > 0 {
      PlanSplit(sp, hz, caps, ws[1..], TargetPose(from, ws[0]), index + 1, j - 1);
      PoseAfterTail(ws, from, j - 1);
      assert ws[..j][1..] == ws[1..][..j - 1] && ws[..j][0] == ws[0];
      assert ws[j..] == ws[1..][j - 1..];
    } else {
      assert ws[0..] == ws && ws[..0] == [];
    }
  }

  /** Each segment ends exactly on its waypoint, whatever the stretching: at its position, and with the
      whole slerp to its orientation done. */
  lemma SegmentsEndOnWaypoints(sp: Space, hz: real, caps: Caps, ws: seq<Waypoint>, from: Pose, index: nat, j: nat)
    requires IsEase(sp.ease, sp.peak) && 0.0 < hz && j < |ws|
    ensures var (end, was) := (|Plan(sp, hz, caps, ws[..j + 1], from, index)|, PoseAfter(ws, from, j));
      && 0 < end <= |Plan(sp, hz, caps, ws, from, index)|
      && Plan(sp, hz, caps, ws, from, index)[end - 1].pose
         == Pose(ws[j].position, sp.slerp(was.quat, TargetPose(was, ws[j]).quat, 1.0))
      && Plan(sp, hz, caps, ws, from, index)[end - 1].segment == index + j
  {
    hide SegmentTicks, Segment, IsEase, Plan, PoseAfter, Toward;
    var was, to := PoseAfter(ws, from, j), TargetPose(PoseAfter(ws, from, j), ws[j]);
    var n := SegmentTicks(sp, hz, caps, was, to, ws[j].timing);
    var last := Segment(sp, was, to, n, index + j, ws[j].gripper);
    PrefixPlan(sp, hz, caps, ws, from, index, j);
    PlanSplit(sp, hz, caps, ws, from, index, j + 1);
    SegmentEnd(sp, was, to, n, index + j, ws[j].gripper);
    EndOf(Plan(sp, hz, caps, ws[..j], from, index), last,
          Plan(sp, hz, caps, ws[j + 1..], PoseAfter(ws, from, j + 1), index + j + 1));
  }

  lemma PrefixPlan(sp: Space, hz: real, caps: Caps, ws: seq<Waypoint>, from: Pose, index: nat, j: nat)
    requires 0.0 < hz && j < |ws|
    ensures var was := PoseAfter(ws, from, j);
      var to := TargetPose(was, ws[j]);
      Plan(sp, hz, caps, ws[..j + 1], from, index)
      == Plan(sp, hz, caps, ws[..j], from, index)
         + Segment(sp, was, to, SegmentTicks(sp, hz, caps, was, to, ws[j].timing), index + j, ws[j].gripper)
  {
    hide SegmentTicks, Segment, Plan, PoseAfter;
    PlanSnoc(sp, hz, caps, ws[..j + 1], from, index);
    PoseAfterPrefix(ws, from, j, j + 1);
    assert ws[..j + 1][j] == ws[j] && ws[..j + 1][..j] == ws[..j];
  }

  lemma EndOf(a: seq<Tick>, b: seq<Tick>, c: seq<Tick>)
    requires b != []
    ensures (a + b + c)[|a + b| - 1] == b[|b| - 1]
  {}

  lemma SegmentEnd(sp: Space, from: Pose, to: Pose, n: nat, index: nat, grip: Option<GripperCommand>)
    requires IsEase(sp.ease, sp.peak) && 0 < n
    ensures var ticks := Segment(sp, from, to, n, index, grip);
      && |ticks| == n
      && ticks[n - 1].pose == Pose(to.pos, sp.slerp(from.quat, to.quat, 1.0)) && ticks[n - 1].segment == index
  {
    EaseEnd(sp.ease, sp.peak, n);
    TowardEnds(from.pos, to.pos);
    hide Toward;
  }

  /** A plan between points of a box stays in the box. */
  lemma {:induction false} PlanInBox(sp: Space, hz: real, caps: Caps, ws: seq<Waypoint>, from: Pose, index: nat,
                                     box: Box)
    requires IsEase(sp.ease, sp.peak) && 0.0 < hz
    requires box.Contains(from.pos) && forall w | w in ws :: box.Contains(w.position)
    ensures forall t | t in Plan(sp, hz, caps, ws, from, index) :: box.Contains(t.pose.pos)
    decreases ws
  {
    hide SegmentTicks, Box.Contains;
    if ws != [] {
      var to := TargetPose(from, ws[0]);
      var n := SegmentTicks(sp, hz, caps, from, to, ws[0].timing);
      var head := Segment(sp, from, to, n, index, ws[0].gripper);
      PlanInBox(sp, hz, caps, ws[1..], to, index + 1, box);
      forall k | 0 <= k < n ensures box.Contains(head[k].pose.pos) {
        EaseAt(sp.ease, sp.peak, k + 1, n);
        TowardStaysInside(box, from.pos, to.pos, sp.ease((k + 1) as real / n as real));
      }
    }
  }

  /** How ticks are laid out: offsets count up inside a segment, only the first tick of a segment
      can carry a command, and a segment is followed by the start of the next one. */
  predicate Laid(ticks: seq<Tick>, i: nat)
    requires i < |ticks|
  {
    var t := ticks[i];
    && 1 <= t.offset <= t.segmentTicks
    && (t.grip.Some? ==> t.offset == 1)
    && (i + 1 < |ticks| ==>
          var u := ticks[i + 1];
          if t.offset < t.segmentTicks
          then u.segment == t.segment && u.segmentTicks == t.segmentTicks && u.offset == t.offset + 1
          else u.segment == t.segment + 1 && u.offset == 1)
  }

  lemma {:induction false} PlanLaid(sp: Space, hz: real, caps: Caps, ws: seq<Waypoint>, from: Pose, index: nat)
    requires 0.0 < hz
    ensures var ticks := Plan(sp, hz, caps, ws, from, index);
      && (forall i | 0 <= i < |ticks| :: Laid(ticks, i))
      && (ws != [] ==> 0 < |ticks| && ticks[0].segment == index && ticks[0].offset == 1
                       && ticks[|ticks| - 1].offset == ticks[|ticks| - 1].segmentTicks)
    decreases ws
  {
    hide SegmentTicks, PoseAt;
    if ws != [] {
      var to := TargetPose(from, ws[0]);
      var n := SegmentTicks(sp, hz, caps, from, to, ws[0].timing);
      var head := Segment(sp, from, to, n, index, ws[0].gripper);
      PlanLaid(sp, hz, caps, ws[1..], to, index + 1);
      var rest := Plan(sp, hz, caps, ws[1..], to, index + 1);
      forall i | 0 <= i < |head + rest| ensures Laid(head + rest, i) {
        if i >= n {
          assert Laid(rest, i - n);
        }
      }
    }
  }
}
