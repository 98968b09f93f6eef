/** Expanding a chunk into one pose per control tick, time-stretched under the speed caps. */
module Interpolation {
  import opened Numbers
  import opened Geometry
  import opened Types

  /** One setpoint, with the segment it belongs to, that segment's length in ticks and its
      place in it (from 1). */
  datatype Tick = Tick(pose: Pose, grip: Option<GripperCommand>, segment: nat, segmentTicks: nat, offset: nat)

  /** Speed caps; `None` leaves the axis uncapped. */
  datatype Caps = Caps(linear: Option<real>, angular: Option<real>)

  function ResolveDuration(t: Timing, hz: real): real
    requires 0.0 < hz
  {
    match t
    case Duration(seconds) => seconds
    case Frames(n) => n as real / hz
  }

  /** The ticks a segment takes without any stretching. */
  function NominalTicks(t: Timing, hz: real): nat
    requires 0.0 < hz
  {
    RoundedTicks(ResolveDuration(t, hz), hz)
  }

  function RoundedTicks(seconds: real, hz: real): nat { MaxInt(1, Round(seconds * hz)) }

  /** The ticks a displacement needs so that even the fastest one stays under the cap. */
  function StretchedTicks(peak: real, distance: real, cap: Option<real>, dt: real): int
    requires 0.0 < dt
  {
    if cap.Some? && cap.value > 0.0 then TicksUnder(peak, distance, cap.value, dt) else 1
  }

  function TicksUnder(peak: real, distance: real, cap: real, dt: real): int
    requires 0.0 < cap && 0.0 < dt
  {
    MulNonZero(cap, dt);
    Ceil(peak * distance / (cap * dt))
  }

  lemma MulNonZero(a: real, b: real)
    requires 0.0 < a && 0.0 < b
    ensures 0.0 < a * b
  {
    CrossStrict(0.0, a, 0.0, b);
  }

  lemma TicksUnderAtMost(peak: real, distance: real, cap: real, dt: real, n: int)
    requires 0.0 < cap && 0.0 < dt
    ensures TicksUnder(peak, distance, cap, dt) <= n <==> peak * distance <= n as real * (cap * dt)
  {
    MulNonZero(cap, dt);
    var q, c := peak * distance, cap * dt;
    CeilAtMost(q / c, n);
    DivAtMost(q, n as real, c);
  }

  function SegmentTicks(sp: Space, hz: real, caps: Caps, from: Pose, to: Pose, t: Timing): (n: nat)
    requires 0.0 < hz
    ensures 0 < n
  {
    MaxInt(NominalTicks(t, hz),
           MaxInt(StretchedTicks(sp.peak, sp.norm(to.pos.Sub(from.pos)), caps.linear, 1.0 / hz),
                  StretchedTicks(sp.peak, sp.angle(from.quat, to.quat), caps.angular, 1.0 / hz)))
  }

  /** Where a segment of `n` ticks is after `k` of them. */
  function PoseAt(sp: Space, from: Pose, to: Pose, k: nat, n: nat): Pose
    requires 0 < n
  {
    var s := sp.ease(k as real / n as real);
    Pose(Toward(from.pos, to.pos, s), sp.slerp(from.quat, to.quat, s))
  }

  /** A waypoint without an orientation holds the previous one. */
  function TargetPose(from: Pose, w: Waypoint): Pose {
    Pose(w.position, if w.quaternion.Some? then w.quaternion.value else from.quat)
  }

  function Segment(sp: Space, from: Pose, to: Pose, n: nat, index: nat, grip: Option<GripperCommand>): seq<Tick>
    requires 0 < n
  {
    seq(n, k requires 0 <= k < n => Tick(PoseAt(sp, from, to, k + 1, n), if k == 0 then grip else None, index, n, k + 1))
  }

  /** The whole setpoint stream of the waypoints from `index` on, starting at `from`. */
  function Plan(sp: Space, hz: real, caps: Caps, ws: seq<Waypoint>, from: Pose, index: nat): seq<Tick>
    requires 0.0 < hz
  {
    if ws == [] then []
    else
      var to := TargetPose(from, ws[0]);
      Segment(sp, from, to, SegmentTicks(sp, hz, caps, from, to, ws[0].timing), index, ws[0].gripper)
      + Plan(sp, hz, caps, ws[1..], to, index + 1)
  }

  /** The target pose in force after the first `k` waypoints. */
  function PoseAfter(ws: seq<Waypoint>, from: Pose, k: nat): Pose
    requires k <= |ws|
  {
    if k == 0 then from else TargetPose(PoseAfter(ws, from, k - 1), ws[k - 1])
  }

  /** The target pose after some waypoints lies at the last of them, in the orientation of the last one that
      has an orientation, or in the first pose's. */
  lemma {:induction false} OrientationIsHeld(ws: seq<Waypoint>, from: Pose, k: nat, i: nat)
    requires i <= k <= |ws| && (0 < i ==> ws[i - 1].quaternion.Some?)
    requires forall j | i <= j < k :: ws[j].quaternion.None?
    ensures PoseAfter(ws, from, k).pos == if k == 0 then from.pos else ws[k - 1].position
    ensures PoseAfter(ws, from, k).quat == if i == 0 then from.quat else ws[i - 1].quaternion.value
  {
    if i < k { OrientationIsHeld(ws, from, k - 1, i); }
  }

  lemma {:induction false} PoseAfterTail(ws: seq<Waypoint>, from: Pose, k: nat)
    requires 0 < |ws| && k < |ws|
    ensures PoseAfter(ws[1..], TargetPose(from, ws[0]), k) == PoseAfter(ws, from, k + 1)
  {
    if k > 0 { PoseAfterTail(ws, from, k - 1); }
  }

  lemma {:induction false} PlanSnoc(sp: Space, hz: real, caps: Caps, ws: seq<Waypoint>, from: Pose, index: nat)
    requires 0.0 < hz && 0 < |ws|
    ensures var k := |ws| - 1;
      var was := PoseAfter(ws, from, k);
      var to := TargetPose(was, ws[k]);
      Plan(sp, hz, caps, ws, from, index)
      == Plan(sp, hz, caps, ws[..k], from, index)
         + Segment(sp, was, to, SegmentTicks(sp, hz, caps, was, to, ws[k].timing), index + k, ws[k].gripper)
  {
    hide SegmentTicks, Segment;
    var k := |ws| - 1;
    if k == 0 {
      assert ws[1..] == [] && ws[..k] == [];
    } else {
      PlanSnoc(sp, hz, caps, ws[1..], TargetPose(from, ws[0]), index + 1);
      PoseAfterTail(ws, from, k - 1);
      InnerSlice(ws, k);
    }
  }

  lemma InnerSlice(ws: seq<Waypoint>, k: nat)
    requires 0 < k <= |ws|
    ensures ws[1..][..k - 1] == ws[..k][1..] && ws[..k][0] == ws[0]
  {}

  lemma {:induction false} PoseAfterPrefix(ws: seq<Waypoint>, from: Pose, k: nat, n: nat)
    requires k <= n <= |ws|
    ensures PoseAfter(ws[..n], from, k) == PoseAfter(ws, from, k)
  {
    if k > 0 { PoseAfterPrefix(ws, from, k - 1, n); }
  }

  /** The generator. Its fields say which segment is being interpolated. */
  class CartesianChunkInterpolator {
    const sp: Space
    const waypoints: seq<Waypoint>
    const start: Pose
    const hz: real
    const caps: Caps
    var currentSegment: nat
    var currentSegmentTicks: nat

    constructor (sp: Space, waypoints: seq<Waypoint>, start: Pose, hz: real, caps: Caps)
      ensures this.sp == sp && this.waypoints == waypoints && this.start == start && this.hz == hz && this.caps == caps
    {
      this.sp, this.waypoints, this.start, this.hz, this.caps := sp, waypoints, start, hz, caps;
      currentSegment, currentSegmentTicks := 0, 1;
    }

    method TicksFor(from: Pose, to: Pose, t: Timing) returns (n: nat)
      requires 0.0 < hz
      ensures n == SegmentTicks(sp, hz, caps, from, to, t)
    {
      hide Round, Ceil, StretchedTicks, ResolveDuration;
      n := NominalTicks(t, hz);
      var distance := sp.norm(to.pos.Sub(from.pos));
      if caps.linear.Some? && caps.linear.value > 0.0 {
        n := MaxInt(n, StretchedTicks(sp.peak, distance, caps.linear, 1.0 / hz));
      } else {
        Unstretched(sp.peak, distance, caps.linear, 1.0 / hz);
      }
      var turn := sp.angle(from.quat, to.quat);
      if caps.angular.Some? && caps.angular.value > 0.0 {
        n := MaxInt(n, StretchedTicks(sp.peak, turn, caps.angular, 1.0 / hz));
      } else {
        Unstretched(sp.peak, turn, caps.angular, 1.0 / hz);
      }
    }

    method Interpolate(from: Pose, w: Waypoint, to: Pose, n: nat) returns (ticks: seq<Tick>)
      requires 0 < n
      ensures ticks == Segment(sp, from, to, n, currentSegment, w.gripper)
    {
      hide PoseAt;
      ticks := [];
      for k := 1 to n + 1
        invariant ticks == Segment(sp, from, to, n, currentSegment, w.gripper)[..k - 1]
      {
        var s := sp.ease(k as real / n as real);
        var pose := Pose(Toward(from.pos, to.pos, s), sp.slerp(from.quat, to.quat, s));
        var grip := if k == 1 then w.gripper else None;
        EasedPose(sp, from, to, k, n, s);
        ticks := ticks + [Tick(pose, grip, currentSegment, n, k)];
      }
    }

    method Setpoints() returns (ticks: seq<Tick>)
      requires 0.0 < hz
      modifies this`currentSegment, this`currentSegmentTicks
      ensures ticks == Plan(sp, hz, caps, waypoints, start, 0)
      ensures waypoints != [] ==> currentSegment == |waypoints| - 1
    {
      hide SegmentTicks, Segment;
      ticks := [];
      var prev := start;
      for i := 0 to |waypoints|
        invariant prev == PoseAfter(waypoints, start, i)
        invariant ticks == Plan(sp, hz, caps, waypoints[..i], start, 0)
        invariant 0 < i ==> currentSegment == i - 1
      {
        currentSegment := i;
        var w := waypoints[i];
        var to := Pose(w.position, if w.quaternion.Some? then w.quaternion.value else prev.quat);
        currentSegmentTicks := TicksFor(prev, to, w.timing);
        var segment := Interpolate(prev, w, to, currentSegmentTicks);
        ticks := ticks + segment;
        assert waypoints[..i + 1][..i] == waypoints[..i];
        PoseAfterPrefix(waypoints, start, i, i + 1);
        PlanSnoc(sp, hz, caps, waypoints[..i + 1], start, 0);
        prev := to;
      }
      assert waypoints[..|waypoints|] == waypoints;
    }
  }

  lemma Unstretched(peak: real, distance: real, cap: Option<real>, dt: real)
    requires 0.0 < dt && !(cap.Some? && cap.value > 0.0)
    ensures StretchedTicks(peak, distance, cap, dt) == 1
  {}

  lemma EasedPose(sp: Space, from: Pose, to: Pose, k: nat, n: nat, s: real)
    requires 0 < n && s == sp.ease(k as real / n as real)
    ensures Pose(Toward(from.pos, to.pos, s), sp.slerp(from.quat, to.quat, s)) == PoseAt(sp, from, to, k, n)
  {}
}
