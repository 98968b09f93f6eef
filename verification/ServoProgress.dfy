/** The servo loop gets there: a constant target is reached in as many ticks as the step cap makes
    necessary, counted from the first tick begun after it was published. */
module ServoProgress {
  import opened Numbers
  import opened Geometry
  import opened Types
  import opened SafetyFilters
  import opened FilterTraces
  import opened JointExecution
  import opened ServoLoops
  import opened ServoTraces
  import opened ServoPublishing

  // Over the history of a run.

  /** Nothing keeps the tick from following: no fault, and state and command in time. */
  predicate InTime(p: Profile, v: View) {
    && !v.faulted
    && !(p.stopOnStaleState && v.stateAgeMs > p.stateTimeoutMs)
    && !(p.stopOnStaleCommand && v.snap.age > p.commandTimeoutMs / 1000.0)
  }

  /** What the loop is to follow. */
  datatype Goal = ToPose(pose: Pose) | ToJoints(q: seq<real>)

  predicate Sees(v: View, goal: Goal) {
    match goal
    case ToPose(pose) => v.snap.cartesian && v.snap.pose == Some(pose)
    case ToJoints(q) => !v.snap.cartesian && v.snap.q == Some(q)
  }

  /** The write of a tick in time that saw the goal under a tolerable wrench. */
  predicate Follows(p: Profile, e: Entry, goal: Goal) {
    && e.Ours? && !e.write.Crashed? && InTime(p, e.view) && Sees(e.view, goal)
    && Within(e.view.s.wrench, p.maxContactWrench)
  }

  /** The last `n` entries of the history follow the goal. */
  predicate FollowsFor(p: Profile, history: seq<Entry>, goal: Goal, n: nat) {
    n <= |history| && forall k | |history| - n <= k < |history| :: Follows(p, history[k], goal)
  }

  ghost predicate AllOk(c: Config, start: RobotState, history: seq<Entry>) {
    forall k | 0 <= k < |history| :: EntryOk(c, start, history, k)
  }

  lemma OkBefore(c: Config, start: RobotState, history: seq<Entry>, n: nat)
    requires AllOk(c, start, history) && n <= |history|
    ensures AllOk(c, start, history[..n])
  {
    hide EntryOk;
    forall k | 0 <= k < n ensures EntryOk(c, start, history[..n], k) {
      OkAt(c, start, history, n, k);
    }
  }

  lemma OkAt(c: Config, start: RobotState, history: seq<Entry>, n: nat, k: nat)
    requires k < n <= |history| && EntryOk(c, start, history, k)
    ensures EntryOk(c, start, history[..n], k)
  {
    hide RightKind, LiveOk, LiveJointsOk, PoseReference, JointReference;
    assert history[..n][..k] == history[..k];
  }

  lemma FollowsBefore(p: Profile, history: seq<Entry>, goal: Goal, n: nat)
    requires 0 < n && FollowsFor(p, history, goal, n)
    ensures var k := |history| - 1;
      && FollowsFor(p, history[..k], goal, n - 1) && Follows(p, history[k], goal)
      && history[..k][..k - (n - 1)] == history[..|history| - n]
  {
    hide Follows;
  }

  ghost predicate Capped(c: Config) {
    SaneConfig(c) && c.p.maxLinearAccel == None && c.dt >= TINY && StepCap(c.p, c.dt) >= TINY
  }

  /** One tick that follows a Cartesian target in the box writes live, with the gripper command it saw, and
      one full step nearer. */
  lemma FollowedStep(c: Config, ref: Pose, e: Entry, pose: Pose)
    requires Capped(c) && Inflate(c.p.box).Contains(pose.pos) && Follows(c.p, e, ToPose(pose))
    requires RightKind(c.p, e.view, e.write) && LiveOk(c, ref, e.view, e.write)
    ensures e.write.Live? && e.write.gripper == e.view.snap.gripper
    ensures var gap := c.sp.norm(pose.pos.Sub(ref.pos));
      c.sp.norm(pose.pos.Sub(e.write.pose.pos)) == gap - Min(gap, StepCap(c.p, c.dt))
  {
    hide Inflate, StepCap, IsNorm, Within, NoFarther, WithinLimits, Vec.Sub, AfterBox, Box.Contains;
    BoxedIsInflated(c.p, pose.pos);
  }

  /** A constant Cartesian target in the box is approached by exactly one step cap per tick that
      follows it. */
  lemma {:induction false} FollowedGap(c: Config, start: RobotState, history: seq<Entry>, pose: Pose, n: nat)
    requires Capped(c) && Inflate(c.p.box).Contains(pose.pos)
    requires AllOk(c, start, history) && FollowsFor(c.p, history, ToPose(pose), n)
    ensures forall k | |history| - n <= k < |history| ::
      history[k].write.Live? && history[k].write.gripper == history[k].view.snap.gripper
    ensures c.sp.norm(pose.pos.Sub(PoseReference(start, history).pos))
         == Left(c.sp.norm(pose.pos.Sub(PoseReference(start, history[..|history| - n]).pos)), StepCap(c.p, c.dt), n)
    decreases n
  {
    if n == 0 {
      assert history[..|history|] == history;
      NonNegGap(c, pose.pos, PoseReference(start, history).pos);
      LeftAtStart(c.sp.norm(pose.pos.Sub(PoseReference(start, history).pos)), StepCap(c.p, c.dt));
    } else {
      hide Capped, Follows, EntryOk, StepCap, Left, Inflate, Vec.Sub;
      var k := |history| - 1;
      OkBefore(c, start, history, k);
      FollowsBefore(c.p, history, ToPose(pose), n);
      FollowedGap(c, start, history[..k], pose, n - 1);
      assert EntryOk(c, start, history, k);
      FollowedEntry(c, start, history, pose);
      var first := PoseReference(start, history[..|history| - n]).pos;
      NonNegGap(c, pose.pos, first);
      LeftNext(c.sp.norm(pose.pos.Sub(first)), StepCap(c.p, c.dt), n - 1);
      forall j | |history| - n <= j < |history|
        ensures history[j].write.Live? && history[j].write.gripper == history[j].view.snap.gripper
      {
        if j < k { assert history[..k][j] == history[j]; }
      }
    }
  }

  lemma NonNegGap(c: Config, a: Vec, b: Vec)
    requires Capped(c)
    ensures 0.0 <= c.sp.norm(a.Sub(b)) && 0.0 <= StepCap(c.p, c.dt)
  {
    NormNonNeg(c.sp.norm, a.Sub(b));
  }

  lemma FollowedEntry(c: Config, start: RobotState, history: seq<Entry>, pose: Pose)
    requires Capped(c) && Inflate(c.p.box).Contains(pose.pos) && history != []
    requires var k := |history| - 1; EntryOk(c, start, history, k) && Follows(c.p, history[k], ToPose(pose))
    ensures var k := |history| - 1;
      && history[k].Ours? && history[k].write.Live? && history[k].write.gripper == history[k].view.snap.gripper
      && var gap := c.sp.norm(pose.pos.Sub(PoseReference(start, history[..k]).pos));
         c.sp.norm(pose.pos.Sub(PoseReference(start, history).pos)) == gap - Min(gap, StepCap(c.p, c.dt))
  {
    hide Capped, RightKind, LiveOk, LiveJointsOk, StepCap, Inflate, Vec.Sub, Within, InTime;
    var k := |history| - 1;
    FollowedStep(c, PoseReference(start, history[..k]), history[k], pose);
  }

  /** ... so it is reached within ceil(distance / step cap) such ticks. */
  lemma FollowedTargetIsReached(c: Config, start: RobotState, history: seq<Entry>, pose: Pose, n: nat)
    requires Capped(c) && Inflate(c.p.box).Contains(pose.pos)
    requires AllOk(c, start, history) && FollowsFor(c.p, history, ToPose(pose), n)
    ensures var d := c.sp.norm(pose.pos.Sub(PoseReference(start, history[..|history| - n]).pos));
      && c.sp.norm(pose.pos.Sub(PoseReference(start, history).pos)) == Left(d, StepCap(c.p, c.dt), n)
      && (n >= Ceil(d / StepCap(c.p, c.dt)) ==> PoseReference(start, history).pos == pose.pos)
  {
    FollowedGap(c, start, history, pose, n);
    var d := c.sp.norm(pose.pos.Sub(PoseReference(start, history[..|history| - n]).pos));
    hide AllOk, FollowsFor, Inflate, StepCap, IsNorm, Vec.Sub, PoseReference, SaneCaps;
    NothingLeft(d, StepCap(c.p, c.dt), n);
    hide Left, Ceil;
    if n >= Ceil(d / StepCap(c.p, c.dt)) { SamePoint(c.sp.norm, pose.pos, PoseReference(start, history).pos); }
  }

  /** A constant joint target in range is approached, joint by joint, by exactly one step cap per tick that
      follows it. */
  lemma {:induction false} FollowedJointGap(c: Config, start: RobotState, history: seq<Entry>, q: seq<real>, n: nat, i: nat)
    requires SaneConfig(c) && AllOk(c, start, history) && FollowsFor(c.p, history, ToJoints(q), n)
    requires i < |q| == |c.p.jointLower| == |JointReference(start, history[..|history| - n])| && InSlack(c.p, q)
    ensures forall k | |history| - n <= k < |history| :: history[k].write.LiveJoints?
    ensures |JointReference(start, history)| == |q|
    ensures Abs(q[i] - JointReference(start, history)[i])
         == Left(Abs(q[i] - JointReference(start, history[..|history| - n])[i]), JointStepCap(c.p, c.dt), n)
    decreases n
  {
    if n == 0 {
      assert history[..|history|] == history;
      AbsNonNeg(q[i] - JointReference(start, history)[i]);
      LeftAtStart(Abs(q[i] - JointReference(start, history)[i]), JointStepCap(c.p, c.dt));
    } else {
      hide SaneConfig, Follows, EntryOk, JointStepCap, Left, InSlack, Abs;
      var k := |history| - 1;
      OkBefore(c, start, history, k);
      FollowsBefore(c.p, history, ToJoints(q), n);
      FollowedJointGap(c, start, history[..k], q, n - 1, i);
      assert EntryOk(c, start, history, k);
      FollowedJointEntry(c, start, history, q, i);
      var d := Abs(q[i] - JointReference(start, history[..|history| - n])[i]);
      AbsNonNeg(q[i] - JointReference(start, history[..|history| - n])[i]);
      JointCapNonNeg(c);
      LeftNext(d, JointStepCap(c.p, c.dt), n - 1);
      forall j | |history| - n <= j < |history| ensures history[j].write.LiveJoints? {
        if j < k { assert history[..k][j] == history[j]; }
      }
    }
  }

  lemma JointCapNonNeg(c: Config)
    requires SaneConfig(c)
    ensures 0.0 <= JointStepCap(c.p, c.dt)
  {
    hide IsNorm, SaneCaps;
    CapNonNeg(c.p, c.dt);
  }

  lemma FollowedJointEntry(c: Config, start: RobotState, history: seq<Entry>, q: seq<real>, i: nat)
    requires SaneConfig(c) && history != [] && i < |q| == |c.p.jointLower| && InSlack(c.p, q)
    requires var k := |history| - 1; EntryOk(c, start, history, k) && Follows(c.p, history[k], ToJoints(q))
    requires |JointReference(start, history[..|history| - 1])| == |q|
    ensures var k := |history| - 1;
      && history[k].Ours? && history[k].write.LiveJoints? && |JointReference(start, history)| == |q|
      && var gap := Abs(q[i] - JointReference(start, history[..k])[i]);
         Abs(q[i] - JointReference(start, history)[i]) == gap - Min(gap, JointStepCap(c.p, c.dt))
  {
    hide IsNorm, SaneCaps, LiveOk, Within, JointsNoFarther, JointStepCap, JointBox, InSlack, Abs;
    var k := |history| - 1;
    UnchangedInSlack(c.p, q);
    var e := history[k];
    assert e.write.LiveJoints? && JointBox(c.p, q) == q;
    assert Abs(JointBox(c.p, q)[i] - e.write.q[i])
        == Max(0.0, Abs(q[i] - JointReference(start, history[..k])[i]) - JointStepCap(c.p, c.dt));
    assert JointReference(start, history) == e.write.q;
  }

  /** ... so every joint is there within ceil(distance / step cap) such ticks. */
  lemma FollowedJointsAreReached(c: Config, start: RobotState, history: seq<Entry>, q: seq<real>, n: nat, i: nat)
    requires SaneConfig(c) && AllOk(c, start, history) && FollowsFor(c.p, history, ToJoints(q), n)
    requires i < |q| == |c.p.jointLower| == |JointReference(start, history[..|history| - n])| && InSlack(c.p, q)
    requires 0.0 < JointStepCap(c.p, c.dt)
    ensures |JointReference(start, history)| == |q|
    ensures var d := Abs(q[i] - JointReference(start, history[..|history| - n])[i]);
      && Abs(q[i] - JointReference(start, history)[i]) == Left(d, JointStepCap(c.p, c.dt), n)
      && (n >= Ceil(d / JointStepCap(c.p, c.dt)) ==> JointReference(start, history)[i] == q[i])
  {
    FollowedJointGap(c, start, history, q, n, i);
    var d := Abs(q[i] - JointReference(start, history[..|history| - n])[i]);
    hide AllOk, FollowsFor, InSlack, JointStepCap, SaneConfig, JointReference;
    NothingLeft(d, JointStepCap(c.p, c.dt), n);
    hide Left, Ceil;
  }

  lemma NothingLeft(d: real, cap: real, n: nat)
    requires 0.0 < cap
    ensures n >= Ceil(d / cap) <==> Left(d, cap, n) == 0.0
  {
    CeilAtMost(d / cap, n);
    DivAtMost(d, n as real, cap);
  }

  // From the moment of publication.

  /** The event that publishes a goal. */
  function Publication(goal: Goal, gripper: Option<GripperCommand>, now: real): Event {
    match goal
    case ToPose(pose) => SetPose(pose, gripper, now)
    case ToJoints(q) => SetJoints(q, now)
  }

  predicate StateInTime(p: Profile, s: RobotState, ageMs: real) {
    !(p.stopOnStaleState && ageMs > p.stateTimeoutMs) && Within(s.wrench, p.maxContactWrench)
  }

  /** Nothing comes in between: the loop stays installed, every measurement is in time and tolerable, and
      every look at the buffer comes before the command of time `stamp` has grown stale. */
  predicate Calm(p: Profile, stamp: real, e: Event) {
    match e
    case Measure(s, ageMs) => StateInTime(p, s, ageMs)
    case LookUp(now, faulted) => !faulted && !(p.stopOnStaleCommand && now - stamp > p.commandTimeoutMs / 1000.0)
    case Remove => false
    case _ => !e.Publishes()
  }

  predicate AllCalm(p: Profile, stamp: real, events: seq<Event>) {
    forall i | 0 <= i < |events| :: Calm(p, stamp, events[i])
  }

  predicate Stands(goal: Goal, w: World) {
    match goal
    case ToPose(pose) => ManualStands(pose, None, w)
    case ToJoints(q) => JointsStand(q, None, w)
  }

  /** What the tick under way has gathered will make it follow the goal. */
  predicate Gathered(p: Profile, goal: Goal, phase: Phase) {
    match phase
    case Measured(s, ageMs) => StateInTime(p, s, ageMs)
    case Taken(s, ageMs, _) => StateInTime(p, s, ageMs)
    case Refreshed(s, ageMs) => StateInTime(p, s, ageMs)
    case Looked(v) => InTime(p, v) && Sees(v, goal) && Within(v.s.wrench, p.maxContactWrench)
    case _ => true
  }

  /** `base` entries belong to ticks begun before the publication, `owed` of them still to come. */
  predicate Following(p: Profile, goal: Goal, stamp: real, base: nat, owed: nat, acts: nat, x: World) {
    && x.installed && Stands(goal, x) && x.buffer.stamp == stamp
    && |x.history| + owed == base + acts
    && (if acts < owed then Owed(x.phase) == 1 else Gathered(p, goal, x.phase))
    && forall k | base <= k < |x.history| ::
         var e := x.history[k];
         e.Ours? && InTime(p, e.view) && Sees(e.view, goal) && Within(e.view.s.wrench, p.maxContactWrench)
  }

  lemma StepFollows(c: Config, w: World, e: Event, goal: Goal, stamp: real, base: nat, owed: nat, acts: nat)
    requires Fits(c.p, w) && Enabled(c, w, e) && Calm(c.p, stamp, e) && owed <= 1
    requires Following(c.p, goal, stamp, base, owed, acts, w)
    ensures Following(c.p, goal, stamp, base, owed, acts + if e.Act? then 1 else 0, Do(c, w, e))
  {
    hide Decide, Within;
    StepStands(c, w, e, goal);
    hide ManualStands, JointsStand;
    LookSees(c, w, e, goal);
    hide Stands;
  }

  lemma StepStands(c: Config, w: World, e: Event, goal: Goal)
    requires Fits(c.p, w) && Enabled(c, w, e) && !e.Publishes() && Stands(goal, w)
    ensures Stands(goal, Do(c, w, e))
  {
    hide Do, Fits, Enabled, ManualStands, JointsStand;
    match goal
    case ToPose(pose) => InternalKeepsManual(c, w, e, pose, None);
    case ToJoints(q) => InternalKeepsJoints(c, w, e, q, None);
  }

  lemma LookSees(c: Config, w: World, e: Event, goal: Goal)
    requires Fits(c.p, w) && Enabled(c, w, e) && Stands(goal, w)
    ensures e.LookUp? ==> Sees(Do(c, w, e).phase.view, goal) && Do(c, w, e).phase.view.snap.age == e.now - w.buffer.stamp
    ensures !e.Publishes() ==> Do(c, w, e).buffer.stamp == w.buffer.stamp
  {
    hide Decide;
  }

  lemma {:induction false} RunFollows(c: Config, w: World, goal: Goal, gripper: Option<GripperCommand>, now: real,
                                      events: seq<Event>)
    requires Fits(c.p, w) && w.installed && Caught(w).None? && Enabled(c, w, Publication(goal, gripper, now))
    requires Feasible(c, Do(c, w, Publication(goal, gripper, now)), events) && AllCalm(c.p, now, events)
    ensures Following(c.p, goal, now, |w.history| + Owed(w.phase), Owed(w.phase), Acts(events),
                      Ends(c, Do(c, w, Publication(goal, gripper, now)), events))
    decreases |events|
  {
    hide Do, Following, Calm, Publication, Enabled, Fits, Caught, Owed;
    if events == [] {
      PublicationFollows(c, w, goal, gripper, now);
    } else {
      var n := |events| - 1;
      assert forall i | 0 <= i < n :: events[..n][i] == events[i];
      OwedIsOne(w.phase);
      RunFollows(c, w, goal, gripper, now, events[..n]);
      StepFollows(c, Ends(c, Do(c, w, Publication(goal, gripper, now)), events[..n]), events[n], goal, now,
                  |w.history| + Owed(w.phase), Owed(w.phase), Acts(events[..n]));
    }
  }

  lemma OwedIsOne(phase: Phase)
    ensures Owed(phase) <= 1
  {}

  lemma PublicationFollows(c: Config, w: World, goal: Goal, gripper: Option<GripperCommand>, now: real)
    requires Fits(c.p, w) && w.installed && Caught(w).None? && Enabled(c, w, Publication(goal, gripper, now))
    ensures Following(c.p, goal, now, |w.history| + Owed(w.phase), Owed(w.phase), 0,
                      Do(c, w, Publication(goal, gripper, now)))
  {}

  lemma {:induction false} InvAlong(c: Config, start: RobotState, w: World, events: seq<Event>)
    requires SaneConfig(c) && Fits(c.p, w) && Feasible(c, w, events) && ServoInv(c, start, w)
    ensures ServoInv(c, start, Ends(c, w, events))
    decreases |events|
  {
    hide SaneConfig, Do, Fits, Enabled, ServoInv;
    if events != [] {
      var n := |events| - 1;
      InvAlong(c, start, w, events[..n]);
      StepKeepsInv(c, start, Ends(c, w, events[..n]), events[n]);
    }
  }

  /** In any state a run reaches, with no chunk setpoint caught: once a goal is published and nothing
      comes in between, every tick begun from then on follows it. */
  lemma PublishedGoalIsFollowed(c: Config, start: RobotState, w: World, goal: Goal, gripper: Option<GripperCommand>,
                                now: real, events: seq<Event>)
    requires SaneConfig(c) && Fits(c.p, w) && ServoInv(c, start, w) && w.installed && Caught(w).None?
    requires Enabled(c, w, Publication(goal, gripper, now))
    requires Feasible(c, Do(c, w, Publication(goal, gripper, now)), events) && AllCalm(c.p, now, events)
    requires Acts(events) >= Owed(w.phase)
    ensures var history := Ends(c, Do(c, w, Publication(goal, gripper, now)), events).history;
      && AllOk(c, start, history)
      && |history| == |w.history| + Acts(events)
      && FollowsFor(c.p, history, goal, Acts(events) - Owed(w.phase))
  {
    hide SaneConfig, Do, Fits, Enabled, Ends, Feasible, ServoInv, Following, Publication, Caught, AllCalm, AllOk, FollowsFor;
    var e := Publication(goal, gripper, now);
    StepKeepsInv(c, start, w, e);
    InvAlong(c, start, Do(c, w, e), events);
    RunFollows(c, w, goal, gripper, now, events);
    FollowingMeans(c, start, Ends(c, Do(c, w, e), events), goal, now, |w.history| + Owed(w.phase), Owed(w.phase), Acts(events));
  }

  lemma FollowingMeans(c: Config, start: RobotState, w: World, goal: Goal, stamp: real, base: nat, owed: nat, acts: nat)
    requires ServoInv(c, start, w) && Following(c.p, goal, stamp, base, owed, acts, w) && owed <= acts
    ensures AllOk(c, start, w.history) && |w.history| == base - owed + acts && FollowsFor(c.p, w.history, goal, acts - owed)
  {
    hide EntryOk, Remembers, Stands, Gathered, InTime, Sees, Within;
  }

  /** A Cartesian target in the box, published while the loop runs, is reached within ceil(distance / step
      cap) ticks begun after its publication, the distance being counted from where the last tick before
      them left the command. */
  lemma PublishedTargetIsReached(c: Config, start: RobotState, w: World, pose: Pose, gripper: Option<GripperCommand>,
                                 now: real, events: seq<Event>)
    requires Capped(c) && Fits(c.p, w) && ServoInv(c, start, w) && w.installed && Caught(w).None?
    requires Inflate(c.p.box).Contains(pose.pos)
    requires Feasible(c, Do(c, w, SetPose(pose, gripper, now)), events) && AllCalm(c.p, now, events)
    requires Acts(events) >= Owed(w.phase)
    ensures var history := Ends(c, Do(c, w, SetPose(pose, gripper, now)), events).history;
      var n := Acts(events) - Owed(w.phase);
      && n <= |history|
      && var d := c.sp.norm(pose.pos.Sub(PoseReference(start, history[..|history| - n]).pos));
         && c.sp.norm(pose.pos.Sub(PoseReference(start, history).pos)) == Left(d, StepCap(c.p, c.dt), n)
         && (n >= Ceil(d / StepCap(c.p, c.dt)) ==> PoseReference(start, history).pos == pose.pos)
  {
    PublishedGoalIsFollowed(c, start, w, ToPose(pose), gripper, now, events);
    var history := Ends(c, Do(c, w, SetPose(pose, gripper, now)), events).history;
    var n := Acts(events) - Owed(w.phase);
    hide Capped, Do, Fits, Ends, Feasible, ServoInv, AllOk, AllCalm, Follows, Inflate, StepCap, Left, Vec.Sub;
    CapPositive(c);
    FollowedTargetIsReached(c, start, history, pose, n);
  }

  lemma CapPositive(c: Config)
    requires Capped(c)
    ensures StepCap(c.p, c.dt) > 0.0
  {}

  /** The joint command before a tick that follows a joint target, and the one a world remembers, have one
      entry per joint. */
  lemma JointsBeforeFollowing(c: Config, start: RobotState, history: seq<Entry>, q: seq<real>, n: nat)
    requires AllOk(c, start, history) && FollowsFor(c.p, history, ToJoints(q), n) && 0 < n
    ensures |JointReference(start, history[..|history| - n])| == |c.p.jointLower|
  {
    hide JointReference, LiveOk, Within, JointsNoFarther, JointStepCap, JointBox, Abs;
    var k := |history| - n;
    assert EntryOk(c, start, history, k) && Follows(c.p, history[k], ToJoints(q));
  }

  lemma JointsRemembered(c: Config, start: RobotState, w: World)
    requires Fits(c.p, w) && ServoInv(c, start, w) && w.installed
    ensures |JointReference(start, w.history)| == |c.p.jointLower|
  {
    hide EntryOk, Moving, PoseReference, JointReference;
  }

  lemma FollowedJointsSized(c: Config, start: RobotState, w: World, q: seq<real>, now: real, events: seq<Event>)
    requires SaneConfig(c) && Fits(c.p, w) && ServoInv(c, start, w) && w.installed && Caught(w).None?
    requires |q| == |c.p.jointLower| && Feasible(c, Do(c, w, SetJoints(q, now)), events) && AllCalm(c.p, now, events)
    requires Acts(events) >= Owed(w.phase)
    ensures var history := Ends(c, Do(c, w, SetJoints(q, now)), events).history;
      var n := Acts(events) - Owed(w.phase);
      && AllOk(c, start, history) && FollowsFor(c.p, history, ToJoints(q), n)
      && |JointReference(start, history[..|history| - n])| == |q|
  {
    hide SaneConfig, Do, Ends, Feasible, Fits, ServoInv, AllOk, FollowsFor, JointReference, Following, AllCalm, Caught, Acts,
      Owed, Enabled;
    var e := SetJoints(q, now);
    assert Enabled(c, w, e) by { JointsMayCome(c, w, q, now); }
    var end := Ends(c, Do(c, w, e), events);
    var history, n := end.history, Acts(events) - Owed(w.phase);
    PublishedGoalIsFollowed(c, start, w, ToJoints(q), None, now, events);
    StepKeepsInv(c, start, w, e);
    InvAlong(c, start, Do(c, w, e), events);
    RunFollows(c, w, ToJoints(q), None, now, events);
    if n > 0 {
      JointsBeforeFollowing(c, start, history, q, n);
    } else {
      StaysInstalled(c, ToJoints(q), now, |w.history| + Owed(w.phase), Owed(w.phase), Acts(events), end);
      JointsRemembered(c, start, end);
      assert history[..|history|] == history;
    }
  }

  lemma JointsMayCome(c: Config, w: World, q: seq<real>, now: real)
    requires |q| == |c.p.jointLower|
    ensures Enabled(c, w, SetJoints(q, now))
  {}

  lemma StaysInstalled(c: Config, goal: Goal, stamp: real, base: nat, owed: nat, acts: nat, x: World)
    requires Following(c.p, goal, stamp, base, owed, acts, x)
    ensures x.installed
  {}

  /** The same for a joint target in range, joint by joint. */
  lemma PublishedJointsAreReached(c: Config, start: RobotState, w: World, q: seq<real>, now: real, events: seq<Event>, i: nat)
    requires SaneConfig(c) && Fits(c.p, w) && ServoInv(c, start, w) && w.installed && Caught(w).None?
    requires i < |q| == |c.p.jointLower| && InSlack(c.p, q) && 0.0 < JointStepCap(c.p, c.dt)
    requires Feasible(c, Do(c, w, SetJoints(q, now)), events) && AllCalm(c.p, now, events)
    requires Acts(events) >= Owed(w.phase)
    ensures var history := Ends(c, Do(c, w, SetJoints(q, now)), events).history;
      var n := Acts(events) - Owed(w.phase);
      && n <= |history| && |JointReference(start, history)| == |JointReference(start, history[..|history| - n])| == |q|
      && var d := Abs(q[i] - JointReference(start, history[..|history| - n])[i]);
         && Abs(q[i] - JointReference(start, history)[i]) == Left(d, JointStepCap(c.p, c.dt), n)
         && (n >= Ceil(d / JointStepCap(c.p, c.dt)) ==> JointReference(start, history)[i] == q[i])
  {
    hide SaneConfig, Do, Fits, Ends, Feasible, ServoInv, AllOk, AllCalm, Follows, JointStepCap, Left, InSlack, Abs, Owed,
      Caught, JointReference, Acts, Ceil;
    FollowedJointsSized(c, start, w, q, now, events);
    FollowedJointsAreReached(c, start, Ends(c, Do(c, w, SetJoints(q, now)), events).history, q, Acts(events) - Owed(w.phase), i);
  }

  /** Such runs exist: from any started loop, publish a pose and let one tick pass. */
  lemma FollowingHappens(c: Config, start: RobotState, w: World, s: RobotState, pose: Pose)
    requires Started(c, start, w) && s.mode == w.mode && |s.q| == |c.p.jointLower|
    requires Within(s.wrench, c.p.maxContactWrench) && 0.0 <= c.p.stateTimeoutMs && 0.0 <= c.p.commandTimeoutMs
    ensures Caught(w).None?
    ensures var events := [Measure(s, 0.0)] + [Take] + [LookUp(0.0, false)] + [Act];
      && Feasible(c, Do(c, w, SetPose(pose, None, 0.0)), events) && AllCalm(c.p, 0.0, events)
      && Acts(events) == 1 && Owed(w.phase) == 0
  {
    hide Decide, Within;
    var w' := Do(c, w, SetPose(pose, None, 0.0));
    Extend(c, w', [], Measure(s, 0.0));
    assert [] + [Measure(s, 0.0)] == [Measure(s, 0.0)];
    Extend(c, w', [Measure(s, 0.0)], Take);
    Extend(c, w', [Measure(s, 0.0)] + [Take], LookUp(0.0, false));
    Extend(c, w', [Measure(s, 0.0)] + [Take] + [LookUp(0.0, false)], Act);
    OneAct([Measure(s, 0.0)] + [Take] + [LookUp(0.0, false)]);
  }

  lemma OneAct(events: seq<Event>)
    requires |events| == 3 && !events[0].Act? && !events[1].Act? && !events[2].Act?
    ensures Acts(events + [Act]) == 1
  {
    assert (events + [Act])[..3] == events;
    assert events[..2][..1] == events[..1] && events[..1][..0] == [];
    assert Acts(events[..1]) == 0 && Acts(events[..2]) == 0;
  }
}
