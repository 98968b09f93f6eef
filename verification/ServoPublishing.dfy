/** What a published target comes to: the age the watchdog sees, preemption, and the playing of
    enqueued chunks, in every interleaving with the loop's steps. */
module ServoPublishing {
  import opened Numbers
  import opened Geometry
  import opened Types
  import opened SafetyFilters
  import opened Interpolation
  import opened ServoLoops
  import opened ServoTraces

  // The watchdog's clock.

  /** The setpoint the loop is about to publish from an iterator it has already taken. */
  function Caught(w: World): Option<Tick>
    requires w.phase.Taken? ==> w.phase.it < |w.buffer.iters|
  {
    if w.phase.Taken? && w.buffer.iters[w.phase.it] != [] then Some(w.buffer.iters[w.phase.it][0]) else None
  }

  /** When the last command came in: a published target or chunk, or a setpoint the loop pulled. */
  ghost function LastCommandAt(c: Config, w: World, events: seq<Event>): real
    requires Fits(c.p, w) && Feasible(c, w, events)
    decreases |events|
  {
    if events == [] then w.buffer.stamp
    else
      var n := |events| - 1;
      var was := Ends(c, w, events[..n]);
      match events[n]
      case SetPose(_, _, now) => now
      case SetJoints(_, now) => now
      case SetChunk(_, now) => now
      case Advance(now) => if Caught(was).Some? then now else LastCommandAt(c, w, events[..n])
      case _ => LastCommandAt(c, w, events[..n])
  }

  lemma {:induction false} StampIsLastCommand(c: Config, w: World, events: seq<Event>)
    requires Fits(c.p, w) && Feasible(c, w, events)
    ensures Ends(c, w, events).buffer.stamp == LastCommandAt(c, w, events)
    decreases |events|
  {
    hide Decide, Look, Fits;
    if events != [] { StampIsLastCommand(c, w, events[..|events| - 1]); }
  }

  /** The age a tick judges staleness by is the time since the last command, so a chunk that is being
      played keeps the loop live and silence makes it hold. */
  lemma AgeIsSinceLastCommand(c: Config, w: World, events: seq<Event>, now: real, faulted: bool)
    requires Fits(c.p, w) && Feasible(c, w, events + [LookUp(now, faulted)])
    ensures Feasible(c, w, events)
    ensures var end := Ends(c, w, events + [LookUp(now, faulted)]);
      end.phase.Looked? && end.phase.view.snap.age == now - LastCommandAt(c, w, events)
  {
    hide Decide;
    assert (events + [LookUp(now, faulted)])[..|events|] == events;
    StampIsLastCommand(c, w, events);
  }

  // Preemption, as it happens between the loop's steps.

  predicate Internal(events: seq<Event>) { forall i | 0 <= i < |events| :: !events[i].Publishes() }

  /** While nobody else publishes: the manual target stands, unless a caught setpoint replaces it. */
  predicate ManualStands(pose: Pose, caught: Option<Tick>, w: World) {
    && w.buffer.chunk == None && w.buffer.cartesian
    && (w.phase.Taken? ==> w.phase.it < |w.buffer.iters| && w.buffer.pose == Some(pose) && Caught(w) == caught)
    && (!w.phase.Taken? ==> w.buffer.pose == Some(if caught.Some? then caught.value.pose else pose))
  }

  lemma {:induction false} ManualStandsOn(c: Config, w: World, pose: Pose, gripper: Option<GripperCommand>, now: real,
                                          events: seq<Event>)
    requires Fits(c.p, w)
    requires Feasible(c, Do(c, w, SetPose(pose, gripper, now)), events) && Internal(events)
    ensures ManualStands(pose, Caught(w), Ends(c, Do(c, w, SetPose(pose, gripper, now)), events))
    decreases |events|
  {
    hide Decide, Look;
    if events != [] {
      var n := |events| - 1;
      assert !events[n].Publishes();
      assert forall i | 0 <= i < n :: events[..n][i] == events[i];
      ManualStandsOn(c, w, pose, gripper, now, events[..n]);
      hide Do, ManualStands;
      InternalKeepsManual(c, Ends(c, Do(c, w, SetPose(pose, gripper, now)), events[..n]), events[n], pose, Caught(w));
    }
  }

  lemma InternalKeepsManual(c: Config, w: World, e: Event, pose: Pose, caught: Option<Tick>)
    requires Fits(c.p, w) && Enabled(c, w, e) && !e.Publishes() && ManualStands(pose, caught, w)
    ensures ManualStands(pose, caught, Do(c, w, e))
  {
    hide Decide, Look;
  }

  /** A manual target is what the loop tracks from its next look at the buffer on, with exactly one
      exception: when the loop had already taken a chunk's iterator that still had a setpoint, that
      setpoint replaces the manual target for good. */
  lemma ManualTargetTakesEffect(c: Config, w: World, pose: Pose, gripper: Option<GripperCommand>, now: real,
                                events: seq<Event>, later: real, faulted: bool)
    requires Fits(c.p, w)
    requires Feasible(c, Do(c, w, SetPose(pose, gripper, now)), events + [LookUp(later, faulted)]) && Internal(events)
    ensures var end := Ends(c, Do(c, w, SetPose(pose, gripper, now)), events + [LookUp(later, faulted)]);
      && end.phase.Looked? && end.phase.view.snap.cartesian
      && end.phase.view.snap.pose == Some(if Caught(w).Some? then Caught(w).value.pose else pose)
  {
    hide Decide, Internal;
    assert (events + [LookUp(later, faulted)])[..|events|] == events;
    ManualStandsOn(c, w, pose, gripper, now, events);
  }

  /** The gripper command the loop will find, as long as no tick completes. */
  predicate GripperStands(queued: Option<GripperCommand>, caught: Option<Tick>, w: World) {
    && w.buffer.chunk == None
    && (w.phase.Taken? ==> w.phase.it < |w.buffer.iters| && Caught(w) == caught && w.buffer.gripper == queued)
    && (!w.phase.Taken? ==>
          w.buffer.gripper == if caught.Some? && caught.value.grip.Some? then caught.value.grip else queued)
  }

  lemma {:induction false} GripperStandsOn(c: Config, w: World, pose: Pose, gripper: Option<GripperCommand>, now: real,
                                           events: seq<Event>)
    requires Fits(c.p, w)
    requires Feasible(c, Do(c, w, SetPose(pose, gripper, now)), events) && Internal(events)
    requires forall i | 0 <= i < |events| :: !events[i].Act?
    ensures GripperStands(if gripper.Some? then gripper else w.buffer.gripper, Caught(w),
                          Ends(c, Do(c, w, SetPose(pose, gripper, now)), events))
    decreases |events|
  {
    hide Decide, Look;
    if events != [] {
      var n := |events| - 1;
      assert !events[n].Publishes();
      assert forall i | 0 <= i < n :: events[..n][i] == events[i];
      GripperStandsOn(c, w, pose, gripper, now, events[..n]);
      hide Do, GripperStands;
      InternalKeepsGripper(c, Ends(c, Do(c, w, SetPose(pose, gripper, now)), events[..n]), events[n],
                           if gripper.Some? then gripper else w.buffer.gripper, Caught(w));
    } else {
      GripperPublished(c, w, pose, gripper, now);
    }
  }

  lemma GripperPublished(c: Config, w: World, pose: Pose, gripper: Option<GripperCommand>, now: real)
    requires Fits(c.p, w)
    ensures GripperStands(if gripper.Some? then gripper else w.buffer.gripper, Caught(w), Do(c, w, SetPose(pose, gripper, now)))
  {}

  lemma InternalKeepsGripper(c: Config, w: World, e: Event, queued: Option<GripperCommand>, caught: Option<Tick>)
    requires Fits(c.p, w) && Enabled(c, w, e) && !e.Publishes() && !e.Act? && GripperStands(queued, caught, w)
    ensures GripperStands(queued, caught, Do(c, w, e))
  {
    hide Decide, Look;
  }

  /** A published gripper command is what the next look finds, unless a tick completes before it; the
      command of a setpoint already caught replaces it, and none published leaves the queued one. */
  lemma GripperIsQueued(c: Config, w: World, pose: Pose, gripper: Option<GripperCommand>, now: real,
                        events: seq<Event>, later: real, faulted: bool)
    requires Fits(c.p, w)
    requires Feasible(c, Do(c, w, SetPose(pose, gripper, now)), events + [LookUp(later, faulted)]) && Internal(events)
    requires forall i | 0 <= i < |events| :: !events[i].Act?
    ensures var end := Ends(c, Do(c, w, SetPose(pose, gripper, now)), events + [LookUp(later, faulted)]);
      && end.phase.Looked?
      && end.phase.view.snap.gripper ==
           if Caught(w).Some? && Caught(w).value.grip.Some? then Caught(w).value.grip
           else if gripper.Some? then gripper else w.buffer.gripper
  {
    hide Decide, Internal;
    var w', look := Do(c, w, SetPose(pose, gripper, now)), LookUp(later, faulted);
    assert (events + [look])[..|events|] == events;
    GripperStandsOn(c, w, pose, gripper, now, events);
    var before := Ends(c, w', events);
    assert Ends(c, w', events + [look]) == Do(c, before, look);
    hide Ends, Feasible;
    GripperSeen(c, before, if gripper.Some? then gripper else w.buffer.gripper, Caught(w), later, faulted);
  }

  lemma GripperSeen(c: Config, w: World, queued: Option<GripperCommand>, caught: Option<Tick>, later: real, faulted: bool)
    requires Fits(c.p, w) && Enabled(c, w, LookUp(later, faulted)) && GripperStands(queued, caught, w)
    ensures var end := Do(c, w, LookUp(later, faulted));
      && end.phase.Looked?
      && end.phase.view.snap.gripper == if caught.Some? && caught.value.grip.Some? then caught.value.grip else queued
  {
    hide Decide;
  }

  /** While nobody else publishes: the joint target stands, unless a caught setpoint takes the loop back
      to Cartesian streaming. */
  predicate JointsStand(q: seq<real>, caught: Option<Tick>, w: World) {
    && w.buffer.chunk == None && w.buffer.q == Some(q)
    && (w.phase.Taken? ==> w.phase.it < |w.buffer.iters| && !w.buffer.cartesian && Caught(w) == caught)
    && (!w.phase.Taken? ==>
          if caught.Some? then w.buffer.cartesian && w.buffer.pose == Some(caught.value.pose) else !w.buffer.cartesian)
  }

  lemma {:induction false} JointsStandOn(c: Config, w: World, q: seq<real>, now: real, events: seq<Event>)
    requires Fits(c.p, w) && |q| == |c.p.jointLower|
    requires Feasible(c, Do(c, w, SetJoints(q, now)), events) && Internal(events)
    ensures JointsStand(q, Caught(w), Ends(c, Do(c, w, SetJoints(q, now)), events))
    decreases |events|
  {
    hide Decide, Look;
    if events != [] {
      var n := |events| - 1;
      assert !events[n].Publishes();
      assert forall i | 0 <= i < n :: events[..n][i] == events[i];
      JointsStandOn(c, w, q, now, events[..n]);
      hide Do, JointsStand;
      InternalKeepsJoints(c, Ends(c, Do(c, w, SetJoints(q, now)), events[..n]), events[n], q, Caught(w));
    }
  }

  lemma InternalKeepsJoints(c: Config, w: World, e: Event, q: seq<real>, caught: Option<Tick>)
    requires Fits(c.p, w) && Enabled(c, w, e) && !e.Publishes() && JointsStand(q, caught, w)
    ensures JointsStand(q, caught, Do(c, w, e))
  {
    hide Decide, Look;
  }

  /** A joint target is what the loop tracks from its next look on, with the same exception: a setpoint
      already caught takes the loop back to the chunk's pose, although the joint target came later. */
  lemma JointTargetTakesEffect(c: Config, w: World, q: seq<real>, now: real, events: seq<Event>, later: real, faulted: bool)
    requires Fits(c.p, w) && |q| == |c.p.jointLower|
    requires Feasible(c, Do(c, w, SetJoints(q, now)), events + [LookUp(later, faulted)]) && Internal(events)
    ensures var end := Ends(c, Do(c, w, SetJoints(q, now)), events + [LookUp(later, faulted)]);
      && end.phase.Looked?
      && (if Caught(w).Some?
          then end.phase.view.snap.cartesian && end.phase.view.snap.pose == Some(Caught(w).value.pose)
          else !end.phase.view.snap.cartesian && end.phase.view.snap.q == Some(q))
  {
    hide Decide, Internal;
    assert (events + [LookUp(later, faulted)])[..|events|] == events;
    JointsStandOn(c, w, q, now, events);
  }

  /** How an enqueued chunk is being played: the iterator yields its setpoints once each, in order,
      and the last one yielded is the target. */
  predicate Playing(ticks: seq<Tick>, id: nat, w: World) {
    && w.buffer.cartesian && id < |w.buffer.iters| && |w.buffer.iters[id]| <= |ticks|
    && var k := |ticks| - |w.buffer.iters[id]|;
       && w.buffer.iters[id] == ticks[k..]
       && (0 < k ==> w.buffer.pose == Some(ticks[k - 1].pose) && (w.phase.Taken? ==> w.phase.it == id))
       && (w.buffer.chunk == Some(id) || (k == |ticks| && w.buffer.chunk == None))
       && (w.phase.Taken? && w.phase.it != id ==> w.phase.it < |w.buffer.iters| && w.buffer.iters[w.phase.it] != [])
  }

  /** The loop has taken an iterator that is exhausted, and will report that next. */
  predicate Exhausted(w: World) {
    w.phase.Taken? && w.phase.it < |w.buffer.iters| && w.buffer.iters[w.phase.it] == []
  }

  /** An enqueued chunk that is never touched. */
  predicate Dropped(ticks: seq<Tick>, id: nat, w: World) {
    && id < |w.buffer.iters| && w.buffer.iters[id] == ticks
    && (if w.phase.Taken? then w.phase.it < id && w.buffer.iters[w.phase.it] == [] else w.buffer.chunk == None)
  }

  /** An enqueued chunk yields its setpoints once each and in order, as long as nobody publishes
      anything newer, with exactly one exception: when the loop had just taken the exhausted iterator
      of an earlier chunk, the new chunk is dropped and never plays. */
  lemma {:induction false} EnqueuedChunkPlays(c: Config, w: World, ticks: seq<Tick>, now: real, events: seq<Event>)
    requires Fits(c.p, w)
    requires Feasible(c, Do(c, w, SetChunk(ticks, now)), events) && Internal(events)
    ensures var end := Ends(c, Do(c, w, SetChunk(ticks, now)), events);
      if Exhausted(w) then Dropped(ticks, |w.buffer.iters|, end) else Playing(ticks, |w.buffer.iters|, end)
    decreases |events|
  {
    hide Decide, Look;
    if events != [] {
      var n := |events| - 1;
      assert !events[n].Publishes();
      assert forall i | 0 <= i < n :: events[..n][i] == events[i];
      EnqueuedChunkPlays(c, w, ticks, now, events[..n]);
      hide Do, Playing, Dropped;
      InternalKeepsPlaying(c, Ends(c, Do(c, w, SetChunk(ticks, now)), events[..n]), events[n], ticks, |w.buffer.iters|);
    }
  }

  lemma InternalKeepsPlaying(c: Config, w: World, e: Event, ticks: seq<Tick>, id: nat)
    requires Fits(c.p, w) && Enabled(c, w, e) && !e.Publishes()
    ensures Playing(ticks, id, w) ==> Playing(ticks, id, Do(c, w, e))
    ensures Dropped(ticks, id, w) ==> Dropped(ticks, id, Do(c, w, e))
  {
    hide Decide, Look;
  }

  // How far a chunk gets.

  /** How many ticks have been completed. */
  function Acts(events: seq<Event>): nat {
    if events == [] then 0
    else Acts(events[..|events| - 1]) + if events[|events| - 1].Act? then 1 else 0
  }

  /** Setpoints pulled so far; the tick under way when the chunk came in may have pulled none. */
  predicate KeepsUp(ticks: seq<Tick>, id: nat, w: World, acts: nat)
    requires id < |w.buffer.iters|
  {
    var pulled := |ticks| - |w.buffer.iters[id]|;
    w.buffer.iters[id] != [] ==>
      match w.phase
      case Refreshed(_, _) => acts <= pulled
      case Looked(_) => acts <= pulled
      case Taken(_, _, it) => acts <= pulled + 1 && (it != id ==> acts == 0)
      case _ => acts <= pulled + 1
  }

  lemma {:induction false} PlayingKeepsUp(c: Config, w: World, ticks: seq<Tick>, now: real, events: seq<Event>)
    requires Fits(c.p, w) && !Exhausted(w)
    requires Feasible(c, Do(c, w, SetChunk(ticks, now)), events) && Internal(events)
    ensures var end := Ends(c, Do(c, w, SetChunk(ticks, now)), events);
      Playing(ticks, |w.buffer.iters|, end) && KeepsUp(ticks, |w.buffer.iters|, end, Acts(events))
    decreases |events|
  {
    hide Decide, Look, Playing, KeepsUp;
    EnqueuedChunkPlays(c, w, ticks, now, events);
    var w', id := Do(c, w, SetChunk(ticks, now)), |w.buffer.iters|;
    if events == [] {
      StartKeepsUp(c, w, ticks, now);
    } else {
      var n := |events| - 1;
      assert !events[n].Publishes();
      assert forall i | 0 <= i < n :: events[..n][i] == events[i];
      PlayingKeepsUp(c, w, ticks, now, events[..n]);
      hide Do;
      StepKeepsUp(c, Ends(c, w', events[..n]), events[n], ticks, id, Acts(events[..n]));
    }
  }

  lemma StartKeepsUp(c: Config, w: World, ticks: seq<Tick>, now: real)
    requires Fits(c.p, w)
    ensures KeepsUp(ticks, |w.buffer.iters|, Do(c, w, SetChunk(ticks, now)), 0)
  {}

  lemma StepKeepsUp(c: Config, w: World, e: Event, ticks: seq<Tick>, id: nat, acts: nat)
    requires Fits(c.p, w) && Enabled(c, w, e) && !e.Publishes() && Playing(ticks, id, w) && KeepsUp(ticks, id, w, acts)
    ensures id < |Do(c, w, e).buffer.iters|
    ensures KeepsUp(ticks, id, Do(c, w, e), acts + if e.Act? then 1 else 0)
  {
    hide Decide, Look;
  }

  /** An enqueued chunk of `n` setpoints has been pulled to its end after `n + 1` completed ticks: one
      setpoint a tick, except that the tick under way when it came in may still be without one. */
  lemma ChunkIsPlayedOut(c: Config, w: World, ticks: seq<Tick>, now: real, events: seq<Event>)
    requires Fits(c.p, w) && !Exhausted(w) && ticks != []
    requires Feasible(c, Do(c, w, SetChunk(ticks, now)), events) && Internal(events)
    requires Acts(events) > |ticks|
    ensures var end := Ends(c, Do(c, w, SetChunk(ticks, now)), events);
      && |w.buffer.iters| < |end.buffer.iters| && end.buffer.iters[|w.buffer.iters|] == []
      && end.buffer.pose == Some(ticks[|ticks| - 1].pose)
  {
    hide Decide, Do;
    PlayingKeepsUp(c, w, ticks, now, events);
  }

  // The exceptions happen.

  lemma Extend(c: Config, w: World, events: seq<Event>, e: Event)
    requires Fits(c.p, w) && Feasible(c, w, events) && Enabled(c, Ends(c, w, events), e)
    ensures Feasible(c, w, events + [e]) && Ends(c, w, events + [e]) == Do(c, Ends(c, w, events), e)
  {
    hide Enabled, Do;
    assert (events + [e])[..|events|] == events;
  }

  function UntilTaken(s: RobotState, t: Tick): seq<Event> { [SetChunk([t], 0.0)] + [Measure(s, 0.0)] + [Take] }

  lemma TakenHappens(c: Config, start: RobotState, w: World, s: RobotState, t: Tick)
    requires Started(c, start, w) && s.mode == w.mode && |s.q| == |c.p.jointLower|
    ensures Feasible(c, w, UntilTaken(s, t))
    ensures var end := Ends(c, w, UntilTaken(s, t));
      && end == w.(buffer := PublishChunk(w.buffer, [t], 0.0), phase := Taken(s, 0.0, |w.buffer.iters|))
      && Caught(end) == Some(t)
  {
    hide Decide;
    Extend(c, w, [], SetChunk([t], 0.0));
    assert [] + [SetChunk([t], 0.0)] == [SetChunk([t], 0.0)];
    Extend(c, w, [SetChunk([t], 0.0)], Measure(s, 0.0));
    Extend(c, w, [SetChunk([t], 0.0)] + [Measure(s, 0.0)], Take);
  }

  /** From any started loop: enqueue a chunk, let a tick take its iterator, then set a manual target.
      The next look shows the chunk's setpoint. */
  lemma ManualTargetIsOverwritten(c: Config, start: RobotState, w: World, s: RobotState, t: Tick, pose: Pose)
    requires Started(c, start, w) && s.mode == w.mode && |s.q| == |c.p.jointLower|
    ensures var events := UntilTaken(s, t) + [SetPose(pose, None, 0.0)] + [Advance(0.0)] + [LookUp(0.0, false)];
      Feasible(c, w, events) && Ends(c, w, events).phase.Looked?
      && Ends(c, w, events).phase.view.snap.pose == Some(t.pose)
  {
    hide Decide;
    TakenHappens(c, start, w, s, t);
    hide UntilTaken;
    Extend(c, w, UntilTaken(s, t), SetPose(pose, None, 0.0));
    Extend(c, w, UntilTaken(s, t) + [SetPose(pose, None, 0.0)], Advance(0.0));
    Extend(c, w, UntilTaken(s, t) + [SetPose(pose, None, 0.0)] + [Advance(0.0)], LookUp(0.0, false));
  }

  function OneTick(s: RobotState, t: Tick): seq<Event> { UntilTaken(s, t) + [Advance(0.0)] + [LookUp(0.0, false)] + [Act] }

  /** The loop has played a chunk of one setpoint and is between two ticks. */
  lemma PlayedOut(c: Config, start: RobotState, w: World, s: RobotState, t: Tick)
    requires Started(c, start, w) && s.mode == w.mode && |s.q| == |c.p.jointLower|
    ensures Feasible(c, w, OneTick(s, t))
    ensures var end := Ends(c, w, OneTick(s, t));
      && end.phase == Between && end.running && end.buffer.chunk == Some(|w.buffer.iters|)
      && |end.buffer.iters| == |w.buffer.iters| + 1 && end.buffer.iters[|w.buffer.iters|] == []
  {
    hide Decide;
    TakenHappens(c, start, w, s, t);
    hide UntilTaken;
    var taken := UntilTaken(s, t);
    Extend(c, w, taken, Advance(0.0));
    Extend(c, w, taken + [Advance(0.0)], LookUp(0.0, false));
    Extend(c, w, taken + [Advance(0.0)] + [LookUp(0.0, false)], Act);
    var seen := Ends(c, w, taken + [Advance(0.0)] + [LookUp(0.0, false)]);
    NoCrashInMode(c, seen.memory, seen.phase.view);
  }

  /** From any started loop: play a chunk out, let the next tick take its exhausted iterator, then
      enqueue another chunk. It is dropped. */
  lemma ChunkIsDropped(c: Config, start: RobotState, w: World, s: RobotState, t: Tick, more: seq<Tick>)
    requires Started(c, start, w) && s.mode == w.mode && |s.q| == |c.p.jointLower|
    ensures Feasible(c, w, OneTick(s, t))
    ensures var s' := s.(mode := Ends(c, w, OneTick(s, t)).mode);
      var events := OneTick(s, t) + [Measure(s', 0.0)] + [Take];
      && Feasible(c, w, events) && Exhausted(Ends(c, w, events))
      && Feasible(c, w, events + [SetChunk(more, 0.0)] + [Advance(0.0)])
      && var end := Ends(c, w, events + [SetChunk(more, 0.0)] + [Advance(0.0)]);
         Dropped(more, |w.buffer.iters| + 1, end) && end.buffer.chunk == None
  {
    hide Decide;
    PlayedOut(c, start, w, s, t);
    hide OneTick;
    var played := OneTick(s, t);
    var s' := s.(mode := Ends(c, w, played).mode);
    Extend(c, w, played, Measure(s', 0.0));
    Extend(c, w, played + [Measure(s', 0.0)], Take);
    Extend(c, w, played + [Measure(s', 0.0)] + [Take], SetChunk(more, 0.0));
    Extend(c, w, played + [Measure(s', 0.0)] + [Take] + [SetChunk(more, 0.0)], Advance(0.0));
  }

  /** From any started loop whose last command has grown stale: a tick measures and looks, the loop is
      taken out, another writer moves the arm away, and the pending tick then holds the pose it had
      measured before, however far that is. */
  lemma LateHoldHappens(c: Config, start: RobotState, w: World, s: RobotState, far: Pose, now: real)
    requires Started(c, start, w) && s.mode == w.mode && |s.q| == |c.p.jointLower| && s.mode.IsCartesian()
    requires w.buffer.chunk == None && w.buffer.cartesian && Filtered(c, Memory(Some(far), Some(s.q), Some(ORIGIN)))
    requires c.p.stopOnStaleCommand && c.p.holdTimeoutMs == None && !c.p.stopOnStaleState
    requires now - w.buffer.stamp > c.p.commandTimeoutMs / 1000.0
    ensures var events := [Measure(s, 0.0)] + [Take] + [LookUp(now, false)] + [Remove]
                          + [Other(Memory(Some(far), Some(s.q), Some(ORIGIN)), s.mode)];
      && Feasible(c, w, events) && PoseReference(start, Ends(c, w, events).history) == far
      && Feasible(c, w, events + [Act])
      && var history := Ends(c, w, events + [Act]).history;
         |history| == 2 && history[1].Ours? && history[1].write == Held(s.tcp)
  {
    hide Filtered, Filter, FilterJoints, ControlMode.IsCartesian;
    var other := Other(Memory(Some(far), Some(s.q), Some(ORIGIN)), s.mode);
    Extend(c, w, [], Measure(s, 0.0));
    assert [] + [Measure(s, 0.0)] == [Measure(s, 0.0)];
    Extend(c, w, [Measure(s, 0.0)], Take);
    Extend(c, w, [Measure(s, 0.0)] + [Take], LookUp(now, false));
    Extend(c, w, [Measure(s, 0.0)] + [Take] + [LookUp(now, false)], Remove);
    FilteredHas(c, other.memory);
    Extend(c, w, [Measure(s, 0.0)] + [Take] + [LookUp(now, false)] + [Remove], other);
    Extend(c, w, [Measure(s, 0.0)] + [Take] + [LookUp(now, false)] + [Remove] + [other], Act);
  }

  lemma FilteredHas(c: Config, m: Memory)
    requires Filtered(c, m)
    ensures m.pose.Some? && m.q.Some? && |m.q.value| == |c.p.jointLower|
  {}
}
