# flexiv_control, verified

A Dafny model of `flexiv_control` and proofs about it. The controller turns high-level actions into a
safety-filtered stream of setpoints; a threaded server lets one client at a time do so, either with
blocking motions or through an always-on servo loop. Arithmetic is over exact reals. `dafny verify
dfyconfig.toml` checks everything.

## How the model is built

Code that changes state is a class with the same fields, whose methods are proved equal to functions
on values (`SafetyFilter`, `CartesianChunkInterpolator`, `Robot`, `ChunkRun`, `ReactiveServoLoop`,
`Lease`, `Parser`, `RemoteRobot`, `SetPointMailbox`, `SafetyBox`, `RtLoop`); arrays that the source
edits in place stay arrays. The results are about those functions, over every input and every run.
Concurrency is modelled as atomic steps, one per locked section, in every interleaving.

| file | content |
|---|---|
| `Numbers`, `Geometry`, `Types` | numpy's helpers over reals, vectors, norms, boxes, the shared data types |
| `SafetyFilter`, `FilterTraces`, `FilterProgress` | the per-setpoint filter; what any sequence of calls guarantees; that limits are used in full |
| `Interpolation`, `InterpolationBounds` | chunk expansion and time-stretching; step bounds, segment ends, layout |
| `Transforms`, `ActionChunks` | quaternion algebra; relative chunks and their equivariance |
| `Backends`, `ChunkExecution`, `ExecutorGates`, `CloseGate`, `ChunkReports` | the Cartesian executor; its gates, the deferred gripper close and the reported result over whole chunks |
| `JointExecution` | the joint executor |
| `Preview`, `Preflight` | the dry run and the client-side check against the executor and the interpolator |
| `StopProtocol` | the cooperative cancel flag |
| `ServoLoop`, `ServoTraces`, `ServoPublishing`, `ServoProgress` | the servo loop; every interleaving with publishers, its removal and later writers; what a published target comes to, and that it is reached |
| `ServerPrograms`, `ServerEffects`, `ServerLocks` | all handlers as lock programs, and what they do; single writer and deadlock freedom |
| `Lease`, `LeaseHandover`, `RemoteCalls` | the lease over every run, and its handover; request/reply matching under timeouts |
| `RtServer` | the C++ daemon: mailbox, clamp, real-time loop |
| `MimicFlattening`, `TextLines`, `MiniYaml`, `ConfigTrees`, `InlineScalars` | the two meaning-preserving transformations: mimic chains, and the configuration syntax from text to tree |

Functions without a closed form over the reals are parameters (`Geometry.Space`), with their laws as
explicit hypotheses: the norm is a norm (`IsNorm`, met by the Euclidean one, `EuclideanIsNorm`), the
cosine ease runs monotonically from 0 to 1 with slope at most the peak factor (`IsEase`), and, where
orientations move, the slerp turns in proportion (`SlerpOk`, `TurnsInProportion`).

## Where the code and its promises part

* Preview and execution use the same caps only if a chunk's cap is not negative or does not
  tighten anything: the executor ignores a negative cap, the preview applies it (`Previews.CapsAgree`).
* A manual target preempts an asynchronous chunk except when the loop has already taken the chunk's
  iterator: then the chunk's next setpoint replaces the manual target for good
  (`ServoPublishing.ManualTargetTakesEffect`, `ManualTargetIsOverwritten`).
* An enqueued chunk is played except when the loop has just taken the exhausted iterator of the
  previous one: then it is dropped (`ServoPublishing.EnqueuedChunkPlays`, `ChunkIsDropped`).
* A tick that is under way when the loop is taken out still writes once, after other writers if they
  come first. A live setpoint stays within one filter step of their last command, and a stream in the
  wrong mode is refused; but a hold re-issues the pose measured before them, however far that is
  (`ServoTraces.EveryTickIsSafe`, `HaltedLoopWritesOnce`, `ServoPublishing.LateHoldHappens`).
* A forced acquire requests the stop of the displaced owner's motion exactly when the handler had read
  some other owner before. Where it does not, the displaced owner got the lease after that read, and the
  flag is cleared or left alone (`LeaseHandover.DisplacedOwnerIsStopped`, `DisplacedMotionCanGoOn`). A
  request can also be cleared before it takes effect, though not by an acquire that reads after the theft
  while the thief keeps the lease (`LeaseHandover.ClearingNeedsVacancy`, `RequestCanBeCleared`).
* A close that arrives at the last tick of a chunk whose last segment is one tick long is decided
  without any settle window (`CloseGate.OnlyLastTickPends`).
* The daemon's watchdog promises to hold the last commanded pose. It does so exactly when that pose
  lies in the box; from outside, the clamp keeps moving (`RtServer.StaleTickHolds`).
* The daemon's first command is whatever its mailbox holds when the network thread is already running,
  a client's pose included; containment and step bounds hold from there on (`RtServer.RtRunIsSafe`).
* The daemon's clamp and the Python filter differ in the band that `np.allclose` accepts around the box,
  unless the step limit cuts both to the same point (`RtServer.SlackMakesTheDifference`).
* The preflight compares with the requested duration, the interpolator with its rounding to ticks, and
  the preflight sees a turn only if the chunk itself fixes the orientation turned away from. So a
  segment can be stretched without a note and noted without being stretched; exactly when is
  `Preflights.NoteAndStretchDisagree`, and `Preflights.DisagreementsHappen` has a chunk for each case.
* Inline lists in configuration files are read right exactly when no element contains a comma, so
  a nested list with several elements is taken apart (`InlineScalars.ListIsReadIffFlat`).

## Model

| member | source | states |
|---|---|---|
| `Geometry.EuclideanIsNorm` | src/flexiv_control/safety.py:333 | `np.linalg.norm` satisfies every law the results ask of a norm (Cauchy-Schwarz and the triangle inequality are proved from the sum-of-squares definition) |
| `SafetyFilters.SafetyFilter.Reset` | src/flexiv_control/safety.py:269-290 | re-anchoring remembers the measured pose and joints and zeroes the commanded velocity |
| `SafetyFilters.SafetyFilter.LimitJump` | src/flexiv_control/safety.py:333-345 | the staged in-place edits of the jump limits, with the clip reasons they note |
| `SafetyFilters.SafetyFilter.LimitSpeed` | src/flexiv_control/safety.py:351-370 | the staged in-place edits of the speed limits, with the clip reasons they note |
| `SafetyFilters.SafetyFilter.LimitAccel` | src/flexiv_control/safety.py:376-391 | the acceleration stage and the velocity it remembers |
| `SafetyFilters.SafetyFilter.ApplyLimits` | src/flexiv_control/safety.py:333-391 | the three limits in sequence, each on the result of the one before, and all the reasons in order |
| `SafetyFilters.SafetyFilter.FilterCartesian` | src/flexiv_control/safety.py:296-394 | one call of the stateful filter: rejection leaves the memory alone, otherwise box, jump, speed and acceleration in this order, against the previous command |
| `SafetyFilters.SafetyFilter.FilterJoint` | src/flexiv_control/safety.py:397-425 | one call of the joint filter, with its clip flag and memory |
| `FilterTraces.InsideMeansInflated` | src/flexiv_control/safety.py:323-330 | a target is let through by `np.allclose` iff it lies in an explicitly computed, slightly larger box |
| `FilterTraces.LinearStages` | src/flexiv_control/safety.py:333-358 | jump and speed limit together keep a fraction of the way to the boxed target and never exceed the smaller cap; above the guard value they use it in full |
| `FilterTraces.AcceptedStep` | src/flexiv_control/safety.py:316-393 | an accepted command moves at most min(jump cap, speed cap) and is in no coordinate farther outside the box than its reference |
| `FilterTraces.UnclippedMeansInSpec` | src/flexiv_control/safety.py:316-394 | an accepted command is reported as clipped iff the target violates the box, a linear or an angular limit; an unclipped one is the target itself |
| `FilterProgress.BoxedIsNearest` | src/flexiv_control/safety.py:321-331 | a target inside the slackened box is left alone, any other is moved to the nearest point of the box, coordinate by coordinate |
| `FilterTraces.ReasonsAreTrue` | src/flexiv_control/safety.py:323-391 | each reason is reported iff its limit is exceeded at its stage, and reasons come in the order of the stages |
| `FilterTraces.AcceptedTurn` | src/flexiv_control/safety.py:340-370 | with a proportional slerp an accepted command turns at most min(angular jump cap, angular speed cap) |
| `FilterProgress.TurnUsesCaps` | src/flexiv_control/safety.py:340-370 | with a slerp that turns in exact proportion an accepted command turns by exactly min(what the target asks, the two angular caps), and has the target's own orientation when that is within both |
| `FilterTraces.RunIsSafe` | src/flexiv_control/safety.py:296-394 | over any sequence of accepted and rejected calls: each accepted command is within one step cap of the previous one, and no coordinate ever gets farther outside the box than at any earlier time |
| `FilterTraces.RunStaysInside` | src/flexiv_control/safety.py:316-393 | a run that starts inside the box stays inside |
| `FilterTraces.GapAfter` | src/flexiv_control/safety.py:331-360 | under a constant in-box target the distance shrinks by exactly one step cap per tick |
| `FilterTraces.TargetIsReached` | src/flexiv_control/safety.py:331-360 | that target is reached within ceil(distance / step cap) ticks |
| `FilterTraces.AccelStage` | src/flexiv_control/safety.py:376-391 | the capped velocity differs from the last one by at most a*dt, stays under the velocity cap (it is a convex combination of two in-cap velocities), and the position follows it |
| `FilterTraces.AccelRunIsSmooth` | src/flexiv_control/safety.py:281-394 | with the acceleration cap on, on every tick of every run after a reset: consecutive commanded velocities differ by at most a*dt, positions integrate them, and the step cap still holds |
| `FilterProgress.AccelUsesCap` | src/flexiv_control/safety.py:376-391 | the velocity changes by exactly min(a*dt, distance to the requested velocity), and comes nearer to the requested velocity by exactly that |
| `FilterProgress.SpeedGrowsByTheCap` | src/flexiv_control/safety.py:281-394 | from rest, under a constant requested velocity, after k calls the commanded speed is min(k*a*dt, requested speed) and the velocity is that much nearer to the requested one |
| `FilterProgress.VelocityIsRemembered` | src/flexiv_control/safety.py:376-393 | with the acceleration cap on or off, the remembered velocity takes the reference exactly to the accepted position |
| `Interpolation.CartesianChunkInterpolator.TicksFor` | src/flexiv_control/interpolation.py:73-81 | the ticks of a segment: requested, or stretched so that the eased peak respects each positive cap |
| `Interpolation.CartesianChunkInterpolator.Interpolate` | src/flexiv_control/interpolation.py:93-100 | the eased poses of one segment; only the first carries the gripper command |
| `Interpolation.CartesianChunkInterpolator.Setpoints` | src/flexiv_control/interpolation.py:83-102 | the generator yields the plan of the chunk, with the segment it is in |
| `Interpolation.PlanSnoc` | src/flexiv_control/interpolation.py:83-102 | the plan of a longer chunk is the plan of its prefix followed by one segment from where the prefix ends |
| `Interpolation.OrientationIsHeld` | src/flexiv_control/interpolation.py:84-92 | the target after any number of waypoints has the position of the last one and the orientation of the last one that has an orientation |
| `InterpolationBounds.TicksRequested` | src/flexiv_control/action_chunk.py:82-85 | a frame count is that many ticks, at least one; a duration is rounded to the nearest tick |
| `InterpolationBounds.SegmentTicksAreLeast` | src/flexiv_control/interpolation.py:73-81 | a segment has at most n ticks iff n is no less than requested and peak * displacement <= n * cap * dt on each axis with a positive cap: it is the shortest such segment |
| `InterpolationBounds.PathIsEased` | src/flexiv_control/interpolation.py:93-100 | after k of n ticks exactly the eased share of k/n of the way has been covered, straight and without going back, and the orientation is the slerp's at that share |
| `InterpolationBounds.SteepestTick` | src/flexiv_control/interpolation.py:73-81 | with that many ticks even the steepest tick of an eased displacement stays under cap*dt |
| `InterpolationBounds.PlanSmooth` | src/flexiv_control/interpolation.py:73-102 | every tick of every plan moves at most cap*dt from the tick before it, in position and orientation |
| `InterpolationBounds.SegmentsEndOnWaypoints` | src/flexiv_control/interpolation.py:83-102 | each segment ends exactly at its waypoint's position with the whole slerp to its orientation done, however it was stretched |
| `InterpolationBounds.PlanInBox` | src/flexiv_control/interpolation.py:91-100 | a plan between points of a box stays in the box |
| `InterpolationBounds.PlanLaid` | src/flexiv_control/interpolation.py:86-100 | offsets count up inside a segment, only its first tick can carry a gripper command, segments follow each other without a gap |
| `Backends.Backend.SetMode` | src/flexiv_control/backends/fake.py:107-122 | the mode changes; the firmware wrench cap only if one is given |
| `Backends.Backend.StreamCartesian` | src/flexiv_control/backends/fake.py:125-140 | needs a Cartesian motion mode, and appends exactly the pose to the log |
| `Backends.Backend.StreamJoint` | src/flexiv_control/backends/fake.py:142-152 | needs a joint motion mode, and appends exactly the command to the log |
| `Transforms.MulAssoc` | src/flexiv_control/transforms.py:27-37 | quaternion multiplication is associative |
| `Transforms.NormMul` | src/flexiv_control/transforms.py:27-37 | the norm is multiplicative |
| `Transforms.SandwichMul` | src/flexiv_control/transforms.py:91-96 | rotating by a product is rotating twice |
| `Transforms.SandwichIsMatrix` | src/flexiv_control/transforms.py:91-96 | rotating is applying the right-handed rotation matrix of the quaternion |
| `Transforms.NormalizeIsCanonical` | src/flexiv_control/transforms.py:15-24 | normalising gives the unit quaternion on the same line with w >= 0, and the identity for a near-zero one |
| `Transforms.FramesAgree` | src/flexiv_control/transforms.py:139-162 | a displacement in the TCP frame is the rotated displacement in the base frame, where it is added; the rotation is the same in both |
| `ActionChunks.ResolveWaypoints` | src/flexiv_control/action_chunk.py:207-235 | resolving a relative chunk, waypoint by waypoint, or refusing a degenerate orientation |
| `ActionChunks.PrepareChunk` | src/flexiv_control/action_chunk.py:237-248 | resolve, then slice to the execution horizon |
| `ActionChunks.PreparedChunk` | src/flexiv_control/action_chunk.py:198-248 | a prepared chunk has min(n_execute, all) waypoints, at least one, with their own gripper commands and timing, absolute ones untouched; it is refused iff it is relative, some waypoint has no orientation and the start orientation is near zero |
| `ActionChunks.ResolveIsEquivariant` | src/flexiv_control/action_chunk.py:219-234 | resolving a waypoint at a rigidly moved start gives the rigidly moved waypoint (orientation up to sign) |
| `ActionChunks.ChunkIsEquivariant` | src/flexiv_control/action_chunk.py:207-248 | the same for a whole chunk, including its horizon |
| `ActionChunks.ResolveIsTcpIntegration` | src/flexiv_control/transforms.py:139-162 | resolving one waypoint agrees with `integrate_pose(..., frame="tcp")` |
| `ChunkExecution.Robot.ExecuteCartesianChunk` | src/flexiv_control/robot.py:263-547 | entry abort consumes a pending stop and touches nothing; otherwise the backend's logs, mode and wrench limit, the cancel flag and the result are those of the executor's specification, and a relaxed wrench limit is restored however the chunk ends |
| `ChunkExecution.Robot.RunResolved` | src/flexiv_control/robot.py:321-547 | the part after resolution: caps, wrench envelope, tick loop, pending close, restore |
| `ChunkExecution.Robot.RequestStop` | src/flexiv_control/robot.py:823-827 | sets the cancel flag and touches nothing else |
| `ChunkExecution.Robot.Stop` | src/flexiv_control/robot.py:840-842 | sets the flag and stops the backend |
| `ChunkExecution.ChunkRun.TryFireClose` | src/flexiv_control/robot.py:370-394 | the tracking gate fires a close or latches the abort |
| `ChunkExecution.ChunkRun.Command` | src/flexiv_control/robot.py:436-479 | a command is sent, deferred by its settle window, or dropped |
| `ChunkExecution.ChunkRun.StreamSetpoint` | src/flexiv_control/robot.py:427-496 | streams the filtered pose, serves a due close before the tick's own command, remembers the commanded position |
| `ChunkExecution.ChunkRun.Step` | src/flexiv_control/robot.py:397-479 | one tick: cancel, fault, wrench, filter, stream, gripper, in this order |
| `ChunkExecution.ChunkRun.Play` | src/flexiv_control/robot.py:396-502 | the tick loop runs the plan until it ends or stops |
| `ChunkExecution.ChunkRun.Close` | src/flexiv_control/robot.py:503-520 | a close still pending at the end is decided against the final state, or dropped if the chunk stopped |
| `ExecutorGates.FilterRejects` | src/flexiv_control/safety.py:315-328 | the filter refuses exactly on an excessive wrench, or a target outside the box of a rejecting profile |
| `ExecutorGates.RunHoldsGates` | src/flexiv_control/robot.py:397-429 | one setpoint is streamed for each tick before the first with a stop request, a fault, an axis of the wrench outside its interval or a refused target; that tick stops the chunk, which reports the first of these |
| `ExecutorGates.EnvelopeIs` | src/flexiv_control/robot.py:331-344 | the wrench envelope, axis by axis: the profile's cap, plus the smaller of what is asked and what the profile allows if any axis is granted something, and at most the chunk's own cap |
| `ExecutorGates.WrenchIsRespected` | src/flexiv_control/robot.py:411-429 | over a whole chunk, on every axis -cap <= wrench <= cap at every streamed tick; it is stopped with `contact_wrench` iff at the next tick, undisturbed otherwise, some axis is outside |
| `ExecutorGates.ChunkStreamIsSafe` | src/flexiv_control/robot.py:396-429 | whatever the chunk asks for, consecutive streamed setpoints are at most one step cap apart, and from a start in the box the stream stays inside |
| `CloseGate.SettleFits` | src/flexiv_control/robot.py:473-476 | the settle window is never longer than the segment |
| `CloseGate.WindowIsFull` | src/flexiv_control/robot.py:473-476 | the settle window is 0.35 s to the nearest tick, cut to half the segment, and a close waits it, at least one tick |
| `CloseGate.RunIsOnSchedule` | src/flexiv_control/robot.py:430-476 | at every tick the commands decided so far, then the pending one, are exactly those that arrived, in order, and a pending close is due by the first tick of the next segment |
| `CloseGate.NoSecondPending` | src/flexiv_control/robot.py:465-472 | the branch for a second close before the first is resolved is never taken |
| `CloseGate.PlanCarriesCommands` | src/flexiv_control/interpolation.py:86-100 | the plan carries the waypoints' gripper commands once each, in waypoint order |
| `CloseGate.EveryCommandDecidedOnce` | src/flexiv_control/robot.py:430-520 | on a clean finish every executed waypoint's command is sent or withheld exactly once, in waypoint order; a stopped chunk has decided exactly those that had arrived |
| `CloseGate.RunKeepsGate` | src/flexiv_control/robot.py:370-479 | the gate's flags mean what they say about the history at every tick |
| `CloseGate.OnlyLastTickPends` | src/flexiv_control/robot.py:503-512 | a close still pending after a clean run arrived at the very last tick, which is a segment of its own; every other one was decided inside the loop |
| `CloseGate.ClosesAreJustified` | src/flexiv_control/robot.py:370-520 | with a gate set, a command that grasps, or is more than 1 mm below a measured width above 1e-6, and reached the gripper was measured on target exactly one settle window after its arrival, or arrived at the last tick of a one-tick segment and was measured on the final state, in both cases with everything streamed equal to the plan and nothing withheld before it; or it sustains a grasp after an earlier close. A command that does neither, or sustains a grasp, is sent on arrival |
| `CloseGate.WithheldForCause` | src/flexiv_control/robot.py:383-520 | a withheld command grasps or narrows a measured width, and an earlier one was withheld, or the filter had clipped, or the arm was off target after the settle window, or the command was still pending at the tick that stopped the chunk |
| `ChunkReports.ReportTellsTheRun` | src/flexiv_control/robot.py:396-547 | the result is a success iff every setpoint was streamed, clipped iff the filter modified one, and its close-abort flag is set iff a gripper command was withheld |
| `ChunkReports.UngatedCommandsAreSent` | src/flexiv_control/robot.py:436-479 | without a gate every gripper command is sent on the tick it arrives, and a finished chunk has sent its waypoints' commands, once each and in order |
| `JointExecution.JointSetpoints` | src/flexiv_control/interpolation.py:123-135 | the joint generator yields the joint plan |
| `JointExecution.JointTicksFor` | src/flexiv_control/interpolation.py:127-131 | the ticks of a joint segment, stretched by its largest excursion |
| `JointExecution.ExcursionIsAttained` | src/flexiv_control/interpolation.py:129 | the excursion a joint segment is stretched by is that of some joint (and none has a larger one, `ExcursionBounds`) |
| `JointExecution.JointTicksAreLeast` | src/flexiv_control/interpolation.py:127-131 | a joint segment is the shortest one that is not shorter than requested and in which the excursion fits under the speed cap |
| `JointExecution.JointSegmentsEndOnWaypoints` | src/flexiv_control/interpolation.py:123-135 | after the ticks of a waypoint's segment the joints are exactly at that waypoint |
| `JointExecution.JointPathIsEased` | src/flexiv_control/interpolation.py:132-134 | at every tick every joint has covered exactly the eased share of its way, and never goes back |
| `JointExecution.PlayJoints` | src/flexiv_control/robot.py:625-658 | the joint tick loop runs the plan until it ends or stops |
| `JointExecution.ExecuteJointChunk` | src/flexiv_control/robot.py:595-658 | the joint executor: entry abort, profile check, mode start, then the run of the specification |
| `JointExecution.JointTickStep` | src/flexiv_control/robot.py:625-652 | one joint tick: cancel, fault and wrench before anything is streamed |
| `JointExecution.JointRunHoldsGates` | src/flexiv_control/robot.py:625-652 | one command is streamed for each tick before the first with a stop request, a fault or an axis of the wrench outside its interval; that tick stops the chunk, which reports the first of these |
| `JointExecution.JointReportTellsTheRun` | src/flexiv_control/robot.py:625-658 | a joint chunk succeeds iff its whole plan was streamed, and reports a clip iff the filter changed a command |
| `JointExecution.JointCommandIsSafe` | src/flexiv_control/safety.py:397-425 | each joint moves at most the step cap and gets no farther outside its range |
| `JointExecution.BoxIsNearest` | src/flexiv_control/safety.py:403-409 | joints in their slackened range are left alone, otherwise every joint is moved to the nearest point of its range |
| `JointExecution.JointCommandUsesCap` | src/flexiv_control/safety.py:403-425 | each joint comes nearer to the range-checked target by exactly the step cap, or all the way, and a clip is reported iff some joint was out of range or farther than the cap |
| `JointExecution.JointTargetIsReached` | src/flexiv_control/safety.py:411-425 | under a constant in-range target what is left of each joint's way after k calls is max(0, way - k * step cap) |
| `JointExecution.JointRunIsSafe` | src/flexiv_control/robot.py:625-652 | the same along every run of the executor, for any chunk |
| `JointExecution.JointPlanComplies` | src/flexiv_control/interpolation.py:123-135 | the plan of an in-range joint chunk stays in range and within the filter's step cap |
| `JointExecution.JointChunkIsSentAsPlanned` | src/flexiv_control/robot.py:595-658 | an in-range joint chunk is never clipped; it streams a prefix of its plan, and all of it iff no stop request, fault or excessive wrench is met |
| `Previews.CapsAgree` | src/flexiv_control/viz/preview.py:65-76 | preview and executor use the same cap iff the chunk's cap is not negative or does not tighten the profile's |
| `Previews.Annotate` | src/flexiv_control/viz/preview.py:98-121 | the loop that collects poses and gripper events with the width commanded last |
| `Previews.PlanChunkPreview` | src/flexiv_control/viz/preview.py:79-133 | the preview's setpoints, duration and gripper events, or none if the chunk cannot be resolved |
| `Previews.EventsAreAnnounced` | src/flexiv_control/viz/preview.py:101-121 | the events name every gripper command once, in order, where it fires, and count it as closing iff it grasps or is more than 1e-6 below the width commanded before (0 for a grasp) |
| `Previews.InSpecPasses` | src/flexiv_control/safety.py:296-394 | a setpoint within every limit passes the filter unchanged and unclipped |
| `Previews.PlanComplies` | src/flexiv_control/interpolation.py:73-102 | every tick of an in-spec chunk meets every limit of the filter |
| `Previews.RunRepeatsPlan` | src/flexiv_control/robot.py:396-429 | the run repeats such a plan tick by tick and is cut short only by a stop |
| `Previews.PreviewIsExecution` | src/flexiv_control/viz/preview.py:79-121 | the preview is the executed stream: an in-spec chunk is never clipped, streams a prefix of the previewed setpoints in any environment, and all of them iff nothing stops it |
| `Previews.PreviewThenExecute` | tests/test_viz_preview.py:50-67 | previewing and then executing from the same state: what the backend has logged is a prefix of the previewed setpoints, and all of them iff the chunk succeeds, iff nothing stops it |
| `Preflights.ValidateChunk` | src/flexiv_control/safety.py:172-232 | the notes are exactly those that apply (outside the box, too fast, turning too fast), once each and in waypoint order |
| `Preflights.NotedExactly` | src/flexiv_control/safety.py:203-220 | a speed note is raised iff an axis the chunk itself determines needs more than the requested time |
| `Preflights.StretchedExactly` | src/flexiv_control/interpolation.py:73-81 | a segment gets more than n ticks iff an axis needs more than n, for every n not below the request |
| `Preflights.NoteAndStretchDisagree` | src/flexiv_control/safety.py:175-220 | for every timed waypoint after the first: stretched without a note iff an axis exceeds the rounded ticks and no visible one the requested time; noted without stretching iff a visible axis exceeds the requested time and none the rounded ticks |
| `Preflights.NoteMeansStretched` | src/flexiv_control/safety.py:187-220 | with the turn visible: unless the duration is rounded up a note means stretching, unless it is rounded down stretching means a note, so for whole ticks the two agree |
| `Preflights.NoNoteOneTick` | src/flexiv_control/safety.py:187-220 | with the turn visible, no note means at most one extra tick, for every duration |
| `Preflights.DisagreementsHappen` | src/flexiv_control/interpolation.py:73-81 | three chunks: stretched without a note, noted without stretching, and a first orientation that is stretched unseen |
| `StopProtocol.StopIsNotLost` | src/flexiv_control/robot.py:823-842 | from the moment the flag is set until some chunk returns with reason `user`, at most one more setpoint is streamed, none unless the executor was past its tick check, and the flag stays set |
| `StopProtocol.StandingFlagAborts` | src/flexiv_control/robot.py:399-404 | the next look at a standing flag aborts, at entry and at a tick |
| `StopProtocol.PendingAtEntryStreamsNothing` | src/flexiv_control/robot.py:300-308 | a stop pending at entry makes the chunk stream nothing |
| `StopProtocol.ConsumedOnce` | src/flexiv_control/robot.py:300-404 | chunks return with reason `user` no more often than stops were requested |
| `StopProtocol.CartesianTickIsSteps` | src/flexiv_control/robot.py:397-429 | a tick of the Cartesian executor is a step sequence of the protocol and streams what that streams |
| `StopProtocol.JointTickIsSteps` | src/flexiv_control/robot.py:625-652 | the same for the joint executor |
| `StopProtocol.RequestEndsChunk` | src/flexiv_control/robot.py:397-404 | a request observed at tick i leaves at most the i earlier setpoints, and is consumed |
| `StopProtocol.EntryIsSteps` | src/flexiv_control/robot.py:300-308 | with the flag set on entry a call begins, checks and aborts: the flag is consumed and nothing is streamed |
| `StopProtocol.CallIsSteps` | src/flexiv_control/robot.py:300-404 | a whole call of the Cartesian executor, from entry to return, is a step sequence of the protocol and streams what that streams |
| `ServoLoops.ReactiveServoLoop.Start` | src/flexiv_control/server/control_loop.py:143-164 | targets and filter start at the measured pose, in a Cartesian mode |
| `ServoLoops.ReactiveServoLoop.SetCartesianTarget` | src/flexiv_control/server/control_loop.py:79-88 | publishes a pose, drops the active chunk, refreshes the stamp |
| `ServoLoops.ReactiveServoLoop.SetJointTarget` | src/flexiv_control/server/control_loop.py:90-95 | the same for joints |
| `ServoLoops.ReactiveServoLoop.EnqueueChunk` | src/flexiv_control/server/control_loop.py:97-119 | stages the plan of a chunk from the measured pose and leaves the targets alone |
| `ServoLoops.ReactiveServoLoop.PullSetpoint` | src/flexiv_control/server/control_loop.py:234-249 | advances the iterator taken, or clears the active chunk when it is exhausted |
| `ServoLoops.ReactiveServoLoop.EnsureStreamMode` | src/flexiv_control/server/control_loop.py:183-194 | the mode is switched by what was measured, and left alone otherwise |
| `ServoLoops.ReactiveServoLoop.Hold` | src/flexiv_control/server/control_loop.py:289-299 | re-anchors the filter and streams what this tick measured, if the backend is in a matching mode |
| `ServoLoops.ReactiveServoLoop.StreamLive` | src/flexiv_control/server/control_loop.py:301-320 | streams the filtered target and then the gripper command, or stops on a rejection, or is refused |
| `ServoLoops.ReactiveServoLoop.AfterCrash` | src/flexiv_control/server/control_loop.py:205-219 | the crash handler stops the backend |
| `ServoLoops.ReactiveServoLoop.DecideAndWrite` | src/flexiv_control/server/control_loop.py:265-322 | fault, stale state, stale command (hold or escalate), live target: the write, the filter's memory, the mode and the logs, for any state measured before the lock and any mode in force now; a stream in the wrong mode is refused and ends the loop |
| `ServoLoops.ReactiveServoLoop.RunTick` | src/flexiv_control/server/control_loop.py:221-322 | a whole undisturbed tick; at most one setpoint is streamed |
| `ServoTraces.ActMovesReference` | src/flexiv_control/server/control_loop.py:272-322 | one write moves the filter's reference to the live setpoint or to the pose just held, and nothing else does |
| `ServoTraces.EveryTickIsSafe` | src/flexiv_control/server/control_loop.py:221-322 | in every interleaving with publishers, with the loop's removal and with other writers between its measurement and its write, every write is the one its tick calls for: a fault, stale state, or a hold beyond its time halts with that reason; a stale command holds what the tick measured; a wrench outside its interval or a target outside a rejecting box halts; any other target is streamed live, with the queued gripper command. A live setpoint is the target itself if that is within all limits, otherwise one full step cap nearer to it than the last command, the loop's or another writer's, or the pose held since; likewise joint by joint. While the loop is installed nobody else writes and no stream is refused |
| `ServoTraces.NoCrashInMode` | src/flexiv_control/server/control_loop.py:183-194 | a tick that writes in the mode it measured is never refused; it keeps a mode that fits its stream and changes any other to one that fits |
| `ServoProgress.FollowedTargetIsReached` | src/flexiv_control/server/control_loop.py:300-320 | n ticks in time that see a constant Cartesian target in the box bring the command nearer by exactly n step caps, so it is reached within ceil(distance / step cap) of them |
| `ServoProgress.FollowedJointsAreReached` | src/flexiv_control/server/control_loop.py:329-341 | the same for a joint target in range, joint by joint |
| `ServoProgress.PublishedTargetIsReached` | src/flexiv_control/server/control_loop.py:79-341 | from any state a run reaches with no chunk setpoint caught: a target in the box that is published and not superseded, on a loop whose measurements stay in time and tolerable, is reached within ceil(distance / step cap) ticks begun after its publication |
| `ServoProgress.PublishedJointsAreReached` | src/flexiv_control/server/control_loop.py:90-341 | the same for a published joint target |
| `ServoProgress.FollowingHappens` | src/flexiv_control/server/control_loop.py:221-322 | such runs exist from every started loop |
| `ServoTraces.HaltedLoopWritesOnce` | src/flexiv_control/server/control_loop.py:166-174 | once told to stop, the loop writes at most once more, and only if a tick was under way |
| `ServoTraces.LiveStaysInside` | src/flexiv_control/server/control_loop.py:296-311 | live setpoints never leave the box while the start, every held pose and every pose another writer commanded are inside |
| `ServoPublishing.AgeIsSinceLastCommand` | src/flexiv_control/server/control_loop.py:229-260 | the age a tick judges staleness by is the time since the last published target or pulled setpoint, in every interleaving |
| `ServoPublishing.ManualTargetTakesEffect` | src/flexiv_control/server/control_loop.py:229-258 | the loop tracks a manual target from its next look on, unless it already held an iterator with a setpoint left |
| `ServoPublishing.GripperIsQueued` | src/flexiv_control/server/control_loop.py:79-258 | a published gripper command is what the next look finds unless a tick completes before, or a caught setpoint brings its own; none published leaves the queued one |
| `ServoPublishing.JointTargetTakesEffect` | src/flexiv_control/server/control_loop.py:90-258 | the loop tracks a joint target from its next look on, unless a caught setpoint takes it back to the chunk's pose |
| `ServoPublishing.ManualTargetIsOverwritten` | src/flexiv_control/server/control_loop.py:234-246 | that exception happens: an event sequence from every started loop |
| `ServoPublishing.EnqueuedChunkPlays` | src/flexiv_control/server/control_loop.py:97-249 | what an enqueued chunk has yielded so far are its setpoints once each and in order, unless the loop had just taken an exhausted iterator |
| `ServoPublishing.ChunkIsPlayedOut` | src/flexiv_control/server/control_loop.py:229-249 | after n + 1 completed ticks a chunk of n setpoints has been pulled to its end and its last pose is the target |
| `ServoPublishing.ChunkIsDropped` | src/flexiv_control/server/control_loop.py:234-249 | the exception happens: an event sequence from every started loop after which the new chunk is never played |
| `ServoPublishing.LateHoldHappens` | src/flexiv_control/server/control_loop.py:225-299 | a tick that was pending when the loop was taken out can hold a pose measured before another writer moved the arm |
| `ServerPrograms.HandlersFollowTheRules` | src/flexiv_control/server/server.py:166-504 | every request handler, as a lock program, takes the writer lock first and the other locks last, writes and changes the installed loop only under the writer lock, enters a motion body only after finding no loop, and joins a loop only with no lock held |
| `ServerPrograms.TicksFollowTheRules` | src/flexiv_control/server/control_loop.py:229-322 | so does every tick of the loop thread |
| `ServerEffects.HandlersDo` | src/flexiv_control/server/server.py:166-504 | what every handler does, for every outcome of its lease checks, timed locks and looks at the installed loop: a motion sends exactly its commands inside its body or nothing at all, a loop is made, started, then installed, and whoever takes one out tells it to stop, waits for its end, and only then stops the backend |
| `ServerEffects.TicksDo` | src/flexiv_control/server/control_loop.py:229-322 | a tick touches the command buffer to see the iterator, to pull, and to look, sends its commands, and touches it once more after a gripper command |
| `ServerLocks.StepKeepsInv` | src/flexiv_control/server/server.py:176-202 | every step of every thread keeps the invariant: exclusive locks, and a thread that has found no loop under the writer lock is right about it |
| `ServerLocks.SingleWriter` | src/flexiv_control/server/server.py:176-202 | in every reachable state a thread about to command the backend holds the writer lock and no other thread does, writes, or is in a motion body |
| `ServerLocks.MotionIsAlone` | src/flexiv_control/server/server.py:176-202 | while a blocking motion is in its body no servo loop is installed, none can be, and every command is the motion's own |
| `ServerLocks.StoppedLoopOnlyFinishes` | src/flexiv_control/server/control_loop.py:166-174 | in every run of the server a loop that was told to stop begins no further tick and only finishes the one it is in |
| `ServerLocks.WaitingGoesDown` | src/flexiv_control/server/server.py:192-260 | waiting leads down the lock order, also through a join |
| `ServerLocks.NoDeadlock` | src/flexiv_control/server/server.py:430-504 | in every reachable state each busy thread can step, or leads through at most three waits without repetition to a thread that can, without counting on any timeout |
| `Leases.Lease.Acquire` | src/flexiv_control/server/lease.py:83-95 | succeeds iff forced, free, own, or past its expiry with no request in flight |
| `Leases.Lease.ExpireIfStale` | src/flexiv_control/server/lease.py:58-63 | frees the lease iff no request is in flight and its expiry has passed |
| `Leases.Lease.Grant` | src/flexiv_control/server/lease.py:87-95 | the second locked section of `acquire`: refused iff another owner holds the lease and there is no force |
| `Leases.Lease.Heartbeat` | src/flexiv_control/server/lease.py:97-102 | refreshes iff the caller is the owner |
| `Leases.Lease.Release` | src/flexiv_control/server/lease.py:104-108 | only the owner frees a held lease |
| `Leases.Lease.Check` | src/flexiv_control/server/lease.py:110-119 | passes iff the caller holds the lease after expiry was looked at |
| `Leases.Lease.EndHold` | src/flexiv_control/server/lease.py:77-81 | ends a hold and gives the owner a full period |
| `Leases.HoldsCountOpenHolds` | src/flexiv_control/server/lease.py:66-81 | the counter equals the number of open holds in every run |
| `Leases.ExpiryIsLastRefresh` | src/flexiv_control/server/lease.py:83-102 | the recorded expiry is always the owner's last refresh plus the period |
| `Leases.OwnershipPasses` | src/flexiv_control/server/lease.py:58-119 | whenever the lease has left an owner there was a step at which it released, or lapsed with no hold open and the clock past its last refresh plus the period, or was forced out |
| `Leases.HoldProtectsOwner` | src/flexiv_control/server/lease.py:66-81 | from the step that opens a hold to the one that ends it, the owner changes only by its own release or by force |
| `Leases.LiveOwnerKeepsLease` | src/flexiv_control/server/lease.py:58-102 | an owner that refreshes in time keeps the lease |
| `LeaseHandover.AcquireLease` | src/flexiv_control/server/server.py:233-249 | undisturbed, the handler requests a stop iff it forces out another live owner, and clears the flag for a fresh one |
| `LeaseHandover.DisplacedOwnerIsStopped` | src/flexiv_control/server/server.py:233-249 | in every run a forced acquire requests a stop iff it had read some other owner; an owner it displaces without one was granted the lease after that read |
| `LeaseHandover.StopIsRequestedInFlight` | src/flexiv_control/server/server.py:236-243 | for a motion that was in flight when the handler read the owner the forced acquire requests a stop, unless its owner released the lease or lost it to another force first |
| `LeaseHandover.InFlightMotionStops` | src/flexiv_control/server/server.py:236-248 | if no acquire clears the flag in between, that motion streams at most one more setpoint and its next look at the flag aborts it |
| `LeaseHandover.ClearingNeedsVacancy` | src/flexiv_control/server/server.py:241-248 | an acquire clears the flag only if its handler read a free lease, or the owner it read lost the lease before the grant; so not while the thief keeps it |
| `LeaseHandover.RequestCanBeCleared` | src/flexiv_control/server/server.py:233-261 | a run in which the thief releases, a third client's acquire clears the request, and the first motion streams on |
| `LeaseHandover.DisplacedMotionCanGoOn` | src/flexiv_control/server/server.py:235-249 | a run in which a motion that began after the read goes on and the flag is cleared |
| `MimicFlattening.Resolve` | src/flexiv_control/viz/assets.py:202-206 | the loop over multiplier, offset, target and depth composes the chain |
| `MimicFlattening.CollectJoints` | src/flexiv_control/viz/assets.py:187-200 | the mimic dictionary in insertion order and the actuated names |
| `MimicFlattening.FlattenMimics` | src/flexiv_control/viz/assets.py:187-210 | the elements after the in-place rewriting |
| `MimicFlattening.FlatteningPreservesMeaning` | src/flexiv_control/viz/assets.py:187-210 | with distinct names, a joint configuration satisfies all original mimic equations iff it satisfies all rewritten ones |
| `MimicFlattening.ShortChainsAreFlattened` | src/flexiv_control/viz/assets.py:187-210 | a mimic follows a driven joint (one that mimics nothing and is not fixed) directly afterwards iff the mimic elements lead there in at most nine links |
| `MimicFlattening.OtherJointsStay` | src/flexiv_control/viz/assets.py:201-210 | every other joint is unchanged, cycles and longer chains included |
| `MiniYaml.ParseLine` | src/flexiv_control/config.py:61-76 | one line keeps the stack's indents strictly increasing and never pops the root |
| `MiniYaml.Parser.Feed` | src/flexiv_control/config.py:61-76 | the line-by-line update of the shared dictionaries and the stack |
| `MiniYaml.Parser.Parse` | src/flexiv_control/config.py:52-77 | the whole text, line by line |
| `MiniYaml.LineRead` | src/flexiv_control/config.py:62-67 | indentation, key and value of a printed line are what was printed |
| `MiniYaml.BlockIsRead` | src/flexiv_control/config.py:61-76 | a printed block is read into its own dictionary wherever it stands, touching nothing else |
| `MiniYaml.PrintedLinesAreRead` | src/flexiv_control/config.py:61-77 | the lines of a printed tree of nested maps and non-empty scalars, with any deeper indentation per level, spacing, blank lines and comments, are read back as that tree |
| `TextLines.SplitGivesLines` | src/flexiv_control/config.py:61 | `splitlines` of a text put together from lines, with any terminators, gives those lines |
| `ConfigTrees.PrintedTreeIsRead` | src/flexiv_control/config.py:52-77 | the text of a printed tree, its lines ended in any way, is read back as exactly that tree |
| `ConfigTrees.EveryTreeIsRead` | src/flexiv_control/config.py:52-77 | every tree that keeps to the syntax (trimmed keys without colon, leading `#` or line break; trimmed, non-empty scalars without `#` or line break) has a text that is read as exactly that tree |
| `ConfigTrees.EveryTextIsATree` | src/flexiv_control/config.py:52-77 | every text whatever is read as a tree that keeps to that syntax, so these are exactly the trees the parser can return |
| `InlineScalars.PrintedListIsRead` | src/flexiv_control/config.py:80-92 | an inline list of elements without commas is read back element by element |
| `InlineScalars.EmptyListIsRead` | src/flexiv_control/config.py:81-84 | brackets around white space are the empty list |
| `InlineScalars.ListIsReadIffFlat` | src/flexiv_control/config.py:80-85 | the number of elements read is right iff no element contains a comma |
| `InlineScalars.WordsAreRead` | src/flexiv_control/config.py:86-93 | exactly the spellings of true and false, in any mixture of cases, are truth values; anything else outside brackets is the number it casts to, or a word |
| `InlineScalars.QuotesAreStripped` | src/flexiv_control/config.py:93 | a word loses the double quotes around it, then the single quotes around the rest |
| `RemoteCalls.RemoteRobot.Call` | src/flexiv_control/client/remote_robot.py:126-155 | a new number per request, the long timeout only while a motion's reply is awaited, and a result only for a reply with this request's number |
| `RemoteCalls.Heartbeats` | src/flexiv_control/client/remote_robot.py:185-216 | the heartbeat thread gives up in the first round that loses the lease for good or completes the allowed run of failures, and never before |
| `RemoteCalls.StepKeepsInv` | src/flexiv_control/client/remote_robot.py:126-155 | every step of callers, server and timeouts keeps the wire in order: an awaited reply is last, and behind an abandoned one |
| `RemoteCalls.ResultsAnswerTheirRequests` | src/flexiv_control/client/remote_robot.py:126-155 | in every interleaving every returned result answers its own request |
| `RemoteCalls.ReplyMatchesUnlessAbandoned` | src/flexiv_control/client/remote_robot.py:138-152 | an arriving reply yields a result iff no read has abandoned its reply and no failed flush has left its request in the buffer |
| `RemoteCalls.NothingAfterAbandon` | src/flexiv_control/client/remote_robot.py:138-152 | after an abandoned read or flush no later call on the connection returns a result |
| `RtServer.SetPointMailbox.Publish` | cpp/src/rt_server.cpp:95-100 | the back buffer is filled, then flipped to the front; the previous setpoint survives behind it |
| `RtServer.SetPointMailbox.TryRead` | cpp/src/rt_server.cpp:102-107 | the latest setpoint, or the caller's own on contention |
| `RtServer.SafetyBox.ClampInto` | cpp/src/rt_server.cpp:138-155 | the in-place edits: clip, then limit the step; the orientation passes through |
| `RtServer.RtLoop.Run` | cpp/src/rt_server.cpp:383-408 | one real-time tick: read, watchdog, clamp, stream, remember |
| `RtServer.ClampIsTheFilter` | cpp/src/rt_server.cpp:138-155 | when the speed cap binds before the jump cap and is at least the guard value, the clamp returns the Python filter's position |
| `RtServer.SlackMakesTheDifference` | src/flexiv_control/safety.py:323-330 | for every target the two agree iff it is inside the box or clearly outside, or both cut the step short to the same point |
| `RtServer.StaleTickHolds` | cpp/src/rt_server.cpp:387-402 | a stale tick repeats the last position if that lies in the box, and with a positive cap only then; it feeds no wrench |
| `RtServer.FreshPoseIsFollowed` | cpp/src/rt_server.cpp:383-408 | on fresh commands a published in-box pose within one step cap is streamed exactly, orientation included, a farther one comes nearer by exactly the step cap, one outside counts as the nearest position of the box, and the published wrench is fed |
| `RtServer.PublishedPoseIsReached` | cpp/src/rt_server.cpp:383-408 | a constant published pose in the box is reached, orientation included, within ceil(distance / step cap) fresh ticks, whoever holds the mailbox's lock meanwhile |
| `RtServer.RtRunIsSafe` | cpp/src/rt_server.cpp:383-408 | from an in-box seed every streamed pose is in the box and one step cap from the last, and a stale tick repeats it exactly |

## Left out

- Floating-point rounding, clock jitter, missed cycles and `time.sleep` pacing: arithmetic is exact and time is an input.
- `math.pi`, cosine, arc cosine and square root: ease, slerp, angle and norm are parameters with stated laws; that the cosine ease satisfies `IsEase` is not proved here.
- FilterProgress.TurnUsesCaps: assumes a slerp that turns in exact proportion (`TurnsInProportion`), which the near-parallel branch of `quat_slerp` only approximates; caps below the guard value 1e-9 are used less than in full.
- ServoProgress.PublishedTargetIsReached: without the acceleration cap; what the cap makes of a constant request is `FilterProgress.SpeedGrowsByTheCap`. The distance counts from the command of the tick under way at publication.
- InterpolationBounds.PlanSmooth: the angular half assumes a slerp that turns in proportion (`SlerpOk`); the near-parallel branch of `quat_slerp` only approximates that.
- FilterTraces.RunStaysInside: not claimed with the acceleration cap on, where decelerating past the edge of the box is allowed by the code.
- RtServer.RtRunIsSafe: the step bound is the guard value 1e-9 if the cap lies below it, as in the code; steps are between commands, so nothing is said about the arm's distance from the first one.
- ChunkExecution.Robot.ExecuteCartesianChunk: leaves out the local lease check, `raise_on_stop`, recorded trajectories, peak statistics, the force-control wrench that is streamed along, and a failing restore of the wrench limit.
- Previews.PlanChunkPreview: leaves out the nominal duration, the reported caps and the warnings, which are the notes of `Preflights.ValidateChunk`.
- StopProtocol.CallIsSteps: requests are observed at ticks; one that arrives between the entry check and the first tick counts for the first tick. A call that is refused for its profile or an unusable start leaves right after the entry check.
- StopProtocol.StopIsNotLost: one executing thread, as the server's writer lock ensures; `go_home_safe`, whose lift already consumes the flag, is not claimed to skip homing.
- ServoTraces.EveryTickIsSafe: profile swaps during a run and exceptions other than a refused stream are left out; sending a queued gripper command and clearing it is one step here, so delivery exactly once is not claimed.
- ServoTraces.EveryTickIsSafe: bounds are per tick, since the filter keeps the robot's period when the loop runs at another rate; another writer is what it leaves in the shared filter and the mode.
- ServoLoops.ReactiveServoLoop.Start: leaves out the return when the loop is already running, and starting the thread.
- ServerLocks.SingleWriter: covers the server with its shared writer lock; the unlocked `robot.stop()` in `shutdown` and in the loop's crash handler, and a loop without a shared lock, are left out.
- ServerPrograms.HandlersFollowTheRules: a handler is its sequence of lock, loop and write operations; what the data decides is a free choice, and errors raised inside a motion body take the normal way out.
- Leases.HoldProtectsOwner: the window between the check in `hold` and the increment is not covered; claims start at the increment.
- ConfigTrees.PrintedTreeIsRead: trees with `#` or a line break in a scalar, with `:`, a leading `#` or a line break in a key, or with white space around either have no text, since the syntax has no quoting (`ConfigTrees.EveryTextIsATree`).
- ConfigTrees.PrintedTreeIsRead: the scalar parser is a parameter (instantiated by `InlineScalars.ParseScalar`, whose number casts are parameters in turn); decoding the file is left out.
- SafetyFilters.SafetyFilter.Reset: only the form that anchors at a state; the explicit pose and joint arguments are not used by the modelled code.
- SafetyFilters.SafetyFilter.FilterJoint: reports whether it clipped; the reasons it lists are all joint limits.
- Backends.Backend.SetMode: impedance settings and the mode log are left out.
- Backends.Backend.StreamCartesian: the wrench streamed along and the arm's motion towards the command are left out, as is the latter for `StreamJoint`.
- JointExecution.ExecuteJointChunk: leaves out the local lease check, `raise_on_stop` and the final state read at the end.
- Preflights.ValidateChunk: the notes' texts and the numbers in them are left out.
- RemoteCalls.Heartbeats: what each round brings is given, and stopping the thread from outside is left out.
- MimicFlattening.FlatteningPreservesMeaning: XML parsing, number formatting and mesh paths are left out; names are assumed distinct, as the URDF format demands.
- RemoteCalls.ResultsAnswerTheirRequests: one connection; reconnecting, JSON text and the lease methods built on the call are left out.
- The fake backend's tracking dynamics, MuJoCo, RDK, ROS, viser, the HTTP policy client, the CLI and the examples: devices, networks and user interfaces around the modelled core.
- Round trips of profiles and protocol dictionaries, SpaceMouse input, gripper normalisation, colours and box edges: conversions without state of their own.
- `HostLock`: its check and its write are separate file operations, and no exclusion is claimed.
