/** What the server's request handlers and its servo loop do with locks, writes and the installed
    loop, as small programs, and the discipline all of them follow. */
module ServerPrograms {

  /** The backend-writer lock, the lease's lock, and the lock of the loop a thread refers to. */
  datatype Name = RobotLock | LeaseLock | LoopLock

  datatype Prog =
    | Done
    | Lock(name: Name, next: Prog)
    | TryLock(name: Name, got: Prog, busy: Prog)     // non-blocking or timed
    | Unlock(name: Name, next: Prog)
    | Choose(left: Prog, right: Prog)                // depends on data outside this model
    | Write(next: Prog)                              // a setpoint, mode, gripper or stop command
    | IfLoop(yes: Prog, no: Prog)                    // looks at the installed loop
    | Peek(yes: Prog, no: Prog)                      // the same without the writer lock
    | TakeLoop(yes: Prog, no: Prog)                  // and removes it
    | Create(next: Prog)                             // a new loop object
    | Spawn(next: Prog)                              // its thread starts
    | Install(next: Prog)                            // it becomes the installed loop
    | Halt(next: Prog)                               // tells the loop to stop
    | Join(next: Prog)                               // waits for its thread
    | Enter(next: Prog)                              // the body of a blocking motion begins
    | Leave(next: Prog)                              // and ends

  /** What a thread knows about the loop object it refers to. */
  datatype Kind = NoLoop | Seen | Made | Began | Halted

  /** What a thread holds and knows: `empty` means no loop is installed, which stays true while it
      holds the writer lock. */
  datatype Known = Known(held: set<Name>, empty: bool, kind: Kind, moving: bool)

  const NOTHING := Known({}, false, NoLoop, false)

  /** The discipline: the writer lock comes first, the other two are innermost; commands are sent,
      and the installed loop is looked at or changed, only under the writer lock; a motion body runs
      only where the absence of a loop has been checked; a thread that waits for a loop holds no lock
      and has told it to stop. */
  predicate Ok(p: Prog, k: Known)
    decreases p
  {
    match p
    case Done => k.held == {} && !k.moving
    case Lock(name, next) => MayLock(name, k) && Ok(next, Locked(k, name))
    case TryLock(name, got, busy) => MayLock(name, k) && Ok(got, Locked(k, name)) && Ok(busy, k)
    case Unlock(name, next) => name in k.held && (name == RobotLock ==> !k.moving) && Ok(next, Unlocked(k, name))
    case Choose(left, right) => Ok(left, k) && Ok(right, k)
    case Write(next) => RobotLock in k.held && Ok(next, k)
    case IfLoop(yes, no) =>
      k.held == {RobotLock} && !k.moving && Ok(yes, k.(kind := Seen)) && Ok(no, k.(empty := true))
    case Peek(yes, no) => k.held == {} && Ok(yes, k.(kind := Seen)) && Ok(no, k)
    case TakeLoop(yes, no) =>
      k.held == {RobotLock} && !k.moving && Ok(yes, k.(kind := Seen, empty := true)) && Ok(no, k.(empty := true))
    case Create(next) => k.held == {RobotLock} && Ok(next, k.(kind := Made))
    case Spawn(next) => k.kind == Made && k.held == {RobotLock} && Ok(next, k.(kind := Began))
    case Install(next) =>
      k.kind == Began && k.held == {RobotLock} && k.empty && !k.moving && Ok(next, k.(kind := Seen, empty := false))
    case Halt(next) => k.kind == Seen && Ok(next, k.(kind := Halted))
    case Join(next) => k.kind == Halted && k.held == {} && Ok(next, k)
    case Enter(next) => k.held == {RobotLock} && k.empty && !k.moving && Ok(next, k.(moving := true))
    case Leave(next) => k.moving && Ok(next, k.(moving := false))
  }

  predicate MayLock(name: Name, k: Known) {
    && LeaseLock !in k.held && LoopLock !in k.held && name !in k.held
    && (name == LoopLock ==> k.kind != NoLoop)
  }

  function Locked(k: Known, name: Name): Known { k.(held := k.held + {name}) }

  function Unlocked(k: Known, name: Name): Known {
    k.(held := k.held - {name}, empty := k.empty && name != RobotLock)
  }

  // The lease's operations, each of which takes its lock once or twice.

  function Leased(next: Prog): Prog { Lock(LeaseLock, Unlock(LeaseLock, next)) }

  function LeaseOr(fails: Prog, next: Prog): Prog {
    Lock(LeaseLock, Choose(Unlock(LeaseLock, fails), Unlock(LeaseLock, next)))
  }

  function Owner(next: Prog): Prog { Leased(Leased(next)) }

  function CheckLease(fails: Prog, next: Prog): Prog { Leased(LeaseOr(fails, next)) }

  /** `_require_lease`: check, then refresh. */
  function RequireLease(next: Prog): Prog { CheckLease(Done, LeaseOr(Done, next)) }

  // The servo loop as its users see it.

  function WithRobot(body: Prog): Prog { Lock(RobotLock, body) }

  function Freed(next: Prog): Prog { Unlock(RobotLock, next) }

  function StopBackend(next: Prog): Prog { WithRobot(Write(Freed(next))) }

  /** `loop.stop()`: tell it, wait for it, then stop the backend under the writer lock. */
  function StopLoop(next: Prog): Prog { Halt(Join(StopBackend(next))) }

  /** Takes the installed loop out under the writer lock and stops it outside. */
  function TearDown(next: Prog): Prog { WithRobot(TakeLoop(Freed(StopLoop(next)), Freed(next))) }

  function InLoop(next: Prog): Prog { Lock(LoopLock, Unlock(LoopLock, next)) }

  function Writes(n: nat, next: Prog): Prog { if n == 0 then next else Write(Writes(n - 1, next)) }

  // The request handlers.

  datatype Request =
    | AcquireLease
    | ReleaseLease
    | Heartbeat
    | GetState
    | SetSafetyProfile
    | Motion(commands: nat)                  // every blocking motion, mode or gripper request
    | Stop
    | StartServoLoop(commands: nat)
    | ServoStream
    | StopServoLoop
    | Shutdown

  /** The body of a blocking motion, with the lease held around it. */
  function MotionBody(commands: nat): Prog {
    CheckLease(Freed(Done), Leased(Enter(Writes(commands, Leave(Leased(Freed(Done)))))))
  }

  /** Reading the state with the writer lock, and without it. */
  function StateWithLock(): Prog { IfLoop(Freed(InLoop(Owner(Done))), Freed(Owner(Done))) }

  function StateWithout(): Prog {
    Peek(InLoop(Owner(Done)), Choose(Owner(Done), WithRobot(Freed(Owner(Done)))))
  }

  function StartLoop(commands: nat): Prog {
    Create(Writes(commands, Choose(Freed(Done), InLoop(Spawn(Install(Freed(Done)))))))
  }

  function Program(r: Request): Prog {
    match r
    case AcquireLease => Owner(Leased(LeaseOr(Done, Done)))
    case ReleaseLease => LeaseOr(Done, TearDown(StopBackend(Done)))
    case Heartbeat => LeaseOr(Done, Done)
    case GetState => TryLock(RobotLock, StateWithLock(), StateWithout())
    case SetSafetyProfile => RequireLease(WithRobot(Write(Freed(Done))))
    case Motion(commands) => RequireLease(WithRobot(IfLoop(Freed(Done), MotionBody(commands))))
    case Stop =>
      var last := TryLock(RobotLock, Write(Freed(Done)), Done);
      TryLock(RobotLock, TakeLoop(Freed(StopLoop(last)), Freed(last)), Done)
    case StartServoLoop(commands) => RequireLease(WithRobot(IfLoop(Freed(Done), StartLoop(commands))))
    case ServoStream => RequireLease(WithRobot(IfLoop(Freed(InLoop(Done)), Freed(Done))))
    case StopServoLoop => RequireLease(TearDown(Done))
    case Shutdown => TearDown(Done)
  }

  /** One tick of the loop thread: it may pull a setpoint, looks at the buffer, then decides and
      writes under the writer lock; sending a gripper command touches the buffer once more. */
  function TickProgram(pulls: bool, commands: nat, grips: bool): Prog {
    InLoop(Pulling(pulls, InLoop(WithRobot(Writes(commands, Gripping(grips, Freed(Done)))))))
  }

  function Pulling(pulls: bool, next: Prog): Prog { if pulls then InLoop(next) else next }

  function Gripping(grips: bool, next: Prog): Prog { if grips then Write(InLoop(next)) else next }

  /** Only lock, unlock and write. */
  predicate Plain(p: Prog)
    decreases p
  {
    match p
    case Done => true
    case Lock(_, next) => Plain(next)
    case Unlock(_, next) => Plain(next)
    case Write(next) => Plain(next)
    case _ => false
  }

  // Every program follows the discipline.

  lemma LeasedOk(next: Prog, k: Known)
    requires MayLock(LeaseLock, k) && Ok(next, k)
    ensures Ok(Leased(next), k)
  {
    assert Unlocked(Locked(k, LeaseLock), LeaseLock) == k;
  }

  lemma LeaseOrOk(fails: Prog, next: Prog, k: Known)
    requires MayLock(LeaseLock, k) && Ok(fails, k) && Ok(next, k)
    ensures Ok(LeaseOr(fails, next), k)
  {
    assert Unlocked(Locked(k, LeaseLock), LeaseLock) == k;
  }

  lemma InLoopOk(next: Prog, k: Known)
    requires MayLock(LoopLock, k) && Ok(next, k)
    ensures Ok(InLoop(next), k)
  {
    assert Unlocked(Locked(k, LoopLock), LoopLock) == k;
  }

  lemma OwnerOk(next: Prog, k: Known)
    requires MayLock(LeaseLock, k) && Ok(next, k)
    ensures Ok(Owner(next), k)
  {
    LeasedOk(next, k);
    LeasedOk(Leased(next), k);
  }

  lemma CheckLeaseOk(fails: Prog, next: Prog, k: Known)
    requires MayLock(LeaseLock, k) && Ok(fails, k) && Ok(next, k)
    ensures Ok(CheckLease(fails, next), k)
  {
    LeaseOrOk(fails, next, k);
    LeasedOk(LeaseOr(fails, next), k);
  }

  lemma RequireLeaseOk(next: Prog)
    requires Ok(next, NOTHING)
    ensures Ok(RequireLease(next), NOTHING)
  {
    LeaseOrOk(Done, next, NOTHING);
    CheckLeaseOk(Done, LeaseOr(Done, next), NOTHING);
  }

  function Holding(k: Known): Known { k.(held := {RobotLock}, empty := false) }

  lemma WithRobotOk(body: Prog, k: Known)
    requires k.held == {} && !k.empty && Ok(body, Holding(k))
    ensures Ok(WithRobot(body), k)
  {
    assert Locked(k, RobotLock) == Holding(k);
  }

  lemma FreedOk(next: Prog, k: Known)
    requires k.held == {RobotLock} && !k.moving && Ok(next, k.(held := {}, empty := false))
    ensures Ok(Freed(next), k)
  {
    assert Unlocked(k, RobotLock) == k.(held := {}, empty := false);
  }

  lemma StopBackendOk(next: Prog, k: Known)
    requires k.held == {} && !k.empty && !k.moving && Ok(next, k)
    ensures Ok(StopBackend(next), k)
  {
    FreedOk(next, Holding(k));
    WithRobotOk(Write(Freed(next)), k);
  }

  lemma StopLoopOk(next: Prog, k: Known)
    requires k.held == {} && !k.empty && !k.moving && k.kind == Seen && Ok(next, k.(kind := Halted))
    ensures Ok(StopLoop(next), k)
  {
    StopBackendOk(next, k.(kind := Halted));
  }

  lemma TakeLoopOk(next: Prog)
    requires Ok(next, NOTHING) && Ok(next, NOTHING.(kind := Halted))
    ensures Ok(TakeLoop(Freed(StopLoop(next)), Freed(next)), Holding(NOTHING))
  {
    var k := Holding(NOTHING).(empty := true);
    StopLoopOk(next, NOTHING.(kind := Seen));
    FreedOk(StopLoop(next), k.(kind := Seen));
    FreedOk(next, k);
  }

  lemma TearDownOk(next: Prog)
    requires Ok(next, NOTHING) && Ok(next, NOTHING.(kind := Halted))
    ensures Ok(TearDown(next), NOTHING)
  {
    TakeLoopOk(next);
    WithRobotOk(TakeLoop(Freed(StopLoop(next)), Freed(next)), NOTHING);
  }

  lemma {:induction false} WritesOk(n: nat, next: Prog, k: Known)
    requires RobotLock in k.held && Ok(next, k)
    ensures Ok(Writes(n, next), k)
  {
    if n > 0 { WritesOk(n - 1, next, k); }
  }

  lemma MotionBodyOk(commands: nat)
    ensures Ok(MotionBody(commands), Holding(NOTHING).(empty := true))
  {
    var k := Holding(NOTHING).(empty := true);
    FreedOk(Done, k);
    LeasedOk(Freed(Done), k);
    WritesOk(commands, Leave(Leased(Freed(Done))), k.(moving := true));
    LeasedOk(Enter(Writes(commands, Leave(Leased(Freed(Done))))), k);
    CheckLeaseOk(Freed(Done), Leased(Enter(Writes(commands, Leave(Leased(Freed(Done)))))), k);
  }

  lemma StartLoopOk(commands: nat)
    ensures Ok(StartLoop(commands), Holding(NOTHING).(empty := true))
  {
    var k := Holding(NOTHING).(empty := true, kind := Made);
    FreedOk(Done, k);
    FreedOk(Done, k.(kind := Seen, empty := false));
    InLoopOk(Spawn(Install(Freed(Done))), k);
    WritesOk(commands, Choose(Freed(Done), InLoop(Spawn(Install(Freed(Done))))), k);
  }

  lemma StateWithLockOk()
    ensures Ok(StateWithLock(), Holding(NOTHING))
  {
    var k, seen := Holding(NOTHING), NOTHING.(kind := Seen);
    OwnerOk(Done, NOTHING);
    OwnerOk(Done, seen);
    hide Owner;
    InLoopOk(Owner(Done), seen);
    FreedOk(InLoop(Owner(Done)), k.(kind := Seen));
    FreedOk(Owner(Done), k.(empty := true));
    hide Freed, InLoop;
  }

  lemma WaitForStateOk()
    ensures Ok(WithRobot(Freed(Owner(Done))), NOTHING) && Ok(Owner(Done), NOTHING)
  {
    OwnerOk(Done, NOTHING);
    hide Owner;
    FreedOk(Owner(Done), Holding(NOTHING));
    hide Freed;
    WithRobotOk(Freed(Owner(Done)), NOTHING);
  }

  lemma StateWithoutOk()
    ensures Ok(StateWithout(), NOTHING)
  {
    WaitForStateOk();
    OwnerOk(Done, NOTHING.(kind := Seen));
    hide Owner, Freed, WithRobot;
    InLoopOk(Owner(Done), NOTHING.(kind := Seen));
    hide InLoop;
  }

  lemma GetStateOk()
    ensures Ok(Program(GetState), NOTHING)
  {
    StateWithLockOk();
    StateWithoutOk();
    hide StateWithLock, StateWithout;
    assert Locked(NOTHING, RobotLock) == Holding(NOTHING);
  }

  lemma StopOk()
    ensures Ok(Program(Stop), NOTHING)
  {
    var last := TryLock(RobotLock, Write(Freed(Done)), Done);
    LastStopOk(NOTHING);
    LastStopOk(NOTHING.(kind := Halted));
    TakeLoopOk(last);
    assert Locked(NOTHING, RobotLock) == Holding(NOTHING);
  }

  lemma LastStopOk(k: Known)
    requires k.held == {} && !k.empty && !k.moving
    ensures Ok(TryLock(RobotLock, Write(Freed(Done)), Done), k)
  {
    FreedOk(Done, Holding(k));
    assert Locked(k, RobotLock) == Holding(k);
  }

  /** Every request handler follows the discipline from a standing start. */
  lemma HandlersFollowTheRules(r: Request)
    ensures Ok(Program(r), NOTHING)
  {
    var k := Holding(NOTHING);
    FreedOk(Done, k);
    FreedOk(Done, k.(empty := true));
    FreedOk(Done, k.(kind := Seen));
    hide Ok, Leased, LeaseOr, Owner, CheckLease, RequireLease, WithRobot, Freed, StopBackend, TearDown, InLoop,
      MotionBody, StartLoop;
    match r
    case AcquireLease => AcquireOk();
    case ReleaseLease => ReleaseOk();
    case Heartbeat => HeartbeatOk();
    case GetState => GetStateOk();
    case SetSafetyProfile => RequireLeaseOk(WithRobot(Write(Freed(Done)))) by { ProfileOk(); }
    case Motion(n) => RequireLeaseOk(WithRobot(IfLoop(Freed(Done), MotionBody(n)))) by { MotionOk(n); }
    case Stop => StopOk();
    case StartServoLoop(n) => RequireLeaseOk(WithRobot(IfLoop(Freed(Done), StartLoop(n)))) by { StartOk(n); }
    case ServoStream => RequireLeaseOk(WithRobot(IfLoop(Freed(InLoop(Done)), Freed(Done)))) by { StreamOk(); }
    case StopServoLoop => RequireLeaseOk(TearDown(Done)) by { EndOk(); }
    case Shutdown => EndOk();
  }

  lemma EndOk()
    ensures Ok(TearDown(Done), NOTHING)
  {
    TearDownOk(Done);
  }

  lemma AcquireOk()
    ensures Ok(Owner(Leased(LeaseOr(Done, Done))), NOTHING)
  {
    LeaseOrOk(Done, Done, NOTHING);
    LeasedOk(LeaseOr(Done, Done), NOTHING);
    OwnerOk(Leased(LeaseOr(Done, Done)), NOTHING);
  }

  lemma HeartbeatOk()
    ensures Ok(LeaseOr(Done, Done), NOTHING)
  {
    LeaseOrOk(Done, Done, NOTHING);
  }

  lemma ReleaseOk()
    ensures Ok(LeaseOr(Done, TearDown(StopBackend(Done))), NOTHING)
  {
    StopBackendOk(Done, NOTHING);
    StopBackendOk(Done, NOTHING.(kind := Halted));
    TearDownOk(StopBackend(Done));
    LeaseOrOk(Done, TearDown(StopBackend(Done)), NOTHING);
  }

  lemma ProfileOk()
    ensures Ok(WithRobot(Write(Freed(Done))), NOTHING)
  {
    FreedOk(Done, Holding(NOTHING));
    WithRobotOk(Write(Freed(Done)), NOTHING);
  }

  lemma MotionOk(n: nat)
    ensures Ok(WithRobot(IfLoop(Freed(Done), MotionBody(n))), NOTHING)
  {
    MotionBodyOk(n);
    FreedOk(Done, Holding(NOTHING).(kind := Seen));
    WithRobotOk(IfLoop(Freed(Done), MotionBody(n)), NOTHING);
  }

  lemma StartOk(n: nat)
    ensures Ok(WithRobot(IfLoop(Freed(Done), StartLoop(n))), NOTHING)
  {
    StartLoopOk(n);
    FreedOk(Done, Holding(NOTHING).(kind := Seen));
    WithRobotOk(IfLoop(Freed(Done), StartLoop(n)), NOTHING);
  }

  lemma StreamOk()
    ensures Ok(WithRobot(IfLoop(Freed(InLoop(Done)), Freed(Done))), NOTHING)
  {
    var k := Holding(NOTHING);
    InLoopOk(Done, NOTHING.(kind := Seen));
    FreedOk(InLoop(Done), k.(kind := Seen));
    FreedOk(Done, k.(empty := true));
    WithRobotOk(IfLoop(Freed(InLoop(Done)), Freed(Done)), NOTHING);
  }

  /** So does every tick of the loop thread, which never waits for another thread to end. */
  lemma TicksFollowTheRules(pulls: bool, commands: nat, grips: bool)
    ensures Ok(TickProgram(pulls, commands, grips), NOTHING.(kind := Seen))
    ensures Plain(TickProgram(pulls, commands, grips))
  {
    var k := NOTHING.(kind := Seen);
    FreedOk(Done, Holding(k));
    InLoopOk(Freed(Done), Holding(k));
    var section := Gripping(grips, Freed(Done));
    WritesOk(commands, section, Holding(k));
    assert Plain(section);
    WritesPlain(commands, section);
    WithRobotOk(Writes(commands, section), k);
    var look := InLoop(WithRobot(Writes(commands, section)));
    assert Plain(WithRobot(Writes(commands, section)));
    assert Plain(look);
    assert Plain(Pulling(pulls, look));
    InLoopOk(WithRobot(Writes(commands, section)), k);
    InLoopOk(look, k);
    InLoopOk(Pulling(pulls, look), k);
  }

  lemma {:induction false} WritesPlain(n: nat, next: Prog)
    requires Plain(next)
    ensures Plain(Writes(n, next))
  {
    if n > 0 { WritesPlain(n - 1, next); }
  }
}
