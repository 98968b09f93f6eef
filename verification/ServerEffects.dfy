/** What the server's programs do, for every way their branches can go. */
module ServerEffects {
  import opened ServerPrograms

  /** What a program leaves behind: a command to the backend, a touch of a loop's buffer, and what happens
      to loops and motions. */
  datatype Effect = Sent | Touched | Took | Told | Joined | Constructed | Started | Installed | Entered | Left

  /** The effects of a program whose branches go by the answers, in order: yes for a lock that is got, a
      loop that is there, a lease that is refused. Missing answers are no. */
  function Effects(p: Prog, answers: seq<bool>): seq<Effect>
    decreases p
  {
    match p
    case Done => []
    case Lock(name, next) => (if name == LoopLock then [Touched] else []) + Effects(next, answers)
    case Unlock(_, next) => Effects(next, answers)
    case TryLock(_, got, busy) => if Yes(answers, 0) then Effects(got, Rest(answers)) else Effects(busy, Rest(answers))
    case Choose(left, right) => if Yes(answers, 0) then Effects(left, Rest(answers)) else Effects(right, Rest(answers))
    case IfLoop(yes, no) => if Yes(answers, 0) then Effects(yes, Rest(answers)) else Effects(no, Rest(answers))
    case Peek(yes, no) => if Yes(answers, 0) then Effects(yes, Rest(answers)) else Effects(no, Rest(answers))
    case TakeLoop(yes, no) =>
      if Yes(answers, 0) then [Took] + Effects(yes, Rest(answers)) else Effects(no, Rest(answers))
    case Write(next) => [Sent] + Effects(next, answers)
    case Create(next) => [Constructed] + Effects(next, answers)
    case Spawn(next) => [Started] + Effects(next, answers)
    case Install(next) => [Installed] + Effects(next, answers)
    case Halt(next) => [Told] + Effects(next, answers)
    case Join(next) => [Joined] + Effects(next, answers)
    case Enter(next) => [Entered] + Effects(next, answers)
    case Leave(next) => [Left] + Effects(next, answers)
  }

  predicate Yes(answers: seq<bool>, k: nat) { k < |answers| && answers[k] }

  function Rest(answers: seq<bool>): seq<bool> { if answers == [] then [] else answers[1..] }

  /** The answers from the k-th on. */
  function From(answers: seq<bool>, k: nat): seq<bool> { if k <= |answers| then answers[k..] else [] }

  lemma FromNext(answers: seq<bool>, k: nat)
    ensures Rest(From(answers, k)) == From(answers, k + 1) && Yes(From(answers, k), 0) == Yes(answers, k)
  {}

  function Commands(n: nat): seq<Effect> { seq(n, _ => Sent) }

  /** The end of a loop: it is taken out, told to stop and waited for before the backend is stopped. */
  const ENDED := [Took, Told, Joined, Sent]

  // The pieces.

  lemma LeasedDoes(next: Prog, a: seq<bool>)
    ensures Effects(Leased(next), a) == Effects(next, a)
  {
    assert Effects(Unlock(LeaseLock, next), a) == Effects(next, a);
  }

  lemma LeaseOrDoes(fails: Prog, next: Prog, a: seq<bool>)
    ensures Effects(LeaseOr(fails, next), a) == if Yes(a, 0) then Effects(fails, Rest(a)) else Effects(next, Rest(a))
  {
    assert Effects(Unlock(LeaseLock, fails), Rest(a)) == Effects(fails, Rest(a));
    assert Effects(Unlock(LeaseLock, next), Rest(a)) == Effects(next, Rest(a));
    assert Effects(LeaseOr(fails, next), a) == Effects(Choose(Unlock(LeaseLock, fails), Unlock(LeaseLock, next)), a);
  }

  lemma FreedDoes(next: Prog, a: seq<bool>)
    ensures Effects(Freed(next), a) == Effects(next, a)
  {}

  lemma OwnerDoes(next: Prog, a: seq<bool>)
    ensures Effects(Owner(next), a) == Effects(next, a)
  {
    hide Effects, Leased;
    LeasedDoes(next, a);
    LeasedDoes(Leased(next), a);
  }

  lemma CheckLeaseDoes(fails: Prog, next: Prog, a: seq<bool>)
    ensures Effects(CheckLease(fails, next), a) == if Yes(a, 0) then Effects(fails, Rest(a)) else Effects(next, Rest(a))
  {
    hide Effects, Leased, LeaseOr;
    LeasedDoes(LeaseOr(fails, next), a);
    LeaseOrDoes(fails, next, a);
  }

  lemma RequireLeaseDoes(next: Prog, a: seq<bool>)
    ensures Effects(RequireLease(next), a) == if Yes(a, 0) || Yes(a, 1) then [] else Effects(next, From(a, 2))
  {
    hide CheckLease, LeaseOr;
    CheckLeaseDoes(Done, LeaseOr(Done, next), a);
    LeaseOrDoes(Done, next, Rest(a));
    FromNext(a, 0);
    FromNext(a, 1);
    assert From(a, 0) == a;
  }

  lemma InLoopDoes(next: Prog, a: seq<bool>)
    ensures Effects(InLoop(next), a) == [Touched] + Effects(next, a)
  {
    assert Effects(Unlock(LoopLock, next), a) == Effects(next, a);
  }

  lemma {:induction false} WritesDoes(n: nat, next: Prog, a: seq<bool>)
    ensures Effects(Writes(n, next), a) == Commands(n) + Effects(next, a)
  {
    if n > 0 {
      WritesDoes(n - 1, next, a);
      assert Commands(n) == [Sent] + Commands(n - 1);
    }
  }

  lemma StopBackendDoes(next: Prog, a: seq<bool>)
    ensures Effects(StopBackend(next), a) == [Sent] + Effects(next, a)
  {
    assert Effects(Freed(next), a) == Effects(next, a);
    assert Effects(Write(Freed(next)), a) == [Sent] + Effects(next, a);
  }

  lemma StopLoopDoes(next: Prog, a: seq<bool>)
    ensures Effects(StopLoop(next), a) == [Told, Joined, Sent] + Effects(next, a)
  {
    hide StopBackend;
    StopBackendDoes(next, a);
    var stop := StopBackend(next);
    assert Effects(Join(stop), a) == [Joined, Sent] + Effects(next, a);
  }

  lemma TakeLoopDoes(yes: Prog, no: Prog, a: seq<bool>)
    ensures Effects(TakeLoop(yes, no), a) == if Yes(a, 0) then [Took] + Effects(yes, Rest(a)) else Effects(no, Rest(a))
  {}

  lemma TakeDoes(next: Prog, a: seq<bool>)
    ensures Effects(TakeLoop(Freed(StopLoop(next)), Freed(next)), a)
         == (if Yes(a, 0) then ENDED else []) + Effects(next, Rest(a))
  {
    hide StopLoop, Effects, Freed, Yes, Rest;
    TakeLoopDoes(Freed(StopLoop(next)), Freed(next), a);
    StopLoopDoes(next, Rest(a));
    FreedDoes(StopLoop(next), Rest(a));
    FreedDoes(next, Rest(a));
  }

  lemma TearDownDoes(next: Prog, a: seq<bool>)
    ensures Effects(TearDown(next), a) == (if Yes(a, 0) then ENDED else []) + Effects(next, Rest(a))
  {
    TakeDoes(next, a);
    hide StopLoop, Freed;
  }

  /** A branch on the installed loop under the writer lock. */
  lemma IfLoopDoes(yes: Prog, no: Prog, a: seq<bool>)
    ensures Effects(WithRobot(IfLoop(yes, no)), a) == if Yes(a, 0) then Effects(yes, Rest(a)) else Effects(no, Rest(a))
  {
    assert Effects(IfLoop(yes, no), a) == if Yes(a, 0) then Effects(yes, Rest(a)) else Effects(no, Rest(a));
  }

  // The handlers.

  lemma MotionDoes(n: nat, a: seq<bool>)
    ensures Effects(Program(Motion(n)), a)
         == if Yes(a, 0) || Yes(a, 1) || Yes(a, 2) || Yes(a, 3) then [] else [Entered] + Commands(n) + [Left]
  {
    hide RequireLease, CheckLease, Leased, Writes, Freed, WithRobot;
    RequireLeaseDoes(WithRobot(IfLoop(Freed(Done), MotionBody(n))), a);
    IfLoopDoes(Freed(Done), MotionBody(n), From(a, 2));
    FromNext(a, 2);
    FromNext(a, 3);
    var b, c := From(a, 3), From(a, 4);
    var rest := Leave(Leased(Freed(Done)));
    CheckLeaseDoes(Freed(Done), Leased(Enter(Writes(n, rest))), b);
    LeasedDoes(Enter(Writes(n, rest)), c);
    WritesDoes(n, rest, c);
    LeasedDoes(Freed(Done), c);
    FreedDoes(Done, From(a, 3));
    FreedDoes(Done, c);
    assert Effects(rest, c) == [Left];
    assert Effects(Enter(Writes(n, rest)), c) == [Entered] + Commands(n) + [Left];
  }

  lemma InstallDoes(a: seq<bool>)
    ensures Effects(Choose(Freed(Done), InLoop(Spawn(Install(Freed(Done))))), a)
         == if Yes(a, 0) then [] else [Touched, Started, Installed]
  {
    var last, c := Spawn(Install(Freed(Done))), Rest(a);
    InLoopDoes(last, c);
    FreedDoes(Done, c);
    hide InLoop, Freed;
    assert Effects(Install(Freed(Done)), c) == [Installed];
    assert Effects(last, c) == [Started, Installed];
  }

  lemma StartLoopDoes(n: nat, a: seq<bool>)
    ensures Effects(StartLoop(n), a) == [Constructed] + Commands(n) + if Yes(a, 0) then [] else [Touched, Started, Installed]
  {
    var choice := Choose(Freed(Done), InLoop(Spawn(Install(Freed(Done)))));
    InstallDoes(a);
    WritesDoes(n, choice, a);
    hide InLoop, Freed, Writes, Commands;
    assert Effects(StartLoop(n), a) == [Constructed] + Effects(Writes(n, choice), a);
  }

  lemma StartDoes(n: nat, a: seq<bool>)
    ensures Effects(Program(StartServoLoop(n)), a)
         == if Yes(a, 0) || Yes(a, 1) || Yes(a, 2) then []
            else [Constructed] + Commands(n) + if Yes(a, 3) then [] else [Touched, Started, Installed]
  {
    hide RequireLease, StartLoop, Freed, WithRobot, Commands;
    RequireLeaseDoes(WithRobot(IfLoop(Freed(Done), StartLoop(n))), a);
    IfLoopDoes(Freed(Done), StartLoop(n), From(a, 2));
    FromNext(a, 2);
    FromNext(a, 3);
    StartLoopDoes(n, From(a, 3));
    FreedDoes(Done, From(a, 3));
  }

  lemma StopDoes(a: seq<bool>)
    ensures Effects(Program(Stop), a)
         == if !Yes(a, 0) then [] else (if Yes(a, 1) then ENDED else []) + if Yes(a, 2) then [Sent] else []
  {
    var last := TryLock(RobotLock, Write(Freed(Done)), Done);
    TakeDoes(last, Rest(a));
    FromNext(a, 0);
    FromNext(a, 1);
    FromNext(a, 2);
    assert From(a, 0) == a;
    FreedDoes(Done, From(a, 3));
    hide Freed, StopLoop;
    assert Effects(Write(Freed(Done)), From(a, 3)) == [Sent];
    assert Effects(last, From(a, 2)) == if Yes(a, 2) then [Sent] else [];
  }

  lemma GetStateDoes(a: seq<bool>)
    ensures Effects(Program(GetState), a) == if Yes(a, 1) then [Touched] else []
  {
    FromNext(a, 0);
    FromNext(a, 1);
    FromNext(a, 2);
    assert From(a, 0) == a;
    var c := From(a, 2);
    OwnerDoes(Done, c);
    OwnerDoes(Done, From(a, 3));
    hide Owner;
    InLoopDoes(Owner(Done), c);
    hide InLoop;
    FreedDoes(InLoop(Owner(Done)), c);
    FreedDoes(Owner(Done), c);
    FreedDoes(Owner(Done), From(a, 3));
    hide Freed;
    assert Effects(WithRobot(Freed(Owner(Done))), From(a, 3)) == [];
    assert Effects(Choose(Owner(Done), WithRobot(Freed(Owner(Done)))), c) == [];
    assert Effects(StateWithLock(), From(a, 1)) == if Yes(a, 1) then [Touched] else [];
    assert Effects(StateWithout(), From(a, 1)) == if Yes(a, 1) then [Touched] else [];
  }

  lemma StreamDoes(a: seq<bool>)
    ensures Effects(Program(ServoStream), a) == if Yes(a, 0) || Yes(a, 1) || !Yes(a, 2) then [] else [Touched]
  {
    hide RequireLease, InLoop, Freed, WithRobot;
    RequireLeaseDoes(WithRobot(IfLoop(Freed(InLoop(Done)), Freed(Done))), a);
    IfLoopDoes(Freed(InLoop(Done)), Freed(Done), From(a, 2));
    FromNext(a, 2);
    FreedDoes(InLoop(Done), From(a, 3));
    FreedDoes(Done, From(a, 3));
    InLoopDoes(Done, From(a, 3));
  }

  lemma ReleaseDoes(a: seq<bool>)
    ensures Effects(Program(ReleaseLease), a) == if Yes(a, 0) then [] else (if Yes(a, 1) then ENDED else []) + [Sent]
  {
    hide LeaseOr, TearDown, StopBackend;
    LeaseOrDoes(Done, TearDown(StopBackend(Done)), a);
    FromNext(a, 0);
    FromNext(a, 1);
    assert From(a, 0) == a;
    TearDownDoes(StopBackend(Done), Rest(a));
    StopBackendDoes(Done, From(a, 2));
  }

  lemma ProfileDoes(a: seq<bool>)
    ensures Effects(Program(SetSafetyProfile), a) == if Yes(a, 0) || Yes(a, 1) then [] else [Sent]
  {
    hide RequireLease;
    RequireLeaseDoes(WithRobot(Write(Freed(Done))), a);
    assert Effects(Freed(Done), From(a, 2)) == [];
    assert Effects(Write(Freed(Done)), From(a, 2)) == [Sent];
  }

  lemma EndDoes(a: seq<bool>)
    ensures Effects(Program(StopServoLoop), a)
         == if Yes(a, 0) || Yes(a, 1) || !Yes(a, 2) then [] else ENDED
    ensures Effects(Program(Shutdown), a) == if Yes(a, 0) then ENDED else []
  {
    hide RequireLease, TearDown;
    RequireLeaseDoes(TearDown(Done), a);
    TearDownDoes(Done, From(a, 2));
    TearDownDoes(Done, a);
    FromNext(a, 2);
  }

  lemma QuietDoes(a: seq<bool>)
    ensures Effects(Program(AcquireLease), a) == [] && Effects(Program(Heartbeat), a) == []
  {
    hide Owner, Leased, LeaseOr;
    OwnerDoes(Leased(LeaseOr(Done, Done)), a);
    LeasedDoes(LeaseOr(Done, Done), a);
    LeaseOrDoes(Done, Done, a);
  }

  /** What every handler does, whatever it finds. A motion that has the lease (at both looks) and finds no
      loop sends exactly its commands, inside its body, and one that does not sends nothing; a loop is
      made, started and then installed; whoever takes a loop out tells it to stop, waits for its end and
      only then stops the backend; reading and streaming touch the loop's buffer and send nothing. */
  lemma HandlersDo(r: Request, a: seq<bool>)
    ensures Effects(Program(r), a) ==
      match r
      case AcquireLease => []
      case Heartbeat => []
      case GetState => if Yes(a, 1) then [Touched] else []
      case SetSafetyProfile => if Yes(a, 0) || Yes(a, 1) then [] else [Sent]
      case Motion(n) =>
        if Yes(a, 0) || Yes(a, 1) || Yes(a, 2) || Yes(a, 3) then [] else [Entered] + Commands(n) + [Left]
      case ServoStream => if Yes(a, 0) || Yes(a, 1) || !Yes(a, 2) then [] else [Touched]
      case StartServoLoop(n) =>
        if Yes(a, 0) || Yes(a, 1) || Yes(a, 2) then []
        else [Constructed] + Commands(n) + (if Yes(a, 3) then [] else [Touched, Started, Installed])
      case StopServoLoop => if Yes(a, 0) || Yes(a, 1) || !Yes(a, 2) then [] else [Took, Told, Joined, Sent]
      case Shutdown => if Yes(a, 0) then [Took, Told, Joined, Sent] else []
      case ReleaseLease =>
        if Yes(a, 0) then [] else (if Yes(a, 1) then [Took, Told, Joined, Sent] else []) + [Sent]
      case Stop =>
        if !Yes(a, 0) then []
        else (if Yes(a, 1) then [Took, Told, Joined, Sent] else []) + (if Yes(a, 2) then [Sent] else [])
  {
    hide Effects, Program;
    match r
    case AcquireLease => QuietDoes(a);
    case Heartbeat => QuietDoes(a);
    case GetState => GetStateDoes(a);
    case SetSafetyProfile => ProfileDoes(a);
    case Motion(n) => MotionDoes(n, a);
    case ServoStream => StreamDoes(a);
    case StartServoLoop(n) => StartDoes(n, a);
    case StopServoLoop => EndDoes(a);
    case Shutdown => EndDoes(a);
    case ReleaseLease => ReleaseDoes(a);
    case Stop => StopDoes(a);
  }

  lemma GrippingDoes(grips: bool)
    ensures Effects(Gripping(grips, Freed(Done)), []) == if grips then [Sent, Touched] else []
  {
    FreedDoes(Done, []);
    InLoopDoes(Freed(Done), []);
    hide InLoop, Freed;
    if grips { assert Effects(Write(InLoop(Freed(Done))), []) == [Sent, Touched]; }
  }

  lemma SectionDoes(commands: nat, grips: bool)
    ensures Effects(WithRobot(Writes(commands, Gripping(grips, Freed(Done)))), [])
         == Commands(commands) + if grips then [Sent, Touched] else []
  {
    hide Gripping, Freed, Commands;
    var section := Gripping(grips, Freed(Done));
    GrippingDoes(grips);
    WritesDoes(commands, section, []);
    hide Writes;
    assert Effects(WithRobot(Writes(commands, section)), []) == Effects(Writes(commands, section), []);
  }

  lemma PullingDoes(pulls: bool, next: Prog)
    ensures Effects(Pulling(pulls, next), []) == (if pulls then [Touched] else []) + Effects(next, [])
  {
    InLoopDoes(next, []);
    hide InLoop, Effects;
  }

  /** A tick touches the buffer to see the iterator, to pull from it, and to look; it sends its commands,
      and after a gripper command it touches the buffer once more. */
  lemma TicksDo(pulls: bool, commands: nat, grips: bool)
    ensures Effects(TickProgram(pulls, commands, grips), [])
         == [Touched] + (if pulls then [Touched] else []) + [Touched] + Commands(commands)
            + (if grips then [Sent, Touched] else [])
  {
    hide Effects, InLoop, WithRobot, Gripping, Writes, Freed, Pulling, Commands;
    var body := WithRobot(Writes(commands, Gripping(grips, Freed(Done))));
    SectionDoes(commands, grips);
    InLoopDoes(body, []);
    PullingDoes(pulls, InLoop(body));
    InLoopDoes(Pulling(pulls, InLoop(body)), []);
  }
}
