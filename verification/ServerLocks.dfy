/** All threads of the server together: one writer at a time, no servo loop beside a blocking
    motion, and no deadlock. */
module ServerLocks {
  import opened Numbers
  import opened ServerPrograms

  /** Client threads serve requests one after the other. Every servo loop is a thread of its own:
      made, running, told to stop, finished. */
  datatype Status = Client | Fresh | Running | Stopping | Finished

  /** `loop` is the loop object the thread refers to, identified with that loop's thread. */
  datatype Thread = Thread(prog: Prog, k: Known, loop: nat, status: Status)

  datatype World = World(threads: seq<Thread>, installed: Option<nat>)

  datatype Move =
    | Go
    | Left
    | Right
    | Expire                                   // gives up a timed wait
    | Serve(request: Request)
    | Tick(pulls: bool, commands: nat, grips: bool)
    | Quit

  predicate Holds(t: Thread, name: Name, loop: nat) {
    name in t.k.held && (name == LoopLock ==> t.loop == loop)
  }

  /** No other thread holds the lock that thread `i` asks for. */
  predicate Free(w: World, i: nat, name: Name)
    requires i < |w.threads|
  {
    forall j | 0 <= j < |w.threads| && j != i :: !Holds(w.threads[j], name, w.threads[i].loop)
  }

  predicate Can(w: World, i: nat, m: Move)
    requires i < |w.threads|
  {
    var t := w.threads[i];
    match t.prog
    case Done =>
      || (t.status == Client && m.Serve?)
      || (t.status == Running && (m.Tick? || m.Quit?))
      || (t.status == Stopping && m.Quit?)
    case Lock(name, _) => m == Go && Free(w, i, name)
    case TryLock(name, _, _) => (m == Go && Free(w, i, name)) || m == Expire
    case Choose(_, _) => m == Left || m == Right
    case Join(_) => (m == Go && t.loop < |w.threads| && w.threads[t.loop].status == Finished) || m == Expire
    case _ => m == Go
  }

  function Continue(t: Thread, next: Prog, k: Known): Thread { t.(prog := next, k := k) }

  function Put(w: World, i: nat, t: Thread): World
    requires i < |w.threads|
  {
    w.(threads := w.threads[i := t])
  }

  function Told(s: Status): Status { if s == Running then Stopping else s }

  function SetStatus(w: World, i: nat, s: Status): World
    requires i < |w.threads|
  {
    Put(w, i, w.threads[i].(status := s))
  }

  function Do(w: World, i: nat, m: Move): World
    requires i < |w.threads| && Can(w, i, m)
  {
    var t := w.threads[i];
    var k := t.k;
    match t.prog
    case Done =>
      if m.Serve? then Put(w, i, Thread(Program(m.request), NOTHING, t.loop, Client))
      else if m.Tick? then Put(w, i, t.(prog := TickProgram(m.pulls, m.commands, m.grips)))
      else SetStatus(w, i, Finished)
    case Lock(name, next) => Put(w, i, Continue(t, next, Locked(k, name)))
    case TryLock(name, got, busy) =>
      Put(w, i, if m == Go then Continue(t, got, Locked(k, name)) else Continue(t, busy, k))
    case Unlock(name, next) => Put(w, i, Continue(t, next, Unlocked(k, name)))
    case Choose(left, right) => Put(w, i, Continue(t, if m == Left then left else right, k))
    case Write(next) => Put(w, i, Continue(t, next, k))
    case IfLoop(yes, no) =>
      if w.installed.Some? then Put(w, i, Continue(t, yes, k.(kind := Seen)).(loop := w.installed.value))
      else Put(w, i, Continue(t, no, k.(empty := true)))
    case Peek(yes, no) =>
      if w.installed.Some? then Put(w, i, Continue(t, yes, k.(kind := Seen)).(loop := w.installed.value))
      else Put(w, i, Continue(t, no, k))
    case TakeLoop(yes, no) =>
      if w.installed.Some?
      then Put(w, i, Continue(t, yes, k.(kind := Seen, empty := true)).(loop := w.installed.value)).(installed := None)
      else Put(w, i, Continue(t, no, k.(empty := true)))
    case Create(next) =>
      var n := |w.threads|;
      var w' := Put(w, i, Continue(t, next, k.(kind := Made)).(loop := n));
      w'.(threads := w'.threads + [Thread(Done, NOTHING.(kind := Seen), n, Fresh)])
    case Spawn(next) =>
      var w' := Put(w, i, Continue(t, next, k.(kind := Began)));
      if t.loop < |w.threads| then SetStatus(w', t.loop, Running) else w'
    case Install(next) => Put(w, i, Continue(t, next, k.(kind := Seen, empty := false))).(installed := Some(t.loop))
    case Halt(next) =>
      var w' := Put(w, i, Continue(t, next, k.(kind := Halted)));
      if t.loop < |w.threads| then SetStatus(w', t.loop, Told(w'.threads[t.loop].status)) else w'
    case Join(next) => Put(w, i, Continue(t, next, k))
    case Enter(next) => Put(w, i, Continue(t, next, k.(moving := true)))
    case Leave(next) => Put(w, i, Continue(t, next, k.(moving := false)))
  }

  // The invariant.

  /** What holds of one thread. */
  predicate Local(w: World, i: nat)
    requires i < |w.threads|
  {
    var t := w.threads[i];
    && Ok(t.prog, t.k)
    && (t.k.empty ==> w.installed == None && RobotLock in t.k.held)
    && (t.k.moving ==> t.k.empty)
    && (LoopLock in t.k.held ==> t.k.kind != NoLoop)
    && if t.status == Client then RefersWell(w, i)
       else t.loop == i && t.k.kind == Seen && Plain(t.prog) && !t.k.empty
            && (t.status == Fresh || t.status == Finished ==> t.prog == Done)
  }

  /** A client's loop is a loop thread, in the state the client knows it to be in. */
  predicate RefersWell(w: World, i: nat)
    requires i < |w.threads|
  {
    var t := w.threads[i];
    t.k.kind != NoLoop ==>
      && t.loop < |w.threads| && w.threads[t.loop].status != Client
      && (t.k.kind == Made <==> w.threads[t.loop].status == Fresh)
      && (t.k.kind == Made ==> w.installed != Some(t.loop))
      && (t.k.kind == Halted ==> w.threads[t.loop].status != Running)
  }

  /** What holds of two threads: they hold no lock in common, and a loop under construction is known
      to its maker only. */
  predicate Apart(a: Thread, b: Thread) {
    && (RobotLock in a.k.held ==> RobotLock !in b.k.held)
    && (LeaseLock in a.k.held ==> LeaseLock !in b.k.held)
    && (LoopLock in a.k.held && LoopLock in b.k.held ==> a.loop != b.loop)
    && (a.k.kind == Made && b.status == Client && b.k.kind != NoLoop ==> a.loop != b.loop)
    && (b.k.kind == Made && a.status == Client && a.k.kind != NoLoop ==> a.loop != b.loop)
  }

  predicate InstalledWell(w: World) {
    w.installed.Some? ==>
      && w.installed.value < |w.threads|
      && w.threads[w.installed.value].status != Client && w.threads[w.installed.value].status != Fresh
  }

  predicate Inv(w: World) {
    && InstalledWell(w)
    && (forall i | 0 <= i < |w.threads| :: Local(w, i))
    && (forall i, j | 0 <= i < j < |w.threads| :: Apart(w.threads[i], w.threads[j]))
  }

  /** Any number of idle clients, and no loop. */
  predicate Initial(w: World) {
    && w.installed == None
    && forall i | 0 <= i < |w.threads| :: w.threads[i] == Thread(Done, NOTHING, 0, Client)
  }

  lemma InitialIsFine(w: World)
    requires Initial(w)
    ensures Inv(w)
  {}

  // Every step keeps the invariant.

  lemma ApartBoth(w: World, i: nat, j: nat)
    requires Inv(w) && i < |w.threads| && j < |w.threads| && i != j
    ensures Apart(w.threads[i], w.threads[j])
  {
    if i < j { assert Apart(w.threads[i], w.threads[j]); } else { assert Apart(w.threads[j], w.threads[i]); }
  }

  /** A step that changes one thread only. */
  lemma PutKeeps(w: World, i: nat, t: Thread)
    requires Inv(w) && i < |w.threads| && t.status == w.threads[i].status
    requires Local(Put(w, i, t), i)
    requires forall j | 0 <= j < |w.threads| && j != i :: Apart(t, w.threads[j])
    ensures Inv(Put(w, i, t))
  {
    hide Ok, Plain;
    var w' := Put(w, i, t);
    forall j | 0 <= j < |w'.threads| ensures Local(w', j) {
      if j != i { assert Local(w, j); }
    }
    hide Local;
    forall a, b | 0 <= a < b < |w'.threads| ensures Apart(w'.threads[a], w'.threads[b]) {
      if a != i && b != i { assert Apart(w.threads[a], w.threads[b]); }
    }
  }

  /** Steps that take nothing and learn nothing new about loops. */
  lemma LessIsApart(t: Thread, t': Thread, b: Thread)
    requires Apart(t, b) && t'.status == t.status && t'.loop == t.loop && t'.k.held <= t.k.held
    requires t'.k.kind == t.k.kind || (t.k.kind != NoLoop && t'.k.kind != Made)
    ensures Apart(t', b)
  {}

  lemma QuietStep(w: World, i: nat, t: Thread)
    requires Inv(w) && i < |w.threads| && t.status == w.threads[i].status && t.loop == w.threads[i].loop
    requires t.k.held <= w.threads[i].k.held && t.k.kind == w.threads[i].k.kind
    requires Local(Put(w, i, t), i)
    ensures Inv(Put(w, i, t))
  {
    forall j | 0 <= j < |w.threads| && j != i ensures Apart(t, w.threads[j]) {
      ApartBoth(w, i, j);
      LessIsApart(w.threads[i], t, w.threads[j]);
    }
    PutKeeps(w, i, t);
  }

  /** Program steps other than those that touch a loop. */
  predicate Simple(p: Prog) {
    p.Lock? || p.TryLock? || p.Unlock? || p.Choose? || p.Write? || p.Join? || p.Enter? || p.Leave?
  }

  lemma SimpleStep(w: World, i: nat, m: Move)
    requires Inv(w) && i < |w.threads| && Can(w, i, m) && Simple(w.threads[i].prog)
    ensures Inv(Do(w, i, m))
  {
    assert Local(w, i);
    var t := w.threads[i];
    var t' := Do(w, i, m).threads[i];
    if t'.k.held <= t.k.held {
      QuietStep(w, i, t');
    } else {
      hide Ok, Plain;
      forall j | 0 <= j < |w.threads| && j != i ensures Apart(t', w.threads[j]) {
        ApartBoth(w, i, j);
      }
      hide Apart;
      LockedIsLocal(w, i, m);
      PutKeeps(w, i, t');
    }
  }

  lemma LockedIsLocal(w: World, i: nat, m: Move)
    requires i < |w.threads| && Local(w, i) && Can(w, i, m)
    requires w.threads[i].prog.Lock? || (w.threads[i].prog.TryLock? && m == Go)
    ensures Local(Do(w, i, m), i)
  {}

  lemma DoneStep(w: World, i: nat, m: Move)
    requires Inv(w) && i < |w.threads| && Can(w, i, m) && w.threads[i].prog.Done?
    ensures Inv(Do(w, i, m))
  {
    assert Local(w, i);
    var t := w.threads[i];
    if m.Serve? {
      HandlersFollowTheRules(m.request);
      hide Program, Ok, Plain;
      var t' := Thread(Program(m.request), NOTHING, t.loop, Client);
      forall j | 0 <= j < |w.threads| && j != i ensures Apart(t', w.threads[j]) {
        ApartBoth(w, i, j);
      }
      PutKeeps(w, i, t');
    } else if m.Tick? {
      TicksFollowTheRules(m.pulls, m.commands, m.grips);
      assert t.k == NOTHING.(kind := Seen);
      hide TickProgram, Ok, Plain;
      QuietStep(w, i, t.(prog := TickProgram(m.pulls, m.commands, m.grips)));
    } else {
      hide Ok, Plain;
      StatusStep(w, i, Finished);
    }
  }

  /** A loop thread goes on to stopping or finished. */
  lemma StatusStep(w: World, i: nat, s: Status)
    requires Inv(w) && i < |w.threads| && w.threads[i].status != Client && w.threads[i].status != Fresh
    requires s == Stopping || (s == Finished && w.threads[i].prog == Done)
    ensures Inv(SetStatus(w, i, s))
  {
    hide Ok, Plain;
    var w' := SetStatus(w, i, s);
    forall j | 0 <= j < |w'.threads| ensures Local(w', j) {
      assert Local(w, j);
    }
    forall a, b | 0 <= a < b < |w'.threads| ensures Apart(w'.threads[a], w'.threads[b]) {
      assert Apart(w.threads[a], w.threads[b]);
    }
  }

  lemma SeenIsApart(w: World, i: nat, t: Thread, j: nat)
    requires Inv(w) && i < |w.threads| && j < |w.threads| && i != j && w.installed == Some(t.loop)
    requires w.threads[i].status == Client && t.status == Client && t.k.kind == Seen
    requires t.k.held <= w.threads[i].k.held && LoopLock !in t.k.held
    ensures Apart(t, w.threads[j])
  {
    hide Ok, Plain;
    ApartBoth(w, i, j);
    assert Local(w, j);
  }

  lemma LookStep(w: World, i: nat)
    requires Inv(w) && i < |w.threads| && (w.threads[i].prog.IfLoop? || w.threads[i].prog.Peek?)
    ensures Inv(Do(w, i, Go))
  {
    assert Local(w, i);
    var t' := Do(w, i, Go).threads[i];
    LookIsLocal(w, i);
    hide Ok, Plain, Local;
    if w.installed.Some? {
      forall j | 0 <= j < |w.threads| && j != i ensures Apart(t', w.threads[j]) {
        SeenIsApart(w, i, t', j);
      }
      PutKeeps(w, i, t');
    } else {
      QuietStep(w, i, t');
    }
  }

  lemma LookIsLocal(w: World, i: nat)
    requires InstalledWell(w) && i < |w.threads| && Local(w, i) && (w.threads[i].prog.IfLoop? || w.threads[i].prog.Peek?)
    ensures w.threads[i].status == Client && LoopLock !in w.threads[i].k.held
    ensures Local(Do(w, i, Go), i)
  {}

  /** Whoever holds the writer lock is the only one to know that no loop is installed. */
  lemma OthersDoNotKnow(w: World, i: nat, j: nat)
    requires Inv(w) && i < |w.threads| && j < |w.threads| && i != j && RobotLock in w.threads[i].k.held
    ensures !w.threads[j].k.empty && !w.threads[j].k.moving
  {
    hide Ok, Plain;
    ApartBoth(w, i, j);
    assert Local(w, j);
  }

  lemma TakeStep(w: World, i: nat)
    requires Inv(w) && i < |w.threads| && w.threads[i].prog.TakeLoop?
    ensures Inv(Do(w, i, Go))
  {
    assert Local(w, i);
    var w' := Do(w, i, Go);
    var t' := w'.threads[i];
    TakeIsLocal(w, i);
    hide Ok, Plain;
    forall j | 0 <= j < |w.threads| ensures Local(w', j) {
      if j != i { assert Local(w, j); }
    }
    hide Local;
    forall j | 0 <= j < |w.threads| && j != i ensures Apart(t', w.threads[j]) {
      ApartBoth(w, i, j);
      if w.installed.Some? { SeenIsApart(w, i, t', j); }
    }
    forall a, b | 0 <= a < b < |w'.threads| ensures Apart(w'.threads[a], w'.threads[b]) {
      if a != i && b != i { assert Apart(w.threads[a], w.threads[b]); }
    }
  }

  lemma TakeIsLocal(w: World, i: nat)
    requires InstalledWell(w) && i < |w.threads| && Local(w, i) && w.threads[i].prog.TakeLoop?
    ensures w.threads[i].status == Client && LoopLock !in w.threads[i].k.held
    ensures Local(Do(w, i, Go), i)
  {}

  lemma InstallStep(w: World, i: nat)
    requires Inv(w) && i < |w.threads| && w.threads[i].prog.Install?
    ensures Inv(Do(w, i, Go))
  {
    assert Local(w, i);
    var w' := Do(w, i, Go);
    var t' := w'.threads[i];
    InstallIsLocal(w, i);
    hide Ok, Plain;
    forall j | 0 <= j < |w.threads| && j != i ensures Apart(t', w.threads[j]) {
      ApartBoth(w, i, j);
    }
    forall j | 0 <= j < |w.threads| ensures Local(w', j) {
      if j != i {
        assert Local(w, j);
        OthersDoNotKnow(w, i, j);
        ApartBoth(w, i, j);
      }
    }
    hide Local;
    forall a, b | 0 <= a < b < |w'.threads| ensures Apart(w'.threads[a], w'.threads[b]) {
      if a != i && b != i { assert Apart(w.threads[a], w.threads[b]); }
    }
  }

  lemma InstallIsLocal(w: World, i: nat)
    requires i < |w.threads| && Local(w, i) && w.threads[i].prog.Install?
    ensures w.threads[i].status == Client && RobotLock in w.threads[i].k.held
    ensures w.threads[i].loop < |w.threads| && w.threads[i].k.kind == Began
    ensures w.threads[w.threads[i].loop].status != Client && w.threads[w.threads[i].loop].status != Fresh
    ensures Local(Do(w, i, Go), i)
  {}

  lemma CreateStep(w: World, i: nat)
    requires Inv(w) && i < |w.threads| && w.threads[i].prog.Create?
    ensures Inv(Do(w, i, Go))
  {
    assert Local(w, i);
    var w' := Do(w, i, Go);
    var n := |w.threads|;
    CreateIsLocal(w, i);
    hide Ok, Plain;
    forall j | 0 <= j < n && j != i ensures Local(w', j) && Apart(w'.threads[i], w.threads[j]) {
      assert Local(w, j);
      ApartBoth(w, i, j);
    }
    forall j | 0 <= j < n ensures Apart(w'.threads[j], w'.threads[n]) {
      assert Local(w', j);
    }
    hide Local;
    forall a, b | 0 <= a < b < |w'.threads| ensures Apart(w'.threads[a], w'.threads[b]) {
      if b < n && a != i && b != i { assert Apart(w.threads[a], w.threads[b]); }
    }
  }

  lemma CreateIsLocal(w: World, i: nat)
    requires InstalledWell(w) && i < |w.threads| && Local(w, i) && w.threads[i].prog.Create?
    ensures w.threads[i].status == Client && LoopLock !in w.threads[i].k.held
    ensures Local(Do(w, i, Go), i) && Local(Do(w, i, Go), |w.threads|)
  {}

  lemma SpawnStep(w: World, i: nat)
    requires Inv(w) && i < |w.threads| && w.threads[i].prog.Spawn?
    ensures Inv(Do(w, i, Go))
  {
    assert Local(w, i);
    var w' := Do(w, i, Go);
    var loop := w.threads[i].loop;
    SpawnIsLocal(w, i);
    assert Local(w, loop);
    hide Ok, Plain;
    forall j | 0 <= j < |w.threads| ensures Local(w', j) {
      if j != i {
        assert Local(w, j);
        ApartBoth(w, i, j);
      }
    }
    forall a, b | 0 <= a < b < |w'.threads| ensures Apart(w'.threads[a], w'.threads[b]) {
      assert Apart(w.threads[a], w.threads[b]);
    }
  }

  lemma SpawnIsLocal(w: World, i: nat)
    requires i < |w.threads| && Local(w, i) && w.threads[i].prog.Spawn?
    ensures w.threads[i].status == Client && w.threads[i].loop < |w.threads| && w.threads[i].loop != i
    ensures w.threads[w.threads[i].loop].status == Fresh && w.threads[i].k.kind == Made
    ensures Local(Do(w, i, Go), i)
  {}

  lemma HaltStep(w: World, i: nat)
    requires Inv(w) && i < |w.threads| && w.threads[i].prog.Halt?
    ensures Inv(Do(w, i, Go))
  {
    assert Local(w, i);
    var t := w.threads[i];
    var t' := Continue(t, t.prog.next, t.k.(kind := Halted));
    HaltIsLocal(w, i);
    var loop := t.loop;
    var w' := if w.threads[loop].status == Running then SetStatus(w, loop, Stopping) else w;
    hide Ok, Plain;
    if w.threads[loop].status == Running { StatusStep(w, loop, Stopping); }
    forall j | 0 <= j < |w.threads| && j != i ensures Apart(t', w'.threads[j]) {
      ApartBoth(w', i, j);
      LessIsApart(t, t', w'.threads[j]);
    }
    assert Put(w', i, t') == Do(w, i, Go);
    PutKeeps(w', i, t');
  }

  lemma HaltIsLocal(w: World, i: nat)
    requires i < |w.threads| && Local(w, i) && w.threads[i].prog.Halt?
    ensures w.threads[i].status == Client && w.threads[i].loop < |w.threads| && w.threads[i].loop != i
    ensures w.threads[w.threads[i].loop].status != Client && w.threads[w.threads[i].loop].status != Fresh
    ensures Local(Do(w, i, Go), i)
  {}

  lemma StepKeepsInv(w: World, i: nat, m: Move)
    requires Inv(w) && i < |w.threads| && Can(w, i, m)
    ensures Inv(Do(w, i, m))
  {
    var p := w.threads[i].prog;
    if Simple(p) {
      SimpleStep(w, i, m);
    } else {
      match p
      case Done => DoneStep(w, i, m);
      case IfLoop(_, _) => LookStep(w, i);
      case Peek(_, _) => LookStep(w, i);
      case TakeLoop(_, _) => TakeStep(w, i);
      case Create(_) => CreateStep(w, i);
      case Spawn(_) => SpawnStep(w, i);
      case Install(_) => InstallStep(w, i);
      case Halt(_) => HaltStep(w, i);
    }
  }

  // Every run.

  datatype Step = Step(thread: nat, move: Move)

  /** Any interleaving of the threads' steps, from a server that has just started. */
  ghost predicate IsRun(worlds: seq<World>, steps: seq<Step>) {
    && |worlds| == |steps| + 1 && Initial(worlds[0])
    && forall s | 0 <= s < |steps| ::
      && steps[s].thread < |worlds[s].threads| && Can(worlds[s], steps[s].thread, steps[s].move)
      && worlds[s + 1] == Do(worlds[s], steps[s].thread, steps[s].move)
  }

  lemma {:induction false} RunKeepsInv(worlds: seq<World>, steps: seq<Step>, n: nat)
    requires IsRun(worlds, steps) && n < |worlds|
    ensures Inv(worlds[n])
  {
    hide Inv, Can, Do, Initial;
    if n == 0 {
      InitialIsFine(worlds[0]);
    } else {
      RunKeepsInv(worlds, steps, n - 1);
      StepKeepsInv(worlds[n - 1], steps[n - 1].thread, steps[n - 1].move);
    }
  }

  predicate Writing(t: Thread) { t.prog.Write? }

  /** One writer at a time: a thread that is about to command the backend holds the writer lock, and
      no other thread holds it, is about to write or to change the installed loop, or is inside a
      motion body. */
  lemma SingleWriter(worlds: seq<World>, steps: seq<Step>, n: nat, i: nat, j: nat)
    requires IsRun(worlds, steps) && n < |worlds| && i < |worlds[n].threads| && j < |worlds[n].threads| && i != j
    requires Writing(worlds[n].threads[i])
    ensures RobotLock in worlds[n].threads[i].k.held && RobotLock !in worlds[n].threads[j].k.held
    ensures !Writing(worlds[n].threads[j]) && !worlds[n].threads[j].k.moving
    ensures !worlds[n].threads[j].prog.Install? && !worlds[n].threads[j].prog.TakeLoop?
  {
    hide IsRun;
    RunKeepsInv(worlds, steps, n);
    assert Local(worlds[n], i) && Local(worlds[n], j);
    OnlyOneHolds(worlds[n], i, j);
  }

  lemma OnlyOneHolds(w: World, i: nat, j: nat)
    requires Inv(w) && i < |w.threads| && j < |w.threads| && i != j && RobotLock in w.threads[i].k.held
    ensures RobotLock !in w.threads[j].k.held && !w.threads[j].k.moving
  {
    hide Ok, Plain;
    ApartBoth(w, i, j);
    OthersDoNotKnow(w, i, j);
  }

  /** While a blocking motion is in its body no servo loop is installed, every command sent is its
      own, and nobody can install a loop. */
  lemma MotionIsAlone(worlds: seq<World>, steps: seq<Step>, n: nat, i: nat)
    requires IsRun(worlds, steps) && n < |steps| && i < |worlds[n].threads| && worlds[n].threads[i].k.moving
    ensures worlds[n].installed == None && worlds[n + 1].installed == None
    ensures Writing(worlds[n].threads[steps[n].thread]) ==> steps[n].thread == i
  {
    RunKeepsInv(worlds, steps, n);
    var j := steps[n].thread;
    assert Local(worlds[n], i) && Local(worlds[n], j);
    if j != i { OnlyOneHolds(worlds[n], i, j); }
  }

  // A loop that was told to stop.

  predicate Stopped(w: World, j: nat) {
    j < |w.threads| && (w.threads[j].status == Stopping || w.threads[j].status == Finished)
  }

  lemma StaysStopped(w: World, i: nat, m: Move, j: nat)
    requires Inv(w) && i < |w.threads| && Can(w, i, m) && Stopped(w, j)
    ensures Stopped(Do(w, i, m), j)
    ensures i == j ==> !m.Tick? && !m.Serve?
  {
    assert Local(w, i) && Local(w, j);
    hide Ok, Plain;
    if w.threads[i].prog.Spawn? { SpawnIsFresh(w, i); }
  }

  lemma SpawnIsFresh(w: World, i: nat)
    requires i < |w.threads| && Local(w, i) && w.threads[i].prog.Spawn?
    ensures w.threads[i].loop < |w.threads| && w.threads[w.threads[i].loop].status == Fresh
  {}

  /** A loop that has been told to stop begins no further tick: it only finishes the program it is in,
      so at most one more section under the writer lock is its own. */
  lemma {:induction false} StoppedLoopOnlyFinishes(worlds: seq<World>, steps: seq<Step>, n: nat, k: nat, j: nat)
    requires IsRun(worlds, steps) && n <= k < |worlds| && Stopped(worlds[n], j)
    ensures Stopped(worlds[k], j)
    ensures forall s | n <= s < k && steps[s].thread == j :: !steps[s].move.Tick? && !steps[s].move.Serve?
    decreases k
  {
    hide Inv, Can, Do, Initial, Stopped;
    if n < k {
      StoppedLoopOnlyFinishes(worlds, steps, n, k - 1, j);
      RunKeepsInv(worlds, steps, k - 1);
      StaysStopped(worlds[k - 1], steps[k - 1].thread, steps[k - 1].move, j);
    }
  }

  // No deadlock.

  /** Something is left to do before the thread is idle or finished. */
  predicate Busy(t: Thread) { t.prog != Done || t.status == Running || t.status == Stopping }

  /** Thread `i` cannot go on before thread `j` has made some step. */
  predicate WaitsFor(w: World, i: nat, j: nat)
    requires i < |w.threads| && j < |w.threads|
  {
    var t := w.threads[i];
    match t.prog
    case Lock(name, _) => i != j && Holds(w.threads[j], name, t.loop)
    case TryLock(name, _, _) => i != j && Holds(w.threads[j], name, t.loop)
    case Join(_) => j == t.loop && w.threads[j].status != Finished
    case _ => false
  }

  /** The lock order as a number: waiting leads downwards only. */
  function Rank(t: Thread): nat {
    if t.prog.Join? then 3
    else if LeaseLock in t.k.held || LoopLock in t.k.held then 0
    else if RobotLock in t.k.held then 1
    else 2
  }

  lemma WaitingGoesDown(w: World, i: nat, j: nat)
    requires Inv(w) && i < |w.threads| && j < |w.threads| && WaitsFor(w, i, j)
    ensures Rank(w.threads[j]) < Rank(w.threads[i]) && Busy(w.threads[j])
  {
    assert Local(w, i) && Local(w, j);
    if w.threads[j].status == Client {
      hide Plain;
    }
  }

  lemma BlockedMeansWaiting(w: World, i: nat) returns (m: Move, j: nat)
    requires Inv(w) && i < |w.threads| && Busy(w.threads[i])
    ensures m != Expire && (Can(w, i, m) || (j < |w.threads| && WaitsFor(w, i, j)))
  {
    assert Local(w, i);
    hide Ok, Plain;
    var t := w.threads[i];
    j := 0;
    match t.prog
    case Done => m := if t.status == Running then Tick(false, 0, false) else Quit;
    case Lock(name, _) =>
      m := Go;
      if !Free(w, i, name) {
        j :| 0 <= j < |w.threads| && j != i && Holds(w.threads[j], name, t.loop);
      }
    case TryLock(name, _, _) =>
      m := Go;
      if !Free(w, i, name) {
        j :| 0 <= j < |w.threads| && j != i && Holds(w.threads[j], name, t.loop);
      }
    case Choose(_, _) => m := Left;
    case Join(_) =>
      m := Go;
      JoinsALoop(w, i);
      j := t.loop;
    case _ => m := Go;
  }

  lemma JoinsALoop(w: World, i: nat)
    requires i < |w.threads| && Local(w, i) && w.threads[i].prog.Join?
    ensures w.threads[i].loop < |w.threads|
  {}

  /** Each thread waits for the next one. */
  ghost predicate Chain(w: World, c: seq<nat>) {
    && c != [] && (forall k | 0 <= k < |c| :: c[k] < |w.threads|)
    && forall k | 0 <= k < |c| - 1 :: WaitsFor(w, c[k], c[k + 1])
  }

  lemma {:induction false} SomeoneMoves(w: World, i: nat) returns (c: seq<nat>, m: Move)
    requires Inv(w) && i < |w.threads| && Busy(w.threads[i])
    ensures Chain(w, c) && c[0] == i && Can(w, c[|c| - 1], m) && m != Expire
    decreases Rank(w.threads[i])
  {
    var j;
    m, j := BlockedMeansWaiting(w, i);
    if Can(w, i, m) {
      c := [i];
    } else {
      WaitingGoesDown(w, i, j);
      var rest;
      rest, m := SomeoneMoves(w, j);
      hide Inv, WaitsFor, Can;
      c := [i] + rest;
    }
  }

  /** A chain of waiting threads is short and never returns to a thread on it. */
  lemma {:induction false} NoCircularWait(w: World, c: seq<nat>)
    requires Inv(w) && Chain(w, c)
    ensures |c| - 1 <= Rank(w.threads[c[0]]) <= 3
    ensures forall k | 1 <= k < |c| :: Rank(w.threads[c[k]]) < Rank(w.threads[c[0]])
    decreases |c|
  {
    if |c| > 1 {
      WaitingGoesDown(w, c[0], c[1]);
      hide Inv, WaitsFor, Rank;
      NoCircularWait(w, c[1..]);
      forall k | 1 <= k < |c| ensures Rank(w.threads[c[k]]) < Rank(w.threads[c[0]]) {
        assert c[1..][k - 1] == c[k];
      }
    }
  }

  /** A chain of waits from thread `i`, without repetition, to a thread that can take the step `m`,
      which is not the expiry of a timed wait. */
  ghost predicate LeadsToProgress(w: World, i: nat, c: seq<nat>, m: Move) {
    && Chain(w, c) && c[0] == i && |c| <= 4 && Can(w, c[|c| - 1], m) && m != Expire
    && forall k, l | 0 <= k < l < |c| :: c[k] != c[l]
  }

  /** No deadlock, in any reachable state and without counting on a timeout: from every busy thread a
      chain of waiting threads, with at most three waits and no repetition, leads to a thread that
      can take a step. */
  lemma NoDeadlock(worlds: seq<World>, steps: seq<Step>, n: nat, i: nat)
    requires IsRun(worlds, steps) && n < |worlds| && i < |worlds[n].threads| && Busy(worlds[n].threads[i])
    ensures exists c: seq<nat>, m: Move :: LeadsToProgress(worlds[n], i, c, m)
  {
    hide IsRun, Can;
    RunKeepsInv(worlds, steps, n);
    var c, m := SomeoneMoves(worlds[n], i);
    hide Inv, WaitsFor, Rank;
    forall k, l | 0 <= k < l < |c| ensures c[k] != c[l] {
      assert c[k..][0] == c[k] && c[k..][l - k] == c[l];
      NoCircularWait(worlds[n], c[k..]);
    }
    NoCircularWait(worlds[n], c);
    assert LeadsToProgress(worlds[n], i, c, m);
  }
}
