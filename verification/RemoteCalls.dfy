/** The client's request/reply channel: one connection, several threads, a server that answers in
    order and echoes the request's number, and reads that may be given up at any point. */
module RemoteCalls {
  import opened Numbers

  // One call.

  /** What the blocking read brings. */
  datatype Reading = Line(id: int, ok: bool, payload: string) | Malformed | Closed | TimedOut

  datatype Failure = Disconnected | Desynchronized | Refused | Transport

  datatype Reply = Result(payload: string) | Failed(why: Failure)

  datatype Request = Request(id: int, body: string)

  class RemoteRobot {
    const timeout: real
    const motionTimeout: real
    var connected: bool
    var socketTimeout: real
    var nextId: nat
    var sent: seq<Request>
    ghost var readWith: real

    ghost predicate Valid()
      reads this
    {
      connected ==> socketTimeout == timeout
    }

    constructor (timeout: real, motionTimeout: real)
      ensures Valid() && !connected && nextId == 0 && sent == []
      ensures this.timeout == timeout && this.motionTimeout == motionTimeout
    {
      this.timeout, this.motionTimeout := timeout, motionTimeout;
      connected, socketTimeout, nextId, sent := false, timeout, 0, [];
    }

    /** One request and its reply. The number is new, the read of a motion waits for the motion and
        whatever happens the short timeout is back afterwards; only a reply that carries this
        request's number yields a result. */
    method Call(body: string, motion: bool, reading: Reading) returns (r: Reply)
      requires Valid()
      modifies this`nextId, this`sent, this`socketTimeout, this`readWith
      ensures Valid() && (connected ==> socketTimeout == timeout)
      ensures !connected ==> r == Failed(Disconnected) && nextId == old(nextId) && sent == old(sent)
      ensures connected ==>
        && nextId == old(nextId) + 1 && sent == old(sent) + [Request(nextId, body)]
        && readWith == (if motion then motionTimeout else timeout)
        && (r.Result? <==> reading.Line? && reading.id == nextId && reading.ok)
        && (r.Result? ==> r.payload == reading.payload)
        && (reading.Line? && reading.id != nextId ==> r == Failed(Desynchronized))
    {
      if !connected {
        return Failed(Disconnected);
      }
      nextId := nextId + 1;
      if motion {
        socketTimeout := motionTimeout;
      }
      sent := sent + [Request(nextId, body)];
      readWith := socketTimeout;
      if motion {
        socketTimeout := timeout;
      }
      if reading.TimedOut? || reading.Malformed? || reading.Closed? {
        return Failed(Transport);
      }
      if reading.id != nextId {
        return Failed(Desynchronized);
      }
      r := if reading.ok then Result(reading.payload) else Failed(Refused);
    }
  }

  // The heartbeat thread.

  /** A round: the heartbeat went through, the server refused it and a plain re-acquire did or did not
      succeed, or the transport failed. */
  datatype Round = Beat | Regained | Lost | Hiccup

  /** The last `n` rounds up to and including round `k` were all hiccups. */
  predicate HiccupsUpTo(rounds: seq<Round>, k: nat, n: int)
    requires k < |rounds|
  {
    n <= k + 1 && forall i | 0 <= i <= k && k - n < i :: rounds[i] == Hiccup
  }

  predicate EndsAt(rounds: seq<Round>, k: nat, most: nat)
    requires k < |rounds|
  {
    rounds[k] == Lost || (rounds[k] == Hiccup && HiccupsUpTo(rounds, k, most))
  }

  /** The thread gives the lease up in the first round in which the server has refused it and the
      lease could not be had again, or which is the last of `most` hiccups in a row; never before. */
  method Heartbeats(rounds: seq<Round>, most: nat) returns (given: Option<nat>)
    ensures given.Some? ==> given.value < |rounds| && EndsAt(rounds, given.value, most)
    ensures forall k | 0 <= k < (if given.Some? then given.value else |rounds|) :: !EndsAt(rounds, k, most)
  {
    var failures := 0;
    for k := 0 to |rounds|
      invariant 0 <= failures <= k && HiccupRun(rounds, k, failures)
      invariant forall j | 0 <= j < k :: !EndsAt(rounds, j, most)
    {
      match rounds[k] {
        case Beat => failures := 0;
        case Regained => failures := 0;
        case Lost => return Some(k);
        case Hiccup =>
          failures := failures + 1;
          if failures >= most {
            return Some(k);
          }
      }
    }
    given := None;
  }

  /** The rounds before `k` end in exactly `n` hiccups. */
  predicate HiccupRun(rounds: seq<Round>, k: nat, n: nat)
    requires n <= k <= |rounds|
  {
    && (forall i | k - n <= i < k :: rounds[i] == Hiccup)
    && (n < k ==> rounds[k - n - 1] != Hiccup)
  }

  // All threads on one connection.

  /** A call in progress: it holds the I/O lock. `serial` counts calls and identifies this one. */
  datatype Call = Call(thread: nat, id: int, serial: nat, sent: bool)

  /** A request on its way to the server, or its reply on the way back. */
  datatype Message = Message(id: int, serial: nat, torn: bool)

  /** A result a call has returned: its own serial number, and that of the request it answers. */
  datatype Answer = Answer(asked: nat, answered: nat)

  /** `unsent` is what the client's buffered writer still holds: a request whose flush failed goes
      out ahead of the next one. */
  datatype World = World(
    nextId: int, serial: nat, call: Option<Call>, unsent: seq<Message>, requests: seq<Message>,
    replies: seq<Message>, answers: seq<Answer>, abandoned: bool)

  datatype Step =
    | Begin(thread: nat)
    | Send
    | SendFails(buffered: bool)      // before the request was buffered, or when it was flushed
    | Serve
    | Receive
    | GiveUp(partly: bool)           // the read times out, possibly in the middle of a line

  predicate Can(w: World, s: Step) {
    match s
    case Begin(_) => w.call.None?
    case Send => w.call.Some? && !w.call.value.sent
    case SendFails(_) => w.call.Some? && !w.call.value.sent
    case Serve => w.requests != []
    case Receive => w.call.Some? && w.call.value.sent && w.replies != []
    case GiveUp(_) => w.call.Some? && w.call.value.sent
  }

  predicate Matches(w: World)
    requires Can(w, Receive)
  {
    w.replies[0].id == w.call.value.id && !w.replies[0].torn
  }

  function Do(w: World, s: Step): World
    requires Can(w, s)
  {
    match s
    case Begin(thread) =>
      w.(nextId := w.nextId + 1, serial := w.serial + 1, call := Some(Call(thread, w.nextId + 1, w.serial, false)))
    case Send =>
      var c := w.call.value;
      w.(call := Some(c.(sent := true)), unsent := [],
         requests := w.requests + w.unsent + [Message(c.id, c.serial, false)])
    case SendFails(buffered) =>
      var c := w.call.value;
      if buffered then w.(call := None, unsent := w.unsent + [Message(c.id, c.serial, false)], abandoned := true)
      else w.(call := None)
    case Serve => w.(requests := w.requests[1..], replies := w.replies + [w.requests[0]])
    case Receive =>
      if Matches(w)
      then w.(call := None, replies := w.replies[1..],
              answers := w.answers + [Answer(w.call.value.serial, w.replies[0].serial)])
      else w.(call := None, replies := w.replies[1..], abandoned := true)
    case GiveUp(partly) =>
      w.(call := None, abandoned := true,
         replies := if partly && w.replies != [] then w.replies[0 := w.replies[0].(torn := true)] else w.replies)
  }

  /** Everything under way, oldest first. */
  function Wire(w: World): seq<Message> { w.replies + w.requests + w.unsent }

  /** The wire while a reply is awaited: that reply is the last one, and behind another one if a
      reply or request has been abandoned; and the wire otherwise. Only what is behind the last flush
      is still unsent. */
  predicate WireOk(wire: seq<Message>, nextId: int, call: Option<Call>, abandoned: bool) {
    && (forall i | 0 <= i < |wire| :: wire[i].id <= nextId)
    && (if call.Some? && call.value.sent then
          && wire != [] && (if abandoned then 2 <= |wire| else |wire| == 1)
          && wire[|wire| - 1] == Message(call.value.id, call.value.serial, false)
          && (forall i | 0 <= i < |wire| - 1 :: wire[i].id < nextId)
        else
          && (if abandoned then 1 <= |wire| else wire == [])
          && (call.Some? ==> forall i | 0 <= i < |wire| :: wire[i].id < nextId))
  }

  predicate Inv(w: World) {
    && 0 <= w.nextId
    && (w.call.Some? ==> w.call.value.id == w.nextId && 0 < w.nextId)
    && WireOk(Wire(w), w.nextId, w.call, w.abandoned)
    && (w.call.Some? && w.call.value.sent ==> w.unsent == [])
    && (forall k | 0 <= k < |w.answers| :: w.answers[k].asked == w.answers[k].answered)
  }

  predicate Fresh(w: World) { w == World(0, 0, None, [], [], [], [], false) }

  lemma BeginKeepsInv(w: World, thread: nat)
    requires Inv(w) && Can(w, Begin(thread))
    ensures Inv(Do(w, Begin(thread)))
  {
    assert Wire(Do(w, Begin(thread))) == Wire(w);
  }

  lemma SendKeepsInv(w: World)
    requires Inv(w) && Can(w, Send)
    ensures Inv(Do(w, Send))
  {
    var m := Message(w.call.value.id, w.call.value.serial, false);
    assert Wire(Do(w, Send)) == Wire(w) + [m];
    SentWire(Wire(w), w.nextId, w.call.value, w.abandoned);
    hide WireOk;
  }

  lemma SentWire(wire: seq<Message>, nextId: int, call: Call, abandoned: bool)
    requires WireOk(wire, nextId, Some(call), abandoned) && !call.sent && call.id == nextId
    ensures WireOk(wire + [Message(call.id, call.serial, false)], nextId, Some(call.(sent := true)), abandoned)
  {}

  lemma SendFailsKeepsInv(w: World, buffered: bool)
    requires Inv(w) && Can(w, SendFails(buffered))
    ensures Inv(Do(w, SendFails(buffered)))
  {
    var m := Message(w.call.value.id, w.call.value.serial, false);
    if buffered {
      assert Wire(Do(w, SendFails(buffered))) == Wire(w) + [m];
      LeftWire(Wire(w), w.nextId, w.call, w.abandoned, m);
      hide WireOk;
    } else {
      assert Wire(Do(w, SendFails(buffered))) == Wire(w);
    }
  }

  lemma LeftWire(wire: seq<Message>, nextId: int, call: Option<Call>, abandoned: bool, m: Message)
    requires WireOk(wire, nextId, call, abandoned) && m.id <= nextId
    ensures WireOk(wire + [m], nextId, None, true)
  {}

  lemma ServeKeepsInv(w: World)
    requires Inv(w) && Can(w, Serve)
    ensures Inv(Do(w, Serve))
  {
    assert Wire(Do(w, Serve)) == Wire(w);
  }

  lemma ReceiveKeepsInv(w: World)
    requires Inv(w) && Can(w, Receive)
    ensures Inv(Do(w, Receive))
    ensures Matches(w) <==> !w.abandoned
  {
    var wire, wire' := Wire(w), Wire(Do(w, Receive));
    assert wire[0] == w.replies[0] && wire' == wire[1..];
    assert Matches(w) <==> |wire| == 1;
  }

  lemma GiveUpKeepsInv(w: World, partly: bool)
    requires Inv(w) && Can(w, GiveUp(partly))
    ensures Inv(Do(w, GiveUp(partly)))
  {
    var wire, wire' := Wire(w), Wire(Do(w, GiveUp(partly)));
    if partly && w.replies != [] {
      assert wire' == wire[0 := wire[0].(torn := true)];
    } else {
      assert wire' == wire;
    }
  }

  lemma StepKeepsInv(w: World, s: Step)
    requires Inv(w) && Can(w, s)
    ensures Inv(Do(w, s))
  {
    hide Inv, Do;
    match s
    case Serve => ServeKeepsInv(w);
    case Receive => ReceiveKeepsInv(w);
    case GiveUp(partly) => GiveUpKeepsInv(w, partly);
    case Begin(thread) => BeginKeepsInv(w, thread);
    case Send => SendKeepsInv(w);
    case SendFails(buffered) => SendFailsKeepsInv(w, buffered);
  }

  ghost predicate IsRun(worlds: seq<World>, steps: seq<Step>) {
    && |worlds| == |steps| + 1 && Fresh(worlds[0])
    && forall k | 0 <= k < |steps| :: Can(worlds[k], steps[k]) && worlds[k + 1] == Do(worlds[k], steps[k])
  }

  lemma {:induction false} RunKeepsInv(worlds: seq<World>, steps: seq<Step>, n: nat)
    requires IsRun(worlds, steps) && n < |worlds|
    ensures Inv(worlds[n])
  {
    hide Inv, Do;
    if n == 0 {
      FreshIsFine(worlds[0]);
    } else {
      RunKeepsInv(worlds, steps, n - 1);
      StepKeepsInv(worlds[n - 1], steps[n - 1]);
    }
  }

  lemma FreshIsFine(w: World)
    requires Fresh(w)
    ensures Inv(w)
  {}

  /** Whatever threads call and whenever reads are given up, every result a call returns answers that
      very call. */
  lemma ResultsAnswerTheirRequests(worlds: seq<World>, steps: seq<Step>, n: nat, k: nat)
    requires IsRun(worlds, steps) && n < |worlds| && k < |worlds[n].answers|
    ensures worlds[n].answers[k].asked == worlds[n].answers[k].answered
  {
    hide IsRun;
    RunKeepsInv(worlds, steps, n);
  }

  /** A reply that arrives yields a result exactly when nothing has been abandoned before: no reply by
      a read that was given up, and no request in the writer's buffer by a flush that failed. */
  lemma ReplyMatchesUnlessAbandoned(worlds: seq<World>, steps: seq<Step>, n: nat)
    requires IsRun(worlds, steps) && n < |worlds| && Can(worlds[n], Receive)
    ensures Matches(worlds[n]) <==> !worlds[n].abandoned
  {
    hide IsRun;
    RunKeepsInv(worlds, steps, n);
    hide Inv;
    ReceiveKeepsInv(worlds[n]);
  }

  /** After a read has abandoned its reply, or a flush its request, no later call on the connection
      returns a result. */
  lemma {:induction false} NothingAfterAbandon(worlds: seq<World>, steps: seq<Step>, i: nat, j: nat)
    requires IsRun(worlds, steps) && i <= j < |worlds| && worlds[i].abandoned
    ensures worlds[j].abandoned && worlds[j].answers == worlds[i].answers
    decreases j - i
  {
    if i < j {
      NothingAfterAbandon(worlds, steps, i, j - 1);
      if steps[j - 1].Receive? { ReplyMatchesUnlessAbandoned(worlds, steps, j - 1); }
    }
  }
}
