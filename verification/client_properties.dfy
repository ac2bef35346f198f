/** Properties of the client that relate several operations or hold along whole runs. */
module ClientProperties {
  import opened Wrappers
  import opened Errors
  import opened Packets
  import opened Settings
  import opened Channels
  import opened SocketClient

  /** Closing twice is closing once. */
  lemma CloseIdempotent(c: Client)
    ensures Close(Close(c)) == Close(c)
    ensures Teardown(Teardown(c)) == Teardown(c)
    ensures Close(c) == Teardown(c).(requests := 0)
  {
  }

  /** `send` on a live queue with no rotation due: one frame for `id` is appended, its waiter registered, the counter untouched. */
  lemma SendOnLiveQueue(c: Client, data: string, id: nat, lockWon: bool, connectOk: bool, packed: Option<string>)
    requires Live(c) && !RotationDue(c)
    ensures var r := Send(c, data, id, lockWon, connectOk, packed);
      && r.0.requests == c.requests
      && (packed.Some? ==>
            && r.1 == Success(id)
            && r.0.chan == Some(Queue(c.chan.value.frames + [Frame(Packet(id, data), packed.value)], false))
            && r.0.waiters == Create(c.waiters, id))
      && (packed.None? ==>
            && r.1 == Failure(EncodeFailed)
            && r.0.chan == c.chan
            && r.0.waiters == c.waiters - {id})
  {
    var p := Rotate(c, lockWon);
    assert p == c;
    var l := Loop(p, connectOk);
    assert l.1 == Pass && l.0.(heartbeat := c.heartbeat) == c;
  }

  /** Without a positive `max_requests` no rotation is ever due, whatever the counter. */
  lemma NoRotationWhenUnlimited(c: Client, lockWon: bool, connectOk: bool)
    requires Get(c.config, "max_requests") == IntVal(0) || Get(c.config, "max_requests").NullVal?
    ensures !RotationDue(c)
    ensures Prepare(c, lockWon, connectOk) == Loop(c, connectOk)
  {
  }

  /**
   * The caller that wins the rotation lock closes the client first: the counter is back to 0,
   * every earlier waiter is gone, and a successful send queues its frame alone on a fresh queue.
   */
  lemma RotationWhenLockWon(c: Client, data: string, id: nat, connectOk: bool, packed: Option<string>)
    requires RotationDue(c)
    ensures var r := Send(c, data, id, true, connectOk, packed);
      && r.0.requests == 0
      && r.0.waiters.Keys <= {id}
      && (r.1.Success? ==> r.0.chan == Some(Queue([Frame(Packet(id, data), packed.value)], false)))
      && (connectOk && packed.Some? ==> r.1 == Success(id))
  {
    var closed := Close(c);
    assert Rotate(c, true) == closed;
    assert !Live(closed);
    var (p, o) := Loop(closed, connectOk);
    if o.Pass? && packed.Some? {
      var f := Frame(Packet(id, data), packed.value);
      assert p.chan.value.frames + [f] == [f];
    }
  }

  /** A caller that loses the rotation lock does not close: the send goes on the current connection. */
  lemma RotationWhenLockLost(c: Client, lockWon: bool, connectOk: bool)
    requires RotationDue(c) && !lockWon
    ensures Prepare(c, lockWon, connectOk) == Loop(c, connectOk)
    ensures Live(c) ==> Prepare(c, lockWon, connectOk).0.(heartbeat := c.heartbeat) == c
  {
  }

  /** After a teardown no `recv` obtains a value: every waiter was released, so each caller learns of the loss. */
  lemma RecvAfterTeardownFails(c: Client, id: nat, connectOk: bool, outcome: PopOutcome)
    ensures var r := Recv(Teardown(c), id, connectOk, outcome);
      r.1 == Failure(ChannelLost) || r.1 == Failure(ClientConnectFailed)
  {
  }

  /** A response read for a waiting id is received by exactly that id's `recv`, whatever the pop would have reported. */
  lemma {:induction false} Delivery(c: Client, isHeartbeat: Packet -> bool, data: string, reply: Packet,
                                    connectOk: bool, outcome: PopOutcome)
    requires Live(c) && data != ""
    requires reply.id in c.waiters && c.waiters[reply.id] == Empty && !isHeartbeat(reply)
    ensures var (c1, step) := ReaderStep(c, isHeartbeat, Read(data, Some(reply)));
      && step == Continue
      && Recv(c1, reply.id, connectOk, outcome).1 == Success(reply.body)
      && Recv(c1, reply.id, connectOk, outcome).0.waiters == c.waiters - {reply.id}
  {
    var (c1, step) := ReaderStep(c, isHeartbeat, Read(data, Some(reply)));
    assert c1 == c.(waiters := c.waiters[reply.id := Holds(reply.body)]);
    var r := Recv(c1, reply.id, connectOk, outcome);
    assert r.0.waiters == c1.waiters - {reply.id} == c.waiters - {reply.id};
  }

  /** Responses read in the opposite order of the requests still reach their own callers. */
  lemma {:induction false} CrossedResponses(c: Client, isHeartbeat: Packet -> bool, x: Packet, y: Packet,
                                            dx: string, dy: string, outcome: PopOutcome)
    requires Live(c) && dx != "" && dy != ""
    requires x.id != y.id && !isHeartbeat(x) && !isHeartbeat(y)
    requires x.id in c.waiters && y.id in c.waiters && c.waiters[x.id] == Empty && c.waiters[y.id] == Empty
    ensures var c1 := ReaderStep(c, isHeartbeat, Read(dy, Some(y))).0;
      var c2 := ReaderStep(c1, isHeartbeat, Read(dx, Some(x))).0;
      var rx := Recv(c2, x.id, true, outcome);
      var ry := Recv(rx.0, y.id, true, outcome);
      rx.1 == Success(x.body) && ry.1 == Success(y.body)
  {
    var c1 := ReaderStep(c, isHeartbeat, Read(dy, Some(y))).0;
    assert c1.waiters == c.waiters[y.id := Holds(y.body)];
    var c2 := ReaderStep(c1, isHeartbeat, Read(dx, Some(x))).0;
    assert c2.waiters == c1.waiters[x.id := Holds(x.body)];
    var rx := Recv(c2, x.id, true, outcome);
    assert rx.0.waiters == c2.waiters - {x.id};
    assert y.id in rx.0.waiters && rx.0.waiters[y.id] == Holds(y.body);
  }

  /** A heartbeat reply read by the client changes nothing: PING and PONG never reach a waiter. */
  lemma HeartbeatsNeverReachWaiters(c: Client, isHeartbeat: Packet -> bool, data: string)
    requires ClassifiesSentinels(isHeartbeat) && data != ""
    ensures Live(c) ==> ReaderStep(c, isHeartbeat, Read(data, Some(Packet(0, PONG)))) == (c, Continue)
    ensures Live(c) ==> ReaderStep(c, isHeartbeat, Read(data, Some(Packet(0, PING)))) == (c, Continue)
  {
  }

  /**
   * The client invariant: the default keys are never lost, the socket is open exactly when the
   * write queue is, and waiters exist only while the connection is live, so no caller waits on a
   * dead connection.
   */
  ghost predicate Inv(c: Client)
  {
    && Defaults.Keys <= c.config.Keys
    && (c.connected <==> Live(c))
    && (!IsEmpty(c.waiters) ==> Live(c))
  }

  /** Any operation of a caller or any step of a background task, with its blocking outcomes. */
  datatype Event =
    | Configure(settings: Config)
    | SendCall(data: string, id: nat, lockWon: bool, connectOk: bool, packed: Option<string>)
    | RecvCall(id: nat, connectOk: bool, outcome: PopOutcome)
    | CloseCall
    | ReaderTurn(input: Inbound)
    | WriterTurn(written: Option<nat>)
    | HeartbeatTurn(shutdown: bool, packed: Option<string>)

  function Apply(c: Client, isHeartbeat: Packet -> bool, e: Event): Client
  {
    match e
    case Configure(settings) => Set(c, settings)
    case SendCall(data, id, lockWon, connectOk, packed) => Send(c, data, id, lockWon, connectOk, packed).0
    case RecvCall(id, connectOk, outcome) => Recv(c, id, connectOk, outcome).0
    case CloseCall => Close(c)
    case ReaderTurn(input) => ReaderStep(c, isHeartbeat, input).0
    case WriterTurn(written) => WriterStep(c, written).0
    case HeartbeatTurn(shutdown, packed) => HeartbeatTick(c, shutdown, packed).0
  }

  /** An interleaving of events, applied in order. */
  function Run(c: Client, isHeartbeat: Packet -> bool, events: seq<Event>): Client
    decreases |events|
  {
    if |events| == 0 then c else Run(Apply(c, isHeartbeat, events[0]), isHeartbeat, events[1..])
  }

  lemma NewClientInv()
    ensures Inv(NewClient())
  {
  }

  lemma LoopPreservesInv(c: Client, connectOk: bool)
    requires Inv(c)
    ensures Inv(Loop(c, connectOk).0)
  {
  }

  lemma SendPreservesInv(c: Client, data: string, id: nat, lockWon: bool, connectOk: bool, packed: Option<string>)
    requires Inv(c)
    ensures Inv(Send(c, data, id, lockWon, connectOk, packed).0)
  {
    var rotated := Rotate(c, lockWon);
    assert Inv(rotated);
    LoopPreservesInv(rotated, connectOk);
  }

  lemma ApplyPreservesInv(c: Client, isHeartbeat: Packet -> bool, e: Event)
    requires Inv(c)
    ensures Inv(Apply(c, isHeartbeat, e))
  {
    match e
    case Configure(settings) =>
    case SendCall(data, id, lockWon, connectOk, packed) =>
      SendPreservesInv(c, data, id, lockWon, connectOk, packed);
    case RecvCall(id, connectOk, outcome) =>
      LoopPreservesInv(c, connectOk);
    case CloseCall =>
    case ReaderTurn(input) =>
    case WriterTurn(written) =>
    case HeartbeatTurn(shutdown, packed) =>
  }

  /** The invariant holds along every interleaving of calls and background steps. */
  lemma {:induction false} RunPreservesInv(c: Client, isHeartbeat: Packet -> bool, events: seq<Event>)
    requires Inv(c)
    ensures Inv(Run(c, isHeartbeat, events))
    decreases |events|
  {
    if |events| > 0 {
      ApplyPreservesInv(c, isHeartbeat, events[0]);
      RunPreservesInv(Apply(c, isHeartbeat, events[0]), isHeartbeat, events[1..]);
    }
  }

  /** Once started, the heartbeat task is never started again: the flag is never cleared. */
  lemma {:induction false} HeartbeatStartsOnce(c: Client, isHeartbeat: Packet -> bool, events: seq<Event>)
    requires c.heartbeat
    ensures Run(c, isHeartbeat, events).heartbeat
    decreases |events|
  {
    if |events| > 0 {
      var c1 := Apply(c, isHeartbeat, events[0]);
      assert c1.heartbeat;
      HeartbeatStartsOnce(c1, isHeartbeat, events[1..]);
    }
  }

  /** The frames the writer puts on the wire: those whose bytes are not empty in PHP's sense. */
  function Payload(fs: seq<Frame>): seq<Frame>
  {
    if |fs| == 0 then [] else (if EmptyData(fs[0].bytes) then [] else [fs[0]]) + Payload(fs[1..])
  }

  /** Writer steps fed with `writes` until the loop suspends or breaks; also returns the frames completely written. */
  function Drain(c: Client, writes: seq<Option<nat>>): (Client, seq<Frame>)
    decreases |writes|
  {
    if |writes| == 0 then (c, [])
    else
      var (c1, step) := WriterStep(c, writes[0]);
      if step != Continue then (c1, [])
      else
        var sent := if CompleteWrite(c, writes[0]) then [c.chan.value.frames[0]] else [];
        var (c2, more) := Drain(c1, writes[1..]);
        (c2, sent + more)
  }

  /** The counter moves exactly once per complete write. */
  lemma {:induction false} DrainCounts(c: Client, writes: seq<Option<nat>>)
    ensures Drain(c, writes).0.requests == c.requests + |Drain(c, writes).1|
    decreases |writes|
  {
    if |writes| > 0 {
      var (c1, step) := WriterStep(c, writes[0]);
      if step == Continue {
        DrainCounts(c1, writes[1..]);
      }
    }
  }

  /** Frames go on the wire in the order they were queued; while the connection lives, nothing is lost. */
  lemma {:induction false} DrainKeepsOrder(c: Client, writes: seq<Option<nat>>)
    requires Live(c)
    ensures var (r, sent) := Drain(c, writes);
      Live(r) ==> Payload(c.chan.value.frames) == sent + Payload(r.chan.value.frames)
    decreases |writes|
  {
    if |writes| > 0 {
      var (c1, step) := WriterStep(c, writes[0]);
      if step == Continue {
        var fs := c.chan.value.frames;
        assert |fs| > 0;
        assert c1.chan.value.frames == fs[1..];
        DrainKeepsOrder(c1, writes[1..]);
        var (r, more) := Drain(c1, writes[1..]);
        if Live(r) {
          if CompleteWrite(c, writes[0]) {
            assert Payload(fs) == [fs[0]] + Payload(fs[1..]);
          } else {
            assert EmptyData(fs[0].bytes);
            assert Payload(fs) == Payload(fs[1..]);
          }
        }
      }
    }
  }
}
