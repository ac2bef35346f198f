/** End-to-end behaviour of a client talking to a server, and the configuration examples of the client tests. */
module Scenarios {
  import opened Wrappers
  import opened Errors
  import opened Packets
  import opened Settings
  import opened Channels
  import opened SocketClient
  import opened SocketServer

  /**
   * One request through the whole system: the client queues the frame, the writer writes it,
   * the server (decoding the frame back to the request packet) answers it, the reader routes the
   * answer, and `recv` returns the handler's result under the request's own id.
   */
  lemma {:induction false} RequestRoundTrip(c: Client, isHeartbeat: Packet -> bool, handler: Option<Handler>,
                                            data: string, id: nat, reqBytes: string, respBytes: string,
                                            outcome: PopOutcome)
    requires !RotationDue(c) && id !in c.waiters && (Live(c) ==> c.chan.value.frames == [])
    requires ReservesIdZero(isHeartbeat) && id != 0
    requires !EmptyData(reqBytes) && respBytes != ""
    ensures var (c1, sent) := Send(c, data, id, false, true, Some(reqBytes));
      var (c2, step) := WriterStep(c1, Some(|reqBytes|));
      var d := Dispatch(isHeartbeat, handler, Some(Packet(id, data)));
      var (c3, routed) := ReaderStep(c2, isHeartbeat, Read(respBytes, d.reply));
      var (c4, got) := Recv(c3, id, true, outcome);
      && sent == Success(id)
      && c1.chan.value.frames[0].packet == Packet(id, data)
      && step == Continue && c2.requests == c.requests + 1
      && d.handled == Some(Packet(id, data))
      && routed == Continue
      && got == Success(Serialize(Invoke(handler, Packet(id, data))))
      && id !in c4.waiters
      && c4.waiters == c.waiters
  {
    var f := Frame(Packet(id, data), reqBytes);
    var (p, o) := Prepare(c, false, true);
    assert p.chan.value.frames == [];
    assert id !in p.waiters;
    var (c1, sent) := Send(c, data, id, false, true, Some(reqBytes));
    assert c1.chan.value.frames == [] + [f] == [f];
    assert c1.waiters[id] == Empty;
    assert CompleteWrite(c1, Some(|reqBytes|));
    var (c2, step) := WriterStep(c1, Some(|reqBytes|));
    assert c2.waiters == c1.waiters && Live(c2);
    var d := Dispatch(isHeartbeat, handler, Some(Packet(id, data)));
    var reply := d.reply.value;
    assert reply.id == id;
    assert !isHeartbeat(reply);
    var (c3, routed) := ReaderStep(c2, isHeartbeat, Read(respBytes, d.reply));
    assert c3.waiters[id] == Holds(reply.body);
  }

  /** The handler of the test server fixture. */
  function Greeter(p: Packet): HandlerOutcome
  {
    Returned("Hello " + p.body)
  }

  /** The greeting server of the test fixture answers "World" with "Hello World". */
  lemma HelloWorld(isHeartbeat: Packet -> bool, reqBytes: string, respBytes: string, outcome: PopOutcome)
    requires ReservesIdZero(isHeartbeat)
    requires !EmptyData(reqBytes) && respBytes != ""
    ensures var c := Set(NewClient(), map["heartbeat" := NullVal]);
      var (c1, sent) := Send(c, "World", 1, false, true, Some(reqBytes));
      var (c2, _) := WriterStep(c1, Some(|reqBytes|));
      var d := Dispatch(isHeartbeat, Some(Greeter), Some(Packet(1, "World")));
      var (c3, _) := ReaderStep(c2, isHeartbeat, Read(respBytes, d.reply));
      Recv(c3, 1, true, outcome).1 == Success("Hello World")
  {
    var c := Set(NewClient(), map["heartbeat" := NullVal]);
    assert Get(c.config, "max_requests") == IntVal(0);
    assert !Live(c);
    RequestRoundTrip(c, isHeartbeat, Some(Greeter), "World", 1, reqBytes, respBytes, outcome);
    assert Serialize(Invoke(Some(Greeter), Packet(1, "World"))) == "Hello " + "World" == "Hello World";
  }

  /** The idle timeout examples: a heartbeat of 12 gives 24, a null heartbeat gives -1, the default 20 gives 40. */
  lemma MaxIdleTimeExamples()
    ensures MaxIdleTime(Set(NewClient(), map["heartbeat" := IntVal(12)]).config) == 24
    ensures MaxIdleTime(Set(NewClient(), map["heartbeat" := NullVal]).config) == -1
    ensures MaxIdleTime(NewClient().config) == 40
    ensures MaxIdleTime(Set(NewClient(), map["heartbeat" := FloatVal(3, 4)]).config) == 1
  {
    var c := Set(NewClient(), map["heartbeat" := FloatVal(3, 4)]);
    assert Get(c.config, "heartbeat") == FloatVal(3, 4);
  }

  /** Settings override the given keys and keep the other defaults. */
  lemma SetSettingsExample()
    ensures var c := Set(NewClient(), map["heartbeat" := NullVal, "recv_timeout" := IntVal(1), "max_requests" := IntVal(100)]);
      && c.config["heartbeat"] == NullVal
      && c.config["max_requests"] == IntVal(100)
      && c.config["recv_timeout"] == IntVal(1)
      && c.config["connect_timeout"] == FloatVal(1, 2)
      && c.config["package_max_length"] == IntVal(1024 * 1024 * 2)
  {
  }

  /** A failed connect leaves the client with a closed queue and no waiter. */
  lemma ConnectFailedClosesQueue(data: string, id: nat, packed: Option<string>)
    ensures var r := Send(Set(NewClient(), map["heartbeat" := NullVal]), data, id, false, false, packed);
      r.1 == Failure(ClientConnectFailed) && r.0.chan.Some? && r.0.chan.value.closing && IsEmpty(r.0.waiters)
  {
  }
}
