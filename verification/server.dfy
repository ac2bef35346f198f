/**
 * The server: the bind and start guards, the per-connection read loop, and the reply each
 * frame gets.
 */
module SocketServer {
  import opened Wrappers
  import opened Errors
  import opened Packets
  import opened Settings

  datatype Binding = Binding(host: string, port: int, framing: Framing)

  datatype Server = Server(binding: Option<Binding>, running: bool)

  /** What the user handler does with one packet: returns a value, or throws. Both are kept in serialized form. */
  datatype HandlerOutcome = Returned(value: string) | Threw(error: string)

  type Handler = Packet -> HandlerOutcome

  /** What invoking a handler that was never registered throws. */
  const MissingHandler: string := "Call to a member function __invoke() on null"

  /** The outcome of dispatching one frame: the reply sent back, and the packet handed to the handler. */
  datatype Dispatched = Dispatched(reply: Option<Packet>, handled: Option<Packet>)

  function NewServer(): Server
  {
    Server(None, false)
  }

  /** `bind`: a second bind fails and keeps the first binding; the first one takes the shared framing. */
  function Bind(s: Server, host: string, port: int, config: Config): (r: (Server, Outcome<Error>))
    ensures s.binding.Some? ==> r == (s, Fail(ServerBindFailed))
    ensures s.binding.None? ==>
      && r.1 == Pass
      && r.0.running == s.running
      && r.0.binding == Some(Binding(host, port, ServerFraming(config)))
  {
    if s.binding.Some? then (s, Fail(ServerBindFailed))
    else (s.(binding := Some(Binding(host, port, ServerFraming(config)))), Pass)
  }

  /** `start`: refused on an unbound server; otherwise the server accepts connections. */
  function Start(s: Server): (r: (Server, Outcome<Error>))
    ensures s.binding.None? ==> r == (s, Fail(ServerStartFailed))
    ensures s.binding.Some? ==> r == (s.(running := true), Pass)
  {
    if s.binding.None? then (s, Fail(ServerStartFailed))
    else (s.(running := true), Pass)
  }

  /** The serializer on a handler result: a returned string, or the thrown exception's text. */
  function Serialize(outcome: HandlerOutcome): string
  {
    match outcome
    case Returned(v) => v
    case Threw(e) => e
  }

  /** The reply to one decoded packet: PONG for a heartbeat, otherwise the handler outcome under the request's id. */
  function Reply(isHeartbeat: Packet -> bool, p: Packet, outcome: HandlerOutcome): (r: Packet)
    ensures isHeartbeat(p) ==> r == Packet(0, PONG)
    ensures !isHeartbeat(p) ==> r.id == p.id
    ensures !isHeartbeat(p) && outcome.Returned? ==> r.body == outcome.value
    ensures !isHeartbeat(p) && outcome.Threw? ==> r.body == outcome.error
  {
    if isHeartbeat(p) then Packet(0, PONG) else Packet(p.id, Serialize(outcome))
  }

  /**
   * Invoking the registered handler. With none registered, calling `__invoke` on null throws,
   * and the dispatch coroutine catches that like any exception of the handler.
   */
  function Invoke(handler: Option<Handler>, p: Packet): (r: HandlerOutcome)
    ensures handler.None? ==> r == Threw(MissingHandler)
    ensures handler.Some? ==> r == handler.value(p)
  {
    match handler
    case None => Threw(MissingHandler)
    case Some(h) => h(p)
  }

  /**
   * The coroutine started for one frame. When the packer cannot decode the frame, `unpack`
   * throws and the exception escapes the coroutine uncaught, so no reply is sent; a heartbeat is answered without calling the handler; any other frame calls the
   * handler once and is answered with its id.
   */
  function Dispatch(isHeartbeat: Packet -> bool, handler: Option<Handler>, decoded: Option<Packet>): (d: Dispatched)
    ensures decoded.None? ==> d == Dispatched(None, None)
    ensures decoded.Some? && isHeartbeat(decoded.value) ==> d == Dispatched(Some(Packet(0, PONG)), None)
    ensures decoded.Some? && !isHeartbeat(decoded.value) ==>
      && d.handled == Some(decoded.value)
      && d.reply.Some?
      && d.reply.value.id == decoded.value.id
      && d.reply.value.body == Serialize(Invoke(handler, decoded.value))
  {
    match decoded
    case None => Dispatched(None, None)
    case Some(p) =>
      if isHeartbeat(p) then Dispatched(Some(Reply(isHeartbeat, p, Returned(""))), None)
      else Dispatched(Some(Reply(isHeartbeat, p, Invoke(handler, p))), Some(p))
  }

  /** PHP's `empty($ret)` on a read: false, the empty string and "0" all end the connection's loop. */
  predicate EmptyRead(input: Inbound)
  {
    input.ReadFailed? || EmptyData(input.data)
  }

  /**
   * The loop of one connection over its successive reads: it stops at the first empty read and
   * dispatches every frame before it exactly once, in read order.
   */
  method ServeConnection(isHeartbeat: Packet -> bool, handler: Option<Handler>, received: seq<Inbound>)
    returns (ds: seq<Dispatched>)
    ensures |ds| <= |received|
    ensures forall i :: 0 <= i < |ds| ==> !EmptyRead(received[i])
    ensures |ds| < |received| ==> EmptyRead(received[|ds|])
    ensures forall i :: 0 <= i < |ds| ==> received[i].Read? && ds[i] == Dispatch(isHeartbeat, handler, received[i].decoded)
  {
    ds := [];
    var i := 0;
    while i < |received| && !EmptyRead(received[i])
      invariant i == |ds| <= |received|
      invariant forall j :: 0 <= j < i ==> !EmptyRead(received[j])
      invariant forall j :: 0 <= j < i ==> ds[j] == Dispatch(isHeartbeat, handler, received[j].decoded)
    {
      ds := ds + [Dispatch(isHeartbeat, handler, received[i].decoded)];
      i := i + 1;
    }
  }

  /** A heartbeat frame from the client is answered by a heartbeat and never reaches the handler. */
  lemma PingIsAnsweredByPong(isHeartbeat: Packet -> bool, handler: Option<Handler>)
    requires ClassifiesSentinels(isHeartbeat)
    ensures Dispatch(isHeartbeat, handler, Some(Packet(0, PING))) == Dispatched(Some(Packet(0, PONG)), None)
    ensures isHeartbeat(Dispatch(isHeartbeat, handler, Some(Packet(0, PING))).reply.value)
  {
  }
}
