/**
 * The multiplexing client as an immutable state record and pure transitions. Every blocking
 * outcome (connect, pop, read, write, lock, packing) is an explicit input, so each function is one
 * atomic step between two suspension points.
 */
module SocketClient {
  import opened Wrappers
  import opened Errors
  import opened Packets
  import opened Settings
  import opened Channels

  /** The write queue of one connection: frames awaiting the writer, and whether it was closed. */
  datatype Queue = Queue(frames: seq<Frame>, closing: bool)

  datatype Client = Client(
    config: Config,
    chan: Option<Queue>,     // the current write queue, absent before the first connect
    waiters: Registry,       // the channel manager's per-request waiters
    connected: bool,         // the socket of the current connection is open
    requests: nat,           // frames completely written since the last close
    heartbeat: bool)         // the heartbeat task was started

  /** How a blocking pop on a waiter ends. */
  datatype PopOutcome = Value(v: string) | Timeout | Closed

  /** Why a background loop ended. */
  datatype Reason = QueueClosed | ConnectionBroken | Raised(error: Error) | ShutDown

  /** What a background loop does after one step. */
  datatype Step = Continue | Suspended | Broken(reason: Reason)

  function NewClient(): Client
  {
    Client(Defaults, None, map[], false, 0, false)
  }

  /** The current write queue exists and is open. */
  predicate Live(c: Client)
  {
    c.chan.Some? && !c.chan.value.closing
  }

  /** `$chan?->close()` */
  function CloseQueue(q: Option<Queue>): (r: Option<Queue>)
    ensures r.Some? <==> q.Some?
    ensures r.Some? ==> r.value.closing && r.value.frames == q.value.frames
  {
    match q
    case None => None
    case Some(x) => Some(x.(closing := true))
  }

  /** `$chan->push($frame)`: a push onto a closed channel is refused and changes nothing. */
  function PushFrame(q: Option<Queue>, f: Frame): (r: Option<Queue>)
    ensures r.Some? <==> q.Some?
    ensures q.Some? && !q.value.closing ==> r == Some(Queue(q.value.frames + [f], false))
    ensures q.Some? && q.value.closing ==> r == q
  {
    match q
    case None => None
    case Some(x) => if x.closing then q else Some(x.(frames := x.frames + [f]))
  }

  /** `set`: merges settings into the configuration and changes nothing else. */
  function Set(c: Client, settings: Config): (r: Client)
    ensures r.config.Keys == c.config.Keys + settings.Keys
    ensures forall k :: k in settings ==> r.config[k] == settings[k]
    ensures forall k :: k in c.config && k !in settings ==> r.config[k] == c.config[k]
    ensures r.(config := c.config) == c
  {
    c.(config := Replace(c.config, settings))
  }

  /** The `finally` block of the reader and of the writer: close the queue, flush the waiters, close the socket. */
  function Teardown(c: Client): (r: Client)
    ensures !Live(r) && !r.connected && IsEmpty(r.waiters)
    ensures r.chan.Some? <==> c.chan.Some?
    ensures r.chan.Some? ==> r.chan.value.frames == c.chan.value.frames
    ensures r.config == c.config && r.requests == c.requests && r.heartbeat == c.heartbeat
  {
    c.(chan := CloseQueue(c.chan), waiters := Flush(), connected := false)
  }

  /** `close`: like a teardown, and the request counter starts again from 0. */
  function Close(c: Client): (r: Client)
    ensures !Live(r) && !r.connected && IsEmpty(r.waiters) && r.requests == 0
    ensures r.chan.Some? <==> c.chan.Some?
    ensures r.chan.Some? ==> r.chan.value.frames == c.chan.value.frames
    ensures r.config == c.config && r.heartbeat == c.heartbeat
  {
    Teardown(c).(requests := 0)
  }

  /** `heartbeat()`: the heartbeat task is started once, when the interval is numeric. */
  function StartHeartbeat(c: Client): (r: Client)
    ensures r.heartbeat <==> c.heartbeat || HeartbeatEnabled(c.config)
    ensures r.(heartbeat := c.heartbeat) == c
  {
    if !c.heartbeat && HeartbeatEnabled(c.config) then c.(heartbeat := true) else c
  }

  /**
   * `loop`: a no-op on a live queue; otherwise a fresh queue and a new connection. When the
   * connection fails the client is closed (the fresh queue with it) and ClientConnectFailed raised.
   */
  function Loop(c: Client, connectOk: bool): (r: (Client, Outcome<Error>))
    ensures r.0.heartbeat <==> c.heartbeat || HeartbeatEnabled(c.config)
    ensures r.0.config == c.config
    ensures r.1.Pass? ==> Live(r.0)
    ensures Live(c) ==> r.1 == Pass && r.0.(heartbeat := c.heartbeat) == c
    ensures !Live(c) && connectOk ==>
      && r.1 == Pass
      && r.0.chan == Some(Queue([], false))
      && r.0.connected
      && r.0.waiters == c.waiters
      && r.0.requests == c.requests
    ensures !Live(c) && !connectOk ==>
      && r.1 == Fail(ClientConnectFailed)
      && r.0.chan == Some(Queue([], true))
      && !r.0.connected
      && IsEmpty(r.0.waiters)
      && r.0.requests == 0
  {
    var h := StartHeartbeat(c);
    if Live(h) then (h, Pass)
    else
      var reopened := h.(chan := Some(Queue([], false)));
      if connectOk then (reopened.(connected := true), Pass)
      else (Close(reopened), Fail(ClientConnectFailed))
  }

  /** `max_requests > 0 && requests >= max_requests`, with PHP's comparisons against floats and null. */
  predicate RotationDue(c: Client)
  {
    match Get(c.config, "max_requests")
    case IntVal(m) => m > 0 && c.requests >= m
    case FloatVal(a, d) => a > 0 && c.requests * d >= a
    case NullVal => false
  }

  /** The rotation check at the head of `send`: only the caller that wins the lock closes the client. */
  function Rotate(c: Client, lockWon: bool): (r: Client)
    ensures RotationDue(c) && lockWon ==>
      && r.requests == 0 && IsEmpty(r.waiters) && !Live(r) && !r.connected
      && r.config == c.config && r.heartbeat == c.heartbeat
    ensures !(RotationDue(c) && lockWon) ==> r == c
  {
    if RotationDue(c) && lockWon then Close(c) else c
  }

  /** The state `send` registers its waiter in: after the rotation check and `loop`. */
  function Prepare(c: Client, lockWon: bool, connectOk: bool): (Client, Outcome<Error>)
  {
    Loop(Rotate(c, lockWon), connectOk)
  }

  /**
   * The part of `send` after `loop` succeeded: register the waiter, then queue the packed frame;
   * when packing throws, the waiter is evicted again.
   */
  function Enqueue(p: Client, data: string, id: nat, packed: Option<string>): (r: (Client, Result<nat, Error>))
    requires Live(p)
    ensures r.0.config == p.config && r.0.requests == p.requests && r.0.connected == p.connected
    ensures r.0.heartbeat == p.heartbeat
    ensures packed.None? ==> r.1 == Failure(EncodeFailed) && r.0.waiters == p.waiters - {id} && r.0.chan == p.chan
    ensures packed.Some? ==>
      && r.1 == Success(id)
      && r.0.waiters == Create(p.waiters, id)
      && r.0.chan == Some(Queue(p.chan.value.frames + [Frame(Packet(id, data), packed.value)], false))
  {
    var registered := p.(waiters := Create(p.waiters, id));
    match packed
    case None => (registered.(waiters := Evict(registered.waiters, id)), Failure(EncodeFailed))
    case Some(bytes) => (registered.(chan := PushFrame(registered.chan, Frame(Packet(id, data), bytes))), Success(id))
  }

  /**
   * `send`: `id` is the id generator's output, `packed` the packer's bytes for the request
   * (`None` when packing throws).
   */
  function Send(c: Client, data: string, id: nat, lockWon: bool, connectOk: bool, packed: Option<string>)
    : (r: (Client, Result<nat, Error>))
    ensures r.1 == Success(id) || r.1 == Failure(ClientConnectFailed) || r.1 == Failure(EncodeFailed)
    ensures r.1.Success? ==> id in r.0.waiters && Live(r.0) && packed.Some?
    ensures r.1.Success? ==>
      var fs := r.0.chan.value.frames; |fs| > 0 && fs[|fs| - 1] == Frame(Packet(id, data), packed.value)
    ensures r.1.Failure? ==> id !in r.0.waiters
    ensures r.0.config == c.config
    ensures var (p, o) := Prepare(c, lockWon, connectOk);
      && (o.Fail? ==> r == (p, Failure(ClientConnectFailed)))
      && (o.Pass? ==> r == Enqueue(p, data, id, packed))
  {
    var (p, o) := Prepare(c, lockWon, connectOk);
    if o.Fail? then (p, Failure(ClientConnectFailed))
    else Enqueue(p, data, id, packed)
  }

  /**
   * `recv`: `outcome` is how the blocking pop ends when the waiter is still empty. The waiter is
   * evicted in every outcome and no other waiter is touched.
   */
  function Recv(c: Client, id: nat, connectOk: bool, outcome: PopOutcome): (r: (Client, Result<string, Error>))
    ensures id !in r.0.waiters
    ensures r.0.config == c.config
    ensures !Live(c) && !connectOk ==> r.1 == Failure(ClientConnectFailed) && IsEmpty(r.0.waiters)
    ensures Live(c) || connectOk ==>
      && r.0.waiters == c.waiters - {id}
      && r.0.requests == c.requests
      && Live(r.0)
      && (id !in c.waiters ==> r.1 == Failure(ChannelLost))
      && (id in c.waiters && c.waiters[id].Holds? ==> r.1 == Success(c.waiters[id].value))
      && (id in c.waiters && c.waiters[id].Empty? ==>
            && (outcome.Value? ==> r.1 == Success(outcome.v))
            && (outcome.Timeout? ==> r.1 == Failure(RecvTimeout))
            && (outcome.Closed? ==> r.1 == Failure(ChannelClosed)))
    ensures Live(c) ==> r.0.chan == c.chan && r.0.connected == c.connected
  {
    var (p, o) := Loop(c, connectOk);
    if o.Fail? then (p, Failure(ClientConnectFailed))
    else if id !in p.waiters then (p, Failure(ChannelLost))
    else
      var evicted := p.(waiters := Evict(p.waiters, id));
      match p.waiters[id]
      case Holds(v) => (evicted, Success(v))
      case Empty =>
        match outcome
        case Value(v) => (evicted, Success(v))
        case Timeout => (evicted, Failure(RecvTimeout))
        case Closed => (evicted, Failure(ChannelClosed))
  }

  /** `request`: `recv(send(data))`; the pop outcome and the connect result are the inputs of both calls. */
  function Request(c: Client, data: string, id: nat, lockWon: bool, connectOk: bool, packed: Option<string>, outcome: PopOutcome)
    : (r: (Client, Result<string, Error>))
    ensures id !in r.0.waiters
    ensures var s := Send(c, data, id, lockWon, connectOk, packed);
      s.1.Failure? ==> r == (s.0, Failure(s.1.error))
    ensures id !in c.waiters ==>
      (r.1.Success? <==> Send(c, data, id, lockWon, connectOk, packed).1.Success? && outcome.Value?)
    ensures id !in c.waiters && r.1.Success? ==> r.1.value == outcome.v
  {
    var (s, sent) := Send(c, data, id, lockWon, connectOk, packed);
    if sent.Failure? then (s, Failure(sent.error))
    else Recv(s, sent.value, connectOk, outcome)
  }

  /** A read that hands the reader a frame to route. */
  predicate Delivers(input: Inbound)
  {
    input.Read? && input.data != "" && input.decoded.Some?
  }

  /**
   * One iteration of the reader loop on the current connection. `input` is the framed read; a
   * closed queue, a failed or empty read and an undecodable frame end the loop with a teardown.
   */
  function ReaderStep(c: Client, isHeartbeat: Packet -> bool, input: Inbound): (r: (Client, Step))
    ensures r.1.Broken? <==> !Live(c) || !Delivers(input)
    ensures r.1.Broken? ==> r.0 == Teardown(c)
    ensures !Live(c) ==> r.1 == Broken(QueueClosed)
    ensures Live(c) && input.Read? && input.data != "" && input.decoded.None? ==> r.1 == Broken(Raised(DecodeFailed))
    ensures !r.1.Broken? ==> r.0.(waiters := c.waiters) == c && r.0.waiters.Keys == c.waiters.Keys
    ensures forall k :: k in c.waiters && k in r.0.waiters && r.0.waiters[k] != c.waiters[k] ==>
      && input.Read? && input.decoded.Some?
      && k == input.decoded.value.id
      && !isHeartbeat(input.decoded.value)
      && c.waiters[k] == Empty
      && r.0.waiters[k] == Holds(input.decoded.value.body)
    ensures Live(c) && Delivers(input) && isHeartbeat(input.decoded.value) ==> r == (c, Continue)
    ensures Live(c) && Delivers(input) && input.decoded.value.id !in c.waiters ==> r == (c, Continue)
    ensures Live(c) && Delivers(input) && !isHeartbeat(input.decoded.value)
            && input.decoded.value.id in c.waiters && c.waiters[input.decoded.value.id] == Empty ==>
      r.1 == Continue && r.0.waiters == c.waiters[input.decoded.value.id := Holds(input.decoded.value.body)]
  {
    if !Live(c) then (Teardown(c), Broken(QueueClosed))
    else
      match input
      case ReadFailed => (Teardown(c), Broken(ConnectionBroken))
      case Read(data, decoded) =>
        if data == "" then (Teardown(c), Broken(ConnectionBroken))
        else
          match decoded
          case None => (Teardown(c), Broken(Raised(DecodeFailed)))
          case Some(p) =>
            if isHeartbeat(p) then (c, Continue)
            else if p.id !in c.waiters then (c, Continue)
            else if c.waiters[p.id].Holds? then (c, Suspended)
            else (c.(waiters := Fill(c.waiters, p.id, p.body)), Continue)
  }

  /** The writer is about to write the head frame of a live queue completely. */
  predicate CompleteWrite(c: Client, written: Option<nat>)
  {
    && Live(c)
    && |c.chan.value.frames| > 0
    && !EmptyData(c.chan.value.frames[0].bytes)
    && written == Some(|c.chan.value.frames[0].bytes|)
  }

  /**
   * One iteration of the writer loop: pop the head frame and write it; `written` is what the
   * socket reports (`None` for false). An idle live queue suspends the writer.
   */
  function WriterStep(c: Client, written: Option<nat>): (r: (Client, Step))
    ensures !Live(c) ==> r == (Teardown(c), Broken(QueueClosed))
    ensures Live(c) && |c.chan.value.frames| == 0 ==> r == (c, Suspended)
    ensures Live(c) && |c.chan.value.frames| > 0 ==>
      var rest := c.chan.value.frames[1..];
      && (EmptyData(c.chan.value.frames[0].bytes) ==> r == (c.(chan := Some(Queue(rest, false))), Continue))
      && (CompleteWrite(c, written) ==>
            r == (c.(chan := Some(Queue(rest, false)), requests := c.requests + 1), Continue))
      && (!EmptyData(c.chan.value.frames[0].bytes) && !CompleteWrite(c, written) ==>
            r.1 == Broken(Raised(SendFailed)) && r.0 == Teardown(c.(chan := Some(Queue(rest, false)))))
    ensures r.0.requests == if CompleteWrite(c, written) then c.requests + 1 else c.requests
    ensures r.0.config == c.config && r.0.heartbeat == c.heartbeat
  {
    if !Live(c) then (Teardown(c), Broken(QueueClosed))
    else if |c.chan.value.frames| == 0 then (c, Suspended)
    else
      var f := c.chan.value.frames[0];
      var popped := c.(chan := Some(Queue(c.chan.value.frames[1..], false)));
      if EmptyData(f.bytes) then (popped, Continue)
      else if written == Some(|f.bytes|) then (popped.(requests := c.requests + 1), Continue)
      else (Teardown(popped), Broken(Raised(SendFailed)))
  }

  /**
   * One wake-up of the heartbeat task. `shutdown` is the worker-exit signal that ends the sleep,
   * `packed` the packer's bytes for the PING (`None` when packing throws, which is only logged).
   */
  function HeartbeatTick(c: Client, shutdown: bool, packed: Option<string>): (r: (Client, Step))
    ensures shutdown ==> r == (Close(c), Broken(ShutDown))
    ensures !shutdown ==> r.1 == Continue && r.0.(chan := c.chan) == c
    ensures !shutdown && r.0.chan != c.chan ==>
      packed.Some? && Live(c) && c.chan.value.frames == [] && r.0.chan == Some(Queue([Frame(Packet(0, PING), packed.value)], false))
    ensures !shutdown && Live(c) && c.chan.value.frames == [] && packed.Some? ==>
      r.0.chan == Some(Queue([Frame(Packet(0, PING), packed.value)], false))
  {
    if shutdown then (Close(c), Broken(ShutDown))
    else if c.chan.Some? && |c.chan.value.frames| == 0 && packed.Some? then
      var pushed := PushFrame(c.chan, Frame(Packet(0, PING), packed.value));
      assert !c.chan.value.closing ==> pushed.value.frames == [Frame(Packet(0, PING), packed.value)];
      (c.(chan := pushed), Continue)
    else (c, Continue)
  }

  /** Seconds elapsed since the wait began, as a fraction. */
  datatype Duration = Duration(num: nat, den: Positive)

  /** `microtime(true) - $now >= $seconds`; PHP compares a float with null as booleans, which always holds. */
  predicate Reached(elapsed: Duration, limit: Setting)
  {
    match limit
    case IntVal(n) => elapsed.num >= n * elapsed.den
    case FloatVal(a, d) => elapsed.num * d >= a * elapsed.den
    case NullVal => true
  }

  /** One turn of the rotation wait: is the registry empty, how long since the start, did the sleep end by shutdown. */
  datatype Poll = Poll(empty: bool, elapsed: Duration, shutdown: bool)

  datatype WaitExit = Drained | Expired | Interrupted | StillWaiting

  /** The turn lets the wait go on. */
  predicate KeepsWaiting(limit: Setting, p: Poll)
  {
    !p.empty && !Reached(p.elapsed, limit) && !p.shutdown
  }

  /**
   * `waitUntilChannelManagerEmpty` over the turns it observes: it returns at the first turn whose
   * registry is empty, whose elapsed time reached the limit, or whose sleep was cut by shutdown,
   * checked in that order; `StillWaiting` when no observed turn ends it.
   */
  method WaitUntilEmpty(config: Config, polls: seq<Poll>) returns (k: nat, why: WaitExit)
    ensures k <= |polls|
    ensures forall j :: 0 <= j < k ==> KeepsWaiting(Get(config, "max_wait_close_seconds"), polls[j])
    ensures why == StillWaiting <==> k == |polls|
    ensures k < |polls| ==> !KeepsWaiting(Get(config, "max_wait_close_seconds"), polls[k])
    ensures why == Drained ==> polls[k].empty
    ensures why == Expired ==> !polls[k].empty && Reached(polls[k].elapsed, Get(config, "max_wait_close_seconds"))
    ensures why == Interrupted ==>
      !polls[k].empty && !Reached(polls[k].elapsed, Get(config, "max_wait_close_seconds")) && polls[k].shutdown
  {
    var limit := Get(config, "max_wait_close_seconds");
    k := 0;
    while k < |polls|
      invariant k <= |polls|
      invariant forall j :: 0 <= j < k ==> KeepsWaiting(limit, polls[j])
    {
      var p := polls[k];
      if p.empty {
        return k, Drained;
      }
      if Reached(p.elapsed, limit) {
        return k, Expired;
      }
      if p.shutdown {
        return k, Interrupted;
      }
      k := k + 1;
    }
    why := StillWaiting;
  }
}
