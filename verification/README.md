# Multiplex socket client and server, modelled in Dafny

This project models the core of `multiplex-socket`. In that library, many concurrent requests
share one TCP connection. Each request carries an id, and each response is routed back to the
caller waiting on that id.

The model is a sequential abstraction:

- The client is an immutable record. It holds the configuration, the current write queue (frames
  plus a closing flag), the waiter registry (request id to a single-slot waiter), a
  connection-open flag, the `requests` counter and the heartbeat-started flag.
- Every client operation is a pure transition on that record: `set`, `loop`, `send`, `recv`,
  `request` and `close`.
- So is one step of each background task: the reader loop, the writer loop, the heartbeat task,
  and their teardown.
- Every blocking result is an explicit input. That covers the connect result, the packer's bytes
  (or its exception), the outcome of a waiter pop, the framed read, the byte count of a write, the
  rotation lock and the shutdown signal.
- The server is modelled by its bind and start guards, the per-connection read loop, and the reply
  each frame receives.

Modules, one per component:

- `Wrappers`: `Option`, `Result`, `Outcome`.
- `Errors`: one constructor per exception class.
- `Packets`: `Packet(id, body)`, queue frames, read results, and PHP's `empty()` on strings.
- `Settings`: configuration values, `array_replace`, `getMaxIdleTime`, and the framing options.
- `Channels`: the channel manager's registry operations (`get(id, true)`, `close(id)`, `flush()`, push).
- `SocketClient`: the client state machine.
- `ClientProperties`: lemmas that relate several operations, plus the invariant over every
  interleaving of events.
- `SocketServer`: the server.
- `Scenarios`: end-to-end round trips and the client tests' examples.

The packer's heartbeat test is not defined here. Operations that need it take it as a parameter
`isHeartbeat: Packet -> bool`. Lemmas that need facts about it require one of two things: that it
classifies `Packet(0, PING)` and `Packet(0, PONG)` as heartbeats, or that heartbeats use id 0.

Three behaviours of the code that the model reproduces:

- The `requests` counter is reset only by `close()` (src/Client.php:181). The reader and writer
  teardowns (src/Client.php:306-311, 339-344) do not reset it, and neither does a reconnect in
  `loop`. So after a broken connection, the count continues on the next connection.
- A registered waiter is never in a "closed" state. Every close in the socket code evicts the
  waiter (`close($id)`, `flush()`), so "closed" appears only as the outcome of a pop.
- The writer skips a popped frame whose bytes are `""` or `"0"`, because PHP's `empty()` treats
  `"0"` as empty (src/Client.php:326). The server loop stops on the same two strings
  (src/Server.php:96). The client reader stops only on `false` or `""` (src/Client.php:286).

## Model

| member | source | states |
|---|---|---|
| Settings.Replace | src/Client.php:88-92 | settings override their keys; every other configured key keeps its value; the key set is the union |
| SocketClient.Set | src/Client.php:88-92 | `set` changes only the configuration, by `array_replace` |
| Settings.MaxIdleTime | src/Client.php:215-228 | the idle timeout is -1 when the heartbeat is null or missing; it is 2 × heartbeat for an integer; for a float it is 2 × heartbeat truncated toward zero |
| Settings.FramingsAgree | src/Server.php:67-73 | client (src/Client.php:201-207) and server frame alike: length check on, type `N`, length offset 0, body offset 4; both default the limit to 2 MiB and agree when given the same limit |
| Channels.Create | src/Client.php:121 | registering adds exactly `id`; a new waiter is empty; an existing waiter is kept; no other entry changes |
| Channels.Evict | src/Client.php:159-161 | evicting removes exactly `id` and keeps every other waiter |
| Channels.Fill | src/Client.php:296-299 | a push fills exactly the waiter of `id` with the value; the other waiters are unchanged |
| SocketClient.Teardown | src/Client.php:306-311 | reader and writer teardown: the queue is closing (its frames kept), the registry is empty, the socket is closed, the counter is unchanged |
| SocketClient.Close | src/Client.php:176-182 | `close`: the queue is closing, the registry is empty, the socket is closed, `requests` is 0; configuration and heartbeat flag are kept |
| ClientProperties.CloseIdempotent | src/Client.php:176-182 | closing twice gives the same state as closing once; `close` is a teardown that also resets the counter |
| SocketClient.StartHeartbeat | src/Client.php:230-234 | the heartbeat flag is set exactly when it was already set or the interval is numeric |
| SocketClient.Loop | src/Client.php:264-272 | a live queue is left as it is; otherwise a connect gives a fresh open queue and keeps waiters and counter; a failed connect (src/Client.php:209-212) closes the client and raises ClientConnectFailed |
| SocketClient.Enqueue | src/Client.php:119-137 | after `loop`, the waiter for `id` is registered and exactly one frame for `id` is appended; if packing throws, that waiter is evicted and the queue is unchanged |
| SocketClient.Send | src/Client.php:105-138 | a successful send returns the generated id, has that id registered on a live queue, and ends the queue with the frame for it; a failed send leaves no waiter for the id |
| ClientProperties.SendOnLiveQueue | src/Client.php:119-137 | on a live queue with no rotation due, `send` appends exactly one frame to the caller's queue, registers `id`, and leaves the counter unchanged |
| ClientProperties.NoRotationWhenUnlimited | src/Client.php:107 | with `max_requests` 0 or null, no rotation is due, the rotation check never closes the client, and `send` reduces to `loop` followed by registering and queueing the frame |
| ClientProperties.RotationWhenLockWon | src/Client.php:107-117 | when rotation is due and the lock is won, `close` runs first: counter 0, earlier waiters gone, the new frame alone on a fresh queue |
| ClientProperties.RotationWhenLockLost | src/Client.php:107-117 | when rotation is due and the lock is lost, the state is not closed and the send uses the current connection |
| SocketClient.Rotate | src/Client.php:107-117 | when rotation is due and the caller wins the lock, the client is closed (counter 0, registry empty, queue and socket closed) with configuration and heartbeat flag kept; otherwise nothing changes |
| SocketClient.PushFrame | tests/Cases/ClientTest.php:277-285 | a push onto an open queue (src/Client.php:133) appends exactly that frame; a push onto a closed queue is refused and leaves it unchanged |
| Channels.Flush | src/Client.php:179 | `flush()` leaves no waiter registered, as `close` (and the teardowns at src/Client.php:309, 342) rely on |
| SocketClient.Recv | src/Client.php:140-164 | an unknown id raises ChannelLost with the registry unchanged; otherwise the waiter is evicted in every outcome (value, RecvTimeout, ChannelClosed) and no other entry is touched; a filled waiter returns its value |
| SocketClient.Request | src/Client.php:100-103 | `request` never leaves a waiter for its id; a send error is passed through unchanged; for a fresh id it succeeds exactly when the send succeeds and the pop yields a value, and returns that value |
| SocketClient.ReaderStep | src/Client.php:278-311 | the reader tears down on a closing queue, a false or empty read, or an undecodable frame; a heartbeat and an unknown id change nothing; a response fills only its own empty waiter |
| SocketClient.WriterStep | src/Client.php:319-344 | the writer tears down on a closing queue; it skips an empty frame without counting; a complete write pops the frame and adds exactly 1 to the counter; a false or short write raises SendFailed and tears down without counting |
| SocketClient.HeartbeatTick | src/Client.php:238-259 | on shutdown the heartbeat coroutine closes the client; otherwise it queues a PING only on an open, empty queue and changes nothing else |
| SocketClient.WaitUntilEmpty | src/Client.php:348-365 | the rotation wait returns at the first turn whose registry is empty, whose time reached `max_wait_close_seconds`, or whose sleep was cut by shutdown (checked in that order); every earlier turn met none of these |
| ClientProperties.RecvAfterTeardownFails | src/Client.php:306-311 | after a teardown, every `recv` fails with ChannelLost or ClientConnectFailed; no caller gets a value |
| ClientProperties.Delivery | src/Client.php:296-299 | a response read for an empty waiter is returned by that id's `recv`, whatever the pop outcome, and only that waiter is evicted |
| ClientProperties.CrossedResponses | src/Client.php:296-299 | responses that arrive in the reverse order of their requests still reach their own callers |
| ClientProperties.HeartbeatsNeverReachWaiters | src/Client.php:292-294 | reading a PING or PONG leaves the client unchanged and the loop running |
| ClientProperties.RunPreservesInv | src/Client.php:264-346 | across any interleaving of calls and background steps: the default keys stay; the socket is open exactly when the queue is; waiters exist only on a live connection |
| ClientProperties.HeartbeatStartsOnce | src/Client.php:233-234 | once the heartbeat flag is set, no run of events clears it, so the heartbeat coroutine starts at most once |
| ClientProperties.DrainCounts | src/Client.php:330-335 | across writer steps, the counter grows by exactly the number of frames written completely |
| ClientProperties.DrainKeepsOrder | src/Client.php:319-336 | while the connection lives, the frames written are exactly the queue's non-empty frames, in queue order |
| SocketServer.Bind | src/Server.php:61-75 | a second bind fails with ServerBindFailed and keeps the existing binding; the first bind takes the shared framing |
| SocketServer.Start | src/Server.php:88-92 | start on an unbound server fails with ServerStartFailed and changes nothing |
| SocketServer.Reply | src/Server.php:103-115 | a heartbeat is answered by `Packet(0, PONG)`; any other packet is answered under its own id, with the handler's result or the thrown exception as body |
| SocketServer.Invoke | src/Server.php:109-113 | a registered handler's result or exception is the outcome of the call; with no handler set, calling it throws and the throw is caught as the outcome |
| SocketServer.Dispatch | src/Server.php:100-116 | a frame that `unpack` cannot decode gets no reply, because the exception escapes the dispatch coroutine; a heartbeat gets PONG without invoking the handler; any other frame invokes the handler once and gets one reply with its id |
| SocketServer.ServeConnection | src/Server.php:94-100 | a connection's loop stops at the first empty read and dispatches every frame before it exactly once, in order |
| SocketServer.PingIsAnsweredByPong | src/Server.php:103-106 | the client's PING is answered by a PONG, which the client also classifies as a heartbeat |
| Scenarios.RequestRoundTrip | tests/Cases/ClientTest.php:47-72 | send, write, server reply, read and recv together: the caller receives the handler's result for its own id, the counter grows by one, the request's own waiter is gone, and the registry is back to what it was before the request |
| Scenarios.HelloWorld | tests/swoole_server.php:17-23 | with the fixture handler, a request for "World" returns "Hello World" |
| Scenarios.MaxIdleTimeExamples | tests/Cases/ClientTest.php:151-171 | a heartbeat of 12 gives an idle time of 24, null gives -1, the default 20 gives 40 |
| Scenarios.SetSettingsExample | tests/Cases/ClientTest.php:116-132 | `set` overrides the given keys and keeps the default connect timeout and package limit |
| Scenarios.ConnectFailedClosesQueue | tests/Cases/ClientTest.php:134-149 | a failed connect raises ClientConnectFailed and leaves a closing queue and no waiter |

## Left out

- Sockets, `SocketFactory`, `recvPacket`/`sendAll` and the Swoole coroutine server are I/O. Their results are inputs to the model.
- Coroutines (`go`, `Coroutine::create`) and the interleaving of reader, writer, heartbeat and callers are not modelled step by step. Each step is atomic; `ClientProperties.Run` applies any chosen order.
- Each task in the source captures its connection generation. A stale reader or writer from an earlier connection can flush the registry of a newer one. The model's steps act on the current generation only.
- `Locker` and the worker-exit coordinator are process-wide primitives. They become a boolean lock result and a shutdown flag.
- Time is left out. This covers the receive timeout duration, the connect timeout, the 0.05 s poll interval, and `microtime`. The rotation wait sees time only as the elapsed value of each turn it observes.
- Floats are exact fractions, so binary rounding is not modelled. PHP integer overflow into floats is not modelled.
- String-valued settings are not modelled: `is_numeric("12")` and similar cases are out.
- The packer's byte layout, its decoding and its heartbeat test belong to the multiplex library, which is not part of this model. Packing and unpacking results are inputs. The scenarios assume that the server decodes the client's frame back to the request packet.
- The serializer is the identity on strings. A thrown exception is represented by its serialized text.
- The channel manager is not part of this model either. Its registry follows only what its call sites rely on. Waiters hold a single value, so a second response for a filled waiter suspends the reader.
- The write queue's capacity of 65535 is not modelled; a push never blocks.
- The id generator is an input. Its uniqueness contract is a precondition wherever a lemma needs a fresh id.
- Logging, `setLogger`, the getters, and the server's `handle` setter are left out. The handler, or its absence, is passed directly to the dispatch functions.
- The heartbeat interval that the heartbeat coroutine sleeps between ticks is not modelled. Only the tick body is.
- Frame bytes are modelled one character per byte: a write is complete when its byte count equals the number of characters in the frame, where the source compares with `strlen`. Characters are not bounded to 0..255.
- SocketClient.Loop: the failed connect stands only for `SocketConnectException`, the one exception `makeClient` catches (src/Client.php:209). Any other exception from the socket factory escapes without `close()` and leaves the fresh queue open; that path is not modelled.
- SocketServer.Dispatch: when `unpack` throws, the exception escapes the dispatch coroutine uncaught. The model records only that no reply is sent; the effect of the uncaught exception on the running server is not modelled.
