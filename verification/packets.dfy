/** Packets, the frames that carry them, and the results of one framed read. */
module Packets {
  import opened Wrappers

  /** A correlated message: the request id and the (serialized) body. */
  datatype Packet = Packet(id: nat, body: string)

  /** Heartbeat bodies; their bytes are defined by the multiplex library, the model relies on no property of them. */
  const PING: string := "PING"
  const PONG: string := "PONG"

  /**
   * The packer's heartbeat test is not part of this model: operations that need it take it as a
   * parameter `isHeartbeat`. The only facts the socket code shows are that the packets it builds
   * as heartbeats are `Packet(0, PING)` and `Packet(0, PONG)`.
   */
  predicate ClassifiesSentinels(isHeartbeat: Packet -> bool)
  {
    isHeartbeat(Packet(0, PING)) && isHeartbeat(Packet(0, PONG))
  }

  /** Heartbeat traffic uses the reserved id 0. */
  ghost predicate ReservesIdZero(isHeartbeat: Packet -> bool)
  {
    forall p :: isHeartbeat(p) ==> p.id == 0
  }

  /** An entry of the write queue: the packet and the bytes the packer produced for it. */
  datatype Frame = Frame(packet: Packet, bytes: string)

  /**
   * The result of one framed read from a socket: `false`, or the bytes read together with the
   * packer's decoding of them (`None` when unpacking throws).
   */
  datatype Inbound = ReadFailed | Read(data: string, decoded: Option<Packet>)

  /** PHP's `empty()` on a string: the empty string and "0" are empty. */
  predicate EmptyData(s: string)
  {
    s == "" || s == "0"
  }
}
