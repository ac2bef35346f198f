/** The exceptions the client and the server raise, one constructor per exception class. */
module Errors {

  datatype Error =
    | ChannelLost          // recv on an id with no registered waiter
    | ChannelClosed        // the waiter was closed while recv was blocked on it
    | RecvTimeout          // the waiter stayed empty for the receive timeout
    | ClientConnectFailed  // the socket factory could not connect
    | EncodeFailed         // the packer threw while packing a request
    | DecodeFailed         // the packer threw while unpacking an inbound frame
    | SendFailed           // the writer's write was refused or short
    | ServerBindFailed     // bind on a server that is already bound
    | ServerStartFailed    // start on a server that was never bound
}
