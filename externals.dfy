/** Stand-ins for values owned by libraries outside the core (iroh, tun,
    tokio_util). The core only passes them around and compares them, so each is an
    opaque identity. */
module Externals {

  /** An iroh `Connection` handle; clones denote the same connection. */
  datatype Connection = Connection(id: nat)

  /** The remote peer's iroh node identifier. */
  datatype NodeId = NodeId(id: nat)

  /** A tokio_util `CancellationToken`; clones denote the same token. */
  datatype CancelToken = CancelToken(id: nat)

  /** The asynchronous tun device created by `tun::create_as_async`. */
  datatype TunDevice = TunDevice(id: nat)
}
