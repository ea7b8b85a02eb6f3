# ptunp: admission, authentication chaining and server start-up

ptunp runs one point-to-point IP tunnel over an iroh (QUIC) connection. The
local end is a tun device. This Dafny project models the three pieces of
sequential logic that sit inside the async plumbing:

- **Peer admission** (`iroh_protocol.dfy`, module `IrohProtocol`).
  `ApplicationProtocol` is a class with the `hasPeer` flag and a ghost list of
  the connections a forwarding task was spawned for. `AcceptSync` takes the
  compare-and-swap as one atomic step (`CompareExchange`). It proves that
  neither `assert!` can fire. It is proved against the pure step `Admit`.
  `Run` folds `Admit` over any sequence of calls. The lemmas about `Run` show
  four things: at most one task is ever spawned, the flag never goes back to
  `false`, every call after the first is refused with "already have a peer",
  and a failed `remote_node_id()` lookup uses the handler up.
- **Authentication and protocol identifiers** (`auth.dfy`, module `Auth`).
  A strategy is its identifier suffix plus its `authenticate` check.
  `Accept` is `Auth::accept`: authenticate, then the inner handler, with the
  calls made recorded in order. `AlpnOf` is prefix plus suffix. The
  process-wide `OnceLock` is the class `AlpnCell`.
- **Builder and start-up** (`lib.dfy` and `config.dfy`, modules `Lib` and
  `Config`). The builder is a record with update functions. The default tun
  configuration uses `10.0.0.0` and `10.0.0.1` with netmask
  `255.255.255.(u8::MAX << 1)`; octets are `bv8`, so the shift discards the bits
  shifted out, as Rust's `u8` `<<` does. `Spawn` is `Server::spawn` over abstract outcomes of device
  creation and endpoint binding. It returns the list of effects it caused, in
  order. `RouteConnection` is the registered stack: `Auth::accept` around the
  admission handler.

The libraries outside the core appear as opaque identities (`externals.dfy`):
connections, node ids, cancellation tokens and tun devices. The results of
their fallible calls are parameters: `remote_node_id()`, `authenticate`,
`tun::create_as_async` and `Endpoint::bind`. Whether the crate is compiled for
Linux is a parameter too.

## Model

| member | source | states |
|---|---|---|
| `Config.DefaultTunConfig` | src/lib.rs:79-95 | the fallback configuration has address `OUR_IP`, destination `THEIR_IP`, a netmask of 31 leading one bits, and is up; it asks for root privileges exactly when built for Linux |
| `Config.NetmaskLastOctet` | src/lib.rs:84 | `u8::MAX << 1` discards the top bit: the last netmask octet is 254 = 255·2 mod 256 |
| `Config.PeersShareSlash31` | src/lib.rs:15-16 | `OUR_IP` ≠ `THEIR_IP`; under the default netmask both have the same network part; no other address has it |
| `Auth.NoAuthenticate` | src/auth.rs:31-36 | `NoAuth::authenticate` admits every connection |
| `Auth.NoAuthPassesThrough` | src/auth.rs:31-36 | wrapping a handler in `NoAuth` changes neither its result nor what it is asked: it is always invoked |
| `Auth.AlpnOf` | src/auth.rs:46 | the identifier is `ALPN_PREFIX` followed by the strategy's suffix, with nothing between or after |
| `Auth.NoAuthAlpn` | src/auth.rs:29 | the `NoAuth` identifier is "ptunp/v0/noauth" and is a valid protocol name (section 3.1 of RFC 7301) |
| `Auth.AlpnIsProtocolName` | src/auth.rs:44-47 | any ASCII suffix of at most 247 characters yields a valid protocol name of 1 to 255 octets |
| `Auth.AlpnOfInjective` | src/auth.rs:10-11 | strategies with different suffixes get different identifiers |
| `Auth.AlpnCell.constructor` | src/auth.rs:45 | the shared cell starts empty |
| `Auth.AlpnCell.GetOrInit` | src/auth.rs:46 | the first call stores its initial value; every call returns the stored value, which never changes again |
| `Auth.Alpn` | src/auth.rs:44-47 | on an empty cell it returns the caller's own identifier; otherwise it returns whatever the cell holds |
| `Auth.AlpnReplies` | src/auth.rs:44-47 | a sequence of `alpn()` calls yields one reply per call |
| `Auth.AlpnEach` | src/auth.rs:44-47 | successive `alpn()` calls on one shared cell return exactly `AlpnReplies` from the cell's old content, and the cell ends holding the first reply; with no calls the cell is unchanged |
| `Auth.AlpnRepliesAt` | src/auth.rs:45-46 | every reply in a sequence of calls is the old content of the cell, or else the first caller's identifier |
| `Auth.AlpnSettled` | src/auth.rs:45-46 | once the cell is set, every later call returns the identical string (idempotence) |
| `Auth.AlpnFirstWins` | src/auth.rs:44-47 | from an empty cell, every call returns the first caller's identifier, whatever strategy later callers use |
| `Auth.SharedCacheConflates` | src/auth.rs:44-47 | after a `NoAuth` caller, a caller with suffix "/token" receives "ptunp/v0/noauth", not its own identifier |
| `Auth.AlpnFreshCellAgrees` | src/auth.rs:44-47 | the first caller of the process receives exactly `AlpnOf` of its strategy |
| `Auth.Accept` | src/auth.rs:50-60 | authentication runs first, exactly once. If it fails, the result is that error under the context "error during authentication", and nothing else is called. If it succeeds, the inner handler is called once on the same connection, and its result is returned unchanged |
| `Auth.InnerOnlyAfterAuth` | src/auth.rs:52-59 | the inner handler is invoked if and only if authentication succeeded; success of the whole implies authentication succeeded |
| `Auth.StackedStrategies` | src/auth.rs:50-60 | for two stacked strategies, the second runs only if the first accepts. The inner handler runs only if both accept. The first failure decides the result: a failing first strategy gives its own error, a failing second one gives its error, and when both accept the inner handler's result is returned |
| `IrohProtocol.Admit` | src/iroh_protocol.rs:36-72 | every call leaves the flag set. A task is spawned iff the flag was clear and the lookup succeeded. The call succeeds iff a task is spawned. A set flag gives "already have a peer". A failed lookup returns its error |
| `IrohProtocol.Run` | src/iroh_protocol.rs:36-72 | a sequence of calls yields one result per call |
| `IrohProtocol.RunSnoc` | src/iroh_protocol.rs:36-72 | one more call after a sequence of calls continues from the flag that sequence left, appending its result and its spawn |
| `IrohProtocol.AcceptEach` | src/iroh_protocol.rs:36-72 | `accept_sync` called on one handler for a sequence of connections leaves the flag, the results and the number of spawned tasks that `Run` gives, so the `Run` lemmas hold of the handler |
| `IrohProtocol.RunAfterPeer` | src/iroh_protocol.rs:45-51 | with a peer recorded, every call is refused with "already have a peer", the flag stays set and nothing is spawned |
| `IrohProtocol.RunFromFresh` | src/iroh_protocol.rs:37-71 | on a fresh handler the first call alone is admitted, when its lookup succeeds. All later calls are refused. The spawn count is 1 or 0 by that first lookup |
| `IrohProtocol.AtMostOnePeer` | src/iroh_protocol.rs:37-71 | from any state, over any sequence of calls, at most one task is spawned and a set flag stays set |
| `IrohProtocol.FailedLookupExhausts` | src/iroh_protocol.rs:37-59 | if the first call's `remote_node_id()` fails, the flag is still set: that call and all later calls fail and no task is ever spawned |
| `IrohProtocol.ApplicationProtocol.constructor` | src/iroh_protocol.rs:26-32 | a new handler has no peer and no task, and keeps the given token and device |
| `IrohProtocol.ApplicationProtocol.CompareExchange` | src/iroh_protocol.rs:37-40 | compare-and-swap in one step: it stores the new value and returns `Ok(previous)` iff the flag equals the expected value; otherwise it leaves the flag and returns `Err(previous)`. It only swaps towards `true` and keeps `Valid()`, so the flag is never reset |
| `IrohProtocol.ApplicationProtocol.AcceptSync` | src/iroh_protocol.rs:36-72 | keeps "at most one task, and only once the flag is set". Neither `assert!` can fire. The new flag, the result and the spawned task are those of `Admit` |
| `IrohProtocol.ApplicationProtocol.Accept` | src/iroh_protocol.rs:76-78 | the handler's `accept` resolves to the `accept_sync` result with the same state change |
| `IrohProtocol.TaskOutcome` | src/iroh_protocol.rs:81-98 | the forwarding task has no outcome until it is cancelled, and then it ends with `Ok` |
| `IrohProtocol.Supervise` | src/iroh_protocol.rs:61-67 | the wrapper closes the connection iff the task failed, and then with code 500 and "internal server error" |
| `IrohProtocol.SupervisorNeverCloses` | src/iroh_protocol.rs:63-66 | with the task as written, the wrapper never closes the connection |
| `Lib.NewBuilder` | src/lib.rs:26-32 | a new builder has no token, no tun configuration, and the `NoAuth` strategy |
| `Lib.DefaultBuilder` | src/lib.rs:61-65 | the default builder has no token, no tun configuration, and the `NoAuth` strategy |
| `Lib.ServerBuilder.WithCancel` | src/lib.rs:36-39 | sets the token to the given one and keeps the configuration and the strategy |
| `Lib.ServerBuilder.WithTunCfg` | src/lib.rs:41-44 | sets the configuration to the given one and keeps the token and the strategy |
| `Lib.ServerBuilder.WithAuth` | src/lib.rs:46-52 | replaces the strategy and carries the token and the configuration over |
| `Lib.SettersCommute` | src/lib.rs:35-44 | token and configuration may be supplied in either order; a later token replaces an earlier one |
| `Lib.Spawn` | src/lib.rs:78-133 | the device is created first, with the supplied configuration or else the default; the supplied token is used, or else a fresh one. The server starts iff device creation and binding both succeed. A device failure returns before binding. A bind failure returns before anything is registered or spawned. Each failure carries its context message and cancels the token through the dropped guard. On success: bind, then register the created device, wrapped in the builder's strategy, under what the process-wide cell yields, then spawn the shutdown watcher, in that order. The registered identifier is the strategy's own on an empty cell, and otherwise the cell's content. Only a start-up that gets past binding touches the cell |
| `Lib.SecondServerReusesAlpn` | src/lib.rs:116-118 | in one process, a default server and then a server built `with_auth` a "/token" strategy are both registered under "ptunp/v0/noauth": the second registration puts the "/token" strategy behind the `NoAuth` identifier, not behind its own |
| `Lib.RouteConnection` | src/lib.rs:115-118 | the registered stack answers as `Auth::accept` around the admission handler. A connection that fails authentication leaves the flag and the spawned tasks untouched. One that passes is admitted as `Admit` says |

## Findings

| source | as written | input that shows it | evidently intended | confidence | as-written member | corrected member |
|---|---|---|---|---|---|---|
| src/auth.rs:44-47 | the `OnceLock` static is declared inside a generic impl, so the whole process has one cell, shared by every `Auth<A, P>` | `alpn()` on an `Auth<NoAuth, _>`, then on an `Auth<B, _>` whose `B::ALPN_SUFFIX` is "/token": the second call returns "ptunp/v0/noauth" | each strategy is registered under its own identifier, prefix followed by its own suffix (the doc comment at src/auth.rs:10-11) | high for the semantics of statics in generic functions; not executed | `Lib.SecondServerReusesAlpn` | `Auth.AlpnOfInjective` |

`Lib.Spawn` goes through the shared cell as the code does, so the bug shows
in the model of the public start-up (`Lib.SecondServerReusesAlpn`), and
`Auth.SharedCacheConflates` states it for the cell alone. `Auth.AlpnOf` is the
corrected identifier: one per strategy, as a constant concatenation would give.
For the first server of a process the two agree (`Auth.AlpnFreshCellAgrees`),
and the crate's own binary builds one server.

## Left out

- Concurrency and the tokio scheduler: calls are sequential, and the compare-and-swap is one atomic step.
- `CancellationToken` and `DropGuard` internals: a token is an identity. Cancelling it is the effect `Cancelled`. Child tokens are not modelled.
- `Server::cancel`, `Server::join` and the oneshot channel: they only forward a result.
- The router's shutdown task body: it waits for cancellation, shuts the router down and sends the result. It is modelled only as the effect of spawning it.
- `ServerBuilder::build` and `Server::builder`: they forward to `Server::spawn` and `ServerBuilder::new` unchanged.
- Lib.Spawn: does not allocate the `ApplicationProtocol` or the `Router`. It records their registration as one effect, and `RouteConnection` takes the handler as a parameter.
- Lib.Spawn: the eyre suggestion "try running as root on linux" attached to a device failure is not part of the modelled error.
- The forwarding task body: it is a stub that waits for cancellation. No frames are relayed, so there is no framing to model.
- iroh's `Connection` API (`remote_node_id`, `alpn`, `close`), `Endpoint::bind`, `Router`, QUIC `VarInt` encoding and `tun::create_as_async`: foreign calls, reduced to their success or failure.
- `tun::Configuration`: only the fields this crate sets are modelled.
- Tracing spans and logging.
- `src/main.rs` is not part of this model: argument parsing, ctrl-c handling and runtime setup.
