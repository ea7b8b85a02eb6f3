/** The crate's public surface: the server builder, the ordered start-up steps of
    `Server::spawn`, and how the registered handler stack treats an inbound
    connection. */
module Lib {
  import opened Wrappers
  import opened Externals
  import opened Config
  import opened Auth
  import opened IrohProtocol

  /** `ServerBuilder<A>`: an optional cancellation token, an optional tun
      configuration and the authentication strategy. */
  datatype ServerBuilder<A> = ServerBuilder(cancel: Option<CancelToken>, tunCfg: Option<TunConfig>, authHandler: A) {

    /** `with_cancel`: use `token`, keep the rest. */
    function WithCancel(token: CancelToken): (r: ServerBuilder<A>)
      ensures r.cancel == Some(token)
      ensures r.tunCfg == tunCfg && r.authHandler == authHandler
    {
      this.(cancel := Some(token))
    }

    /** `with_tun_cfg`: use `cfg`, keep the rest. */
    function WithTunCfg(cfg: TunConfig): (r: ServerBuilder<A>)
      ensures r.tunCfg == Some(cfg)
      ensures r.cancel == cancel && r.authHandler == authHandler
    {
      this.(tunCfg := Some(cfg))
    }

    /** `with_auth`: a builder for another strategy that carries the token and the
        configuration over. */
    function WithAuth<B>(auth: B): (r: ServerBuilder<B>)
      ensures r.authHandler == auth
      ensures r.cancel == cancel && r.tunCfg == tunCfg
    {
      ServerBuilder(cancel, tunCfg, auth)
    }
  }

  /** `ServerBuilder::new`: nothing supplied, no authentication. */
  function NewBuilder(): (b: ServerBuilder<Strategy>)
    ensures b.cancel == None && b.tunCfg == None && b.authHandler == NoAuth
  {
    ServerBuilder(None, None, NoAuth)
  }

  /** `Default for ServerBuilder`, which is `new`. */
  function DefaultBuilder(): (b: ServerBuilder<Strategy>)
    ensures b.cancel == None && b.tunCfg == None && b.authHandler == NoAuth
  {
    NewBuilder()
  }

  /** The two settings can be supplied in either order, and a later setting of
      the same field replaces an earlier one. */
  lemma SettersCommute<A>(b: ServerBuilder<A>, token: CancelToken, cfg: TunConfig, token2: CancelToken)
    ensures b.WithCancel(token).WithTunCfg(cfg) == b.WithTunCfg(cfg).WithCancel(token)
    ensures b.WithCancel(token).WithCancel(token2) == b.WithCancel(token2)
  {
  }

  /** The running server: the root cancellation token it cancels on drop. */
  datatype Server = Server(cancel: CancelToken)

  /** The outcomes of the calls `Server::spawn` makes into code outside the core,
      and the platform it was compiled for. */
  datatype Environment = Environment(
    linux: bool,
    freshToken: CancelToken,
    createTun: Result<TunDevice, string>,
    bind: Result<(), string>)

  /** The externally visible steps of `Server::spawn`, in the order they happen. */
  datatype Effect =
    | CreateTun(cfg: TunConfig)
    | BindEndpoint
    | Register(alpn: string, auth: Strategy, device: TunDevice)
    | SpawnShutdownWatcher(token: CancelToken)
    | Cancelled(token: CancelToken)

  const TunFailed: string := "failed to create tun network device"
  const BindFailed: string := "failed to bind iroh endpoint"

  /** `Server::spawn`: pick the supplied or default tun configuration and token,
      arm the token's drop guard, create the device, bind the endpoint, register
      the admission handler wrapped in the builder's strategy under the identifier `alpn()` gives
      and spawn the task that shuts the router down on cancellation. Each
      fallible step returns early, and returning early drops the guard, which
      cancels the token. `cell` is the process-wide identifier cache: only a
      start-up that gets past binding reads or fills it, and it hands a later
      server the identifier of the first. */
  method Spawn(cell: AlpnCell, b: ServerBuilder<Strategy>, env: Environment)
    returns (r: Result<Server, Error>, effects: seq<Effect>)
    modifies cell
    ensures |effects| >= 2 && effects[0] == CreateTun(b.tunCfg.GetOr(DefaultTunConfig(env.linux)))
    ensures r.Ok? <==> env.createTun.Ok? && env.bind.Ok?
    ensures BindEndpoint in effects ==> env.createTun.Ok?
    ensures r.Err? ==> effects[|effects| - 1] == Cancelled(b.cancel.GetOr(env.freshToken))
    ensures env.createTun.Err? ==>
              r == Err(Error([TunFailed, env.createTun.error])) &&
              effects == [effects[0], Cancelled(b.cancel.GetOr(env.freshToken))]
    ensures env.createTun.Ok? && env.bind.Err? ==>
              r == Err(Error([BindFailed, env.bind.error])) &&
              effects == [effects[0], BindEndpoint, Cancelled(b.cancel.GetOr(env.freshToken))]
    ensures r.Ok? ==>
              r.value.cancel == b.cancel.GetOr(env.freshToken) &&
              effects == [effects[0], BindEndpoint,
                          Register(old(cell.value).GetOr(AlpnOf(b.authHandler)), b.authHandler, env.createTun.value),
                          SpawnShutdownWatcher(b.cancel.GetOr(env.freshToken))]
    ensures r.Ok? ==> cell.value == Some(old(cell.value).GetOr(AlpnOf(b.authHandler)))
    ensures r.Err? ==> cell.value == old(cell.value)
  {
    var tunCfg := b.tunCfg.GetOr(DefaultTunConfig(env.linux));
    var cancel := b.cancel.GetOr(env.freshToken);
    effects := [CreateTun(tunCfg)];
    match env.createTun {
      case Err(e) =>
        r := Err(Error([e]).Context(TunFailed));
        assert r.error.chain == [TunFailed, e];
        effects := effects + [Cancelled(cancel)];
        return;
      case Ok(_) =>
    }
    var device := env.createTun.value;
    effects := effects + [BindEndpoint];
    match env.bind {
      case Err(e) =>
        r := Err(Error([e]).Context(BindFailed));
        assert r.error.chain == [BindFailed, e];
        effects := effects + [Cancelled(cancel)];
        return;
      case Ok(_) =>
    }
    var alpn := Alpn(cell, b.authHandler);
    effects := effects + [Register(alpn, b.authHandler, device)];
    effects := effects + [SpawnShutdownWatcher(cancel)];
    r := Ok(Server(cancel));
  }

  /** Two servers started in one process: a default one, then one built
      `with_auth` a strategy whose suffix is "/token". Through the shared cache
      the "/token" strategy ends up answering under the first one's identifier. */
  method SecondServerReusesAlpn(check: Connection -> Result<(), string>, env1: Environment, env2: Environment)
    returns (first: seq<Effect>, second: seq<Effect>)
    requires env1.createTun.Ok? && env1.bind.Ok?
    requires env2.createTun.Ok? && env2.bind.Ok?
    ensures |first| == 4 && |second| == 4
    ensures first[2] == Register("ptunp/v0/noauth", NoAuth, env1.createTun.value)
    ensures second[2] == Register("ptunp/v0/noauth", Strategy("/token", check), env2.createTun.value)
    ensures second[2].alpn != AlpnOf(Strategy("/token", check))
  {
    var cell := new AlpnCell();
    var r1, r2;
    r1, first := Spawn(cell, NewBuilder(), env1);
    r2, second := Spawn(cell, NewBuilder().WithAuth(Strategy("/token", check)), env2);
    NoAuthAlpn();
    assert AlpnOf(Strategy("/token", check)) == "ptunp/v0/token";
  }

  /** The admission handler seen as an inner handler of `Auth`, for a handler
      whose flag is `hasPeer` and a connection whose lookup gives `remoteNodeId`. */
  function AdmissionHandler(hasPeer: bool, remoteNodeId: Result<NodeId, string>): Connection -> Handled
  {
    _ => Handled(Admit(hasPeer, remoteNodeId).result, [])
  }

  /** What the router does with a connection under the registered identifier:
      `Auth::accept` with the admission handler inside. A connection that fails
      authentication never reaches the admission flag, so it cannot use up the
      single peer slot. */
  method RouteConnection(a: Strategy, app: ApplicationProtocol, conn: Connection, remoteNodeId: Result<NodeId, string>)
    returns (r: Result<(), Error>)
    requires app.Valid()
    modifies app
    ensures app.Valid()
    ensures r == Auth.Accept(a, AdmissionHandler(old(app.hasPeer), remoteNodeId), conn).result
    ensures a.authenticate(conn).Err? ==> app.hasPeer == old(app.hasPeer) && app.tasks == old(app.tasks)
    ensures a.authenticate(conn).Ok? ==>
              app.hasPeer &&
              app.tasks == old(app.tasks) + (if !old(app.hasPeer) && remoteNodeId.Ok? then [conn] else [])
  {
    match a.authenticate(conn) {
      case Err(e) =>
        r := Err(Error([AuthFailed, e]));
      case Ok(_) =>
        r := app.Accept(conn, remoteNodeId);
    }
  }
}
