/** The tunnel's admission handler: it admits the first authenticated connection
    as the one peer, spawns that peer's forwarding task, and refuses everyone
    after it, for the whole life of the handler. */
module IrohProtocol {
  import opened Wrappers
  import opened Externals

  /** The error returned to every connection after the first. */
  const AlreadyHavePeer: string := "already have a peer"

  /** One admission decision: the flag afterwards, the value `accept_sync`
      returns, and whether a forwarding task is spawned. */
  datatype Admission = Admission(hasPeer: bool, result: Result<(), Error>, spawns: bool)

  /** What `accept_sync` decides, given the flag before the call and the outcome
      of the connection's `remote_node_id()` lookup. */
  function Admit(hasPeer: bool, remoteNodeId: Result<NodeId, string>): (a: Admission)
    ensures a.hasPeer
    ensures a.spawns <==> !hasPeer && remoteNodeId.Ok?
    ensures a.result.Ok? <==> a.spawns
    ensures hasPeer ==> a.result == Err(Error([AlreadyHavePeer]))
    ensures !hasPeer && remoteNodeId.Err? ==> a.result == Err(Error([remoteNodeId.error]))
  {
    if hasPeer then Admission(true, Err(Error([AlreadyHavePeer])), false)
    else match remoteNodeId
      case Err(e) => Admission(true, Err(Error([e])), false)
      case Ok(_) => Admission(true, Ok(()), true)
  }

  /** The handler after a sequence of `accept_sync` calls: the final flag, each
      call's result, and how many forwarding tasks were spawned. */
  datatype History = History(hasPeer: bool, results: seq<Result<(), Error>>, spawns: nat)

  /** Runs `accept_sync` once per lookup outcome, in order, from the flag `hasPeer`. */
  function Run(hasPeer: bool, lookups: seq<Result<NodeId, string>>): (h: History)
    ensures |h.results| == |lookups|
    decreases |lookups|
  {
    if lookups == [] then History(hasPeer, [], 0)
    else
      var a := Admit(hasPeer, lookups[0]);
      var rest := Run(a.hasPeer, lookups[1..]);
      History(rest.hasPeer, [a.result] + rest.results, (if a.spawns then 1 else 0) + rest.spawns)
  }

  /** Once a peer is recorded, every call is refused with "already have a peer",
      the flag stays set and nothing is spawned. */
  lemma {:induction false} RunAfterPeer(lookups: seq<Result<NodeId, string>>)
    ensures Run(true, lookups).hasPeer
    ensures Run(true, lookups).spawns == 0
    ensures forall i :: 0 <= i < |lookups| ==> Run(true, lookups).results[i] == Err(Error([AlreadyHavePeer]))
    decreases |lookups|
  {
    if lookups != [] {
      RunAfterPeer(lookups[1..]);
    }
  }

  /** On a fresh handler the first call alone decides: it is admitted exactly
      when its lookup succeeds, every later call is refused, and at most that
      first call spawns a task. */
  lemma RunFromFresh(lookups: seq<Result<NodeId, string>>)
    requires lookups != []
    ensures Run(false, lookups).hasPeer
    ensures Run(false, lookups).results[0] == Admit(false, lookups[0]).result
    ensures Run(false, lookups).spawns == (if lookups[0].Ok? then 1 else 0)
    ensures forall i :: 1 <= i < |lookups| ==> Run(false, lookups).results[i] == Err(Error([AlreadyHavePeer]))
  {
    RunAfterPeer(lookups[1..]);
  }

  /** Over any sequence of calls, from any state, at most one forwarding task is
      spawned, and the flag never goes back from `true` to `false`. */
  lemma AtMostOnePeer(hasPeer: bool, lookups: seq<Result<NodeId, string>>)
    ensures Run(hasPeer, lookups).spawns <= 1
    ensures hasPeer ==> Run(hasPeer, lookups).hasPeer
  {
    if hasPeer {
      RunAfterPeer(lookups);
    } else if lookups != [] {
      RunFromFresh(lookups);
    }
  }

  /** A failed `remote_node_id()` after a successful swap exhausts the handler:
      that call and every later one fail, and no task is ever spawned. */
  lemma FailedLookupExhausts(e: string, later: seq<Result<NodeId, string>>)
    ensures Run(false, [Err(e)] + later).hasPeer
    ensures Run(false, [Err(e)] + later).spawns == 0
    ensures forall i :: 0 <= i < 1 + |later| ==> Run(false, [Err(e)] + later).results[i].Err?
  {
    RunFromFresh([Err(e)] + later);
  }

  /** `ApplicationProtocol`: the admission flag, the child cancellation token and
      the shared tun device handed to the one forwarding task. */
  class ApplicationProtocol {
    const cancel: CancelToken
    const tun: TunDevice
    var hasPeer: bool
    /** The connections a forwarding task has been spawned for, in order. */
    ghost var tasks: seq<Connection>

    /** At most one task, and only once the flag is set. */
    ghost predicate Valid()
      reads this
    {
      |tasks| <= 1 && (|tasks| == 1 ==> hasPeer)
    }

    /** `ApplicationProtocol::new`: no peer yet, nothing spawned. */
    constructor (cancel: CancelToken, tun: TunDevice)
      ensures Valid()
      ensures !hasPeer && tasks == []
      ensures this.cancel == cancel && this.tun == tun
    {
      this.cancel := cancel;
      this.tun := tun;
      hasPeer := false;
      tasks := [];
    }

    /** `AtomicBool::compare_exchange` on the flag, as one atomic step: stores
        `replacement` and yields `Ok(previous)` when the flag equals `current`, and
        otherwise leaves it and yields `Err(previous)`. The handler only ever
        swaps towards `true`, which is what keeps the flag from being reset. */
    method CompareExchange(current: bool, replacement: bool) returns (res: Result<bool, bool>)
      requires Valid() && replacement
      modifies this`hasPeer
      ensures Valid()
      ensures old(hasPeer) == current ==> res == Ok(current) && hasPeer == replacement
      ensures old(hasPeer) != current ==> res == Err(old(hasPeer)) && hasPeer == old(hasPeer)
    {
      if hasPeer == current {
        res := Ok(hasPeer);
        hasPeer := replacement;
      } else {
        res := Err(hasPeer);
      }
    }

    /** `accept_sync`: swap the flag from `false` to `true`; on a failed swap
        refuse the connection; otherwise look up the remote node and, when that
        succeeds, spawn the forwarding task. The swap comes before the lookup, so
        a failed lookup still uses the handler up. */
    method AcceptSync(conn: Connection, remoteNodeId: Result<NodeId, string>) returns (r: Result<(), Error>)
      requires Valid()
      modifies this
      ensures Valid()
      ensures hasPeer == Admit(old(hasPeer), remoteNodeId).hasPeer
      ensures r == Admit(old(hasPeer), remoteNodeId).result
      ensures tasks == old(tasks) + (if Admit(old(hasPeer), remoteNodeId).spawns then [conn] else [])
    {
      var swapped := CompareExchange(false, true);
      match swapped {
        case Ok(previous) =>
          // the first `assert!` cannot fire: a successful swap saw no peer
          assert !previous;
        case Err(previous) =>
          // the second `assert!` cannot fire: a failed swap saw a peer
          assert previous;
          r := Err(Error([AlreadyHavePeer]));
          return;
      }
      match remoteNodeId {
        case Err(e) =>
          r := Err(Error([e]));
          return;
        case Ok(_) =>
      }
      tasks := tasks + [conn];
      r := Ok(());
    }

    /** `ProtocolHandler::accept`: the result of `accept_sync`, already resolved. */
    method Accept(conn: Connection, remoteNodeId: Result<NodeId, string>) returns (r: Result<(), Error>)
      requires Valid()
      modifies this
      ensures Valid()
      ensures hasPeer == Admit(old(hasPeer), remoteNodeId).hasPeer
      ensures r == Admit(old(hasPeer), remoteNodeId).result
      ensures tasks == old(tasks) + (if Admit(old(hasPeer), remoteNodeId).spawns then [conn] else [])
    {
      r := AcceptSync(conn, remoteNodeId);
    }
  }

  /** The router handing the handler one connection after another: the flag,
      the results and the number of spawned tasks are those of `Run`, so the
      lemmas about `Run` speak about the handler itself. */
  method AcceptEach(app: ApplicationProtocol, conns: seq<Connection>, lookups: seq<Result<NodeId, string>>)
    returns (results: seq<Result<(), Error>>)
    requires app.Valid()
    requires |conns| == |lookups|
    modifies app
    ensures app.Valid()
    ensures app.hasPeer == Run(old(app.hasPeer), lookups).hasPeer
    ensures results == Run(old(app.hasPeer), lookups).results
    ensures |app.tasks| == |old(app.tasks)| + Run(old(app.hasPeer), lookups).spawns
  {
    results := [];
    var i := 0;
    while i < |lookups|
      invariant 0 <= i <= |lookups|
      invariant app.Valid()
      invariant var done := Run(old(app.hasPeer), lookups[..i]);
        app.hasPeer == done.hasPeer && results == done.results &&
        |app.tasks| == |old(app.tasks)| + done.spawns
    {
      var r := app.AcceptSync(conns[i], lookups[i]);
      RunSnoc(old(app.hasPeer), lookups[..i], lookups[i]);
      assert lookups[..i + 1] == lookups[..i] + [lookups[i]];
      results := results + [r];
      i := i + 1;
    }
    assert lookups[..i] == lookups;
  }

  /** Running one more call after a sequence of calls continues from the flag
      that sequence left. */
  lemma {:induction false} RunSnoc(hasPeer: bool, lookups: seq<Result<NodeId, string>>, last: Result<NodeId, string>)
    ensures var before := Run(hasPeer, lookups);
      var a := Admit(before.hasPeer, last);
      Run(hasPeer, lookups + [last])
        == History(a.hasPeer, before.results + [a.result], before.spawns + (if a.spawns then 1 else 0))
    decreases |lookups|
  {
    if lookups == [] {
      assert [] + [last] == [last];
    } else {
      assert (lookups + [last])[1..] == lookups[1..] + [last];
      RunSnoc(Admit(hasPeer, lookups[0]).hasPeer, lookups[1..], last);
    }
  }

  /** Closing a connection with a numeric application code and a reason. */
  datatype Close = Close(code: nat, reason: string)

  /** The forwarding `task`: it waits on a future that never resolves or on its
      cancellation token, so it has no outcome until cancelled and then ends with
      `Ok`. */
  function TaskOutcome(cancelled: bool): (o: Option<Result<(), Error>>)
    ensures o.Some? <==> cancelled
    ensures o.Some? ==> o.value.Ok?
  {
    if cancelled then Some(Ok(())) else None
  }

  /** The spawned wrapper around the task: an error closes the connection with
      code 500 and "internal server error"; success leaves it open. */
  function Supervise(outcome: Result<(), Error>): (c: Option<Close>)
    ensures c.Some? <==> outcome.Err?
    ensures c.Some? ==> c.value.code == 500 && c.value.reason == "internal server error"
  {
    match outcome
    case Err(_) => Some(Close(500, "internal server error"))
    case Ok(_) => None
  }

  /** As the task is written, the supervisor never closes the connection. */
  lemma SupervisorNeverCloses(cancelled: bool)
    ensures TaskOutcome(cancelled).Some? ==> Supervise(TaskOutcome(cancelled).value).None?
  {
  }
}
