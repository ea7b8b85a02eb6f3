/** Authentication strategies, the protocol identifier each one is registered
    under, and the handler that runs a strategy before its inner handler. */
module Auth {
  import opened Wrappers
  import opened Externals
  import Config

  /** An `AuthStrategy`: the suffix it appends to the identifier namespace
      (`ALPN_SUFFIX`) and its `authenticate` check on a connection. */
  datatype Strategy = Strategy(suffix: string, authenticate: Connection -> Result<(), string>)

  /** `NoAuth::authenticate`: admits every connection. */
  function NoAuthenticate(conn: Connection): (r: Result<(), string>)
    ensures r.Ok?
  {
    Ok(())
  }

  /** `NoAuth`, the strategy a fresh builder carries. */
  const NoAuth: Strategy := Strategy("/noauth", NoAuthenticate)

  /** The identifier of a strategy, `ALPN_PREFIX` followed by its suffix: the
      value each `Auth<A, P>::alpn` is meant to yield for its own `A`. */
  function AlpnOf(a: Strategy): (id: string)
    ensures |id| == |Config.AlpnPrefix| + |a.suffix|
    ensures id[..|Config.AlpnPrefix|] == Config.AlpnPrefix
    ensures id[|Config.AlpnPrefix|..] == a.suffix
  {
    Config.AlpnPrefix + a.suffix
  }

  /** A protocol name in the sense of section 3.1 of RFC 7301: between 1 and 255
      octets. Every character here is ASCII, so it is one octet. */
  predicate IsProtocolName(s: string) {
    1 <= |s| <= 255 && forall i :: 0 <= i < |s| ==> s[i] < 128 as char
  }

  /** For `NoAuth` the identifier is "ptunp/v0/noauth", a valid protocol name. */
  lemma NoAuthAlpn()
    ensures AlpnOf(NoAuth) == "ptunp/v0/noauth"
    ensures IsProtocolName(AlpnOf(NoAuth))
  {
  }

  /** Any ASCII suffix of at most 247 characters gives a valid protocol name. */
  lemma AlpnIsProtocolName(a: Strategy)
    requires |a.suffix| <= 255 - |Config.AlpnPrefix|
    requires forall i :: 0 <= i < |a.suffix| ==> a.suffix[i] < 128 as char
    ensures IsProtocolName(AlpnOf(a))
  {
  }

  /** Strategies with different suffixes get different identifiers. */
  lemma AlpnOfInjective(a1: Strategy, a2: Strategy)
    requires a1.suffix != a2.suffix
    ensures AlpnOf(a1) != AlpnOf(a2)
  {
  }

  /** The `static S: OnceLock<String>` declared inside the generic `Auth::alpn`:
      Rust keeps one such static for the whole process, shared by every
      instantiation `Auth<A, P>`. */
  class AlpnCell {
    var value: Option<string>

    constructor ()
      ensures value == None
    {
      value := None;
    }

    /** `OnceLock::get_or_init`: stores `init` if the cell is still empty, then
        returns the stored string. */
    method GetOrInit(init: string) returns (s: string)
      modifies this
      ensures s == old(value).GetOr(init)
      ensures value == Some(s)
    {
      if value.None? {
        value := Some(init);
      }
      s := value.value;
    }
  }

  /** `Auth<A, P>::alpn` as written: the shared cell is filled with the identifier
      of whichever strategy asks first. */
  method Alpn(cell: AlpnCell, a: Strategy) returns (s: string)
    modifies cell
    ensures old(cell.value).None? ==> s == AlpnOf(a)
    ensures old(cell.value).Some? ==> s == old(cell.value).value
    ensures cell.value == Some(s)
  {
    s := cell.GetOrInit(AlpnOf(a));
  }

  /** The strings a sequence of `alpn()` calls returns, one call per strategy,
      starting from the cell content `cell`. */
  function AlpnReplies(cell: Option<string>, callers: seq<Strategy>): (replies: seq<string>)
    ensures |replies| == |callers|
    decreases |callers|
  {
    if callers == [] then []
    else
      var s := cell.GetOr(AlpnOf(callers[0]));
      [s] + AlpnReplies(Some(s), callers[1..])
  }

  /** Successive `alpn()` calls on one shared cell return what `AlpnReplies`
      says, so the lemmas about `AlpnReplies` speak about the cell itself. */
  method AlpnEach(cell: AlpnCell, callers: seq<Strategy>) returns (replies: seq<string>)
    modifies cell
    ensures replies == AlpnReplies(old(cell.value), callers)
    ensures callers != [] ==> cell.value == Some(replies[0])
    ensures callers == [] ==> cell.value == old(cell.value)
  {
    replies := [];
    var i := 0;
    while i < |callers|
      invariant 0 <= i <= |callers|
      invariant replies == AlpnReplies(old(cell.value), callers)[..i]
      invariant i == 0 ==> cell.value == old(cell.value)
      invariant i > 0 ==> cell.value == Some(replies[0])
    {
      var s := Alpn(cell, callers[i]);
      AlpnRepliesAt(old(cell.value), callers, i);
      replies := replies + [s];
      i := i + 1;
    }
  }

  /** The reply to call `i`: the first caller's (or the old content's) string. */
  lemma {:induction false} AlpnRepliesAt(cell: Option<string>, callers: seq<Strategy>, i: nat)
    requires i < |callers|
    ensures AlpnReplies(cell, callers)[i] == cell.GetOr(AlpnOf(callers[0]))
    decreases i
  {
    if i > 0 {
      var s := cell.GetOr(AlpnOf(callers[0]));
      AlpnSettled(s, callers[1..]);
    }
  }

  /** Once the cell holds a string, every later call returns exactly it. */
  lemma {:induction false} AlpnSettled(x: string, callers: seq<Strategy>)
    ensures forall i :: 0 <= i < |callers| ==> AlpnReplies(Some(x), callers)[i] == x
    decreases |callers|
  {
    if callers != [] {
      AlpnSettled(x, callers[1..]);
    }
  }

  /** From an empty cell, every call returns the identifier of the first caller's
      strategy, whatever strategy the later callers use. */
  lemma AlpnFirstWins(callers: seq<Strategy>)
    requires callers != []
    ensures forall i :: 0 <= i < |callers| ==> AlpnReplies(None, callers)[i] == AlpnOf(callers[0])
  {
    AlpnSettled(AlpnOf(callers[0]), callers[1..]);
  }

  /** The shared cell conflates strategies: after a `NoAuth` handler asked first,
      a handler whose strategy has suffix "/token" is handed "ptunp/v0/noauth",
      not its own identifier. */
  lemma SharedCacheConflates(check: Connection -> Result<(), string>)
    ensures var token := Strategy("/token", check);
      AlpnReplies(None, [NoAuth, token])[1] == "ptunp/v0/noauth" &&
      AlpnReplies(None, [NoAuth, token])[1] != AlpnOf(token)
  {
  }

  /** For the first caller of the process, the shared cell and the per-strategy
      identifier agree: a single server registers under `AlpnOf` of its strategy. */
  lemma AlpnFreshCellAgrees(a: Strategy, later: seq<Strategy>)
    ensures AlpnReplies(None, [a] + later)[0] == AlpnOf(a)
  {
  }

  /** Context attached to an authentication failure. */
  const AuthFailed: string := "error during authentication"

  /** What a handler does during one `accept`, in order. */
  datatype Call = Authenticate(suffix: string, conn: Connection) | InnerAccept(conn: Connection)

  /** The outcome of a handler's `accept` and the calls it made. */
  datatype Handled = Handled(result: Result<(), Error>, calls: seq<Call>)

  /** `Auth::accept`: authenticate with the strategy, attach context to its error,
      and only when it succeeded hand the same connection to the inner handler
      and return that handler's result as it is. */
  function Accept(a: Strategy, inner: Connection -> Handled, conn: Connection): (h: Handled)
    ensures |h.calls| >= 1 && h.calls[0] == Authenticate(a.suffix, conn)
    ensures a.authenticate(conn).Err? ==>
              h.result == Err(Error([AuthFailed, a.authenticate(conn).error])) &&
              h.calls == [Authenticate(a.suffix, conn)]
    ensures a.authenticate(conn).Ok? ==>
              h.result == inner(conn).result &&
              h.calls[1..] == [InnerAccept(conn)] + inner(conn).calls
  {
    var authed := a.authenticate(conn).MapErr((e: string) => Error([AuthFailed, e]));
    var rest := if authed.Ok? then [InnerAccept(conn)] + inner(conn).calls else [];
    Handled(authed.AndThen((_: ()) => inner(conn).result), [Authenticate(a.suffix, conn)] + rest)
  }

  /** Authentication gates the inner handler: it is invoked if and only if the
      strategy accepted, and the strategy itself runs exactly once, first. */
  lemma InnerOnlyAfterAuth(a: Strategy, inner: Connection -> Handled, conn: Connection)
    ensures var h := Accept(a, inner, conn);
      (InnerAccept(conn) in h.calls <==> a.authenticate(conn).Ok?) &&
      (h.result.Ok? ==> a.authenticate(conn).Ok?)
  {
  }

  /** `NoAuth` is transparent: the wrapped handler sees every connection and its
      result is the result of the whole. */
  lemma NoAuthPassesThrough(inner: Connection -> Handled, conn: Connection)
    ensures Accept(NoAuth, inner, conn).result == inner(conn).result
    ensures Accept(NoAuth, inner, conn).calls
            == [Authenticate("/noauth", conn), InnerAccept(conn)] + inner(conn).calls
  {
  }

  /** Stacking two strategies: the inner handler runs only when both accept, the
      second strategy only when the first accepts, and the first failure decides
      the result. */
  lemma StackedStrategies(a1: Strategy, a2: Strategy, inner: Connection -> Handled, conn: Connection)
    ensures var h := Accept(a1, c => Accept(a2, inner, c), conn);
      (h.result.Ok? <==> a1.authenticate(conn).Ok? && a2.authenticate(conn).Ok? && inner(conn).result.Ok?) &&
      (a1.authenticate(conn).Err? ==>
         h.calls == [Authenticate(a1.suffix, conn)] &&
         h.result == Err(Error([AuthFailed, a1.authenticate(conn).error]))) &&
      (a1.authenticate(conn).Ok? && a2.authenticate(conn).Err? ==>
         h.calls == [Authenticate(a1.suffix, conn), InnerAccept(conn), Authenticate(a2.suffix, conn)] &&
         h.result == Err(Error([AuthFailed, a2.authenticate(conn).error]))) &&
      (a1.authenticate(conn).Ok? && a2.authenticate(conn).Ok? ==>
         h.calls == [Authenticate(a1.suffix, conn), InnerAccept(conn),
                     Authenticate(a2.suffix, conn), InnerAccept(conn)] + inner(conn).calls &&
         h.result == inner(conn).result)
  {
  }
}
