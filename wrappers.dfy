/** The failure-carrying values the core passes around: `Option`, `Result` with the
    two combinators `Auth::accept` is built from, and the error reports that
    `anyhow` and `eyre` build by stacking context messages. */
module Wrappers {

  datatype Option<T> = None | Some(value: T) {

    /** `unwrap_or_else`: the carried value, or the fallback when there is none. */
    function GetOr(fallback: T): (r: T)
      ensures Some? ==> r == value
      ensures None? ==> r == fallback
    {
      match this
      case Some(v) => v
      case None => fallback
    }
  }

  datatype Result<T, E> = Ok(value: T) | Err(error: E) {

    /** `map_err`: rewrites the error, keeps a success as it is. */
    function MapErr<F>(f: E -> F): (r: Result<T, F>)
      ensures Ok? <==> r.Ok?
      ensures Ok? ==> r.value == value
      ensures Err? ==> r.error == f(error)
    {
      match this
      case Ok(v) => Ok(v)
      case Err(e) => Err(f(e))
    }

    /** `and_then`: runs the continuation only on success; an error passes through. */
    function AndThen<U>(f: T -> Result<U, E>): (r: Result<U, E>)
      ensures Ok? ==> r == f(value)
      ensures Err? ==> r == Err(error)
    {
      match this
      case Ok(v) => f(v)
      case Err(e) => Err(e)
    }
  }

  /** An error report: the outermost context message first, the root cause last. */
  datatype Error = Error(chain: seq<string>) {

    /** `context` / `wrap_err`: puts a message in front of the chain. */
    function Context(msg: string): (e: Error)
      ensures |e.chain| == |chain| + 1
      ensures e.chain[0] == msg && e.chain[1..] == chain
    {
      Error([msg] + chain)
    }
  }
}
