/** Options, results, the error codes that the runtime attaches to its failures, and the limit of queries. */
module Wrappers {

  datatype Option<+T> = None | Some(value: T)

  datatype ErrorCode =
    | BadRequest
    | UnknownNamespace
    | ActorStartFailed
    | MethodNotFound
    | StorageError
    | ExecutionError
    | Timeout

  datatype Result<+T> = Ok(value: T) | Err(code: ErrorCode)

  const MAX_LIMIT := 1000

  /** How many rows a query returns at most: a limit that is missing or too large is replaced. */
  function Clamped(limit: int): nat {
    if limit <= 0 || limit > MAX_LIMIT then MAX_LIMIT else limit
  }

  /** There is always a number that is not in use. */
  lemma FreshNat(used: set<nat>) returns (n: nat)
    ensures n !in used
  {
    n := 0;
    var seen: set<nat> := {};
    while n in used
      invariant seen <= used && forall m | m in seen :: m < n
      decreases used - seen
    {
      seen := seen + {n};
      n := n + 1;
    }
  }
}
