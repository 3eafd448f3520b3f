/**
 * A promise raced against a `setTimeout` timer, the pattern used by the latency
 * probe, the seed tester's sub-clients and the connection orchestrator's nodes:
 * the timer callback sets a local `finished` flag and resolves with a timeout
 * value; any other callback first checks `finished` (a late callback does not
 * resolve), then clears the timer and resolves. A promise keeps the first value
 * it is resolved with.
 */
module Races {
  import opened Wrappers

  datatype Race<T> = Race(finished: bool, cleared: bool, outcome: Option<T>)

  /** Resolved exactly when the timer fired or was cleared, and never both. */
  predicate Valid<T>(r: Race<T>) {
    && (r.outcome.Some? <==> (r.finished || r.cleared))
    && !(r.finished && r.cleared)
  }

  function Start<T>(): (r: Race<T>)
    ensures Valid(r) && r.outcome.None? && !r.finished
  {
    Race(false, false, None)
  }

  /** The callback arrives after the timer fired: it neither clears nor resolves. */
  predicate Late<T>(r: Race<T>)
    ensures Late(r) && Valid(r) ==> r.outcome.Some? && !r.cleared
  {
    r.finished
  }

  /** The timer fires (it cannot once cleared, and fires only once). */
  function Expire<T>(r: Race<T>, timeoutValue: T): (r': Race<T>)
    requires Valid(r)
    ensures Valid(r')
    ensures r.outcome.Some? ==> r' == r
    ensures r.outcome.None? ==> r'.finished && r'.outcome == Some(timeoutValue)
  {
    if r.cleared || r.finished then r
    else Race(true, false, Some(timeoutValue))
  }

  /** A callback that is not late clears the timer and resolves with `v`. */
  function Settle<T>(r: Race<T>, v: T): (r': Race<T>)
    requires Valid(r) && !Late(r)
    ensures Valid(r') && r'.cleared && !Late(r')
    ensures r'.outcome == if r.outcome.Some? then r.outcome else Some(v)
  {
    Race(false, true, if r.outcome.None? then Some(v) else r.outcome)
  }
}
