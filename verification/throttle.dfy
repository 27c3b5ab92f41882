/**
 * The throttle the newer clients wrap around their list publisher: one
 * mutable `lastExecutionTime`, starting at 0, and a call publishes iff at
 * least `limit` milliseconds have passed since it. The clock is a parameter.
 */
module Throttling {

  /** The default `limit` of `throttleUpdate`, in milliseconds. */
  const DefaultLimit: int := 200

  /** Consecutive instants at least `limit` apart, the first at least `limit` after `start`. */
  ghost predicate Spaced(start: int, limit: int, times: seq<int>)
  {
    (|times| > 0 ==> times[0] - start >= limit)
    && forall i :: 0 < i < |times| ==> times[i] - times[i - 1] >= limit
  }

  class Throttle {
    var lastExecutionTime: int
    const limit: int
    /** The instants at which calls published, oldest first. */
    ghost var published: seq<int>

    ghost predicate Valid()
      reads this
    {
      lastExecutionTime == (if |published| == 0 then 0 else published[|published| - 1])
      && Spaced(0, limit, published)
    }

    constructor (limit: int)
      ensures Valid()
      ensures this.limit == limit && lastExecutionTime == 0 && published == []
    {
      this.limit := limit;
      lastExecutionTime := 0;
      published := [];
    }

    /** One call of the throttled function at time `now`; `fired` says whether the callback ran. */
    method Call(now: int) returns (fired: bool)
      requires Valid()
      modifies this
      ensures Valid()
      ensures fired <==> now - old(lastExecutionTime) >= limit
      ensures lastExecutionTime == (if fired then now else old(lastExecutionTime))
      ensures published == old(published) + (if fired then [now] else [])
    {
      fired := now - lastExecutionTime >= limit;
      if fired {
        lastExecutionTime := now;
        published := published + [now];
      }
    }
  }

  /** The instants at which a run of calls at `times` publishes, from a throttle last run at `last`. */
  function Published(last: int, limit: int, times: seq<int>): seq<int>
    decreases |times|
  {
    if |times| == 0 then []
    else if times[0] - last >= limit then [times[0]] + Published(times[0], limit, times[1..])
    else Published(last, limit, times[1..])
  }

  /** The publishes of any run are spaced by at least `limit`, and each is one of the call times. */
  lemma {:induction false} PublishedIsSpaced(last: int, limit: int, times: seq<int>)
    ensures Spaced(last, limit, Published(last, limit, times))
    ensures forall t :: t in Published(last, limit, times) ==> t in times
    decreases |times|
  {
    if |times| > 0 {
      PublishedIsSpaced(times[0], limit, times[1..]);
      PublishedIsSpaced(last, limit, times[1..]);
    }
  }

  /** Calls less than `limit` after the last publish never publish. */
  lemma {:induction false} QuietWithinLimit(last: int, limit: int, times: seq<int>)
    requires forall k :: 0 <= k < |times| ==> times[k] - last < limit
    ensures Published(last, limit, times) == []
    decreases |times|
  {
    if |times| > 0 {
      QuietWithinLimit(last, limit, times[1..]);
    }
  }
}
