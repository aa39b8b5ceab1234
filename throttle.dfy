/**
 * `throttle(fn, wait)`: a rate limiter that lets a call through at once when
 * the window since the last invocation has run out and otherwise keeps one
 * trailing call for the end of the window.
 */
module Throttling {
  import opened Wrappers

  /** A trailing call waiting in the rate limiter's single timeout slot: the
      arguments it will run with and the delay it was scheduled for. */
  datatype Scheduled<A> = Scheduled(args: A, delay: int)

  /** `throttle(fn, wait)`: the closure variables `lastTime` and `timeoutId`
      become fields, the wrapped function's invocation becomes the returned
      arguments, and the timer callback is `Fire`. Times are milliseconds. */
  class Throttle<A> {
    const wait: int
    var lastTime: int
    var pending: Option<Scheduled<A>>

    /** A scheduled call always waits a positive time. */
    ghost predicate Valid()
      reads this
    {
      pending.Some? ==> pending.value.delay > 0
    }

    constructor (wait: int)
      ensures Valid()
      ensures this.wait == wait && lastTime == 0 && pending == None
    {
      this.wait := wait;
      lastTime := 0;
      pending := None;
    }

    /** One call of the throttled function at time `now`. When the window
        since the last invocation has run out, the call goes through at once,
        restarts the window and drops any trailing call. Otherwise the first
        call of the window is kept as the trailing call, for the rest of the
        window, and later calls in the same window are dropped. */
    method Call(now: int, args: A) returns (invoked: Option<A>)
      requires Valid()
      modifies this
      ensures Valid()
      ensures var remaining := wait - (now - old(lastTime));
        && (remaining <= 0 ==> invoked == Some(args) && lastTime == now && pending == None)
        && (remaining > 0 ==> invoked == None && lastTime == old(lastTime))
        && (remaining > 0 && old(pending) == None ==> pending == Some(Scheduled(args, remaining)))
        && (remaining > 0 && old(pending) != None ==> pending == old(pending))
    {
      var remaining := wait - (now - lastTime);
      if remaining <= 0 {
        if pending.Some? {
          pending := None;
        }
        lastTime := now;
        invoked := Some(args);
      } else {
        if pending.None? {
          pending := Some(Scheduled(args, remaining));
        }
        invoked := None;
      }
    }

    /** The trailing call's timer runs out at time `now`: the window restarts
        and the arguments that scheduled the call are handed to the function. */
    method Fire(now: int) returns (args: A)
      requires Valid() && pending.Some?
      modifies this
      ensures Valid()
      ensures args == old(pending).value.args
      ensures lastTime == now && pending == None
    {
      args := pending.value.args;
      lastTime := now;
      pending := None;
    }

    /** `cancel()`: drops the trailing call, if any; the window is untouched. */
    method Cancel()
      requires Valid()
      modifies this
      ensures Valid()
      ensures pending == None && lastTime == old(lastTime)
    {
      if pending.Some? {
        pending := None;
      }
    }
  }
}
