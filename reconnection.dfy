/** The reconnect counter: when `reconnect` gives up, when it opens a new
    socket, and what a run of transport errors does to the counter. */
module Reconnection {

  /** What `reconnect` does: throw once the counter exceeds the maximum,
      otherwise reconnect unless the socket is open. */
  datatype Decision = GiveUp | StayOpen | Retry

  function Decide(times: nat, max: int, open: bool): (d: Decision)
    ensures d == GiveUp <==> times > max
    ensures d == Retry <==> times <= max && !open
  {
    if times > max then GiveUp else if open then StayOpen else Retry
  }

  /** The bound the counter keeps: it is 0 or at most one more than the
      maximum (a non-positive maximum leaves it at 0). */
  predicate WithinBudget(times: nat, max: int) {
    times == 0 || times <= max + 1
  }

  /** How many more reconnects are allowed before the next error throws. */
  function Budget(times: nat, max: int): nat {
    if times > max then 0 else max + 1 - times
  }

  /** The outcome of a run of error events with no message in between:
      the counter afterwards, the reconnects made, and whether the last
      error threw. */
  datatype Run = Run(times: nat, attempts: nat, failed: bool)

  /** `errors` consecutive error events; at each one the socket has already
      closed, and the handler stops at the first throw. */
  function AfterErrors(times: nat, max: int, errors: nat): Run
    decreases errors
  {
    if errors == 0 then Run(times, 0, false)
    else match Decide(times, max, false)
      case GiveUp => Run(times, 0, true)
      case StayOpen => Run(times, 0, false)
      case Retry =>
        var r := AfterErrors(times + 1, max, errors - 1);
        Run(r.times, r.attempts + 1, r.failed)
  }

  /** From a counter within its budget, exactly `Budget` errors reconnect
      and the next one throws; the counter stays within its budget. */
  lemma {:induction false} ErrorBudget(times: nat, max: int, errors: nat)
    requires WithinBudget(times, max)
    ensures var r := AfterErrors(times, max, errors);
            && r.attempts == (if errors < Budget(times, max) then errors else Budget(times, max))
            && r.failed == (errors > Budget(times, max))
            && r.times == times + r.attempts
            && WithinBudget(r.times, max)
    decreases errors
  {
    if errors > 0 && times <= max {
      ErrorBudget(times + 1, max, errors - 1);
    }
  }

  /** With a maximum of 2, three consecutive errors from a fresh counter
      each reconnect: the counter reaches 3, one past the maximum. */
  lemma MaximumTwoAllowsThreeReconnects()
    ensures AfterErrors(0, 2, 3) == Run(3, 3, false)
  {
  }

  /** ... and a fourth consecutive error throws, with no further reconnect. */
  lemma MaximumTwoFourthErrorThrows()
    ensures AfterErrors(0, 2, 4) == Run(3, 3, true)
  {
  }
}
