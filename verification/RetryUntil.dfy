/**
  retryUntil: run an operation until it succeeds, fails for good, or the
  deadline passes. How many attempts it makes, and when, for every operation and
  however late its timers fire.
 */
module RetryUntil {
  import opened Common

  const STARTUP_RETRY_WAIT: Time := 250 * MILLISECOND

  datatype Outcome = Succeeded | Failed(transient: bool)

  /** One attempt of the operation: how long it ran, what it returned, how late the timer of
      the wait after it fired, and whether the caller's context had ended by then. */
  datatype Attempt = Attempt(took: Time, outcome: Outcome, late: Time, canceled: bool)

  datatype Result = Ok | Err | Canceled

  // Attempts that fit in a budget: one, or one per started wait of the budget.
  function MaxAttempts(budget: int): nat {
    if budget <= 0 then 1 else (budget + STARTUP_RETRY_WAIT - 1) / STARTUP_RETRY_WAIT
  }

  // An attempt after n full waits, before the deadline, is within the bound.
  lemma FitsBudget(start: Time, deadline: Time, now: Time, n: nat)
    requires start + n * STARTUP_RETRY_WAIT <= now && (n > 0 ==> now < deadline)
    ensures n + 1 <= MaxAttempts(deadline - start)
  {
    var budget := deadline - start;
    if n > 0 {
      assert n * STARTUP_RETRY_WAIT < budget;
      assert (n + 1) * STARTUP_RETRY_WAIT <= budget + STARTUP_RETRY_WAIT - 1;
    }
  }

  /** Attempt i + 1 follows attempt i: a transient failure, the caller's context still going, one full
      wait after it ended, and before the deadline. */
  predicate Follows(op: nat -> Attempt, starts: seq<Time>, deadline: Time, i: nat)
    requires i + 1 < |starts|
  {
    var a := op(i);
    && a.outcome == Failed(true) && !a.canceled
    && starts[i + 1] == starts[i] + a.took + STARTUP_RETRY_WAIT + a.late
    && starts[i + 1] < deadline
  }

  // What becomes of the last attempt, begun at t.
  predicate Concludes(a: Attempt, t: Time, deadline: Time, r: Result, ended: Time) {
    match a.outcome
    case Succeeded => r.Ok? && ended == t + a.took
    case Failed(false) => r.Err? && ended == t + a.took
    case Failed(true) =>
      if a.canceled && t + a.took < deadline then r.Canceled?
      else r.Err? && ended >= deadline && t + a.took + 250 * MILLISECOND + a.late >= deadline
  }

  lemma StartsAdd(op: nat -> Attempt, starts: seq<Time>, deadline: Time, t: Time)
    requires forall i: nat :: i + 1 < |starts| ==> Follows(op, starts, deadline, i)
    requires starts != [] ==> Follows(op, starts + [t], deadline, |starts| - 1)
    ensures forall i: nat :: i + 1 < |starts + [t]| ==> Follows(op, starts + [t], deadline, i)
  {
    forall i: nat | i + 1 < |starts + [t]| ensures Follows(op, starts + [t], deadline, i) {
      if i + 1 < |starts| {
        assert Follows(op, starts, deadline, i);
      }
    }
  }

  /** The deadline bounds the loop: the first attempt is made at once, and every later one follows a
      transient failure after a full wait, before the deadline, so there are at most MaxAttempts of
      them. nil is returned exactly when the last attempt succeeded, the context's error exactly
      when it ended after a transient failure with time left, and a transient failure only
      when the next attempt would not start before the deadline. */
  method RetryUntil(start: Time, deadline: Time, op: nat -> Attempt) returns (r: Result, starts: seq<Time>, ended: Time)
    ensures |starts| >= 1 && starts[0] == start
    ensures forall i: nat :: i + 1 < |starts| ==> Follows(op, starts, deadline, i)
    ensures |starts| <= MaxAttempts(deadline - start)
    ensures Concludes(op(|starts| - 1), starts[|starts| - 1], deadline, r, ended)
  {
    var now := start;
    starts := [];
    while true
      invariant |starts| > 0 ==> now < deadline && starts[0] == start
      invariant |starts| == 0 ==> now == start
      invariant forall i: nat :: i + 1 < |starts| ==> Follows(op, starts, deadline, i)
      invariant |starts| > 0 ==> Follows(op, starts + [now], deadline, |starts| - 1)
      invariant start + |starts| * STARTUP_RETRY_WAIT <= now
      decreases deadline - now, if |starts| == 0 then 1 else 0
    {
      FitsBudget(start, deadline, now, |starts|);
      StartsAdd(op, starts, deadline, now);
      var a := op(|starts|);
      starts := starts + [now];
      now := now + a.took;
      if a.outcome.Succeeded? {
        return Ok, starts, now;
      }
      if !a.outcome.transient {
        return Err, starts, now;
      }
      var wait := Min(STARTUP_RETRY_WAIT, deadline - now);
      if wait <= 0 {
        return Err, starts, now;
      }
      if a.canceled {
        return Canceled, starts, now;
      }
      now := now + wait + a.late;
      if !(now < deadline) {
        return Err, starts, now;
      }
    }
  }
}
