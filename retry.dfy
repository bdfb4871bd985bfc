/**
 * The attempt loop shared by the two retry decorators of LifeOS
 * (retry_on_502 in the Eudic-to-Notion sync and _retry_on_rate_limit in the
 * Notion wrapper): call, and on a failure either wait and try again or give
 * up. The remote call is a parameter giving the outcome of each attempt;
 * waiting is recorded as the list of sleep durations.
 */
module Retry {

  /** What one attempt of the wrapped call did. */
  datatype Attempt<T, E> = Returned(value: T) | Failed(error: E)

  /** How the retried call ended: a value, a re-raised error, or the loop ran
      out of attempts without either (only possible with zero attempts). */
  datatype Outcome<T, E> = Done(value: T) | Raised(error: E) | FellThrough

  /** The outcome, the number of attempts made and the sleeps between them. */
  datatype Run<T, E> = Run(outcome: Outcome<T, E>, calls: nat, waits: seq<int>)

  /** The run that starts at attempt number `attempt` of `attempts`. An error is
      retried when it is retryable and the attempt is not the last one. */
  function RunFrom<T, E>(call: nat -> Attempt<T, E>, attempts: nat, retryable: E -> bool,
                         wait: nat -> int, attempt: nat): Run<T, E>
    decreases attempts - attempt
  {
    if attempt >= attempts then Run(FellThrough, 0, [])
    else match call(attempt)
      case Returned(v) => Run(Done(v), 1, [])
      case Failed(e) =>
        if retryable(e) && attempt < attempts - 1 then
          var rest := RunFrom(call, attempts, retryable, wait, attempt + 1);
          Run(rest.outcome, rest.calls + 1, [wait(attempt)] + rest.waits)
        else Run(Raised(e), 1, [])
  }

  /** A run of the remaining attempts seen from the start: `done` attempts
      already made and `waited` already slept. */
  function After<T, E>(rest: Run<T, E>, done: nat, waited: seq<int>): Run<T, E> {
    Run(rest.outcome, rest.calls + done, waited + rest.waits)
  }

  /** The loop of the decorators: `for attempt in range(attempts)`, return on
      success, sleep and continue on a retryable error, raise otherwise. */
  method RunRetries<T, E>(call: nat -> Attempt<T, E>, attempts: nat, retryable: E -> bool,
                          wait: nat -> int)
    returns (outcome: Outcome<T, E>, calls: nat, waits: seq<int>)
    ensures Run(outcome, calls, waits) == RunFrom(call, attempts, retryable, wait, 0)
  {
    calls, waits := 0, [];
    var attempt := 0;
    while attempt < attempts
      invariant attempt <= attempts && calls == attempt && |waits| == attempt
      invariant forall i :: 0 <= i < attempt ==> waits[i] == wait(i)
      invariant RunFrom(call, attempts, retryable, wait, 0)
                == After(RunFrom(call, attempts, retryable, wait, attempt), attempt, waits)
      decreases attempts - attempt
    {
      calls := calls + 1;
      match call(attempt)
      case Returned(v) =>
        outcome := Done(v);
        return;
      case Failed(e) =>
        if retryable(e) && attempt < attempts - 1 {
          ghost var next := RunFrom(call, attempts, retryable, wait, attempt + 1);
          assert RunFrom(call, attempts, retryable, wait, attempt)
                 == Run(next.outcome, next.calls + 1, [wait(attempt)] + next.waits);
          assert (waits + [wait(attempt)]) + next.waits == waits + ([wait(attempt)] + next.waits);
          waits := waits + [wait(attempt)];
          attempt := attempt + 1;
        } else {
          outcome := Raised(e);
          return;
        }
    }
    outcome := FellThrough;
  }

  /** A run makes no call past the last attempt, sleeps once between two
      consecutive calls, the i-th sleep is the one the wait schedule gives
      for attempt number `attempt + i`, and every call but the last failed
      with a retryable error. */
  lemma {:induction false} RunShape<T, E>(call: nat -> Attempt<T, E>, attempts: nat,
                                          retryable: E -> bool, wait: nat -> int, attempt: nat)
    ensures var r := RunFrom(call, attempts, retryable, wait, attempt);
            (r.calls == 0 || attempt + r.calls <= attempts)
            && (r.calls == 0 <==> attempt >= attempts)
            && |r.waits| == (if r.calls == 0 then 0 else r.calls - 1)
            && (forall i :: 0 <= i < |r.waits| ==> r.waits[i] == wait(attempt + i))
            && forall a :: attempt <= a < attempt + r.calls - 1 ==> call(a).Failed? && retryable(call(a).error)
    decreases attempts - attempt
  {
    if attempt < attempts && call(attempt).Failed? {
      var e := call(attempt).error;
      if retryable(e) && attempt < attempts - 1 {
        RunShape(call, attempts, retryable, wait, attempt + 1);
        var next := RunFrom(call, attempts, retryable, wait, attempt + 1);
        var r := RunFrom(call, attempts, retryable, wait, attempt);
        assert r == Run(next.outcome, next.calls + 1, [wait(attempt)] + next.waits);
        forall i | 0 < i < |r.waits| ensures r.waits[i] == wait(attempt + i) {
          assert r.waits[i] == next.waits[i - 1];
        }
      }
    }
  }

  /** The loop only falls through when there are no attempts at all: the last
      attempt either returns or raises. */
  lemma {:induction false} FallsThroughOnlyWithoutAttempts<T, E>(call: nat -> Attempt<T, E>, attempts: nat,
                                                                 retryable: E -> bool, wait: nat -> int,
                                                                 attempt: nat)
    ensures RunFrom(call, attempts, retryable, wait, attempt).outcome.FellThrough? <==> attempt >= attempts
    decreases attempts - attempt
  {
    if attempt < attempts && call(attempt).Failed? {
      var e := call(attempt).error;
      if retryable(e) && attempt < attempts - 1 {
        FallsThroughOnlyWithoutAttempts(call, attempts, retryable, wait, attempt + 1);
      }
    }
  }

  /** A run that ends with a value ended at an attempt that returned it, and
      every earlier attempt failed with a retryable error
      (ReturnAfterRetriesIsDone is the converse). */
  lemma {:induction false} DoneMeansEarlierRetried<T, E>(call: nat -> Attempt<T, E>, attempts: nat,
                                                         retryable: E -> bool, wait: nat -> int,
                                                         attempt: nat)
    ensures var r := RunFrom(call, attempts, retryable, wait, attempt);
            r.outcome.Done? ==>
              var last := attempt + r.calls - 1;
              last < attempts && call(last) == Returned(r.outcome.value)
              && forall a :: attempt <= a < last ==> call(a).Failed? && retryable(call(a).error)
    decreases attempts - attempt
  {
    if attempt < attempts && call(attempt).Failed? {
      var e := call(attempt).error;
      if retryable(e) && attempt < attempts - 1 {
        DoneMeansEarlierRetried(call, attempts, retryable, wait, attempt + 1);
      }
    }
  }

  /** Conversely, an attempt that returns after retryable failures only ends
      the run with its value, one call after those failures. */
  lemma {:induction false} ReturnAfterRetriesIsDone<T, E>(call: nat -> Attempt<T, E>, attempts: nat,
                                                          retryable: E -> bool, wait: nat -> int,
                                                          attempt: nat, k: nat)
    requires attempt <= k < attempts && call(k).Returned?
    requires forall a :: attempt <= a < k ==> call(a).Failed? && retryable(call(a).error)
    ensures RunFrom(call, attempts, retryable, wait, attempt).outcome == Done(call(k).value)
    ensures RunFrom(call, attempts, retryable, wait, attempt).calls == k - attempt + 1
    decreases k - attempt
  {
    if attempt < k {
      ReturnAfterRetriesIsDone(call, attempts, retryable, wait, attempt + 1, k);
    }
  }

  /** A run with attempts left ends at its last call: the value that call
      returned, or the error it raised, which was not retryable or came on
      the last attempt. */
  lemma {:induction false} RunEndsAtLastCall<T, E>(call: nat -> Attempt<T, E>, attempts: nat,
                                                   retryable: E -> bool, wait: nat -> int, attempt: nat)
    requires attempt < attempts
    ensures var r := RunFrom(call, attempts, retryable, wait, attempt);
            var last := attempt + r.calls - 1;
            attempt <= last < attempts
            && (r.outcome.Done? <==> call(last).Returned?)
            && (r.outcome.Done? ==> r.outcome.value == call(last).value)
            && (r.outcome.Raised? ==> r.outcome.error == call(last).error
                                      && (!retryable(r.outcome.error) || last == attempts - 1))
            && !r.outcome.FellThrough?
    decreases attempts - attempt
  {
    if call(attempt).Failed? {
      var e := call(attempt).error;
      if retryable(e) && attempt < attempts - 1 {
        RunEndsAtLastCall(call, attempts, retryable, wait, attempt + 1);
      }
    }
  }
}
