/**
 * The retry_on_network_error decorator (vestnik.py:91-103) around one
 * Telegram call. The transport is injected: `attempt(k)` is the outcome
 * of the k-th call (counting from 0).
 */
module Retry {

  /**
   * What one Telegram call can end in. NetworkError includes its library
   * subclasses (TimedOut, BadRequest), which the wrapper retries as well;
   * OtherError stands for every error outside NetworkError and Forbidden
   * (RetryAfter, ChatMigrated, InvalidToken, ...).
   */
  datatype Outcome = Success | Forbidden | NetworkError | OtherError

  /** How the wrapped call ends: the call's value, no value after the last retry, or an error raised through. */
  datatype RetryResult = Returned | Exhausted | Raised(error: Outcome)

  /** One run of the wrapper: its result and how many times it called the operation. */
  datatype RetryRun = RetryRun(result: RetryResult, calls: nat)

  /** max_retries */
  const MaxRetries: nat := 5

  /**
   * Reference definition of the loop from the moment its counter stands
   * at `retry`: every call before the last one was a network error, and
   * the last call decides.
   */
  function RetryFrom(attempt: nat -> Outcome, retry: nat): (run: RetryRun)
    requires retry <= MaxRetries
    ensures retry < run.calls <= MaxRetries + 1
    ensures forall j :: retry <= j < run.calls - 1 ==> attempt(j) == NetworkError
    ensures run.result == Returned <==> attempt(run.calls - 1) == Success
    ensures run.result == Exhausted <==> attempt(run.calls - 1) == NetworkError
    ensures run.result == Exhausted ==> run.calls == MaxRetries + 1
    ensures run.result.Raised? ==>
              run.result.error == attempt(run.calls - 1) &&
              run.result.error != Success && run.result.error != NetworkError
    decreases MaxRetries - retry
  {
    match attempt(retry)
    case Success => RetryRun(Returned, retry + 1)
    case NetworkError =>
      if retry == MaxRetries then RetryRun(Exhausted, retry + 1)
      else RetryFrom(attempt, retry + 1)
    case other => RetryRun(Raised(other), retry + 1)
  }

  /** A network error on all six calls exhausts the retries. */
  lemma {:induction false} AllNetworkErrorsExhaust(attempt: nat -> Outcome, retry: nat)
    requires retry <= MaxRetries
    requires forall j :: retry <= j <= MaxRetries ==> attempt(j) == NetworkError
    ensures RetryFrom(attempt, retry) == RetryRun(Exhausted, MaxRetries + 1)
    decreases MaxRetries - retry
  {
    if retry < MaxRetries {
      AllNetworkErrorsExhaust(attempt, retry + 1);
    }
  }

  /**
   * The first call that does not fail with a network error, within the
   * six allowed, decides: a success is returned, any other error is
   * raised, and no later call is made.
   */
  lemma {:induction false} FirstDecisiveCallDecides(attempt: nat -> Outcome, retry: nat, k: nat)
    requires retry <= k <= MaxRetries
    requires forall j :: retry <= j < k ==> attempt(j) == NetworkError
    requires attempt(k) != NetworkError
    ensures RetryFrom(attempt, retry).calls == k + 1
    ensures RetryFrom(attempt, retry).result == if attempt(k) == Success then Returned else Raised(attempt(k))
    decreases k - retry
  {
    if retry < k {
      FirstDecisiveCallDecides(attempt, retry + 1, k);
    }
  }

  /**
   * The wrapper itself: call, return on success, retry on a network error
   * until the counter reaches MaxRetries, let any other error through.
   */
  method RetryOnNetworkError(attempt: nat -> Outcome) returns (result: RetryResult, calls: nat)
    ensures RetryRun(result, calls) == RetryFrom(attempt, 0)
    ensures 1 <= calls <= MaxRetries + 1
  {
    var retry := 0;
    calls := 0;
    while true
      invariant retry <= MaxRetries && calls == retry
      invariant RetryFrom(attempt, retry) == RetryFrom(attempt, 0)
      decreases MaxRetries - retry
    {
      var outcome := attempt(retry);
      calls := calls + 1;
      match outcome {
        case Success =>
          return Returned, calls;
        case NetworkError =>
          if retry == MaxRetries {
            return Exhausted, calls;
          }
          retry := retry + 1;
        case _ =>
          return Raised(outcome), calls;
      }
    }
  }
}
