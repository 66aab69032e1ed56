/** The error values the client returns and Go's `errors.Is` over them, which
    decides what the retry policy retries. */
module Errors {
  import opened Http

  datatype Error =
    | RateLimitExceeded                       // errRateLimitExceeded: status 429
    | TemporarilyUnavailable                  // errTemporarilyUnavailable: status 503
    | NonSuccess(status: int, body: Bytes)    // "received non-success response: [status] body"
    | Failed(reason: string)                  // an error raised by code outside the model
    | Wrapped(context: string, cause: Error)  // fmt.Errorf("context: %w", cause)
    | AllAttemptsFailed(attempts: seq<Error>) // the retry wrapper's list of attempt errors
    | NoTrackIDs(platform: string, id: string)

  /** `errors.Is(e, target)`: e is target, or wraps an error that is, or is a
      retry error list one of whose attempts is. */
  predicate Is(e: Error, target: Error)
    decreases e
  {
    e == target ||
    match e
    case Wrapped(_, cause) => Is(cause, target)
    case AllAttemptsFailed(errs) => exists i | 0 <= i < |errs| :: Is(errs[i], target)
    case _ => false
  }

  /** Through the retry wrapper's list, `errors.Is` finds a target that is
      not itself such a list iff it finds it in one of the attempts. */
  lemma IsInList(errs: seq<Error>, target: Error)
    requires !target.AllAttemptsFailed?
    ensures Is(AllAttemptsFailed(errs), target) <==> exists i | 0 <= i < |errs| :: Is(errs[i], target)
  {
  }

  /** Wrapping never hides an error: what an error is, any error wrapping it
      (by `%w` or in a retry list) is too. */
  lemma {:induction false} IsTransitive(a: Error, b: Error, c: Error)
    requires Is(a, b) && Is(b, c)
    ensures Is(a, c)
    decreases a
  {
    if a != b {
      match a
      case Wrapped(_, cause) =>
        IsTransitive(cause, b, c);
      case AllAttemptsFailed(errs) =>
        var i :| 0 <= i < |errs| && Is(errs[i], b);
        IsTransitive(errs[i], b, c);
    }
  }

  /** The retry predicate of requestWithRetry and resolveAccessToken: only the
      two transient errors, wherever they sit in the wrapping, are retried. */
  predicate Retryable(e: Error)
    ensures e == RateLimitExceeded || e == TemporarilyUnavailable ==> Retryable(e)
    ensures e.NonSuccess? || e.Failed? || e.NoTrackIDs? ==> !Retryable(e)
    ensures e.Wrapped? ==> (Retryable(e) <==> Retryable(e.cause))
  {
    Is(e, RateLimitExceeded) || Is(e, TemporarilyUnavailable)
  }
}
