/** The retry policy that requestWithRetry and resolveAccessToken hand to the
    retry wrapper: invoke the operation; while it fails with a retryable error
    and fewer than `attempts` invocations were made, invoke it again; return
    the last value, or the list of every attempt's error.

    A run is described by the results of the invocations actually made, so
    that the policy applies to an operation that changes state between
    attempts as well as to one that does not. */
module Retry {
  import opened Wrappers
  import opened Errors

  /** After its n-th invocation returned `res`, the policy invokes the operation again. */
  predicate Continues<T>(attempts: nat, n: nat, res: Result<T, Error>) {
    res.Err? && Retryable(res.error) && n < attempts
  }

  /** `runs` lists the results of exactly the invocations the policy makes. */
  predicate IsRun<T>(attempts: nat, runs: seq<Result<T, Error>>) {
    && 1 <= |runs| <= attempts
    && (forall i | 0 <= i < |runs| - 1 :: Continues(attempts, i + 1, runs[i]))
    && !Continues(attempts, |runs|, runs[|runs| - 1])
  }

  /** The policy continued after every invocation made so far: so far the
      run is a run the policy continues, one invocation longer. */
  lemma ContinuesOneMore<T>(attempts: nat, runs: seq<Result<T, Error>>, next: Result<T, Error>)
    requires |runs| > 0 && Continues(attempts, |runs|, runs[|runs| - 1])
    requires forall i | 0 <= i < |runs| - 1 :: Continues(attempts, i + 1, runs[i])
    ensures forall i | 0 <= i < |runs| :: Continues(attempts, i + 1, (runs + [next])[i])
  {
  }

  /** What the retry wrapper returns at the end of a run. */
  function Outcome<T>(attempts: nat, runs: seq<Result<T, Error>>): (r: Result<T, Error>)
    requires IsRun(attempts, runs)
    ensures r.Ok? <==> runs[|runs| - 1].Ok?
    ensures r.Ok? ==> r.value == runs[|runs| - 1].value
    ensures r.Err? ==> (Retryable(r.error) <==> Retryable(runs[0].error))
    ensures r.Err? ==> && r.error.AllAttemptsFailed? && |r.error.attempts| == |runs|
                       && forall i | 0 <= i < |runs| :: runs[i].Err? && r.error.attempts[i] == runs[i].error
  {
    var last := runs[|runs| - 1];
    if last.Ok? then
      Ok(last.value)
    else
      var errs := seq(|runs|, i requires 0 <= i < |runs| => runs[i].error);
      assert errs[0] == runs[0].error;
      Err(AllAttemptsFailed(errs))
  }

  /** A failed run's error is, to `errors.Is`, every attempt's error, and
      in particular the last one. */
  lemma FailedRunIsEveryError<T>(attempts: nat, runs: seq<Result<T, Error>>)
    requires IsRun(attempts, runs) && Outcome(attempts, runs).Err?
    ensures forall i | 0 <= i < |runs| :: runs[i].Err? && Is(Outcome(attempts, runs).error, runs[i].error)
    ensures Is(Outcome(attempts, runs).error, runs[|runs| - 1].error)
  {
    var errs := Outcome(attempts, runs).error.attempts;
    forall i | 0 <= i < |runs|
      ensures runs[i].Err? && Is(Outcome(attempts, runs).error, runs[i].error)
    {
      assert errs[i] == runs[i].error && Is(errs[i], runs[i].error);
    }
  }

  function RunFrom<T>(attempts: nat, results: seq<Result<T, Error>>, n: nat): (runs: seq<Result<T, Error>>)
    requires n < attempts <= |results|
    ensures 1 <= |runs| <= attempts - n
    ensures runs == results[n..n + |runs|]
    ensures forall i | 0 <= i < |runs| - 1 :: Continues(attempts, n + i + 1, runs[i])
    ensures !Continues(attempts, n + |runs|, runs[|runs| - 1])
    decreases attempts - n
  {
    if Continues(attempts, n + 1, results[n]) then
      [results[n]] + RunFrom(attempts, results, n + 1)
    else
      [results[n]]
  }

  /** The run of an operation whose i-th invocation would return results[i]:
      a prefix of `results`, at most `attempts` long, on which the policy stops. */
  function Run<T>(attempts: nat, results: seq<Result<T, Error>>): (runs: seq<Result<T, Error>>)
    requires 1 <= attempts <= |results|
    ensures IsRun(attempts, runs)
    ensures |runs| <= attempts && runs == results[..|runs|]
  {
    RunFrom(attempts, results, 0)
  }

  /** The policy decides the run: any list of results that follows the policy
      and agrees with what the invocations return is `Run`. */
  lemma RunIsUnique<T>(attempts: nat, results: seq<Result<T, Error>>, runs: seq<Result<T, Error>>)
    requires 1 <= attempts <= |results|
    requires IsRun(attempts, runs) && runs <= results
    ensures runs == Run(attempts, results)
  {
    var r := Run(attempts, results);
    if |runs| < |r| {
      assert false;
    } else if |r| < |runs| {
      assert false;
    }
  }

  /** Two rate-limited responses and then a success: with three attempts the
      call succeeds on the third; with two it ends with a retryable error. */
  lemma ThirdAttemptSucceeds<T>(x: T)
    ensures var results := [Err(RateLimitExceeded), Err(RateLimitExceeded), Ok(x)];
      && Run(3, results) == results
      && Outcome(3, Run(3, results)) == Ok(x)
      && |Run(2, results)| == 2
      && Outcome(2, Run(2, results)).Err?
      && Retryable(Outcome(2, Run(2, results)).error)
  {
    var results: seq<Result<T, Error>> := [Err(RateLimitExceeded), Err(RateLimitExceeded), Ok(x)];
    assert RunFrom(3, results, 2) == [Ok(x)];
    assert RunFrom(2, results, 1) == [Err(RateLimitExceeded)];
  }

  /** A permanent error, a 404 say, ends the run at once whatever attempts remain. */
  lemma PermanentErrorIsNotRetried<T>(attempts: nat, results: seq<Result<T, Error>>, e: Error)
    requires 1 <= attempts <= |results|
    requires results[0] == Err(e) && !Retryable(e)
    ensures Run(attempts, results) == [Err(e)]
    ensures Outcome(attempts, Run(attempts, results)) == Err(AllAttemptsFailed([e]))
  {
    var out := Outcome(attempts, Run(attempts, results));
    assert out.error.attempts == [e];
  }
}
