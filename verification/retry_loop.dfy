/**
 The recursive retry of the publisher written as a bounded loop over the
 attempt number, and shown to behave identically.
 */
module RetryLoop {
  import opened Events
  import opened ProviderRunner
  import opened DataPublisher

  /**
   Runs the passes for attempts 0, 1, ... in turn, appending a warning after
   each one that raised, until one completes or attempt `lastRetry + 1` raised.
   */
  method RetryLoop(passes: nat -> Run, lastRetry: nat) returns (r: Run)
    requires forall j :: Retries(passes(j).trace) == []
    ensures r == RetryPass(passes, 0, lastRetry)
    ensures |Retries(r.trace)| <= lastRetry + 1
  {
    var trace: seq<Event> := [];
    var attempt: nat := 0;
    while true
      invariant attempt <= lastRetry + 1
      invariant RetryPass(passes, 0, lastRetry) == After(trace, RetryPass(passes, attempt, lastRetry))
      decreases lastRetry + 1 - attempt
    {
      var pass := passes(attempt);
      RetryAdvance(passes, attempt, lastRetry, trace);
      if pass.end != Raised || attempt > lastRetry {
        r := After(trace, pass);
        RetryPassCount(passes, 0, lastRetry);
        return;
      }
      trace := trace + pass.trace + [RetryWarningLogged(attempt)];
      attempt := attempt + 1;
    }
  }

  /** The publisher's work as a loop: the same trace and ending as the recursive form. */
  method DoWorkLoop(pub: Publisher, providers: seq<Provider>, script: nat -> AttemptEnv) returns (r: Run)
    ensures r == DoWork(pub, providers, script)
    ensures |Retries(r.trace)| <= MaxRetryAttempts + 1
  {
    r := RetryLoop(Passes(pub, providers, script), MaxRetryAttempts);
  }

  /** A run continued after the events already gathered. */
  function After(trace: seq<Event>, r: Run): Run {
    Run(trace + r.trace, r.end)
  }

  /** One step of the recursive retry, seen after the trace already gathered. */
  lemma RetryAdvance(passes: nat -> Run, attempt: nat, lastRetry: nat, trace: seq<Event>)
    ensures passes(attempt).end != Raised || attempt > lastRetry ==>
      After(trace, RetryPass(passes, attempt, lastRetry)) == After(trace, passes(attempt))
    ensures passes(attempt).end == Raised && attempt <= lastRetry ==>
      After(trace, RetryPass(passes, attempt, lastRetry))
        == After(trace + passes(attempt).trace + [RetryWarningLogged(attempt)], RetryPass(passes, attempt + 1, lastRetry))
  {
    var pass := passes(attempt);
    if pass.end == Raised && attempt <= lastRetry {
      var rest := RetryPass(passes, attempt + 1, lastRetry);
      assert trace + (pass.trace + [RetryWarningLogged(attempt)] + rest.trace)
          == (trace + pass.trace + [RetryWarningLogged(attempt)]) + rest.trace;
    }
  }
}
