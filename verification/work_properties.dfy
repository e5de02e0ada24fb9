/**
 Properties of the publisher's construction, gate, pass and retrying work,
 stated over every scripted environment.
 */
module WorkProperties {
  import opened Wrappers
  import opened PinMapper
  import opened Events
  import opened Scope
  import opened ProviderRunner
  import opened DataPublisher

  /** The gate of a constructed publisher depends only on the configured pin and its level. */
  lemma GateFollowsConfiguration(config: Config, pub: Publisher, level: PinValue)
    requires Construct(config) == Success(pub)
    ensures ShouldNotGoIntoDeepSleep(pub, level) <==> config.disableDeepSleepGpioPin != 0 && level == High
    ensures config.disableDeepSleepGpioPin == 0 ==> !ShouldNotGoIntoDeepSleep(pub, level)
  {
  }

  /**
   A pass that reaches the gate handled every provider once, in enumeration
   order, logged exactly the failing ones, and published every message raised
   during a GetData call unchanged and in order.
   */
  lemma PassHandlesEveryProvider(pub: Publisher, providers: seq<Provider>, env: AttemptEnv)
    requires Pass(pub, providers, env).end == Stopped || Pass(pub, providers, env).end == KeptAwake
    ensures var t := Pass(pub, providers, env).trace;
      && Subscriptions(t) == Ids(providers)
      && ProviderErrors(t) == FailingIds(providers)
      && ScopedWith(t, AllDeliveries(providers))
      && Publications(t) == AllEmits(providers)
  {
    CompletedPassIsGated(pub, providers, env);
    RunProvidersFacts(providers);
    GateKeepsHandled(pub, RunProviders(providers), AllDeliveries(providers), env);
    var t := Pass(pub, providers, env).trace;
    PublicationsDelivered(Detached, t);
    DeliveredMessages(providers);
  }

  /** A pass that ended at the gate handled every provider first. */
  lemma CompletedPassIsGated(pub: Publisher, providers: seq<Provider>, env: AttemptEnv)
    requires Pass(pub, providers, env).end == Stopped || Pass(pub, providers, env).end == KeptAwake
    ensures Pass(pub, providers, env) == GateAndStop(pub, RunProviders(providers), env)
  {
  }

  /** With the network down, a reboot is requested and no provider runs in that attempt. */
  lemma NetworkDownRequestsReboot(pub: Publisher, providers: seq<Provider>, env: AttemptEnv)
    requires !env.connected && env.fault != Some(NetworkCheckFault)
    ensures Pass(pub, providers, env).end == Rebooting
    ensures Pass(pub, providers, env).trace == [NetworkDownLogged, RebootRequested]
    ensures Subscriptions(Pass(pub, providers, env).trace) == []
  {
    var t := [NetworkDownLogged, RebootRequested];
    assert SubscribedOf(t[0]).None? && SubscribedOf(t[1]).None?;
    CollectNone(t, SubscribedOf);
  }

  /**
   With the network up and no pass fault, the device is stopped exactly when
   the gate allows sleep; when the gate says stay awake, the stop is skipped.
   */
  lemma GateDecidesStop(pub: Publisher, providers: seq<Provider>, env: AttemptEnv)
    requires env.connected && env.fault.None?
    ensures var r := Pass(pub, providers, env);
      && (r.end == KeptAwake <==> ShouldNotGoIntoDeepSleep(pub, env.pinLevel))
      && (r.end == Stopped <==> !ShouldNotGoIntoDeepSleep(pub, env.pinLevel))
      && (DeviceStopped in r.trace <==> !ShouldNotGoIntoDeepSleep(pub, env.pinLevel))
  {
    var handled := RunProviders(providers);
    assert Pass(pub, providers, env) == GateAndStop(pub, handled, env);
    RunProvidersFacts(providers);
    OutsideNotInside(handled, DeviceStopped);
  }

  /**
   How a completed pass ends its trace: a pass kept awake ends with the notice
   that deep sleep is disabled and never stops the device; a pass that stopped
   the device ends with the stop.
   */
  lemma PassEndings(pub: Publisher, providers: seq<Provider>, env: AttemptEnv)
    ensures var r := Pass(pub, providers, env);
      && (r.end == KeptAwake ==> |r.trace| > 0 && r.trace[|r.trace| - 1] == SleepSuppressedLogged && DeviceStopped !in r.trace)
      && (r.end == Stopped ==> |r.trace| > 0 && r.trace[|r.trace| - 1] == DeviceStopped)
  {
    if env.fault != Some(NetworkCheckFault) && env.connected && env.fault != Some(EnumerationFault)
       && !InterruptsProviderLoop(env.fault, |providers|) {
      var handled := RunProviders(providers);
      assert Pass(pub, providers, env) == GateAndStop(pub, handled, env);
      RunProvidersFacts(providers);
      OutsideNotInside(handled, DeviceStopped);
    }
  }

  /**
   A pass-level fault only cuts a pass short: what a faulted pass emits is a
   prefix of what the same pass emits without the fault, and a fault at a step
   the pass never reaches changes nothing.
   */
  lemma PassFaultTruncates(pub: Publisher, providers: seq<Provider>, env: AttemptEnv)
    ensures Pass(pub, providers, env).trace <= Pass(pub, providers, env.(fault := None)).trace
    ensures Pass(pub, providers, env).end != Raised ==> Pass(pub, providers, env) == Pass(pub, providers, env.(fault := None))
  {
    var clean := env.(fault := None);
    if env.fault == Some(NetworkCheckFault) || !env.connected || env.fault == Some(EnumerationFault) {
    } else if InterruptsProviderLoop(env.fault, |providers|) {
      LoopFaultTruncates(pub, providers, env);
    } else {
      var handled := RunProviders(providers);
      assert Pass(pub, providers, env) == GateAndStop(pub, handled, env);
      assert Pass(pub, providers, clean) == GateAndStop(pub, handled, clean);
      GateFaultTruncates(pub, handled, env);
    }
  }

  /** A fault before a provider leaves the providers handled so far, a prefix of the clean pass. */
  lemma LoopFaultTruncates(pub: Publisher, providers: seq<Provider>, env: AttemptEnv)
    requires env.connected && InterruptsProviderLoop(env.fault, |providers|)
    ensures Pass(pub, providers, env).trace <= Pass(pub, providers, env.(fault := None)).trace
  {
    var k := env.fault.value.before;
    LoopFaultStops(pub, providers, env);
    CleanPassHandlesAll(pub, providers, env.(fault := None));
    RunProvidersPrefix(providers, k);
  }

  /** A fault before provider `k` ends the pass with the first `k` providers handled. */
  lemma LoopFaultStops(pub: Publisher, providers: seq<Provider>, env: AttemptEnv)
    requires env.connected && InterruptsProviderLoop(env.fault, |providers|)
    ensures Pass(pub, providers, env) == Run(RunProviders(providers[..env.fault.value.before]), Raised)
  {
  }

  /** With the network up and no fault, the pass begins with the handling of every provider. */
  lemma CleanPassHandlesAll(pub: Publisher, providers: seq<Provider>, env: AttemptEnv)
    requires env.connected && env.fault.None?
    ensures RunProviders(providers) <= Pass(pub, providers, env).trace
  {
    assert Pass(pub, providers, env) == GateAndStop(pub, RunProviders(providers), env);
  }

  /** At the gate, a fault either changes nothing or drops the final event. */
  lemma GateFaultTruncates(pub: Publisher, handled: seq<Event>, env: AttemptEnv)
    ensures GateAndStop(pub, handled, env).trace <= GateAndStop(pub, handled, env.(fault := None)).trace
    ensures GateAndStop(pub, handled, env).end != Raised
            ==> GateAndStop(pub, handled, env) == GateAndStop(pub, handled, env.(fault := None))
  {
  }

  /**
   The retrying work raises exactly when every pass it was allowed to make,
   from `attempt` up to the last one, raised.
   */
  lemma {:induction false} RetryRaisesIffAllPassesRaise(passes: nat -> Run, attempt: nat, lastRetry: nat)
    ensures RetryPass(passes, attempt, lastRetry).end == Raised
        <==> forall j :: attempt <= j <= LastAttempt(attempt, lastRetry) ==> passes(j).end == Raised
    decreases lastRetry + 1 - attempt
  {
    if passes(attempt).end == Raised && attempt <= lastRetry {
      RetryRaisesIffAllPassesRaise(passes, attempt + 1, lastRetry);
      assert LastAttempt(attempt + 1, lastRetry) == LastAttempt(attempt, lastRetry);
    }
  }

  /**
   The first pass that does not raise ends the work: its ending is the work's
   and its events close the trace.
   */
  lemma {:induction false} RetryStopsAtFirstCompletedPass(passes: nat -> Run, attempt: nat, lastRetry: nat, k: nat)
    requires attempt <= k <= LastAttempt(attempt, lastRetry)
    requires forall j :: attempt <= j < k ==> passes(j).end == Raised
    requires passes(k).end != Raised
    ensures var r := RetryPass(passes, attempt, lastRetry);
      && r.end == passes(k).end
      && |passes(k).trace| <= |r.trace|
      && r.trace[|r.trace| - |passes(k).trace|..] == passes(k).trace
    decreases k - attempt
  {
    if k > attempt {
      var r := RetryPass(passes, attempt, lastRetry);
      var rest := RetryPass(passes, attempt + 1, lastRetry);
      RetryStopsAtFirstCompletedPass(passes, attempt + 1, lastRetry, k);
      assert r.trace == passes(attempt).trace + [RetryWarningLogged(attempt)] + rest.trace;
      assert r.trace[|r.trace| - |rest.trace|..] == rest.trace;
    }
  }

  /** Before the first pass that does not raise, each raised pass left one retry warning. */
  lemma {:induction false} RetriesBeforeCompletedPass(passes: nat -> Run, attempt: nat, lastRetry: nat, k: nat)
    requires forall j :: Retries(passes(j).trace) == []
    requires attempt <= k <= LastAttempt(attempt, lastRetry)
    requires forall j :: attempt <= j < k ==> passes(j).end == Raised
    requires passes(k).end != Raised
    ensures |Retries(RetryPass(passes, attempt, lastRetry).trace)| == k - attempt
    decreases k - attempt
  {
    if k > attempt {
      var rest := RetryPass(passes, attempt + 1, lastRetry);
      RetriesBeforeCompletedPass(passes, attempt + 1, lastRetry, k);
      assert Retries(passes(attempt).trace) == [];
      RetryCount(passes(attempt).trace, attempt, rest.trace);
    } else {
      assert Retries(passes(k).trace) == [];
    }
  }

  /** The publisher's work raises only after five passes in a row raised. */
  lemma DoWorkRaisesIffFivePassesRaise(pub: Publisher, providers: seq<Provider>, script: nat -> AttemptEnv)
    ensures DoWork(pub, providers, script).end == Raised
        <==> forall j :: 0 <= j <= MaxRetryAttempts + 1 ==> Pass(pub, providers, script(j)).end == Raised
  {
    RetryRaisesIffAllPassesRaise(Passes(pub, providers, script), 0, MaxRetryAttempts);
  }

  /**
   A provider that throws never causes a retry: with no pass-level fault in the
   first attempt, the work is that single pass, whatever the providers do.
   */
  lemma ProviderFailureNeverRetries(pub: Publisher, providers: seq<Provider>, script: nat -> AttemptEnv)
    requires script(0).fault.None?
    ensures DoWork(pub, providers, script) == Pass(pub, providers, script(0))
    ensures Retries(DoWork(pub, providers, script).trace) == []
  {
    var passes := Passes(pub, providers, script);
    assert passes(0).end != Raised;
  }

  /**
   Retries re-run the whole pass: after `k` raised passes, the work ends with
   the complete next pass, every provider handled again from the first.
   */
  lemma RetryRerunsWholePass(pub: Publisher, providers: seq<Provider>, script: nat -> AttemptEnv, k: nat)
    requires k <= MaxRetryAttempts + 1
    requires forall j :: 0 <= j < k ==> Pass(pub, providers, script(j)).end == Raised
    requires script(k).connected && script(k).fault.None?
    ensures var r := DoWork(pub, providers, script);
      && r.end != Raised && r.end != Rebooting
      && |Retries(r.trace)| == k
      && (exists head :: r.trace == head + Pass(pub, providers, script(k)).trace)
      && Subscriptions(Pass(pub, providers, script(k)).trace) == Ids(providers)
  {
    var passes := Passes(pub, providers, script);
    var next := Pass(pub, providers, script(k));
    assert passes(k) == next;
    HealthyPassHandlesAll(pub, providers, script(k));
    assert forall j :: 0 <= j < k ==> passes(j).end == Raised;
    RetryStopsAtFirstCompletedPass(passes, 0, MaxRetryAttempts, k);
    RetriesBeforeCompletedPass(passes, 0, MaxRetryAttempts, k);
    var r := DoWork(pub, providers, script);
    assert r == RetryPass(passes, 0, MaxRetryAttempts);
    SuffixSplits(r.trace, next.trace);
  }

  /** A sequence that ends with `tail` is some head followed by `tail`. */
  lemma SuffixSplits(t: seq<Event>, tail: seq<Event>)
    requires |tail| <= |t| && t[|t| - |tail|..] == tail
    ensures exists head :: t == head + tail
  {
    assert t == t[..|t| - |tail|] + tail;
  }

  /** With the network up and no fault, the pass completes and subscribes to every provider in order. */
  lemma HealthyPassHandlesAll(pub: Publisher, providers: seq<Provider>, env: AttemptEnv)
    requires env.connected && env.fault.None?
    ensures Pass(pub, providers, env).end == Stopped || Pass(pub, providers, env).end == KeptAwake
    ensures Subscriptions(Pass(pub, providers, env).trace) == Ids(providers)
  {
    PassHandlesEveryProvider(pub, providers, env);
  }

  /**
   When the work did not raise, the cycle is the wake cause (if known), then
   the work, then arming the timer and entering deep sleep; nothing is caught.
   */
  lemma CompletedWorkCycle(pub: Publisher, providers: seq<Provider>, cause: WakeCause, script: nat -> AttemptEnv)
    requires DoWork(pub, providers, script).end != Raised
    ensures InitializeDataProviders(pub, providers, cause, script)
         == (if cause != Undefined then [WakeCauseLogged(cause)] else [])
            + DoWork(pub, providers, script).trace + [TimerWakeupEnabled(pub.config.sleepTime), DeepSleepStarted]
  {
    var logged := if cause != Undefined then [WakeCauseLogged(cause)] else [];
    var work := DoWork(pub, providers, script);
    var none: seq<Event> := [];
    assert logged + work.trace + none == logged + work.trace;
  }
}
