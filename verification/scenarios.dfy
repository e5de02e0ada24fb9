/** End-to-end wake cycles with concrete collaborators. */
module Scenarios {
  import opened Wrappers
  import opened PinMapper
  import opened Events
  import opened Scope
  import opened ProviderRunner
  import opened DataPublisher
  import opened WorkProperties

  /** Every attempt finds the network up and meets no pass fault. */
  ghost predicate Healthy(script: nat -> AttemptEnv) {
    forall j :: script(j).connected && script(j).fault.None?
  }

  /**
   Cold boot, no gate pin, healthy attempts: every provider is handled once in
   registration order (a failing one only logged), then the device is stopped,
   the timer is armed with the configured time and deep sleep is entered.
   */
  lemma ColdBootCycle(config: Config, pub: Publisher, script: nat -> AttemptEnv, providers: seq<Provider>)
    requires config.disableDeepSleepGpioPin == 0 && Construct(config) == Success(pub)
    requires Healthy(script)
    ensures InitializeDataProviders(pub, providers, Undefined, script)
         == RunProviders(providers) + [DeviceStopped, TimerWakeupEnabled(config.sleepTime), DeepSleepStarted]
  {
    var handled := RunProviders(providers);
    var stopped := HealthyWork(pub, providers, script, handled);
    var none: seq<Event> := [];
    var sleep := [TimerWakeupEnabled(config.sleepTime), DeepSleepStarted];
    assert InitializeDataProviders(pub, providers, Undefined, script) == none + stopped + sleep by {
      CompletedWorkCycle(pub, providers, Undefined, script);
    }
    StopThenSleep(handled, config.sleepTime);
  }

  lemma StopThenSleep(handled: seq<Event>, sleepTime: nat)
    ensures [] + (handled + [DeviceStopped]) + [TimerWakeupEnabled(sleepTime), DeepSleepStarted]
         == handled + [DeviceStopped, TimerWakeupEnabled(sleepTime), DeepSleepStarted]
  {
  }

  /**
   The same cycle with one provider that raises one message during GetData:
   the message is published between the subscription and its removal.
   */
  lemma ColdBootOneProvider(config: Config, pub: Publisher, script: nat -> AttemptEnv, p: Provider)
    requires config.disableDeepSleepGpioPin == 0 && Construct(config) == Success(pub)
    requires Healthy(script)
    requires !p.fails && |p.emits| == 1
    ensures InitializeDataProviders(pub, [p], Undefined, script)
         == [Subscribed(p.id), Published(p.emits[0]), Unsubscribed(p.id),
             DeviceStopped, TimerWakeupEnabled(config.sleepTime), DeepSleepStarted]
  {
    ColdBootCycle(config, pub, script, [p]);
    RunOne(p);
    HandleOne(p);
  }

  /** Without a gate pin and with healthy attempts, the first pass stops the device and the work ends there. */
  lemma HealthyWork(pub: Publisher, providers: seq<Provider>, script: nat -> AttemptEnv, handled: seq<Event>) returns (stopped: seq<Event>)
    requires pub.disablePin.None? && Healthy(script) && handled == RunProviders(providers)
    ensures stopped == handled + [DeviceStopped]
    ensures DoWork(pub, providers, script) == Run(stopped, Stopped)
  {
    HealthyPass(pub, providers, script(0), handled);
    ProviderFailureNeverRetries(pub, providers, script);
    stopped := handled + [DeviceStopped];
  }

  /** A provider that raises one message and returns normally. */
  lemma HandleOne(p: Provider)
    requires !p.fails && |p.emits| == 1
    ensures HandleDataProvider(p) == [Subscribed(p.id), Published(p.emits[0]), Unsubscribed(p.id)]
  {
    assert p.emits[1..] == [];
    assert ProviderOnDataReceived(p.emits) == [Published(p.emits[0])];
  }

  /** A single registered provider is handled on its own. */
  lemma RunOne(p: Provider)
    ensures RunProviders([p]) == HandleDataProvider(p)
  {
    var none: seq<Provider> := [];
    var empty: seq<Event> := [];
    assert [p][..0] == none;
    assert RunProviders(none) == empty;
    assert empty + HandleDataProvider(p) == HandleDataProvider(p);
  }

  /** With the network up, no fault and no gate pin, a pass handles the providers and stops the device. */
  lemma HealthyPass(pub: Publisher, providers: seq<Provider>, env: AttemptEnv, handled: seq<Event>)
    requires pub.disablePin.None? && env.connected && env.fault.None? && handled == RunProviders(providers)
    ensures Pass(pub, providers, env) == Run(handled + [DeviceStopped], Stopped)
  {
    assert !ShouldNotGoIntoDeepSleep(pub, env.pinLevel);
    assert Pass(pub, providers, env) == GateAndStop(pub, handled, env);
  }

  /**
   A pass-level fault in the first three attempts and a healthy fourth: the
   work completes on the fourth pass after three retries, without escalating.
   */
  lemma RecoversOnFourthAttempt(pub: Publisher, providers: seq<Provider>, script: nat -> AttemptEnv)
    requires forall j :: 0 <= j < 3 ==> script(j).connected && script(j).fault == Some(EnumerationFault)
    requires script(3).connected && script(3).fault.None?
    ensures DoWork(pub, providers, script).end != Raised
    ensures Retries(DoWork(pub, providers, script).trace) == [0, 1, 2]
  {
    forall j | 0 <= j < 3
      ensures Pass(pub, providers, script(j)).end == Raised
    {
    }
    RetryRerunsWholePass(pub, providers, script, 3);
    var passes := Passes(pub, providers, script);
    RetriesBeforeCompletedPass(passes, 0, MaxRetryAttempts, 3);
    RetryPassCount(passes, 0, MaxRetryAttempts);
    assert DoWork(pub, providers, script) == RetryPass(passes, 0, MaxRetryAttempts);
    FirstThreeAttempts(Retries(DoWork(pub, providers, script).trace));
  }

  lemma FirstThreeAttempts(rs: seq<nat>)
    requires |rs| == 3 && forall i :: 0 <= i < |rs| ==> rs[i] == 0 + i
    ensures rs == [0, 1, 2]
  {
  }
}
