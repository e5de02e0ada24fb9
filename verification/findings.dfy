/**
 Two places where the publisher does not do what its names and log messages
 say, each shown on the code as written and then corrected.

 1. MaxRetryAttempts is 3, but the guard `attempt <= MaxRetryAttempts` lets a
    raising pass be retried four times, so up to five passes run.
 2. When the gate pin asks to stay awake, the pass logs that deep sleep is
    disabled and skips only the device stop; the driver's finally block then
    arms the timer and enters deep sleep anyway.
 */
module Findings {
  import opened Wrappers
  import opened PinMapper
  import opened Events
  import opened Scope
  import opened ProviderRunner
  import opened DataPublisher
  import opened WorkProperties

  /** A script in which reading the network state throws in every attempt. */
  function AlwaysFaulting(): nat -> AttemptEnv {
    (j: nat) => AttemptEnv(true, Low, Some(NetworkCheckFault))
  }

  /** As written: a pass that always raises is retried MaxRetryAttempts + 1 times. */
  lemma RetryBudgetExceeded(pub: Publisher, providers: seq<Provider>)
    ensures DoWork(pub, providers, AlwaysFaulting()).end == Raised
    ensures |Retries(DoWork(pub, providers, AlwaysFaulting()).trace)| == MaxRetryAttempts + 1
  {
    DoWorkRaisesIffFivePassesRaise(pub, providers, AlwaysFaulting());
  }

  /** Corrected: retry only while `attempt < MaxRetryAttempts`. */
  function DoWorkIntended(pub: Publisher, providers: seq<Provider>, script: nat -> AttemptEnv): (r: Run)
    ensures |Retries(r.trace)| <= MaxRetryAttempts
    ensures r.end == Raised ==> |Retries(r.trace)| == MaxRetryAttempts
    ensures Scoped(r.trace) && WorkOnly(r.trace)
  {
    RetryPassCount(Passes(pub, providers, script), 0, MaxRetryAttempts - 1);
    RetryPassShaped(Passes(pub, providers, script), 0, MaxRetryAttempts - 1);
    RetryPass(Passes(pub, providers, script), 0, MaxRetryAttempts - 1)
  }

  /** Corrected: the work raises only after MaxRetryAttempts + 1 passes in a row raised. */
  lemma DoWorkIntendedRaisesIff(pub: Publisher, providers: seq<Provider>, script: nat -> AttemptEnv)
    ensures DoWorkIntended(pub, providers, script).end == Raised
        <==> forall j :: 0 <= j <= MaxRetryAttempts ==> Pass(pub, providers, script(j)).end == Raised
  {
    RetryRaisesIffAllPassesRaise(Passes(pub, providers, script), 0, MaxRetryAttempts - 1);
  }

  /** A publisher whose gate pin 4 was opened. */
  function GatedPublisher(sleepTime: nat): (pub: Publisher)
    ensures Construct(Config(sleepTime, 4)) == Success(pub)
  {
    Publisher(Config(sleepTime, 4), Some(GpioPin(4)))
  }

  /** With the network up, no fault and the gate pin of `GatedPublisher` held High, a pass keeps the device awake. */
  lemma GateHeldHigh(sleepTime: nat, providers: seq<Provider>)
    ensures Pass(GatedPublisher(sleepTime), providers, AttemptEnv(true, High, None)).end == KeptAwake
  {
    GateDecidesStop(GatedPublisher(sleepTime), providers, AttemptEnv(true, High, None));
  }

  /**
   As written: when the first pass keeps the device awake (for instance the
   gate pin held High, see GateHeldHigh), the pass logs that deep sleep is
   disabled and leaves the device running, and the cycle still ends by
   entering deep sleep.
   */
  lemma StayAwakeIgnored(pub: Publisher, providers: seq<Provider>, cause: WakeCause, script: nat -> AttemptEnv)
    requires Pass(pub, providers, script(0)).end == KeptAwake
    ensures var t := InitializeDataProviders(pub, providers, cause, script);
      && SleepSuppressedLogged in t
      && DeviceStopped !in t
      && t[|t| - 1] == DeepSleepStarted
  {
    var work := DoWork(pub, providers, script);
    KeptAwakeWork(pub, providers, script);
    CompletedWorkCycle(pub, providers, cause, script);
    var logged := if cause != Undefined then [WakeCauseLogged(cause)] else [];
    SleepAfterWork(logged, work.trace, pub.config.sleepTime);
  }

  /** As written: a first pass kept awake is the whole work, with the notice and without a stop. */
  lemma KeptAwakeWork(pub: Publisher, providers: seq<Provider>, script: nat -> AttemptEnv)
    requires Pass(pub, providers, script(0)).end == KeptAwake
    ensures var work := DoWork(pub, providers, script);
      && work.end == KeptAwake
      && SleepSuppressedLogged in work.trace
      && DeviceStopped !in work.trace
  {
    var passes := Passes(pub, providers, script);
    assert DoWork(pub, providers, script) == passes(0);
    PassEndings(pub, providers, script(0));
  }

  /** Membership in a completed cycle: the frame adds no stay-awake log and no stop. */
  lemma SleepAfterWork(logged: seq<Event>, work: seq<Event>, sleepTime: nat)
    requires forall i :: 0 <= i < |logged| ==> logged[i].WakeCauseLogged?
    requires SleepSuppressedLogged in work && DeviceStopped !in work
    ensures var t := logged + work + [TimerWakeupEnabled(sleepTime), DeepSleepStarted];
      && SleepSuppressedLogged in t
      && DeviceStopped !in t
      && t[|t| - 1] == DeepSleepStarted
  {
    assert DeviceStopped !in logged by {
      assert forall i :: 0 <= i < |logged| ==> logged[i] != DeviceStopped;
    }
  }

  /**
   Corrected driver: as before, except that a pass which kept the device awake
   leaves it running, so neither the timer nor deep sleep is armed.
   */
  function InitializeIntended(pub: Publisher, providers: seq<Provider>, cause: WakeCause, script: nat -> AttemptEnv): (t: seq<Event>)
    ensures DeepSleepStarted in t <==> DoWorkIntended(pub, providers, script).end != KeptAwake
    ensures TimerWakeupEnabled(pub.config.sleepTime) in t <==> DoWorkIntended(pub, providers, script).end != KeptAwake
    ensures DoWorkIntended(pub, providers, script).end != KeptAwake ==>
              |t| >= 2 && t[|t| - 2] == TimerWakeupEnabled(pub.config.sleepTime) && t[|t| - 1] == DeepSleepStarted
    ensures WorkErrorLogged in t <==> DoWorkIntended(pub, providers, script).end == Raised
  {
    var work := DoWorkIntended(pub, providers, script);
    AroundWorkIntended(cause, work.trace, work.end, pub.config.sleepTime)
  }

  /** Corrected frame around the work: the timer and deep sleep only when the work did not keep the device awake. */
  function AroundWorkIntended(cause: WakeCause, work: seq<Event>, end: PassEnd, sleepTime: nat): (t: seq<Event>)
    requires WorkOnly(work)
    ensures DeepSleepStarted in t <==> end != KeptAwake
    ensures TimerWakeupEnabled(sleepTime) in t <==> end != KeptAwake
    ensures end != KeptAwake ==> |t| >= 2 && t[|t| - 2] == TimerWakeupEnabled(sleepTime) && t[|t| - 1] == DeepSleepStarted
    ensures WorkErrorLogged in t <==> end == Raised
  {
    var logged := if cause != Undefined then [WakeCauseLogged(cause)] else [];
    var caught := if end == Raised then [WorkErrorLogged] else [];
    var sleep := if end == KeptAwake then [] else [TimerWakeupEnabled(sleepTime), DeepSleepStarted];
    var t := logged + work + caught + sleep;
    NoDriverEventIn(work, DeepSleepStarted);
    NoDriverEventIn(work, WorkErrorLogged);
    NoDriverEventIn(work, TimerWakeupEnabled(sleepTime));
    assert t == (logged + work + caught) + sleep;
    t
  }

  /** Corrected: when the first pass keeps the device awake, it stays up, unstopped and not sleeping. */
  lemma StayAwakeHonoured(pub: Publisher, providers: seq<Provider>, cause: WakeCause, script: nat -> AttemptEnv)
    requires Pass(pub, providers, script(0)).end == KeptAwake
    ensures var t := InitializeIntended(pub, providers, cause, script);
      && SleepSuppressedLogged in t
      && DeviceStopped !in t
      && DeepSleepStarted !in t
  {
    var work := DoWorkIntended(pub, providers, script);
    var passes := Passes(pub, providers, script);
    assert work == passes(0);
    PassEndings(pub, providers, script(0));
    assert SleepSuppressedLogged in work.trace && DeviceStopped !in work.trace;
    var logged := if cause != Undefined then [WakeCauseLogged(cause)] else [];
    var t := InitializeIntended(pub, providers, cause, script);
    assert t == logged + work.trace;
  }
}
