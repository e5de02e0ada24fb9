/**
 The wake, work and sleep orchestration of a deep-sleep sensor node. Every
 hardware or framework collaborator is a scripted input; each operation yields
 the trace of events it causes.
 */
module DataPublisher {
  import opened Wrappers
  import opened PinMapper
  import opened Events
  import opened Scope
  import opened ProviderRunner

  /** The bound the retry guard compares the attempt counter with. */
  const MaxRetryAttempts: nat := 3

  /** The configuration section: how long to sleep, and the gate pin (0: no gate). */
  datatype Config = Config(sleepTime: nat, disableDeepSleepGpioPin: byte)

  /** An opened GPIO input. */
  datatype GpioPin = GpioPin(number: byte)

  datatype PinValue = Low | High

  /** A constructed publisher: its configuration and the gate pin, if one was opened. */
  datatype Publisher = Publisher(config: Config, disablePin: Option<GpioPin>)

  /**
   The step of a pass that throws an exception the provider runner does not
   absorb: reading the network state, enumerating the providers, the work
   before provider `before` is handled, the work between the provider loop and
   the gate decision, or stopping the device. A fault for a step the pass does
   not reach does not fire.
   */
  datatype PassFault =
    | NetworkCheckFault
    | EnumerationFault
    | ProviderLoopFault(before: nat)
    | GateFault
    | StopFault

  /** What the world looks like during one attempt. */
  datatype AttemptEnv = AttemptEnv(connected: bool, pinLevel: PinValue, fault: Option<PassFault>)

  /** How one pass, or the retrying work, ended. */
  datatype PassEnd =
    | Stopped     // the gate allowed sleep and the device was stopped
    | KeptAwake   // the gate pin asked to stay awake; the device was not stopped
    | Rebooting   // the network was down and a reboot was requested
    | Raised      // an exception escaped

  datatype Run = Run(trace: seq<Event>, end: PassEnd)

  /**
   The constructor's check of the gate pin: 0 opens nothing; any other number
   must be a wake-capable pin, and is then opened.
   */
  function Construct(config: Config): (r: Result<Publisher, PinError>)
    ensures config.disableDeepSleepGpioPin == 0 ==> r == Success(Publisher(config, None))
    ensures config.disableDeepSleepGpioPin != 0 && config.disableDeepSleepGpioPin !in WakeCapablePins
            ==> r == Failure(NotSupported(config.disableDeepSleepGpioPin))
    ensures config.disableDeepSleepGpioPin != 0 && config.disableDeepSleepGpioPin in WakeCapablePins
            ==> r == Success(Publisher(config, Some(GpioPin(config.disableDeepSleepGpioPin))))
  {
    var pin := config.disableDeepSleepGpioPin;
    if pin == 0 then Success(Publisher(config, None))
    else
      match MapPinNumberToWakeUpEnum(pin)
      case Failure(e) => Failure(e)
      case Success(_) => Success(Publisher(config, Some(GpioPin(pin))))
  }

  /** The gate: stay awake exactly when a pin was opened and it reads High. */
  function ShouldNotGoIntoDeepSleep(pub: Publisher, level: PinValue): (stayAwake: bool)
    ensures pub.disablePin.None? ==> !stayAwake
    ensures stayAwake ==> level == High
    ensures pub.disablePin.Some? && level == High ==> stayAwake
  {
    if pub.disablePin.None? then false
    else level == High
  }

  /** Whether a fault is scheduled just before one of the first `n` providers. */
  predicate InterruptsProviderLoop(fault: Option<PassFault>, n: nat) {
    fault.Some? && fault.value.ProviderLoopFault? && fault.value.before < n
  }

  /** One execution of the body of the retrying work. */
  function Pass(pub: Publisher, providers: seq<Provider>, env: AttemptEnv): (r: Run)
    ensures r.end == Rebooting <==> env.fault != Some(NetworkCheckFault) && !env.connected
    ensures env.fault.None? ==> r.end != Raised
  {
    if env.fault == Some(NetworkCheckFault) then
      Run([], Raised)
    else if !env.connected then
      Run([NetworkDownLogged, RebootRequested], Rebooting)
    else if env.fault == Some(EnumerationFault) then
      Run([], Raised)
    else if InterruptsProviderLoop(env.fault, |providers|) then
      Run(RunProviders(providers[..env.fault.value.before]), Raised)
    else
      GateAndStop(pub, RunProviders(providers), env)
  }

  /**
   The end of a pass once every provider was handled: consult the gate, then
   stop the device unless the gate asks to stay awake.
   */
  function GateAndStop(pub: Publisher, handled: seq<Event>, env: AttemptEnv): (r: Run)
    ensures r.end != Rebooting
    ensures env.fault.None? ==> r.end != Raised
    ensures r.end == KeptAwake <==> env.fault != Some(GateFault) && ShouldNotGoIntoDeepSleep(pub, env.pinLevel)
    ensures r.end == Stopped <==>
              env.fault != Some(GateFault) && env.fault != Some(StopFault) && !ShouldNotGoIntoDeepSleep(pub, env.pinLevel)
    ensures r.end == KeptAwake ==> r.trace == handled + [SleepSuppressedLogged]
    ensures r.end == Stopped ==> r.trace == handled + [DeviceStopped]
    ensures r.end == Raised ==> r.trace == handled
  {
    if env.fault == Some(GateFault) then
      Run(handled, Raised)
    else if ShouldNotGoIntoDeepSleep(pub, env.pinLevel) then
      Run(handled + [SleepSuppressedLogged], KeptAwake)
    else if env.fault == Some(StopFault) then
      Run(handled, Raised)
    else
      Run(handled + [DeviceStopped], Stopped)
  }

  /**
   What the gate adds comes after the handled providers, stays outside any
   provider call, and adds no subscription, provider error or retry.
   */
  lemma GateKeepsHandled(pub: Publisher, handled: seq<Event>, ds: seq<Delivery>, env: AttemptEnv)
    requires ScopedWith(handled, ds) && Retries(handled) == [] && WorkOnly(handled)
    ensures handled <= GateAndStop(pub, handled, env).trace
    ensures ScopedWith(GateAndStop(pub, handled, env).trace, ds)
    ensures Subscriptions(GateAndStop(pub, handled, env).trace) == Subscriptions(handled)
    ensures ProviderErrors(GateAndStop(pub, handled, env).trace) == ProviderErrors(handled)
    ensures Retries(GateAndStop(pub, handled, env).trace) == []
    ensures WorkOnly(GateAndStop(pub, handled, env).trace)
  {
    var r := GateAndStop(pub, handled, env);
    if r.end == KeptAwake {
      PassTail(handled, [SleepSuppressedLogged], ds);
    } else if r.end == Stopped {
      PassTail(handled, [DeviceStopped], ds);
    }
  }

  /** Every pass leaves a scoped trace with no retry warning and no driver event. */
  lemma PassIsShaped(pub: Publisher, providers: seq<Provider>, env: AttemptEnv)
    ensures PassShaped(Pass(pub, providers, env))
  {
    var r := Pass(pub, providers, env);
    var none: seq<Delivery> := [];
    if env.fault == Some(NetworkCheckFault) || (env.connected && env.fault == Some(EnumerationFault)) {
      assert r.trace == [];
      assert Replay(Detached, []) == Some(Audit(Detached, none));
    } else if !env.connected {
      assert Replay(Detached, []) == Some(Audit(Detached, none));
      PassTail([], [NetworkDownLogged, RebootRequested], none);
      assert [] + [NetworkDownLogged, RebootRequested] == r.trace;
    } else if InterruptsProviderLoop(env.fault, |providers|) {
      RunProvidersFacts(providers[..env.fault.value.before]);
    } else {
      RunProvidersFacts(providers);
      GateKeepsHandled(pub, RunProviders(providers), AllDeliveries(providers), env);
    }
  }

  /** Every pass a script gives rise to is shaped. */
  lemma AllPassesShaped(pub: Publisher, providers: seq<Provider>, script: nat -> AttemptEnv)
    ensures forall j :: PassShaped(Pass(pub, providers, script(j)))
  {
    forall j {
      PassIsShaped(pub, providers, script(j));
    }
  }

  /** A trace of events the pass emits outside any provider call and outside the retry. */
  predicate PassTailEvents(tail: seq<Event>) {
    forall i :: 0 <= i < |tail| ==> Outside(tail[i]) && !tail[i].RetryWarningLogged? && !tail[i].IsDriverEvent()
  }

  /** Events after the provider loop keep the trace scoped and add no subscriptions, errors or retries. */
  lemma PassTail(handled: seq<Event>, tail: seq<Event>, ds: seq<Delivery>)
    requires ScopedWith(handled, ds) && Retries(handled) == [] && WorkOnly(handled)
    requires PassTailEvents(tail)
    ensures ScopedWith(handled + tail, ds) && Scoped(handled + tail)
    ensures Subscriptions(handled + tail) == Subscriptions(handled)
    ensures ProviderErrors(handled + tail) == ProviderErrors(handled)
    ensures Retries(handled + tail) == [] && WorkOnly(handled + tail)
  {
    var none: seq<Delivery> := [];
    QuietScoped(tail);
    ScopedConcat(handled, ds, tail, none);
    assert ds + none == ds;
    CollectNone(tail, SubscribedOf);
    CollectNone(tail, ProviderErrorOf);
    CollectNone(tail, RetryOf);
    CollectAppend(handled, tail, SubscribedOf);
    CollectAppend(handled, tail, ProviderErrorOf);
    CollectAppend(handled, tail, RetryOf);
  }

  /** The attempt number after which no further retry is made, starting from `attempt`. */
  function LastAttempt(attempt: nat, lastRetry: nat): nat {
    if attempt <= lastRetry then lastRetry + 1 else attempt
  }

  /** What every pass leaves behind: a scoped trace with no retry and no driver event. */
  predicate PassShaped(r: Run) {
    Scoped(r.trace) && Retries(r.trace) == [] && WorkOnly(r.trace)
  }

  /** The passes a script gives rise to, one per attempt number. */
  function Passes(pub: Publisher, providers: seq<Provider>, script: nat -> AttemptEnv): (passes: nat -> Run)
    ensures forall j :: passes(j) == Pass(pub, providers, script(j))
    ensures forall j :: PassShaped(passes(j))
    ensures forall j :: Retries(passes(j).trace) == []
  {
    AllPassesShaped(pub, providers, script);
    (j: nat) => Pass(pub, providers, script(j))
  }

  /**
   The retrying work from attempt `attempt`: a pass that raises is followed by a
   warning and a whole new pass as long as `attempt <= lastRetry`; otherwise
   the exception escapes.
   */
  function RetryPass(passes: nat -> Run, attempt: nat, lastRetry: nat): (r: Run)
    ensures passes(attempt).trace <= r.trace
    ensures r.end == Raised ==> passes(attempt).end == Raised
    ensures passes(attempt).end != Raised ==> r == passes(attempt)
    decreases lastRetry + 1 - attempt
  {
    if passes(attempt).end == Raised && attempt <= lastRetry then
      var rest := RetryPass(passes, attempt + 1, lastRetry);
      Run(passes(attempt).trace + [RetryWarningLogged(attempt)] + rest.trace, rest.end)
    else
      passes(attempt)
  }

  /**
   The retry's warnings, when the passes log none of their own: one per raised
   pass it retried, numbered from `attempt` upwards, and exactly
   `LastAttempt - attempt` of them when the exception escapes.
   */
  lemma {:induction false} RetryPassCount(passes: nat -> Run, attempt: nat, lastRetry: nat)
    requires forall j :: Retries(passes(j).trace) == []
    ensures var r := RetryPass(passes, attempt, lastRetry);
      && |Retries(r.trace)| <= LastAttempt(attempt, lastRetry) - attempt
      && (forall i :: 0 <= i < |Retries(r.trace)| ==> Retries(r.trace)[i] == attempt + i)
      && (r.end == Raised ==> |Retries(r.trace)| == LastAttempt(attempt, lastRetry) - attempt)
    decreases lastRetry + 1 - attempt
  {
    var pass := passes(attempt);
    if pass.end == Raised && attempt <= lastRetry {
      var rest := RetryPass(passes, attempt + 1, lastRetry);
      RetryPassCount(passes, attempt + 1, lastRetry);
      assert Retries(pass.trace) == [];
      RetryCount(pass.trace, attempt, rest.trace);
    } else {
      assert Retries(pass.trace) == [];
    }
  }

  /** Retrying shaped passes keeps the trace scoped and free of driver events. */
  lemma {:induction false} RetryPassShaped(passes: nat -> Run, attempt: nat, lastRetry: nat)
    requires forall j :: PassShaped(passes(j))
    ensures Scoped(RetryPass(passes, attempt, lastRetry).trace) && WorkOnly(RetryPass(passes, attempt, lastRetry).trace)
    decreases lastRetry + 1 - attempt
  {
    var pass := passes(attempt);
    assert PassShaped(pass);
    if pass.end == Raised && attempt <= lastRetry {
      var rest := RetryPass(passes, attempt + 1, lastRetry);
      RetryPassShaped(passes, attempt + 1, lastRetry);
      RetryStep(pass.trace, attempt, rest.trace);
    }
  }

  /** A warning between two scoped traces of work keeps them scoped and free of driver events. */
  lemma RetryStep(first: seq<Event>, attempt: nat, rest: seq<Event>)
    requires WorkOnly(first) && WorkOnly(rest)
    requires Scoped(first) && Scoped(rest)
    ensures Scoped(first + [RetryWarningLogged(attempt)] + rest)
    ensures WorkOnly(first + [RetryWarningLogged(attempt)] + rest)
  {
    var w := [RetryWarningLogged(attempt)];
    var a := Replay(Detached, first).value;
    var b := Replay(Detached, rest).value;
    ScopedOutside(RetryWarningLogged(attempt));
    ScopedConcat(first, a.deliveries, w, []);
    ScopedConcat(first + w, a.deliveries + [], rest, b.deliveries);
    assert WorkOnly(w);
    WorkOnlyAppend(first, w);
    WorkOnlyAppend(first + w, rest);
  }

  /** The warning between a pass with no retry and the rest adds exactly its own attempt. */
  lemma RetryCount(first: seq<Event>, attempt: nat, rest: seq<Event>)
    requires Retries(first) == []
    ensures Retries(first + [RetryWarningLogged(attempt)] + rest) == [attempt] + Retries(rest)
  {
    var w := [RetryWarningLogged(attempt)];
    CollectAppend(first, w, RetryOf);
    CollectAppend(first + w, rest, RetryOf);
    assert w[1..] == [];
  }

  /** The work as the publisher calls it: retry while `attempt <= MaxRetryAttempts`. */
  function DoWork(pub: Publisher, providers: seq<Provider>, script: nat -> AttemptEnv): (r: Run)
    ensures |Retries(r.trace)| <= MaxRetryAttempts + 1
    ensures r.end == Raised ==> Retries(r.trace) == [0, 1, 2, 3]
    ensures Scoped(r.trace) && WorkOnly(r.trace)
  {
    var r := RetryPass(Passes(pub, providers, script), 0, MaxRetryAttempts);
    RetryPassCount(Passes(pub, providers, script), 0, MaxRetryAttempts);
    RetryPassShaped(Passes(pub, providers, script), 0, MaxRetryAttempts);
    if r.end == Raised then
      FirstFourAttempts(Retries(r.trace));
      r
    else
      r
  }

  lemma FirstFourAttempts(rs: seq<nat>)
    requires |rs| == 4 && forall i :: 0 <= i < |rs| ==> rs[i] == 0 + i
    ensures rs == [0, 1, 2, 3]
  {
  }

  /**
   The top-level driver: log the wake cause unless it is Undefined, run the
   work, log whatever escaped it, and in every case arm the timer and enter
   deep sleep.
   */
  function InitializeDataProviders(pub: Publisher, providers: seq<Provider>, cause: WakeCause, script: nat -> AttemptEnv): (t: seq<Event>)
    ensures |t| >= 2
    ensures t[|t| - 2] == TimerWakeupEnabled(pub.config.sleepTime) && t[|t| - 1] == DeepSleepStarted
    ensures forall i :: 0 <= i < |t| - 2 ==> t[i] != DeepSleepStarted && !t[i].TimerWakeupEnabled?
    ensures WorkErrorLogged in t <==> DoWork(pub, providers, script).end == Raised
    ensures WakeCauseLogged(cause) in t <==> cause != Undefined
    ensures Scoped(t)
  {
    var work := DoWork(pub, providers, script);
    AroundWork(cause, work.trace, work.end == Raised, pub.config.sleepTime)
  }

  /**
   The driver's frame around the work: the wake-cause log before it, the
   caught error after it, then the timer and deep sleep of the finally block.
   */
  function AroundWork(cause: WakeCause, work: seq<Event>, raised: bool, sleepTime: nat): (t: seq<Event>)
    requires Scoped(work) && WorkOnly(work)
    ensures |t| >= 2 && t[|t| - 2] == TimerWakeupEnabled(sleepTime) && t[|t| - 1] == DeepSleepStarted
    ensures forall i :: 0 <= i < |t| - 2 ==> t[i] != DeepSleepStarted && !t[i].TimerWakeupEnabled?
    ensures WorkErrorLogged in t <==> raised
    ensures WakeCauseLogged(cause) in t <==> cause != Undefined
    ensures Scoped(t)
  {
    var logged := if cause != Undefined then [WakeCauseLogged(cause)] else [];
    var caught := if raised then [WorkErrorLogged] else [];
    var t := logged + work + caught + [TimerWakeupEnabled(sleepTime), DeepSleepStarted];
    InitializeFacts(cause, work, raised, sleepTime, t);
    t
  }

  lemma InitializeFacts(cause: WakeCause, work: seq<Event>, raised: bool, sleepTime: nat, t: seq<Event>)
    requires Scoped(work) && WorkOnly(work)
    requires t == (if cause != Undefined then [WakeCauseLogged(cause)] else []) + work
                  + (if raised then [WorkErrorLogged] else []) + [TimerWakeupEnabled(sleepTime), DeepSleepStarted]
    ensures |t| >= 2 && t[|t| - 2] == TimerWakeupEnabled(sleepTime) && t[|t| - 1] == DeepSleepStarted
    ensures Scoped(t)
    ensures forall i :: 0 <= i < |t| - 2 ==> t[i] != DeepSleepStarted && !t[i].TimerWakeupEnabled?
    ensures WorkErrorLogged in t <==> raised
    ensures WakeCauseLogged(cause) in t <==> cause != Undefined
  {
    var logged := if cause != Undefined then [WakeCauseLogged(cause)] else [];
    var caught := if raised then [WorkErrorLogged] else [];
    var finale := caught + [TimerWakeupEnabled(sleepTime), DeepSleepStarted];
    assert t == logged + work + finale;
    LoggedShape(cause, logged);
    FinaleShape(raised, caught, sleepTime, finale);
    InitializeScoped(logged, work, finale);
    InitializeOrder(logged, work, finale);
    NoDriverEventIn(work, WorkErrorLogged);
    NoDriverEventIn(work, WakeCauseLogged(cause));
    InThree(logged, work, finale, WorkErrorLogged);
    InThree(logged, work, finale, WakeCauseLogged(cause));
    LastTwo(logged + work, finale);
  }

  /** The wake-cause log holds the cause exactly when it is known, and nothing else. */
  lemma LoggedShape(cause: WakeCause, logged: seq<Event>)
    requires logged == if cause != Undefined then [WakeCauseLogged(cause)] else []
    ensures forall i :: 0 <= i < |logged| ==> logged[i].WakeCauseLogged? && Outside(logged[i])
    ensures WakeCauseLogged(cause) in logged <==> cause != Undefined
    ensures WorkErrorLogged !in logged
  {
  }

  /** The finally block's events, after the caught error if any. */
  lemma FinaleShape(raised: bool, caught: seq<Event>, sleepTime: nat, finale: seq<Event>)
    requires caught == if raised then [WorkErrorLogged] else []
    requires finale == caught + [TimerWakeupEnabled(sleepTime), DeepSleepStarted]
    ensures |finale| >= 2 && finale[|finale| - 2] == TimerWakeupEnabled(sleepTime) && finale[|finale| - 1] == DeepSleepStarted
    ensures forall i :: 0 <= i < |finale| ==> Outside(finale[i])
    ensures forall i :: 0 <= i < |finale| - 2 ==> finale[i] == WorkErrorLogged
    ensures WorkErrorLogged in finale <==> raised
    ensures forall c :: WakeCauseLogged(c) !in finale
  {
  }

  lemma NoDriverEventIn(work: seq<Event>, e: Event)
    requires WorkOnly(work) && e.IsDriverEvent()
    ensures e !in work
  {
    assert forall i :: 0 <= i < |work| ==> work[i] != e;
  }

  lemma InThree(a: seq<Event>, b: seq<Event>, c: seq<Event>, e: Event)
    ensures e in a + b + c <==> e in a || e in b || e in c
  {
  }

  lemma LastTwo(prefix: seq<Event>, finale: seq<Event>)
    requires |finale| >= 2
    ensures var t := prefix + finale;
      |t| >= 2 && t[|t| - 2] == finale[|finale| - 2] && t[|t| - 1] == finale[|finale| - 1]
  {
  }

  lemma InitializeScoped(logged: seq<Event>, work: seq<Event>, finale: seq<Event>)
    requires forall i :: 0 <= i < |logged| ==> Outside(logged[i])
    requires forall i :: 0 <= i < |finale| ==> Outside(finale[i])
    requires Scoped(work)
    ensures Scoped(logged + work + finale)
  {
    var none: seq<Delivery> := [];
    QuietScoped(logged);
    QuietScoped(finale);
    var ds := Replay(Detached, work).value.deliveries;
    ScopedConcat(logged, none, work, ds);
    ScopedConcat(logged + work, none + ds, finale, none);
  }

  lemma InitializeOrder(logged: seq<Event>, work: seq<Event>, finale: seq<Event>)
    requires forall i :: 0 <= i < |logged| ==> logged[i].WakeCauseLogged?
    requires WorkOnly(work)
    requires |finale| >= 2 && forall i :: 0 <= i < |finale| - 2 ==> finale[i] == WorkErrorLogged
    ensures var t := logged + work + finale;
      forall i :: 0 <= i < |t| - 2 ==> t[i] != DeepSleepStarted && !t[i].TimerWakeupEnabled?
  {
    var t := logged + work + finale;
    forall i | 0 <= i < |t| - 2
      ensures t[i] != DeepSleepStarted && !t[i].TimerWakeupEnabled?
    {
      if i < |logged| {
        assert t[i] == logged[i];
      } else if i < |logged| + |work| {
        assert t[i] == work[i - |logged|];
      } else {
        assert t[i] == finale[i - |logged| - |work|];
      }
    }
  }
}
