# Deep-sleep data publisher, modelled in Dafny

This project models `DataPublisher`, the wake, work and sleep orchestration of
an ESP32 deep-sleep sensor node in the MakoIoT device services. On every boot
the publisher logs the wake cause unless it is `Undefined`, runs every registered data provider once
with its data-received handler attached only during the `GetData` call, relays
every message a provider raises to the message bus, and then decides at a gate
pin whether to stop the device. Any exception that escapes a pass re-runs the
whole pass while `attempt <= 3`. A `finally` block always arms the wake-up timer and enters deep
sleep.

Every hardware and framework collaborator is a scripted input:
- each provider is a `Provider`: its id, the messages it raises during
  `GetData`, and whether `GetData` then throws;
- each attempt sees an `AttemptEnv`: whether the network is connected, the
  level of the gate pin, and at most one pass-level fault. The fault is keyed
  by the step that throws: the network read, the provider enumeration, the
  work before provider k, the work between the provider loop and the gate
  decision, or `device.Stop()`;
- the whole work sees one environment per attempt number
  (`script: nat -> AttemptEnv`).

Each operation yields the trace of `Event`s it causes: logs, subscriptions,
publications, the device stop, the reboot request, the timer and deep sleep.
The handler's subscription is checked by replaying a trace against a listener
state machine (`Scope.Replay`). A message counts as delivered only while a
handler is attached, and is delivered on behalf of that handler's provider.

Modules:
- `PinMapper`: the whitelist from a configured pin number to a wake-up pin.
- `Events` and `Scope`: the trace and the listener state machine.
- `ProviderRunner`: `ProviderOnDataReceived`, `HandleDataProvider` and the
  provider loop.
- `DataPublisher`: construction, the gate, one pass, the retrying `DoWork`
  and `InitializeDataProviders`.
- `WorkProperties`: properties of all of the above.
- `RetryLoop`: the recursive retry restated as a bounded loop and proved equal.
- `Findings`: the two findings below, as written and corrected.
- `Scenarios`: end-to-end wake cycles.

The model follows the code as written, including where the code's own names
and log messages promise something else:
- The retry guard is `attempt <= MaxRetryAttepmpts` (DataPublisher.cs:124)
  with the constant `MaxRetryAttepmpts` = 3 (DataPublisher.cs:13). A failing
  pass is therefore retried four times, and up to five passes run, one retry
  more than the constant's name allows.
- When the gate pin reads High, the pass logs "Deep sleep is disabled due to
  pin state." (DataPublisher.cs:114) and only skips `device.Stop()`. The
  `finally` block of `InitializeDataProviders` still arms the timer and enters
  deep sleep (DataPublisher.cs:60-65).
- No pin wake source is ever armed. The constructor validates the pin through
  `MapPinNumberToWakeUpEnum` and discards the result (line 33). Only the
  timer is armed.
- The gate pin is the byte `DisableDeepSleepGpioPin`, with 0 meaning "no gate",
  as DataPublisher.cs:30 reads it. Pin 0 is therefore on the whitelist but can
  never be the gate. `DeepSleepDataProviderConfig.cs`, the class
  DataPublisher.cs:28 casts the section to, declares only `SleepTime`; it is
  modelled as `Config.sleepTime`, and the pin is added to `Config` as
  DataPublisher.cs:30 reads it. `DeepSleepDataProviderConfiguration.cs`
  declares a signed `WakeUpGpioPin` with -1 as its sentinel, which the
  publisher never reads.

## Model

| member | source | states |
|---|---|---|
| PinMapper.MapPinNumberToWakeUpEnum | src/MakoIoT.Device.Services.ESP32.DeepSleepDataProviders/DataPublisher.cs:68-91 | the lookup succeeds exactly for the 18 RTC-capable numbers {0, 2, 4, 12-15, 25-27, 32-39}; the identifier it returns stands for the number it was given; every other byte fails with NotSupported naming that number |
| PinMapper.MapPinRoundTrip | src/MakoIoT.Device.Services.ESP32.DeepSleepDataProviders/DataPublisher.cs:72-89 | every wake-up pin identifier is the result for its own number, so the table reaches the whole enumeration |
| PinMapper.MapPinInjective | src/MakoIoT.Device.Services.ESP32.DeepSleepDataProviders/DataPublisher.cs:72-89 | two accepted numbers that give the same identifier are the same number |
| DataPublisher.Construct | src/MakoIoT.Device.Services.ESP32.DeepSleepDataProviders/DataPublisher.cs:30-35 | pin 0 opens no pin; a nonzero number outside the whitelist fails with NotSupported and opens nothing; a valid nonzero number is opened as the gate pin |
| WorkProperties.GateFollowsConfiguration | src/MakoIoT.Device.Services.ESP32.DeepSleepDataProviders/DataPublisher.cs:152-165 | for a constructed publisher the gate says stay awake exactly when a nonzero pin was configured and reads High; with pin 0 it never does, whatever the level |
| DataPublisher.ShouldNotGoIntoDeepSleep | src/MakoIoT.Device.Services.ESP32.DeepSleepDataProviders/DataPublisher.cs:152-165 | with no pin opened the gate never keeps the device awake; it keeps it awake only on a High level, and always does when a pin was opened and reads High |
| ProviderRunner.ProviderOnDataReceived | src/MakoIoT.Device.Services.ESP32.DeepSleepDataProviders/DataPublisher.cs:38-42 | the handler turns the messages it is given into one publication each, same message, same order |
| ProviderRunner.HandleDataProvider | src/MakoIoT.Device.Services.ESP32.DeepSleepDataProviders/DataPublisher.cs:135-150 | the handling of a provider begins with its subscription and ends with its removal, whether or not GetData threw |
| ProviderRunner.HandleDataProviderFacts | src/MakoIoT.Device.Services.ESP32.DeepSleepDataProviders/DataPublisher.cs:135-150 | handling one provider attaches the handler for it alone and detaches it again, delivers on its behalf exactly the messages it raised during GetData, logs it as failing exactly when GetData threw, and lets no exception out: no retry and no driver event follows |
| Scenarios.HandleOne | src/MakoIoT.Device.Services.ESP32.DeepSleepDataProviders/DataPublisher.cs:135-150 | a provider that raises one message and returns yields subscribe, publish, unsubscribe and nothing more |
| ProviderRunner.RunProvidersFacts | src/MakoIoT.Device.Services.ESP32.DeepSleepDataProviders/DataPublisher.cs:105-110 | the provider loop subscribes every provider exactly once in enumeration order, logs exactly the failing ones in order, delivers every message on behalf of the provider that raised it, and never raises a retry |
| ProviderRunner.RunProviders | src/MakoIoT.Device.Services.ESP32.DeepSleepDataProviders/DataPublisher.cs:105-110 | the provider loop subscribes to every provider exactly once, in enumeration order, emits at least two events per provider, and ends with the removal of the last provider's handler |
| ProviderRunner.PublishedInEmissionOrder | src/MakoIoT.Device.Services.ESP32.DeepSleepDataProviders/DataPublisher.cs:139-148 | the bus receives exactly the messages raised during the GetData calls, unchanged and in emission order |
| ProviderRunner.RunProvidersPrefix | src/MakoIoT.Device.Services.ESP32.DeepSleepDataProviders/DataPublisher.cs:106-110 | a loop cut short before provider k has emitted a prefix of what the full loop emits |
| DataPublisher.Pass | src/MakoIoT.Device.Services.ESP32.DeepSleepDataProviders/DataPublisher.cs:96-121 | a pass requests a reboot exactly when the network state was read and was down; a pass without a pass-level fault never raises |
| DataPublisher.GateAndStop | src/MakoIoT.Device.Services.ESP32.DeepSleepDataProviders/DataPublisher.cs:112-120 | after the providers, the pass stays awake exactly when the work between the provider loop and the gate decision does not throw and the gate says so, stops the device exactly when the gate allows sleep and the stop succeeds, and otherwise raises; in each case the handled events stay a prefix followed by the notice, the stop, or nothing |
| DataPublisher.GateKeepsHandled | src/MakoIoT.Device.Services.ESP32.DeepSleepDataProviders/DataPublisher.cs:112-120 | what the gate step adds comes after the handled providers, lies outside every provider call, and adds no subscription, provider error, retry or driver event |
| DataPublisher.PassIsShaped | src/MakoIoT.Device.Services.ESP32.DeepSleepDataProviders/DataPublisher.cs:96-121 | every pass, whichever way it ends, leaves every subscription undone, logs no retry warning of its own, and emits no driver event |
| WorkProperties.NetworkDownRequestsReboot | src/MakoIoT.Device.Services.ESP32.DeepSleepDataProviders/DataPublisher.cs:98-103 | with the network down the pass logs the outage, requests a reboot and handles no provider |
| WorkProperties.GateDecidesStop | src/MakoIoT.Device.Services.ESP32.DeepSleepDataProviders/DataPublisher.cs:112-120 | with the network up and no fault, the device is stopped exactly when the gate allows sleep and kept awake exactly when it does not |
| WorkProperties.PassEndings | src/MakoIoT.Device.Services.ESP32.DeepSleepDataProviders/DataPublisher.cs:112-120 | a pass kept awake ends with the notice that deep sleep is disabled and never stops the device; a pass that stopped the device ends with the stop |
| WorkProperties.PassHandlesEveryProvider | src/MakoIoT.Device.Services.ESP32.DeepSleepDataProviders/DataPublisher.cs:105-120 | a pass that reaches the gate subscribed every provider once in order, logged exactly the failing ones, and published every message raised during GetData in order |
| WorkProperties.HealthyPassHandlesAll | src/MakoIoT.Device.Services.ESP32.DeepSleepDataProviders/DataPublisher.cs:98-120 | with the network up and no pass-level fault, the pass completes at the gate and subscribes every provider in order |
| WorkProperties.PassFaultTruncates | src/MakoIoT.Device.Services.ESP32.DeepSleepDataProviders/DataPublisher.cs:96-121 | a pass-level fault only cuts a pass short: the faulted trace is a prefix of the trace without the fault, and a fault at a step never reached changes nothing |
| DataPublisher.RetryPassCount | src/MakoIoT.Device.Services.ESP32.DeepSleepDataProviders/DataPublisher.cs:122-131 | the retry logs one warning per raised pass it retries, numbered upwards from the starting attempt, and exactly lastRetry + 1 - attempt of them when the exception escapes |
| DataPublisher.RetryPassShaped | src/MakoIoT.Device.Services.ESP32.DeepSleepDataProviders/DataPublisher.cs:122-131 | retrying keeps every subscription undone and emits no driver event |
| DataPublisher.RetryPass | src/MakoIoT.Device.Services.ESP32.DeepSleepDataProviders/DataPublisher.cs:122-131 | the retrying work begins with the events of its first pass; it lets an exception escape only if that first pass raised; and a first pass that did not raise is the whole work |
| DataPublisher.DoWork | src/MakoIoT.Device.Services.ESP32.DeepSleepDataProviders/DataPublisher.cs:94-133 | the work logs at most MaxRetryAttempts + 1 = 4 retry warnings; when it raises it has logged exactly the warnings of attempts 0, 1, 2 and 3 |
| WorkProperties.RetryRaisesIffAllPassesRaise | src/MakoIoT.Device.Services.ESP32.DeepSleepDataProviders/DataPublisher.cs:122-131 | the retry raises exactly when every pass it was allowed to run, up to the last attempt, raised |
| WorkProperties.DoWorkRaisesIffFivePassesRaise | src/MakoIoT.Device.Services.ESP32.DeepSleepDataProviders/DataPublisher.cs:122-131 | the work raises exactly when the passes of attempts 0 to 4, five in all, each raised |
| WorkProperties.RetryStopsAtFirstCompletedPass | src/MakoIoT.Device.Services.ESP32.DeepSleepDataProviders/DataPublisher.cs:122-128 | the first pass that does not raise ends the work with its own ending, and its events close the trace |
| WorkProperties.RetriesBeforeCompletedPass | src/MakoIoT.Device.Services.ESP32.DeepSleepDataProviders/DataPublisher.cs:124-127 | before the first pass that does not raise, each raised pass left exactly one retry warning |
| WorkProperties.RetryRerunsWholePass | src/MakoIoT.Device.Services.ESP32.DeepSleepDataProviders/DataPublisher.cs:122-131 | after k raised passes the work ends with a complete new pass that handles every provider again from the first, after exactly k retry warnings |
| WorkProperties.ProviderFailureNeverRetries | src/MakoIoT.Device.Services.ESP32.DeepSleepDataProviders/DataPublisher.cs:142-145 | a provider whose GetData throws causes no retry: without a pass-level fault the work is its first pass, with no retry warning |
| Scenarios.RecoversOnFourthAttempt | src/MakoIoT.Device.Services.ESP32.DeepSleepDataProviders/DataPublisher.cs:122-131 | pass-level faults in the first three attempts and a healthy fourth: the work completes without raising after the retry warnings of attempts 0, 1 and 2 |
| RetryLoop.RetryLoop | src/MakoIoT.Device.Services.ESP32.DeepSleepDataProviders/DataPublisher.cs:122-131 | the retry written as a bounded loop produces the same trace and ending as the recursive retry, with at most lastRetry + 1 warnings |
| RetryLoop.DoWorkLoop | src/MakoIoT.Device.Services.ESP32.DeepSleepDataProviders/DataPublisher.cs:94-133 | the loop form of the work equals the recursive work and logs at most 4 retry warnings |
| DataPublisher.AroundWork | src/MakoIoT.Device.Services.ESP32.DeepSleepDataProviders/DataPublisher.cs:46-65 | around the work the driver logs a known wake cause, logs the error that escaped, and then always arms the timer and enters deep sleep as the last two events and never earlier |
| DataPublisher.InitializeDataProviders | src/MakoIoT.Device.Services.ESP32.DeepSleepDataProviders/DataPublisher.cs:44-66 | a wake cycle always ends by arming the timer with the configured time and entering deep sleep, neither earlier; it logs a work error exactly when the work raised and the wake cause exactly when it is known; every subscription is undone |
| WorkProperties.CompletedWorkCycle | src/MakoIoT.Device.Services.ESP32.DeepSleepDataProviders/DataPublisher.cs:44-66 | when the work did not raise, the cycle is the wake-cause log (if known), the work, then the timer and deep sleep |
| Scenarios.HealthyWork | src/MakoIoT.Device.Services.ESP32.DeepSleepDataProviders/DataPublisher.cs:94-121 | with no gate pin and healthy attempts, the first pass handles the providers, stops the device, and is the whole work |
| Scenarios.HealthyPass | src/MakoIoT.Device.Services.ESP32.DeepSleepDataProviders/DataPublisher.cs:96-121 | with the network up, no fault and no gate pin, a pass is the provider loop followed by the stop |
| Scenarios.ColdBootCycle | src/MakoIoT.Device.Services.ESP32.DeepSleepDataProviders/DataPublisher.cs:44-66 | cold boot, no gate pin, healthy attempts: every provider handled once in order, then the stop, the timer with the configured time, and deep sleep |
| Scenarios.ColdBootOneProvider | src/MakoIoT.Device.Services.ESP32.DeepSleepDataProviders/DataPublisher.cs:44-66 | the same cycle with one provider raising one message: subscribe, publish, unsubscribe, stop, timer, deep sleep |
| Findings.RetryBudgetExceeded | src/MakoIoT.Device.Services.ESP32.DeepSleepDataProviders/DataPublisher.cs:124 | as written: a pass that always raises is retried MaxRetryAttempts + 1 = 4 times |
| Findings.DoWorkIntended | src/MakoIoT.Device.Services.ESP32.DeepSleepDataProviders/DataPublisher.cs:124 | corrected retry (`attempt < MaxRetryAttempts`): at most 3 retry warnings, exactly 3 when the work raises |
| Findings.DoWorkIntendedRaisesIff | src/MakoIoT.Device.Services.ESP32.DeepSleepDataProviders/DataPublisher.cs:124 | corrected retry raises exactly when the passes of attempts 0 to 3, four in all, each raised |
| Findings.GatedPublisher | src/MakoIoT.Device.Services.ESP32.DeepSleepDataProviders/DataPublisher.cs:30-35 | a configuration with gate pin 4 constructs a publisher with pin 4 open |
| Findings.GateHeldHigh | src/MakoIoT.Device.Services.ESP32.DeepSleepDataProviders/DataPublisher.cs:112-116 | with gate pin 4 held High, the network up and no fault, a pass keeps the device awake |
| Findings.KeptAwakeWork | src/MakoIoT.Device.Services.ESP32.DeepSleepDataProviders/DataPublisher.cs:112-116 | as written: a first pass kept awake is the whole work, holding the stay-awake notice and no device stop |
| Findings.StayAwakeIgnored | src/MakoIoT.Device.Services.ESP32.DeepSleepDataProviders/DataPublisher.cs:60-65 | as written: when the first pass keeps the device awake, the cycle logs that deep sleep is disabled, never stops the device, and still ends by entering deep sleep |
| Findings.InitializeIntended | src/MakoIoT.Device.Services.ESP32.DeepSleepDataProviders/DataPublisher.cs:60-65 | corrected driver: the timer and deep sleep are armed exactly when the work did not keep the device awake, and then last; a work error is logged exactly when the work raised |
| Findings.StayAwakeHonoured | src/MakoIoT.Device.Services.ESP32.DeepSleepDataProviders/DataPublisher.cs:112-116 | corrected driver: when the first pass keeps the device awake, the cycle logs the notice, never stops the device and never enters deep sleep |

## Left out

- Hardware and runtime calls are events or inputs rather than calls:
  - `Sleep.GetWakeupCause` is the `cause` parameter;
  - `Sleep.EnableWakeupByTimer` and `Sleep.StartDeepSleep` are the last two events;
  - `Power.RebootDevice` is the `RebootRequested` event;
  - `GpioPin.Read` is the attempt's `pinLevel`;
  - the service-provider enumeration is the `providers` sequence.
- The hardware calls modelled as events or inputs never throw: `GpioController.OpenPin` (line 34), `Power.RebootDevice` (line 101), and `Sleep.EnableWakeupByTimer` and `Sleep.StartDeepSleep` in the `finally` block (lines 63-64). In the source, a throw at lines 63-64 would escape `InitializeDataProviders`, and the model's trace cannot express that.
- That `RebootDevice` and `StartDeepSleep` never return is not modelled. The trace records the request and, as the code does after the reboot call, the pass returns.
- An exception from `Sleep.GetWakeupCause` is not modelled: it would skip the work, be logged by the catch at lines 56-59 (so an error is logged although `DoWork` never ran), and then reach the `finally` block.
- Log text and levels are not modelled. Only the log records the properties depend on are events. A logger call that throws is modelled only where it falls before a provider in the loop (`ProviderLoopFault`) or just before `device.Stop()` (`StopFault`). The network-down log and the log after `device.Stop()` are not given a fault of their own.
- A message-bus `Publish` that throws is not modelled. Every relayed message reaches the bus.
- Event-delegate mechanics are not modelled: the handler is one listener state, attached or detached, and adding it twice is not covered. A message raised after `GetData` returned, when no handler is attached, is not modelled. Threads and timing are not modelled.
- Each provider behaves the same on every pass of a wake cycle: a retried pass replays the same provider script (same messages, same failure), whereas the source calls `GetData` afresh on each pass and its outcome may differ. Pass-level faults and the network and gate pin do vary per attempt.
- The attempt counter, a byte in the source, is a `nat`. It never exceeds 4, so no wrap-around can occur.
- `SleepTime`, a `TimeSpan`, is an opaque `nat`.
- `DeviceBuilderExtension.cs` is plain dependency-injection registration and hookup, and `DeepSleepDataProviderConfiguration.cs` is a property bag the publisher never reads; neither is part of this model. Of `DeepSleepDataProviderConfig.cs` only `SleepTime` is modelled.

## Findings

| source | as written | input that shows it | evidently intended | confidence | as-written member | corrected member |
|---|---|---|---|---|---|---|
| src/MakoIoT.Device.Services.ESP32.DeepSleepDataProviders/DataPublisher.cs:124 | the retry guard `attempt <= MaxRetryAttepmpts` with the constant 3 allows four retries | every attempt throws on the network read: the work logs retry warnings for attempts 0, 1, 2 and 3 and runs five passes before the exception escapes | at most `MaxRetryAttempts` = 3 retries, four passes in all, as the constant's name says | medium; not executed | Findings.RetryBudgetExceeded | Findings.DoWorkIntendedRaisesIff |
| src/MakoIoT.Device.Services.ESP32.DeepSleepDataProviders/DataPublisher.cs:112-116 | when `ShouldNotGoIntoDeepSleep` is true the pass returns early, but the `finally` block at lines 60-65 still arms the timer and starts deep sleep | gate pin 4 configured and read High, network up, no fault: the trace has "deep sleep is disabled", no stop, then the timer and deep sleep | the device stays awake: no timer and no deep sleep, as the log message says | high; not executed | Findings.StayAwakeIgnored | Findings.StayAwakeHonoured |

The corrected definitions `Findings.DoWorkIntended` and
`Findings.InitializeIntended` are kept beside the as-written ones. Everything
outside the `Findings` module describes the code as written.
