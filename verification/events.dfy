/**
 The observable behaviour of one wake cycle, written as a trace of events: the
 calls the publisher makes on the message bus, the device, the sleep driver and
 the power API, and the log records the properties below depend on.
 */
module Events {
  import opened Wrappers

  /** The stable identifier of a data provider. */
  type ProviderId = string

  /** A bus message; the publisher only relays it, so its content stays opaque. */
  datatype Message = Message(messageType: string, payload: string)

  /** The hardware-reported reason for this boot; Undefined after a cold boot. */
  datatype WakeCause = Undefined | Timer | Gpio | Other

  datatype Event =
    | WakeCauseLogged(cause: WakeCause)
    | NetworkDownLogged
    | RebootRequested
    | Subscribed(provider: ProviderId)
    | Published(message: Message)
    /** The source logs the provider's type name; the id stands in for it here. */
    | ProviderErrorLogged(provider: ProviderId)
    | Unsubscribed(provider: ProviderId)
    | SleepSuppressedLogged
    | DeviceStopped
    | RetryWarningLogged(attempt: nat)
    | WorkErrorLogged
    | TimerWakeupEnabled(sleepTime: nat)
    | DeepSleepStarted
  {
    /** Events only the top-level driver emits, never a pass. */
    predicate IsDriverEvent() {
      WakeCauseLogged? || WorkErrorLogged? || TimerWakeupEnabled? || DeepSleepStarted?
    }
  }

  /** The values `pick` selects from a trace, in trace order. */
  function Collect<X>(t: seq<Event>, pick: Event -> Option<X>): seq<X>
  {
    if |t| == 0 then []
    else
      var head := match pick(t[0]) case Some(x) => [x] case None => [];
      head + Collect(t[1..], pick)
  }

  lemma {:induction false} CollectAppend<X>(a: seq<Event>, b: seq<Event>, pick: Event -> Option<X>)
    ensures Collect(a + b, pick) == Collect(a, pick) + Collect(b, pick)
  {
    if |a| > 0 {
      assert (a + b)[1..] == a[1..] + b;
      CollectAppend(a[1..], b, pick);
    } else {
      assert a + b == b;
    }
  }

  /** A trace none of whose events `pick` selects collects nothing. */
  lemma {:induction false} CollectNone<X>(t: seq<Event>, pick: Event -> Option<X>)
    requires forall i :: 0 <= i < |t| ==> pick(t[i]).None?
    ensures Collect(t, pick) == []
    decreases |t|
  {
    if |t| > 0 {
      assert forall i :: 0 <= i < |t[1..]| ==> t[1..][i] == t[i + 1];
      CollectNone(t[1..], pick);
    }
  }

  function SubscribedOf(e: Event): Option<ProviderId> {
    if e.Subscribed? then Some(e.provider) else None
  }

  function ProviderErrorOf(e: Event): Option<ProviderId> {
    if e.ProviderErrorLogged? then Some(e.provider) else None
  }

  function RetryOf(e: Event): Option<nat> {
    if e.RetryWarningLogged? then Some(e.attempt) else None
  }

  function PublishedOf(e: Event): Option<Message> {
    if e.Published? then Some(e.message) else None
  }

  /** The providers subscribed to, in order. */
  function Subscriptions(t: seq<Event>): seq<ProviderId> {
    Collect(t, SubscribedOf)
  }

  /** The providers whose failure was logged, in order. */
  function ProviderErrors(t: seq<Event>): seq<ProviderId> {
    Collect(t, ProviderErrorOf)
  }

  /** The attempt numbers of the retry warnings, in order. */
  function Retries(t: seq<Event>): seq<nat> {
    Collect(t, RetryOf)
  }

  /** The messages handed to the bus, in order. */
  function Publications(t: seq<Event>): seq<Message> {
    Collect(t, PublishedOf)
  }

  /** No event of `t` belongs to the top-level driver. */
  predicate WorkOnly(t: seq<Event>) {
    forall i :: 0 <= i < |t| ==> !t[i].IsDriverEvent()
  }

  lemma WorkOnlyAppend(a: seq<Event>, b: seq<Event>)
    requires WorkOnly(a) && WorkOnly(b)
    ensures WorkOnly(a + b)
  {
    forall i | 0 <= i < |a + b|
      ensures !(a + b)[i].IsDriverEvent()
    {
      if i < |a| {
        assert (a + b)[i] == a[i];
      } else {
        assert (a + b)[i] == b[i - |a|];
      }
    }
  }
}
