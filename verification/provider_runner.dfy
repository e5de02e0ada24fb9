/**
 One data provider run with isolated faults and a temporary subscription, and
 the sequential run of all providers of a pass.
 */
module ProviderRunner {
  import opened Wrappers
  import opened Events
  import opened Scope

  /** A scripted data provider: the messages it raises while GetData runs, and whether GetData then throws. */
  datatype Provider = Provider(id: ProviderId, emits: seq<Message>, fails: bool)

  /** The data-received handler applied to each raised message in turn. */
  function ProviderOnDataReceived(ms: seq<Message>): (t: seq<Event>)
    ensures |t| == |ms|
    ensures forall i :: 0 <= i < |ms| ==> t[i] == Published(ms[i])
  {
    if |ms| == 0 then [] else [Published(ms[0])] + ProviderOnDataReceived(ms[1..])
  }

  /** The messages `ms`, each delivered on behalf of provider `id`. */
  function Tagged(id: ProviderId, ms: seq<Message>): (ds: seq<Delivery>)
    ensures |ds| == |ms|
    ensures forall i :: 0 <= i < |ds| ==> ds[i] == Delivery(id, ms[i])
  {
    if |ms| == 0 then [] else [Delivery(id, ms[0])] + Tagged(id, ms[1..])
  }

  /** What the bus receives on behalf of `p`: everything it raised during GetData. */
  function DeliveriesOf(p: Provider): seq<Delivery> {
    Tagged(p.id, p.emits)
  }

  /** Subscribe, call GetData relaying what it raises, log and swallow its failure, unsubscribe. */
  function HandleDataProvider(p: Provider): (t: seq<Event>)
    ensures |t| >= 2 && t[0] == Subscribed(p.id) && t[|t| - 1] == Unsubscribed(p.id)
  {
    var during := ProviderOnDataReceived(p.emits);
    var caught := if p.fails then [ProviderErrorLogged(p.id)] else [];
    [Subscribed(p.id)] + during + caught + [Unsubscribed(p.id)]
  }

  /**
   Handling one provider subscribes it and only it, removes the subscription
   again, publishes exactly what it raised during GetData on its behalf, and
   logs it as failing exactly when GetData threw.
   */
  lemma HandleDataProviderFacts(p: Provider)
    ensures ScopedWith(HandleDataProvider(p), DeliveriesOf(p))
    ensures Subscriptions(HandleDataProvider(p)) == [p.id]
    ensures ProviderErrors(HandleDataProvider(p)) == (if p.fails then [p.id] else [])
    ensures Publications(HandleDataProvider(p)) == p.emits
    ensures Retries(HandleDataProvider(p)) == [] && WorkOnly(HandleDataProvider(p))
    ensures InsideOnly(HandleDataProvider(p))
  {
    var during := ProviderOnDataReceived(p.emits);
    var caught := if p.fails then [ProviderErrorLogged(p.id)] else [];
    var t := [Subscribed(p.id)] + during + caught + [Unsubscribed(p.id)];
    assert HandleDataProvider(p) == t;
    HandleScoped(p, during, caught);
    RelayCollects(p.emits);
    HandleWho(p, during, caught, t);
    HandleWhat(p, during, caught, t);
    HandleKinds(p, during, caught, t);
  }

  /** Who a handled provider subscribes and logs as failing. */
  lemma HandleWho(p: Provider, during: seq<Event>, caught: seq<Event>, t: seq<Event>)
    requires during == ProviderOnDataReceived(p.emits)
    requires Subscriptions(during) == [] && ProviderErrors(during) == []
    requires caught == if p.fails then [ProviderErrorLogged(p.id)] else []
    requires t == [Subscribed(p.id)] + during + caught + [Unsubscribed(p.id)]
    ensures Subscriptions(t) == [p.id]
    ensures ProviderErrors(t) == (if p.fails then [p.id] else [])
  {
    CollectFour([Subscribed(p.id)], during, caught, [Unsubscribed(p.id)], SubscribedOf);
    CollectFour([Subscribed(p.id)], during, caught, [Unsubscribed(p.id)], ProviderErrorOf);
  }

  /** What a handled provider publishes, and that it logs no retry. */
  lemma HandleWhat(p: Provider, during: seq<Event>, caught: seq<Event>, t: seq<Event>)
    requires during == ProviderOnDataReceived(p.emits)
    requires Publications(during) == p.emits && Retries(during) == []
    requires caught == if p.fails then [ProviderErrorLogged(p.id)] else []
    requires t == [Subscribed(p.id)] + during + caught + [Unsubscribed(p.id)]
    ensures Publications(t) == p.emits
    ensures Retries(t) == []
  {
    assert forall i :: 0 <= i < |caught| ==> !caught[i].Published? && !caught[i].RetryWarningLogged?;
    CollectNone(caught, PublishedOf);
    CollectNone(caught, RetryOf);
    CollectNone([Subscribed(p.id)], PublishedOf);
    CollectNone([Subscribed(p.id)], RetryOf);
    CollectNone([Unsubscribed(p.id)], PublishedOf);
    CollectNone([Unsubscribed(p.id)], RetryOf);
    CollectFour([Subscribed(p.id)], during, caught, [Unsubscribed(p.id)], RetryOf);
    CollectFour([Subscribed(p.id)], during, caught, [Unsubscribed(p.id)], PublishedOf);
    var none: seq<Message> := [];
    assert none + p.emits + none + none == p.emits;
  }

  /** A handled provider emits no driver event, and nothing outside its call. */
  lemma HandleKinds(p: Provider, during: seq<Event>, caught: seq<Event>, t: seq<Event>)
    requires forall i :: 0 <= i < |during| ==> during[i].Published?
    requires caught == if p.fails then [ProviderErrorLogged(p.id)] else []
    requires t == [Subscribed(p.id)] + during + caught + [Unsubscribed(p.id)]
    ensures WorkOnly(t) && InsideOnly(t)
  {
  }

  lemma HandleScoped(p: Provider, during: seq<Event>, caught: seq<Event>)
    requires during == ProviderOnDataReceived(p.emits)
    requires caught == if p.fails then [ProviderErrorLogged(p.id)] else []
    ensures ScopedWith([Subscribed(p.id)] + during + caught + [Unsubscribed(p.id)], DeliveriesOf(p))
  {
    var a := Attached(p.id);
    var none: seq<Delivery> := [];
    var enter := [Subscribed(p.id)];
    var leave := [Unsubscribed(p.id)];
    RelayWhileAttached(p.id, p.emits);
    ReplaySingle(Detached, Subscribed(p.id), a);
    ReplaySingle(a, Unsubscribed(p.id), Detached);
    if p.fails {
      ReplaySingle(a, ProviderErrorLogged(p.id), a);
    }
    assert Replay(a, caught) == Some(Audit(a, none));
    ReplayThrough(Detached, enter, a, none, during, a, DeliveriesOf(p));
    ReplayThrough(Detached, enter + during, a, none + DeliveriesOf(p), caught, a, none);
    ReplayThrough(Detached, enter + during + caught, a, none + DeliveriesOf(p) + none, leave, Detached, none);
    assert none + DeliveriesOf(p) + none + none == DeliveriesOf(p);
  }

  /** Replaying two traces back to back composes their listeners and deliveries. */
  lemma ReplayThrough(l1: Listener, x: seq<Event>, l2: Listener, dx: seq<Delivery>, y: seq<Event>, l3: Listener, dy: seq<Delivery>)
    requires Replay(l1, x) == Some(Audit(l2, dx))
    requires Replay(l2, y) == Some(Audit(l3, dy))
    ensures Replay(l1, x + y) == Some(Audit(l3, dx + dy))
  {
    ReplayAppend(l1, x, y);
  }

  /** Replaying one event that delivers nothing moves the listener by one step. */
  lemma ReplaySingle(l: Listener, e: Event, next: Listener)
    requires Step(l, e) == Some(next) && !e.Published?
    ensures Replay(l, [e]) == Some(Audit(next, []))
  {
    var none: seq<Delivery> := [];
    assert [e][1..] == [];
    assert Replay(next, []) == Some(Audit(next, none));
    assert Delivered(l, e) == none;
    assert Delivered(l, e) + none == none;
  }

  lemma CollectFour<X>(a: seq<Event>, b: seq<Event>, c: seq<Event>, d: seq<Event>, pick: Event -> Option<X>)
    ensures Collect(a + b + c + d, pick) == Collect(a, pick) + Collect(b, pick) + Collect(c, pick) + Collect(d, pick)
  {
    CollectAppend(a, b, pick);
    CollectAppend(a + b, c, pick);
    CollectAppend(a + b + c, d, pick);
  }

  /** Relayed messages, replayed under an attached handler, are delivered on its behalf. */
  lemma {:induction false} RelayWhileAttached(id: ProviderId, ms: seq<Message>)
    ensures Replay(Attached(id), ProviderOnDataReceived(ms)) == Some(Audit(Attached(id), Tagged(id, ms)))
    decreases |ms|
  {
    var t := ProviderOnDataReceived(ms);
    if |ms| > 0 {
      RelayWhileAttached(id, ms[1..]);
      assert t[0] == Published(ms[0]);
      assert t[1..] == ProviderOnDataReceived(ms[1..]);
    } else {
      var none: seq<Delivery> := [];
      assert Tagged(id, ms) == none;
    }
  }

  /** A relay holds only publications. */
  lemma {:induction false} RelayCollects(ms: seq<Message>)
    ensures Subscriptions(ProviderOnDataReceived(ms)) == []
    ensures ProviderErrors(ProviderOnDataReceived(ms)) == []
    ensures Retries(ProviderOnDataReceived(ms)) == []
    ensures Publications(ProviderOnDataReceived(ms)) == ms
    ensures WorkOnly(ProviderOnDataReceived(ms))
    ensures forall i :: 0 <= i < |ms| ==> ProviderOnDataReceived(ms)[i].Published?
    decreases |ms|
  {
    if |ms| > 0 {
      var t := ProviderOnDataReceived(ms);
      RelayCollects(ms[1..]);
      assert t[1..] == ProviderOnDataReceived(ms[1..]);
      assert ms == [ms[0]] + ms[1..];
    }
  }

  /** The provider identifiers in enumeration order. */
  function Ids(ps: seq<Provider>): (ids: seq<ProviderId>)
    ensures |ids| == |ps|
    ensures forall i :: 0 <= i < |ps| ==> ids[i] == ps[i].id
    decreases |ps|
  {
    if |ps| == 0 then [] else Ids(ps[..|ps| - 1]) + [ps[|ps| - 1].id]
  }

  /** The identifiers of the providers whose GetData throws, in enumeration order. */
  function FailingIds(ps: seq<Provider>): seq<ProviderId>
    decreases |ps|
  {
    if |ps| == 0 then []
    else FailingIds(ps[..|ps| - 1]) + (if ps[|ps| - 1].fails then [ps[|ps| - 1].id] else [])
  }

  /** Everything the providers raise during their GetData calls, tagged and in order. */
  function AllDeliveries(ps: seq<Provider>): seq<Delivery>
    decreases |ps|
  {
    if |ps| == 0 then [] else AllDeliveries(ps[..|ps| - 1]) + DeliveriesOf(ps[|ps| - 1])
  }

  /**
   The foreach over the enumerated providers. Each provider is handled once, in
   order, whether or not an earlier one failed.
   */
  function RunProviders(ps: seq<Provider>): (t: seq<Event>)
    ensures |t| >= 2 * |ps|
    ensures Subscriptions(t) == Ids(ps)
    ensures |ps| > 0 ==> t[|t| - 1] == Unsubscribed(ps[|ps| - 1].id)
    decreases |ps|
  {
    if |ps| == 0 then []
    else
      var init := RunProviders(ps[..|ps| - 1]);
      var h := HandleDataProvider(ps[|ps| - 1]);
      HandleDataProviderFacts(ps[|ps| - 1]);
      CollectAppend(init, h, SubscribedOf);
      init + h
  }

  /**
   The provider loop subscribes to every provider once in enumeration order,
   logs exactly the failing ones, and every message raised during a GetData
   call is delivered on behalf of that provider.
   */
  lemma {:induction false} RunProvidersFacts(ps: seq<Provider>)
    ensures ScopedWith(RunProviders(ps), AllDeliveries(ps))
    ensures Subscriptions(RunProviders(ps)) == Ids(ps)
    ensures ProviderErrors(RunProviders(ps)) == FailingIds(ps)
    ensures Retries(RunProviders(ps)) == [] && WorkOnly(RunProviders(ps))
    ensures InsideOnly(RunProviders(ps))
    decreases |ps|
  {
    if |ps| == 0 {
      var none: seq<Delivery> := [];
      assert Replay(Detached, []) == Some(Audit(Detached, none));
    } else {
      RunProvidersFacts(ps[..|ps| - 1]);
      RunProvidersStep(ps, RunProviders(ps[..|ps| - 1]));
    }
  }

  /** The contract of the loop carries over one more handled provider. */
  lemma RunProvidersStep(ps: seq<Provider>, before: seq<Event>)
    requires |ps| > 0
    requires ScopedWith(before, AllDeliveries(ps[..|ps| - 1]))
    requires Subscriptions(before) == Ids(ps[..|ps| - 1])
    requires ProviderErrors(before) == FailingIds(ps[..|ps| - 1])
    requires Retries(before) == [] && WorkOnly(before) && InsideOnly(before)
    ensures ScopedWith(before + HandleDataProvider(ps[|ps| - 1]), AllDeliveries(ps))
    ensures Subscriptions(before + HandleDataProvider(ps[|ps| - 1])) == Ids(ps)
    ensures ProviderErrors(before + HandleDataProvider(ps[|ps| - 1])) == FailingIds(ps)
    ensures Retries(before + HandleDataProvider(ps[|ps| - 1])) == []
    ensures WorkOnly(before + HandleDataProvider(ps[|ps| - 1]))
    ensures InsideOnly(before + HandleDataProvider(ps[|ps| - 1]))
  {
    var init := ps[..|ps| - 1];
    var last := ps[|ps| - 1];
    var h := HandleDataProvider(last);
    HandleDataProviderFacts(last);
    ScopedConcat(before, AllDeliveries(init), h, DeliveriesOf(last));
    CollectAppend(before, h, SubscribedOf);
    CollectAppend(before, h, ProviderErrorOf);
    CollectAppend(before, h, RetryOf);
    WorkOnlyAppend(before, h);
    InsideOnlyAppend(before, h);
  }

  /** A pass cut short before provider `k` has produced a prefix of the full run. */
  lemma {:induction false} RunProvidersPrefix(ps: seq<Provider>, k: nat)
    requires k <= |ps|
    ensures RunProviders(ps[..k]) <= RunProviders(ps)
    decreases |ps|
  {
    if k < |ps| {
      var init := ps[..|ps| - 1];
      RunProvidersPrefix(init, k);
      assert init[..k] == ps[..k];
      var short := RunProviders(ps[..k]);
      var mid := RunProviders(init);
      var full := RunProviders(ps);
      assert full == mid + HandleDataProvider(ps[|ps| - 1]);
      assert short <= mid;
      assert mid <= full;
    } else {
      assert ps[..k] == ps;
    }
  }

  /** Everything the providers raise during GetData, in enumeration order. */
  function AllEmits(ps: seq<Provider>): seq<Message>
    decreases |ps|
  {
    if |ps| == 0 then [] else AllEmits(ps[..|ps| - 1]) + ps[|ps| - 1].emits
  }

  /**
   The bus receives exactly the messages raised during the GetData calls,
   unchanged and in emission order; nothing raised after a call returned.
   */
  lemma PublishedInEmissionOrder(ps: seq<Provider>)
    ensures Publications(RunProviders(ps)) == AllEmits(ps)
  {
    RunProvidersFacts(ps);
    PublicationsDelivered(Detached, RunProviders(ps));
    DeliveredMessages(ps);
  }

  lemma {:induction false} DeliveredMessages(ps: seq<Provider>)
    ensures Messages(AllDeliveries(ps)) == AllEmits(ps)
    decreases |ps|
  {
    if |ps| > 0 {
      var init := ps[..|ps| - 1];
      var last := ps[|ps| - 1];
      DeliveredMessages(init);
      MessagesAppend(AllDeliveries(init), DeliveriesOf(last));
      assert Messages(DeliveriesOf(last)) == last.emits;
    }
  }
}
