/**
 The data-received handler as an explicit listener state. Replaying a trace
 says whether every subscription is undone, whether each message was published
 while a handler was attached, and on whose behalf: a delivery pairs the
 attached provider with the message it relayed.
 */
module Scope {
  import opened Wrappers
  import opened Events

  datatype Listener = Detached | Attached(provider: ProviderId)

  datatype Delivery = Delivery(provider: ProviderId, message: Message)

  /** Where a replay ends and what it delivered on the way. */
  datatype Audit = Audit(listener: Listener, deliveries: seq<Delivery>)

  /**
   One event against the listener state; None when the event could not have
   happened there. Messages and provider errors occur only inside a provider's
   call; every other event occurs only while no handler is attached.
   */
  function Step(l: Listener, e: Event): Option<Listener> {
    match e
    case Subscribed(p) => if l.Detached? then Some(Attached(p)) else None
    case Unsubscribed(p) => if l == Attached(p) then Some(Detached) else None
    case Published(_) => if l.Attached? then Some(l) else None
    case ProviderErrorLogged(p) => if l == Attached(p) then Some(l) else None
    case _ => if l.Detached? then Some(l) else None
  }

  function Delivered(l: Listener, e: Event): seq<Delivery> {
    if e.Published? && l.Attached? then [Delivery(l.provider, e.message)] else []
  }

  function Replay(l: Listener, t: seq<Event>): Option<Audit>
    decreases |t|
  {
    if |t| == 0 then Some(Audit(l, []))
    else
      match Step(l, t[0])
      case None => None
      case Some(next) =>
        match Replay(next, t[1..])
        case None => None
        case Some(rest) => Some(Audit(rest.listener, Delivered(l, t[0]) + rest.deliveries))
  }

  /** Continues a replay that ended in `first` with the events `b`. */
  function Chain(first: Option<Audit>, b: seq<Event>): Option<Audit> {
    match first
    case None => None
    case Some(x) =>
      match Replay(x.listener, b)
      case None => None
      case Some(y) => Some(Audit(y.listener, x.deliveries + y.deliveries))
  }

  /** A trace that starts and ends with no handler attached and delivers `ds`. */
  predicate ScopedWith(t: seq<Event>, ds: seq<Delivery>) {
    Replay(Detached, t) == Some(Audit(Detached, ds))
  }

  /** The messages of a sequence of deliveries. */
  function Messages(ds: seq<Delivery>): (ms: seq<Message>)
    ensures |ms| == |ds|
    ensures forall i :: 0 <= i < |ds| ==> ms[i] == ds[i].message
  {
    if |ds| == 0 then [] else [ds[0].message] + Messages(ds[1..])
  }

  lemma {:induction false} ReplayAppend(l: Listener, a: seq<Event>, b: seq<Event>)
    ensures Replay(l, a + b) == Chain(Replay(l, a), b)
    decreases |a|
  {
    if |a| == 0 {
      assert a + b == b;
      match Replay(l, b)
      case None =>
      case Some(y) =>
        assert [] + y.deliveries == y.deliveries;
    } else {
      assert (a + b)[0] == a[0];
      assert (a + b)[1..] == a[1..] + b;
      match Step(l, a[0])
      case None =>
      case Some(next) =>
        ReplayAppend(next, a[1..], b);
        var d := Delivered(l, a[0]);
        match Replay(next, a[1..])
        case None =>
        case Some(rest) =>
          match Replay(rest.listener, b)
          case None =>
          case Some(y) =>
            assert d + (rest.deliveries + y.deliveries) == (d + rest.deliveries) + y.deliveries;
    }
  }

  /** Two scoped traces run back to back form a scoped trace delivering both in turn. */
  lemma ScopedConcat(a: seq<Event>, da: seq<Delivery>, b: seq<Event>, db: seq<Delivery>)
    requires ScopedWith(a, da) && ScopedWith(b, db)
    ensures ScopedWith(a + b, da + db)
  {
    ReplayAppend(Detached, a, b);
  }

  /** Starts and ends with no handler attached, whatever it delivers. */
  predicate Scoped(t: seq<Event>) {
    Replay(Detached, t).Some? && Replay(Detached, t).value.listener == Detached
  }

  /** An event that belongs to no provider call. */
  predicate Outside(e: Event) {
    !(e.Subscribed? || e.Unsubscribed? || e.Published? || e.ProviderErrorLogged?)
  }

  /** Every event of `t` belongs to some provider call. */
  predicate InsideOnly(t: seq<Event>) {
    forall i :: 0 <= i < |t| ==> !Outside(t[i])
  }

  lemma InsideOnlyAppend(a: seq<Event>, b: seq<Event>)
    requires InsideOnly(a) && InsideOnly(b)
    ensures InsideOnly(a + b)
  {
    forall i | 0 <= i < |a + b|
      ensures !Outside((a + b)[i])
    {
      if i < |a| {
        assert (a + b)[i] == a[i];
      } else {
        assert (a + b)[i] == b[i - |a|];
      }
    }
  }

  /** An event outside every provider call does not occur in a trace of provider calls. */
  lemma OutsideNotInside(t: seq<Event>, e: Event)
    requires InsideOnly(t) && Outside(e)
    ensures e !in t
  {
    assert forall i :: 0 <= i < |t| ==> t[i] != e;
  }

  /** A trace of events outside provider calls is scoped and delivers nothing. */
  lemma {:induction false} QuietScoped(t: seq<Event>)
    requires forall i :: 0 <= i < |t| ==> Outside(t[i])
    ensures ScopedWith(t, [])
    decreases |t|
  {
    var none: seq<Delivery> := [];
    if |t| > 0 {
      ScopedOutside(t[0]);
      assert forall i :: 0 <= i < |t[1..]| ==> t[1..][i] == t[i + 1];
      QuietScoped(t[1..]);
      ScopedConcat([t[0]], none, t[1..], none);
      assert [t[0]] + t[1..] == t;
      assert none + none == none;
    } else {
      assert Replay(Detached, t) == Some(Audit(Detached, none));
    }
  }

  /** An event outside any provider call keeps a trace scoped and delivers nothing. */
  lemma ScopedOutside(e: Event)
    requires Outside(e)
    ensures ScopedWith([e], [])
  {
    var none: seq<Delivery> := [];
    assert [e][0] == e && [e][1..] == [];
    assert Delivered(Detached, e) + none == none;
  }

  /** In a scoped trace, the published messages are exactly the delivered ones. */
  lemma {:induction false} PublicationsDelivered(l: Listener, t: seq<Event>)
    requires Replay(l, t).Some?
    ensures Publications(t) == Messages(Replay(l, t).value.deliveries)
    decreases |t|
  {
    if |t| > 0 {
      var next := Step(l, t[0]).value;
      PublicationsDelivered(next, t[1..]);
      var rest := Replay(next, t[1..]).value.deliveries;
      MessagesAppend(Delivered(l, t[0]), rest);
    }
  }

  lemma MessagesAppend(a: seq<Delivery>, b: seq<Delivery>)
    ensures Messages(a + b) == Messages(a) + Messages(b)
  {
  }
}
