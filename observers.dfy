/**
 * Subscriber lists as both manager classes keep them. A callback is known by
 * its identity (JavaScript compares callbacks by reference); calling it is
 * recorded as a delivery of a payload to that subscriber.
 */
module Observers {
  import Seqs

  /** The identity of a subscribed callback. */
  type Subscriber = nat

  /** One invocation `cb(payload)`. */
  datatype Delivery<P> = Delivery(subscriber: Subscriber, payload: P)

  /** What one `subscribers.forEach(cb => cb(payload))` performs, in call order. */
  function Deliveries<P>(subscribers: seq<Subscriber>, payload: P): (r: seq<Delivery<P>>)
    ensures |r| == |subscribers|
    ensures forall i :: 0 <= i < |r| ==> r[i] == Delivery(subscribers[i], payload)
  {
    if subscribers == [] then []
    else Deliveries(subscribers[..|subscribers| - 1], payload) + [Delivery(subscribers[|subscribers| - 1], payload)]
  }

  /** `subscribers.filter(cb => cb !== callback)`. */
  function Without(subscribers: seq<Subscriber>, callback: Subscriber): (r: seq<Subscriber>)
    ensures callback !in r
    ensures forall s :: s in r <==> s in subscribers && s != callback
  {
    Seqs.Filter(subscribers, s => s != callback)
  }

  /** Unsubscribing keeps the other subscribers in their order of subscription. */
  lemma WithoutKeepsOrder(a: seq<Subscriber>, b: seq<Subscriber>, callback: Subscriber)
    ensures Without(a + b, callback) == Without(a, callback) + Without(b, callback)
  {
    Seqs.FilterConcat(a, b, s => s != callback);
  }

  /** After unsubscribing, a notification reaches every other subscriber and never the removed one. */
  lemma UnsubscribedIsNotNotified<P>(subscribers: seq<Subscriber>, callback: Subscriber, payload: P)
    ensures forall d :: d in Deliveries(Without(subscribers, callback), payload) ==> d.subscriber != callback
    ensures forall s :: s in subscribers && s != callback ==>
      Delivery(s, payload) in Deliveries(Without(subscribers, callback), payload)
  {
    var rest := Without(subscribers, callback);
    var ds := Deliveries(rest, payload);
    forall s | s in subscribers && s != callback
      ensures Delivery(s, payload) in ds
    {
      var i :| 0 <= i < |rest| && rest[i] == s;
      assert ds[i] == Delivery(s, payload);
    }
  }
}
