/**
 * Subscriber notifications and the registries that fan them out
 * (src/statomata/subscriber.py and src/statomata/subscriber/registry.py).
 */
module Subscribers {
  import opened Errors

  /** One call on a subscriber with the older names that the executor uses. */
  datatype Notification<S, U, V> =
    | Start(state: S)
    | StateStart(state: S, income: U)
    | StateOutcome(state: S, income: U, outcome: V)
    | StateFinish(state: S, income: U)
    | StateError(state: S, error: Error)
    | TransitionMade(source: S, destination: S)
    | Finish(state: S)

  /** A delivery of notification `event` to subscriber `subscriber`. */
  datatype Delivery<Sub, E> = Delivery(subscriber: Sub, event: E)

  /** The subscribers that the deliveries reach. */
  function Receivers<Sub, E>(calls: seq<Delivery<Sub, E>>): (r: set<Sub>)
    ensures forall i :: 0 <= i < |calls| ==> calls[i].subscriber in r
  {
    if calls == [] then {}
    else Receivers(calls[..|calls| - 1]) + {calls[|calls| - 1].subscriber}
  }

  /** No subscriber is reached twice. */
  ghost predicate Distinct<Sub, E>(calls: seq<Delivery<Sub, E>>) {
    forall i, j :: 0 <= i < j < |calls| ==> calls[i].subscriber != calls[j].subscriber
  }

  /**
   * A set of subscribers: both registries keep their subscribers in a Python
   * `set`, so every subscriber is held at most once. `E` is the notification
   * type; both registries forward every notification unchanged to each
   * subscriber, whatever its method is called.
   */
  class SubscriberRegistry<Sub(==), E> {
    var subscribers: set<Sub>

    /** `__init__(*subscribers)`: duplicates collapse into one member. */
    constructor (subs: seq<Sub>)
      ensures subscribers == set s | s in subs
    {
      subscribers := set s | s in subs;
    }

    /** `register(*subscribers)`: a set union; registering a member again changes nothing. */
    method Register(subs: seq<Sub>)
      modifies this
      ensures subscribers == old(subscribers) + set s | s in subs
    {
      subscribers := subscribers + set s | s in subs;
    }

    /** `unregister(*subscribers)`: a set difference; absent ones are ignored. */
    method Unregister(subs: seq<Sub>)
      modifies this
      ensures subscribers == old(subscribers) - set s | s in subs
    {
      subscribers := subscribers - set s | s in subs;
    }

    /**
     * Every `notify_*` method: the loop over the set forwards the unchanged
     * notification to each registered subscriber exactly once, in the
     * set's iteration order (which is not specified).
     */
    method Notify(event: E) returns (calls: seq<Delivery<Sub, E>>)
      ensures Receivers(calls) == subscribers
      ensures Distinct(calls)
      ensures |calls| == |subscribers|
      ensures forall i :: 0 <= i < |calls| ==> calls[i].event == event
    {
      var rest := subscribers;
      calls := [];
      while rest != {}
        invariant rest <= subscribers
        invariant Receivers(calls) == subscribers - rest
        invariant Distinct(calls)
        invariant |calls| + |rest| == |subscribers|
        invariant forall i :: 0 <= i < |calls| ==> calls[i].event == event
        decreases rest
      {
        var s :| s in rest;
        assert s !in Receivers(calls);
        ghost var before := calls;
        calls := calls + [Delivery(s, event)];
        assert calls[..|calls| - 1] == before;
        rest := rest - {s};
      }
    }
  }
}
