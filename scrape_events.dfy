/** The per-session event bus (`ScrapeEventEmitter`): a map from session id to
    the set of listeners currently registered for it. Events are delivered
    synchronously to the listeners registered at the moment of `emit` and are
    never buffered. */
module ScrapeEvents {
  import opened Common
  import opened Narration

  datatype EventType = Start | Progress | Success | Error {
    predicate IsTerminal() { this == Success || this == Error }
  }

  /** The optional `data` payload of an event; every member is optional. */
  datatype EventData = EventData(postsScraped: Option<nat>, totalPosts: Option<nat>, currentPost: Option<string>)

  const NoData := EventData(None, None, None)

  /** `Omit<ScrapeEvent, "timestamp">`: what a producer hands to `emit`. */
  datatype EventBody = EventBody(kind: EventType, message: Message, data: Option<EventData>)

  /** A `ScrapeEvent`: the body stamped with an ISO-8601 timestamp. */
  datatype ScrapeEvent = ScrapeEvent(kind: EventType, message: Message, timestamp: string, data: Option<EventData>)

  function Stamp(body: EventBody, timestamp: string): (e: ScrapeEvent)
    ensures e.kind == body.kind && e.message == body.message && e.data == body.data
    ensures e.timestamp == timestamp
  {
    ScrapeEvent(body.kind, body.message, timestamp, body.data)
  }

  /** A listener is a callback; the model knows it only by its identity, which
      is what a JavaScript `Set` compares. */
  type ListenerId = nat

  /** One call of a listener during `emit`; `threw` records that the listener
      raised an exception, which `emit` caught and logged. */
  datatype Delivery = Delivery(listener: ListenerId, event: ScrapeEvent, threw: bool)

  type Registry = map<string, set<ListenerId>>

  /** The bus invariant: a session key never maps to an empty set. */
  ghost predicate NoEmptySessions(m: Registry) {
    forall s :: s in m ==> m[s] != {}
  }

  /** The listeners of session `s` (none when `s` has no entry). */
  function ListenersOf(m: Registry, s: string): set<ListenerId> {
    if s in m then m[s] else {}
  }

  /** The registry after `subscribe(s, l)`. */
  function Subscribed(m: Registry, s: string, l: ListenerId): (r: Registry)
    ensures ListenersOf(r, s) == ListenersOf(m, s) + {l}
    ensures forall t :: t != s ==> ListenersOf(r, t) == ListenersOf(m, t)
    ensures NoEmptySessions(m) ==> NoEmptySessions(r)
  {
    m[s := ListenersOf(m, s) + {l}]
  }

  /** The registry after `unsubscribe(s, l)`: the key is evicted once its set
      becomes empty. */
  function Unsubscribed(m: Registry, s: string, l: ListenerId): (r: Registry)
    ensures ListenersOf(r, s) == ListenersOf(m, s) - {l}
    ensures forall t :: t != s ==> ListenersOf(r, t) == ListenersOf(m, t)
    ensures NoEmptySessions(m) ==> NoEmptySessions(r)
    ensures s in r <==> ListenersOf(m, s) - {l} != {}
  {
    if s !in m then m
    else
      var rest := m[s] - {l};
      if rest == {} then m - {s} else m[s := rest]
  }

  /** The set of listeners reached by a sequence of deliveries. */
  function Reached(ds: seq<Delivery>): set<ListenerId> {
    set i | 0 <= i < |ds| :: ds[i].listener
  }

  lemma ReachedAppend(ds: seq<Delivery>, d: Delivery)
    ensures Reached(ds + [d]) == Reached(ds) + {d.listener}
  {
    var ds' := ds + [d];
    assert ds'[|ds|] == d;
    forall x | x in Reached(ds) ensures x in Reached(ds') {
      var i :| 0 <= i < |ds| && ds[i].listener == x;
      assert ds'[i] == ds[i];
    }
  }

  /** No listener is called twice by one `emit`. */
  predicate AtMostOnce(ds: seq<Delivery>) {
    forall i, j :: 0 <= i < j < |ds| ==> ds[i].listener != ds[j].listener
  }

  class ScrapeEventEmitter {
    var listeners: Registry

    ghost predicate Valid()
      reads this
    {
      NoEmptySessions(listeners)
    }

    constructor ()
      ensures Valid() && listeners == map[]
    {
      listeners := map[];
    }

    /** Registers `l` for session `s`, creating the session's set on first use. */
    method Subscribe(s: string, l: ListenerId)
      requires Valid()
      modifies this
      ensures Valid()
      ensures listeners == Subscribed(old(listeners), s, l)
    {
      if s !in listeners {
        listeners := listeners[s := {}];
      }
      listeners := listeners[s := listeners[s] + {l}];
    }

    /** Removes `l` from session `s`; evicts the key once its set is empty.
        An unknown session or an absent listener changes nothing. */
    method Unsubscribe(s: string, l: ListenerId)
      requires Valid()
      modifies this
      ensures Valid()
      ensures listeners == Unsubscribed(old(listeners), s, l)
    {
      if s in listeners {
        var sessionListeners := listeners[s] - {l};
        listeners := listeners[s := sessionListeners];
        if |sessionListeners| == 0 {
          listeners := listeners - {s};
        }
      }
    }

    /** Stamps `body` with `timestamp` and calls every listener of `s` once with
        the same event. The listeners in `throwing` raise; the exception is
        caught, recorded in the delivery, and delivery goes on. */
    method Emit(s: string, body: EventBody, timestamp: string, throwing: set<ListenerId>)
      returns (deliveries: seq<Delivery>)
      ensures Reached(deliveries) == ListenersOf(listeners, s)
      ensures AtMostOnce(deliveries)
      ensures forall i :: 0 <= i < |deliveries| ==> deliveries[i].event == Stamp(body, timestamp)
      ensures forall i :: 0 <= i < |deliveries| ==> (deliveries[i].threw <==> deliveries[i].listener in throwing)
    {
      deliveries := [];
      if s !in listeners {
        return;
      }
      var fullEvent := Stamp(body, timestamp);
      var pending := listeners[s];
      while pending != {}
        invariant pending <= listeners[s]
        invariant Reached(deliveries) == listeners[s] - pending
        invariant AtMostOnce(deliveries)
        invariant forall i :: 0 <= i < |deliveries| ==> deliveries[i].event == fullEvent
        invariant forall i :: 0 <= i < |deliveries| ==> (deliveries[i].threw <==> deliveries[i].listener in throwing)
        decreases pending
      {
        var listener :| listener in pending;
        var threw := listener in throwing;
        ReachedAppend(deliveries, Delivery(listener, fullEvent, threw));
        deliveries := deliveries + [Delivery(listener, fullEvent, threw)];
        pending := pending - {listener};
      }
    }

    /** `hasListeners(s)`; under the invariant, exactly "s has an entry". */
    method HasListeners(s: string) returns (r: bool)
      requires Valid()
      ensures r <==> s in listeners
      ensures r <==> ListenersOf(listeners, s) != {}
    {
      r := s in listeners && |listeners[s]| > 0;
    }
  }

  // ---------------------------------------------------------------------------
  // Properties of the registry operations
  // ---------------------------------------------------------------------------

  /** Listeners form a set: subscribing the same listener twice is the same as once. */
  lemma SubscribeIdempotent(m: Registry, s: string, l: ListenerId)
    ensures Subscribed(Subscribed(m, s, l), s, l) == Subscribed(m, s, l)
  {
    assert ListenersOf(m, s) + {l} + {l} == ListenersOf(m, s) + {l};
  }

  /** Unsubscribing a listener that was just subscribed (and was not there
      before) restores the registry exactly, key eviction included. */
  lemma SubscribeThenUnsubscribe(m: Registry, s: string, l: ListenerId)
    requires NoEmptySessions(m)
    requires l !in ListenersOf(m, s)
    ensures Unsubscribed(Subscribed(m, s, l), s, l) == m
  {
    var r := Unsubscribed(Subscribed(m, s, l), s, l);
    assert (ListenersOf(m, s) + {l}) - {l} == ListenersOf(m, s);
    forall t | t in m ensures t in r && r[t] == m[t] {
      assert ListenersOf(r, t) == ListenersOf(m, t);
    }
    forall t | t in r ensures t in m {
      assert ListenersOf(r, t) == ListenersOf(m, t);
    }
  }

  /** Unsubscribing from an unknown session, or a listener that is not
      registered, leaves the registry as it was. */
  lemma UnsubscribeAbsent(m: Registry, s: string, l: ListenerId)
    requires NoEmptySessions(m)
    requires l !in ListenersOf(m, s)
    ensures Unsubscribed(m, s, l) == m
  {
    if s in m {
      assert m[s] - {l} == m[s];
    }
  }

  /** After `subscribe(s, l)` an `emit` on `s` reaches `l`, and after
      `unsubscribe(s, l)` it does not; the other listeners it reaches are
      those registered before. `afterSubscribe` and `afterUnsubscribe` are the
      deliveries of such emits, as `Emit` returns them on the new registries. */
  lemma DeliveryFollowsRegistration(m: Registry, s: string, l: ListenerId,
                                    afterSubscribe: seq<Delivery>, afterUnsubscribe: seq<Delivery>)
    requires Reached(afterSubscribe) == ListenersOf(Subscribed(m, s, l), s)
    requires Reached(afterUnsubscribe) == ListenersOf(Unsubscribed(m, s, l), s)
    ensures exists i :: 0 <= i < |afterSubscribe| && afterSubscribe[i].listener == l
    ensures forall i :: 0 <= i < |afterUnsubscribe| ==> afterUnsubscribe[i].listener != l
    ensures forall x :: x != l ==>
      (x in Reached(afterSubscribe) <==> x in ListenersOf(m, s)) &&
      (x in Reached(afterUnsubscribe) <==> x in ListenersOf(m, s))
  {
    assert l in Reached(afterSubscribe);
    forall i | 0 <= i < |afterUnsubscribe| ensures afterUnsubscribe[i].listener != l {
      assert afterUnsubscribe[i].listener in Reached(afterUnsubscribe);
    }
  }

  /** One emit calls each listener exactly once: as many deliveries as listeners. */
  lemma {:induction false} DeliveryCount(ds: seq<Delivery>)
    requires AtMostOnce(ds)
    ensures |Reached(ds)| == |ds|
  {
    if ds != [] {
      var front := ds[..|ds| - 1];
      assert AtMostOnce(front);
      DeliveryCount(front);
      ReachedAppend(front, ds[|ds| - 1]);
      assert front + [ds[|ds| - 1]] == ds;
      assert ds[|ds| - 1].listener !in Reached(front);
    }
  }
}
