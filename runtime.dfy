/** The distributed-application runtime every service talks to, reduced to
    what the handlers can observe: one key-value state store, and a trace of
    every call made to the runtime (saves, deletes, publications, service
    invocations) together with the handlers' simulated waits. */
module Runtime {
  import opened Orders

  // Names the services use when talking to the runtime.
  const PubSubName := "pizzapubsub"
  const TopicName := "order"
  const KitchenApp := "pizza-kitchen"
  const CookRoute := "cook"
  const DeliveryApp := "pizza-delivery"
  const DeliverRoute := "deliver"

  /** The text a handler hands to the state store, kept as the order it
      renders: canonical JSON text, or Python's `str()` of the dictionary. */
  datatype Stored = JsonText(order: Order) | ReprText(order: Order)

  /** One observable step of a handler. */
  datatype Effect =
    | Saved(key: string, value: Stored)
    | Deleted(key: string)
    | Published(pubsub: string, topic: string, payload: Order)
    | Invoked(app: string, route: string, payload: Order)
    | Slept(ms: nat)

  /** What a handler answers over HTTP. */
  datatype Reply =
    | OrderIdBody(orderId: string)          // 200 {"orderId": id}
    | SuccessTrue                           // 200 {"success": true}
    | SuccessTrueText                       // 200 {"success": "True"}
    | OrderBody(order: Order)               // 200 the order itself, as JSON
    | StoredTextBody(data: Option<Stored>)  // 200 the stored text as a JSON string ("" when nothing is stored)
    | EmptyOk                               // 200 with no body
    | MissingOrderId                        // 404 {"success": false, "message": "Missing order id"}
    | NotFound                              // 404 with no body
    | BadRequest                            // 400 with no body
    | Fault                                 // an exception escapes the handler before it has any effect

  /** The publication the services make: the whole order on topic `order`. */
  function Emit(o: Order): Effect {
    Published(PubSubName, TopicName, o)
  }

  /** The payload `e` publishes, if it is a publication. */
  function PublishedBy(e: Effect): seq<Order> {
    if e.Published? then [e.payload] else []
  }

  /** The payloads published, in order. */
  function Publications(t: seq<Effect>): seq<Order> {
    if t == [] then [] else PublishedBy(t[0]) + Publications(t[1..])
  }

  /** The invocation `e` makes, if it is one, as (app id, route, payload). */
  function InvokedBy(e: Effect): seq<(string, string, Order)> {
    if e.Invoked? then [(e.app, e.route, e.payload)] else []
  }

  /** The service invocations made, in order. */
  function Invocations(t: seq<Effect>): seq<(string, string, Order)> {
    if t == [] then [] else InvokedBy(t[0]) + Invocations(t[1..])
  }

  /** The wait `e` makes, if it is one, in milliseconds. */
  function DelayBy(e: Effect): seq<nat> {
    if e.Slept? then [e.ms] else []
  }

  /** The simulated waits, in milliseconds, in order. */
  function Delays(t: seq<Effect>): seq<nat> {
    if t == [] then [] else DelayBy(t[0]) + Delays(t[1..])
  }

  function Sum(s: seq<nat>): nat {
    if s == [] then 0 else s[0] + Sum(s[1..])
  }

  /** Every publication in `t` goes to pub/sub `pizzapubsub`, topic `order`. */
  predicate OnOrderTopic(t: seq<Effect>) {
    forall i | 0 <= i < |t| :: t[i].Published? ==> t[i].pubsub == PubSubName && t[i].topic == TopicName
  }

  lemma {:induction false} PublicationsAppend(a: seq<Effect>, b: seq<Effect>)
    ensures Publications(a + b) == Publications(a) + Publications(b)
  {
    if a == [] {
      assert a + b == b;
    } else {
      assert (a + b)[0] == a[0];
      assert (a + b)[1..] == a[1..] + b;
      PublicationsAppend(a[1..], b);
      assert Publications(a + b) == PublishedBy(a[0]) + Publications(a[1..] + b);
    }
  }

  lemma {:induction false} InvocationsAppend(a: seq<Effect>, b: seq<Effect>)
    ensures Invocations(a + b) == Invocations(a) + Invocations(b)
  {
    if a == [] {
      assert a + b == b;
    } else {
      assert (a + b)[0] == a[0];
      assert (a + b)[1..] == a[1..] + b;
      InvocationsAppend(a[1..], b);
      assert Invocations(a + b) == InvokedBy(a[0]) + Invocations(a[1..] + b);
    }
  }

  lemma {:induction false} DelaysAppend(a: seq<Effect>, b: seq<Effect>)
    ensures Delays(a + b) == Delays(a) + Delays(b)
  {
    if a == [] {
      assert a + b == b;
    } else {
      assert (a + b)[0] == a[0];
      assert (a + b)[1..] == a[1..] + b;
      DelaysAppend(a[1..], b);
      assert Delays(a + b) == DelayBy(a[0]) + Delays(a[1..] + b);
    }
  }

  lemma {:induction false} SumAppend(a: seq<nat>, b: seq<nat>)
    ensures Sum(a + b) == Sum(a) + Sum(b)
  {
    if a == [] {
      assert a + b == b;
    } else {
      assert (a + b)[0] == a[0];
      assert (a + b)[1..] == a[1..] + b;
      SumAppend(a[1..], b);
    }
  }

  /** The runtime as one object: its state store and the trace of calls. */
  class Sidecar {
    var store: map<string, Stored>
    var trace: seq<Effect>

    constructor ()
      ensures store == map[] && trace == []
    {
      store := map[];
      trace := [];
    }

    /** Save state: the key now holds the value. */
    method Save(key: string, value: Stored)
      modifies this
      ensures store == old(store)[key := value]
      ensures trace == old(trace) + [Saved(key, value)]
    {
      store := store[key := value];
      trace := trace + [Saved(key, value)];
    }

    /** Get state: the value held under the key, `None` when the key holds
        nothing (the runtime then answers with empty data). */
    method Get(key: string) returns (data: Option<Stored>)
      ensures key in store ==> data == Some(store[key])
      ensures key !in store ==> data == None
    {
      data := if key in store then Some(store[key]) else None;
    }

    /** Delete state: the key holds nothing, every other key is untouched. */
    method Delete(key: string)
      modifies this
      ensures store == old(store) - {key}
      ensures trace == old(trace) + [Deleted(key)]
    {
      store := store - {key};
      trace := trace + [Deleted(key)];
    }

    method Publish(pubsub: string, topic: string, payload: Order)
      modifies this
      ensures store == old(store)
      ensures trace == old(trace) + [Published(pubsub, topic, payload)]
    {
      trace := trace + [Published(pubsub, topic, payload)];
    }

    method Invoke(app: string, route: string, payload: Order)
      modifies this
      ensures store == old(store)
      ensures trace == old(trace) + [Invoked(app, route, payload)]
    {
      trace := trace + [Invoked(app, route, payload)];
    }

    /** A simulated wait (`time.sleep`, `Task.Delay`), in milliseconds. */
    method Sleep(ms: nat)
      modifies this
      ensures store == old(store)
      ensures trace == old(trace) + [Slept(ms)]
    {
      trace := trace + [Slept(ms)];
    }
  }
}
