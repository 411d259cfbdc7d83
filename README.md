# Pizza order lifecycle over a Dapr sidecar

This project models the order lifecycle of the pizza workshop. A pizza
**store** service accepts an order, gives it a fresh id and the status
"Sent to kitchen", and publishes it on the `order` topic of the
`pizzapubsub` broker. Its **subscriber** receives every order event. It
saves each snapshot to the `pizzastatestore` state store under the order
id. This is the only store, so the model's saves carry no store name. It then invokes the **kitchen** (`pizza-kitchen`, route `cook`) for
"Sent to kitchen" and **delivery** (`pizza-delivery`, route `deliver`) for
"Ready for delivery".

The kitchen publishes "Cooking" with a random preparation time, waits that
many seconds and publishes "Ready for delivery". Delivery publishes five
further statuses, each after a fixed wait:

| status | wait |
|---|---|
| Delivery started | 3 s |
| Order picked up by driver | 3 s |
| En-route | 5 s |
| Nearby | 5 s |
| Delivered | 5 s |

Every published event carries the whole order as a snapshot.

The model covers eleven handler files: the Python store, kitchen and
delivery of the completed workshop; the Python store of the pub/sub
challenge; the Python store and delivery of the starting point; the Python
kitchen of the final version; and the C# store (starter and completed),
kitchen and delivery.

## How it is modelled

- **`Orders`**: the order record and the eight statuses.
  - The `Status` enumeration gives each status's wire label (`Label`), and
    `StatusOrder` lists the statuses in order.
  - `Order` keeps the three fields the services read or write: `orderId`,
    `event` and `prepTime`. Each is an `Option`, where `None` means absent
    in Python or null in C#. Every other field the client sent is carried,
    unread, in `extra`.
  - The Python services pass the whole JSON object along, so `extra`
    travels unchanged.
  - The C# store deserialises into a typed class (`CsOrder.Typed`). That
    keeps `order_id`, `event` and the five declared properties, and drops
    `prep_time` and every other field. `Process` and `PostOrder` receive
    the JSON object as published or posted and apply `Typed` themselves.
- **`Runtime`**: the Dapr sidecar as a class `Sidecar`. It has two fields
  that its methods update:
  - `store`: the key/value state store;
  - `trace`: the sequence of effects, which are saves, deletes,
    publications, service invocations and waits (in milliseconds).

  The functions `Publications`, `Invocations` and `Delays` project a trace
  onto what was published, what was invoked and how long was waited. Each
  has a lemma saying it distributes over concatenation.
- **`Lifecycle`**: the effect sequences that the services' handlers share,
  stated once as functions:
  - `Created` is the store's new order.
  - `CookPublishFirst` and `CookSleepFirst` are the two kitchen cycles.
  - `DeliveryEffects` is the delivery chain: the stages of `DeliveryPlan`,
    each a wait followed by a publication. Lemmas about `Stages` hold for
    any plan, and the chain's own lemmas are instances of them.

  Lemmas state what each sequence publishes, waits and invokes.
- **One module per handler file.** Each handler is a method over the
  sidecar with `modifies rt`. Its postcondition gives the new store and the
  new trace, the old trace followed by one of the functions above, and the
  HTTP reply (`Reply`).
- **`Scenario`**: chains the completed Python services end to end.
  - The eight published snapshots carry the eight statuses in order.
  - The subscriber forwards exactly the first to the kitchen and the third
    to delivery.
  - After the subscriber has handled all eight, the store holds the
    Delivered snapshot.

Values the services draw or receive from outside are parameters:
- the fresh order id (a uuid or GUID);
- the random preparation time;
- the request body, already parsed. In the Python services `None` means
  a body that is not a JSON object. In the C# services it means only a
  null body or a null `data` element.

Serialisation is kept symbolic. A stored value is either `JsonText(o)`,
the JSON text of `o`, or `ReprText(o)`, Python's `str()` of the dictionary.
The second is not JSON and does not parse back.

## Model

| member | source | states |
|---|---|---|
| PyStoreCompleted.SaveOrder | completed-workshop/python/pizza-store/app.py:24-30 | the key now holds the order's JSON text, every other key is unchanged, and one save is recorded |
| PyStoreCompleted.LoadOrder | completed-workshop/python/pizza-store/app.py:32-38 | an order comes back exactly when the key holds JSON text, and it is the stored order; an absent key or non-JSON text fails to parse |
| PyStoreCompleted.RemoveOrder | completed-workshop/python/pizza-store/app.py:40-46 | the key is gone, every other key is unchanged, and the key is returned |
| PyStoreCompleted.StartCook | completed-workshop/python/pizza-store/app.py:50-58 | exactly one invocation of the kitchen's `cook` route with the order, and the store is unchanged |
| PyStoreCompleted.StartDelivery | completed-workshop/python/pizza-store/app.py:60-69 | one invocation of delivery's `deliver` route with the order, then a one-second wait |
| PyStoreCompleted.OrdersSubscriber | completed-workshop/python/pizza-store/app.py:74-99 | a snapshot missing its id or event fails with no effect; otherwise it is saved under its id, then routed (4 s wait and kitchen for Sent to kitchen, delivery for Ready for delivery) |
| PyStoreCompleted.SubscriberRoutes | completed-workshop/python/pizza-store/app.py:84-96 | the save comes first, nothing is published, and the kitchen alone is invoked for Sent to kitchen, delivery alone for Ready for delivery, nothing otherwise |
| PyStoreCompleted.ReceivedAllKeepsLast | completed-workshop/python/pizza-store/app.py:84-85 | after any non-empty run of snapshots of one order, the store holds the last snapshot under the order's id |
| PyStoreCompleted.CreateOrder | completed-workshop/python/pizza-store/app.py:105-125 | a body that is not an object fails with no effect; otherwise the order gets the fresh id and Sent to kitchen and is published once, the id is answered, and the store is untouched |
| PyStoreCompleted.GetOrder | completed-workshop/python/pizza-store/app.py:128-135 | an empty id is answered as missing; otherwise the stored order is answered when the key holds JSON, and the request fails when it does not |
| PyStoreCompleted.DeleteOrder | completed-workshop/python/pizza-store/app.py:138-145 | an empty id changes nothing; otherwise the key is removed and the id echoed |
| PyStorePubSub.SaveOrder | challenges/03-pubsub/python/pizza-store/app.py:26-32 | the key now holds the order's `str()` text, not JSON; other keys are unchanged |
| PyStorePubSub.LoadOrder | challenges/03-pubsub/python/pizza-store/app.py:34-40 | the raw stored text is returned, or nothing for an absent key |
| PyStorePubSub.RemoveOrder | challenges/03-pubsub/python/pizza-store/app.py:42-48 | the key is gone, every other key is unchanged |
| PyStorePubSub.StartCook | challenges/03-pubsub/python/pizza-store/app.py:52-69 | one invocation of the kitchen's `cook` route with the order |
| PyStorePubSub.StartDelivery | challenges/03-pubsub/python/pizza-store/app.py:71-88 | one invocation of delivery's `deliver` route, then a one-second wait |
| PyStorePubSub.OrdersSubscriber | challenges/03-pubsub/python/pizza-store/app.py:93-119 | a snapshot missing its id or event fails with no effect; otherwise it is saved as `str()` text and routed as in the completed store |
| PyStorePubSub.SubscriberRoutes | challenges/03-pubsub/python/pizza-store/app.py:103-116 | the save comes first and nothing is published; the kitchen alone is invoked for Sent to kitchen, delivery alone for Ready for delivery; after the save, the effects are those of the completed store |
| PyStorePubSub.CreateOrder | challenges/03-pubsub/python/pizza-store/app.py:124-145 | a body that is not an object fails with no effect; otherwise one publication of the new order with its fresh id and Sent to kitchen, and the id is answered |
| PyStorePubSub.GetOrder | challenges/03-pubsub/python/pizza-store/app.py:148-158 | an empty id is answered as missing; otherwise the raw stored text is answered |
| PyStorePubSub.DeleteOrder | challenges/03-pubsub/python/pizza-store/app.py:161-170 | an empty id changes nothing; otherwise the key is removed and the id echoed |
| PyStoreStartHere.SaveOrder | start-here/python/pizza-store/app.py:24-32 | the key now holds the order's `str()` text; other keys are unchanged |
| PyStoreStartHere.LoadOrder | start-here/python/pizza-store/app.py:34-41 | the raw stored text is returned, or nothing for an absent key |
| PyStoreStartHere.StartCook | start-here/python/pizza-store/app.py:45-62 | one invocation of the kitchen's `cook` route, then a one-second wait |
| PyStoreStartHere.StartDelivery | start-here/python/pizza-store/app.py:64-81 | one invocation of delivery's `deliver` route, then a one-second wait |
| PyStoreStartHere.OrdersSubscriber | start-here/python/pizza-store/app.py:86-103 | a snapshot missing its id or event fails with no effect; otherwise it is saved, and delivery is started for Ready for delivery |
| PyStoreStartHere.SubscriberRoutes | start-here/python/pizza-store/app.py:92-101 | the save comes first and nothing is published; delivery alone is invoked for Ready for delivery, and nothing for any other event, Sent to kitchen included |
| PyStoreStartHere.CreateOrder | start-here/python/pizza-store/app.py:108-125 | a body that is not an object fails with no effect; otherwise the new order is saved and sent straight to the kitchen, nothing is published, and the id is answered |
| PyStoreStartHere.GetOrder | start-here/python/pizza-store/app.py:127-137 | an empty id is answered as missing; otherwise the raw stored text is answered |
| PyKitchenCompleted.PublishEvent | completed-workshop/python/pizza-kitchen/app.py:40-48 | one publication of the order on the order topic |
| PyKitchenCompleted.Start | completed-workshop/python/pizza-kitchen/app.py:17-29 | for a prep time of 4 to 7 s, the order gets it and Cooking, is published, and then the kitchen waits that long |
| PyKitchenCompleted.Ready | completed-workshop/python/pizza-kitchen/app.py:31-37 | the order gets Ready for delivery and is published once |
| PyKitchenCompleted.StartCooking | completed-workshop/python/pizza-kitchen/app.py:51-67 | a body that is not an object, or lacks the id, fails with no effect; otherwise the publish-first cycle runs and success is answered |
| PyKitchenFinal.PublishEvent | final-version/python/pizza-kitchen/app.py:39-47 | one publication of the order on the order topic |
| PyKitchenFinal.Start | final-version/python/pizza-kitchen/app.py:14-27 | the kitchen waits the prep time first, then publishes the order with it and Cooking |
| PyKitchenFinal.Ready | final-version/python/pizza-kitchen/app.py:29-35 | the order gets Ready for delivery and is published once |
| PyKitchenFinal.StartCooking | final-version/python/pizza-kitchen/app.py:53-64 | a body that is not an object, or lacks the id, fails with no effect; otherwise the sleep-first cycle runs and success is answered |
| Lifecycle.CookPublishFirstProjections | completed-workshop/python/pizza-kitchen/app.py:17-37 | the publish-first cycle publishes the order with its prep time and Cooking, then with Ready for delivery; it waits exactly the prep time once and invokes nothing |
| Lifecycle.CookSleepFirstProjections | final-version/python/pizza-kitchen/app.py:14-35 | the sleep-first cycle publishes the same two snapshots, waits the prep time once and invokes nothing |
| Lifecycle.CookCycles | final-version/python/pizza-kitchen/app.py:14-35 | both kitchen cycles announce Cooking then Ready for delivery for the same order with the prep time; they publish the same snapshots, wait exactly the prep time once, invoke nothing and publish only on the order topic; the sleep-first cycle is the publish-first cycle's three effects with the first two swapped, so they differ only in where the wait stands |
| PyDeliveryCompleted.PublishEvent | completed-workshop/python/pizza-delivery/app.py:19-27 | one publication of the order on the order topic |
| PyDeliveryCompleted.Deliver | completed-workshop/python/pizza-delivery/app.py:42-62 | the delivery chain runs and the order ends Delivered |
| PyDeliveryCompleted.StartDelivery | completed-workshop/python/pizza-delivery/app.py:30-40 | a body that is not an object, or lacks the id, fails with no effect; otherwise the delivery chain runs and success is answered |
| PyDeliveryStartHere.PublishEvent | start-here/python/pizza-delivery/app.py:41-49 | one publication of the order on the order topic |
| PyDeliveryStartHere.Deliver | start-here/python/pizza-delivery/app.py:17-37 | the delivery chain runs and the order ends Delivered |
| PyDeliveryStartHere.StartDelivery | start-here/python/pizza-delivery/app.py:54-64 | a body that is not an object, or lacks the id, fails with no effect; otherwise the delivery chain runs and success is answered |
| Lifecycle.DeliveryPublications | completed-workshop/python/pizza-delivery/app.py:42-62 | the chain publishes exactly five snapshots of the order, one per delivery status, in order |
| Lifecycle.DeliveryWaits | completed-workshop/python/pizza-delivery/app.py:42-62 | the chain waits 3, 3, 5, 5 and 5 seconds, 21 s in all |
| Lifecycle.StagesLayout | completed-workshop/python/pizza-delivery/app.py:42-62 | for any plan of stages, the effects alternate: the plan's wait at every even position, the next status's publication at every odd one, twice as many effects as stages |
| Lifecycle.StagesPublications | completed-workshop/python/pizza-delivery/app.py:42-62 | for any plan, exactly one snapshot is published per stage, the order with that stage's status, in plan order |
| Lifecycle.StagesDelays | completed-workshop/python/pizza-delivery/app.py:42-62 | for any plan, the waits are exactly the plan's delays, in plan order |
| Lifecycle.StagesInvokeNothing | completed-workshop/python/pizza-delivery/app.py:42-62 | for any plan, no service is invoked |
| Lifecycle.DeliveryEffectsStages | completed-workshop/python/pizza-delivery/app.py:42-62 | the delivery chain is exactly the stages of its fixed five-stage plan |
| Lifecycle.DeliveryAnnounces | completed-workshop/python/pizza-delivery/app.py:42-62 | the chain announces the last five lifecycle statuses in order, changing nothing but the event, and ends with Delivered |
| Lifecycle.DeliveryLayout | completed-workshop/python/pizza-delivery/app.py:42-62 | the chain has ten effects, waits before every publication, invokes nothing and publishes only on the order topic |
| CsOrder.Typed | challenges/00-start/dotnet/PizzaStore/Order.cs:24-46 | deserialising keeps the id and the event, loses `prep_time`, and keeps exactly the declared fields among the others, with their values |
| CsOrder.TypedRoundTrip | challenges/00-start/dotnet/PizzaStore/Order.cs:24-46 | deserialising an order the store serialised itself gives it back unchanged |
| CsStoreCompleted.SaveOrderToStateStore | completed-workshop/dotnet/PizzaStore/Controllers/PizzaStoreController.cs:27-33 | an order with an id is saved as JSON under it; one without an id is refused with no effect |
| CsStoreCompleted.GetOrderFromStateStore | completed-workshop/dotnet/PizzaStore/Controllers/PizzaStoreController.cs:36-42 | the stored order as the typed class reads it, null for an absent key; deserialising throws exactly when the stored text is not JSON |
| CsStoreCompleted.DeleteOrderFromStateStore | completed-workshop/dotnet/PizzaStore/Controllers/PizzaStoreController.cs:45-51 | the key is gone, every other key is unchanged |
| CsStoreCompleted.Cook | completed-workshop/dotnet/PizzaStore/Controllers/PizzaStoreController.cs:85-91 | one invocation of the kitchen's `cook` route with the order |
| CsStoreCompleted.Deliver | completed-workshop/dotnet/PizzaStore/Controllers/PizzaStoreController.cs:93-102 | one invocation of delivery's `deliver` route with the order |
| CsStoreCompleted.Process | completed-workshop/dotnet/PizzaStore/Controllers/PizzaStoreController.cs:54-82 | null data is a bad request and an id-less order fails, both with no effect; otherwise the typed order is saved, routed to the kitchen or delivery by its event, and Ok is answered |
| CsStoreCompleted.ProcessRoutes | completed-workshop/dotnet/PizzaStore/Controllers/PizzaStoreController.cs:66-79 | the save comes first, nothing is published, and the kitchen alone is invoked for Sent to kitchen, delivery alone for Ready for delivery, nothing otherwise |
| CsStoreCompleted.PostOrder | completed-workshop/dotnet/PizzaStore/Controllers/PizzaStoreController.cs:108-130 | a null body is a bad request with no effect; otherwise the typed order gets the GUID and Sent to kitchen, is published once and answered, and the store is untouched |
| CsStoreCompleted.GetOrderByOrderId | completed-workshop/dotnet/PizzaStore/Controllers/PizzaStoreController.cs:134-143 | an absent key is not found, a JSON value is answered as the typed class reads it, and a non-JSON value fails |
| CsStoreCompleted.DeleteOrderByOrderId | completed-workshop/dotnet/PizzaStore/Controllers/PizzaStoreController.cs:146-151 | the key is removed and Ok is answered whether or not it held anything |
| CsStoreStarter.SaveOrderToStateStore | dotnet/PizzaStore/Controllers/PizzaStoreController.cs:26-33 | an order with an id is saved as JSON under it; one without an id is refused with no effect |
| CsStoreStarter.GetOrderFromStateStore | dotnet/PizzaStore/Controllers/PizzaStoreController.cs:36-43 | the stored order as the typed class reads it, null for an absent key; deserialising throws exactly when the stored text is not JSON |
| CsStoreStarter.DeleteOrderFromStateStore | dotnet/PizzaStore/Controllers/PizzaStoreController.cs:46-53 | the key is gone, every other key is unchanged |
| CsStoreStarter.Process | dotnet/PizzaStore/Controllers/PizzaStoreController.cs:57-84 | null data is a bad request and an id-less order fails, both with no effect; otherwise the typed order is saved, a 4 s wait follows for Sent to kitchen, and Ok is answered |
| CsStoreStarter.ProcessNeverForwards | dotnet/PizzaStore/Controllers/PizzaStoreController.cs:70-81 | the save comes first, and nothing is ever published or invoked, whatever the event |
| CsStoreStarter.PostOrder | dotnet/PizzaStore/Controllers/PizzaStoreController.cs:89-110 | a null body is a bad request with no effect; otherwise the typed order gets only the id (the event stays as sent), and is published once and answered |
| CsStoreStarter.GetOrderByOrderId | dotnet/PizzaStore/Controllers/PizzaStoreController.cs:114-123 | an absent key is not found, a JSON value is answered as the typed class reads it, and a non-JSON value fails |
| CsStoreStarter.DeleteOrderByOrderId | dotnet/PizzaStore/Controllers/PizzaStoreController.cs:126-131 | the key is removed and Ok is answered |
| CsKitchen.PublishEvent | completed-workshop/dotnet/PizzaKitchen/Controllers/PizzaKitchenController.cs:22-36 | a null order is a bad request with nothing published; otherwise one publication on the order topic |
| CsKitchen.StartCooking | completed-workshop/dotnet/PizzaKitchen/Controllers/PizzaKitchenController.cs:62-75 | for a prep time of 4 to 6 s, the order gets it and Cooking, is published, and then the kitchen waits that long |
| CsKitchen.ReadyForDelivery | completed-workshop/dotnet/PizzaKitchen/Controllers/PizzaKitchenController.cs:77-85 | the order gets Ready for delivery and is published once |
| CsKitchen.PostOrder | completed-workshop/dotnet/PizzaKitchen/Controllers/PizzaKitchenController.cs:41-60 | a null body is a bad request with no effect; otherwise the publish-first cycle runs and the order with its prep time and Ready for delivery is answered |
| CsDelivery.PublishEvent | completed-workshop/dotnet/PizzaDelivery/Controllers/PizzaDeliveryController.cs:22-36 | a null order is a bad request with nothing published; otherwise one publication on the order topic |
| CsDelivery.StartDelivery | completed-workshop/dotnet/PizzaDelivery/Controllers/PizzaDeliveryController.cs:58-80 | the delivery chain runs and the order ends Delivered |
| CsDelivery.PostOrder | completed-workshop/dotnet/PizzaDelivery/Controllers/PizzaDeliveryController.cs:41-56 | a null body is a bad request with no effect; otherwise the delivery chain runs and the Delivered order is answered |
| Orders.LabelsDistinct | completed-workshop/python/pizza-store/app.py:88-95 | no two statuses share a label, so routing on the event label tells the statuses apart |
| Scenario.LifecycleSnapshots | completed-workshop/python/pizza-store/app.py:105-125 | the eight snapshots published for one order carry the eight lifecycle statuses in order, all with the fresh id and the client's fields, and from Cooking on the prep time |
| Scenario.LifecycleRouting | completed-workshop/python/pizza-store/app.py:74-99 | of the eight snapshots the subscriber forwards exactly the first to the kitchen and the third to delivery, and those are the orders the kitchen cooks and delivery delivers |
| Scenario.LifecycleStored | completed-workshop/python/pizza-store/app.py:84-85 | once the subscriber has received all eight snapshots in order, the store holds the Delivered one under the order's id |

## Left out

- **Dapr transport.** Sidecar HTTP calls, CloudEvent unwrapping
  (`from_http`, the `data` element of the C# `JsonDocument`), retries and
  delivery guarantees are not modelled. The broker is not modelled either:
  `Scenario.LifecycleRouting` and `Scenario.LifecycleStored` assume the subscriber receives each published
  snapshot once and in publication order.
- **HTTP plumbing.** Flask and ASP.NET routing, status codes beyond those
  in `Reply`, and CORS are not modelled. A request body Flask cannot read
  as a JSON object is folded into the `None` body and a `Fault` reply.
- **Serialisation.** JSON and Python's `str()` of a dictionary are kept
  symbolic (`JsonText`, `ReprText`); their text is not modelled.
- **Randomness and ids.** `uuid`, `Guid.NewGuid`, `random.randint(4, 7)`
  and `Random.Next(4, 7)` are parameters. The C# draw excludes 7, the
  Python one includes it, and the preconditions of the `Start` and
  `StartCooking` methods say so.
- **Time.** Waits are recorded in the trace as effects; no clock is
  modelled.
- **Logging and exceptions.** Logging and `print` are left out, and so are
  exception messages. An exception raised before any effect (a missing
  key, a body that is not a JSON object, a failed deserialisation) becomes
  `Fault` with nothing recorded.
- **Runtime failures.** Every save, get, delete, publish and invoke
  through the sidecar is assumed to succeed. A failure part-way through a
  handler, after earlier effects, propagates in the source; the model
  does not represent it.
- **Concurrency.** Concurrent requests, and the interleaving of one
  service's waits with the others' work, are not modelled. Each handler
  runs to completion.
- **Not part of this model:**
  - the frontend;
  - the empty scaffolds of the other challenge stages;
  - the other services' `Order` classes. Those of the completed C# kitchen
    and delivery are assumed to carry the same fields as the Python record;
    that of the completed C# store is assumed to be the starter's, which
    `CsOrder.Typed` models.
- **Absent state-store key.** The runtime is assumed to answer a read of
  an absent key with empty data:
  - the completed Python store then fails to parse it (`Fault`);
  - the other Python stores return it as empty text;
  - the C# stores deserialise it to null (not found).
- **C# save without a key.** The runtime is assumed to refuse a save whose
  key is null, so `Process` fails without saving.
- **Idempotence.** No handler guards against a snapshot received twice.
  The model does not add such a guard: a duplicate event invokes the
  kitchen or delivery again.
- PyStoreCompleted.OrdersSubscriber: an `Option` field tells only present
  from absent, so a JSON `null` `order_id` or `event` is modelled as
  absent and answered with `Fault`. The source does not fail on it: it
  saves the snapshot under a null key, routes a null event nowhere and
  answers success.
- PyStorePubSub.OrdersSubscriber: a JSON `null` `order_id` or `event` is
  answered with `Fault`, as for `PyStoreCompleted.OrdersSubscriber`; the
  source saves the snapshot and answers success.
- PyStoreStartHere.OrdersSubscriber: a JSON `null` `order_id` or `event`
  is answered with `Fault`, as for `PyStoreCompleted.OrdersSubscriber`;
  the source saves the snapshot and answers success.
- PyKitchenCompleted.StartCooking: a JSON `null` `order_id` is modelled as
  absent and answered with `Fault`; the source only logs the id and runs
  the whole cooking cycle.
- PyKitchenFinal.StartCooking: a JSON `null` `order_id` is answered with
  `Fault`; the source runs the whole cooking cycle.
- PyDeliveryCompleted.StartDelivery: a JSON `null` `order_id` is answered
  with `Fault`; the source runs the whole delivery chain.
- PyDeliveryStartHere.StartDelivery: a JSON `null` `order_id` is answered
  with `Fault`; the source runs the whole delivery chain.
- CsStoreCompleted.Process: a `data` element the typed `Order` cannot hold
  (not a JSON object, or a declared property such as `items` of the wrong
  JSON type) makes deserialisation throw, so the source answers 500 and
  saves nothing. The opaque `extra` map carries no JSON types, so the
  model has no input for this case.
- CsStoreStarter.Process: a `data` element the typed `Order` cannot hold
  throws in deserialisation (500, nothing saved), as for
  `CsStoreCompleted.Process`; the model has no input for it.
- CsStoreCompleted.PostOrder: a body the typed `Order` cannot bind (a
  declared property of the wrong JSON type) gets the framework's automatic
  400 with nothing published; the model has no input for it.
- CsStoreStarter.PostOrder: a body the typed `Order` cannot bind gets the
  framework's automatic 400 with nothing published, as for
  `CsStoreCompleted.PostOrder`; the model has no input for it.
- **Where the code departs from the general description of the
  workshop:**
  - the starting-point and pub/sub-challenge Python stores save `str()`
    text rather than JSON;
  - the C# starter store leaves the client's event on a new order;
  - the final-version kitchen waits before publishing Cooking.

  The model follows the code in each case.
