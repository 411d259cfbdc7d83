/** The order store of the completed workshop (Python): it keeps JSON
    snapshots, creates orders by publishing them, and routes the order events
    it receives to the kitchen or to delivery. */
module PyStoreCompleted {
  import opened Orders
  import opened Runtime
  import opened Lifecycle

  /** `save_order`: keep the order's JSON text under the given id. */
  method SaveOrder(rt: Sidecar, id: string, o: Order) returns (key: string)
    modifies rt
    ensures key == id
    ensures rt.store == old(rt.store)[id := JsonText(o)]
    ensures rt.trace == old(rt.trace) + [Saved(id, JsonText(o))]
  {
    rt.Save(id, JsonText(o));
    key := id;
  }

  /** `get_order`: parse the stored text as JSON. `None` stands for the
      parse failing: nothing is stored (empty data), or the text is not JSON. */
  method LoadOrder(rt: Sidecar, id: string) returns (r: Option<Order>)
    ensures r.Some? <==> id in rt.store && rt.store[id].JsonText?
    ensures r.Some? ==> r.value == rt.store[id].order
  {
    var data := rt.Get(id);
    if data.Some? && data.value.JsonText? {
      r := Some(data.value.order);
    } else {
      r := None;
    }
  }

  /** `delete_order`: the key holds nothing afterwards, other keys are untouched. */
  method RemoveOrder(rt: Sidecar, id: string) returns (key: string)
    modifies rt
    ensures key == id
    ensures rt.store == old(rt.store) - {id}
    ensures rt.trace == old(rt.trace) + [Deleted(id)]
  {
    rt.Delete(id);
    key := id;
  }

  /** `start_cook`: invoke the kitchen's `cook` route with the order. */
  method StartCook(rt: Sidecar, o: Order)
    modifies rt
    ensures rt.store == old(rt.store)
    ensures rt.trace == old(rt.trace) + [Invoked(KitchenApp, CookRoute, o)]
  {
    rt.Invoke(KitchenApp, CookRoute, o);
  }

  /** `start_delivery`: invoke delivery's `deliver` route, then wait a second. */
  method StartDelivery(rt: Sidecar, o: Order)
    modifies rt
    ensures rt.store == old(rt.store)
    ensures rt.trace == old(rt.trace) + [Invoked(DeliveryApp, DeliverRoute, o), Slept(1000)]
  {
    rt.Invoke(DeliveryApp, DeliverRoute, o);
    rt.Sleep(1000);
  }

  /** What `orders_subscriber` does with a snapshot that has both control
      fields: save it, then route on its event. */
  function SubscriberEffects(o: Order): seq<Effect>
    requires o.orderId.Some? && o.event.Some?
  {
    [Saved(o.orderId.value, JsonText(o))]
    + (if o.HasStatus(SentToKitchen) then [Slept(4000), Invoked(KitchenApp, CookRoute, o)] else [])
    + (if o.HasStatus(ReadyForDelivery) then [Invoked(DeliveryApp, DeliverRoute, o), Slept(1000)] else [])
  }

  /** The store after `orders_subscriber` handled snapshot `o`. */
  function Received(store: map<string, Stored>, o: Order): map<string, Stored> {
    if o.orderId.Some? && o.event.Some? then store[o.orderId.value := JsonText(o)] else store
  }

  /** `orders_subscriber`: receives an (unwrapped) order event. Reading a
      missing `order_id` or `event` raises before anything happens. */
  method OrdersSubscriber(rt: Sidecar, o: Order) returns (r: Reply)
    modifies rt
    ensures rt.store == Received(old(rt.store), o)
    ensures o.orderId.None? || o.event.None? ==> r == Fault && rt.trace == old(rt.trace)
    ensures o.orderId.Some? && o.event.Some? ==>
      r == SuccessTrueText && rt.trace == old(rt.trace) + SubscriberEffects(o)
  {
    if o.orderId.None? || o.event.None? {
      return Fault;
    }
    var id, eventType := o.orderId.value, o.event.value;
    var _ := SaveOrder(rt, id, o);
    if eventType == SentToKitchen.Label() {
      rt.Sleep(4000);
      StartCook(rt, o);
    }
    if eventType == ReadyForDelivery.Label() {
      StartDelivery(rt, o);
    }
    r := SuccessTrueText;
  }

  /** The subscriber saves the snapshot under its own id before anything
      else, publishes nothing, and invokes exactly one service for the two
      routed events: the kitchen for Sent to kitchen, delivery for Ready for
      delivery; it invokes nothing for any other event. */
  lemma SubscriberRoutes(o: Order)
    requires o.orderId.Some? && o.event.Some?
    ensures SubscriberEffects(o)[0] == Saved(o.orderId.value, JsonText(o))
    ensures Publications(SubscriberEffects(o)) == []
    ensures o.HasStatus(SentToKitchen) ==> Invocations(SubscriberEffects(o)) == [(KitchenApp, CookRoute, o)]
    ensures o.HasStatus(ReadyForDelivery) ==> Invocations(SubscriberEffects(o)) == [(DeliveryApp, DeliverRoute, o)]
    ensures !o.HasStatus(SentToKitchen) && !o.HasStatus(ReadyForDelivery) ==> Invocations(SubscriberEffects(o)) == []
  {
    LabelsDistinct(SentToKitchen, ReadyForDelivery);
    var save: seq<Effect> := [Saved(o.orderId.value, JsonText(o))];
    var cook: seq<Effect> := if o.HasStatus(SentToKitchen) then [Slept(4000), Invoked(KitchenApp, CookRoute, o)] else [];
    var deliver: seq<Effect> := if o.HasStatus(ReadyForDelivery) then [Invoked(DeliveryApp, DeliverRoute, o), Slept(1000)] else [];
    assert cook == [] || cook == [Slept(4000)] + [Invoked(KitchenApp, CookRoute, o)];
    assert deliver == [] || deliver == [Invoked(DeliveryApp, DeliverRoute, o)] + [Slept(1000)];
    InvocationsAppend(save + cook, deliver);
    InvocationsAppend(save, cook);
    InvocationsAppend([Slept(4000)], [Invoked(KitchenApp, CookRoute, o)]);
    InvocationsAppend([Invoked(DeliveryApp, DeliverRoute, o)], [Slept(1000)]);
    PublicationsAppend(save + cook, deliver);
    PublicationsAppend(save, cook);
    PublicationsAppend([Slept(4000)], [Invoked(KitchenApp, CookRoute, o)]);
    PublicationsAppend([Invoked(DeliveryApp, DeliverRoute, o)], [Slept(1000)]);
  }

  /** The store after the subscriber handled `snaps`, one after the other. */
  function ReceivedAll(store: map<string, Stored>, snaps: seq<Order>): map<string, Stored>
    decreases |snaps|
  {
    if snaps == [] then store else ReceivedAll(Received(store, snaps[0]), snaps[1..])
  }

  /** Once the subscriber has handled a run of snapshots of one order, the
      store holds the last of them under the order's id. */
  lemma {:induction false} ReceivedAllKeepsLast(store: map<string, Stored>, snaps: seq<Order>, id: string)
    requires snaps != []
    requires forall i | 0 <= i < |snaps| :: snaps[i].orderId == Some(id) && snaps[i].event.Some?
    ensures id in ReceivedAll(store, snaps)
    ensures ReceivedAll(store, snaps)[id] == JsonText(snaps[|snaps| - 1])
    decreases |snaps|
  {
    if |snaps| > 1 {
      ReceivedAllKeepsLast(Received(store, snaps[0]), snaps[1..], id);
    }
  }

  /** `createOrder`: give the client's order a fresh id and the first status
      and publish it; nothing is written to the store. A body that is not a
      JSON object (`None`) fails before anything happens. */
  method CreateOrder(rt: Sidecar, body: Option<Order>, freshId: string) returns (r: Reply)
    modifies rt
    ensures rt.store == old(rt.store)
    ensures body.None? ==> r == Fault && rt.trace == old(rt.trace)
    ensures body.Some? ==>
      r == OrderIdBody(freshId) && rt.trace == old(rt.trace) + [Emit(Created(body.value, freshId))]
  {
    if body.None? {
      return Fault;
    }
    var o := body.value;
    o := o.(orderId := Some(freshId));
    o := o.(event := Some(SentToKitchen.Label()));
    rt.Publish(PubSubName, TopicName, o);
    r := OrderIdBody(freshId);
  }

  /** `getOrder`: an empty id is answered 404 without reading the store;
      otherwise the stored JSON comes back as the order, and a failed parse
      escapes as an exception. */
  method GetOrder(rt: Sidecar, id: string) returns (r: Reply)
    ensures id == "" ==> r == MissingOrderId
    ensures id != "" && id in rt.store && rt.store[id].JsonText? ==> r == OrderBody(rt.store[id].order)
    ensures id != "" && !(id in rt.store && rt.store[id].JsonText?) ==> r == Fault
  {
    if id != "" {
      var result := LoadOrder(rt, id);
      if result.None? {
        return Fault;
      }
      return OrderBody(result.value);
    }
    r := MissingOrderId;
  }

  /** `deleteOrder`: an empty id is answered 404 and changes nothing;
      otherwise the key is deleted and the id echoed. */
  method DeleteOrder(rt: Sidecar, id: string) returns (r: Reply)
    modifies rt
    ensures id == "" ==> r == MissingOrderId && rt.store == old(rt.store) && rt.trace == old(rt.trace)
    ensures id != "" ==>
      r == OrderIdBody(id) && rt.store == old(rt.store) - {id} && rt.trace == old(rt.trace) + [Deleted(id)]
  {
    if id != "" {
      var _ := RemoveOrder(rt, id);
      return OrderIdBody(id);
    }
    r := MissingOrderId;
  }
}
