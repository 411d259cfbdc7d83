/** The order store of the publish/subscribe challenge (Python). It behaves
    like the completed store, except that it saves Python's `str()` of the
    order rather than JSON, and reads the stored text back unparsed. */
module PyStorePubSub {
  import opened Orders
  import opened Runtime
  import opened Lifecycle
  import PyStoreCompleted

  /** `save_order`: keep the `str()` rendering of the order under the id. */
  method SaveOrder(rt: Sidecar, id: string, o: Order) returns (key: string)
    modifies rt
    ensures key == id
    ensures rt.store == old(rt.store)[id := ReprText(o)]
    ensures rt.trace == old(rt.trace) + [Saved(id, ReprText(o))]
  {
    rt.Save(id, ReprText(o));
    key := id;
  }

  /** `get_order`: the stored data as it is, `None` when nothing is stored. */
  method LoadOrder(rt: Sidecar, id: string) returns (data: Option<Stored>)
    ensures id in rt.store ==> data == Some(rt.store[id])
    ensures id !in rt.store ==> data == None
  {
    data := rt.Get(id);
  }

  /** `delete_order`. */
  method RemoveOrder(rt: Sidecar, id: string) returns (key: string)
    modifies rt
    ensures key == id
    ensures rt.store == old(rt.store) - {id}
    ensures rt.trace == old(rt.trace) + [Deleted(id)]
  {
    rt.Delete(id);
    key := id;
  }

  /** `start_cook`: a request through the runtime to the kitchen's `cook` route. */
  method StartCook(rt: Sidecar, o: Order)
    modifies rt
    ensures rt.store == old(rt.store)
    ensures rt.trace == old(rt.trace) + [Invoked(KitchenApp, CookRoute, o)]
  {
    rt.Invoke(KitchenApp, CookRoute, o);
  }

  /** `start_delivery`: a request to delivery's `deliver` route, then a second's wait. */
  method StartDelivery(rt: Sidecar, o: Order)
    modifies rt
    ensures rt.store == old(rt.store)
    ensures rt.trace == old(rt.trace) + [Invoked(DeliveryApp, DeliverRoute, o), Slept(1000)]
  {
    rt.Invoke(DeliveryApp, DeliverRoute, o);
    rt.Sleep(1000);
  }

  /** What `orders_subscriber` does with a snapshot that has both control fields. */
  function SubscriberEffects(o: Order): seq<Effect>
    requires o.orderId.Some? && o.event.Some?
  {
    [Saved(o.orderId.value, ReprText(o))]
    + (if o.HasStatus(SentToKitchen) then [Slept(4000), Invoked(KitchenApp, CookRoute, o)] else [])
    + (if o.HasStatus(ReadyForDelivery) then [Invoked(DeliveryApp, DeliverRoute, o), Slept(1000)] else [])
  }

  /** `orders_subscriber`: a missing `order_id` or `event` raises before
      anything happens; otherwise save, then route. */
  method OrdersSubscriber(rt: Sidecar, o: Order) returns (r: Reply)
    modifies rt
    ensures o.orderId.None? || o.event.None? ==>
      r == Fault && rt.store == old(rt.store) && rt.trace == old(rt.trace)
    ensures o.orderId.Some? && o.event.Some? ==>
      && r == SuccessTrueText
      && rt.store == old(rt.store)[o.orderId.value := ReprText(o)]
      && rt.trace == old(rt.trace) + SubscriberEffects(o)
  {
    if o.orderId.None? || o.event.None? {
      return Fault;
    }
    var id, eventType := o.orderId.value, o.event.value;
    var _ := SaveOrder(rt, id, o);
    if eventType == SentToKitchen.Label() {
      rt.Sleep(4000);
      StartCook(rt, o);
    }
    if eventType == ReadyForDelivery.Label() {
      StartDelivery(rt, o);
    }
    r := SuccessTrueText;
  }

  /** The subscriber differs from the completed store's only in the form of
      the text it saves; so it too saves first, publishes nothing, and
      invokes the kitchen exactly for Sent to kitchen, delivery exactly for
      Ready for delivery, and nothing for any other event. */
  lemma SubscriberRoutes(o: Order)
    requires o.orderId.Some? && o.event.Some?
    ensures SubscriberEffects(o)[0] == Saved(o.orderId.value, ReprText(o))
    ensures SubscriberEffects(o)[1..] == PyStoreCompleted.SubscriberEffects(o)[1..]
    ensures Publications(SubscriberEffects(o)) == []
    ensures o.HasStatus(SentToKitchen) ==> Invocations(SubscriberEffects(o)) == [(KitchenApp, CookRoute, o)]
    ensures o.HasStatus(ReadyForDelivery) ==> Invocations(SubscriberEffects(o)) == [(DeliveryApp, DeliverRoute, o)]
    ensures !o.HasStatus(SentToKitchen) && !o.HasStatus(ReadyForDelivery) ==> Invocations(SubscriberEffects(o)) == []
  {
    var mine, theirs := SubscriberEffects(o), PyStoreCompleted.SubscriberEffects(o);
    assert mine == [mine[0]] + mine[1..];
    assert theirs == [theirs[0]] + theirs[1..];
    PyStoreCompleted.SubscriberRoutes(o);
    InvocationsAppend([mine[0]], mine[1..]);
    InvocationsAppend([theirs[0]], theirs[1..]);
    PublicationsAppend([mine[0]], mine[1..]);
    PublicationsAppend([theirs[0]], theirs[1..]);
  }

  /** `createOrder`: fresh id, first status, one publication; no store write. */
  method CreateOrder(rt: Sidecar, body: Option<Order>, freshId: string) returns (r: Reply)
    modifies rt
    ensures rt.store == old(rt.store)
    ensures body.None? ==> r == Fault && rt.trace == old(rt.trace)
    ensures body.Some? ==>
      r == OrderIdBody(freshId) && rt.trace == old(rt.trace) + [Emit(Created(body.value, freshId))]
  {
    if body.None? {
      return Fault;
    }
    var o := body.value;
    o := o.(orderId := Some(freshId));
    o := o.(event := Some(SentToKitchen.Label()));
    rt.Publish(PubSubName, TopicName, o);
    r := OrderIdBody(freshId);
  }

  /** `getOrder`: an empty id is answered 404; otherwise the stored text comes
      back unchanged as a JSON string (empty when nothing is stored). */
  method GetOrder(rt: Sidecar, id: string) returns (r: Reply)
    ensures id == "" ==> r == MissingOrderId
    ensures id != "" && id in rt.store ==> r == StoredTextBody(Some(rt.store[id]))
    ensures id != "" && id !in rt.store ==> r == StoredTextBody(None)
  {
    if id != "" {
      var result := LoadOrder(rt, id);
      return StoredTextBody(result);
    }
    r := MissingOrderId;
  }

  /** `deleteOrder`: 404 on an empty id with nothing changed; otherwise delete and echo the id. */
  method DeleteOrder(rt: Sidecar, id: string) returns (r: Reply)
    modifies rt
    ensures id == "" ==> r == MissingOrderId && rt.store == old(rt.store) && rt.trace == old(rt.trace)
    ensures id != "" ==>
      r == OrderIdBody(id) && rt.store == old(rt.store) - {id} && rt.trace == old(rt.trace) + [Deleted(id)]
  {
    if id != "" {
      var _ := RemoveOrder(rt, id);
      return OrderIdBody(id);
    }
    r := MissingOrderId;
  }
}
