/** The order store of the workshop's starting point (Python). It saves every
    new order itself and hands it to the kitchen directly; its subscriber
    forwards only orders that are ready for delivery. */
module PyStoreStartHere {
  import opened Orders
  import opened Runtime
  import opened Lifecycle

  /** `save_order`: keep the `str()` rendering of the order under the id. */
  method SaveOrder(rt: Sidecar, id: string, o: Order) returns (key: string)
    modifies rt
    ensures key == id
    ensures rt.store == old(rt.store)[id := ReprText(o)]
    ensures rt.trace == old(rt.trace) + [Saved(id, ReprText(o))]
  {
    rt.Save(id, ReprText(o));
    key := id;
  }

  /** `get_order`: the stored data as it is, `None` when nothing is stored. */
  method LoadOrder(rt: Sidecar, id: string) returns (data: Option<Stored>)
    ensures id in rt.store ==> data == Some(rt.store[id])
    ensures id !in rt.store ==> data == None
  {
    data := rt.Get(id);
  }

  /** `start_cook`: a request to the kitchen's `cook` route, then a second's wait. */
  method StartCook(rt: Sidecar, o: Order)
    modifies rt
    ensures rt.store == old(rt.store)
    ensures rt.trace == old(rt.trace) + [Invoked(KitchenApp, CookRoute, o), Slept(1000)]
  {
    rt.Invoke(KitchenApp, CookRoute, o);
    rt.Sleep(1000);
  }

  /** `start_delivery`: a request to delivery's `deliver` route, then a second's wait. */
  method StartDelivery(rt: Sidecar, o: Order)
    modifies rt
    ensures rt.store == old(rt.store)
    ensures rt.trace == old(rt.trace) + [Invoked(DeliveryApp, DeliverRoute, o), Slept(1000)]
  {
    rt.Invoke(DeliveryApp, DeliverRoute, o);
    rt.Sleep(1000);
  }

  /** What `orders_subscriber` does with a snapshot that has both control fields. */
  function SubscriberEffects(o: Order): seq<Effect>
    requires o.orderId.Some? && o.event.Some?
  {
    [Saved(o.orderId.value, ReprText(o))]
    + (if o.HasStatus(ReadyForDelivery) then [Invoked(DeliveryApp, DeliverRoute, o), Slept(1000)] else [])
  }

  /** `orders_subscriber`: a missing `order_id` or `event` raises before
      anything happens; otherwise save, then forward to delivery if ready. */
  method OrdersSubscriber(rt: Sidecar, o: Order) returns (r: Reply)
    modifies rt
    ensures o.orderId.None? || o.event.None? ==>
      r == Fault && rt.store == old(rt.store) && rt.trace == old(rt.trace)
    ensures o.orderId.Some? && o.event.Some? ==>
      && r == SuccessTrue
      && rt.store == old(rt.store)[o.orderId.value := ReprText(o)]
      && rt.trace == old(rt.trace) + SubscriberEffects(o)
  {
    if o.orderId.None? || o.event.None? {
      return Fault;
    }
    var id, eventType := o.orderId.value, o.event.value;
    var _ := SaveOrder(rt, id, o);
    if eventType == ReadyForDelivery.Label() {
      StartDelivery(rt, o);
    }
    r := SuccessTrue;
  }

  /** This subscriber saves first and forwards only Ready for delivery, to
      delivery; Sent to kitchen, like every other event, invokes nothing. */
  lemma SubscriberRoutes(o: Order)
    requires o.orderId.Some? && o.event.Some?
    ensures SubscriberEffects(o)[0] == Saved(o.orderId.value, ReprText(o))
    ensures Publications(SubscriberEffects(o)) == []
    ensures o.HasStatus(ReadyForDelivery) ==> Invocations(SubscriberEffects(o)) == [(DeliveryApp, DeliverRoute, o)]
    ensures !o.HasStatus(ReadyForDelivery) ==> Invocations(SubscriberEffects(o)) == []
    ensures o.HasStatus(SentToKitchen) ==> Invocations(SubscriberEffects(o)) == []
  {
    LabelsDistinct(SentToKitchen, ReadyForDelivery);
    var save: seq<Effect> := [Saved(o.orderId.value, ReprText(o))];
    var deliver: seq<Effect> := if o.HasStatus(ReadyForDelivery) then [Invoked(DeliveryApp, DeliverRoute, o), Slept(1000)] else [];
    assert deliver == [] || deliver == [Invoked(DeliveryApp, DeliverRoute, o)] + [Slept(1000)];
    InvocationsAppend(save, deliver);
    InvocationsAppend([Invoked(DeliveryApp, DeliverRoute, o)], [Slept(1000)]);
    PublicationsAppend(save, deliver);
    PublicationsAppend([Invoked(DeliveryApp, DeliverRoute, o)], [Slept(1000)]);
  }

  /** `createOrder`: fresh id and first status, saved first, then handed to
      the kitchen directly; nothing is published. */
  method CreateOrder(rt: Sidecar, body: Option<Order>, freshId: string) returns (r: Reply)
    modifies rt
    ensures body.None? ==> r == Fault && rt.store == old(rt.store) && rt.trace == old(rt.trace)
    ensures body.Some? ==>
      var created := Created(body.value, freshId);
      && r == OrderIdBody(freshId)
      && rt.store == old(rt.store)[freshId := ReprText(created)]
      && rt.trace == old(rt.trace) + [Saved(freshId, ReprText(created)), Invoked(KitchenApp, CookRoute, created), Slept(1000)]
  {
    if body.None? {
      return Fault;
    }
    var o := body.value;
    o := o.(orderId := Some(freshId));
    o := o.(event := Some(SentToKitchen.Label()));
    var _ := SaveOrder(rt, freshId, o);
    StartCook(rt, o);
    r := OrderIdBody(freshId);
  }

  /** `getOrder`: an empty id is answered 404; otherwise the stored text comes
      back unchanged as a JSON string (empty when nothing is stored). */
  method GetOrder(rt: Sidecar, id: string) returns (r: Reply)
    ensures id == "" ==> r == MissingOrderId
    ensures id != "" && id in rt.store ==> r == StoredTextBody(Some(rt.store[id]))
    ensures id != "" && id !in rt.store ==> r == StoredTextBody(None)
  {
    if id != "" {
      var result := LoadOrder(rt, id);
      return StoredTextBody(result);
    }
    r := MissingOrderId;
  }
}
