/** The order store of the completed workshop (C#): it saves each order it
    receives as JSON and calls the kitchen or delivery directly; new orders
    are published. */
module CsStoreCompleted {
  import opened Orders
  import opened Runtime
  import opened CsOrder
  import opened Lifecycle

  /** `SaveOrderToStateStore`: save the order as JSON under its `OrderId`.
      The runtime refuses a save without a key, so an order whose `OrderId`
      is null is not saved and the call fails (`saved` is false). */
  method SaveOrderToStateStore(rt: Sidecar, o: Order) returns (saved: bool)
    modifies rt
    ensures saved == o.orderId.Some?
    ensures !saved ==> rt.store == old(rt.store) && rt.trace == old(rt.trace)
    ensures saved ==>
      && rt.store == old(rt.store)[o.orderId.value := JsonText(o)]
      && rt.trace == old(rt.trace) + [Saved(o.orderId.value, JsonText(o))]
  {
    if o.orderId.None? {
      return false;
    }
    rt.Save(o.orderId.value, JsonText(o));
    saved := true;
  }

  /** `GetOrderFromStateStore`: the stored order as the typed class reads it,
      null (`None`) when nothing is stored; text that is not JSON makes
      deserialisation throw. */
  method GetOrderFromStateStore(rt: Sidecar, id: string) returns (order: Option<Order>, threw: bool)
    ensures threw <==> id in rt.store && rt.store[id].ReprText?
    ensures !threw && id in rt.store ==> order == Some(Typed(rt.store[id].order))
    ensures !threw && id !in rt.store ==> order == None
  {
    var data := rt.Get(id);
    if data.Some? && data.value.ReprText? {
      return None, true;
    }
    order := if data.Some? then Some(Typed(data.value.order)) else None;
    threw := false;
  }

  /** `DeleteOrderFromStateStore`. */
  method DeleteOrderFromStateStore(rt: Sidecar, id: string)
    modifies rt
    ensures rt.store == old(rt.store) - {id}
    ensures rt.trace == old(rt.trace) + [Deleted(id)]
  {
    rt.Delete(id);
  }

  /** `Cook`: post the order to the kitchen's `cook` route. */
  method Cook(rt: Sidecar, o: Order)
    modifies rt
    ensures rt.store == old(rt.store)
    ensures rt.trace == old(rt.trace) + [Invoked(KitchenApp, CookRoute, o)]
  {
    rt.Invoke(KitchenApp, CookRoute, o);
  }

  /** `Deliver`: post the order to delivery's `deliver` route. */
  method Deliver(rt: Sidecar, o: Order)
    modifies rt
    ensures rt.store == old(rt.store)
    ensures rt.trace == old(rt.trace) + [Invoked(DeliveryApp, DeliverRoute, o)]
  {
    rt.Invoke(DeliveryApp, DeliverRoute, o);
  }

  /** What `Process` does with an order that has an `OrderId`. */
  function ProcessEffects(o: Order): seq<Effect>
    requires o.orderId.Some?
  {
    [Saved(o.orderId.value, JsonText(o))]
    + (if o.HasStatus(SentToKitchen) then [Invoked(KitchenApp, CookRoute, o)] else [])
    + (if o.HasStatus(ReadyForDelivery) then [Invoked(DeliveryApp, DeliverRoute, o)] else [])
  }

  /** `Process`, the `/events` route, on the event's (unwrapped) `data`
      object as published: `None` when it is null. The store works on its
      typed deserialisation, which drops `prep_time` and undeclared fields. */
  method Process(rt: Sidecar, data: Option<Order>) returns (r: Reply)
    modifies rt
    ensures data.None? ==> r == BadRequest && rt.store == old(rt.store) && rt.trace == old(rt.trace)
    ensures data.Some? && data.value.orderId.None? ==>
      r == Fault && rt.store == old(rt.store) && rt.trace == old(rt.trace)
    ensures data.Some? && data.value.orderId.Some? ==>
      && r == EmptyOk
      && rt.store == old(rt.store)[data.value.orderId.value := JsonText(Typed(data.value))]
      && rt.trace == old(rt.trace) + ProcessEffects(Typed(data.value))
  {
    if data.None? {
      return BadRequest;
    }
    var order := Typed(data.value);
    var saved := SaveOrderToStateStore(rt, order);
    if !saved {
      return Fault;
    }
    if order.event == Some(SentToKitchen.Label()) {
      Cook(rt, order);
    }
    if order.event == Some(ReadyForDelivery.Label()) {
      Deliver(rt, order);
    }
    r := EmptyOk;
  }

  /** `Process` saves first, publishes nothing, and invokes the kitchen
      exactly for Sent to kitchen, delivery exactly for Ready for delivery,
      and nothing for any other event (a null one included). */
  lemma ProcessRoutes(o: Order)
    requires o.orderId.Some?
    ensures ProcessEffects(o)[0] == Saved(o.orderId.value, JsonText(o))
    ensures Publications(ProcessEffects(o)) == []
    ensures o.HasStatus(SentToKitchen) ==> Invocations(ProcessEffects(o)) == [(KitchenApp, CookRoute, o)]
    ensures o.HasStatus(ReadyForDelivery) ==> Invocations(ProcessEffects(o)) == [(DeliveryApp, DeliverRoute, o)]
    ensures !o.HasStatus(SentToKitchen) && !o.HasStatus(ReadyForDelivery) ==> Invocations(ProcessEffects(o)) == []
  {
    LabelsDistinct(SentToKitchen, ReadyForDelivery);
    var save: seq<Effect> := [Saved(o.orderId.value, JsonText(o))];
    var cook: seq<Effect> := if o.HasStatus(SentToKitchen) then [Invoked(KitchenApp, CookRoute, o)] else [];
    var deliver: seq<Effect> := if o.HasStatus(ReadyForDelivery) then [Invoked(DeliveryApp, DeliverRoute, o)] else [];
    InvocationsAppend(save + cook, deliver);
    InvocationsAppend(save, cook);
    PublicationsAppend(save + cook, deliver);
    PublicationsAppend(save, cook);
  }

  /** `PostOrder`, the `/orders` route, on the posted JSON object: a null
      body is a bad request with no effect; otherwise the typed order gets a
      new GUID and the first status, is published once, and is answered
      back. Nothing is saved. */
  method PostOrder(rt: Sidecar, body: Option<Order>, guid: string) returns (r: Reply)
    modifies rt
    ensures rt.store == old(rt.store)
    ensures body.None? ==> r == BadRequest && rt.trace == old(rt.trace)
    ensures body.Some? ==>
      r == OrderBody(Created(Typed(body.value), guid)) && rt.trace == old(rt.trace) + [Emit(Created(Typed(body.value), guid))]
  {
    if body.None? {
      return BadRequest;
    }
    var order := Typed(body.value);
    order := order.(orderId := Some(guid));
    order := order.(event := Some(SentToKitchen.Label()));
    rt.Publish(PubSubName, TopicName, order);
    r := OrderBody(order);
  }

  /** `GetOrderByOrderId`: not found when nothing is stored, the order when it is. */
  method GetOrderByOrderId(rt: Sidecar, id: string) returns (r: Reply)
    ensures id !in rt.store ==> r == NotFound
    ensures id in rt.store && rt.store[id].JsonText? ==> r == OrderBody(Typed(rt.store[id].order))
    ensures id in rt.store && rt.store[id].ReprText? ==> r == Fault
  {
    var order, threw := GetOrderFromStateStore(rt, id);
    if threw {
      return Fault;
    }
    if order.None? {
      return NotFound;
    }
    r := OrderBody(order.value);
  }

  /** `DeleteOrderByOrderId`: delete, and answer Ok whether or not anything was stored. */
  method DeleteOrderByOrderId(rt: Sidecar, id: string) returns (r: Reply)
    modifies rt
    ensures r == EmptyOk
    ensures rt.store == old(rt.store) - {id}
    ensures rt.trace == old(rt.trace) + [Deleted(id)]
  {
    DeleteOrderFromStateStore(rt, id);
    r := EmptyOk;
  }
}
