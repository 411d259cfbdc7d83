/** The order store of the C# starting point: new orders get an id and are
    published, but their event is left as the client sent it; received
    events are saved and never forwarded. */
module CsStoreStarter {
  import opened Orders
  import opened Runtime
  import opened CsOrder

  /** `SaveOrderToStateStore`: as in the completed store, a null `OrderId`
      makes the save fail (`saved` is false) without effect. */
  method SaveOrderToStateStore(rt: Sidecar, o: Order) returns (saved: bool)
    modifies rt
    ensures saved == o.orderId.Some?
    ensures !saved ==> rt.store == old(rt.store) && rt.trace == old(rt.trace)
    ensures saved ==>
      && rt.store == old(rt.store)[o.orderId.value := JsonText(o)]
      && rt.trace == old(rt.trace) + [Saved(o.orderId.value, JsonText(o))]
  {
    if o.orderId.None? {
      return false;
    }
    rt.Save(o.orderId.value, JsonText(o));
    saved := true;
  }

  /** `GetOrderFromStateStore`: the stored order as the typed class reads it,
      null (`None`) when nothing is stored; text that is not JSON makes
      deserialisation throw. */
  method GetOrderFromStateStore(rt: Sidecar, id: string) returns (order: Option<Order>, threw: bool)
    ensures threw <==> id in rt.store && rt.store[id].ReprText?
    ensures !threw && id in rt.store ==> order == Some(Typed(rt.store[id].order))
    ensures !threw && id !in rt.store ==> order == None
  {
    var data := rt.Get(id);
    if data.Some? && data.value.ReprText? {
      return None, true;
    }
    order := if data.Some? then Some(Typed(data.value.order)) else None;
    threw := false;
  }

  /** `DeleteOrderFromStateStore`. */
  method DeleteOrderFromStateStore(rt: Sidecar, id: string)
    modifies rt
    ensures rt.store == old(rt.store) - {id}
    ensures rt.trace == old(rt.trace) + [Deleted(id)]
  {
    rt.Delete(id);
  }

  /** What `Process` does with an order that has an `OrderId`: save it, and
      wait four seconds for Sent to kitchen, where nothing follows. */
  function ProcessEffects(o: Order): seq<Effect>
    requires o.orderId.Some?
  {
    [Saved(o.orderId.value, JsonText(o))]
    + (if o.HasStatus(SentToKitchen) then [Slept(4000)] else [])
  }

  /** `Process`, the `/events` route, on the event's (unwrapped) `data`
      object as published: `None` when it is null. The store works on its
      typed deserialisation, which drops `prep_time` and undeclared fields. */
  method Process(rt: Sidecar, data: Option<Order>) returns (r: Reply)
    modifies rt
    ensures data.None? ==> r == BadRequest && rt.store == old(rt.store) && rt.trace == old(rt.trace)
    ensures data.Some? && data.value.orderId.None? ==>
      r == Fault && rt.store == old(rt.store) && rt.trace == old(rt.trace)
    ensures data.Some? && data.value.orderId.Some? ==>
      && r == EmptyOk
      && rt.store == old(rt.store)[data.value.orderId.value := JsonText(Typed(data.value))]
      && rt.trace == old(rt.trace) + ProcessEffects(Typed(data.value))
  {
    if data.None? {
      return BadRequest;
    }
    var order := Typed(data.value);
    var saved := SaveOrderToStateStore(rt, order);
    if !saved {
      return Fault;
    }
    if order.event == Some(SentToKitchen.Label()) {
      rt.Sleep(4000);
    }
    if order.event == Some(ReadyForDelivery.Label()) {
      // delivery is not started yet at this stage of the workshop
    }
    r := EmptyOk;
  }

  /** Whatever its event, `Process` saves the order first and then neither
      publishes nor invokes anything. */
  lemma ProcessNeverForwards(o: Order)
    requires o.orderId.Some?
    ensures ProcessEffects(o)[0] == Saved(o.orderId.value, JsonText(o))
    ensures Publications(ProcessEffects(o)) == []
    ensures Invocations(ProcessEffects(o)) == []
  {
    var save: seq<Effect> := [Saved(o.orderId.value, JsonText(o))];
    var wait: seq<Effect> := if o.HasStatus(SentToKitchen) then [Slept(4000)] else [];
    InvocationsAppend(save, wait);
    PublicationsAppend(save, wait);
  }

  /** `PostOrder`, the `/orders` route, on the posted JSON object: a null
      body is a bad request with no effect; otherwise the typed order gets a
      new GUID, keeps the event the client sent, is published once and is
      answered back. Nothing is saved. */
  method PostOrder(rt: Sidecar, body: Option<Order>, guid: string) returns (r: Reply)
    modifies rt
    ensures rt.store == old(rt.store)
    ensures body.None? ==> r == BadRequest && rt.trace == old(rt.trace)
    ensures body.Some? ==>
      var posted := Typed(body.value).(orderId := Some(guid));
      r == OrderBody(posted) && rt.trace == old(rt.trace) + [Emit(posted)]
  {
    if body.None? {
      return BadRequest;
    }
    var order := Typed(body.value);
    order := order.(orderId := Some(guid));
    rt.Publish(PubSubName, TopicName, order);
    r := OrderBody(order);
  }

  /** `GetOrderByOrderId`: not found when nothing is stored, the order when it is. */
  method GetOrderByOrderId(rt: Sidecar, id: string) returns (r: Reply)
    ensures id !in rt.store ==> r == NotFound
    ensures id in rt.store && rt.store[id].JsonText? ==> r == OrderBody(Typed(rt.store[id].order))
    ensures id in rt.store && rt.store[id].ReprText? ==> r == Fault
  {
    var order, threw := GetOrderFromStateStore(rt, id);
    if threw {
      return Fault;
    }
    if order.None? {
      return NotFound;
    }
    r := OrderBody(order.value);
  }

  /** `DeleteOrderByOrderId`: delete, and answer Ok whether or not anything was stored. */
  method DeleteOrderByOrderId(rt: Sidecar, id: string) returns (r: Reply)
    modifies rt
    ensures r == EmptyOk
    ensures rt.store == old(rt.store) - {id}
    ensures rt.trace == old(rt.trace) + [Deleted(id)]
  {
    DeleteOrderFromStateStore(rt, id);
    r := EmptyOk;
  }
}
