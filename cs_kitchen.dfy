/** The kitchen of the completed workshop (C#): it announces Cooking, waits
    the preparation time, then announces Ready for delivery, and answers with
    the order as it leaves the kitchen. */
module CsKitchen {
  import opened Orders
  import opened Runtime
  import opened Lifecycle

  /** `PublishEvent`: a null order is a bad request and nothing is published. */
  method PublishEvent(rt: Sidecar, order: Option<Order>) returns (r: Reply)
    modifies rt
    ensures rt.store == old(rt.store)
    ensures order.None? ==> r == BadRequest && rt.trace == old(rt.trace)
    ensures order.Some? ==> r == EmptyOk && rt.trace == old(rt.trace) + [Emit(order.value)]
  {
    if order.None? {
      return BadRequest;
    }
    rt.Publish(PubSubName, TopicName, order.value);
    r := EmptyOk;
  }

  /** `StartCooking`: `p` is the draw of `new Random().Next(4, 7)`, whose upper
      bound is excluded, so 4, 5 or 6. The order gets its prep time and the
      Cooking status, is published, and then the kitchen waits `p` seconds. */
  method StartCooking(rt: Sidecar, order: Order, p: int) returns (cooked: Order)
    requires 4 <= p < 7
    modifies rt
    ensures cooked == Cooked(order, p)
    ensures rt.store == old(rt.store)
    ensures rt.trace == old(rt.trace) + [Emit(cooked), Slept(p * 1000)]
  {
    var prepTime := p;
    cooked := order.(prepTime := Some(prepTime));
    cooked := cooked.(event := Some(Cooking.Label()));
    var _ := PublishEvent(rt, Some(cooked));
    rt.Sleep(prepTime * 1000);
  }

  /** `ReadyForDelivery`: the Ready for delivery status, published once. */
  method ReadyForDelivery(rt: Sidecar, order: Order) returns (readied: Order)
    modifies rt
    ensures readied == order.WithStatus(Status.ReadyForDelivery)
    ensures rt.store == old(rt.store)
    ensures rt.trace == old(rt.trace) + [Emit(readied)]
  {
    readied := order.(event := Some(Status.ReadyForDelivery.Label()));
    var _ := PublishEvent(rt, Some(readied));
  }

  /** `PostOrder`, the `cook` route: a null body is a bad request with no
      effect; otherwise the whole publish-first kitchen cycle runs and the
      answer is the order with its prep time and Ready for delivery. */
  method PostOrder(rt: Sidecar, body: Option<Order>, p: int) returns (r: Reply)
    requires 4 <= p < 7
    modifies rt
    ensures rt.store == old(rt.store)
    ensures body.None? ==> r == BadRequest && rt.trace == old(rt.trace)
    ensures body.Some? ==>
      && r == OrderBody(Cooked(body.value, p).WithStatus(Status.ReadyForDelivery))
      && rt.trace == old(rt.trace) + CookPublishFirst(body.value, p)
  {
    if body.None? {
      return BadRequest;
    }
    var order := body.value;
    order := StartCooking(rt, order, p);
    order := ReadyForDelivery(rt, order);
    r := OrderBody(order);
  }
}
