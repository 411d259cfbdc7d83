/** The delivery service of the completed workshop (C#): the fixed chain of
    five waits and statuses, answered with the delivered order. */
module CsDelivery {
  import opened Orders
  import opened Runtime
  import opened Lifecycle

  /** `PublishEvent`: a null order is a bad request and nothing is published. */
  method PublishEvent(rt: Sidecar, order: Option<Order>) returns (r: Reply)
    modifies rt
    ensures rt.store == old(rt.store)
    ensures order.None? ==> r == BadRequest && rt.trace == old(rt.trace)
    ensures order.Some? ==> r == EmptyOk && rt.trace == old(rt.trace) + [Emit(order.value)]
  {
    if order.None? {
      return BadRequest;
    }
    rt.Publish(PubSubName, TopicName, order.value);
    r := EmptyOk;
  }

  /** `StartDelivery`: overwrites `Event` five times, each after a delay and
      followed by a publication; `delivered` is the order afterwards. */
  method StartDelivery(rt: Sidecar, order: Order) returns (delivered: Order)
    modifies rt
    ensures delivered == order.WithStatus(Delivered)
    ensures rt.store == old(rt.store)
    ensures rt.trace == old(rt.trace) + DeliveryEffects(order)
  {
    delivered := order;
    rt.Sleep(3000);
    delivered := delivered.(event := Some(DeliveryStarted.Label()));
    var _ := PublishEvent(rt, Some(delivered));

    rt.Sleep(3000);
    delivered := delivered.(event := Some(PickedUp.Label()));
    var _ := PublishEvent(rt, Some(delivered));

    rt.Sleep(5000);
    delivered := delivered.(event := Some(EnRoute.Label()));
    var _ := PublishEvent(rt, Some(delivered));

    rt.Sleep(5000);
    delivered := delivered.(event := Some(Nearby.Label()));
    var _ := PublishEvent(rt, Some(delivered));

    rt.Sleep(5000);
    delivered := delivered.(event := Some(Delivered.Label()));
    var _ := PublishEvent(rt, Some(delivered));
  }

  /** `PostOrder`, the `deliver` route: a null body is a bad request with no
      effect; otherwise the whole delivery chain runs and the answer is the
      order with status Delivered. */
  method PostOrder(rt: Sidecar, body: Option<Order>) returns (r: Reply)
    modifies rt
    ensures rt.store == old(rt.store)
    ensures body.None? ==> r == BadRequest && rt.trace == old(rt.trace)
    ensures body.Some? ==>
      r == OrderBody(body.value.WithStatus(Delivered)) && rt.trace == old(rt.trace) + DeliveryEffects(body.value)
  {
    if body.None? {
      return BadRequest;
    }
    var order := StartDelivery(rt, body.value);
    r := OrderBody(order);
  }
}
