/** The delivery service of the completed workshop (Python): a fixed chain
    of five waits, each followed by a new status and a publication. */
module PyDeliveryCompleted {
  import opened Orders
  import opened Runtime
  import opened Lifecycle

  /** `publish_event`: the whole order on the order topic. */
  method PublishEvent(rt: Sidecar, o: Order)
    modifies rt
    ensures rt.store == old(rt.store)
    ensures rt.trace == old(rt.trace) + [Emit(o)]
  {
    rt.Publish(PubSubName, TopicName, o);
  }

  /** `deliver`: rewrites the order's `event` five times in place, publishing
      after each wait; `delivered` is the caller's order afterwards. */
  method Deliver(rt: Sidecar, o: Order) returns (delivered: Order)
    modifies rt
    ensures delivered == o.WithStatus(Delivered)
    ensures rt.store == old(rt.store)
    ensures rt.trace == old(rt.trace) + DeliveryEffects(o)
  {
    delivered := o;
    rt.Sleep(3000);
    delivered := delivered.(event := Some(DeliveryStarted.Label()));
    PublishEvent(rt, delivered);

    rt.Sleep(3000);
    delivered := delivered.(event := Some(PickedUp.Label()));
    PublishEvent(rt, delivered);

    rt.Sleep(5000);
    delivered := delivered.(event := Some(EnRoute.Label()));
    PublishEvent(rt, delivered);

    rt.Sleep(5000);
    delivered := delivered.(event := Some(Nearby.Label()));
    PublishEvent(rt, delivered);

    rt.Sleep(5000);
    delivered := delivered.(event := Some(Delivered.Label()));
    PublishEvent(rt, delivered);
  }

  /** `startDelivery`, the `deliver` route: an order without `order_id` (or a
      body that is not a JSON object) raises before anything happens;
      otherwise it answers only once the whole delivery chain has run. */
  method StartDelivery(rt: Sidecar, body: Option<Order>) returns (r: Reply)
    modifies rt
    ensures rt.store == old(rt.store)
    ensures body.None? || body.value.orderId.None? ==> r == Fault && rt.trace == old(rt.trace)
    ensures body.Some? && body.value.orderId.Some? ==>
      r == SuccessTrue && rt.trace == old(rt.trace) + DeliveryEffects(body.value)
  {
    if body.None? || body.value.orderId.None? {
      return Fault;
    }
    var _ := Deliver(rt, body.value);
    r := SuccessTrue;
  }
}
