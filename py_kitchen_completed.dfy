/** The kitchen of the completed workshop (Python): it announces Cooking,
    waits the preparation time, then announces Ready for delivery. */
module PyKitchenCompleted {
  import opened Orders
  import opened Runtime
  import opened Lifecycle

  /** `publish_event`: the whole order on the order topic. */
  method PublishEvent(rt: Sidecar, o: Order)
    modifies rt
    ensures rt.store == old(rt.store)
    ensures rt.trace == old(rt.trace) + [Emit(o)]
  {
    rt.Publish(PubSubName, TopicName, o);
  }

  /** `start`: `p` is the draw of `random.randint(4, 7)`, both ends included.
      The order gets its prep time and the Cooking status, is published, and
      only then does the kitchen wait `p` seconds. */
  method Start(rt: Sidecar, o: Order, p: int) returns (prepTime: int, cooked: Order)
    requires 4 <= p <= 7
    modifies rt
    ensures prepTime == p
    ensures cooked == Cooked(o, p)
    ensures rt.store == old(rt.store)
    ensures rt.trace == old(rt.trace) + [Emit(cooked), Slept(prepTime * 1000)]
  {
    prepTime := p;
    cooked := o.(prepTime := Some(prepTime));
    cooked := cooked.(event := Some(Cooking.Label()));
    PublishEvent(rt, cooked);
    rt.Sleep(prepTime * 1000);
  }

  /** `ready`: the order gets the Ready for delivery status and is published. */
  method Ready(rt: Sidecar, o: Order) returns (readied: Order)
    modifies rt
    ensures readied == o.WithStatus(ReadyForDelivery)
    ensures rt.store == old(rt.store)
    ensures rt.trace == old(rt.trace) + [Emit(readied)]
  {
    readied := o.(event := Some(ReadyForDelivery.Label()));
    PublishEvent(rt, readied);
  }

  /** `startCooking`, the `cook` route: an order without `order_id` (or a
      body that is not a JSON object) raises before anything happens;
      otherwise the whole publish-first kitchen cycle runs. */
  method StartCooking(rt: Sidecar, body: Option<Order>, p: int) returns (r: Reply)
    requires 4 <= p <= 7
    modifies rt
    ensures rt.store == old(rt.store)
    ensures body.None? || body.value.orderId.None? ==> r == Fault && rt.trace == old(rt.trace)
    ensures body.Some? && body.value.orderId.Some? ==>
      r == SuccessTrue && rt.trace == old(rt.trace) + CookPublishFirst(body.value, p)
  {
    if body.None? || body.value.orderId.None? {
      return Fault;
    }
    var o := body.value;
    var _, cooked := Start(rt, o, p);
    var _ := Ready(rt, cooked);
    r := SuccessTrue;
  }
}
