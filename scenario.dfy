/** One order's whole life through the completed Python services: the store
    creates and publishes it, its subscriber hands it to the kitchen, the
    kitchen announces two statuses, the subscriber hands the second to
    delivery, and delivery announces the last five. */
module Scenario {
  import opened Orders
  import opened Runtime
  import opened Lifecycle
  import PyStoreCompleted

  /** Every snapshot published for one order, in order: the store's new
      order, then what the kitchen publishes when it cooks that order, then
      what delivery publishes when it delivers the kitchen's last snapshot. */
  function LifecyclePublications(o: Order, id: string, p: nat): seq<Order> {
    var created := Created(o, id);
    var ready := Cooked(created, p).WithStatus(ReadyForDelivery);
    [created] + Publications(CookPublishFirst(created, p)) + Publications(DeliveryEffects(ready))
  }

  /** The eight snapshots carry the eight lifecycle statuses in order, all
      with the fresh id and the client's other fields, and from Cooking on the
      kitchen's prep time. */
  lemma LifecycleSnapshots(o: Order, id: string, p: nat)
    ensures |LifecyclePublications(o, id, p)| == |StatusOrder|
    ensures forall i | 0 <= i < |StatusOrder| ::
      var snap := LifecyclePublications(o, id, p)[i];
      snap.HasStatus(StatusOrder[i]) && snap.orderId == Some(id) && snap.extra == o.extra
    ensures forall i | 1 <= i < |StatusOrder| :: LifecyclePublications(o, id, p)[i].prepTime == Some(p)
  {
    var created := Created(o, id);
    var ready := Cooked(created, p).WithStatus(ReadyForDelivery);
    var cooks := Publications(CookPublishFirst(created, p));
    var deliveries := Publications(DeliveryEffects(ready));
    var pubs := LifecyclePublications(o, id, p);
    CookCycles(created, p);
    DeliveryAnnounces(ready);
    forall i | 0 <= i < 8
      ensures pubs[i].HasStatus(StatusOrder[i]) && pubs[i].orderId == Some(id) && pubs[i].extra == o.extra
      ensures 1 <= i ==> pubs[i].prepTime == Some(p)
    {
      if i == 0 {
      } else if i < 3 {
        assert pubs[i] == cooks[i - 1] && StatusOrder[i] == StatusOrder[1..3][i - 1];
      } else {
        assert pubs[i] == deliveries[i - 3] && StatusOrder[i] == StatusOrder[3..][i - 3];
      }
    }
  }

  /** The store's subscriber forwards exactly the first snapshot to the
      kitchen and exactly the third to delivery, and those are the orders the
      kitchen cooks and delivery delivers; the other six are only saved. */
  lemma LifecycleRouting(o: Order, id: string, p: nat)
    ensures var pubs := LifecyclePublications(o, id, p);
      && |pubs| == 8
      && PyStoreCompleted.SubscriberEffects.requires(pubs[0])
      && Invocations(PyStoreCompleted.SubscriberEffects(pubs[0])) == [(KitchenApp, CookRoute, Created(o, id))]
      && PyStoreCompleted.SubscriberEffects.requires(pubs[2])
      && Invocations(PyStoreCompleted.SubscriberEffects(pubs[2])) ==
           [(DeliveryApp, DeliverRoute, Cooked(Created(o, id), p).WithStatus(ReadyForDelivery))]
      && forall i | 0 <= i < 8 && i != 0 && i != 2 ::
           PyStoreCompleted.SubscriberEffects.requires(pubs[i])
           && Invocations(PyStoreCompleted.SubscriberEffects(pubs[i])) == []
  {
    var pubs := LifecyclePublications(o, id, p);
    LifecycleSnapshots(o, id, p);
    forall i | 0 <= i < 8
      ensures pubs[i].orderId.Some? && pubs[i].event.Some?
      ensures var routed := Invocations(PyStoreCompleted.SubscriberEffects(pubs[i]));
        && (i == 0 ==> routed == [(KitchenApp, CookRoute, Created(o, id))])
        && (i == 2 ==> routed == [(DeliveryApp, DeliverRoute, Cooked(Created(o, id), p).WithStatus(ReadyForDelivery))])
        && (i != 0 && i != 2 ==> routed == [])
    {
      PyStoreCompleted.SubscriberRoutes(pubs[i]);
      LabelsDistinct(StatusOrder[i], SentToKitchen);
      LabelsDistinct(StatusOrder[i], ReadyForDelivery);
    }
  }

  /** Once the subscriber has received all eight snapshots, in order, the
      store holds the Delivered one under the order's id. */
  lemma LifecycleStored(o: Order, id: string, p: nat, store: map<string, Stored>)
    ensures var pubs := LifecyclePublications(o, id, p);
      && |pubs| == 8
      && id in PyStoreCompleted.ReceivedAll(store, pubs)
      && PyStoreCompleted.ReceivedAll(store, pubs)[id] == JsonText(pubs[7])
      && pubs[7].HasStatus(Delivered)
      && pubs[7].orderId == Some(id)
  {
    var pubs := LifecyclePublications(o, id, p);
    LifecycleSnapshots(o, id, p);
    PyStoreCompleted.ReceivedAllKeepsLast(store, pubs, id);
  }
}
