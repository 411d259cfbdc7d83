/** The order record the three pizza services pass to each other, and the
    lifecycle statuses written into its `event` field. */
module Orders {

  datatype Option<+T> = None | Some(value: T)

  /** The lifecycle statuses, in the order an order passes through them. */
  datatype Status =
    | SentToKitchen | Cooking | ReadyForDelivery
    | DeliveryStarted | PickedUp | EnRoute | Nearby | Delivered
  {
    /** The text the services write into an order's `event` field. */
    function Label(): string {
      match this
      case SentToKitchen => "Sent to kitchen"
      case Cooking => "Cooking"
      case ReadyForDelivery => "Ready for delivery"
      case DeliveryStarted => "Delivery started"
      case PickedUp => "Order picked up by driver"
      case EnRoute => "En-route"
      case Nearby => "Nearby"
      case Delivered => "Delivered"
    }
  }

  /** The whole lifecycle: the store sets the first status, the kitchen the
      next two, the delivery service the last five. */
  const StatusOrder: seq<Status> :=
    [SentToKitchen, Cooking, ReadyForDelivery, DeliveryStarted, PickedUp, EnRoute, Nearby, Delivered]

  /** An order snapshot. `None` stands for a field that is absent from the
      JSON object (or null, in the C# services); `extra` holds every other
      field the client sent (address, items, customer, ...), carried unread. */
  datatype Order = Order(
    orderId: Option<string>,
    event: Option<string>,
    prepTime: Option<int>,
    extra: map<string, string>)
  {
    /** The same snapshot with its `event` field overwritten. */
    function WithStatus(s: Status): Order {
      this.(event := Some(s.Label()))
    }

    predicate HasStatus(s: Status) {
      event == Some(s.Label())
    }
  }

  /** `b` differs from `a` at most in its `event` field. */
  predicate SameButEvent(a: Order, b: Order) {
    a.orderId == b.orderId && a.prepTime == b.prepTime && a.extra == b.extra
  }

  /** No two statuses share a label, so routing on the `event` text is routing
      on the status. */
  lemma LabelsDistinct(s: Status, t: Status)
    ensures s.Label() == t.Label() ==> s == t
  {
    if s != t {
      var a, b := s.Label(), t.Label();
      assert |a| != |b|;
    }
  }
}
