/** The C# store's typed `Order`: deserialising a JSON order into it keeps
    the properties the class declares and drops every other field. */
module CsOrder {
  import opened Orders

  /** The JSON names of the class's properties besides `order_id` and `event`. */
  const DeclaredFields: set<string> := {"address", "creditCard", "customer", "drink", "items"}

  /** The order as the C# store sees it once deserialised: the id and the
      event are kept, `prep_time` is lost (the class has no such property),
      and of the other fields only the declared ones survive, unchanged. */
  function Typed(o: Order): (t: Order)
    ensures t.orderId == o.orderId && t.event == o.event
    ensures t.prepTime == None
    ensures t.extra.Keys == o.extra.Keys * DeclaredFields
    ensures forall k | k in t.extra :: t.extra[k] == o.extra[k]
  {
    o.(prepTime := None, extra := map k | k in o.extra && k in DeclaredFields :: o.extra[k])
  }

  /** An order the store wrote itself reads back unchanged: deserialising a
      typed order loses nothing more. */
  lemma TypedRoundTrip(o: Order)
    ensures Typed(Typed(o)) == Typed(o)
  {
    var t := Typed(o);
    assert Typed(t).extra == t.extra;
  }
}
