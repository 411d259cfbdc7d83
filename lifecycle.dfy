/** The order lifecycle as the services drive it: the snapshot the store
    creates, and the fixed effect sequences of the kitchen and delivery
    workers, with what they publish, wait and invoke. */
module Lifecycle {
  import opened Orders
  import opened Runtime

  /** The store's new order: a fresh id and the first status; every other
      field as the client sent it. */
  function Created(o: Order, id: string): Order {
    o.(orderId := Some(id), event := Some(SentToKitchen.Label()))
  }

  /** The kitchen's order once cooking starts with preparation time `p`. */
  function Cooked(o: Order, p: int): Order {
    o.(prepTime := Some(p), event := Some(Cooking.Label()))
  }

  /** `pubs` announce `statuses` one by one, each a snapshot of `base` that
      differs from it at most in its event. */
  predicate Announces(pubs: seq<Order>, statuses: seq<Status>, base: Order) {
    |pubs| == |statuses| &&
    forall i | 0 <= i < |pubs| :: pubs[i].HasStatus(statuses[i]) && SameButEvent(pubs[i], base)
  }

  /** Kitchen cycle in which the Cooking snapshot is published before the
      simulated preparation. */
  function CookPublishFirst(o: Order, p: nat): seq<Effect> {
    [Emit(Cooked(o, p)), Slept(p * 1000), Emit(Cooked(o, p).WithStatus(ReadyForDelivery))]
  }

  /** Kitchen cycle in which the Cooking snapshot is published only after the
      simulated preparation. */
  function CookSleepFirst(o: Order, p: nat): seq<Effect> {
    [Slept(p * 1000), Emit(Cooked(o, p)), Emit(Cooked(o, p).WithStatus(ReadyForDelivery))]
  }

  /** The publications and waits of the publish-first kitchen cycle. */
  lemma CookPublishFirstProjections(o: Order, p: nat)
    ensures Publications(CookPublishFirst(o, p)) == [Cooked(o, p), Cooked(o, p).WithStatus(ReadyForDelivery)]
    ensures Delays(CookPublishFirst(o, p)) == [p * 1000]
    ensures Invocations(CookPublishFirst(o, p)) == []
  {
    var c, w := Emit(Cooked(o, p)), Slept(p * 1000);
    var r := Emit(Cooked(o, p).WithStatus(ReadyForDelivery));
    assert CookPublishFirst(o, p) == [c] + ([w] + [r]);
    PublicationsAppend([c], [w] + [r]);
    PublicationsAppend([w], [r]);
    DelaysAppend([c], [w] + [r]);
    DelaysAppend([w], [r]);
    InvocationsAppend([c], [w] + [r]);
    InvocationsAppend([w], [r]);
  }

  /** The publications and waits of the sleep-first kitchen cycle. */
  lemma CookSleepFirstProjections(o: Order, p: nat)
    ensures Publications(CookSleepFirst(o, p)) == [Cooked(o, p), Cooked(o, p).WithStatus(ReadyForDelivery)]
    ensures Delays(CookSleepFirst(o, p)) == [p * 1000]
    ensures Invocations(CookSleepFirst(o, p)) == []
  {
    var c, w := Emit(Cooked(o, p)), Slept(p * 1000);
    var r := Emit(Cooked(o, p).WithStatus(ReadyForDelivery));
    assert CookSleepFirst(o, p) == [w] + ([c] + [r]);
    PublicationsAppend([w], [c] + [r]);
    PublicationsAppend([c], [r]);
    DelaysAppend([w], [c] + [r]);
    DelaysAppend([c], [r]);
    InvocationsAppend([w], [c] + [r]);
    InvocationsAppend([c], [r]);
  }

  /** Both kitchen cycles announce Cooking then Ready for delivery for the
      same order with prep time `p`, wait exactly `p` seconds once, invoke
      nothing, and publish only on the order topic. They differ only in where
      the wait stands: before the first publication or between the two. */
  lemma CookCycles(o: Order, p: nat)
    ensures Announces(Publications(CookPublishFirst(o, p)), StatusOrder[1..3], o.(prepTime := Some(p)))
    ensures Publications(CookSleepFirst(o, p)) == Publications(CookPublishFirst(o, p))
    ensures Delays(CookPublishFirst(o, p)) == Delays(CookSleepFirst(o, p)) == [p * 1000]
    ensures Invocations(CookPublishFirst(o, p)) == Invocations(CookSleepFirst(o, p)) == []
    ensures OnOrderTopic(CookPublishFirst(o, p)) && OnOrderTopic(CookSleepFirst(o, p))
    ensures CookPublishFirst(o, p)[0].Published? && CookPublishFirst(o, p)[1].Slept?
    ensures CookSleepFirst(o, p)[0].Slept? && CookSleepFirst(o, p)[1].Published?
    ensures CookSleepFirst(o, p) == [CookPublishFirst(o, p)[1], CookPublishFirst(o, p)[0], CookPublishFirst(o, p)[2]]
  {
    CookPublishFirstProjections(o, p);
    CookSleepFirstProjections(o, p);
    assert StatusOrder[1..3] == [Cooking, ReadyForDelivery];
  }

  /** One delivery stage: wait, then publish the order with the new status. */
  function Stage(o: Order, ms: nat, s: Status): seq<Effect> {
    [Slept(ms), Emit(o.WithStatus(s))]
  }

  /** The stages of `plan` one after the other, each a wait and a status. */
  function Stages(o: Order, plan: seq<(nat, Status)>): seq<Effect>
    decreases |plan|
  {
    if plan == [] then [] else Stage(o, plan[0].0, plan[0].1) + Stages(o, plan[1..])
  }

  /** The delivery worker's fixed schedule: how long it waits, in
      milliseconds, before announcing each of its five statuses. */
  const DeliveryPlan: seq<(nat, Status)> :=
    [(3000, DeliveryStarted), (3000, PickedUp), (5000, EnRoute), (5000, Nearby), (5000, Delivered)]

  /** The delivery worker's chain of five (wait, status) stages. */
  function DeliveryEffects(o: Order): seq<Effect> {
    Stage(o, 3000, DeliveryStarted) + Stage(o, 3000, PickedUp) + Stage(o, 5000, EnRoute)
    + Stage(o, 5000, Nearby) + Stage(o, 5000, Delivered)
  }

  lemma StageProjections(o: Order, ms: nat, s: Status)
    ensures Publications(Stage(o, ms, s)) == [o.WithStatus(s)]
    ensures Delays(Stage(o, ms, s)) == [ms]
    ensures Invocations(Stage(o, ms, s)) == []
  {
    assert Stage(o, ms, s) == [Slept(ms)] + [Emit(o.WithStatus(s))];
    PublicationsAppend([Slept(ms)], [Emit(o.WithStatus(s))]);
    DelaysAppend([Slept(ms)], [Emit(o.WithStatus(s))]);
    InvocationsAppend([Slept(ms)], [Emit(o.WithStatus(s))]);
  }

  /** A plan's stages alternate: a wait at every even position, the
      publication of the next status at every odd one. */
  lemma {:induction false} StagesLayout(o: Order, plan: seq<(nat, Status)>)
    ensures |Stages(o, plan)| == 2 * |plan|
    ensures forall j | 0 <= j < |Stages(o, plan)| ::
      Stages(o, plan)[j] == if j % 2 == 0 then Slept(plan[j / 2].0) else Emit(o.WithStatus(plan[j / 2].1))
    decreases |plan|
  {
    if plan != [] {
      var head, rest := Stage(o, plan[0].0, plan[0].1), Stages(o, plan[1..]);
      StagesLayout(o, plan[1..]);
      forall j | 2 <= j < |Stages(o, plan)|
        ensures Stages(o, plan)[j] == rest[j - 2]
        ensures plan[j / 2] == plan[1..][(j - 2) / 2]
      {
      }
    }
  }

  /** A plan's stages publish one snapshot per stage, the order with that
      stage's status, in the plan's order. */
  lemma {:induction false} StagesPublications(o: Order, plan: seq<(nat, Status)>)
    ensures |Publications(Stages(o, plan))| == |plan|
    ensures forall i | 0 <= i < |plan| :: Publications(Stages(o, plan))[i] == o.WithStatus(plan[i].1)
    decreases |plan|
  {
    if plan != [] {
      var head, rest := Stage(o, plan[0].0, plan[0].1), Stages(o, plan[1..]);
      StageProjections(o, plan[0].0, plan[0].1);
      PublicationsAppend(head, rest);
      StagesPublications(o, plan[1..]);
      var pubs := Publications(Stages(o, plan));
      assert pubs == [o.WithStatus(plan[0].1)] + Publications(rest);
      forall i | 1 <= i < |plan|
        ensures pubs[i] == o.WithStatus(plan[i].1)
      {
        assert pubs[i] == Publications(rest)[i - 1];
        assert plan[i] == plan[1..][i - 1];
      }
    }
  }

  /** A plan's stages wait the plan's delays, in order. */
  lemma {:induction false} StagesDelays(o: Order, plan: seq<(nat, Status)>)
    ensures |Delays(Stages(o, plan))| == |plan|
    ensures forall i | 0 <= i < |plan| :: Delays(Stages(o, plan))[i] == plan[i].0
    decreases |plan|
  {
    if plan != [] {
      var head, rest := Stage(o, plan[0].0, plan[0].1), Stages(o, plan[1..]);
      StageProjections(o, plan[0].0, plan[0].1);
      DelaysAppend(head, rest);
      StagesDelays(o, plan[1..]);
      var waits := Delays(Stages(o, plan));
      assert waits == [plan[0].0] + Delays(rest);
      forall i | 1 <= i < |plan|
        ensures waits[i] == plan[i].0
      {
        assert waits[i] == Delays(rest)[i - 1];
        assert plan[i] == plan[1..][i - 1];
      }
    }
  }

  /** A plan's stages invoke no service. */
  lemma {:induction false} StagesInvokeNothing(o: Order, plan: seq<(nat, Status)>)
    ensures Invocations(Stages(o, plan)) == []
    decreases |plan|
  {
    if plan != [] {
      StageProjections(o, plan[0].0, plan[0].1);
      InvocationsAppend(Stage(o, plan[0].0, plan[0].1), Stages(o, plan[1..]));
      StagesInvokeNothing(o, plan[1..]);
    }
  }

  /** The delivery chain is the stages of its plan. */
  lemma DeliveryEffectsStages(o: Order)
    ensures DeliveryEffects(o) == Stages(o, DeliveryPlan)
  {
    var p: seq<(nat, Status)> := DeliveryPlan;
    assert Stages(o, p[4..]) == Stage(o, 5000, Delivered) by {
      assert |p[4..][1..]| == 0;
    }
    assert Stages(o, p[3..]) == Stage(o, 5000, Nearby) + Stages(o, p[4..]) by {
      assert p[3..][1..] == p[4..];
    }
    assert Stages(o, p[2..]) == Stage(o, 5000, EnRoute) + Stages(o, p[3..]) by {
      assert p[2..][1..] == p[3..];
    }
    assert Stages(o, p[1..]) == Stage(o, 3000, PickedUp) + Stages(o, p[2..]) by {
      assert p[1..][1..] == p[2..];
    }
  }

  /** The five snapshots delivery publishes, in order. */
  lemma DeliveryPublications(o: Order)
    ensures Publications(DeliveryEffects(o)) ==
      [o.WithStatus(DeliveryStarted), o.WithStatus(PickedUp), o.WithStatus(EnRoute),
       o.WithStatus(Nearby), o.WithStatus(Delivered)]
  {
    DeliveryEffectsStages(o);
    StagesPublications(o, DeliveryPlan);
  }

  /** Delivery waits 3, 3, 5, 5 and 5 seconds: 21 seconds in all. */
  lemma DeliveryWaits(o: Order)
    ensures Delays(DeliveryEffects(o)) == [3000, 3000, 5000, 5000, 5000]
    ensures Sum(Delays(DeliveryEffects(o))) == 21000
  {
    DeliveryEffectsStages(o);
    StagesDelays(o, DeliveryPlan);
    assert Delays(DeliveryEffects(o)) == [3000, 3000, 5000, 5000, 5000];
    var w: seq<nat> := [3000, 3000, 5000, 5000, 5000];
    SumAppend(w[..1], w[1..]);
    SumAppend(w[1..2], w[2..]);
    SumAppend(w[2..3], w[3..]);
    SumAppend(w[3..4], w[4..]);
  }

  /** Delivery announces the last five lifecycle statuses in order, changing
      nothing but the event, and the last snapshot it publishes is Delivered. */
  lemma DeliveryAnnounces(o: Order)
    ensures Announces(Publications(DeliveryEffects(o)), StatusOrder[3..], o)
    ensures Publications(DeliveryEffects(o))[4].HasStatus(Delivered)
  {
    DeliveryPublications(o);
    assert StatusOrder[3..] == [DeliveryStarted, PickedUp, EnRoute, Nearby, Delivered];
  }

  /** Delivery waits before every publication, invokes nothing and publishes
      only on the order topic. */
  lemma DeliveryLayout(o: Order)
    ensures Invocations(DeliveryEffects(o)) == []
    ensures OnOrderTopic(DeliveryEffects(o))
    ensures |DeliveryEffects(o)| == 10
    ensures forall i | 0 <= i < |DeliveryEffects(o)| :: DeliveryEffects(o)[i].Slept? <==> i % 2 == 0
  {
    DeliveryEffectsStages(o);
    StagesInvokeNothing(o, DeliveryPlan);
    StagesLayout(o, DeliveryPlan);
  }
}
