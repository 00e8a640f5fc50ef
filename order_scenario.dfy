/**
 * A client of the engine: an order machine with states New, Paid, Shipped,
 * driven through the facade. The assertions are what a caller can conclude
 * from the contracts alone.
 */
module OrderScenario {
  import opened Wrappers
  import opened Faults
  import opened Transitions
  import opened StateMachine
  import opened Registry
  import opened Template
  import opened Factory

  datatype OrderState = New | Paid | Shipped
  datatype OrderEvent = Pay | Ship
  type OrderContext = map<string, string>

  /** Shipping needs a non-empty tracking number in the context. */
  function HasTracking(context: OrderContext): GuardOutcome {
    if "tracking" in context && context["tracking"] != "" then Holds else Fails
  }

  /** The two rules, written with the builder. */
  method BuildOrderRules() returns (pay: Transition<OrderState, OrderEvent, OrderContext>, ship: Transition<OrderState, OrderEvent, OrderContext>)
    ensures pay == Transition(Some(New), Some(Pay), Some(Paid), None, None, None)
    ensures ship == Transition(Some(Paid), Some(Ship), Some(Shipped), Some(HasTracking), None, None)
  {
    var payRule := new Builder<OrderState, OrderEvent, OrderContext>();
    payRule := payRule.From(New);
    payRule := payRule.On(Pay);
    payRule := payRule.To(Paid);
    pay := payRule.Build();

    var shipRule := new Builder<OrderState, OrderEvent, OrderContext>();
    shipRule := shipRule.From(Paid);
    shipRule := shipRule.On(Ship);
    shipRule := shipRule.To(Shipped);
    shipRule := shipRule.When(HasTracking);
    ship := shipRule.Build();

    // Changing a builder after build leaves the built rule as it was.
    payRule := payRule.To(Shipped);
    assert pay.toState == Some(Paid) && pay.condition == None && pay.action == None;
  }

  /** A new machine named "order" holding both rules; a second machine stays empty. */
  method LoadOrderMachine(pay: Transition<OrderState, OrderEvent, OrderContext>, ship: Transition<OrderState, OrderEvent, OrderContext>)
    returns (order: SimpleStateMachine<OrderState, OrderEvent, OrderContext>)
    requires pay == Transition(Some(New), Some(Pay), Some(Paid), None, None, None)
    requires ship == Transition(Some(Paid), Some(Ship), Some(Shipped), Some(HasTracking), None, None)
    ensures fresh(order) && order.Valid() && order.machineId == "order" && order.trace == []
    ensures order.GetTransition(New, Pay) == Some(pay) && order.GetTransition(Paid, Ship) == Some(ship)
  {
    order := CreateStateMachine<OrderState, OrderEvent, OrderContext>("order");
    var other := CreateStateMachine<OrderState, OrderEvent, OrderContext>("other");
    order.AddTransitions([pay, ship]);
    assert other.GetTransition(New, Pay) == None;
    ghost var rules := [pay, ship];
    assert rules[..1] == [pay] && [pay][..0] == [];
    assert PutAll(map[], [pay]) == Put(map[], pay);
    assert order.transitions == Put(Put(map[], pay), ship);
  }

  method OrderLifecycle() {
    var pay, ship := BuildOrderRules();
    var order := LoadOrderMachine(pay, ship);

    var registry := new StateMachineRegistry<OrderState, OrderEvent, OrderContext>();
    registry.RegisterStateMachine("order", order);
    var template := new StateMachineTemplate(registry);

    FireSucceeds(order.transitions, "order", New, Pay, map[], pay);
    var paid := template.FireEvent("order", New, Pay, map[]);
    assert paid == Ok(Some(Paid));
    assert |order.trace| == 2;

    FireGuardFails(order.transitions, "order", Paid, Ship, map["tracking" := ""], ship);
    var blocked := template.FireEvent("order", Paid, Ship, map["tracking" := ""]);
    assert blocked == Err(ConditionNotSatisfied);
    assert |order.trace| == 3;

    FireSucceeds(order.transitions, "order", Paid, Ship, map["tracking" := "X123"], ship);
    var shipped := template.FireEvent("order", Paid, Ship, map["tracking" := "X123"]);
    assert shipped == Ok(Some(Shipped));

    assert !template.CanFireEvent("inventory", New, Pay, map[]);
    var unknown := template.FireEvent("inventory", New, Pay, map[]);
    assert unknown == Err(MachineNotFound);
  }
}
