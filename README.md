# A verified model of a light finite-state-machine engine

This project models the core of a small, generic state-machine engine for
Spring applications. A machine holds a rule table, state to event to rule.
`fireEvent` looks up the rule for a current state and an event. It publishes a
Before notification, tests the rule's guard, runs its action, publishes an
After notification and returns the target state. `canFireEvent` is the probe
that answers without side effects. A registry maps machine identifiers to
machines, a template resolves a machine by identifier and delegates to it, and
a factory builds new, empty machines.

Files and modules:

- `wrappers.dfy` (`Wrappers`): `Option`, the model of a reference that may be null.
- `faults.dfy` (`Faults`): the error outcomes. These are the variants of
  `StateMachineException`, the guard's own exception (which `fireEvent` does
  not catch) and the template's `IllegalArgumentException` (`MachineNotFound`).
- `transition.dfy` (`Transitions`): the immutable `Transition` value and its
  `Builder` class. A builder field that was never set is `None`, as in the
  source, where it stays null.
- `state_transition_event.dfy` (`TransitionEvents`): the `Before`/`After`
  notification value.
- `simple_state_machine.dfy` (`StateMachine`): the rule table and the firing
  protocol. They are given as functions over the table value (`Lookup`, `Put`,
  `PutAll`, `Fire`, `CanFire`) together with the lemmas about them. The
  `SimpleStateMachine` class updates its table in place and is proved against
  those functions.
- `state_machine_registry.dfy` (`Registry`), `state_machine_template.dfy`
  (`Template`), `state_machine_factory.dfy` (`Factory`): the support classes.
- `order_scenario.dfy` (`OrderScenario`): a client. It builds an order machine
  (New, Paid, Shipped) with the builder, registers it and drives it through
  the template, using the contracts and the function definitions.

Modelling choices:

- Guards and actions are total functions of the context. A guard returns
  `Holds`, `Fails` or `GuardThrew(fault)`. An action returns `Completed` or
  `ActionThrew(fault)`.
- Publishing a notification and running an action are recorded, in order, in
  each machine's ghost `trace`. Both calls go to code outside the core. A
  failed `fireEvent` therefore still shows the Before notice it published.
  When the action throws, the trace also shows that the action ran.
- The Before notice is modelled as the source writes it. Its event slot holds
  the rule's target state (`SimpleStateMachine.java:110-111`). In the source
  this notice is typed `Before<S,S>` and the After notice `After<S,E>`.
  Published notices therefore carry an `EventSlot`: `StateInSlot(toState)` for
  Before and `EventInSlot(event)` for After.
- The transition table keeps one invariant (`WellFormed`). Every rule sits
  under its own `(fromState, event)` key, and a state is present only with at
  least one rule. The invariant holds because the model only inserts rules
  whose from-state and event are both set. Then the `put` after
  `computeIfAbsent` always succeeds (`SimpleStateMachine.java:65-66`). In the
  source, a rule with a null event breaks this invariant (see Left out). With
  the invariant, a state with no rules fails with `NoTransitionsForState`, and
  a known state without a rule for the event fails with `EventNotAllowed`.
- A rule's target state may be null in the source. `fireEvent` therefore
  returns `Ok(Option<S>)`.
- `getMachineId` is the constant field `machineId`, which the constructor sets.
  `GetMachineId` returns it.
- On one point the code and its own Javadoc disagree. The comment on
  `getTransitions` (`SimpleStateMachine.java:181`) calls the result an
  immutable, read-only view. The code wraps only
  the outer map in `Collections.unmodifiableMap`, so the inner per-state maps
  can still be changed through the view. The model follows the code's
  reading-side behaviour and returns the table value; see Left out.

## Model

| member | source | states |
|---|---|---|
| `Transitions.Builder.constructor` | src/main/java/com/yongs/statemachine/core/Transition.java:84-89 | a new builder builds a rule whose six fields are all absent; guard and action default to none |
| `Transitions.Builder.From` | src/main/java/com/yongs/statemachine/core/Transition.java:94-97 | returns the same builder; the rule it builds now has this from-state and every other field as before |
| `Transitions.Builder.On` | src/main/java/com/yongs/statemachine/core/Transition.java:102-105 | returns the same builder; only the event of the built rule changes, to the value given |
| `Transitions.Builder.To` | src/main/java/com/yongs/statemachine/core/Transition.java:110-113 | returns the same builder; only the target state of the built rule changes |
| `Transitions.Builder.When` | src/main/java/com/yongs/statemachine/core/Transition.java:118-121 | returns the same builder; only the condition of the built rule changes |
| `Transitions.Builder.Perform` | src/main/java/com/yongs/statemachine/core/Transition.java:126-129 | returns the same builder; only the action of the built rule changes |
| `Transitions.Builder.Description` | src/main/java/com/yongs/statemachine/core/Transition.java:134-137 | returns the same builder; only the description of the built rule changes |
| `Transitions.Builder.Build` | src/main/java/com/yongs/statemachine/core/Transition.java:142-144 | the built rule carries the six builder fields as they stand at the call; it has a key, and so can be added to a machine, exactly when from-state and event were both set |
| `TransitionEvents.VariantsDifferOnlyInTag` | src/main/java/com/yongs/statemachine/event/StateTransitionEvent.java:43-86 | Before and After built from the same five arguments differ only in tag; each getter returns its constructor argument, and the event source is the context |
| `StateMachine.Put` | src/main/java/com/yongs/statemachine/core/SimpleStateMachine.java:61-67 | after inserting a rule, looking up its key gives that rule; every other (state, event) lookup is unchanged; the table invariant is kept |
| `StateMachine.PutAll` | src/main/java/com/yongs/statemachine/core/SimpleStateMachine.java:72-76 | inserting rules one by one in argument order keeps the table invariant |
| `StateMachine.PutAllLastWins` | src/main/java/com/yongs/statemachine/core/SimpleStateMachine.java:72-76 | after a batch insert, each key holds the last rule given for it, or what it held before when none was given |
| `StateMachine.PutSameKeyKeepsLater` | src/main/java/com/yongs/statemachine/core/SimpleStateMachine.java:61-67 | inserting two rules with the same key leaves exactly the table that inserting only the later one gives |
| `StateMachine.StatePresentIffHasRule` | src/main/java/com/yongs/statemachine/core/SimpleStateMachine.java:62-66 | in a well-formed table, a state has a rule set exactly when some rule starts from it |
| `StateMachine.FireWithoutRulesForState` | src/main/java/com/yongs/statemachine/core/SimpleStateMachine.java:95-100 | a state with no rules fails with NoTransitionsForState; nothing is published and no action runs |
| `StateMachine.FireWithoutRuleForEvent` | src/main/java/com/yongs/statemachine/core/SimpleStateMachine.java:102-107 | a state with rules but none for the event fails with EventNotAllowed; nothing is published and no action runs |
| `StateMachine.FireGuardFails` | src/main/java/com/yongs/statemachine/core/SimpleStateMachine.java:109-119 | a guard that says no gives ConditionNotSatisfied after exactly one Before notice (target state in the event slot); no action, no After |
| `StateMachine.FireGuardThrows` | src/main/java/com/yongs/statemachine/core/SimpleStateMachine.java:113-115 | a throwing guard is not caught: its fault is raised after the Before notice, with no action and no After |
| `StateMachine.FireActionThrows` | src/main/java/com/yongs/statemachine/core/SimpleStateMachine.java:121-129 | a throwing action gives ActionFailed carrying the original fault; the Before notice and the action run happened; no After |
| `StateMachine.FireSucceeds` | src/main/java/com/yongs/statemachine/core/SimpleStateMachine.java:109-139 | success returns the rule's target state; the effects are exactly Before, the action once if present, then After with the event |
| `StateMachine.FireOkIff` | src/main/java/com/yongs/statemachine/core/SimpleStateMachine.java:93-140 | fireEvent returns a state if and only if a rule exists, its guard holds and its action completes, and the state returned is the rule's target |
| `StateMachine.FireFollowsProtocol` | src/main/java/com/yongs/statemachine/core/SimpleStateMachine.java:93-140 | the effects of every firing are a prefix of Before, action, After (empty when no rule is found), and the whole sequence exactly when it succeeds |
| `StateMachine.CanFireIffFirePassesGuard` | src/main/java/com/yongs/statemachine/core/SimpleStateMachine.java:146-163 | the probe is true exactly when firing would pass the guard, that is, it succeeds or fails only in the action; a guard fault reads as false |
| `StateMachine.FireErrorsAreEngineErrors` | src/main/java/com/yongs/statemachine/core/SimpleStateMachine.java:98-127 | fireEvent never raises the template's MachineNotFound; what it raises fails to be a StateMachineException exactly when a rule was found and its guard threw an exception that is not a StateMachineException or a subclass, which passes through unwrapped |
| `StateMachine.EmptyTableHasNoRules` | src/main/java/com/yongs/statemachine/core/SimpleStateMachine.java:41 | an empty table has no rule for any pair and can fire nothing |
| `StateMachine.SimpleStateMachine.constructor` | src/main/java/com/yongs/statemachine/core/SimpleStateMachine.java:52-55 | the machine has the given identifier, an empty table and an empty trace |
| `StateMachine.SimpleStateMachine.AddTransition` | src/main/java/com/yongs/statemachine/core/SimpleStateMachine.java:61-67 | the table becomes Put of the old table and the rule; the invariant holds and nothing is published |
| `StateMachine.SimpleStateMachine.AddTransitions` | src/main/java/com/yongs/statemachine/core/SimpleStateMachine.java:72-76 | the table becomes the old one with each rule inserted in argument order |
| `StateMachine.SimpleStateMachine.FireEvent` | src/main/java/com/yongs/statemachine/core/SimpleStateMachine.java:93-140 | returns what the protocol Fire gives, appends exactly its effects to the trace and leaves the table unchanged |
| `StateMachine.SimpleStateMachine.CanFireEvent` | src/main/java/com/yongs/statemachine/core/SimpleStateMachine.java:146-163 | true if and only if a rule exists for the pair and either it has no guard or the guard holds |
| `StateMachine.SimpleStateMachine.GetTransition` | src/main/java/com/yongs/statemachine/core/SimpleStateMachine.java:168-171 | a rule found for (state, event) has exactly that from-state and event |
| `StateMachine.SimpleStateMachine.GetMachineId` | src/main/java/com/yongs/statemachine/core/SimpleStateMachine.java:176-178 | always returns the identifier the constructor was given, which never changes |
| `StateMachine.SimpleStateMachine.GetTransitions` | src/main/java/com/yongs/statemachine/core/SimpleStateMachine.java:183-185 | the returned table agrees with GetTransition on every pair |
| `Registry.StateMachineRegistry.constructor` | src/main/java/com/yongs/statemachine/support/StateMachineRegistry.java:24 | a new registry holds no machines |
| `Registry.StateMachineRegistry.RegisterStateMachine` | src/main/java/com/yongs/statemachine/support/StateMachineRegistry.java:29-31 | afterwards the identifier resolves to the machine, replacing any earlier one; every other identifier resolves as before |
| `Registry.StateMachineRegistry.GetStateMachine` | src/main/java/com/yongs/statemachine/support/StateMachineRegistry.java:36-39 | present exactly for a registered identifier, and then it is the machine registered under it |
| `Registry.StateMachineRegistry.UnregisterStateMachine` | src/main/java/com/yongs/statemachine/support/StateMachineRegistry.java:44-46 | afterwards the identifier is absent and not contained; other identifiers are unchanged; no-op for an absent identifier |
| `Registry.StateMachineRegistry.GetAllMachineIds` | src/main/java/com/yongs/statemachine/support/StateMachineRegistry.java:51-53 | an identifier is in the set exactly when it resolves to a machine |
| `Registry.StateMachineRegistry.ContainsStateMachine` | src/main/java/com/yongs/statemachine/support/StateMachineRegistry.java:58-60 | true exactly when GetStateMachine finds a machine |
| `Template.StateMachineTemplate.constructor` | src/main/java/com/yongs/statemachine/support/StateMachineTemplate.java:25-27 | the template works over the registry it is given |
| `Template.StateMachineTemplate.FireEvent` | src/main/java/com/yongs/statemachine/support/StateMachineTemplate.java:32-43 | an unknown identifier fails with MachineNotFound, which is not a StateMachineException, and nothing changes; a known one gives exactly the machine's own firing result and effects; an error is MachineNotFound exactly when the identifier is unknown; the registry never changes |
| `Template.StateMachineTemplate.CanFireEvent` | src/main/java/com/yongs/statemachine/support/StateMachineTemplate.java:48-57 | false for an unknown identifier; otherwise equal to the machine's own probe |
| `Factory.CreateStateMachine` | src/main/java/com/yongs/statemachine/support/StateMachineFactory.java:34-36 | a new machine with the given identifier, no rule for any pair, nothing that can fire and an empty trace |
| `Factory.CreateTypedStateMachine` | src/main/java/com/yongs/statemachine/support/StateMachineFactory.java:41-47 | the type tokens are ignored: the same guarantees as the one-argument form |
| `OrderScenario.BuildOrderRules` | src/main/java/com/yongs/statemachine/core/Transition.java:71-79 | chaining from/on/to/when and then build gives rules carrying exactly the values given, with unset fields absent |

## Left out

- AddTransition: requires a rule whose from-state and event are both set. In the source a null key makes the concurrent map throw NullPointerException, and that is not modelled. With a null event the exception comes only after `computeIfAbsent` has put an empty rule set under the from-state (`SimpleStateMachine.java:65-66`). That state then stays in the table with no rules, and a later `fireEvent` from it fails with EventNotAllowed rather than NoTransitionsForState. The model does not capture this lasting change to the table.
- AddTransitions: requires every rule to be keyed, for the same reason.
- Concurrency: the concurrent maps' thread safety and interleaved firings are not modelled. Every operation runs sequentially.
- Notification delivery: publishing is recorded in the machine's ghost trace. Listeners, their ordering and their faults are not modelled, and neither is the shared application context.
- Guard and action effects: a guard is a pure function, so testing it leaves no trace entry. An action's effect on the world is only recorded as "ran".
- The split between Java `Exception` and `Error` is not modelled at either catch. When an action throws (`SimpleStateMachine.java:126`), the model wraps every fault, but the source wraps only an `Exception` and lets an `Error` through. When a guard throws inside canFireEvent (`SimpleStateMachine.java:159`), the model answers false for every fault, but the source catches only an `Exception`, so an `Error` escapes the probe.
- Template.StateMachineTemplate.FireEvent: MachineNotFound is a variant of its own in the model. In Java it is an `IllegalArgumentException`, so a guard that throws `IllegalArgumentException` reaches a caller of the template in the same form as an unknown identifier. The model keeps the two apart.
- The notification's timestamp is not modelled. The base class is Spring's `ApplicationEvent` (`StateTransitionEvent.java:3`, `:13`), whose constructor stamps each event with the current clock time. The model has no clock, so Before and After notices carry no time, and `VariantsDifferOnlyInTag` compares them without one.
- Error message texts are not modelled, only the error kind and its cause.
- Null arguments other than unset builder fields are not modelled: null setter arguments, null state, event or identifier, and a null context (rejected by the event base class).
- StateMachine.SimpleStateMachine.GetTransitions: returns the table as a value. In the source the outer map is a read-only live view, but its inner per-state maps stay writable and live. That aliasing is not modelled.
- Registry.StateMachineRegistry.GetAllMachineIds: returns the identifier set as a value, not the live key-set view of the source.
- The registry's unchecked generic cast is not modelled. One registry holds machines over a single state, event and context type.
- The transition's description is carried but never read.
- The Spring auto-configuration, its properties class and the enabling annotation are not part of this model. They only wire beans together.
