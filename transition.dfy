/**
 * A transition rule: from a state, on an event, to a state, with an optional
 * guard, an optional action and an inert description. Built step by step
 * through a Builder whose unset fields stay null (None).
 */
module Transitions {
  import opened Wrappers
  import opened Faults

  /** What testing a rule's condition against a context comes to. */
  datatype GuardOutcome = Holds | Fails | GuardThrew(fault: Fault)

  /** What running a rule's action against a context comes to. */
  datatype ActionOutcome = Completed | ActionThrew(fault: Fault)

  type Guard<-C> = C -> GuardOutcome
  type Action<-C> = C -> ActionOutcome

  /** An immutable rule; every field is the value last given to the builder, or None. */
  datatype Transition<S, E, !C> = Transition(
    fromState: Option<S>,
    event: Option<E>,
    toState: Option<S>,
    condition: Option<Guard<C>>,
    action: Option<Action<C>>,
    description: Option<string>)
  {
    /** Both table keys are present, so the rule can be placed in a machine's table. */
    predicate Keyed() {
      fromState.Some? && event.Some?
    }
  }

  /** The fluent builder: each setter overwrites its own field and returns the builder. */
  class Builder<S, E, C> {
    var fromState: Option<S>
    var event: Option<E>
    var toState: Option<S>
    var condition: Option<Guard<C>>
    var action: Option<Action<C>>
    var description: Option<string>

    constructor ()
      ensures Build() == Transition(None, None, None, None, None, None)
    {
      fromState, event, toState := None, None, None;
      condition, action, description := None, None, None;
    }

    method From(s: S) returns (self: Builder<S, E, C>)
      modifies this
      ensures self == this
      ensures Build() == old(Build()).(fromState := Some(s))
    {
      fromState := Some(s);
      self := this;
    }

    method On(e: E) returns (self: Builder<S, E, C>)
      modifies this
      ensures self == this
      ensures Build() == old(Build()).(event := Some(e))
    {
      event := Some(e);
      self := this;
    }

    method To(s: S) returns (self: Builder<S, E, C>)
      modifies this
      ensures self == this
      ensures Build() == old(Build()).(toState := Some(s))
    {
      toState := Some(s);
      self := this;
    }

    method When(guard: Guard<C>) returns (self: Builder<S, E, C>)
      modifies this
      ensures self == this
      ensures Build() == old(Build()).(condition := Some(guard))
    {
      condition := Some(guard);
      self := this;
    }

    method Perform(act: Action<C>) returns (self: Builder<S, E, C>)
      modifies this
      ensures self == this
      ensures Build() == old(Build()).(action := Some(act))
    {
      action := Some(act);
      self := this;
    }

    method Description(text: string) returns (self: Builder<S, E, C>)
      modifies this
      ensures self == this
      ensures Build() == old(Build()).(description := Some(text))
    {
      description := Some(text);
      self := this;
    }

    /** A snapshot of the six fields: later setter calls cannot reach it. */
    function Build(): (t: Transition<S, E, C>)
      reads this
      ensures t.fromState == fromState && t.event == event && t.toState == toState
      ensures t.condition == condition && t.action == action && t.description == description
      ensures t.Keyed() <==> fromState.Some? && event.Some?
    {
      Transition(fromState, event, toState, condition, action, description)
    }
  }
}
