/**
 * Building machines: each call allocates a new machine with the given
 * identifier and an empty rule table. The overload with type tokens ignores
 * them.
 */
module Factory {
  import opened Wrappers
  import opened StateMachine

  /** The Class objects passed to the typed overload, by name. */
  type TypeToken = string

  method CreateStateMachine<S(==,!new), E(==,!new), C>(machineId: string) returns (m: SimpleStateMachine<S, E, C>)
    ensures fresh(m) && m.Valid()
    ensures m.machineId == machineId && m.transitions == map[] && m.trace == []
    ensures forall s, e :: m.GetTransition(s, e) == None
    ensures forall s, e, context :: !m.CanFireEvent(s, e, context)
  {
    m := new SimpleStateMachine(machineId);
    forall s, e, context ensures !m.CanFireEvent(s, e, context) {
      EmptyTableHasNoRules<S, E, C>(s, e, context);
    }
  }

  method CreateTypedStateMachine<S(==,!new), E(==,!new), C>(machineId: string, stateType: TypeToken, eventType: TypeToken)
    returns (m: SimpleStateMachine<S, E, C>)
    ensures fresh(m) && m.Valid()
    ensures m.machineId == machineId && m.transitions == map[] && m.trace == []
    ensures forall s, e :: m.GetTransition(s, e) == None
    ensures forall s, e, context :: !m.CanFireEvent(s, e, context)
  {
    m := new SimpleStateMachine(machineId);
    forall s, e, context ensures !m.CanFireEvent(s, e, context) {
      EmptyTableHasNoRules<S, E, C>(s, e, context);
    }
  }
}
