/**
 * The ways a call into the engine can end abnormally: the variants of
 * StateMachineException, the guard's own exception that fireEvent lets
 * through, and the facade's IllegalArgumentException.
 */
module Faults {

  /**
   * An exception raised by caller-supplied code (a guard or an action): its
   * class and the names of all the classes it extends.
   */
  datatype Fault = Fault(exceptionClass: string, supertypes: set<string>)
  {
    /** Would a Java `catch` of the named class catch this exception? */
    predicate IsA(name: string) {
      name == exceptionClass || name in supertypes
    }
  }

  datatype MachineError =
    | NoTransitionsForState
    | EventNotAllowed
    | ConditionNotSatisfied
    | ActionFailed(cause: Fault)
    | GuardFault(fault: Fault)
    | MachineNotFound
  {
    /**
     * Reaches the caller as a StateMachineException: the engine's own errors
     * always do, a guard's fault when the guard threw one (or a subclass),
     * and the facade's IllegalArgumentException never does.
     */
    predicate IsStateMachineException() {
      match this
      case GuardFault(f) => f.IsA("StateMachineException")
      case MachineNotFound => false
      case _ => true
    }
  }

  datatype Result<+T> = Ok(value: T) | Err(error: MachineError)
}
