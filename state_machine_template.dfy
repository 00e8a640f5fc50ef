/**
 * The facade over a registry: resolve a machine by identifier, then delegate.
 * An unknown identifier is MachineNotFound for fireEvent and false for
 * canFireEvent. The facade never changes the registry.
 */
module Template {
  import opened Wrappers
  import opened Faults
  import opened StateMachine
  import opened Registry

  class StateMachineTemplate<S(==,!new), E(==,!new), C> {
    const registry: StateMachineRegistry<S, E, C>

    constructor (registry: StateMachineRegistry<S, E, C>)
      ensures this.registry == registry
    {
      this.registry := registry;
    }

    method FireEvent(machineId: string, s: S, e: E, context: C) returns (r: Result<Option<S>>)
      modifies if machineId in registry.stateMachines then {registry.stateMachines[machineId]} else {}
      ensures registry.stateMachines == old(registry.stateMachines)
      ensures machineId !in registry.stateMachines ==> r == Err(MachineNotFound)
      ensures r.Err? ==> (r.error.MachineNotFound? <==> machineId !in registry.stateMachines)
      ensures machineId in registry.stateMachines ==>
        var m := registry.stateMachines[machineId];
        && m.transitions == old(m.transitions)
        && r == Fire(old(m.transitions), m.machineId, s, e, context).result
        && m.trace == old(m.trace) + Fire(old(m.transitions), m.machineId, s, e, context).effects
    {
      var found := registry.GetStateMachine(machineId);
      if found.None? {
        return Err(MachineNotFound);
      }
      r := found.value.FireEvent(s, e, context);
    }

    function CanFireEvent(machineId: string, s: S, e: E, context: C): (b: bool)
      reads registry, registry.stateMachines.Values
      ensures !registry.ContainsStateMachine(machineId) ==> !b
      ensures registry.ContainsStateMachine(machineId) ==>
        b == registry.stateMachines[machineId].CanFireEvent(s, e, context)
    {
      match registry.GetStateMachine(machineId)
      case None => false
      case Some(m) => m.CanFireEvent(s, e, context)
    }
  }
}
