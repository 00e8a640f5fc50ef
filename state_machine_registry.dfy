/**
 * The directory of machines by identifier. Registering is an unconditional
 * upsert, unregistering an absent identifier does nothing. One registry holds
 * machines over a single state, event and context type.
 */
module Registry {
  import opened Wrappers
  import opened StateMachine

  class StateMachineRegistry<S(==,!new), E(==,!new), C> {
    var stateMachines: map<string, SimpleStateMachine<S, E, C>>

    constructor ()
      ensures stateMachines == map[]
    {
      stateMachines := map[];
    }

    method RegisterStateMachine(machineId: string, machine: SimpleStateMachine<S, E, C>)
      modifies this
      ensures stateMachines == old(stateMachines)[machineId := machine]
      ensures GetStateMachine(machineId) == Some(machine)
      ensures forall id :: id != machineId ==> GetStateMachine(id) == old(GetStateMachine(id))
    {
      stateMachines := stateMachines[machineId := machine];
    }

    function GetStateMachine(machineId: string): (found: Option<SimpleStateMachine<S, E, C>>)
      reads this
      ensures found.Some? <==> machineId in stateMachines
      ensures found.Some? ==> found.value == stateMachines[machineId]
    {
      if machineId in stateMachines then Some(stateMachines[machineId]) else None
    }

    method UnregisterStateMachine(machineId: string)
      modifies this
      ensures stateMachines == old(stateMachines) - {machineId}
      ensures GetStateMachine(machineId) == None && !ContainsStateMachine(machineId)
      ensures forall id :: id != machineId ==> GetStateMachine(id) == old(GetStateMachine(id))
      ensures machineId !in old(stateMachines) ==> stateMachines == old(stateMachines)
    {
      stateMachines := stateMachines - {machineId};
    }

    function GetAllMachineIds(): (ids: set<string>)
      reads this
      ensures forall id :: id in ids <==> GetStateMachine(id).Some?
    {
      stateMachines.Keys
    }

    function ContainsStateMachine(machineId: string): (present: bool)
      reads this
      ensures present <==> GetStateMachine(machineId).Some?
    {
      machineId in stateMachines
    }
  }
}
