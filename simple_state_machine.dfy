/**
 * The transition engine: a rule table keyed by state and then by event, and
 * the fixed firing protocol (look up the state, look up the event, publish
 * Before, test the guard, run the action, publish After, return the target).
 *
 * The table operations and the protocol are first given as functions over the
 * table value; the SimpleStateMachine class updates its table in place and is
 * proved against them.
 */
module StateMachine {
  import opened Wrappers
  import opened Faults
  import opened Transitions
  import opened TransitionEvents

  type Table<S, E, !C> = map<S, map<E, Transition<S, E, C>>>

  /**
   * What stands in a published notice's event slot. The Before notice carries
   * the rule's target state there and the After notice carries the event.
   */
  datatype EventSlot<S, E> = StateInSlot(state: Option<S>) | EventInSlot(event: Option<E>)

  type Notice<S, E, C> = StateTransitionEvent<Option<S>, EventSlot<S, E>, C>

  /** One observable step of a firing: a notice handed to the publisher, or the rule's action run. */
  datatype Effect<S, E, C> = Published(notice: Notice<S, E, C>) | ActionRan(context: C)

  /** What a firing returns (or raises), and the effects it had, in order. */
  datatype Firing<S, E, C> = Firing(result: Result<Option<S>>, effects: seq<Effect<S, E, C>>)

  /**
   * The table invariant: every rule sits under its own (fromState, event) key,
   * and a state is present only once a rule has been put under it.
   */
  ghost predicate WellFormed<S(!new), E(!new), C>(table: Table<S, E, C>) {
    && (forall s :: s in table ==> table[s] != map[])
    && (forall s, e {:trigger table[s][e]} :: s in table && e in table[s] ==>
          table[s][e].fromState == Some(s) && table[s][e].event == Some(e))
  }

  function Lookup<S(==,!new), E(==,!new), C>(table: Table<S, E, C>, s: S, e: E): Option<Transition<S, E, C>> {
    if s in table && e in table[s] then Some(table[s][e]) else None
  }

  /** Inserting a rule: it replaces whatever rule had the same key, and nothing else moves. */
  function Put<S(==,!new), E(==,!new), C>(table: Table<S, E, C>, t: Transition<S, E, C>): (r: Table<S, E, C>)
    requires t.Keyed()
    ensures Lookup(r, t.fromState.value, t.event.value) == Some(t)
    ensures forall s, e :: s != t.fromState.value || e != t.event.value ==> Lookup(r, s, e) == Lookup(table, s, e)
    ensures WellFormed(table) ==> WellFormed(r)
  {
    var s, e := t.fromState.value, t.event.value;
    var rules := if s in table then table[s] else map[];
    var r := table[s := rules[e := t]];
    assert WellFormed(table) ==> WellFormed(r) by {
      if WellFormed(table) {
        forall s', e' | s' in r && e' in r[s']
          ensures r[s'][e'].fromState == Some(s') && r[s'][e'].event == Some(e')
        {
          if s' != s || e' != e {
            assert r[s'][e'] == table[s'][e'];
          }
        }
      }
    }
    r
  }

  predicate AllKeyed<S(==,!new), E(==,!new), C>(ts: seq<Transition<S, E, C>>) {
    forall i :: 0 <= i < |ts| ==> ts[i].Keyed()
  }

  /** Inserting rules one after another, in sequence order. */
  function PutAll<S(==,!new), E(==,!new), C>(table: Table<S, E, C>, ts: seq<Transition<S, E, C>>): (r: Table<S, E, C>)
    requires AllKeyed(ts)
    ensures WellFormed(table) ==> WellFormed(r)
    decreases |ts|
  {
    if ts == [] then table else Put(PutAll(table, ts[..|ts| - 1]), ts[|ts| - 1])
  }

  /** The last rule among ts whose key is (s, e), if any: an independent reading of last-write-wins. */
  function LastRuleFor<S(==,!new), E(==,!new), C>(ts: seq<Transition<S, E, C>>, s: S, e: E): Option<Transition<S, E, C>>
    decreases |ts|
  {
    if ts == [] then None
    else if ts[|ts| - 1].fromState == Some(s) && ts[|ts| - 1].event == Some(e) then Some(ts[|ts| - 1])
    else LastRuleFor(ts[..|ts| - 1], s, e)
  }

  /** After a batch insert, each key holds the last rule given for it, or what it held before. */
  lemma {:induction false} PutAllLastWins<S(!new), E(!new), C>(table: Table<S, E, C>, ts: seq<Transition<S, E, C>>, s: S, e: E)
    requires AllKeyed(ts)
    ensures Lookup(PutAll(table, ts), s, e) ==
      (if LastRuleFor(ts, s, e).Some? then LastRuleFor(ts, s, e) else Lookup(table, s, e))
    decreases |ts|
  {
    if ts != [] {
      PutAllLastWins(table, ts[..|ts| - 1], s, e);
    }
  }

  /** Two rules with the same key: only the later one is left. */
  lemma PutSameKeyKeepsLater<S(!new), E(!new), C>(table: Table<S, E, C>, t1: Transition<S, E, C>, t2: Transition<S, E, C>)
    requires t1.Keyed() && t2.Keyed()
    requires t1.fromState == t2.fromState && t1.event == t2.event
    ensures Put(Put(table, t1), t2) == Put(table, t2)
  {
    var s, e := t1.fromState.value, t1.event.value;
    assert Put(Put(table, t1), t2)[s] == Put(table, t2)[s];
  }

  /** The engine's reading of an optional condition: an absent one holds. */
  function Verdict<S(==,!new), E(==,!new), C>(t: Transition<S, E, C>, context: C): GuardOutcome {
    if t.condition.None? then Holds else t.condition.value(context)
  }

  /** The rule's action, if it has one, runs without throwing. */
  predicate ActionCompletes<S(==,!new), E(==,!new), C>(t: Transition<S, E, C>, context: C) {
    t.action.None? || t.action.value(context) == Completed
  }

  function BeforeNotice<S(==,!new), E(==,!new), C>(machineId: string, t: Transition<S, E, C>, context: C): Notice<S, E, C> {
    Before(machineId, t.fromState, StateInSlot(t.toState), t.toState, context)
  }

  function AfterNotice<S(==,!new), E(==,!new), C>(machineId: string, t: Transition<S, E, C>, context: C): Notice<S, E, C> {
    After(machineId, t.fromState, EventInSlot(t.event), t.toState, context)
  }

  /**
   * The firing protocol on a table value: the result (or what is raised) and
   * the effects, in the order they happen.
   */
  function Fire<S(==,!new), E(==,!new), C>(table: Table<S, E, C>, machineId: string, s: S, e: E, context: C): Firing<S, E, C> {
    if s !in table then Firing(Err(NoTransitionsForState), [])
    else if e !in table[s] then Firing(Err(EventNotAllowed), [])
    else
      var t := table[s][e];
      var before := Published(BeforeNotice(machineId, t, context));
      match Verdict(t, context)
      case Fails => Firing(Err(ConditionNotSatisfied), [before])
      case GuardThrew(f) => Firing(Err(GuardFault(f)), [before])
      case Holds =>
        var after := Published(AfterNotice(machineId, t, context));
        if t.action.None? then Firing(Ok(t.toState), [before, after])
        else match t.action.value(context)
          case Completed => Firing(Ok(t.toState), [before, ActionRan(context), after])
          case ActionThrew(f) => Firing(Err(ActionFailed(f)), [before, ActionRan(context)])
  }

  /** The side-effect-free probe: any fault in the guard reads as false. */
  function CanFire<S(==,!new), E(==,!new), C>(table: Table<S, E, C>, s: S, e: E, context: C): bool {
    match Lookup(table, s, e)
    case None => false
    case Some(t) => Verdict(t, context) == Holds
  }

  /** The whole protocol for a found rule: Before, the action if there is one, After. */
  function Protocol<S(==,!new), E(==,!new), C>(machineId: string, t: Transition<S, E, C>, context: C): seq<Effect<S, E, C>> {
    [Published(BeforeNotice(machineId, t, context))]
      + (if t.action.Some? then [ActionRan(context)] else [])
      + [Published(AfterNotice(machineId, t, context))]
  }

  /** In a well-formed table a state is present exactly when some rule starts from it. */
  lemma StatePresentIffHasRule<S(!new), E(!new), C>(table: Table<S, E, C>, s: S)
    requires WellFormed(table)
    ensures s in table <==> exists e :: Lookup(table, s, e).Some?
  {
    if s in table {
      var e :| e in table[s];
      assert Lookup(table, s, e).Some?;
    }
  }

  /** A state with no rules at all: NoTransitionsForState, and nothing published or run. */
  lemma FireWithoutRulesForState<S(!new), E(!new), C>(table: Table<S, E, C>, machineId: string, s: S, e: E, context: C)
    requires WellFormed(table)
    requires forall e' :: Lookup(table, s, e') == None
    ensures Fire(table, machineId, s, e, context) == Firing(Err(NoTransitionsForState), [])
  {
    StatePresentIffHasRule(table, s);
  }

  /** A state with rules, but none for this event: EventNotAllowed, and nothing published or run. */
  lemma FireWithoutRuleForEvent<S(!new), E(!new), C>(table: Table<S, E, C>, machineId: string, s: S, e: E, e': E, context: C)
    requires Lookup(table, s, e').Some?
    requires Lookup(table, s, e) == None
    ensures Fire(table, machineId, s, e, context) == Firing(Err(EventNotAllowed), [])
  {
  }

  /**
   * The guard says no: ConditionNotSatisfied after exactly the Before notice;
   * the action does not run and no After notice follows.
   */
  lemma FireGuardFails<S(!new), E(!new), C>(table: Table<S, E, C>, machineId: string, s: S, e: E, context: C, t: Transition<S, E, C>)
    requires WellFormed(table)
    requires Lookup(table, s, e) == Some(t)
    requires t.condition.Some? && t.condition.value(context) == Fails
    ensures Fire(table, machineId, s, e, context) == Firing(Err(ConditionNotSatisfied),
      [Published(Before(machineId, Some(s), StateInSlot(t.toState), t.toState, context))])
  {
  }

  /** The guard throws: fireEvent does not catch it; the Before notice was published, nothing else. */
  lemma FireGuardThrows<S(!new), E(!new), C>(table: Table<S, E, C>, machineId: string, s: S, e: E, context: C, t: Transition<S, E, C>, f: Fault)
    requires WellFormed(table)
    requires Lookup(table, s, e) == Some(t)
    requires t.condition.Some? && t.condition.value(context) == GuardThrew(f)
    ensures Fire(table, machineId, s, e, context) == Firing(Err(GuardFault(f)),
      [Published(Before(machineId, Some(s), StateInSlot(t.toState), t.toState, context))])
  {
  }

  /**
   * The action throws: the failure carries the original fault; the Before
   * notice and the action run happened, no After notice follows.
   */
  lemma FireActionThrows<S(!new), E(!new), C>(table: Table<S, E, C>, machineId: string, s: S, e: E, context: C, t: Transition<S, E, C>, f: Fault)
    requires WellFormed(table)
    requires Lookup(table, s, e) == Some(t)
    requires Verdict(t, context) == Holds
    requires t.action.Some? && t.action.value(context) == ActionThrew(f)
    ensures Fire(table, machineId, s, e, context) == Firing(Err(ActionFailed(f)),
      [Published(Before(machineId, Some(s), StateInSlot(t.toState), t.toState, context)), ActionRan(context)])
  {
  }

  /**
   * Success: the rule's target state is returned; Before (with the target in
   * the event slot), the action exactly once, then After (with the event).
   */
  lemma FireSucceeds<S(!new), E(!new), C>(table: Table<S, E, C>, machineId: string, s: S, e: E, context: C, t: Transition<S, E, C>)
    requires WellFormed(table)
    requires Lookup(table, s, e) == Some(t)
    requires Verdict(t, context) == Holds && ActionCompletes(t, context)
    ensures Fire(table, machineId, s, e, context) == Firing(Ok(t.toState),
      [Published(Before(machineId, Some(s), StateInSlot(t.toState), t.toState, context))]
      + (if t.action.Some? then [ActionRan(context)] else [])
      + [Published(After(machineId, Some(s), EventInSlot(Some(e)), t.toState, context))])
  {
  }

  /** fireEvent returns a state exactly when a rule exists, its guard holds and its action completes. */
  lemma FireOkIff<S(!new), E(!new), C>(table: Table<S, E, C>, machineId: string, s: S, e: E, context: C)
    ensures Fire(table, machineId, s, e, context).result.Ok? <==>
      Lookup(table, s, e).Some? && Verdict(Lookup(table, s, e).value, context) == Holds
      && ActionCompletes(Lookup(table, s, e).value, context)
    ensures Fire(table, machineId, s, e, context).result.Ok? ==>
      Fire(table, machineId, s, e, context).result.value == Lookup(table, s, e).value.toState
  {
  }

  /**
   * Whatever the outcome, the effects are a prefix of the full protocol (none
   * at all when no rule is found), and they are the whole protocol exactly
   * when the firing succeeds.
   */
  lemma FireFollowsProtocol<S(!new), E(!new), C>(table: Table<S, E, C>, machineId: string, s: S, e: E, context: C)
    ensures Lookup(table, s, e).None? ==> Fire(table, machineId, s, e, context).effects == []
    ensures Lookup(table, s, e).Some? ==>
      var steps := Protocol(machineId, Lookup(table, s, e).value, context);
      && Fire(table, machineId, s, e, context).effects <= steps
      && (Fire(table, machineId, s, e, context).result.Ok? <==> Fire(table, machineId, s, e, context).effects == steps)
  {
  }

  /**
   * The probe answers true exactly when firing would get past the guard: the
   * firing then either succeeds or fails only in the action.
   */
  lemma CanFireIffFirePassesGuard<S(!new), E(!new), C>(table: Table<S, E, C>, machineId: string, s: S, e: E, context: C)
    ensures CanFire(table, s, e, context) <==>
      (Fire(table, machineId, s, e, context).result.Ok? || Fire(table, machineId, s, e, context).result.error.ActionFailed?)
  {
  }

  /**
   * fireEvent never raises the facade's MachineNotFound, and what it raises is
   * a StateMachineException unless the rule's guard threw something else,
   * which passes through unwrapped.
   */
  lemma FireErrorsAreEngineErrors<S(!new), E(!new), C>(table: Table<S, E, C>, machineId: string, s: S, e: E, context: C)
    ensures var r := Fire(table, machineId, s, e, context).result;
      r.Err? ==> !r.error.MachineNotFound?
    ensures var r := Fire(table, machineId, s, e, context).result;
      (r.Err? && !r.error.IsStateMachineException()) <==>
        && Lookup(table, s, e).Some?
        && Verdict(Lookup(table, s, e).value, context).GuardThrew?
        && !Verdict(Lookup(table, s, e).value, context).fault.IsA("StateMachineException")
  {
  }

  /** A machine with an empty table has no rule and can fire nothing. */
  lemma EmptyTableHasNoRules<S(!new), E(!new), C>(s: S, e: E, context: C)
    ensures Lookup<S, E, C>(map[], s, e) == None
    ensures !CanFire<S, E, C>(map[], s, e, context)
  {
  }

  class SimpleStateMachine<S(==,!new), E(==,!new), C> {
    const machineId: string
    var transitions: Table<S, E, C>
    /** Everything published or run by this machine's firings, oldest first. */
    ghost var trace: seq<Effect<S, E, C>>

    ghost predicate Valid()
      reads this
    {
      WellFormed(transitions)
    }

    constructor (machineId: string)
      ensures this.machineId == machineId
      ensures transitions == map[] && trace == []
      ensures Valid()
    {
      this.machineId := machineId;
      transitions := map[];
      trace := [];
    }

    /** computeIfAbsent for the state's rule set, then put the rule under its event. */
    method AddTransition(t: Transition<S, E, C>)
      requires Valid() && t.Keyed()
      modifies this
      ensures Valid()
      ensures transitions == Put(old(transitions), t)
      ensures trace == old(trace)
    {
      var s := t.fromState.value;
      if s !in transitions {
        transitions := transitions[s := map[]];
      }
      var rules := transitions[s];
      transitions := transitions[s := rules[t.event.value := t]];
      assert transitions == Put(old(transitions), t);
    }

    method AddTransitions(ts: seq<Transition<S, E, C>>)
      requires Valid() && AllKeyed(ts)
      modifies this
      ensures Valid()
      ensures transitions == PutAll(old(transitions), ts)
      ensures trace == old(trace)
    {
      for i := 0 to |ts|
        invariant Valid()
        invariant transitions == PutAll(old(transitions), ts[..i])
        invariant trace == old(trace)
      {
        assert ts[..i + 1][..i] == ts[..i];
        AddTransition(ts[i]);
      }
      assert ts[..|ts|] == ts;
    }

    method FireEvent(s: S, e: E, context: C) returns (r: Result<Option<S>>)
      modifies this
      ensures transitions == old(transitions)
      ensures r == Fire(old(transitions), machineId, s, e, context).result
      ensures trace == old(trace) + Fire(old(transitions), machineId, s, e, context).effects
    {
      if s !in transitions {
        return Err(NoTransitionsForState);
      }
      var rules := transitions[s];
      if e !in rules {
        return Err(EventNotAllowed);
      }
      var t := rules[e];
      trace := trace + [Published(Before(machineId, t.fromState, StateInSlot(t.toState), t.toState, context))];
      if t.condition.Some? {
        var verdict := t.condition.value(context);
        if verdict.Fails? {
          return Err(ConditionNotSatisfied);
        } else if verdict.GuardThrew? {
          return Err(GuardFault(verdict.fault));
        }
      }
      if t.action.Some? {
        trace := trace + [ActionRan(context)];
        var outcome := t.action.value(context);
        if outcome.ActionThrew? {
          return Err(ActionFailed(outcome.fault));
        }
      }
      var newState := t.toState;
      trace := trace + [Published(After(machineId, t.fromState, EventInSlot(t.event), t.toState, context))];
      return Ok(newState);
    }

    function CanFireEvent(s: S, e: E, context: C): (b: bool)
      reads this
      ensures b <==> GetTransition(s, e).Some? && Verdict(GetTransition(s, e).value, context) == Holds
    {
      CanFire(transitions, s, e, context)
    }

    function GetTransition(s: S, e: E): (r: Option<Transition<S, E, C>>)
      reads this
      ensures Valid() && r.Some? ==> r.value.fromState == Some(s) && r.value.event == Some(e)
    {
      Lookup(transitions, s, e)
    }

    function GetMachineId(): (id: string)
      ensures id == machineId
    {
      machineId
    }

    /** The whole table, as a value: it agrees with GetTransition on every pair. */
    function GetTransitions(): (view: Table<S, E, C>)
      reads this
      ensures forall s, e :: Lookup(view, s, e) == GetTransition(s, e)
    {
      transitions
    }
  }
}
