/**
 * The notification published around a transition. Both variants carry the
 * same five final fields; the event source of the base class is the context.
 * The timestamp the base class takes from the clock is not modelled.
 */
module TransitionEvents {

  datatype StateTransitionEvent<S, E, C> =
    | Before(machineId: string, fromState: S, event: E, toState: S, context: C)
    | After(machineId: string, fromState: S, event: E, toState: S, context: C)
  {
    /** The source the base event object is constructed with. */
    function Source(): C {
      context
    }
  }

  /** A notice built from five arguments hands each one back, whichever variant it is. */
  lemma VariantsDifferOnlyInTag<S, E, C>(id: string, from: S, ev: E, to: S, ctx: C)
    ensures Before(id, from, ev, to, ctx) != After(id, from, ev, to, ctx)
    ensures var b, a := Before(id, from, ev, to, ctx), After(id, from, ev, to, ctx);
      && b.machineId == a.machineId == id
      && b.fromState == a.fromState == from
      && b.event == a.event == ev
      && b.toState == a.toState == to
      && b.context == a.context == ctx
      && b.Source() == a.Source() == ctx
  {
  }
}
