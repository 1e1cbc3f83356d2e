/**
 * The decision contract: one agent per role answers `DecideOrder` with an
 * order quantity. The modelled policies are the cases of `Agent`; every
 * other policy of the system is an `Opaque` function of the role state.
 */
module Agents {
  import opened Interfaces
  import PassivePipeline
  import Inverter
  import ProductionSmoother
  import RationalAnalyst

  datatype Agent =
    | Passive(passive: PassivePipeline.PassivePipelineAgent)
    | Invert(inverter: Inverter.InverterAgent)
    | Smoother(smoother: ProductionSmoother.ProductionSmootherAgent)
    | Analyst(analyst: RationalAnalyst.RationalAnalystAgent)
    | Opaque(decide: RoleState -> int)

  /** The objects holding the agent's private memory. */
  ghost function Footprint(a: Agent): set<object>
  {
    match a
    case Smoother(sm) => {sm}
    case Analyst(an) => {an}
    case _ => {}
  }

  ghost predicate AgentValid(a: Agent)
    reads Footprint(a)
  {
    a.Smoother? ==> a.smoother.Valid()
  }

  /** Agents whose order is a function of the state alone. */
  predicate Stateless(a: Agent)
  {
    a.Passive? || a.Invert? || a.Opaque?
  }

  function StatelessOrder(a: Agent, s: RoleState): int
    requires Stateless(a)
  {
    match a
    case Passive(p) => PassivePipeline.DecideOrder(p, s)
    case Invert(i) => Inverter.DecideOrder(i, s)
    case Opaque(f) => f(s)
  }

  /**
   * Asks the agent for an order. Only the agent's own memory changes;
   * stateless agents answer by their order function, the stateful ones by
   * their class's contract.
   */
  method DecideOrder(a: Agent, s: RoleState) returns (q: int)
    requires AgentValid(a)
    modifies Footprint(a)
    ensures AgentValid(a)
    ensures Stateless(a) ==> q == StatelessOrder(a, s)
    ensures a.Smoother? ==> q >= a.smoother.minProduction
    ensures a.Analyst? ==> q == RationalAnalyst.AnalystOrder(a.analyst.targetInventory, s)
  {
    match a
    case Passive(p) =>
      q := PassivePipeline.DecideOrder(p, s);
    case Invert(i) =>
      q := Inverter.DecideOrder(i, s);
    case Smoother(sm) =>
      q := sm.DecideOrder(s);
    case Analyst(an) =>
      q := an.DecideOrder(s);
    case Opaque(f) =>
      q := f(s);
  }
}
