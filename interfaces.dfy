/**
 * The snapshots an ordering policy receives: its own role state and, when
 * information sharing is on, partial views of its neighbours.
 */
module Interfaces {
  import opened Wrappers
  import opened Roles

  /** The cost parameters handed to every policy. */
  datatype CostParams = CostParams(holdingCost: real, backlogCost: real)

  /** What a role may see of a neighbour: never its pipelines. */
  datatype NeighborState = NeighborState(
    role: Role,
    inventoryOnHand: int,
    backlog: int,
    lastPlacedOrder: int)

  /** A read-only snapshot of one role, built before its policy decides. */
  datatype RoleState = RoleState(
    periodIndex: int,
    role: Role,
    incomingOrder: int,
    receivedShipment: int,
    inventoryOnHand: int,
    backlog: int,
    pipelineOnOrder: int,
    lastPlacedOrder: int,
    params: CostParams,
    upstreamState: Option<NeighborState>,
    downstreamState: Option<NeighborState>)
}
