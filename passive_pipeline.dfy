/**
 * Order-up-to ("passive pipeline") policy: order whatever brings the
 * inventory position (on hand plus on order) up to the target plus this
 * period's outstanding demand (incoming order plus backlog).
 */
module PassivePipeline {
  import opened Builtins
  import opened Interfaces

  datatype PassivePipelineAgent = PassivePipelineAgent(targetInventory: int)

  /** Inventory position the policy steers: on hand plus on order. */
  function Position(s: RoleState): int
  {
    s.inventoryOnHand + s.pipelineOnOrder
  }

  /** What the position must cover: target plus incoming order plus backlog. */
  function Requirement(a: PassivePipelineAgent, s: RoleState): int
  {
    a.targetInventory + s.incomingOrder + s.backlog
  }

  /**
   * The order never is negative; a positive order lifts the position
   * exactly to the requirement, and no order is placed exactly when the
   * position already covers it.
   */
  function DecideOrder(a: PassivePipelineAgent, s: RoleState): (q: int)
    ensures q >= 0
    ensures q > 0 ==> Position(s) + q == Requirement(a, s)
    ensures q == 0 <==> Position(s) >= Requirement(a, s)
  {
    Max(0, a.targetInventory + s.incomingOrder + s.backlog - (s.inventoryOnHand + s.pipelineOnOrder))
  }

  /** More demand or backlog never lowers the order; more stock on hand or on order never raises it. */
  lemma DecideOrderMonotone(a: PassivePipelineAgent, s: RoleState, s': RoleState)
    requires s'.incomingOrder >= s.incomingOrder && s'.backlog >= s.backlog
    requires s'.inventoryOnHand <= s.inventoryOnHand && s'.pipelineOnOrder <= s.pipelineOnOrder
    ensures DecideOrder(a, s') >= DecideOrder(a, s)
  {
  }

  /** The order depends only on incoming order, backlog, inventory and pipeline. */
  lemma DecideOrderDependsOnPosition(a: PassivePipelineAgent, s: RoleState, s': RoleState)
    requires s'.incomingOrder == s.incomingOrder && s'.backlog == s.backlog
    requires s'.inventoryOnHand == s.inventoryOnHand && s'.pipelineOnOrder == s.pipelineOnOrder
    ensures DecideOrder(a, s') == DecideOrder(a, s)
  {
  }
}
