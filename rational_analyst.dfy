/**
 * The Rational Analyst policy with no demand smoothing: order this
 * period's incoming order plus the shortfall of on-hand inventory below
 * target, ignoring what is already on order and the backlog.
 */
module RationalAnalyst {
  import opened Wrappers
  import opened Builtins
  import opened Interfaces
  import PassivePipeline

  /**
   * The order is never negative, is at least the incoming order when that
   * is non-negative, and is at least the on-hand shortfall below target
   * plus the incoming order.
   */
  function AnalystOrder(targetInventory: int, s: RoleState): (q: int)
    ensures q >= 0
    ensures s.incomingOrder >= 0 ==> q >= s.incomingOrder
    ensures q >= s.incomingOrder + (targetInventory - s.inventoryOnHand)
    ensures s.incomingOrder >= 0 ==>
      q == s.incomingOrder + (if s.inventoryOnHand < targetInventory then targetInventory - s.inventoryOnHand else 0)
    ensures q == 0 || q == s.incomingOrder + Max(0, targetInventory - s.inventoryOnHand)
    ensures q == 0 ==> s.incomingOrder + Max(0, targetInventory - s.inventoryOnHand) <= 0
  {
    var gap := targetInventory - s.inventoryOnHand;
    Max(0, s.incomingOrder + Max(0, gap))
  }

  /** Stock on order and backlog never influence the order. */
  lemma IgnoresPipelineAndBacklog(targetInventory: int, s: RoleState, s': RoleState)
    requires s'.incomingOrder == s.incomingOrder && s'.inventoryOnHand == s.inventoryOnHand
    ensures AnalystOrder(targetInventory, s') == AnalystOrder(targetInventory, s)
  {
  }

  /**
   * Double ordering: with non-negative demand and more on order than in
   * backlog, the analyst orders at least what the order-up-to policy with
   * the same target orders, and strictly more once there is anything to order.
   */
  lemma OrdersMoreThanPassive(targetInventory: int, s: RoleState)
    requires s.incomingOrder >= 0 && s.backlog <= s.pipelineOnOrder
    ensures AnalystOrder(targetInventory, s) >= PassivePipeline.DecideOrder(PassivePipeline.PassivePipelineAgent(targetInventory), s)
    ensures s.backlog < s.pipelineOnOrder && (s.incomingOrder > 0 || s.inventoryOnHand < targetInventory) ==>
      AnalystOrder(targetInventory, s) > PassivePipeline.DecideOrder(PassivePipeline.PassivePipelineAgent(targetInventory), s)
  {
  }

  class RationalAnalystAgent {
    const targetInventory: int
    /** The demand estimate; with no smoothing it is the last incoming order. */
    var smoothedDemand: Option<int>

    /** The source's default target is 12. */
    constructor (targetInventory: int)
      ensures this.targetInventory == targetInventory && smoothedDemand == None
    {
      this.targetInventory := targetInventory;
      smoothedDemand := None;
    }

    /**
     * Overwrites the estimate with the incoming order, then orders by
     * `AnalystOrder`: the result does not depend on the estimate left by
     * earlier calls.
     */
    method DecideOrder(s: RoleState) returns (q: int)
      modifies this
      ensures smoothedDemand == Some(s.incomingOrder)
      ensures q == AnalystOrder(targetInventory, s)
    {
      var demand := s.incomingOrder;
      smoothedDemand := Some(demand);
      var gap := targetInventory - s.inventoryOnHand;
      var order := smoothedDemand.value + Max(0, gap);
      q := Max(0, order);
    }
  }
}
