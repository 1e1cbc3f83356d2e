/**
 * The Inverter policy: aim at this period's demand plus half the gap
 * between target and inventory position, move at most `maxChangeRate`
 * away from the last order, and never order nothing while in backlog.
 *
 * The source computes the ideal order `incoming + gap * 0.5` in floating
 * point; here every quantity on that path is kept doubled, so it stays an
 * exact integer, and `int()`'s truncation toward zero is `TruncHalf`.
 */
module Inverter {
  import opened Builtins
  import opened Interfaces

  datatype InverterAgent = InverterAgent(targetInventory: int, maxChangeRate: int)

  /** The default parameters: target 12, at most 3 units of change per period. */
  function DefaultInverter(): InverterAgent { InverterAgent(12, 3) }

  /** Inventory position net of backlog: on hand plus on order minus backlog. */
  function NetPosition(s: RoleState): int
  {
    s.inventoryOnHand + s.pipelineOnOrder - s.backlog
  }

  /** Twice the ideal order `incoming + (target - position) / 2`. */
  function IdealTwice(a: InverterAgent, s: RoleState): int
  {
    2 * s.incomingOrder + (a.targetInventory - NetPosition(s))
  }

  /** Twice the ideal order, rate-limited to within `maxChangeRate` of the last order. */
  function ClampedTwice(a: InverterAgent, s: RoleState): (c: int)
    ensures a.maxChangeRate >= 0 ==>
      2 * (s.lastPlacedOrder - a.maxChangeRate) <= c <= 2 * (s.lastPlacedOrder + a.maxChangeRate)
    ensures a.maxChangeRate >= 0 && 2 * (s.lastPlacedOrder - a.maxChangeRate) <= IdealTwice(a, s) <= 2 * (s.lastPlacedOrder + a.maxChangeRate)
      ==> c == IdealTwice(a, s)
    ensures a.maxChangeRate >= 0 && IdealTwice(a, s) > 2 * (s.lastPlacedOrder + a.maxChangeRate) ==>
      c == 2 * (s.lastPlacedOrder + a.maxChangeRate)
    ensures a.maxChangeRate >= 0 && IdealTwice(a, s) < 2 * (s.lastPlacedOrder - a.maxChangeRate) ==>
      c == 2 * (s.lastPlacedOrder - a.maxChangeRate)
    ensures a.maxChangeRate < 0 ==> c == 2 * (s.lastPlacedOrder - a.maxChangeRate)
  {
    var last := s.lastPlacedOrder;
    Max(2 * (last - a.maxChangeRate), Min(2 * (last + a.maxChangeRate), IdealTwice(a, s)))
  }

  /** `int(x2 / 2)`: halve and truncate toward zero. */
  function TruncHalf(x2: int): (h: int)
    ensures x2 >= 0 ==> 0 <= 2 * h <= x2 < 2 * h + 2
    ensures x2 < 0 ==> 2 * h - 2 < x2 <= 2 * h <= 0
  {
    if x2 >= 0 then x2 / 2 else -((-x2) / 2)
  }

  lemma TruncHalfMonotone(x: int, y: int)
    requires x <= y
    ensures TruncHalf(x) <= TruncHalf(y)
  {
  }

  /**
   * The order is never negative. When the rate-limited target is not
   * positive and there is backlog, the order is `max(1, incoming)`;
   * otherwise, with a non-negative rate, it stays within the rate limit
   * of the last order (floored at zero), and follows the ideal order
   * whenever the limit does not bind.
   */
  function DecideOrder(a: InverterAgent, s: RoleState): (q: int)
    ensures q >= 0
    ensures ClampedTwice(a, s) <= 0 && s.backlog > 0 ==> q == Max(1, s.incomingOrder) && q >= 1
    ensures !(ClampedTwice(a, s) <= 0 && s.backlog > 0) && a.maxChangeRate >= 0 ==>
      Max(0, s.lastPlacedOrder - a.maxChangeRate) <= q <= Max(0, s.lastPlacedOrder + a.maxChangeRate)
    ensures !(ClampedTwice(a, s) <= 0 && s.backlog > 0) && a.maxChangeRate >= 0 &&
      2 * (s.lastPlacedOrder - a.maxChangeRate) <= IdealTwice(a, s) <= 2 * (s.lastPlacedOrder + a.maxChangeRate)
      ==> q == Max(0, TruncHalf(IdealTwice(a, s)))
    ensures !(ClampedTwice(a, s) <= 0 && s.backlog > 0) && a.maxChangeRate >= 0 &&
      IdealTwice(a, s) > 2 * (s.lastPlacedOrder + a.maxChangeRate)
      ==> q == Max(0, s.lastPlacedOrder + a.maxChangeRate)
    ensures !(ClampedTwice(a, s) <= 0 && s.backlog > 0) && a.maxChangeRate >= 0 &&
      IdealTwice(a, s) < 2 * (s.lastPlacedOrder - a.maxChangeRate)
      ==> q == Max(0, s.lastPlacedOrder - a.maxChangeRate)
    ensures !(ClampedTwice(a, s) <= 0 && s.backlog > 0) && a.maxChangeRate < 0
      ==> q == Max(0, s.lastPlacedOrder - a.maxChangeRate)
  {
    var c := ClampedTwice(a, s);
    if c <= 0 && s.backlog > 0 then
      Max(0, Max(1, s.incomingOrder))
    else
      var r := Max(0, TruncHalf(c));
      assert a.maxChangeRate >= 0 ==> Max(0, s.lastPlacedOrder - a.maxChangeRate) <= r <= Max(0, s.lastPlacedOrder + a.maxChangeRate) by {
        if a.maxChangeRate >= 0 {
          TruncHalfMonotone(2 * (s.lastPlacedOrder - a.maxChangeRate), c);
          TruncHalfMonotone(c, 2 * (s.lastPlacedOrder + a.maxChangeRate));
        }
      }
      r
  }
}
