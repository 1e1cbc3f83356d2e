/**
 * The policies on the concrete states the repository's agent tests use.
 * `TestState` builds a retailer snapshot in period 5 with the test
 * helper's remaining defaults (4 units received, last order 4, no
 * neighbour views).
 */
module Scenarios {
  import opened Wrappers
  import opened Builtins
  import opened Roles
  import opened Interfaces
  import PassivePipeline
  import Inverter
  import RationalAnalyst
  import ProductionSmoother

  function TestState(incoming: int, inventory: int, backlog: int, pipeline: int, last: int): (s: RoleState)
    ensures s.incomingOrder == incoming && s.inventoryOnHand == inventory && s.backlog == backlog
    ensures s.pipelineOnOrder == pipeline && s.lastPlacedOrder == last
  {
    RoleState(5, Retailer, incoming, 4, inventory, backlog, pipeline, last, CostParams(0.5, 1.0), None, None)
  }

  /** Target 12 with position 12 + 4 already covering demand 4: nothing is ordered. */
  lemma PassiveSteadyState()
    ensures PassivePipeline.DecideOrder(PassivePipeline.PassivePipelineAgent(12), TestState(4, 12, 0, 4, 4)) == 0
  {
  }

  /** Target 12, demand 4, five on hand and nothing on order: 12 + 4 - 5 = 11. */
  lemma PassiveLowInventory()
    ensures PassivePipeline.DecideOrder(PassivePipeline.PassivePipelineAgent(12), TestState(4, 5, 0, 0, 4)) == 11
  {
  }

  /** A surplus (20 on hand, 10 on order) yields no order rather than a negative one. */
  lemma PassiveSurplus()
    ensures PassivePipeline.DecideOrder(PassivePipeline.PassivePipelineAgent(12), TestState(4, 20, 0, 10, 4)) == 0
  {
  }

  /**
   * Empty stock and pipeline with last order 4: the ideal 4 + 12/2 = 10 is
   * cut to 4 + 3 = 7, within 4 of the last order.
   */
  lemma InverterRateLimited()
    ensures var q := Inverter.DecideOrder(Inverter.DefaultInverter(), TestState(4, 0, 0, 0, 4));
      q == 7 && -4 <= q - 4 <= 4
  {
  }

  /** Backlog 5 with last order 0: the order is positive (the rate limit allows 3). */
  lemma InverterOrdersUnderBacklog()
    ensures var q := Inverter.DecideOrder(Inverter.DefaultInverter(), TestState(4, 0, 5, 4, 0));
      q == 3 && q > 0
  {
  }

  /**
   * Target 12, demand 4, eight on hand and ten on order: the analyst orders
   * 4 + 4 = 8 although the pipeline covers the gap, where the order-up-to
   * policy orders nothing.
   */
  lemma AnalystDoubleOrders()
    ensures RationalAnalyst.AnalystOrder(12, TestState(4, 8, 0, 10, 4)) == 8
    ensures PassivePipeline.DecideOrder(PassivePipeline.PassivePipelineAgent(12), TestState(4, 8, 0, 10, 4)) == 0
  {
  }

  /** The production values of the spike run below, one window at a time. */
  lemma SpikeWindows()
    ensures ProductionSmoother.Production([4], 0, 2, 15) == 4
    ensures ProductionSmoother.Production([4, 4], 0, 2, 15) == 4
    ensures ProductionSmoother.Production([4, 4, 4], 0, 2, 15) == 4
    ensures ProductionSmoother.Production([4, 4, 20], 0, 2, 15) == 9
    ensures ProductionSmoother.LastN([4, 4, 4, 20], 3) == [4, 4, 20]
  {
    assert Sum([4]) == 4 by { assert [4][..0] == []; }
    assert Sum([4, 4]) == 8 by { assert [4, 4][..1] == [4]; }
    assert Sum([4, 4, 4]) == 12 by { assert [4, 4, 4][..2] == [4, 4]; }
    assert Sum([4, 4, 20]) == 28 by { assert [4, 4, 20][..2] == [4, 4]; }
    assert ProductionSmoother.LastN([4, 4, 4, 20], 3) == [4, 4, 20] by { assert [4, 4, 4, 20][1..] == [4, 4, 20]; }
  }

  /** The production values of the band run below. */
  lemma BandWindows()
    ensures ProductionSmoother.Production([0], 0, 2, 15) == 2
    ensures ProductionSmoother.Production([0, 100], 0, 2, 15) == 15
  {
    assert Sum([0]) == 0 by { assert [0][..0] == []; }
    assert Sum([0, 100]) == 100 by { assert [0, 100][..1] == [0]; }
  }

  /** Three steady orders of 4 into a fresh smoother with window 3 and band [2, 15]: each answer is 4. */
  method SteadyStart(agent: ProductionSmoother.ProductionSmootherAgent) returns (orders: seq<int>)
    requires agent.Valid() && agent.seen == []
    requires agent.windowSize == 3 && agent.minProduction == 2 && agent.maxProduction == 15
    modifies agent
    ensures agent.Valid() && agent.seen == [4, 4, 4]
    ensures orders == [4, 4, 4]
  {
    SpikeWindows();
    var q0 := agent.DecideOrder(TestState(4, 12, 0, 4, 4));
    assert agent.seen == [] + [4] == [4] && agent.orderHistory == [4] && q0 == 4;
    var q1 := agent.DecideOrder(TestState(4, 12, 0, 4, 4));
    assert agent.seen == [4] + [4] == [4, 4] && agent.orderHistory == [4, 4] && q1 == 4;
    var q2 := agent.DecideOrder(TestState(4, 12, 0, 4, 4));
    assert agent.seen == [4, 4] + [4] == [4, 4, 4] && agent.orderHistory == [4, 4, 4] && q2 == 4;
    orders := [q0, q1, q2];
  }

  /**
   * A smoother with window 3 and band [2, 15] facing orders 4, 4, 4, 20
   * answers 4, 4, 4 and then the window average (4 + 4 + 20) / 3 = 9, well
   * below the spike.
   */
  method SmootherDampsSpike() returns (orders: seq<int>)
    ensures orders == [4, 4, 4, 9] && orders[3] < 20
  {
    SpikeWindows();
    var agent := new ProductionSmoother.ProductionSmootherAgent(3, 2, 15);
    var steady := SteadyStart(agent);
    var q3 := agent.DecideOrder(TestState(20, 12, 0, 4, 4));
    assert agent.seen == [4, 4, 4] + [20] == [4, 4, 4, 20];
    orders := steady + [q3];
  }

  /**
   * A smoother with the default window 5 and band [2, 15]: a zero order
   * yields the floor 2, and an order of 100 next yields the ceiling 15.
   */
  method SmootherStaysInBand() returns (low: int, high: int)
    ensures low == 2 && high == 15
  {
    BandWindows();
    var agent := new ProductionSmoother.ProductionSmootherAgent(5, 2, 15);
    low := agent.DecideOrder(TestState(0, 50, 0, 4, 4));
    assert agent.seen == [] + [0] == [0];
    high := agent.DecideOrder(TestState(100, 0, 0, 4, 4));
    assert agent.seen == [0] + [100] == [0, 100];
  }
}
