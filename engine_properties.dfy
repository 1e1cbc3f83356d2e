/**
 * What the engine guarantees about every logged period of a runner that is
 * consistent with its log (`Consistent`, which `SimulationRunner.Valid`
 * keeps): the fulfilment outcome, the delays of shipments and orders, the
 * factory's frozen supply side, the lengths of the delay lines, what the
 * log records and what the agents are shown.
 */
module EngineProperties {
  import opened Wrappers
  import opened Builtins
  import opened Roles
  import opened Interfaces
  import opened DelayLines
  import opened Agents
  import opened SimulationRecords
  import opened SimulationSteps

  /** Every period logged so far satisfies what the engine promises about each role. */
  lemma RoleAt(b: Books, rows: seq<LogRow>, trace: map<Role, RoleTrace>, cfg: SimulationConfig,
               agents: map<Role, Agent>, demandFn: int -> int, n: nat, m: nat, r: Role)
    requires Consistent(b, rows, trace, cfg, agents, demandFn, n) && m < n
    ensures PeriodInRange(rows, trace, m) && Total(agents)
    ensures RolePeriodOk(rows, trace, cfg, agents, demandFn, m, r)
  {
    assert PeriodOk(rows, trace, cfg, agents, demandFn, m);
  }

  /**
   * Fulfilment: a role ships the smaller of its stock (what it had plus what
   * arrived) and its demand (incoming order plus backlog); afterwards its
   * stock and backlog are never negative and never both positive.
   */
  lemma FulfilmentOutcome(b: Books, rows: seq<LogRow>, trace: map<Role, RoleTrace>, cfg: SimulationConfig,
                          agents: map<Role, Agent>, demandFn: int -> int, n: nat, m: nat, r: Role)
    requires Consistent(b, rows, trace, cfg, agents, demandFn, n) && m < n
    ensures trace[r].shipped[m]
      == Min(PrevInventory(rows, cfg, m, r) + Row(rows, m, r).receivedShipment,
             trace[r].seen[m].incomingOrder + PrevBacklog(rows, m, r))
    ensures Row(rows, m, r).inventory == PrevInventory(rows, cfg, m, r) + Row(rows, m, r).receivedShipment - trace[r].shipped[m]
    ensures Row(rows, m, r).backlog == trace[r].seen[m].incomingOrder + PrevBacklog(rows, m, r) - trace[r].shipped[m]
    ensures Row(rows, m, r).inventory >= 0 && Row(rows, m, r).backlog >= 0
    ensures Row(rows, m, r).inventory == 0 || Row(rows, m, r).backlog == 0
  {
    RoleAt(b, rows, trace, cfg, agents, demandFn, n, m, r);
    assert ArrivalOk(rows, trace, cfg, m, r);
    FulfilBalance(PrevInventory(rows, cfg, m, r), PrevBacklog(rows, m, r),
                  Row(rows, m, r).receivedShipment, trace[r].seen[m].incomingOrder);
  }

  /**
   * Shipments: what a role receives in period m is what its supplier shipped
   * in period m - max(1, shipment lead time), and nothing before that.
   */
  lemma ShipmentDelay(b: Books, rows: seq<LogRow>, trace: map<Role, RoleTrace>, cfg: SimulationConfig,
                      agents: map<Role, Agent>, demandFn: int -> int, n: nat, m: nat, r: Role)
    requires Consistent(b, rows, trace, cfg, agents, demandFn, n) && m < n && r != Factory
    ensures var lag := Max(1, cfg.shipmentLeadTime);
      Row(rows, m, r).receivedShipment == (if m >= lag then trace[Upstream(r).value].shipped[m - lag] else 0)
  {
    RoleAt(b, rows, trace, cfg, agents, demandFn, n, m, r);
    assert ArrivalOk(rows, trace, cfg, m, r);
  }

  /** Nothing is ever added to the factory's shipment queue: it receives nothing, in every period. */
  lemma FactoryReceivesNothing(b: Books, rows: seq<LogRow>, trace: map<Role, RoleTrace>, cfg: SimulationConfig,
                               agents: map<Role, Agent>, demandFn: int -> int, n: nat, m: nat)
    requires Consistent(b, rows, trace, cfg, agents, demandFn, n) && m < n
    ensures Row(rows, m, Factory).receivedShipment == 0
    ensures trace[Factory].seen[m].receivedShipment == 0
  {
    RoleAt(b, rows, trace, cfg, agents, demandFn, n, m, Factory);
    assert ArrivalOk(rows, trace, cfg, m, Factory);
    assert SnapshotOk(rows, trace, cfg, m, Factory);
  }

  /**
   * Orders: a non-retailer's incoming order in period m is what its customer
   * ordered in period m - max(1, order lead time); 0 in period 0, and the
   * initial pipeline value in between.
   */
  lemma OrderDelay(b: Books, rows: seq<LogRow>, trace: map<Role, RoleTrace>, cfg: SimulationConfig,
                   agents: map<Role, Agent>, demandFn: int -> int, n: nat, m: nat, r: Role)
    requires Consistent(b, rows, trace, cfg, agents, demandFn, n) && m < n && r != Retailer
    ensures var lag := Max(1, cfg.orderLeadTime);
      trace[r].seen[m].incomingOrder
        == if m == 0 then 0
           else if m >= lag then trace[Downstream(r).value].placed[m - lag]
           else cfg.initialPipeline
  {
    RoleAt(b, rows, trace, cfg, agents, demandFn, n, m, r);
    assert OrderFlowOk(rows, trace, cfg, demandFn, m, r);
    assert trace[r].seen[m].incomingOrder == IncomingAt(trace, cfg, r, m);
  }

  /** The retailer's incoming order is the consumer demand of the period. */
  lemma RetailerDemand(b: Books, rows: seq<LogRow>, trace: map<Role, RoleTrace>, cfg: SimulationConfig,
                       agents: map<Role, Agent>, demandFn: int -> int, n: nat, m: nat)
    requires Consistent(b, rows, trace, cfg, agents, demandFn, n) && m < n
    ensures trace[Retailer].seen[m].incomingOrder == demandFn(Row(rows, m, Retailer).t)
    ensures Row(rows, m, Retailer).incomingOrder == demandFn(Row(rows, m, Retailer).t)
  {
    RoleAt(b, rows, trace, cfg, agents, demandFn, n, m, Retailer);
    assert OrderFlowOk(rows, trace, cfg, demandFn, m, Retailer);
  }

  /**
   * The logged incoming order and pipeline are read after the orders were
   * propagated: for a non-retailer they are what the role is shown in the
   * next period.
   */
  lemma LoggedIsNext(b: Books, rows: seq<LogRow>, trace: map<Role, RoleTrace>, cfg: SimulationConfig,
                     agents: map<Role, Agent>, demandFn: int -> int, n: nat, m: nat, r: Role)
    requires Consistent(b, rows, trace, cfg, agents, demandFn, n) && m + 1 < n
    ensures r != Retailer ==> Row(rows, m, r).incomingOrder == trace[r].seen[m + 1].incomingOrder
    ensures Row(rows, m, r).pipeline == trace[r].seen[m + 1].pipelineOnOrder
  {
    RoleAt(b, rows, trace, cfg, agents, demandFn, n, m, r);
    assert OrderFlowOk(rows, trace, cfg, demandFn, m, r);
    RoleAt(b, rows, trace, cfg, agents, demandFn, n, m + 1, r);
    assert OrderFlowOk(rows, trace, cfg, demandFn, m + 1, r);
  }

  /** After the last period, the logged incoming order and pipeline are what the counters hold. */
  lemma LoggedIsCurrent(b: Books, rows: seq<LogRow>, trace: map<Role, RoleTrace>, cfg: SimulationConfig,
                        agents: map<Role, Agent>, demandFn: int -> int, n: nat, r: Role)
    requires Consistent(b, rows, trace, cfg, agents, demandFn, n) && n >= 1
    ensures r != Retailer ==> Row(rows, n - 1, r).incomingOrder == b.incomingOrder[r]
    ensures Row(rows, n - 1, r).pipeline == Sum(b.pipeline[r])
  {
    RoleAt(b, rows, trace, cfg, agents, demandFn, n, n - 1, r);
    assert OrderFlowOk(rows, trace, cfg, demandFn, n - 1, r);
    assert RoleConsistent(b, rows, trace, cfg, n, r);
  }

  /**
   * The logged order is the agent's answer clamped at zero, and it is the
   * role's last order from then on: shown to it in the next period and kept
   * in its counters after the last one.
   */
  lemma PlacedIsLastOrder(b: Books, rows: seq<LogRow>, trace: map<Role, RoleTrace>, cfg: SimulationConfig,
                          agents: map<Role, Agent>, demandFn: int -> int, n: nat, m: nat, r: Role)
    requires Consistent(b, rows, trace, cfg, agents, demandFn, n) && m < n
    ensures Row(rows, m, r).placedOrder == trace[r].placed[m] == Max(0, trace[r].decided[m]) >= 0
    ensures m + 1 < n ==> trace[r].seen[m + 1].lastPlacedOrder == Row(rows, m, r).placedOrder
    ensures m + 1 == n ==> b.lastOrder[r] == Row(rows, m, r).placedOrder
  {
    RoleAt(b, rows, trace, cfg, agents, demandFn, n, m, r);
    assert RowOk(rows, trace, cfg, agents, m, r);
    if m + 1 < n {
      RoleAt(b, rows, trace, cfg, agents, demandFn, n, m + 1, r);
      assert SnapshotOk(rows, trace, cfg, m + 1, r);
    } else {
      assert RoleConsistent(b, rows, trace, cfg, n, r);
    }
  }

  /**
   * Neighbour views: present only when sharing is on, never an upstream
   * view for the factory nor a downstream one for the retailer; a view
   * shows stock, backlog and last order, and the customer's last order is
   * the one it placed in this very period.
   */
  lemma NeighbourViews(b: Books, rows: seq<LogRow>, trace: map<Role, RoleTrace>, cfg: SimulationConfig,
                       agents: map<Role, Agent>, demandFn: int -> int, n: nat, m: nat, r: Role)
    requires Consistent(b, rows, trace, cfg, agents, demandFn, n) && m < n
    ensures !SharesNeighbours(cfg) ==> trace[r].seen[m].upstreamState.None? && trace[r].seen[m].downstreamState.None?
    ensures r == Factory ==> trace[r].seen[m].upstreamState.None?
    ensures r == Retailer ==> trace[r].seen[m].downstreamState.None?
    ensures SharesNeighbours(cfg) && r != Retailer ==>
      var d := Downstream(r).value;
      trace[r].seen[m].downstreamState
        == Some(NeighborState(d, Row(rows, m, d).inventory, Row(rows, m, d).backlog, Row(rows, m, d).placedOrder))
    ensures SharesNeighbours(cfg) && r != Factory ==>
      var u := Upstream(r).value;
      trace[r].seen[m].upstreamState
        == Some(NeighborState(u, Row(rows, m, u).inventory, Row(rows, m, u).backlog, AtOr(trace[u].placed, m - 1, 0)))
  {
    RoleAt(b, rows, trace, cfg, agents, demandFn, n, m, r);
    assert SnapshotOk(rows, trace, cfg, m, r);
    if r != Retailer {
      var d := Downstream(r).value;
      RoleAt(b, rows, trace, cfg, agents, demandFn, n, m, d);
      assert RowOk(rows, trace, cfg, agents, m, d);
    }
  }

  /** The factory's order pipeline is never rotated: it always holds its initial fill. */
  lemma FactoryPipelineFrozen(b: Books, rows: seq<LogRow>, trace: map<Role, RoleTrace>, cfg: SimulationConfig,
                              agents: map<Role, Agent>, demandFn: int -> int, n: nat)
    requires Consistent(b, rows, trace, cfg, agents, demandFn, n)
    ensures b.pipeline[Factory] == Fill(cfg.initialPipeline, cfg.orderLeadTime)
    ensures forall m | 0 <= m < n :: Row(rows, m, Factory).pipeline == Max(0, cfg.orderLeadTime) * cfg.initialPipeline
    ensures forall m | 0 <= m < n ::
      trace[Factory].seen[m].pipelineOnOrder == Max(0, cfg.orderLeadTime) * cfg.initialPipeline
  {
    var len := Max(0, cfg.orderLeadTime);
    SumFill(cfg.initialPipeline, len);
    assert Fill(cfg.initialPipeline, len) == Fill(cfg.initialPipeline, cfg.orderLeadTime);
    EmptyHistoryWindow(n, len, cfg.initialPipeline);
    assert RoleConsistent(b, rows, trace, cfg, n, Factory);
    forall m | 0 <= m < n
      ensures Row(rows, m, Factory).pipeline == len * cfg.initialPipeline
      ensures trace[Factory].seen[m].pipelineOnOrder == len * cfg.initialPipeline
    {
      RoleAt(b, rows, trace, cfg, agents, demandFn, n, m, Factory);
      assert OrderFlowOk(rows, trace, cfg, demandFn, m, Factory);
      EmptyHistoryWindow(m, len, cfg.initialPipeline);
      EmptyHistoryWindow(m + 1, len, cfg.initialPipeline);
    }
  }

  /**
   * Delay lines keep their length: a shipment queue, and a non-factory
   * order pipeline, hold exactly `lead time` entries while the lead time is
   * at least 1 (a line created empty holds one entry after its first period).
   */
  lemma LineLengths(b: Books, rows: seq<LogRow>, trace: map<Role, RoleTrace>, cfg: SimulationConfig,
                    agents: map<Role, Agent>, demandFn: int -> int, n: nat, r: Role)
    requires Consistent(b, rows, trace, cfg, agents, demandFn, n)
    ensures |b.shipmentQueues[r]| == DelayLength(cfg.shipmentLeadTime, n)
    ensures r != Factory ==> |b.pipeline[r]| == DelayLength(cfg.orderLeadTime, n)
    ensures cfg.shipmentLeadTime >= 1 ==> |b.shipmentQueues[r]| == cfg.shipmentLeadTime
    ensures cfg.orderLeadTime >= 1 ==> |b.pipeline[r]| == cfg.orderLeadTime
  {
    assert RoleConsistent(b, rows, trace, cfg, n, r);
  }

  /** The log is period-major and then in chain order: row 4m + i is role i's row of period m. */
  lemma RowsInChainOrder(b: Books, rows: seq<LogRow>, trace: map<Role, RoleTrace>, cfg: SimulationConfig,
                         agents: map<Role, Agent>, demandFn: int -> int, n: nat, m: nat, i: nat)
    requires Consistent(b, rows, trace, cfg, agents, demandFn, n) && m < n && i < |Chain|
    ensures |rows| == 4 * n
    ensures rows[4 * m + i].role == Chain[i] && rows[4 * m + i].t == rows[4 * m].t
  {
    ChainIndex(i);
    RowLayout(b, rows, trace, cfg, agents, demandFn, n, m, Chain[i]);
  }

  lemma RowLayout(b: Books, rows: seq<LogRow>, trace: map<Role, RoleTrace>, cfg: SimulationConfig,
                  agents: map<Role, Agent>, demandFn: int -> int, n: nat, m: nat, r: Role)
    requires Consistent(b, rows, trace, cfg, agents, demandFn, n) && m < n
    ensures 4 * m + 4 <= |rows| == 4 * n
    ensures Row(rows, m, r).role == r && Row(rows, m, r).t == rows[4 * m].t
  {
    RoleAt(b, rows, trace, cfg, agents, demandFn, n, m, r);
    assert RowOk(rows, trace, cfg, agents, m, r);
  }

  /**
   * With non-negative demand, initial inventory and initial pipeline, every
   * shipment, every arrival and every incoming order is non-negative.
   */
  lemma {:induction false} FlowsNonNegative(b: Books, rows: seq<LogRow>, trace: map<Role, RoleTrace>,
                                            cfg: SimulationConfig, agents: map<Role, Agent>, demandFn: int -> int,
                                            n: nat, m: nat, r: Role)
    requires Consistent(b, rows, trace, cfg, agents, demandFn, n) && m < n
    requires cfg.initialInventory >= 0 && cfg.initialPipeline >= 0 && forall t :: demandFn(t) >= 0
    ensures Row(rows, m, r).receivedShipment >= 0
    ensures trace[r].seen[m].incomingOrder >= 0
    ensures trace[r].shipped[m] >= 0
    decreases m
  {
    FulfilmentOutcome(b, rows, trace, cfg, agents, demandFn, n, m, r);
    if m > 0 {
      FulfilmentOutcome(b, rows, trace, cfg, agents, demandFn, n, m - 1, r);
    }
    if r == Factory {
      FactoryReceivesNothing(b, rows, trace, cfg, agents, demandFn, n, m);
    } else {
      ShipmentDelay(b, rows, trace, cfg, agents, demandFn, n, m, r);
      var lag := Max(1, cfg.shipmentLeadTime);
      if m >= lag {
        FlowsNonNegative(b, rows, trace, cfg, agents, demandFn, n, m - lag, Upstream(r).value);
      }
    }
    if r == Retailer {
      RetailerDemand(b, rows, trace, cfg, agents, demandFn, n, m);
    } else {
      OrderDelay(b, rows, trace, cfg, agents, demandFn, n, m, r);
      var lag := Max(1, cfg.orderLeadTime);
      if m > 0 && m >= lag {
        PlacedIsLastOrder(b, rows, trace, cfg, agents, demandFn, n, m - lag, Downstream(r).value);
      }
    }
  }

  /**
   * The factory receives nothing and its incoming orders are clamped orders
   * or the initial pipeline value, so with non-negative initial inventory
   * and pipeline its stock never grows from one period to the next,
   * whatever the consumer demand.
   */
  lemma FactoryStockNeverRises(b: Books, rows: seq<LogRow>, trace: map<Role, RoleTrace>, cfg: SimulationConfig,
                               agents: map<Role, Agent>, demandFn: int -> int, n: nat, m: nat)
    requires Consistent(b, rows, trace, cfg, agents, demandFn, n) && m < n
    requires cfg.initialInventory >= 0 && cfg.initialPipeline >= 0
    ensures Row(rows, m, Factory).inventory <= PrevInventory(rows, cfg, m, Factory)
    ensures Row(rows, m, Factory).inventory <= cfg.initialInventory
  {
    FulfilmentOutcome(b, rows, trace, cfg, agents, demandFn, n, m, Factory);
    if m > 0 {
      FulfilmentOutcome(b, rows, trace, cfg, agents, demandFn, n, m - 1, Factory);
    }
    FactoryReceivesNothing(b, rows, trace, cfg, agents, demandFn, n, m);
    OrderDelay(b, rows, trace, cfg, agents, demandFn, n, m, Factory);
    var lag := Max(1, cfg.orderLeadTime);
    if m > 0 && m >= lag {
      PlacedIsLastOrder(b, rows, trace, cfg, agents, demandFn, n, m - lag, Distributor);
    }
    if m > 0 {
      FactoryStockNeverRises(b, rows, trace, cfg, agents, demandFn, n, m - 1);
    }
  }

  /**
   * 'adjacent' and 'full' sharing show an agent exactly the same snapshot;
   * every other mode shows no neighbour at all.
   */
  lemma SharingModesAgree(b: Books, cfg: SimulationConfig, s: RoleState, role: Role, t: int,
                          older: map<Role, int>, newer: map<Role, int>)
    requires BooksTotal(b) && Total(older)
    ensures SeenAs(b, cfg.(informationSharing := "adjacent"), s, role, t, older, newer)
        <==> SeenAs(b, cfg.(informationSharing := "full"), s, role, t, older, newer)
    ensures !SharesNeighbours(cfg) && SeenAs(b, cfg, s, role, t, older, newer) ==>
      s.upstreamState.None? && s.downstreamState.None?
  {
  }

  /** The snapshot is fully determined by the counters, the configuration and the orders on record. */
  lemma SnapshotDeterminate(b: Books, cfg: SimulationConfig, s: RoleState, s': RoleState, role: Role, t: int,
                            older: map<Role, int>, newer: map<Role, int>)
    requires BooksTotal(b) && Total(older)
    requires SeenAs(b, cfg, s, role, t, older, newer) && SeenAs(b, cfg, s', role, t, older, newer)
    ensures s == s'
  {
  }
}
