/**
 * The values a simulation run works with — its configuration, the
 * fulfilment rule, the log rows — and, as ghost predicates over the log
 * and a per-role trace, what every logged period must satisfy.
 */
module SimulationRecords {
  import opened Wrappers
  import opened Builtins
  import opened Roles
  import opened Interfaces
  import opened DelayLines
  import opened Agents
  import RationalAnalyst

  /** One run's parameters; the source's defaults are in `DefaultConfig`. */
  datatype SimulationConfig = SimulationConfig(
    periods: int,
    orderLeadTime: int,
    shipmentLeadTime: int,
    initialInventory: int,
    initialPipeline: int,
    holdingCost: real,
    backlogCost: real,
    randomSeed: Option<int>,
    informationSharing: string)

  /**
   * The defaults: 52 periods, order lead time 1, shipment lead time 2,
   * 12 units in stock and 4 per pipeline slot, costs 0.5 and 1.0, seed 42,
   * and no neighbour views.
   */
  function DefaultConfig(): (c: SimulationConfig)
    ensures c.periods == 52 && c.orderLeadTime == 1 && c.shipmentLeadTime == 2
    ensures c.initialInventory == 12 && c.initialPipeline == 4
    ensures c.holdingCost == 0.5 && c.backlogCost == 1.0 && c.randomSeed == Some(42)
    ensures c.informationSharing == "none" && !SharesNeighbours(c)
  {
    SimulationConfig(52, 1, 2, 12, 4, 0.5, 1.0, Some(42), "none")
  }

  /** Neighbour views are built for 'adjacent' and 'full' alike, and for no other mode. */
  predicate SharesNeighbours(cfg: SimulationConfig)
  {
    cfg.informationSharing == "adjacent" || cfg.informationSharing == "full"
  }

  /** One log row: a role's state at the end of a period. */
  datatype LogRow = LogRow(
    t: int,
    role: Role,
    incomingOrder: int,
    placedOrder: int,
    receivedShipment: int,
    inventory: int,
    backlog: int,
    pipeline: int,
    costHolding: real,
    costBacklog: real)

  datatype Fulfilment = Fulfilment(inventory: int, backlog: int, shipped: int)

  /**
   * One role's fulfilment step: receive, then ship as much of incoming
   * order plus backlog as stock allows. Afterwards stock and backlog are
   * never negative and never both positive, the net stock changes by
   * exactly what arrived minus what was demanded, and what was shipped is
   * neither more than the stock nor more than the demand.
   */
  function Fulfil(inventory: int, backlog: int, received: int, incoming: int): Fulfilment
  {
    var stock := inventory + received;
    var demand := incoming + backlog;
    var shipped := Min(stock, demand);
    Fulfilment(stock - shipped, Max(0, demand - shipped), shipped)
  }

  lemma FulfilBalance(inventory: int, backlog: int, received: int, incoming: int)
    ensures var f := Fulfil(inventory, backlog, received, incoming);
      && f.inventory >= 0 && f.backlog >= 0
      && (f.inventory == 0 || f.backlog == 0)
      && f.inventory - f.backlog == inventory + received - (incoming + backlog)
      && f.inventory == inventory + received - f.shipped
      && f.shipped <= inventory + received && f.shipped <= incoming + backlog
      && (f.shipped == inventory + received || f.shipped == incoming + backlog)
      && (inventory + received >= 0 && incoming + backlog >= 0 ==> f.shipped >= 0)
  {
  }

  /** What one role did in each period so far (ghost bookkeeping of a run). */
  datatype RoleTrace = RoleTrace(
    shipped: seq<int>,       // units shipped to the downstream neighbour
    placed: seq<int>,        // the clamped order, as logged
    decided: seq<int>,       // the agent's raw answer
    seen: seq<RoleState>)    // the state the agent was shown

  /**
   * What is known of an agent's raw answer `raw` to state `s`: the order
   * function of a stateless policy, the analyst's closed form, and the
   * smoother's floor.
   */
  ghost predicate Decided(a: Agent, s: RoleState, raw: int)
  {
    && (Stateless(a) ==> raw == StatelessOrder(a, s))
    && (a.Analyst? ==> raw == RationalAnalyst.AnalystOrder(a.analyst.targetInventory, s))
    && (a.Smoother? ==> raw >= a.smoother.minProduction)
  }

  ghost predicate Total<V>(m: map<Role, V>)
  {
    forall r: Role :: r in m
  }

  ghost predicate TraceSized(trace: map<Role, RoleTrace>, n: nat)
  {
    Total(trace) &&
    forall r: Role :: |trace[r].shipped| == n && |trace[r].placed| == n && |trace[r].decided| == n && |trace[r].seen| == n
  }

  /** The rows of period t sit at offsets 4 * t to 4 * t + 3. */
  lemma QuarterOf(t: nat, j: int)
    requires 0 <= j < 4
    ensures (4 * t + j) / 4 == t
  {
  }

  /** The row of role r for the m-th period (rows are period-major, then chain order). */
  function Row(rows: seq<LogRow>, m: nat, r: Role): LogRow
    requires 4 * m + 4 <= |rows|
  {
    rows[4 * m + Index(r)]
  }

  /** Stock on hand when period m starts. */
  function PrevInventory(rows: seq<LogRow>, cfg: SimulationConfig, m: nat, r: Role): int
    requires 4 * m <= |rows|
  {
    if m == 0 then cfg.initialInventory else Row(rows, m - 1, r).inventory
  }

  function PrevBacklog(rows: seq<LogRow>, m: nat, r: Role): int
    requires 4 * m <= |rows|
  {
    if m == 0 then 0 else Row(rows, m - 1, r).backlog
  }

  /** The shipments flowing into r: what its supplier shipped (nothing for the factory). */
  function Inflow(trace: map<Role, RoleTrace>, r: Role): seq<int>
    requires Total(trace)
  {
    match Upstream(r)
    case None => []
    case Some(u) => trace[u].shipped
  }

  /** The orders r's customer placed (none for the retailer, whose orders are consumer demand). */
  function OrdersIn(trace: map<Role, RoleTrace>, r: Role): seq<int>
    requires Total(trace)
  {
    match Downstream(r)
    case None => []
    case Some(d) => trace[d].placed
  }

  /** The orders that enter r's own pipeline: the factory's pipeline is never rotated. */
  function OwnOrders(trace: map<Role, RoleTrace>, r: Role): seq<int>
    requires Total(trace)
  {
    if r == Factory then [] else trace[r].placed
  }

  /** Length of r's order pipeline after n periods. */
  function PipelineLength(cfg: SimulationConfig, r: Role, n: nat): nat
  {
    if r == Factory then Max(0, cfg.orderLeadTime) else DelayLength(cfg.orderLeadTime, n)
  }

  /** r's order pipeline after n periods. */
  function PipelineAfter(trace: map<Role, RoleTrace>, cfg: SimulationConfig, r: Role, n: nat): seq<int>
    requires Total(trace)
  {
    Window(OwnOrders(trace, r), n, PipelineLength(cfg, r, n), cfg.initialPipeline)
  }

  /** r's shipment queue after n periods. */
  function ShipmentsAfter(trace: map<Role, RoleTrace>, cfg: SimulationConfig, r: Role, n: nat): seq<int>
    requires Total(trace)
  {
    Window(Inflow(trace, r), n, DelayLength(cfg.shipmentLeadTime, n), 0)
  }

  /** The order r must serve in period m (before propagation), for a non-retailer. */
  function IncomingAt(trace: map<Role, RoleTrace>, cfg: SimulationConfig, r: Role, m: nat): int
    requires Total(trace)
  {
    if m == 0 then 0 else AtOr(OrdersIn(trace, r), m - Max(1, cfg.orderLeadTime), cfg.initialPipeline)
  }

  /** The view of neighbour `nb` that a role gets in period m, given the order `nb` has on record. */
  function NeighborAt(rows: seq<LogRow>, m: nat, nb: Role, last: int): NeighborState
    requires 4 * m + 4 <= |rows|
  {
    NeighborState(nb, Row(rows, m, nb).inventory, Row(rows, m, nb).backlog, last)
  }

  ghost predicate PeriodInRange(rows: seq<LogRow>, trace: map<Role, RoleTrace>, m: nat)
  {
    4 * m + 4 <= |rows| && Total(trace) &&
    forall r: Role :: m < |trace[r].shipped| && m < |trace[r].placed| && m < |trace[r].decided| && m < |trace[r].seen|
  }

  /** Row layout, clamping of the agent's answer, and costs. */
  ghost predicate RowOk(rows: seq<LogRow>, trace: map<Role, RoleTrace>, cfg: SimulationConfig,
                        agents: map<Role, Agent>, m: nat, r: Role)
    requires PeriodInRange(rows, trace, m) && Total(agents)
  {
    var row := Row(rows, m, r);
    var tr := trace[r];
    && row.role == r && row.t == rows[4 * m].t
    && row.placedOrder == tr.placed[m] == Max(0, tr.decided[m])
    && Decided(agents[r], tr.seen[m], tr.decided[m])
    && row.costHolding == cfg.holdingCost * (Max(0, row.inventory) as real)
    && row.costBacklog == cfg.backlogCost * (row.backlog as real)
  }

  /**
   * Arrival and fulfilment: r receives what its supplier shipped
   * max(1, lead time) periods earlier (zero before that, and always zero
   * at the factory), then ships by `Fulfil`.
   */
  ghost predicate ArrivalOk(rows: seq<LogRow>, trace: map<Role, RoleTrace>, cfg: SimulationConfig, m: nat, r: Role)
    requires PeriodInRange(rows, trace, m)
  {
    var row := Row(rows, m, r);
    && row.receivedShipment == AtOr(Inflow(trace, r), m - Max(1, cfg.shipmentLeadTime), 0)
    && Fulfil(PrevInventory(rows, cfg, m, r), PrevBacklog(rows, m, r), row.receivedShipment, trace[r].seen[m].incomingOrder)
         == Fulfilment(row.inventory, row.backlog, trace[r].shipped[m])
  }

  /**
   * The order r serves and the pipeline it sees in period m, and the ones
   * logged for m, which are read after propagation and so are period m+1's.
   */
  ghost predicate OrderFlowOk(rows: seq<LogRow>, trace: map<Role, RoleTrace>, cfg: SimulationConfig,
                              demandFn: int -> int, m: nat, r: Role)
    requires PeriodInRange(rows, trace, m)
  {
    var row := Row(rows, m, r);
    var v := trace[r].seen[m];
    && v.incomingOrder == (if r == Retailer then demandFn(row.t) else IncomingAt(trace, cfg, r, m))
    && row.incomingOrder == (if r == Retailer then demandFn(row.t) else IncomingAt(trace, cfg, r, m + 1))
    && v.pipelineOnOrder == Sum(PipelineAfter(trace, cfg, r, m))
    && row.pipeline == Sum(PipelineAfter(trace, cfg, r, m + 1))
  }

  /**
   * The rest of the snapshot r's agent saw: its own state after
   * fulfilment, its previous order, and neighbour views exactly when
   * sharing is on — the supplier's order as of the previous period, the
   * customer's order of this very period.
   */
  ghost predicate SnapshotOk(rows: seq<LogRow>, trace: map<Role, RoleTrace>, cfg: SimulationConfig, m: nat, r: Role)
    requires PeriodInRange(rows, trace, m)
  {
    var row := Row(rows, m, r);
    var v := trace[r].seen[m];
    && v.periodIndex == row.t && v.role == r
    && v.receivedShipment == row.receivedShipment
    && v.inventoryOnHand == row.inventory && v.backlog == row.backlog
    && v.lastPlacedOrder == AtOr(trace[r].placed, m - 1, 0)
    && v.params == CostParams(cfg.holdingCost, cfg.backlogCost)
    && v.upstreamState ==
         (if SharesNeighbours(cfg) && Upstream(r).Some?
          then Some(NeighborAt(rows, m, Upstream(r).value, AtOr(trace[Upstream(r).value].placed, m - 1, 0)))
          else None)
    && v.downstreamState ==
         (if SharesNeighbours(cfg) && Downstream(r).Some?
          then Some(NeighborAt(rows, m, Downstream(r).value, trace[Downstream(r).value].placed[m]))
          else None)
  }

  /** Everything the engine promises about role r in period m. */
  ghost predicate RolePeriodOk(rows: seq<LogRow>, trace: map<Role, RoleTrace>, cfg: SimulationConfig,
                               agents: map<Role, Agent>, demandFn: int -> int, m: nat, r: Role)
    requires PeriodInRange(rows, trace, m) && Total(agents)
  {
    && RowOk(rows, trace, cfg, agents, m, r)
    && ArrivalOk(rows, trace, cfg, m, r)
    && OrderFlowOk(rows, trace, cfg, demandFn, m, r)
    && SnapshotOk(rows, trace, cfg, m, r)
  }

  ghost predicate PeriodOk(rows: seq<LogRow>, trace: map<Role, RoleTrace>, cfg: SimulationConfig,
                           agents: map<Role, Agent>, demandFn: int -> int, m: nat)
  {
    PeriodInRange(rows, trace, m) && Total(agents) &&
    forall r: Role :: RolePeriodOk(rows, trace, cfg, agents, demandFn, m, r)
  }

  /** `rows'`/`trace'` extend `rows`/`trace`: nothing recorded is ever changed. */
  ghost predicate Extends(rows: seq<LogRow>, trace: map<Role, RoleTrace>, rows': seq<LogRow>, trace': map<Role, RoleTrace>)
  {
    |rows| <= |rows'| && rows'[..|rows|] == rows &&
    Total(trace) && Total(trace') &&
    forall r: Role ::
      && |trace[r].shipped| <= |trace'[r].shipped| && trace'[r].shipped[..|trace[r].shipped|] == trace[r].shipped
      && |trace[r].placed| <= |trace'[r].placed| && trace'[r].placed[..|trace[r].placed|] == trace[r].placed
      && |trace[r].decided| <= |trace'[r].decided| && trace'[r].decided[..|trace[r].decided|] == trace[r].decided
      && |trace[r].seen| <= |trace'[r].seen| && trace'[r].seen[..|trace[r].seen|] == trace[r].seen
  }

  lemma AtOrPrefix(h: seq<int>, h': seq<int>, d: int)
    requires |h| <= |h'| && h'[..|h|] == h
    ensures forall k :: k < |h| ==> AtOr(h', k, d) == AtOr(h, k, d)
  {
    forall k | k < |h| ensures AtOr(h', k, d) == AtOr(h, k, d) {
      if 0 <= k { assert h'[k] == h'[..|h|][k]; }
    }
  }

  lemma SeqPrefixAt<T>(s: seq<T>, s': seq<T>, k: nat)
    requires |s| <= |s'| && s'[..|s|] == s && k < |s|
    ensures s'[k] == s[k]
  {
    assert s'[k] == s'[..|s|][k];
  }

  /** A period's facts survive every later period: they only mention what was already recorded. */
  lemma PeriodOkStable(rows: seq<LogRow>, trace: map<Role, RoleTrace>, rows': seq<LogRow>, trace': map<Role, RoleTrace>,
                       cfg: SimulationConfig, agents: map<Role, Agent>, demandFn: int -> int, m: nat)
    requires PeriodOk(rows, trace, cfg, agents, demandFn, m)
    requires Extends(rows, trace, rows', trace')
    ensures PeriodOk(rows', trace', cfg, agents, demandFn, m)
  {
    forall r: Role ensures RolePeriodOk(rows', trace', cfg, agents, demandFn, m, r) {
      RolePeriodOkStable(rows, trace, rows', trace', cfg, agents, demandFn, m, r);
    }
  }

  lemma RolePeriodOkStable(rows: seq<LogRow>, trace: map<Role, RoleTrace>, rows': seq<LogRow>, trace': map<Role, RoleTrace>,
                           cfg: SimulationConfig, agents: map<Role, Agent>, demandFn: int -> int, m: nat, r: Role)
    requires PeriodOk(rows, trace, cfg, agents, demandFn, m)
    requires Extends(rows, trace, rows', trace')
    ensures PeriodInRange(rows', trace', m)
    ensures RolePeriodOk(rows', trace', cfg, agents, demandFn, m, r)
  {
    assert RolePeriodOk(rows, trace, cfg, agents, demandFn, m, r);
    RowStable(rows, rows', m, r);
    SeqPrefixAt(rows, rows', 4 * m);
    TraceStable(trace, trace', m);
    RowOkStable(rows, trace, rows', trace', cfg, agents, m, r);
    ArrivalStable(rows, trace, rows', trace', cfg, m, r);
    OrderFlowStable(rows, trace, rows', trace', cfg, demandFn, m, r);
    SnapshotStable(rows, trace, rows', trace', cfg, m, r);
  }

  lemma RowOkStable(rows: seq<LogRow>, trace: map<Role, RoleTrace>, rows': seq<LogRow>, trace': map<Role, RoleTrace>,
                    cfg: SimulationConfig, agents: map<Role, Agent>, m: nat, r: Role)
    requires Total(agents) && PeriodInRange(rows, trace, m) && PeriodInRange(rows', trace', m)
    requires RowOk(rows, trace, cfg, agents, m, r)
    requires Row(rows', m, r) == Row(rows, m, r) && rows'[4 * m] == rows[4 * m]
    requires trace'[r].placed[m] == trace[r].placed[m] && trace'[r].decided[m] == trace[r].decided[m]
    requires trace'[r].seen[m] == trace[r].seen[m]
    ensures RowOk(rows', trace', cfg, agents, m, r)
  {
  }

  lemma ArrivalStable(rows: seq<LogRow>, trace: map<Role, RoleTrace>, rows': seq<LogRow>, trace': map<Role, RoleTrace>,
                      cfg: SimulationConfig, m: nat, r: Role)
    requires PeriodInRange(rows, trace, m) && PeriodInRange(rows', trace', m)
    requires ArrivalOk(rows, trace, cfg, m, r)
    requires Extends(rows, trace, rows', trace')
    requires Row(rows', m, r) == Row(rows, m, r)
    requires trace'[r].shipped[m] == trace[r].shipped[m] && trace'[r].seen[m] == trace[r].seen[m]
    ensures ArrivalOk(rows', trace', cfg, m, r)
  {
    if m > 0 { RowStable(rows, rows', m - 1, r); }
    assert PrevInventory(rows', cfg, m, r) == PrevInventory(rows, cfg, m, r);
    assert PrevBacklog(rows', m, r) == PrevBacklog(rows, m, r);
    AtOrPrefix(Inflow(trace, r), Inflow(trace', r), 0);
  }

  lemma SnapshotStable(rows: seq<LogRow>, trace: map<Role, RoleTrace>, rows': seq<LogRow>, trace': map<Role, RoleTrace>,
                       cfg: SimulationConfig, m: nat, r: Role)
    requires PeriodInRange(rows, trace, m) && PeriodInRange(rows', trace', m)
    requires SnapshotOk(rows, trace, cfg, m, r)
    requires Extends(rows, trace, rows', trace')
    requires Row(rows', m, r) == Row(rows, m, r) && trace'[r].seen[m] == trace[r].seen[m]
    requires forall x: Role :: trace'[x].placed[m] == trace[x].placed[m]
    requires forall x: Role :: AtOr(trace'[x].placed, m - 1, 0) == AtOr(trace[x].placed, m - 1, 0)
    ensures SnapshotOk(rows', trace', cfg, m, r)
  {
    if Upstream(r).Some? {
      var u := Upstream(r).value;
      RowStable(rows, rows', m, u);
      assert NeighborAt(rows', m, u, AtOr(trace'[u].placed, m - 1, 0)) == NeighborAt(rows, m, u, AtOr(trace[u].placed, m - 1, 0));
    }
    if Downstream(r).Some? {
      var d := Downstream(r).value;
      RowStable(rows, rows', m, d);
      assert NeighborAt(rows', m, d, trace'[d].placed[m]) == NeighborAt(rows, m, d, trace[d].placed[m]);
    }
  }

  lemma RowStable(rows: seq<LogRow>, rows': seq<LogRow>, m: nat, x: Role)
    requires 4 * m + 4 <= |rows| <= |rows'| && rows'[..|rows|] == rows
    ensures Row(rows', m, x) == Row(rows, m, x)
  {
    SeqPrefixAt(rows, rows', 4 * m + Index(x));
  }

  lemma TraceStable(trace: map<Role, RoleTrace>, trace': map<Role, RoleTrace>, m: nat)
    requires Total(trace) && Total(trace')
    requires forall x: Role :: m < |trace[x].placed| && m < |trace[x].decided| && m < |trace[x].seen|
    requires forall x: Role ::
      && |trace[x].placed| <= |trace'[x].placed| && trace'[x].placed[..|trace[x].placed|] == trace[x].placed
      && |trace[x].decided| <= |trace'[x].decided| && trace'[x].decided[..|trace[x].decided|] == trace[x].decided
      && |trace[x].seen| <= |trace'[x].seen| && trace'[x].seen[..|trace[x].seen|] == trace[x].seen
    ensures forall x: Role ::
      && trace'[x].placed[m] == trace[x].placed[m]
      && trace'[x].decided[m] == trace[x].decided[m]
      && trace'[x].seen[m] == trace[x].seen[m]
      && AtOr(trace'[x].placed, m - 1, 0) == AtOr(trace[x].placed, m - 1, 0)
  {
    forall x: Role ensures
      && trace'[x].placed[m] == trace[x].placed[m]
      && trace'[x].decided[m] == trace[x].decided[m]
      && trace'[x].seen[m] == trace[x].seen[m]
      && AtOr(trace'[x].placed, m - 1, 0) == AtOr(trace[x].placed, m - 1, 0)
    {
      SeqPrefixAt(trace[x].placed, trace'[x].placed, m);
      SeqPrefixAt(trace[x].decided, trace'[x].decided, m);
      SeqPrefixAt(trace[x].seen, trace'[x].seen, m);
      if m > 0 { SeqPrefixAt(trace[x].placed, trace'[x].placed, m - 1); }
    }
  }

  lemma OrderFlowStable(rows: seq<LogRow>, trace: map<Role, RoleTrace>, rows': seq<LogRow>, trace': map<Role, RoleTrace>,
                        cfg: SimulationConfig, demandFn: int -> int, m: nat, r: Role)
    requires PeriodInRange(rows, trace, m) && PeriodInRange(rows', trace', m)
    requires OrderFlowOk(rows, trace, cfg, demandFn, m, r)
    requires Extends(rows, trace, rows', trace')
    requires Row(rows', m, r) == Row(rows, m, r) && trace'[r].seen[m] == trace[r].seen[m]
    ensures OrderFlowOk(rows', trace', cfg, demandFn, m, r)
  {
    OrderInputsStable(rows, trace, rows', trace', cfg, m, r);
  }

  /** Orders arriving at r and r's pipeline up to period m+1 depend only on the first m+1 periods of the trace. */
  lemma OrderInputsStable(rows: seq<LogRow>, trace: map<Role, RoleTrace>, rows': seq<LogRow>, trace': map<Role, RoleTrace>,
                          cfg: SimulationConfig, m: nat, r: Role)
    requires PeriodInRange(rows, trace, m) && Extends(rows, trace, rows', trace')
    ensures IncomingAt(trace', cfg, r, m) == IncomingAt(trace, cfg, r, m)
    ensures IncomingAt(trace', cfg, r, m + 1) == IncomingAt(trace, cfg, r, m + 1)
    ensures PipelineAfter(trace', cfg, r, m) == PipelineAfter(trace, cfg, r, m)
    ensures PipelineAfter(trace', cfg, r, m + 1) == PipelineAfter(trace, cfg, r, m + 1)
  {
    AtOrPrefix(OrdersIn(trace, r), OrdersIn(trace', r), cfg.initialPipeline);
    AtOrPrefix(OwnOrders(trace, r), OwnOrders(trace', r), cfg.initialPipeline);
    WindowStable(OwnOrders(trace, r), OwnOrders(trace', r), m, PipelineLength(cfg, r, m), cfg.initialPipeline);
    WindowStable(OwnOrders(trace, r), OwnOrders(trace', r), m + 1, PipelineLength(cfg, r, m + 1), cfg.initialPipeline);
  }

}
