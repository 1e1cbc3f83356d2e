/**
 * One period of the engine as relations between values: the runner's
 * counters before and after each of its steps, the rows the period logs,
 * the trace it extends, and the proof that a period carries a runner that
 * agrees with its log into one that still does.
 */
module SimulationSteps {
  import opened Wrappers
  import opened Builtins
  import opened Roles
  import opened Interfaces
  import opened DelayLines
  import opened Agents
  import opened SimulationRecords

  /** The runner's per-role counters, as one value. */
  datatype Books = Books(
    inventory: map<Role, int>,
    backlog: map<Role, int>,
    pipeline: map<Role, seq<int>>,
    incomingOrder: map<Role, int>,
    receivedShipment: map<Role, int>,
    lastOrder: map<Role, int>,
    shipmentQueues: map<Role, seq<int>>)

  ghost predicate BooksTotal(b: Books)
  {
    && Total(b.inventory) && Total(b.backlog) && Total(b.pipeline) && Total(b.incomingOrder)
    && Total(b.receivedShipment) && Total(b.lastOrder) && Total(b.shipmentQueues)
  }

  /** What r's supplier shipped in this period (nothing for the factory). */
  function SupplierShipment(shipped: map<Role, int>, r: Role): int
  {
    match Upstream(r)
    case None => 0
    case Some(u) => if u in shipped then shipped[u] else 0
  }

  /** Step 1: the retailer's incoming order is the consumer demand of period t. */
  function WithDemand(b: Books, demand: int): Books
  {
    b.(incomingOrder := b.incomingOrder[Retailer := demand])
  }

  /** Step 2: every role takes the front of its shipment queue, and an empty slot joins the back. */
  ghost predicate Received(b: Books, b': Books)
  {
    && BooksTotal(b) && BooksTotal(b')
    && b' == b.(receivedShipment := b'.receivedShipment, shipmentQueues := b'.shipmentQueues)
    && (forall r: Role {:trigger Front(b.shipmentQueues[r])} :: b'.receivedShipment[r] == Front(b.shipmentQueues[r]))
    && (forall r: Role {:trigger Rotate(b.shipmentQueues[r], 0)} :: b'.shipmentQueues[r] == Rotate(b.shipmentQueues[r], 0))
  }

  /**
   * Step 3: every role ships by `Fulfil`, and what it ships lands in the
   * newest slot of its customer's queue; nothing feeds the factory's queue.
   */
  ghost predicate Fulfilled(b: Books, b': Books, shipped: map<Role, int>)
  {
    && BooksTotal(b) && BooksTotal(b') && Total(shipped)
    && (forall r: Role :: |b.shipmentQueues[r]| >= 1)
    && b' == b.(inventory := b'.inventory, backlog := b'.backlog, shipmentQueues := b'.shipmentQueues)
    && (forall r: Role {:trigger Fulfil(b.inventory[r], b.backlog[r], b.receivedShipment[r], b.incomingOrder[r])} ::
          Fulfil(b.inventory[r], b.backlog[r], b.receivedShipment[r], b.incomingOrder[r])
            == Fulfilment(b'.inventory[r], b'.backlog[r], shipped[r]))
    && b'.shipmentQueues[Factory] == b.shipmentQueues[Factory]
    && (forall r: Role :: r != Factory ==>
          b'.shipmentQueues[r] == AddToBack(b.shipmentQueues[r], SupplierShipment(shipped, r)))
  }

  /**
   * The snapshot `s` shows `role` as it stands in `b` in period t. The
   * orders on record are `older` for the role itself and its supplier, and
   * `newer` for its customer, which has already decided in this period.
   * Neighbour views are present exactly when sharing is on.
   */
  ghost predicate SeenAs(b: Books, cfg: SimulationConfig, s: RoleState, role: Role, t: int,
                         older: map<Role, int>, newer: map<Role, int>)
    requires BooksTotal(b) && Total(older)
  {
    && s.periodIndex == t && s.role == role
    && s.incomingOrder == b.incomingOrder[role] && s.receivedShipment == b.receivedShipment[role]
    && s.inventoryOnHand == b.inventory[role] && s.backlog == b.backlog[role]
    && s.pipelineOnOrder == Sum(b.pipeline[role]) && s.lastPlacedOrder == older[role]
    && s.params == CostParams(cfg.holdingCost, cfg.backlogCost)
    && s.upstreamState ==
         (if SharesNeighbours(cfg) && Upstream(role).Some?
          then Some(NeighborState(Upstream(role).value, b.inventory[Upstream(role).value],
                                  b.backlog[Upstream(role).value], older[Upstream(role).value]))
          else None)
    && (Downstream(role).Some? ==> Downstream(role).value in newer)
    && s.downstreamState ==
         (if SharesNeighbours(cfg) && Downstream(role).Some? && Downstream(role).value in newer
          then Some(NeighborState(Downstream(role).value, b.inventory[Downstream(role).value],
                                  b.backlog[Downstream(role).value], newer[Downstream(role).value]))
          else None)
  }

  /**
   * Step 4: every agent was shown its snapshot, its answer obeys the
   * agent's contract, the order is the answer clamped at zero, and it
   * becomes the role's last order.
   */
  ghost predicate DecidedAll(b: Books, b': Books, cfg: SimulationConfig, agents: map<Role, Agent>, t: int,
                             newOrders: map<Role, int>, decided: map<Role, int>, seen: map<Role, RoleState>)
  {
    && BooksTotal(b) && Total(agents) && Total(newOrders) && Total(decided) && Total(seen)
    && b' == b.(lastOrder := newOrders)
    && (forall r: Role {:trigger Max(0, decided[r])} :: newOrders[r] == Max(0, decided[r]))
    && (forall r: Role {:trigger Decided(agents[r], seen[r], decided[r])} :: Decided(agents[r], seen[r], decided[r]))
    && (forall r: Role {:trigger SeenAs(b, cfg, seen[r], r, t, b.lastOrder, newOrders)} ::
          SeenAs(b, cfg, seen[r], r, t, b.lastOrder, newOrders))
  }

  /**
   * Step 5: every role but the factory pushes its order into its own
   * pipeline, and its supplier's incoming order becomes that pipeline's
   * front. The factory's pipeline is left alone.
   */
  ghost predicate Propagated(b: Books, b': Books, newOrders: map<Role, int>)
  {
    && BooksTotal(b) && BooksTotal(b') && Total(newOrders)
    && b' == b.(pipeline := b'.pipeline, incomingOrder := b'.incomingOrder)
    && b'.pipeline[Factory] == b.pipeline[Factory]
    && (forall r: Role {:trigger Rotate(b.pipeline[r], newOrders[r])} ::
          r != Factory ==> b'.pipeline[r] == Rotate(b.pipeline[r], newOrders[r]))
    && b'.incomingOrder[Retailer] == b.incomingOrder[Retailer]
    && (forall r: Role {:trigger Front(b'.pipeline[Downstream(r).value])} ::
          r != Retailer ==> b'.incomingOrder[r] == Front(b'.pipeline[Downstream(r).value]))
  }

  /** `_record`: role's row for period t, read from the counters at the end of the period. */
  function RowOf(cfg: SimulationConfig, b: Books, t: int, role: Role, placed: int): (row: LogRow)
    requires BooksTotal(b)
  {
    LogRow(t, role, b.incomingOrder[role], placed, b.receivedShipment[role], b.inventory[role], b.backlog[role],
      if |b.pipeline[role]| > 0 then Sum(b.pipeline[role]) else 0,
      cfg.holdingCost * (Max(0, b.inventory[role]) as real), cfg.backlogCost * (b.backlog[role] as real))
  }

  /** Step 7: the four rows of period t, in chain order. */
  function PeriodRows(cfg: SimulationConfig, b: Books, t: int, newOrders: map<Role, int>): (rows: seq<LogRow>)
    requires BooksTotal(b) && Total(newOrders)
  {
    [RowOf(cfg, b, t, Retailer, newOrders[Retailer]), RowOf(cfg, b, t, Wholesaler, newOrders[Wholesaler]),
     RowOf(cfg, b, t, Distributor, newOrders[Distributor]), RowOf(cfg, b, t, Factory, newOrders[Factory])]
  }

  /** The i-th row of a period is the row of the i-th role of the chain. */
  lemma PeriodRowAt(cfg: SimulationConfig, b: Books, t: int, newOrders: map<Role, int>, i: nat)
    requires BooksTotal(b) && Total(newOrders) && i < |Chain|
    ensures |PeriodRows(cfg, b, t, newOrders)| == |Chain|
    ensures PeriodRows(cfg, b, t, newOrders)[i] == RowOf(cfg, b, t, Chain[i], newOrders[Chain[i]])
  {
  }

  /** The trace with one more period appended for every role. */
  ghost function Extend(trace: map<Role, RoleTrace>, shipped: map<Role, int>, newOrders: map<Role, int>,
                        decided: map<Role, int>, seen: map<Role, RoleState>): map<Role, RoleTrace>
    requires Total(trace) && Total(shipped) && Total(newOrders) && Total(decided) && Total(seen)
  {
    map r: Role | r in trace ::
      RoleTrace(trace[r].shipped + [shipped[r]], trace[r].placed + [newOrders[r]],
                trace[r].decided + [decided[r]], trace[r].seen + [seen[r]])
  }

  /** Role r's counters are what the log and the trace say after n periods. */
  ghost predicate RoleConsistent(b: Books, rows: seq<LogRow>, trace: map<Role, RoleTrace>,
                                 cfg: SimulationConfig, n: nat, r: Role)
    requires BooksTotal(b) && 4 * n <= |rows| && Total(trace)
  {
    && b.inventory[r] == PrevInventory(rows, cfg, n, r)
    && b.backlog[r] == PrevBacklog(rows, n, r)
    && b.lastOrder[r] == AtOr(trace[r].placed, n - 1, 0)
    && b.shipmentQueues[r] == ShipmentsAfter(trace, cfg, r, n)
    && b.pipeline[r] == PipelineAfter(trace, cfg, r, n)
    && (r != Retailer ==> b.incomingOrder[r] == IncomingAt(trace, cfg, r, n))
  }

  /**
   * After n periods: the log has four rows per period, every counter agrees
   * with it, and every period logged satisfies `PeriodOk`.
   */
  ghost predicate Consistent(b: Books, rows: seq<LogRow>, trace: map<Role, RoleTrace>, cfg: SimulationConfig,
                             agents: map<Role, Agent>, demandFn: int -> int, n: nat)
  {
    && BooksTotal(b) && |rows| == 4 * n && TraceSized(trace, n)
    && AllRolesConsistent(b, rows, trace, cfg, n)
    && (forall m: nat | m < n :: PeriodOk(rows, trace, cfg, agents, demandFn, m))
  }

  ghost predicate AllRolesConsistent(b: Books, rows: seq<LogRow>, trace: map<Role, RoleTrace>,
                                     cfg: SimulationConfig, n: nat)
    requires BooksTotal(b) && 4 * n <= |rows| && Total(trace)
  {
    forall r: Role :: RoleConsistent(b, rows, trace, cfg, n, r)
  }

  /** One whole period t, run from `b0` (after n periods) to `b5`, logging `rows'` and tracing `trace'`. */
  ghost predicate PeriodStep(
    cfg: SimulationConfig, agents: map<Role, Agent>, demandFn: int -> int, t: int,
    b0: Books, b1: Books, b2: Books, b3: Books, b4: Books, b5: Books,
    shipped: map<Role, int>, newOrders: map<Role, int>, decided: map<Role, int>, seen: map<Role, RoleState>,
    rows: seq<LogRow>, rows': seq<LogRow>, trace: map<Role, RoleTrace>, trace': map<Role, RoleTrace>)
  {
    && Advanced(cfg, agents, demandFn, t, b0, b1, b2, b3, b4, b5, shipped, newOrders, decided, seen)
    && Logged(cfg, t, b5, shipped, newOrders, decided, seen, rows, rows', trace, trace')
  }

  /** Steps 1 to 5 of period t, from `b0` to `b5`, through the books between the steps. */
  ghost predicate Advanced(
    cfg: SimulationConfig, agents: map<Role, Agent>, demandFn: int -> int, t: int,
    b0: Books, b1: Books, b2: Books, b3: Books, b4: Books, b5: Books,
    shipped: map<Role, int>, newOrders: map<Role, int>, decided: map<Role, int>, seen: map<Role, RoleState>)
  {
    && BooksTotal(b0)
    && b1 == WithDemand(b0, demandFn(t))
    && Received(b1, b2)
    && Fulfilled(b2, b3, shipped)
    && DecidedAll(b3, b4, cfg, agents, t, newOrders, decided, seen)
    && Propagated(b4, b5, newOrders)
  }

  /** Step 7 of period t on the books `b5` it ends with, and the period's entry in the trace. */
  ghost predicate Logged(
    cfg: SimulationConfig, t: int, b5: Books,
    shipped: map<Role, int>, newOrders: map<Role, int>, decided: map<Role, int>, seen: map<Role, RoleState>,
    rows: seq<LogRow>, rows': seq<LogRow>, trace: map<Role, RoleTrace>, trace': map<Role, RoleTrace>)
  {
    && BooksTotal(b5) && Total(trace) && Total(shipped) && Total(newOrders) && Total(decided) && Total(seen)
    && rows' == rows + PeriodRows(cfg, b5, t, newOrders)
    && trace' == Extend(trace, shipped, newOrders, decided, seen)
  }

  /** Logging a period appends four rows labelled with the period, and keeps the earlier ones. */
  lemma LoggedRows(
    cfg: SimulationConfig, t: int, b5: Books,
    shipped: map<Role, int>, newOrders: map<Role, int>, decided: map<Role, int>, seen: map<Role, RoleState>,
    rows: seq<LogRow>, rows': seq<LogRow>, trace: map<Role, RoleTrace>, trace': map<Role, RoleTrace>)
    requires Logged(cfg, t, b5, shipped, newOrders, decided, seen, rows, rows', trace, trace')
    ensures |rows'| == |rows| + 4 && rows'[..|rows|] == rows
    ensures forall k | |rows| <= k < |rows'| :: rows'[k].t == t
  {
  }

  /** The period's rows: four more, the last four being `PeriodRows`, the earlier ones unchanged. */
  lemma RowsStep(cfg: SimulationConfig, t: int, n: nat, b5: Books, newOrders: map<Role, int>,
                 rows: seq<LogRow>, rows': seq<LogRow>)
    requires |rows| == 4 * n && BooksTotal(b5) && Total(newOrders)
    requires rows' == rows + PeriodRows(cfg, b5, t, newOrders)
    ensures RowsLogged(cfg, t, n, b5, newOrders, rows, rows')
  {
    forall r: Role ensures Row(rows', n, r) == RowOf(cfg, b5, t, r, newOrders[r]) {
      assert rows'[4 * n + Index(r)] == PeriodRows(cfg, b5, t, newOrders)[Index(r)];
    }
    assert rows'[..|rows|] == rows;
  }

  /** The extended trace has one more entry per role and keeps every earlier one. */
  lemma TraceStep(n: nat, shipped: map<Role, int>, newOrders: map<Role, int>, decided: map<Role, int>,
                  seen: map<Role, RoleState>, trace: map<Role, RoleTrace>, trace': map<Role, RoleTrace>)
    requires TraceSized(trace, n)
    requires Total(shipped) && Total(newOrders) && Total(decided) && Total(seen)
    requires trace' == Extend(trace, shipped, newOrders, decided, seen)
    ensures Total(trace) && Total(trace') && TraceGrown(n, trace, trace', shipped, newOrders, decided, seen)
  {
  }

  /** Appending to every history of the trace extends it. */
  lemma TraceExtends(n: nat, rows: seq<LogRow>, rows': seq<LogRow>, shipped: map<Role, int>, newOrders: map<Role, int>,
                     decided: map<Role, int>, seen: map<Role, RoleState>, trace: map<Role, RoleTrace>,
                     trace': map<Role, RoleTrace>)
    requires |rows| <= |rows'| && rows'[..|rows|] == rows
    requires TraceGrown(n, trace, trace', shipped, newOrders, decided, seen)
    ensures Extends(rows, trace, rows', trace')
  {
    forall r: Role
      ensures trace'[r].shipped[..|trace[r].shipped|] == trace[r].shipped
      ensures trace'[r].placed[..|trace[r].placed|] == trace[r].placed
      ensures trace'[r].decided[..|trace[r].decided|] == trace[r].decided
      ensures trace'[r].seen[..|trace[r].seen|] == trace[r].seen
    {
      assert (trace[r].shipped + [shipped[r]])[..|trace[r].shipped|] == trace[r].shipped;
      assert (trace[r].placed + [newOrders[r]])[..|trace[r].placed|] == trace[r].placed;
      assert (trace[r].decided + [decided[r]])[..|trace[r].decided|] == trace[r].decided;
      assert (trace[r].seen + [seen[r]])[..|trace[r].seen|] == trace[r].seen;
    }
  }

  /** A shipment queue rotated, then fed by the supplier's shipment, is the window one period later. */
  lemma QueueNext(cfg: SimulationConfig, n: nat, r: Role, shipped: map<Role, int>,
                  trace: map<Role, RoleTrace>, trace': map<Role, RoleTrace>, q: seq<int>, q': seq<int>)
    requires TraceSized(trace, n) && Total(trace') && Total(shipped)
    requires forall x: Role :: trace'[x].shipped == trace[x].shipped + [shipped[x]]
    requires q == ShipmentsAfter(trace, cfg, r, n) && |Rotate(q, 0)| >= 1
    requires r == Factory ==> q' == Rotate(q, 0)
    requires r != Factory ==> q' == AddToBack(Rotate(q, 0), SupplierShipment(shipped, r))
    ensures q' == ShipmentsAfter(trace', cfg, r, n + 1)
  {
    var h, h' := Inflow(trace, r), Inflow(trace', r);
    var len := DelayLength(cfg.shipmentLeadTime, n);
    DelayLengthNext(cfg.shipmentLeadTime, n);
    if r == Factory {
      RotateWindow(h, h', n, len, 0);
    } else {
      var u := Upstream(r).value;
      AtOrExtend(trace[u].shipped, shipped[u], 0);
      AddToBackRotate(q, shipped[u]);
      RotateWindow(h, h', n, len, 0);
    }
  }

  /** An order pipeline after the period's push is the window one period later; the factory's never moves. */
  lemma PipelineNext(cfg: SimulationConfig, n: nat, r: Role, newOrders: map<Role, int>,
                     trace: map<Role, RoleTrace>, trace': map<Role, RoleTrace>, p: seq<int>, p': seq<int>)
    requires TraceSized(trace, n) && Total(trace') && Total(newOrders)
    requires forall x: Role :: trace'[x].placed == trace[x].placed + [newOrders[x]]
    requires p == PipelineAfter(trace, cfg, r, n)
    requires r == Factory ==> p' == p
    requires r != Factory ==> p' == Rotate(p, newOrders[r])
    ensures p' == PipelineAfter(trace', cfg, r, n + 1)
  {
    if r == Factory {
      EmptyHistoryWindow(n, PipelineLength(cfg, r, n), cfg.initialPipeline);
      EmptyHistoryWindow(n + 1, PipelineLength(cfg, r, n + 1), cfg.initialPipeline);
    } else {
      DelayLengthNext(cfg.orderLeadTime, n);
      AtOrExtend(trace[r].placed, newOrders[r], cfg.initialPipeline);
      RotateWindow(OwnOrders(trace, r), OwnOrders(trace', r), n, PipelineLength(cfg, r, n), cfg.initialPipeline);
    }
  }

  /** A supplier's incoming order is the front of its customer's pipeline, one period later. */
  lemma IncomingNext(cfg: SimulationConfig, n: nat, r: Role, trace': map<Role, RoleTrace>, p: seq<int>, x: int)
    requires Total(trace') && r != Retailer
    requires p == PipelineAfter(trace', cfg, Downstream(r).value, n + 1) && x == Front(p)
    ensures x == IncomingAt(trace', cfg, r, n + 1)
  {
    NeighbourIndex(r);
    FrontWindow(OwnOrders(trace', Downstream(r).value), n + 1, DelayLength(cfg.orderLeadTime, n + 1), cfg.initialPipeline);
  }

  /** What one period does to role r's stock, backlog and received shipment. */
  ghost predicate StockStepped(b0: Books, b5: Books, demand: int, shipped: map<Role, int>, r: Role)
    requires BooksTotal(b0) && BooksTotal(b5) && Total(shipped)
  {
    && b5.receivedShipment[r] == Front(b0.shipmentQueues[r])
    && Fulfil(b0.inventory[r], b0.backlog[r], b5.receivedShipment[r], if r == Retailer then demand else b0.incomingOrder[r])
         == Fulfilment(b5.inventory[r], b5.backlog[r], shipped[r])
  }

  /** What one period does to role r's shipment queue. */
  ghost predicate QueueStepped(b0: Books, b5: Books, shipped: map<Role, int>, r: Role)
    requires BooksTotal(b0) && BooksTotal(b5) && Total(shipped)
  {
    && |Rotate(b0.shipmentQueues[r], 0)| >= 1
    && b5.shipmentQueues[r] ==
         (if r == Factory then Rotate(b0.shipmentQueues[r], 0)
          else AddToBack(Rotate(b0.shipmentQueues[r], 0), SupplierShipment(shipped, r)))
  }

  /** What one period does to role r's last order, pipeline and incoming order. */
  ghost predicate OrdersStepped(b0: Books, b5: Books, demand: int, newOrders: map<Role, int>, r: Role)
    requires BooksTotal(b0) && BooksTotal(b5) && Total(newOrders)
  {
    && b5.lastOrder[r] == newOrders[r]
    && b5.pipeline[r] == (if r == Factory then b0.pipeline[r] else Rotate(b0.pipeline[r], newOrders[r]))
    && b5.incomingOrder[r] == (if r == Retailer then demand else Front(b5.pipeline[Downstream(r).value]))
  }

  /** The five steps of a period, followed through to their effect on the counters. */
  lemma StepFacts(
    cfg: SimulationConfig, agents: map<Role, Agent>, t: int, demand: int,
    b0: Books, b1: Books, b2: Books, b3: Books, b4: Books, b5: Books,
    shipped: map<Role, int>, newOrders: map<Role, int>, decided: map<Role, int>, seen: map<Role, RoleState>)
    requires BooksTotal(b0) && b1 == WithDemand(b0, demand) && Received(b1, b2) && Fulfilled(b2, b3, shipped)
    requires DecidedAll(b3, b4, cfg, agents, t, newOrders, decided, seen) && Propagated(b4, b5, newOrders)
    ensures BooksTotal(b3) && BooksTotal(b5) && Total(agents)
    ensures Total(shipped) && Total(newOrders) && Total(decided) && Total(seen)
    ensures b5.receivedShipment == b2.receivedShipment && b5.inventory == b3.inventory && b5.backlog == b3.backlog
    ensures b5.shipmentQueues == b3.shipmentQueues && b5.lastOrder == newOrders && b4.pipeline == b0.pipeline
    ensures b2.inventory == b0.inventory && b2.backlog == b0.backlog && b2.incomingOrder == b1.incomingOrder
    ensures b1.shipmentQueues == b0.shipmentQueues && b4.incomingOrder == b1.incomingOrder
  {
  }

  lemma StockFacts(demand: int, b0: Books, b2: Books, b3: Books, b5: Books, shipped: map<Role, int>, r: Role)
    requires BooksTotal(b0) && BooksTotal(b2) && BooksTotal(b3) && BooksTotal(b5) && Total(shipped)
    requires forall x: Role :: b2.receivedShipment[x] == Front(b0.shipmentQueues[x])
    requires forall x: Role {:trigger Fulfil(b2.inventory[x], b2.backlog[x], b2.receivedShipment[x], b2.incomingOrder[x])} ::
      Fulfil(b2.inventory[x], b2.backlog[x], b2.receivedShipment[x], b2.incomingOrder[x])
        == Fulfilment(b3.inventory[x], b3.backlog[x], shipped[x])
    requires b5.receivedShipment == b2.receivedShipment && b5.inventory == b3.inventory && b5.backlog == b3.backlog
    requires b2.inventory == b0.inventory && b2.backlog == b0.backlog
    requires b2.incomingOrder == b0.incomingOrder[Retailer := demand]
    ensures StockStepped(b0, b5, demand, shipped, r)
  {
    assert Fulfil(b2.inventory[r], b2.backlog[r], b2.receivedShipment[r], b2.incomingOrder[r])
      == Fulfilment(b3.inventory[r], b3.backlog[r], shipped[r]);
  }

  lemma QueueFacts(b0: Books, b2: Books, b3: Books, b5: Books, shipped: map<Role, int>, r: Role)
    requires BooksTotal(b0) && BooksTotal(b2) && BooksTotal(b3) && BooksTotal(b5) && Total(shipped)
    requires forall x: Role :: b2.shipmentQueues[x] == Rotate(b0.shipmentQueues[x], 0)
    requires forall x: Role :: |b2.shipmentQueues[x]| >= 1
    requires b3.shipmentQueues[Factory] == b2.shipmentQueues[Factory]
    requires forall x: Role :: x != Factory ==>
      b3.shipmentQueues[x] == AddToBack(b2.shipmentQueues[x], SupplierShipment(shipped, x))
    requires b5.shipmentQueues == b3.shipmentQueues
    ensures QueueStepped(b0, b5, shipped, r)
  {
  }

  lemma OrdersFacts(demand: int, b0: Books, b4: Books, b5: Books, newOrders: map<Role, int>, r: Role)
    requires BooksTotal(b0) && BooksTotal(b4) && BooksTotal(b5) && Total(newOrders)
    requires b5.lastOrder == newOrders && b4.pipeline == b0.pipeline
    requires b4.incomingOrder == b0.incomingOrder[Retailer := demand]
    requires b5.pipeline[Factory] == b4.pipeline[Factory]
    requires forall x: Role :: x != Factory ==> b5.pipeline[x] == Rotate(b4.pipeline[x], newOrders[x])
    requires b5.incomingOrder[Retailer] == b4.incomingOrder[Retailer]
    requires forall x: Role :: x != Retailer ==> b5.incomingOrder[x] == Front(b5.pipeline[Downstream(x).value])
    ensures OrdersStepped(b0, b5, demand, newOrders, r)
  {
  }

  /** The snapshots were taken after fulfilment, before any order was pushed. */
  lemma StepSnapshot(
    cfg: SimulationConfig, agents: map<Role, Agent>, t: int, demand: int,
    b0: Books, b1: Books, b2: Books, b3: Books, b4: Books, b5: Books,
    shipped: map<Role, int>, newOrders: map<Role, int>, decided: map<Role, int>, seen: map<Role, RoleState>)
    requires BooksTotal(b0) && b1 == WithDemand(b0, demand) && Received(b1, b2) && Fulfilled(b2, b3, shipped)
    requires DecidedAll(b3, b4, cfg, agents, t, newOrders, decided, seen) && Propagated(b4, b5, newOrders)
    ensures forall r: Role :: SeenAs(b3, cfg, seen[r], r, t, b0.lastOrder, newOrders)
    ensures b3 == b5.(lastOrder := b0.lastOrder, pipeline := b0.pipeline, incomingOrder := b1.incomingOrder)
  {
  }

  /** After the period, role r's counters agree with the longer log and trace. */
  lemma RoleNext(
    cfg: SimulationConfig, demand: int, n: nat, r: Role, b0: Books, b5: Books,
    shipped: map<Role, int>, newOrders: map<Role, int>,
    rows: seq<LogRow>, rows': seq<LogRow>, trace: map<Role, RoleTrace>, trace': map<Role, RoleTrace>)
    requires BooksTotal(b0) && BooksTotal(b5) && Total(shipped) && Total(newOrders)
    requires |rows| == 4 * n && TraceSized(trace, n) && TraceSized(trace', n + 1)
    requires RoleConsistent(b0, rows, trace, cfg, n, r)
    requires b5.lastOrder[r] == newOrders[r]
    requires |rows'| == 4 * (n + 1)
    requires Row(rows', n, r).inventory == b5.inventory[r] && Row(rows', n, r).backlog == b5.backlog[r]
    requires trace'[r].placed == trace[r].placed + [newOrders[r]]
    requires b5.shipmentQueues[r] == ShipmentsAfter(trace', cfg, r, n + 1)
    requires b5.pipeline[r] == PipelineAfter(trace', cfg, r, n + 1)
    requires r != Retailer ==> b5.incomingOrder[r] == IncomingAt(trace', cfg, r, n + 1)
    ensures RoleConsistent(b5, rows', trace', cfg, n + 1, r)
  {
    AtOrExtend(trace[r].placed, newOrders[r], 0);
  }

  /** Role r's shipment queue after the period. */
  lemma QueueStep(cfg: SimulationConfig, demand: int, n: nat, r: Role, b0: Books, b5: Books,
                  shipped: map<Role, int>, newOrders: map<Role, int>,
                  trace: map<Role, RoleTrace>, trace': map<Role, RoleTrace>)
    requires BooksTotal(b0) && BooksTotal(b5) && Total(shipped) && Total(newOrders)
    requires TraceSized(trace, n) && Total(trace')
    requires b0.shipmentQueues[r] == ShipmentsAfter(trace, cfg, r, n)
    requires QueueStepped(b0, b5, shipped, r)
    requires forall x: Role :: trace'[x].shipped == trace[x].shipped + [shipped[x]]
    ensures b5.shipmentQueues[r] == ShipmentsAfter(trace', cfg, r, n + 1)
  {
    QueueNext(cfg, n, r, shipped, trace, trace', b0.shipmentQueues[r], b5.shipmentQueues[r]);
  }

  /** Role r's order pipeline after the period. */
  lemma PipelineStep(cfg: SimulationConfig, demand: int, n: nat, r: Role, b0: Books, b5: Books,
                     shipped: map<Role, int>, newOrders: map<Role, int>,
                     trace: map<Role, RoleTrace>, trace': map<Role, RoleTrace>)
    requires BooksTotal(b0) && BooksTotal(b5) && Total(shipped) && Total(newOrders)
    requires TraceSized(trace, n) && Total(trace')
    requires b0.pipeline[r] == PipelineAfter(trace, cfg, r, n)
    requires OrdersStepped(b0, b5, demand, newOrders, r)
    requires forall x: Role :: trace'[x].placed == trace[x].placed + [newOrders[x]]
    ensures b5.pipeline[r] == PipelineAfter(trace', cfg, r, n + 1)
  {
    PipelineNext(cfg, n, r, newOrders, trace, trace', b0.pipeline[r], b5.pipeline[r]);
  }

  /** A supplier's incoming order after the period. */
  lemma IncomingStep(cfg: SimulationConfig, demand: int, n: nat, r: Role, b0: Books, b5: Books,
                     shipped: map<Role, int>, newOrders: map<Role, int>, trace': map<Role, RoleTrace>)
    requires BooksTotal(b0) && BooksTotal(b5) && Total(shipped) && Total(newOrders) && Total(trace')
    requires r != Retailer
    requires OrdersStepped(b0, b5, demand, newOrders, r)
    requires b5.pipeline[Downstream(r).value] == PipelineAfter(trace', cfg, Downstream(r).value, n + 1)
    ensures b5.incomingOrder[r] == IncomingAt(trace', cfg, r, n + 1)
  {
    IncomingNext(cfg, n, r, trace', b5.pipeline[Downstream(r).value], b5.incomingOrder[r]);
  }

  /** The new row of role r: its layout, the clamped order and the costs. */
  lemma RowOkNew(cfg: SimulationConfig, agents: map<Role, Agent>, t: int, n: nat, r: Role, b5: Books,
                 newOrders: map<Role, int>, decided: map<Role, int>, seen: map<Role, RoleState>,
                 rows': seq<LogRow>, trace': map<Role, RoleTrace>)
    requires PeriodInRange(rows', trace', n) && Total(agents) && BooksTotal(b5)
    requires Total(newOrders) && Total(decided) && Total(seen)
    requires Row(rows', n, r) == RowOf(cfg, b5, t, r, newOrders[r]) && rows'[4 * n].t == t
    requires trace'[r].placed[n] == newOrders[r] && trace'[r].decided[n] == decided[r] && trace'[r].seen[n] == seen[r]
    requires newOrders[r] == Max(0, decided[r]) && Decided(agents[r], seen[r], decided[r])
    ensures RowOk(rows', trace', cfg, agents, n, r)
  {
  }

  /** The front of a shipment queue is what the supplier shipped max(1, lead time) periods ago. */
  lemma ReceivedNew(cfg: SimulationConfig, n: nat, r: Role, shipped: map<Role, int>,
                    trace: map<Role, RoleTrace>, trace': map<Role, RoleTrace>, q: seq<int>)
    requires TraceSized(trace, n) && Total(trace') && Total(shipped)
    requires forall x: Role :: trace'[x].shipped == trace[x].shipped + [shipped[x]]
    requires q == ShipmentsAfter(trace, cfg, r, n)
    ensures Front(q) == AtOr(Inflow(trace', r), n - Max(1, cfg.shipmentLeadTime), 0)
  {
    var h := Inflow(trace, r);
    var len := DelayLength(cfg.shipmentLeadTime, n);
    if len >= 1 {
      FrontWindow(h, n, len, 0);
    }
    if Upstream(r).Some? {
      AtOrExtend(trace[Upstream(r).value].shipped, shipped[Upstream(r).value], 0);
    }
  }

  /** What role r received in period n and how it shipped, as the log and trace record it. */
  lemma ArrivalNew(cfg: SimulationConfig, t: int, demand: int, n: nat, r: Role, b0: Books, b5: Books,
                   shipped: map<Role, int>, newOrders: map<Role, int>, seen: map<Role, RoleState>,
                   rows: seq<LogRow>, rows': seq<LogRow>, trace: map<Role, RoleTrace>, trace': map<Role, RoleTrace>)
    requires BooksTotal(b0) && BooksTotal(b5) && Total(shipped) && Total(newOrders) && Total(seen)
    requires |rows| == 4 * n && TraceSized(trace, n) && PeriodInRange(rows', trace', n)
    requires rows'[..|rows|] == rows
    requires trace'[r].shipped[n] == shipped[r] && trace'[r].seen[n] == seen[r]
    requires b0.inventory[r] == PrevInventory(rows, cfg, n, r) && b0.backlog[r] == PrevBacklog(rows, n, r)
    requires Front(b0.shipmentQueues[r]) == AtOr(Inflow(trace', r), n - Max(1, cfg.shipmentLeadTime), 0)
    requires StockStepped(b0, b5, demand, shipped, r)
    requires seen[r].incomingOrder == if r == Retailer then demand else b0.incomingOrder[r]
    requires Row(rows', n, r) == RowOf(cfg, b5, t, r, newOrders[r])
    ensures ArrivalOk(rows', trace', cfg, n, r)
  {
    if n > 0 {
      RowStable(rows, rows', n - 1, r);
    }
  }

  /** Appending period n's orders changes neither what r serves in period n nor its pipeline then. */
  lemma OrdersBeforeStable(cfg: SimulationConfig, n: nat, r: Role, newOrders: map<Role, int>,
                           trace: map<Role, RoleTrace>, trace': map<Role, RoleTrace>)
    requires TraceSized(trace, n) && Total(trace') && Total(newOrders)
    requires forall x: Role :: trace'[x].placed == trace[x].placed + [newOrders[x]]
    ensures IncomingAt(trace', cfg, r, n) == IncomingAt(trace, cfg, r, n)
    ensures PipelineAfter(trace', cfg, r, n) == PipelineAfter(trace, cfg, r, n)
  {
    if Downstream(r).Some? {
      AtOrExtend(trace[Downstream(r).value].placed, newOrders[Downstream(r).value], cfg.initialPipeline);
    }
    AtOrExtend(trace[r].placed, newOrders[r], cfg.initialPipeline);
    WindowStable(OwnOrders(trace, r), OwnOrders(trace', r), n, PipelineLength(cfg, r, n), cfg.initialPipeline);
  }

  /** The order role r served and logged in period n, and the pipeline it saw and logged. */
  lemma OrderFlowNew(cfg: SimulationConfig, demandFn: int -> int, t: int, n: nat, r: Role, b0: Books, b5: Books,
                     newOrders: map<Role, int>, seen: map<Role, RoleState>,
                     rows': seq<LogRow>, trace: map<Role, RoleTrace>, trace': map<Role, RoleTrace>)
    requires BooksTotal(b0) && BooksTotal(b5) && Total(newOrders) && Total(seen)
    requires PeriodInRange(rows', trace', n) && Total(trace)
    requires trace'[r].seen[n] == seen[r]
    requires Row(rows', n, r) == RowOf(cfg, b5, t, r, newOrders[r])
    requires seen[r].incomingOrder == if r == Retailer then demandFn(t) else IncomingAt(trace, cfg, r, n)
    requires IncomingAt(trace', cfg, r, n) == IncomingAt(trace, cfg, r, n)
    requires b5.incomingOrder[r] == if r == Retailer then demandFn(t) else IncomingAt(trace', cfg, r, n + 1)
    requires seen[r].pipelineOnOrder == Sum(PipelineAfter(trace, cfg, r, n))
    requires PipelineAfter(trace', cfg, r, n) == PipelineAfter(trace, cfg, r, n)
    requires b5.pipeline[r] == PipelineAfter(trace', cfg, r, n + 1)
    ensures OrderFlowOk(rows', trace', cfg, demandFn, n, r)
  {
  }

  /** The snapshot role r's agent saw in period n, against the new rows and trace. */
  lemma SnapshotNew(cfg: SimulationConfig, t: int, n: nat, r: Role, b0: Books, b3: Books, b5: Books,
                    newOrders: map<Role, int>, seen: map<Role, RoleState>,
                    rows': seq<LogRow>, trace: map<Role, RoleTrace>, trace': map<Role, RoleTrace>)
    requires BooksTotal(b0) && BooksTotal(b3) && BooksTotal(b5) && Total(newOrders) && Total(seen)
    requires PeriodInRange(rows', trace', n) && TraceSized(trace, n)
    requires trace'[r].seen[n] == seen[r]
    requires forall x: Role :: trace'[x].placed == trace[x].placed + [newOrders[x]]
    requires forall x: Role :: b0.lastOrder[x] == AtOr(trace[x].placed, n - 1, 0)
    requires forall x: Role :: Row(rows', n, x) == RowOf(cfg, b5, t, x, newOrders[x])
    requires b3.inventory == b5.inventory && b3.backlog == b5.backlog && b3.receivedShipment == b5.receivedShipment
    requires SeenAs(b3, cfg, seen[r], r, t, b0.lastOrder, newOrders)
    ensures SnapshotOk(rows', trace', cfg, n, r)
  {
    forall x: Role ensures AtOr(trace'[x].placed, n - 1, 0) == b0.lastOrder[x] && trace'[x].placed[n] == newOrders[x] {
      AtOrExtend(trace[x].placed, newOrders[x], 0);
    }
  }

  /** Role r's counters after period n agree with the longer log and trace. */
  lemma RoleStepConsistent(
    cfg: SimulationConfig, agents: map<Role, Agent>, demandFn: int -> int, t: int, n: nat, r: Role,
    b0: Books, b3: Books, b5: Books,
    shipped: map<Role, int>, newOrders: map<Role, int>, decided: map<Role, int>, seen: map<Role, RoleState>,
    rows: seq<LogRow>, rows': seq<LogRow>, trace: map<Role, RoleTrace>, trace': map<Role, RoleTrace>)
    requires BooksTotal(b0) && BooksTotal(b3) && BooksTotal(b5) && Total(agents)
    requires Total(shipped) && Total(newOrders) && Total(decided) && Total(seen)
    requires |rows| == 4 * n && TraceSized(trace, n) && |rows'| == 4 * (n + 1) && TraceSized(trace', n + 1)
    requires rows'[..|rows|] == rows && rows'[4 * n].t == t
    requires forall x: Role ::
      && trace'[x].shipped == trace[x].shipped + [shipped[x]] && trace'[x].placed == trace[x].placed + [newOrders[x]]
      && trace'[x].decided == trace[x].decided + [decided[x]] && trace'[x].seen == trace[x].seen + [seen[x]]
    requires forall x: Role :: RoleConsistent(b0, rows, trace, cfg, n, x)
    requires forall x: Role :: Row(rows', n, x) == RowOf(cfg, b5, t, x, newOrders[x])
    requires StockStepped(b0, b5, demandFn(t), shipped, r) && QueueStepped(b0, b5, shipped, r)
    requires forall x: Role :: OrdersStepped(b0, b5, demandFn(t), newOrders, x)
    ensures RoleConsistent(b5, rows', trace', cfg, n + 1, r)
  {
    assert RoleConsistent(b0, rows, trace, cfg, n, r) && OrdersStepped(b0, b5, demandFn(t), newOrders, r);
    QueueStep(cfg, demandFn(t), n, r, b0, b5, shipped, newOrders, trace, trace');
    PipelineStep(cfg, demandFn(t), n, r, b0, b5, shipped, newOrders, trace, trace');
    if r != Retailer {
      var d := Downstream(r).value;
      assert RoleConsistent(b0, rows, trace, cfg, n, d) && OrdersStepped(b0, b5, demandFn(t), newOrders, d);
      PipelineStep(cfg, demandFn(t), n, d, b0, b5, shipped, newOrders, trace, trace');
      IncomingStep(cfg, demandFn(t), n, r, b0, b5, shipped, newOrders, trace');
    }
    RoleNext(cfg, demandFn(t), n, r, b0, b5, shipped, newOrders, rows, rows', trace, trace');
  }

  /** Period n's row of role r: its layout, and what r received and shipped. */
  lemma RoleStepArrival(
    cfg: SimulationConfig, agents: map<Role, Agent>, demandFn: int -> int, t: int, n: nat, r: Role,
    b0: Books, b3: Books, b5: Books,
    shipped: map<Role, int>, newOrders: map<Role, int>, decided: map<Role, int>, seen: map<Role, RoleState>,
    rows: seq<LogRow>, rows': seq<LogRow>, trace: map<Role, RoleTrace>, trace': map<Role, RoleTrace>)
    requires BooksTotal(b0) && BooksTotal(b3) && BooksTotal(b5) && Total(agents)
    requires Total(shipped) && Total(newOrders) && Total(decided) && Total(seen)
    requires |rows| == 4 * n && TraceSized(trace, n) && |rows'| == 4 * (n + 1) && TraceSized(trace', n + 1)
    requires rows'[..|rows|] == rows && rows'[4 * n].t == t
    requires forall x: Role ::
      && trace'[x].shipped == trace[x].shipped + [shipped[x]] && trace'[x].placed == trace[x].placed + [newOrders[x]]
      && trace'[x].decided == trace[x].decided + [decided[x]] && trace'[x].seen == trace[x].seen + [seen[x]]
    requires RoleConsistent(b0, rows, trace, cfg, n, r)
    requires Row(rows', n, r) == RowOf(cfg, b5, t, r, newOrders[r])
    requires StockStepped(b0, b5, demandFn(t), shipped, r)
    requires newOrders[r] == Max(0, decided[r]) && Decided(agents[r], seen[r], decided[r])
    requires b3 == b5.(lastOrder := b0.lastOrder, pipeline := b0.pipeline, incomingOrder := b0.incomingOrder[Retailer := demandFn(t)])
    requires SeenAs(b3, cfg, seen[r], r, t, b0.lastOrder, newOrders)
    ensures PeriodInRange(rows', trace', n)
    ensures RowOk(rows', trace', cfg, agents, n, r) && ArrivalOk(rows', trace', cfg, n, r)
  {
    RowOkNew(cfg, agents, t, n, r, b5, newOrders, decided, seen, rows', trace');
    ReceivedNew(cfg, n, r, shipped, trace, trace', b0.shipmentQueues[r]);
    ArrivalNew(cfg, t, demandFn(t), n, r, b0, b5, shipped, newOrders, seen, rows, rows', trace, trace');
  }

  /** Period n's row of role r: the order it served and the pipeline it logged. */
  lemma RoleStepFlow(
    cfg: SimulationConfig, demandFn: int -> int, t: int, n: nat, r: Role,
    b0: Books, b3: Books, b5: Books,
    shipped: map<Role, int>, newOrders: map<Role, int>, decided: map<Role, int>, seen: map<Role, RoleState>,
    rows: seq<LogRow>, rows': seq<LogRow>, trace: map<Role, RoleTrace>, trace': map<Role, RoleTrace>)
    requires BooksTotal(b0) && BooksTotal(b3) && BooksTotal(b5)
    requires Total(shipped) && Total(newOrders) && Total(decided) && Total(seen)
    requires |rows| == 4 * n && TraceSized(trace, n) && |rows'| == 4 * (n + 1) && TraceSized(trace', n + 1)
    requires forall x: Role ::
      && trace'[x].shipped == trace[x].shipped + [shipped[x]] && trace'[x].placed == trace[x].placed + [newOrders[x]]
      && trace'[x].decided == trace[x].decided + [decided[x]] && trace'[x].seen == trace[x].seen + [seen[x]]
    requires RoleConsistent(b0, rows, trace, cfg, n, r)
    requires Row(rows', n, r) == RowOf(cfg, b5, t, r, newOrders[r])
    requires RoleConsistent(b5, rows', trace', cfg, n + 1, r)
    requires OrdersStepped(b0, b5, demandFn(t), newOrders, r)
    requires b3 == b5.(lastOrder := b0.lastOrder, pipeline := b0.pipeline, incomingOrder := b0.incomingOrder[Retailer := demandFn(t)])
    requires SeenAs(b3, cfg, seen[r], r, t, b0.lastOrder, newOrders)
    ensures PeriodInRange(rows', trace', n)
    ensures OrderFlowOk(rows', trace', cfg, demandFn, n, r)
  {
    OrdersBeforeStable(cfg, n, r, newOrders, trace, trace');
    OrderFlowNew(cfg, demandFn, t, n, r, b0, b5, newOrders, seen, rows', trace, trace');
  }

  /** Period n's snapshot of role r, against the new rows and trace. */
  lemma RoleStepSnapshot(
    cfg: SimulationConfig, t: int, n: nat, r: Role, b0: Books, b3: Books, b5: Books,
    shipped: map<Role, int>, newOrders: map<Role, int>, decided: map<Role, int>, seen: map<Role, RoleState>,
    rows: seq<LogRow>, rows': seq<LogRow>, trace: map<Role, RoleTrace>, trace': map<Role, RoleTrace>)
    requires BooksTotal(b0) && BooksTotal(b3) && BooksTotal(b5)
    requires Total(shipped) && Total(newOrders) && Total(decided) && Total(seen)
    requires |rows| == 4 * n && TraceSized(trace, n) && |rows'| == 4 * (n + 1) && TraceSized(trace', n + 1)
    requires forall x: Role ::
      && trace'[x].shipped == trace[x].shipped + [shipped[x]] && trace'[x].placed == trace[x].placed + [newOrders[x]]
      && trace'[x].decided == trace[x].decided + [decided[x]] && trace'[x].seen == trace[x].seen + [seen[x]]
    requires forall x: Role :: RoleConsistent(b0, rows, trace, cfg, n, x)
    requires forall x: Role :: Row(rows', n, x) == RowOf(cfg, b5, t, x, newOrders[x])
    requires b3.inventory == b5.inventory && b3.backlog == b5.backlog && b3.receivedShipment == b5.receivedShipment
    requires SeenAs(b3, cfg, seen[r], r, t, b0.lastOrder, newOrders)
    ensures PeriodInRange(rows', trace', n)
    ensures SnapshotOk(rows', trace', cfg, n, r)
  {
    forall x: Role ensures b0.lastOrder[x] == AtOr(trace[x].placed, n - 1, 0) {
      assert RoleConsistent(b0, rows, trace, cfg, n, x);
    }
    SnapshotNew(cfg, t, n, r, b0, b3, b5, newOrders, seen, rows', trace, trace');
  }

  /** Every role's stock, queue, last order, pipeline and incoming order moved as one period moves them. */
  ghost predicate AllStepped(b0: Books, b5: Books, demand: int, shipped: map<Role, int>, newOrders: map<Role, int>)
  {
    && BooksTotal(b0) && BooksTotal(b5) && Total(shipped) && Total(newOrders)
    && forall r: Role ::
         StockStepped(b0, b5, demand, shipped, r) && QueueStepped(b0, b5, shipped, r)
         && OrdersStepped(b0, b5, demand, newOrders, r)
  }

  /** Every role's order is its agent's clamped answer to the snapshot it was shown. */
  ghost predicate AllDecided(b3: Books, cfg: SimulationConfig, agents: map<Role, Agent>, t: int, older: map<Role, int>,
                             newOrders: map<Role, int>, decided: map<Role, int>, seen: map<Role, RoleState>)
  {
    && BooksTotal(b3) && Total(agents) && Total(older) && Total(newOrders) && Total(decided) && Total(seen)
    && (forall r: Role :: newOrders[r] == Max(0, decided[r]) && Decided(agents[r], seen[r], decided[r]))
    && (forall r: Role :: SeenAs(b3, cfg, seen[r], r, t, older, newOrders))
  }

  /** The log grew by period n's four rows, read from `b5`. */
  ghost predicate RowsLogged(cfg: SimulationConfig, t: int, n: nat, b5: Books, newOrders: map<Role, int>,
                             rows: seq<LogRow>, rows': seq<LogRow>)
  {
    && BooksTotal(b5) && Total(newOrders)
    && |rows| == 4 * n && |rows'| == 4 * (n + 1) && rows'[..|rows|] == rows && rows'[4 * n].t == t
    && forall r: Role :: Row(rows', n, r) == RowOf(cfg, b5, t, r, newOrders[r])
  }

  /** Every history of the trace grew by one entry. */
  ghost predicate TraceGrown(n: nat, trace: map<Role, RoleTrace>, trace': map<Role, RoleTrace>,
                             shipped: map<Role, int>, newOrders: map<Role, int>, decided: map<Role, int>,
                             seen: map<Role, RoleState>)
  {
    && Total(trace) && Total(trace') && TraceSized(trace, n) && TraceSized(trace', n + 1)
    && Total(shipped) && Total(newOrders) && Total(decided) && Total(seen)
    && forall x: Role ::
         && trace'[x].shipped == trace[x].shipped + [shipped[x]] && trace'[x].placed == trace[x].placed + [newOrders[x]]
         && trace'[x].decided == trace[x].decided + [decided[x]] && trace'[x].seen == trace[x].seen + [seen[x]]
  }

  /** What one period did, role by role, and the shape of the new log and trace. */
  ghost predicate PeriodEffects(
    cfg: SimulationConfig, agents: map<Role, Agent>, demandFn: int -> int, t: int, n: nat,
    b0: Books, b3: Books, b5: Books,
    shipped: map<Role, int>, newOrders: map<Role, int>, decided: map<Role, int>, seen: map<Role, RoleState>,
    rows: seq<LogRow>, rows': seq<LogRow>, trace: map<Role, RoleTrace>, trace': map<Role, RoleTrace>)
  {
    && BooksTotal(b0) && BooksTotal(b3) && BooksTotal(b5) && Total(agents)
    && Total(shipped) && Total(newOrders) && Total(decided) && Total(seen) && Total(trace) && Total(trace')
    && AllStepped(b0, b5, demandFn(t), shipped, newOrders)
    && AllDecided(b3, cfg, agents, t, b0.lastOrder, newOrders, decided, seen)
    && b3 == b5.(lastOrder := b0.lastOrder, pipeline := b0.pipeline, incomingOrder := b0.incomingOrder[Retailer := demandFn(t)])
    && RowsLogged(cfg, t, n, b5, newOrders, rows, rows')
    && TraceGrown(n, trace, trace', shipped, newOrders, decided, seen)
    && Extends(rows, trace, rows', trace')
  }

  /** The counters after a period's five steps, role by role. */
  lemma StepBooks(
    cfg: SimulationConfig, agents: map<Role, Agent>, t: int, demand: int,
    b0: Books, b1: Books, b2: Books, b3: Books, b4: Books, b5: Books,
    shipped: map<Role, int>, newOrders: map<Role, int>, decided: map<Role, int>, seen: map<Role, RoleState>)
    requires BooksTotal(b0) && b1 == WithDemand(b0, demand) && Received(b1, b2) && Fulfilled(b2, b3, shipped)
    requires DecidedAll(b3, b4, cfg, agents, t, newOrders, decided, seen) && Propagated(b4, b5, newOrders)
    ensures BooksTotal(b3) && BooksTotal(b5) && Total(agents)
    ensures Total(shipped) && Total(newOrders) && Total(decided) && Total(seen)
    ensures AllStepped(b0, b5, demand, shipped, newOrders)
  {
    StepFacts(cfg, agents, t, demand, b0, b1, b2, b3, b4, b5, shipped, newOrders, decided, seen);
    forall r: Role
      ensures StockStepped(b0, b5, demand, shipped, r) && QueueStepped(b0, b5, shipped, r)
      ensures OrdersStepped(b0, b5, demand, newOrders, r)
    {
      StockFacts(demand, b0, b2, b3, b5, shipped, r);
      QueueFacts(b0, b2, b3, b5, shipped, r);
      OrdersFacts(demand, b0, b4, b5, newOrders, r);
    }
  }

  /** What the agents were shown and answered, against the counters after fulfilment. */
  lemma StepDecisions(
    cfg: SimulationConfig, agents: map<Role, Agent>, t: int, demand: int,
    b0: Books, b1: Books, b2: Books, b3: Books, b4: Books, b5: Books,
    shipped: map<Role, int>, newOrders: map<Role, int>, decided: map<Role, int>, seen: map<Role, RoleState>)
    requires BooksTotal(b0) && b1 == WithDemand(b0, demand) && Received(b1, b2) && Fulfilled(b2, b3, shipped)
    requires DecidedAll(b3, b4, cfg, agents, t, newOrders, decided, seen) && Propagated(b4, b5, newOrders)
    ensures AllDecided(b3, cfg, agents, t, b0.lastOrder, newOrders, decided, seen)
    ensures b3 == b5.(lastOrder := b0.lastOrder, pipeline := b0.pipeline, incomingOrder := b0.incomingOrder[Retailer := demand])
  {
    StepSnapshot(cfg, agents, t, demand, b0, b1, b2, b3, b4, b5, shipped, newOrders, decided, seen);
  }

  /** A period's five steps have the effects `PeriodEffects` lists. */
  lemma StepEffects(
    cfg: SimulationConfig, agents: map<Role, Agent>, demandFn: int -> int, t: int, n: nat,
    b0: Books, b1: Books, b2: Books, b3: Books, b4: Books, b5: Books,
    shipped: map<Role, int>, newOrders: map<Role, int>, decided: map<Role, int>, seen: map<Role, RoleState>,
    rows: seq<LogRow>, rows': seq<LogRow>, trace: map<Role, RoleTrace>, trace': map<Role, RoleTrace>)
    requires |rows| == 4 * n && TraceSized(trace, n)
    requires PeriodStep(cfg, agents, demandFn, t, b0, b1, b2, b3, b4, b5, shipped, newOrders, decided, seen,
                        rows, rows', trace, trace')
    ensures PeriodEffects(cfg, agents, demandFn, t, n, b0, b3, b5, shipped, newOrders, decided, seen,
                          rows, rows', trace, trace')
  {
    StepBooks(cfg, agents, t, demandFn(t), b0, b1, b2, b3, b4, b5, shipped, newOrders, decided, seen);
    StepDecisions(cfg, agents, t, demandFn(t), b0, b1, b2, b3, b4, b5, shipped, newOrders, decided, seen);
    RowsStep(cfg, t, n, b5, newOrders, rows, rows');
    TraceStep(n, shipped, newOrders, decided, seen, trace, trace');
    TraceExtends(n, rows, rows', shipped, newOrders, decided, seen, trace, trace');
  }

  /** After the period every role's counters agree with the longer log and trace. */
  lemma StepRolesConsistent(
    cfg: SimulationConfig, agents: map<Role, Agent>, demandFn: int -> int, t: int, n: nat,
    b0: Books, b3: Books, b5: Books,
    shipped: map<Role, int>, newOrders: map<Role, int>, decided: map<Role, int>, seen: map<Role, RoleState>,
    rows: seq<LogRow>, rows': seq<LogRow>, trace: map<Role, RoleTrace>, trace': map<Role, RoleTrace>)
    requires Consistent(b0, rows, trace, cfg, agents, demandFn, n)
    requires PeriodEffects(cfg, agents, demandFn, t, n, b0, b3, b5, shipped, newOrders, decided, seen,
                           rows, rows', trace, trace')
    ensures BooksTotal(b5) && |rows'| == 4 * (n + 1) && TraceSized(trace', n + 1)
    ensures AllRolesConsistent(b5, rows', trace', cfg, n + 1)
  {
    var n' := n + 1;
    forall r: Role ensures RoleConsistent(b5, rows', trace', cfg, n', r) {
      RoleStepConsistent(cfg, agents, demandFn, t, n, r, b0, b3, b5, shipped, newOrders, decided, seen,
                         rows, rows', trace, trace');
    }
  }

  /** The period just logged satisfies `PeriodOk`. */
  lemma StepNewPeriod(
    cfg: SimulationConfig, agents: map<Role, Agent>, demandFn: int -> int, t: int, n: nat,
    b0: Books, b3: Books, b5: Books,
    shipped: map<Role, int>, newOrders: map<Role, int>, decided: map<Role, int>, seen: map<Role, RoleState>,
    rows: seq<LogRow>, rows': seq<LogRow>, trace: map<Role, RoleTrace>, trace': map<Role, RoleTrace>)
    requires Consistent(b0, rows, trace, cfg, agents, demandFn, n)
    requires PeriodEffects(cfg, agents, demandFn, t, n, b0, b3, b5, shipped, newOrders, decided, seen,
                           rows, rows', trace, trace')
    requires BooksTotal(b5) && |rows'| == 4 * (n + 1) && TraceSized(trace', n + 1)
    requires AllRolesConsistent(b5, rows', trace', cfg, n + 1)
    ensures PeriodOk(rows', trace', cfg, agents, demandFn, n)
  {
    forall r: Role ensures PeriodInRange(rows', trace', n) && RolePeriodOk(rows', trace', cfg, agents, demandFn, n, r) {
      RoleStepArrival(cfg, agents, demandFn, t, n, r, b0, b3, b5, shipped, newOrders, decided, seen,
                      rows, rows', trace, trace');
      RoleStepFlow(cfg, demandFn, t, n, r, b0, b3, b5, shipped, newOrders, decided, seen,
                   rows, rows', trace, trace');
      RoleStepSnapshot(cfg, t, n, r, b0, b3, b5, shipped, newOrders, decided, seen, rows, rows', trace, trace');
    }
  }

  /** The periods logged earlier still satisfy `PeriodOk` against the longer log and trace. */
  lemma StepOldPeriods(
    cfg: SimulationConfig, agents: map<Role, Agent>, demandFn: int -> int, n: nat,
    b0: Books, rows: seq<LogRow>, rows': seq<LogRow>, trace: map<Role, RoleTrace>, trace': map<Role, RoleTrace>)
    requires Consistent(b0, rows, trace, cfg, agents, demandFn, n)
    requires Extends(rows, trace, rows', trace')
    ensures forall m: nat | m < n :: PeriodOk(rows', trace', cfg, agents, demandFn, m)
  {
    forall m: nat | m < n ensures PeriodOk(rows', trace', cfg, agents, demandFn, m) {
      PeriodOkStable(rows, trace, rows', trace', cfg, agents, demandFn, m);
    }
  }

  /**
   * A period keeps the runner consistent with its log: if the counters
   * agree with the log and trace after n periods, they agree with the
   * longer log and trace after n + 1, every earlier period still satisfies
   * `PeriodOk`, and so does the new one.
   */
  lemma PeriodPreservesConsistency(
    cfg: SimulationConfig, agents: map<Role, Agent>, demandFn: int -> int, t: int, n: nat,
    b0: Books, b1: Books, b2: Books, b3: Books, b4: Books, b5: Books,
    shipped: map<Role, int>, newOrders: map<Role, int>, decided: map<Role, int>, seen: map<Role, RoleState>,
    rows: seq<LogRow>, rows': seq<LogRow>, trace: map<Role, RoleTrace>, trace': map<Role, RoleTrace>)
    requires Consistent(b0, rows, trace, cfg, agents, demandFn, n)
    requires PeriodStep(cfg, agents, demandFn, t, b0, b1, b2, b3, b4, b5, shipped, newOrders, decided, seen,
                        rows, rows', trace, trace')
    ensures Consistent(b5, rows', trace', cfg, agents, demandFn, n + 1)
  {
    StepEffects(cfg, agents, demandFn, t, n, b0, b1, b2, b3, b4, b5, shipped, newOrders, decided, seen,
                rows, rows', trace, trace');
    StepRolesConsistent(cfg, agents, demandFn, t, n, b0, b3, b5, shipped, newOrders, decided, seen,
                        rows, rows', trace, trace');
    StepNewPeriod(cfg, agents, demandFn, t, n, b0, b3, b5, shipped, newOrders, decided, seen,
                  rows, rows', trace, trace');
    StepOldPeriods(cfg, agents, demandFn, n, b0, rows, rows', trace, trace');
  }
}
