/**
 * The simulation engine: four roles advanced one period at a time. Each
 * period injects demand at the retailer, rotates the shipment queues,
 * fulfils orders, asks every agent for an order, pushes the orders into
 * the order pipelines, and logs one row per role.
 */
module Simulation {
  import opened Wrappers
  import opened Builtins
  import opened Roles
  import opened Interfaces
  import opened DelayLines
  import opened Agents
  import opened SimulationRecords
  import opened SimulationSteps
  import opened SimulationPhases

  /** `constant_demand(value)`: the same demand in every period. */
  function ConstantDemand(value: int): (f: int -> int)
    ensures forall t :: f(t) == value
  {
    t => value
  }

  /** The first role of the chain without an agent, if any. */
  function MissingRole<A>(agents: map<Role, A>): (m: Option<Role>)
    ensures m.None? <==> forall r: Role :: r in agents
    ensures m.Some? ==> m.value !in agents && forall r: Role :: Index(r) < Index(m.value) ==> r in agents
  {
    if Retailer !in agents then Some(Retailer)
    else if Wholesaler !in agents then Some(Wholesaler)
    else if Distributor !in agents then Some(Distributor)
    else if Factory !in agents then Some(Factory)
    else
      assert forall r: Role :: r in agents by {
        forall r: Role ensures r in agents { RoleCases(r); }
      }
      None
  }

  /** The construction error names exactly one role: different roles give different messages. */
  lemma ErrorNamesOneRole(r: Role, s: Role)
    ensures "Missing agent for role " + Name(r) == "Missing agent for role " + Name(s) ==> r == s
  {
    var prefix := "Missing agent for role ";
    if prefix + Name(r) == prefix + Name(s) {
      assert Name(r) == (prefix + Name(r))[|prefix|..];
      assert Name(s) == (prefix + Name(s))[|prefix|..];
      NamesDistinct(r, s);
    }
  }

  /** The objects holding the private memory of all agents. */
  ghost function AgentsFootprint(agents: map<Role, Agent>): set<object>
  {
    set r, o | r in agents && o in Footprint(agents[r]) :: o
  }

  /**
   * Constructing a runner: a map lacking any role is refused with the
   * first missing role in chain order, before any state is built.
   */
  method Create(agentsByRole: map<Role, Agent>, demandFn: int -> int, config: SimulationConfig)
    returns (res: Result<SimulationRunner, string>)
    requires forall r | r in agentsByRole :: AgentValid(agentsByRole[r])
    ensures res.Failure? <==> MissingRole(agentsByRole).Some?
    ensures res.Failure? ==> res.error == "Missing agent for role " + Name(MissingRole(agentsByRole).value)
    ensures res.Success? ==>
      && fresh(res.value) && res.value.Valid()
      && res.value.agents == agentsByRole && res.value.demandFn == demandFn && res.value.cfg == config
      && res.value.elapsed == 0 && res.value.logRows == []
  {
    for i := 0 to |Chain|
      invariant forall r: Role :: Index(r) < i ==> r in agentsByRole
    {
      ChainIndex(i);
      var role := Chain[i];
      if role !in agentsByRole {
        return Failure("Missing agent for role " + Name(role));
      }
    }
    var runner := new SimulationRunner(agentsByRole, demandFn, config);
    return Success(runner);
  }

  /**
   * The fulfilment loop on the counters it touches: in chain order, each
   * role takes in what it received, ships what it can of incoming order
   * plus backlog, and credits the shipment to its customer's newest queue
   * slot.
   */
  method ShipAll(inventory: map<Role, int>, backlog: map<Role, int>, queues: map<Role, seq<int>>,
                 received: map<Role, int>, incoming: map<Role, int>)
    returns (stocks: map<Role, int>, backlogs: map<Role, int>, queues': map<Role, seq<int>>,
             ghost shipped: map<Role, int>)
    requires Total(inventory) && Total(backlog) && Total(queues) && Total(received) && Total(incoming)
    requires forall r: Role :: |queues[r]| >= 1
    ensures FulfilledBefore(|Chain|, inventory, backlog, queues, received, incoming, stocks, backlogs, queues', shipped)
  {
    stocks, backlogs, queues' := inventory, backlog, queues;
    shipped := map[];
    for i := 0 to |Chain|
      invariant FulfilledBefore(i, inventory, backlog, queues, received, incoming, stocks, backlogs, queues', shipped)
    {
      var role := Chain[i];
      ghost var stocks0, backlogs0, queues0, shipped0 := stocks, backlogs, queues', shipped;
      var stock := stocks[role] + received[role];
      var demand := incoming[role] + backlogs[role];
      var amount := Min(stock, demand);
      stocks := stocks[role := stock - amount];
      backlogs := backlogs[role := Max(0, demand - amount)];
      var downstream := Downstream(role);
      if downstream.Some? {
        var d := downstream.value;
        queues' := queues'[d := AddToBack(queues'[d], amount)];
      }
      shipped := shipped[role := amount];
      FulfilledNext(i, inventory, backlog, queues, received, incoming,
                    stocks0, backlogs0, queues0, shipped0, amount, stocks, backlogs, queues', shipped);
    }
  }

  class SimulationRunner {
    const agents: map<Role, Agent>
    const demandFn: int -> int
    const cfg: SimulationConfig
    ghost const AgentRepr: set<object>

    var inventory: map<Role, int>
    var backlog: map<Role, int>
    var pipeline: map<Role, seq<int>>
    var incomingOrder: map<Role, int>
    var receivedShipment: map<Role, int>
    var lastOrder: map<Role, int>
    var shipmentQueues: map<Role, seq<int>>
    var logRows: seq<LogRow>

    /** What every role shipped, ordered, answered and saw, period by period. */
    ghost var trace: map<Role, RoleTrace>
    /** Periods run so far, over all calls of `Run`. */
    ghost var elapsed: nat

    /** The counters, as one value. */
    ghost function Counters(): Books
      reads this
    {
      Books(inventory, backlog, pipeline, incomingOrder, receivedShipment, lastOrder, shipmentQueues)
    }

    ghost predicate AgentsOk()
      reads AgentRepr
    {
      && Total(agents) && this !in AgentRepr
      && (forall r: Role :: Footprint(agents[r]) <= AgentRepr)
      && (forall r: Role :: AgentValid(agents[r]))
    }

    /**
     * The runner after `elapsed` periods: every counter is what the log and
     * the trace say it must be, and every period so far satisfies `PeriodOk`.
     */
    ghost predicate Valid()
      reads this, AgentRepr
    {
      && AgentsOk()
      && Consistent(Counters(), logRows, trace, cfg, agents, demandFn, elapsed)
    }

    constructor (agentsByRole: map<Role, Agent>, demandFn: int -> int, config: SimulationConfig)
      requires forall r: Role :: r in agentsByRole
      requires forall r | r in agentsByRole :: AgentValid(agentsByRole[r])
      ensures Valid()
      ensures agents == agentsByRole && this.demandFn == demandFn && cfg == config
      ensures elapsed == 0 && logRows == []
      ensures forall r: Role :: r in inventory && inventory[r] == config.initialInventory
      ensures forall r: Role :: r in backlog && backlog[r] == 0
      ensures forall r: Role :: r in lastOrder && lastOrder[r] == 0
      ensures forall r: Role :: r in incomingOrder && incomingOrder[r] == 0
      ensures forall r: Role :: r in receivedShipment && receivedShipment[r] == 0
      ensures forall r: Role :: r in pipeline && pipeline[r] == Fill(config.initialPipeline, config.orderLeadTime)
      ensures forall r: Role :: r in shipmentQueues && shipmentQueues[r] == Fill(0, config.shipmentLeadTime)
    {
      agents := agentsByRole;
      this.demandFn := demandFn;
      cfg := config;
      AgentRepr := AgentsFootprint(agentsByRole);
      var line := Fill(config.initialPipeline, config.orderLeadTime);
      var queue := Fill(0, config.shipmentLeadTime);
      inventory := map[Retailer := config.initialInventory, Wholesaler := config.initialInventory,
                       Distributor := config.initialInventory, Factory := config.initialInventory];
      backlog := map[Retailer := 0, Wholesaler := 0, Distributor := 0, Factory := 0];
      pipeline := map[Retailer := line, Wholesaler := line, Distributor := line, Factory := line];
      incomingOrder := map[Retailer := 0, Wholesaler := 0, Distributor := 0, Factory := 0];
      receivedShipment := map[Retailer := 0, Wholesaler := 0, Distributor := 0, Factory := 0];
      lastOrder := map[Retailer := 0, Wholesaler := 0, Distributor := 0, Factory := 0];
      shipmentQueues := map[Retailer := queue, Wholesaler := queue, Distributor := queue, Factory := queue];
      logRows := [];
      var none := RoleTrace([], [], [], []);
      trace := map[Retailer := none, Wholesaler := none, Distributor := none, Factory := none];
      elapsed := 0;
      new;
      forall r: Role
        ensures r in trace && r in pipeline && r in shipmentQueues && r in inventory && r in backlog
        ensures r in incomingOrder && r in receivedShipment && r in lastOrder
        ensures trace[r] == none && inventory[r] == cfg.initialInventory && backlog[r] == 0
        ensures lastOrder[r] == 0 && incomingOrder[r] == 0 && receivedShipment[r] == 0
        ensures pipeline[r] == line && shipmentQueues[r] == queue
      {
        RoleCases(r);
      }
      assert TraceSized(trace, 0);
      forall r: Role ensures RoleConsistent(Counters(), logRows, trace, cfg, 0, r) {
        InitialWindow(OwnOrders(trace, r), cfg.orderLeadTime, cfg.initialPipeline);
        InitialWindow(Inflow(trace, r), cfg.shipmentLeadTime, 0);
      }
      assert AgentsOk();
    }

    /** `_build_neighbor_state`: what a neighbour may see of `role`: stock, backlog and last order, never pipelines. */
    function BuildNeighborState(role: Role): (v: NeighborState)
      reads this`inventory, this`backlog, this`lastOrder
      requires role in inventory && role in backlog && role in lastOrder
      ensures v.role == role && v.inventoryOnHand == inventory[role] && v.backlog == backlog[role]
      ensures v.lastPlacedOrder == lastOrder[role]
    {
      NeighborState(role, inventory[role], backlog[role], lastOrder[role])
    }

    /**
     * `_build_state`: the snapshot `role`'s agent decides on in period t. It
     * shows the role's current counters, the orders now on record, and
     * neighbour views exactly when sharing is on.
     */
    function BuildState(role: Role, t: int): (s: RoleState)
      reads this
      requires BooksTotal(Counters())
      ensures SeenAs(Counters(), cfg, s, role, t, lastOrder, lastOrder)
    {
      var share := SharesNeighbours(cfg);
      var up := Upstream(role);
      var down := Downstream(role);
      RoleState(
        t, role, incomingOrder[role], receivedShipment[role], inventory[role], backlog[role],
        if |pipeline[role]| > 0 then Sum(pipeline[role]) else 0,
        lastOrder[role],
        CostParams(cfg.holdingCost, cfg.backlogCost),
        if share && up.Some? then Some(BuildNeighborState(up.value)) else None,
        if share && down.Some? then Some(BuildNeighborState(down.value)) else None)
    }

    /** Step 2: every role takes the front of its shipment queue, and an empty slot joins its back. */
    method ReceiveShipments()
      requires BooksTotal(Counters())
      modifies this`receivedShipment, this`shipmentQueues
      ensures Received(old(Counters()), Counters())
      ensures forall r: Role :: |shipmentQueues[r]| >= 1
    {
      for i := 0 to |Chain|
        invariant ReceivedBefore(i, old(shipmentQueues), receivedShipment, shipmentQueues)
      {
        var role := Chain[i];
        var queue := shipmentQueues[role];
        ghost var received0, queues0 := receivedShipment, shipmentQueues;
        receivedShipment := receivedShipment[role := Front(queue)];
        shipmentQueues := shipmentQueues[role := Rotate(queue, 0)];
        ReceivedNext(i, old(shipmentQueues), received0, queues0, receivedShipment, shipmentQueues);
      }
      ReceivedDone(old(Counters()), Counters());
    }

    /**
     * Step 3: every role adds what it received to its stock, ships what it
     * can of incoming order plus backlog, and adds the shipment to its
     * customer's newest queue slot. The factory's queue is never fed.
     */
    method FulfilOrders() returns (ghost shipped: map<Role, int>)
      requires BooksTotal(Counters()) && forall r: Role :: |shipmentQueues[r]| >= 1
      modifies this`inventory, this`backlog, this`shipmentQueues
      ensures Fulfilled(old(Counters()), Counters(), shipped)
    {
      var stocks, backlogs, queues;
      stocks, backlogs, queues, shipped := ShipAll(inventory, backlog, shipmentQueues, receivedShipment, incomingOrder);
      ghost var b := Counters();
      inventory, backlog, shipmentQueues := stocks, backlogs, queues;
      FulfilledDone(b, Counters(), shipped);
    }

    /** `role`'s agent is shown its snapshot of period t and answers; only the agents' memory changes. */
    method AskAgent(role: Role, t: int) returns (state: RoleState, q: int)
      requires AgentsOk() && BooksTotal(Counters())
      modifies AgentRepr
      ensures AgentsOk()
      ensures SeenAs(Counters(), cfg, state, role, t, lastOrder, lastOrder)
      ensures Decided(agents[role], state, q)
    {
      state := BuildState(role, t);
      label Asking:
      q := DecideOrder(agents[role], state);
      forall r: Role ensures AgentValid(agents[r]) {
        assert old@Asking(AgentValid(agents[r]));
      }
    }

    /** The role at position i of the chain decides; its clamped answer becomes its last order. */
    method DecideAt(i: nat, t: int, ghost b3: Books, newOrders: map<Role, int>, ghost decided: map<Role, int>,
                    ghost seen: map<Role, RoleState>)
      returns (newOrders': map<Role, int>, ghost decided': map<Role, int>, ghost seen': map<Role, RoleState>)
      requires i < |Chain| && AgentsOk() && Counters() == b3.(lastOrder := lastOrder)
      requires DecidedBefore(i, b3, cfg, agents, t, lastOrder, newOrders, decided, seen)
      modifies this`lastOrder, AgentRepr
      ensures AgentsOk() && Counters() == b3.(lastOrder := lastOrder)
      ensures DecidedBefore(i + 1, b3, cfg, agents, t, lastOrder, newOrders', decided', seen')
    {
      var role := Chain[i];
      var state, q := AskAgent(role, t);
      var qty := Max(0, q);
      ghost var last0 := lastOrder;
      newOrders' := newOrders[role := qty];
      lastOrder := lastOrder[role := qty];
      decided' := decided[role := q];
      seen' := seen[role := state];
      DecidedNext(i, b3, cfg, agents, t, last0, newOrders, decided, seen, state, q,
                  lastOrder, newOrders', decided', seen');
    }

    /**
     * Step 4: in chain order, every role's agent is shown its snapshot and
     * its answer, clamped at zero, becomes the role's order and last order.
     * A supplier therefore sees its customer's order of this period.
     */
    method DecideOrders(t: int) returns (newOrders: map<Role, int>, ghost decided: map<Role, int>,
                                         ghost seen: map<Role, RoleState>)
      requires AgentsOk() && BooksTotal(Counters())
      modifies this`lastOrder, AgentRepr
      ensures AgentsOk()
      ensures DecidedAll(old(Counters()), Counters(), cfg, agents, t, newOrders, decided, seen)
    {
      newOrders, decided, seen := map[], map[], map[];
      ghost var b3 := Counters();
      for i := 0 to |Chain|
        invariant AgentsOk() && Counters() == b3.(lastOrder := lastOrder)
        invariant DecidedBefore(i, b3, cfg, agents, t, lastOrder, newOrders, decided, seen)
      {
        newOrders, decided, seen := DecideAt(i, t, b3, newOrders, decided, seen);
      }
      DecidedDone(b3, Counters(), cfg, agents, t, newOrders, decided, seen);
    }

    /**
     * Step 5: in chain order, every role but the factory pushes its order
     * into its own pipeline, and its supplier's incoming order becomes that
     * pipeline's front.
     */
    method PropagateOrders(newOrders: map<Role, int>)
      requires BooksTotal(Counters()) && Total(newOrders)
      modifies this`pipeline, this`incomingOrder
      ensures Propagated(old(Counters()), Counters(), newOrders)
    {
      for i := 0 to |Chain|
        invariant PropagatedBefore(i, old(pipeline), old(incomingOrder), newOrders, pipeline, incomingOrder)
      {
        var role := Chain[i];
        var upstream := Upstream(role);
        ghost var pipeline0, incoming0 := pipeline, incomingOrder;
        if upstream.Some? {
          var line := pipeline[role];
          pipeline := pipeline[role := Rotate(line, newOrders[role])];
          incomingOrder := incomingOrder[upstream.value := pipeline[role][0]];
        }
        PropagatedNext(i, old(pipeline), old(incomingOrder), newOrders, pipeline0, incoming0, pipeline, incomingOrder);
      }
      PropagatedDone(old(Counters()), Counters(), newOrders);
    }

    /** `_record`: appends `role`'s row for period t, read from the counters as they stand. */
    method Record(t: int, role: Role, placed: int, costHolding: real, costBacklog: real)
      requires BooksTotal(Counters())
      modifies this`logRows
      ensures logRows == old(logRows) + [LogRow(t, role, incomingOrder[role], placed, receivedShipment[role],
        inventory[role], backlog[role], if |pipeline[role]| > 0 then Sum(pipeline[role]) else 0,
        costHolding, costBacklog)]
    {
      var pipelineTotal := if |pipeline[role]| > 0 then Sum(pipeline[role]) else 0;
      logRows := logRows + [LogRow(t, role, incomingOrder[role], placed, receivedShipment[role],
        inventory[role], backlog[role], pipelineTotal, costHolding, costBacklog)];
    }

    /** Step 7: every role's costs, and its row for period t, in chain order. */
    method RecordPeriod(t: int, newOrders: map<Role, int>)
      requires BooksTotal(Counters()) && Total(newOrders)
      modifies this`logRows
      ensures logRows == old(logRows) + PeriodRows(cfg, Counters(), t, newOrders)
    {
      ghost var b := Counters();
      ghost var rows := PeriodRows(cfg, b, t, newOrders);
      for i := 0 to |Chain|
        invariant Counters() == b
        invariant logRows == old(logRows) + rows[..i]
      {
        var role := Chain[i];
        var costHolding := cfg.holdingCost * (Max(0, inventory[role]) as real);
        var costBacklog := cfg.backlogCost * (backlog[role] as real);
        Record(t, role, newOrders[role], costHolding, costBacklog);
        PeriodRowAt(cfg, b, t, newOrders, i);
        assert rows[i] == LogRow(t, role, incomingOrder[role], newOrders[role], receivedShipment[role],
          inventory[role], backlog[role], if |pipeline[role]| > 0 then Sum(pipeline[role]) else 0,
          costHolding, costBacklog);
        assert rows[..i + 1] == rows[..i] + [rows[i]];
      }
    }

    /** Steps 1 to 3 of period t: the consumer demand, receiving, and fulfilment. */
    method ServeDemand(t: int) returns (ghost b1: Books, ghost b2: Books, ghost shipped: map<Role, int>)
      requires BooksTotal(Counters())
      modifies this`incomingOrder, this`receivedShipment, this`shipmentQueues, this`inventory, this`backlog
      ensures BooksTotal(Counters()) && Total(shipped)
      ensures b1 == WithDemand(old(Counters()), demandFn(t)) && Received(b1, b2) && Fulfilled(b2, Counters(), shipped)
    {
      incomingOrder := incomingOrder[Retailer := demandFn(t)];
      b1 := Counters();
      ReceiveShipments();
      b2 := Counters();
      shipped := FulfilOrders();
    }

    /** Steps 4 and 5 of period t: the agents' decisions, and their orders sent upstream. */
    method PlaceOrders(t: int)
      returns (newOrders: map<Role, int>, ghost b4: Books, ghost decided: map<Role, int>, ghost seen: map<Role, RoleState>)
      requires AgentsOk() && BooksTotal(Counters())
      modifies this`lastOrder, this`pipeline, this`incomingOrder, AgentRepr
      ensures AgentsOk() && BooksTotal(Counters())
      ensures Total(newOrders) && Total(decided) && Total(seen)
      ensures DecidedAll(old(Counters()), b4, cfg, agents, t, newOrders, decided, seen) && Propagated(b4, Counters(), newOrders)
    {
      newOrders, decided, seen := DecideOrders(t);
      b4 := Counters();
      PropagateOrders(newOrders);
    }

    /** Steps 1 to 5 of period t, leaving the log and the trace alone. */
    method Advance(t: int)
      returns (newOrders: map<Role, int>, ghost b1: Books, ghost b2: Books, ghost b3: Books, ghost b4: Books,
               ghost shipped: map<Role, int>, ghost decided: map<Role, int>, ghost seen: map<Role, RoleState>)
      requires AgentsOk() && BooksTotal(Counters())
      modifies this`inventory, this`backlog, this`pipeline, this`incomingOrder, this`receivedShipment,
               this`lastOrder, this`shipmentQueues, AgentRepr
      ensures AgentsOk() && BooksTotal(Counters())
      ensures Total(newOrders) && Total(shipped) && Total(decided) && Total(seen)
      ensures Advanced(cfg, agents, demandFn, t, old(Counters()), b1, b2, b3, b4, Counters(),
                       shipped, newOrders, decided, seen)
    {
      b1, b2, shipped := ServeDemand(t);
      b3 := Counters();
      newOrders, b4, decided, seen := PlaceOrders(t);
    }

    /** Step 7, and the period's entry in the trace. */
    method LogPeriod(t: int, newOrders: map<Role, int>, ghost shipped: map<Role, int>,
                     ghost decided: map<Role, int>, ghost seen: map<Role, RoleState>)
      requires BooksTotal(Counters()) && Total(trace)
      requires Total(newOrders) && Total(shipped) && Total(decided) && Total(seen)
      modifies this`logRows, this`trace, this`elapsed
      ensures Logged(cfg, t, Counters(), shipped, newOrders, decided, seen, old(logRows), logRows, old(trace), trace)
      ensures elapsed == old(elapsed) + 1 && Counters() == old(Counters())
    {
      RecordPeriod(t, newOrders);
      trace := Extend(trace, shipped, newOrders, decided, seen);
      elapsed := elapsed + 1;
    }

    /**
     * Step 7 of period t, closing a period that `Advance` began from the
     * books `b0`: the log and the trace catch up with the counters.
     */
    method FinishPeriod(t: int, newOrders: map<Role, int>, ghost b0: Books, ghost b1: Books, ghost b2: Books,
                        ghost b3: Books, ghost b4: Books, ghost shipped: map<Role, int>,
                        ghost decided: map<Role, int>, ghost seen: map<Role, RoleState>)
      requires AgentsOk() && Consistent(b0, logRows, trace, cfg, agents, demandFn, elapsed)
      requires Advanced(cfg, agents, demandFn, t, b0, b1, b2, b3, b4, Counters(), shipped, newOrders, decided, seen)
      requires BooksTotal(Counters()) && Total(newOrders) && Total(shipped) && Total(decided) && Total(seen)
      modifies this`logRows, this`trace, this`elapsed
      ensures Valid()
      ensures elapsed == old(elapsed) + 1
      ensures |logRows| == |old(logRows)| + 4 && logRows[..|old(logRows)|] == old(logRows)
      ensures forall k | |old(logRows)| <= k < |logRows| :: logRows[k].t == t
    {
      ghost var b5, rows, trace0 := Counters(), logRows, trace;
      LogPeriod(t, newOrders, shipped, decided, seen);
      LoggedRows(cfg, t, b5, shipped, newOrders, decided, seen, rows, logRows, trace0, trace);
      PeriodPreservesConsistency(cfg, agents, demandFn, t, old(elapsed), b0, b1, b2, b3, b4, b5,
                                 shipped, newOrders, decided, seen, rows, logRows, trace0, trace);
    }

    /**
     * One period t of `run`: steps 1 to 5, then logging. The runner stays
     * consistent with its log, which grows by the period's four rows, each
     * labelled t.
     */
    method RunPeriod(t: int)
      requires Valid()
      modifies this, AgentRepr
      ensures Valid()
      ensures elapsed == old(elapsed) + 1
      ensures |logRows| == |old(logRows)| + 4 && logRows[..|old(logRows)|] == old(logRows)
      ensures forall k | |old(logRows)| <= k < |logRows| :: logRows[k].t == t
    {
      ghost var b0 := Counters();
      var newOrders, b1, b2, b3, b4, shipped, decided, seen := Advance(t);
      FinishPeriod(t, newOrders, b0, b1, b2, b3, b4, shipped, decided, seen);
    }

    /**
     * `run`: periods 0 to `periods - 1` in turn (none when `periods` is not
     * positive). Every period appends its four rows, labelled with the
     * period; the rows of earlier runs stay in front, and the whole log is
     * returned.
     */
    method Run() returns (log: seq<LogRow>)
      requires Valid()
      modifies this, AgentRepr
      ensures Valid() && log == logRows
      ensures elapsed == old(elapsed) + Max(0, cfg.periods)
      ensures |log| == |old(logRows)| + 4 * Max(0, cfg.periods) && log[..|old(logRows)|] == old(logRows)
      ensures forall k | |old(logRows)| <= k < |log| :: log[k].t == (k - |old(logRows)|) / 4
    {
      ghost var start := |logRows|;
      for t := 0 to Max(0, cfg.periods)
        invariant Valid()
        invariant elapsed == old(elapsed) + t
        invariant |logRows| == start + 4 * t && logRows[..start] == old(logRows)
        invariant forall k | start <= k < |logRows| :: logRows[k].t == (k - start) / 4
      {
        ghost var before := logRows;
        RunPeriod(t);
        forall k | start <= k < |logRows|
          ensures logRows[k].t == (k - start) / 4
        {
          if k < |before| {
            assert logRows[k] == logRows[..|before|][k];
          } else {
            QuarterOf(t, k - start - 4 * t);
          }
        }
        assert logRows[..start] == logRows[..|before|][..start];
      }
      log := logRows;
    }
  }
}
