/**
 * The engine's per-role loops, one role at a time: what holds after the
 * first i roles of the chain have taken a step, and how the state after
 * all four completes to the whole step described in `SimulationSteps`.
 */
module SimulationPhases {
  import opened Wrappers
  import opened Builtins
  import opened Roles
  import opened Interfaces
  import opened DelayLines
  import opened Agents
  import opened SimulationRecords
  import opened SimulationSteps

  /*
   * Step 2, receiving.
   */

  /** Role r has received iff it comes before position i of the chain. */
  ghost predicate RoleReceived(r: Role, i: int, queues0: map<Role, seq<int>>,
                               received: map<Role, int>, queues: map<Role, seq<int>>)
    requires Total(queues0) && Total(received) && Total(queues)
  {
    && (Index(r) < i ==> received[r] == Front(queues0[r]) && queues[r] == Rotate(queues0[r], 0))
    && (Index(r) >= i ==> queues[r] == queues0[r])
  }

  ghost predicate ReceivedBefore(i: int, queues0: map<Role, seq<int>>,
                                 received: map<Role, int>, queues: map<Role, seq<int>>)
  {
    && Total(queues0) && Total(received) && Total(queues)
    && RoleReceived(Retailer, i, queues0, received, queues)
    && RoleReceived(Wholesaler, i, queues0, received, queues)
    && RoleReceived(Distributor, i, queues0, received, queues)
    && RoleReceived(Factory, i, queues0, received, queues)
  }

  /** Receiving at position i extends the invariant to i + 1. */
  lemma ReceivedNext(i: nat, queues0: map<Role, seq<int>>, received: map<Role, int>, queues: map<Role, seq<int>>,
                     received': map<Role, int>, queues': map<Role, seq<int>>)
    requires i < |Chain| && ReceivedBefore(i, queues0, received, queues)
    requires received' == received[Chain[i] := Front(queues[Chain[i]])]
    requires queues' == queues[Chain[i] := Rotate(queues[Chain[i]], 0)]
    ensures ReceivedBefore(i + 1, queues0, received', queues')
  {
    ChainIndex(i);
  }

  /** After the whole chain has received, the step is `Received`, and no queue is empty. */
  lemma ReceivedDone(b: Books, b': Books)
    requires BooksTotal(b) && BooksTotal(b')
    requires b' == b.(receivedShipment := b'.receivedShipment, shipmentQueues := b'.shipmentQueues)
    requires ReceivedBefore(|Chain|, b.shipmentQueues, b'.receivedShipment, b'.shipmentQueues)
    ensures Received(b, b')
    ensures forall r: Role :: |b'.shipmentQueues[r]| >= 1
  {
    forall r: Role
      ensures b'.receivedShipment[r] == Front(b.shipmentQueues[r])
      ensures b'.shipmentQueues[r] == Rotate(b.shipmentQueues[r], 0) && |b'.shipmentQueues[r]| >= 1
    {
      assert RoleReceived(r, |Chain|, b.shipmentQueues, b'.receivedShipment, b'.shipmentQueues) by {
        match r
        case Retailer =>
        case Wholesaler =>
        case Distributor =>
        case Factory =>
      }
      RotateShape(b.shipmentQueues[r], 0);
    }
  }

  /*
   * Step 3, fulfilment.
   */

  /**
   * Role r after the first i roles have shipped: fulfilled iff it comes
   * before i, and its queue fed iff its supplier does.
   */
  ghost predicate RoleFulfilled(
    r: Role, i: int, inventory0: map<Role, int>, backlog0: map<Role, int>, queues0: map<Role, seq<int>>,
    received: map<Role, int>, incoming: map<Role, int>,
    inventory: map<Role, int>, backlog: map<Role, int>, queues: map<Role, seq<int>>, shipped: map<Role, int>)
    requires Total(inventory0) && Total(backlog0) && Total(queues0) && Total(received) && Total(incoming)
    requires Total(inventory) && Total(backlog) && Total(queues)
    requires |queues0[r]| >= 1
  {
    && (Index(r) < i ==>
          && r in shipped
          && Fulfil(inventory0[r], backlog0[r], received[r], incoming[r])
               == Fulfilment(inventory[r], backlog[r], shipped[r]))
    && (Index(r) >= i ==> inventory[r] == inventory0[r] && backlog[r] == backlog0[r])
    && (r != Factory && Index(r) + 1 < i ==>
          queues[r] == AddToBack(queues0[r], SupplierShipment(shipped, r)))
    && (r == Factory || Index(r) + 1 >= i ==> queues[r] == queues0[r])
  }

  ghost predicate FulfilledBefore(
    i: int, inventory0: map<Role, int>, backlog0: map<Role, int>, queues0: map<Role, seq<int>>,
    received: map<Role, int>, incoming: map<Role, int>,
    inventory: map<Role, int>, backlog: map<Role, int>, queues: map<Role, seq<int>>, shipped: map<Role, int>)
  {
    && Total(inventory0) && Total(backlog0) && Total(queues0) && Total(received) && Total(incoming)
    && Total(inventory) && Total(backlog) && Total(queues)
    && (forall r: Role :: |queues0[r]| >= 1)
    && RoleFulfilled(Retailer, i, inventory0, backlog0, queues0, received, incoming, inventory, backlog, queues, shipped)
    && RoleFulfilled(Wholesaler, i, inventory0, backlog0, queues0, received, incoming, inventory, backlog, queues, shipped)
    && RoleFulfilled(Distributor, i, inventory0, backlog0, queues0, received, incoming, inventory, backlog, queues, shipped)
    && RoleFulfilled(Factory, i, inventory0, backlog0, queues0, received, incoming, inventory, backlog, queues, shipped)
  }

  /** One role's part of `FulfilledNext`. */
  lemma RoleFulfilledNext(
    r: Role, i: nat, inventory0: map<Role, int>, backlog0: map<Role, int>, queues0: map<Role, seq<int>>,
    received: map<Role, int>, incoming: map<Role, int>,
    inventory: map<Role, int>, backlog: map<Role, int>, queues: map<Role, seq<int>>, shipped: map<Role, int>,
    amount: int,
    inventory': map<Role, int>, backlog': map<Role, int>, queues': map<Role, seq<int>>, shipped': map<Role, int>)
    requires i < |Chain|
    requires Total(inventory0) && Total(backlog0) && Total(queues0) && Total(received) && Total(incoming)
    requires Total(inventory) && Total(backlog) && Total(queues)
    requires forall x: Role :: |queues0[x]| >= 1
    requires RoleFulfilled(r, i, inventory0, backlog0, queues0, received, incoming, inventory, backlog, queues, shipped)
    requires Downstream(Chain[i]).Some? ==> |queues[Downstream(Chain[i]).value]| >= 1
    requires amount == Min(inventory[Chain[i]] + received[Chain[i]], incoming[Chain[i]] + backlog[Chain[i]])
    requires inventory' == inventory[Chain[i] := inventory[Chain[i]] + received[Chain[i]] - amount]
    requires backlog' == backlog[Chain[i] := Max(0, incoming[Chain[i]] + backlog[Chain[i]] - amount)]
    requires shipped' == shipped[Chain[i] := amount]
    requires queues' == match Downstream(Chain[i])
      case None => queues
      case Some(d) => queues[d := AddToBack(queues[d], amount)]
    ensures Total(inventory') && Total(backlog') && Total(queues')
    ensures RoleFulfilled(r, i + 1, inventory0, backlog0, queues0, received, incoming, inventory', backlog', queues', shipped')
  {
    ChainIndex(i);
    var role := Chain[i];
    NeighbourIndex(r);
    NeighbourIndex(role);
    if r != Factory && Index(r) + 1 == i {
      UpstreamDownstreamInverse(r, role);
      assert Upstream(r) == Some(role);
    }
  }

  /** Fulfilling at position i, shipping `amount`, extends the invariant to i + 1. */
  lemma FulfilledNext(
    i: nat, inventory0: map<Role, int>, backlog0: map<Role, int>, queues0: map<Role, seq<int>>,
    received: map<Role, int>, incoming: map<Role, int>,
    inventory: map<Role, int>, backlog: map<Role, int>, queues: map<Role, seq<int>>, shipped: map<Role, int>,
    amount: int,
    inventory': map<Role, int>, backlog': map<Role, int>, queues': map<Role, seq<int>>, shipped': map<Role, int>)
    requires i < |Chain|
    requires FulfilledBefore(i, inventory0, backlog0, queues0, received, incoming, inventory, backlog, queues, shipped)
    requires amount == Min(inventory[Chain[i]] + received[Chain[i]], incoming[Chain[i]] + backlog[Chain[i]])
    requires inventory' == inventory[Chain[i] := inventory[Chain[i]] + received[Chain[i]] - amount]
    requires backlog' == backlog[Chain[i] := Max(0, incoming[Chain[i]] + backlog[Chain[i]] - amount)]
    requires shipped' == shipped[Chain[i] := amount]
    requires queues' == match Downstream(Chain[i])
      case None => queues
      case Some(d) => queues[d := AddToBack(queues[d], amount)]
    ensures FulfilledBefore(i + 1, inventory0, backlog0, queues0, received, incoming, inventory', backlog', queues', shipped')
  {
    RoleFulfilledNext(Retailer, i, inventory0, backlog0, queues0, received, incoming, inventory, backlog, queues, shipped,
                      amount, inventory', backlog', queues', shipped');
    RoleFulfilledNext(Wholesaler, i, inventory0, backlog0, queues0, received, incoming, inventory, backlog, queues, shipped,
                      amount, inventory', backlog', queues', shipped');
    RoleFulfilledNext(Distributor, i, inventory0, backlog0, queues0, received, incoming, inventory, backlog, queues, shipped,
                      amount, inventory', backlog', queues', shipped');
    RoleFulfilledNext(Factory, i, inventory0, backlog0, queues0, received, incoming, inventory, backlog, queues, shipped,
                      amount, inventory', backlog', queues', shipped');
  }

  /** After the whole chain has shipped, the step is `Fulfilled`. */
  lemma FulfilledDone(b: Books, b': Books, shipped: map<Role, int>)
    requires BooksTotal(b) && BooksTotal(b')
    requires b' == b.(inventory := b'.inventory, backlog := b'.backlog, shipmentQueues := b'.shipmentQueues)
    requires FulfilledBefore(|Chain|, b.inventory, b.backlog, b.shipmentQueues, b.receivedShipment, b.incomingOrder,
                             b'.inventory, b'.backlog, b'.shipmentQueues, shipped)
    ensures Fulfilled(b, b', shipped)
  {
    forall r: Role
      ensures r in shipped
      ensures Fulfil(b.inventory[r], b.backlog[r], b.receivedShipment[r], b.incomingOrder[r])
        == Fulfilment(b'.inventory[r], b'.backlog[r], shipped[r])
      ensures r != Factory ==> b'.shipmentQueues[r] == AddToBack(b.shipmentQueues[r], SupplierShipment(shipped, r))
    {
      assert RoleFulfilled(r, |Chain|, b.inventory, b.backlog, b.shipmentQueues, b.receivedShipment, b.incomingOrder,
                           b'.inventory, b'.backlog, b'.shipmentQueues, shipped) by {
        match r
        case Retailer =>
        case Wholesaler =>
        case Distributor =>
        case Factory =>
      }
    }
  }

  /*
   * Step 4, decisions.
   */

  /**
   * The snapshot carries over to counters that differ only in the orders on
   * record, as long as the orders it shows are the same.
   */
  lemma SeenAsTransfer(b: Books, b': Books, cfg: SimulationConfig, s: RoleState, role: Role, t: int,
                       older: map<Role, int>, newer: map<Role, int>, older': map<Role, int>, newer': map<Role, int>)
    requires BooksTotal(b) && BooksTotal(b') && Total(older) && Total(older')
    requires b' == b.(lastOrder := b'.lastOrder)
    requires SeenAs(b, cfg, s, role, t, older, newer)
    requires older'[role] == older[role]
    requires Upstream(role).Some? ==> older'[Upstream(role).value] == older[Upstream(role).value]
    requires Downstream(role).Some? ==>
      Downstream(role).value in newer' && newer'[Downstream(role).value] == newer[Downstream(role).value]
    ensures SeenAs(b', cfg, s, role, t, older', newer')
  {
  }

  /**
   * Role r after the first i roles have decided, with `last` the runner's
   * orders on record: a decided role has its clamped answer on record and
   * was shown the counters of `b3` with its customer's new order; the
   * others still have their previous order.
   */
  ghost predicate RoleDecided(r: Role, i: int, b3: Books, cfg: SimulationConfig, agents: map<Role, Agent>, t: int,
                              last: map<Role, int>, newOrders: map<Role, int>, decided: map<Role, int>,
                              seen: map<Role, RoleState>)
    requires BooksTotal(b3) && Total(agents) && Total(last)
  {
    && (Index(r) < i ==>
          && r in newOrders && r in decided && r in seen
          && newOrders[r] == Max(0, decided[r]) && last[r] == newOrders[r]
          && Decided(agents[r], seen[r], decided[r])
          && SeenAs(b3, cfg, seen[r], r, t, b3.lastOrder, newOrders))
    && (Index(r) >= i ==> last[r] == b3.lastOrder[r])
  }

  ghost predicate DecidedBefore(i: int, b3: Books, cfg: SimulationConfig, agents: map<Role, Agent>, t: int,
                                last: map<Role, int>, newOrders: map<Role, int>, decided: map<Role, int>,
                                seen: map<Role, RoleState>)
  {
    && BooksTotal(b3) && Total(agents) && Total(last)
    && RoleDecided(Retailer, i, b3, cfg, agents, t, last, newOrders, decided, seen)
    && RoleDecided(Wholesaler, i, b3, cfg, agents, t, last, newOrders, decided, seen)
    && RoleDecided(Distributor, i, b3, cfg, agents, t, last, newOrders, decided, seen)
    && RoleDecided(Factory, i, b3, cfg, agents, t, last, newOrders, decided, seen)
  }

  /** The role at position i decides: it now has its clamped answer on record. */
  lemma DecidedOwn(i: nat, b3: Books, cfg: SimulationConfig, agents: map<Role, Agent>, t: int,
                   last: map<Role, int>, newOrders: map<Role, int>, decided: map<Role, int>,
                   seen: map<Role, RoleState>, s: RoleState, q: int,
                   last': map<Role, int>, newOrders': map<Role, int>, decided': map<Role, int>,
                   seen': map<Role, RoleState>)
    requires i < |Chain| && BooksTotal(b3) && Total(agents) && Total(last)
    requires RoleDecided(Chain[i], i, b3, cfg, agents, t, last, newOrders, decided, seen)
    requires Downstream(Chain[i]).Some? ==>
      RoleDecided(Downstream(Chain[i]).value, i, b3, cfg, agents, t, last, newOrders, decided, seen)
    requires Upstream(Chain[i]).Some? ==>
      RoleDecided(Upstream(Chain[i]).value, i, b3, cfg, agents, t, last, newOrders, decided, seen)
    requires SeenAs(b3.(lastOrder := last), cfg, s, Chain[i], t, last, last)
    requires Decided(agents[Chain[i]], s, q)
    requires last' == last[Chain[i] := Max(0, q)] && newOrders' == newOrders[Chain[i] := Max(0, q)]
    requires decided' == decided[Chain[i] := q] && seen' == seen[Chain[i] := s]
    ensures Total(last') && RoleDecided(Chain[i], i + 1, b3, cfg, agents, t, last', newOrders', decided', seen')
  {
    ChainIndex(i);
    NeighbourIndex(Chain[i]);
    SeenAsTransfer(b3.(lastOrder := last), b3, cfg, s, Chain[i], t, last, last, b3.lastOrder, newOrders');
  }

  /** A decision at position i leaves every other role's part of the invariant in place. */
  lemma DecidedOther(r: Role, i: nat, b3: Books, cfg: SimulationConfig, agents: map<Role, Agent>, t: int,
                     last: map<Role, int>, newOrders: map<Role, int>, decided: map<Role, int>,
                     seen: map<Role, RoleState>, s: RoleState, q: int,
                     last': map<Role, int>, newOrders': map<Role, int>, decided': map<Role, int>,
                     seen': map<Role, RoleState>)
    requires i < |Chain| && r != Chain[i] && BooksTotal(b3) && Total(agents) && Total(last)
    requires RoleDecided(r, i, b3, cfg, agents, t, last, newOrders, decided, seen)
    requires last' == last[Chain[i] := Max(0, q)] && newOrders' == newOrders[Chain[i] := Max(0, q)]
    requires decided' == decided[Chain[i] := q] && seen' == seen[Chain[i] := s]
    ensures Total(last') && RoleDecided(r, i + 1, b3, cfg, agents, t, last', newOrders', decided', seen')
  {
    ChainIndex(i);
    NeighbourIndex(r);
    if Index(r) < i {
      SeenAsTransfer(b3, b3, cfg, seen[r], r, t, b3.lastOrder, newOrders, b3.lastOrder, newOrders');
    }
  }

  /** Deciding at position i extends the invariant to i + 1. */
  lemma DecidedNext(i: nat, b3: Books, cfg: SimulationConfig, agents: map<Role, Agent>, t: int,
                    last: map<Role, int>, newOrders: map<Role, int>, decided: map<Role, int>,
                    seen: map<Role, RoleState>, s: RoleState, q: int,
                    last': map<Role, int>, newOrders': map<Role, int>, decided': map<Role, int>,
                    seen': map<Role, RoleState>)
    requires i < |Chain| && DecidedBefore(i, b3, cfg, agents, t, last, newOrders, decided, seen)
    requires SeenAs(b3.(lastOrder := last), cfg, s, Chain[i], t, last, last)
    requires Decided(agents[Chain[i]], s, q)
    requires last' == last[Chain[i] := Max(0, q)] && newOrders' == newOrders[Chain[i] := Max(0, q)]
    requires decided' == decided[Chain[i] := q] && seen' == seen[Chain[i] := s]
    ensures DecidedBefore(i + 1, b3, cfg, agents, t, last', newOrders', decided', seen')
  {
    DecidedOwn(i, b3, cfg, agents, t, last, newOrders, decided, seen, s, q, last', newOrders', decided', seen');
    if Chain[i] != Retailer {
      DecidedOther(Retailer, i, b3, cfg, agents, t, last, newOrders, decided, seen, s, q,
                   last', newOrders', decided', seen');
    }
    if Chain[i] != Wholesaler {
      DecidedOther(Wholesaler, i, b3, cfg, agents, t, last, newOrders, decided, seen, s, q,
                   last', newOrders', decided', seen');
    }
    if Chain[i] != Distributor {
      DecidedOther(Distributor, i, b3, cfg, agents, t, last, newOrders, decided, seen, s, q,
                   last', newOrders', decided', seen');
    }
    if Chain[i] != Factory {
      DecidedOther(Factory, i, b3, cfg, agents, t, last, newOrders, decided, seen, s, q,
                   last', newOrders', decided', seen');
    }
  }

  /** Role r's decision, once the whole chain has decided. */
  lemma RoleDecidedDone(r: Role, b3: Books, cfg: SimulationConfig, agents: map<Role, Agent>, t: int,
                        last: map<Role, int>, newOrders: map<Role, int>, decided: map<Role, int>,
                        seen: map<Role, RoleState>)
    requires DecidedBefore(|Chain|, b3, cfg, agents, t, last, newOrders, decided, seen)
    ensures r in newOrders && r in decided && r in seen
    ensures newOrders[r] == Max(0, decided[r]) && last[r] == newOrders[r]
    ensures Decided(agents[r], seen[r], decided[r])
    ensures SeenAs(b3, cfg, seen[r], r, t, b3.lastOrder, newOrders)
  {
    assert RoleDecided(r, |Chain|, b3, cfg, agents, t, last, newOrders, decided, seen) by {
      match r
      case Retailer =>
      case Wholesaler =>
      case Distributor =>
      case Factory =>
    }
  }

  /** After the whole chain has decided, the step is `DecidedAll`. */
  lemma DecidedDone(b3: Books, b4: Books, cfg: SimulationConfig, agents: map<Role, Agent>, t: int,
                    newOrders: map<Role, int>, decided: map<Role, int>, seen: map<Role, RoleState>)
    requires BooksTotal(b4) && b4 == b3.(lastOrder := b4.lastOrder)
    requires DecidedBefore(|Chain|, b3, cfg, agents, t, b4.lastOrder, newOrders, decided, seen)
    ensures DecidedAll(b3, b4, cfg, agents, t, newOrders, decided, seen)
  {
    forall r: Role
      ensures r in newOrders && r in decided && r in seen
      ensures newOrders[r] == Max(0, decided[r]) && b4.lastOrder[r] == newOrders[r]
      ensures Decided(agents[r], seen[r], decided[r])
      ensures SeenAs(b3, cfg, seen[r], r, t, b3.lastOrder, newOrders)
    {
      RoleDecidedDone(r, b3, cfg, agents, t, b4.lastOrder, newOrders, decided, seen);
    }
    MapsAgree(b4.lastOrder, newOrders);
  }

  /** Two maps defined on every role that agree on every role are equal. */
  lemma MapsAgree(m: map<Role, int>, m': map<Role, int>)
    requires Total(m) && Total(m') && forall r: Role :: m[r] == m'[r]
    ensures m == m'
  {
    assert m.Keys == m'.Keys;
  }

  /*
   * Step 5, propagation.
   */

  /**
   * Role r after the first i roles have sent their orders: r's pipeline is
   * rotated iff r comes before i and is not the factory, and r's incoming
   * order is its customer's pipeline front iff that customer comes before i.
   */
  ghost predicate RolePropagated(r: Role, i: int, pipeline0: map<Role, seq<int>>, incoming0: map<Role, int>,
                                 newOrders: map<Role, int>, pipeline: map<Role, seq<int>>, incoming: map<Role, int>)
    requires Total(pipeline0) && Total(incoming0) && Total(newOrders) && Total(pipeline) && Total(incoming)
  {
    && (r != Factory && Index(r) < i ==> pipeline[r] == Rotate(pipeline0[r], newOrders[r]))
    && (r == Factory || Index(r) >= i ==> pipeline[r] == pipeline0[r])
    && (r != Retailer && Index(r) <= i ==> incoming[r] == Front(pipeline[Downstream(r).value]))
    && (r == Retailer || Index(r) > i ==> incoming[r] == incoming0[r])
  }

  ghost predicate PropagatedBefore(i: int, pipeline0: map<Role, seq<int>>, incoming0: map<Role, int>,
                                   newOrders: map<Role, int>, pipeline: map<Role, seq<int>>, incoming: map<Role, int>)
  {
    && Total(pipeline0) && Total(incoming0) && Total(newOrders) && Total(pipeline) && Total(incoming)
    && RolePropagated(Retailer, i, pipeline0, incoming0, newOrders, pipeline, incoming)
    && RolePropagated(Wholesaler, i, pipeline0, incoming0, newOrders, pipeline, incoming)
    && RolePropagated(Distributor, i, pipeline0, incoming0, newOrders, pipeline, incoming)
    && RolePropagated(Factory, i, pipeline0, incoming0, newOrders, pipeline, incoming)
  }

  /** The pipeline and incoming order of position i after its order is sent (the factory sends none). */
  function PipelineSent(pipeline: map<Role, seq<int>>, newOrders: map<Role, int>, i: nat): (p: map<Role, seq<int>>)
    requires i < |Chain| && Total(pipeline) && Total(newOrders)
    ensures Total(p) && (Chain[i] == Factory ==> p == pipeline)
  {
    if Chain[i] == Factory then pipeline
    else pipeline[Chain[i] := Rotate(pipeline[Chain[i]], newOrders[Chain[i]])]
  }

  /** One role's part of `PropagatedNext`. */
  lemma RolePropagatedNext(r: Role, i: nat, pipeline0: map<Role, seq<int>>, incoming0: map<Role, int>,
                           newOrders: map<Role, int>, pipeline: map<Role, seq<int>>, incoming: map<Role, int>,
                           pipeline': map<Role, seq<int>>, incoming': map<Role, int>)
    requires i < |Chain|
    requires Total(pipeline0) && Total(incoming0) && Total(newOrders) && Total(pipeline) && Total(incoming)
    requires RolePropagated(r, i, pipeline0, incoming0, newOrders, pipeline, incoming)
    requires pipeline' == PipelineSent(pipeline, newOrders, i)
    requires incoming' == if Chain[i] == Factory then incoming
                          else incoming[Upstream(Chain[i]).value := Front(pipeline'[Chain[i]])]
    ensures Total(incoming') && RolePropagated(r, i + 1, pipeline0, incoming0, newOrders, pipeline', incoming')
  {
    ChainIndex(i);
    NeighbourIndex(r);
    NeighbourIndex(Chain[i]);
    if r != Retailer && Index(r) == i + 1 {
      UpstreamDownstreamInverse(Chain[i], r);
    }
  }

  /** Sending the order at position i extends the invariant to i + 1. */
  lemma PropagatedNext(i: nat, pipeline0: map<Role, seq<int>>, incoming0: map<Role, int>,
                       newOrders: map<Role, int>, pipeline: map<Role, seq<int>>, incoming: map<Role, int>,
                       pipeline': map<Role, seq<int>>, incoming': map<Role, int>)
    requires i < |Chain| && PropagatedBefore(i, pipeline0, incoming0, newOrders, pipeline, incoming)
    requires pipeline' == PipelineSent(pipeline, newOrders, i)
    requires incoming' == if Chain[i] == Factory then incoming
                          else incoming[Upstream(Chain[i]).value := Front(pipeline'[Chain[i]])]
    ensures PropagatedBefore(i + 1, pipeline0, incoming0, newOrders, pipeline', incoming')
  {
    RolePropagatedNext(Retailer, i, pipeline0, incoming0, newOrders, pipeline, incoming, pipeline', incoming');
    RolePropagatedNext(Wholesaler, i, pipeline0, incoming0, newOrders, pipeline, incoming, pipeline', incoming');
    RolePropagatedNext(Distributor, i, pipeline0, incoming0, newOrders, pipeline, incoming, pipeline', incoming');
    RolePropagatedNext(Factory, i, pipeline0, incoming0, newOrders, pipeline, incoming, pipeline', incoming');
  }

  /** After the whole chain has sent its orders, the step is `Propagated`. */
  lemma PropagatedDone(b4: Books, b5: Books, newOrders: map<Role, int>)
    requires BooksTotal(b4) && BooksTotal(b5)
    requires b5 == b4.(pipeline := b5.pipeline, incomingOrder := b5.incomingOrder)
    requires PropagatedBefore(|Chain|, b4.pipeline, b4.incomingOrder, newOrders, b5.pipeline, b5.incomingOrder)
    ensures Propagated(b4, b5, newOrders)
  {
    forall r: Role
      ensures r != Factory ==> b5.pipeline[r] == Rotate(b4.pipeline[r], newOrders[r])
      ensures r != Retailer ==> b5.incomingOrder[r] == Front(b5.pipeline[Downstream(r).value])
    {
      assert RolePropagated(r, |Chain|, b4.pipeline, b4.incomingOrder, newOrders, b5.pipeline, b5.incomingOrder) by {
        match r
        case Retailer =>
        case Wholesaler =>
        case Distributor =>
        case Factory =>
      }
    }
  }
}
