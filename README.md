# Beer game: the simulation engine and four ordering policies

This project models the core of a beer-game simulator in Dafny. The game is a
four-echelon supply chain (retailer → wholesaler → distributor → factory) in
which local ordering decisions amplify into system-wide swings, the bullwhip
effect. The model covers the following parts.

- **The engine, `SimulationRunner`** (class `Simulation.SimulationRunner`).
  It holds per-role counters: inventory, backlog, incoming order, received
  shipment and last order. It also holds two kinds of FIFO delay lines: each
  role's order pipeline and its shipment queue. One call of `Run` advances the
  chain one period at a time. Each period:
  1. injects the consumer demand at the retailer;
  2. rotates every shipment queue;
  3. ships `min(stock, incoming + backlog)` into the customer's newest queue slot;
  4. asks every role's agent for an order, clamped at zero, in chain order;
  5. rotates every non-factory pipeline and shows its front to the supplier as its incoming order;
  6. appends one log row per role.

  The runner's invariant, `Valid`, ties every counter to a ghost trace of what
  each role shipped, ordered and was shown in every period so far. The
  `EngineProperties` lemmas then read the engine's promises off that
  invariant: delay offsets, the fulfilment rule, non-negativity, neighbour
  views, and the shape of the log.
- **The demand generators**: constant, step, shock, and the clamp of noisy
  demand (module `DemandPatterns`; `constant_demand` is
  `Simulation.ConstantDemand`).
- **Four ordering policies**:
  - order-up-to (`PassivePipeline`);
  - the rate-limited inverter (`Inverter`);
  - the rolling-window production smoother (`ProductionSmoother`, a class with its in-place history);
  - the rational analyst without demand smoothing (`RationalAnalyst`).

  They plug into the engine through the closed datatype `Agents.Agent`. Every
  other policy of the system is an `Opaque` case: a function from the role
  state to an order.

The model follows the code as written in the following places.

- **The factory is never restocked.** Nothing ever ships into the factory's
  queue and its order pipeline is never rotated. So it receives nothing, its
  stock never rises, and its pipeline keeps its initial fill
  (`FactoryReceivesNothing`, `FactoryStockNeverRises`, `FactoryPipelineFrozen`).
- **A supplier sees its customer's order from the same period.** The last
  order is updated inside the decision loop, so a supplier's downstream view
  already holds the order its customer placed this period
  (`NeighbourViews`).
- **The log reads the counters after propagation.** A non-retailer's logged
  incoming order and pipeline are therefore those of the next period
  (`LoggedIsNext`).
- **Lead times below 1.** The comments at simulation.py:70 and :132 describe
  shipments and orders arriving "after lead time". Every shipment queue and
  every non-factory pipeline created with a lead time of zero or less starts
  empty and holds one slot after the first period, so the effective delay is
  `max(1, lead time)` (`LineLengths`, `ShipmentDelay`, `OrderDelay`). The
  factory's pipeline, never rotated, stays empty in that case
  (`FactoryPipelineFrozen`).
- **'adjacent' and 'full' sharing behave identically.** The configuration
  comment at simulation.py:19-22 says "full = each agent sees all roles'
  states", but the check at simulation.py:90 treats both modes alike and builds
  only the two adjacent views (`SharingModesAgree`).
- **Neighbour views.** The record `RoleState` at interfaces.py:7-17 declares
  no neighbour fields. The engine imports `NeighborState` (simulation.py:6)
  and passes `upstream_state` and `downstream_state` when it builds each
  snapshot (simulation.py:108-109). The model's `NeighborState` and the two
  optional view fields of `RoleState` are taken from that use.

## Model

| member | source | states |
|---|---|---|
| Simulation.ConstantDemand | profiles-beergame/src/profiles_beergame/engine/simulation.py:26-29 | the generator returns `value` for every period |
| Simulation.MissingRole | profiles-beergame/src/profiles_beergame/engine/simulation.py:43-46 | None exactly when all four roles have an agent; otherwise the first role in chain order that lacks one |
| Simulation.Create | profiles-beergame/src/profiles_beergame/engine/simulation.py:39-46 | fails with "Missing agent for role <name>" exactly when a role lacks an agent, naming the first such role; otherwise yields a fresh valid runner with no periods run and an empty log |
| Simulation.ErrorNamesOneRole | profiles-beergame/src/profiles_beergame/engine/simulation.py:46 | different roles give different "Missing agent for role" messages, so the error identifies the missing role |
| Roles.Name | profiles-beergame/src/profiles_beergame/engine/simulation.py:43 | a role's name is the entry at its chain position in the engine's role list "retailer", "wholesaler", "distributor", "factory" |
| Roles.NamesDistinct | profiles-beergame/src/profiles_beergame/engine/simulation.py:43 | different roles have different names |
| SimulationRecords.DefaultConfig | profiles-beergame/src/profiles_beergame/engine/simulation.py:9-23 | 52 periods, order lead time 1, shipment lead time 2, initial inventory 12, initial pipeline 4, costs 0.5 and 1.0, seed 42, sharing "none" (so no neighbour views) |
| Simulation.SimulationRunner.constructor | profiles-beergame/src/profiles_beergame/engine/simulation.py:39-75 | all counters start as configured (the initial inventory, zeros, pipelines `[initial_pipeline] * order_lead_time`, queues `[0] * shipment_lead_time`); the log is empty; every role's received shipment and incoming order are 0; the runner is valid |
| Simulation.SimulationRunner.BuildNeighborState | profiles-beergame/src/profiles_beergame/engine/simulation.py:77-84 | the view carries exactly the role, its inventory, its backlog and its last order |
| Simulation.SimulationRunner.BuildState | profiles-beergame/src/profiles_beergame/engine/simulation.py:86-110 | the snapshot holds the role's counters and the sum of its pipeline; neighbour views are present exactly when sharing is 'adjacent' or 'full' and the neighbour exists |
| Simulation.ShipAll | profiles-beergame/src/profiles_beergame/engine/simulation.py:143-153 | for each role in chain order: stock plus arrival, shipment `min(stock, incoming + backlog)`, the remaining backlog, and the shipment added to the customer's newest slot |
| Simulation.SimulationRunner.ReceiveShipments | profiles-beergame/src/profiles_beergame/engine/simulation.py:136-140 | every role receives the front of its queue (0 when empty), and the queue is rotated with a fresh 0 slot |
| Simulation.SimulationRunner.FulfilOrders | profiles-beergame/src/profiles_beergame/engine/simulation.py:143-153 | the new inventory, backlog and queues are those of the fulfilment rule, with the shipments recorded per role; the factory's queue is not fed |
| Simulation.SimulationRunner.AskAgent | profiles-beergame/src/profiles_beergame/engine/simulation.py:158-159 | the agent is shown the snapshot of the current counters, and its answer is what its policy is known to yield on that snapshot (`Decided`); only the agents' memory changes |
| Simulation.SimulationRunner.DecideAt | profiles-beergame/src/profiles_beergame/engine/simulation.py:157-161 | one more role has decided: its order and last order are its agent's answer clamped at zero; no other counter changes |
| Simulation.SimulationRunner.DecideOrders | profiles-beergame/src/profiles_beergame/engine/simulation.py:156-161 | every role decides in chain order on a snapshot that includes the last orders already updated this period; the new orders are the clamped answers |
| Simulation.SimulationRunner.PropagateOrders | profiles-beergame/src/profiles_beergame/engine/simulation.py:164-172 | every non-factory pipeline is rotated with the new order, and the supplier's incoming order becomes the new front; the factory is untouched |
| Simulation.SimulationRunner.Record | profiles-beergame/src/profiles_beergame/engine/simulation.py:112-126 | appends exactly one row, read from the counters as they stand |
| Simulation.SimulationRunner.RecordPeriod | profiles-beergame/src/profiles_beergame/engine/simulation.py:177-181 | appends the period's four rows in chain order, with costs `holding_cost * max(0, inventory)` and `backlog_cost * backlog` |
| Simulation.SimulationRunner.ServeDemand | profiles-beergame/src/profiles_beergame/engine/simulation.py:130-153 | the retailer's incoming order is the period's demand, then receiving, then fulfilment |
| Simulation.SimulationRunner.PlaceOrders | profiles-beergame/src/profiles_beergame/engine/simulation.py:155-172 | decisions, then propagation of the new orders |
| Simulation.SimulationRunner.Advance | profiles-beergame/src/profiles_beergame/engine/simulation.py:130-172 | steps 1 to 5 of a period, in the source's order |
| Simulation.SimulationRunner.LogPeriod | profiles-beergame/src/profiles_beergame/engine/simulation.py:177-181 | the log grows by the period's rows; the counters are unchanged |
| Simulation.SimulationRunner.FinishPeriod | profiles-beergame/src/profiles_beergame/engine/simulation.py:177-181 | after logging, the runner is valid again, one period later, with four new rows labelled t |
| Simulation.SimulationRunner.RunPeriod | profiles-beergame/src/profiles_beergame/engine/simulation.py:129-181 | one period keeps the runner valid and appends four rows labelled t after the earlier ones |
| Simulation.SimulationRunner.Run | profiles-beergame/src/profiles_beergame/engine/simulation.py:128-187 | returns the log; exactly `4 * max(0, periods)` rows are appended after the earlier rows; row k of this run is labelled period k div 4; the runner stays valid |
| SimulationSteps.PeriodPreservesConsistency | profiles-beergame/src/profiles_beergame/engine/simulation.py:129-181 | one period's counter updates and rows carry the invariant from n to n + 1 periods |
| SimulationRecords.FulfilBalance | profiles-beergame/src/profiles_beergame/engine/simulation.py:144-148 | after fulfilment, stock and backlog are not negative and not both positive; net stock moves by arrival minus demand; the shipment is the smaller of stock and demand |
| Roles.Upstream | profiles-beergame/src/profiles_beergame/engine/simulation.py:56-61 | only the factory has no supplier |
| Roles.Downstream | profiles-beergame/src/profiles_beergame/engine/simulation.py:63-68 | only the retailer has no customer |
| Roles.UpstreamDownstreamInverse | profiles-beergame/src/profiles_beergame/engine/simulation.py:56-68 | r's supplier is s exactly when s's customer is r |
| Roles.NeighbourIndex | profiles-beergame/src/profiles_beergame/engine/simulation.py:43 | a supplier sits one place later in the chain, a customer one place earlier |
| Builtins.Fill | profiles-beergame/src/profiles_beergame/engine/simulation.py:51 | `[x] * n` has `max(0, n)` entries, all x |
| DelayLines.RotateShape | profiles-beergame/src/profiles_beergame/engine/simulation.py:168-170 | a rotation keeps the length (1 from empty), shifts every entry one slot forward and puts the new value last |
| DelayLines.RotateWindow | profiles-beergame/src/profiles_beergame/engine/simulation.py:136-140 | rotating the window of a history pushes the next value: the result is the window one period later |
| DelayLines.AddToBackRotate | profiles-beergame/src/profiles_beergame/engine/simulation.py:140-153 | adding a shipment into the fresh zero slot is the same as pushing the shipment |
| EngineProperties.FulfilmentOutcome | profiles-beergame/src/profiles_beergame/engine/simulation.py:143-148 | in every logged period each role ships `min(previous inventory + received, incoming + previous backlog)`; the logged inventory and backlog follow from it, are not negative, and one of them is 0 |
| EngineProperties.ShipmentDelay | profiles-beergame/src/profiles_beergame/engine/simulation.py:136-153 | a non-factory role receives in period m what its supplier shipped in period m − max(1, shipment lead time), and 0 before that |
| EngineProperties.FactoryReceivesNothing | profiles-beergame/src/profiles_beergame/engine/simulation.py:150-153 | the factory's received shipment is 0 in every period |
| EngineProperties.OrderDelay | profiles-beergame/src/profiles_beergame/engine/simulation.py:163-172 | a non-retailer's incoming order in period m is 0 at m = 0, its customer's order of period m − max(1, order lead time) once that exists, and the initial pipeline value in between |
| EngineProperties.RetailerDemand | profiles-beergame/src/profiles_beergame/engine/simulation.py:131 | the retailer is shown, and logs, the demand of the period's label |
| EngineProperties.LoggedIsNext | profiles-beergame/src/profiles_beergame/engine/simulation.py:117-122 | a non-retailer's logged incoming order, and every logged pipeline, equal what the role is shown in the next period |
| EngineProperties.LoggedIsCurrent | profiles-beergame/src/profiles_beergame/engine/simulation.py:117-122 | after the last period, the logged incoming order and pipeline are the counters' values |
| EngineProperties.PlacedIsLastOrder | profiles-beergame/src/profiles_beergame/engine/simulation.py:159-161 | the logged order is the agent's answer clamped at zero, and it is the role's last order in the next period's snapshot or in the final counters |
| EngineProperties.NeighbourViews | profiles-beergame/src/profiles_beergame/engine/simulation.py:86-97 | views exist only with sharing; the factory has no upstream view and the retailer no downstream view; the downstream view holds the customer's order of this same period, the upstream view the supplier's order of the previous period |
| EngineProperties.FactoryPipelineFrozen | profiles-beergame/src/profiles_beergame/engine/simulation.py:164-172 | the factory's pipeline is always `[initial_pipeline] * order_lead_time`, and its logged and shown pipeline is `max(0, order_lead_time) * initial_pipeline` |
| EngineProperties.LineLengths | profiles-beergame/src/profiles_beergame/engine/simulation.py:136-140 | with lead time at least 1, every shipment queue and every non-factory pipeline keeps exactly that length |
| EngineProperties.RowsInChainOrder | profiles-beergame/src/profiles_beergame/engine/simulation.py:178-181 | the log holds 4 rows per period, period by period, each period in the order retailer, wholesaler, distributor, factory |
| EngineProperties.FlowsNonNegative | profiles-beergame/src/profiles_beergame/engine/simulation.py:136-172 | with non-negative demand, initial inventory and initial pipeline, every arrival, incoming order and shipment is non-negative |
| EngineProperties.FactoryStockNeverRises | profiles-beergame/src/profiles_beergame/engine/simulation.py:143-148 | with non-negative initial inventory and initial pipeline, whatever the demand, the factory's stock never grows and never exceeds the initial inventory: it receives nothing and its incoming orders are clamped orders or the initial pipeline value |
| EngineProperties.SharingModesAgree | profiles-beergame/src/profiles_beergame/engine/simulation.py:90 | 'adjacent' and 'full' show exactly the same snapshot; any other mode shows no neighbour |
| EngineProperties.SnapshotDeterminate | profiles-beergame/src/profiles_beergame/engine/simulation.py:86-110 | the snapshot is determined by the counters, the configuration and the orders on record |
| Agents.DecideOrder | profiles-beergame/src/profiles_beergame/interfaces.py:20-23 | asking an agent changes only its own memory; the stateless policies answer their order function, the analyst its closed form, and the smoother at least its floor |
| DemandPatterns.StepDemand | profiles-beergame/src/profiles_beergame/engine/demand_patterns.py:14-15 | `final` exactly from `step_period` on, `initial` before, and never another value |
| DemandPatterns.StepDemandFn | profiles-beergame/src/profiles_beergame/engine/demand_patterns.py:10-16 | the generator yields `final` in every period from `step_period` on and `initial` in every period before |
| DemandPatterns.StepSeries | profiles-beergame/src/profiles_beergame/engine/demand_patterns.py:10-16 | over n periods, step demand is a run of `initial` then a run of `final`, switching at the clamped step period |
| DemandPatterns.ShockDemand | profiles-beergame/src/profiles_beergame/engine/demand_patterns.py:45-48 | `shock_magnitude` exactly inside `[shock_period, shock_period + shock_duration)`, `base` outside |
| DemandPatterns.ShockDemandFn | profiles-beergame/src/profiles_beergame/engine/demand_patterns.py:38-49 | the generator yields `shock_magnitude` in every period of the shock window and `base` in every other period |
| DemandPatterns.ShockSeries | profiles-beergame/src/profiles_beergame/engine/demand_patterns.py:38-49 | over n periods, shock demand is base, then the clamped shock window, then base again |
| DemandPatterns.NoShockWithoutDuration | profiles-beergame/src/profiles_beergame/engine/demand_patterns.py:46 | with a duration of 0 or less, every period yields `base` |
| DemandPatterns.NoisyDemand | profiles-beergame/src/profiles_beergame/engine/demand_patterns.py:33-34 | the result is never negative; it is `base + draw` unless that is negative, when it is 0 |
| DemandPatterns.NoisyDemandFn | profiles-beergame/src/profiles_beergame/engine/demand_patterns.py:28-35 | for every period the demand is never negative, never below `base + draw`, and equals `base + draw` unless it is 0 |
| DemandPatterns.NoisyDemandBounds | profiles-beergame/src/profiles_beergame/engine/demand_patterns.py:28-35 | for a draw in [−noise, noise] the demand lies in [max(0, base − noise), max(0, base + noise)] |
| PassivePipeline.DecideOrder | profiles-beergame/src/profiles_beergame/agents/passive_pipeline.py:10-12 | never negative; a positive order lifts on-hand plus on-order exactly to target + incoming + backlog; 0 exactly when the position already covers that |
| PassivePipeline.DecideOrderMonotone | profiles-beergame/src/profiles_beergame/agents/passive_pipeline.py:11 | the order does not fall with more incoming or backlog, and does not rise with more inventory or pipeline |
| PassivePipeline.DecideOrderDependsOnPosition | profiles-beergame/src/profiles_beergame/agents/passive_pipeline.py:10-12 | equal incoming, backlog, inventory and pipeline give equal orders |
| Inverter.ClampedTwice | profiles-beergame/src/profiles_beergame/agents/inverter.py:48-60 | the ideal `incoming + gap / 2` (kept doubled) is clamped into [last − rate, last + rate]: left alone when it is already inside, exactly last + rate when above, exactly last − rate when below, and last − rate for a negative rate |
| Inverter.TruncHalf | profiles-beergame/src/profiles_beergame/agents/inverter.py:66 | `int(x / 2)` truncates toward zero |
| Inverter.DecideOrder | profiles-beergame/src/profiles_beergame/agents/inverter.py:41-66 | never negative; `max(1, incoming)` when the clamped value is not positive under backlog; otherwise, with a non-negative rate, within the rate of the last order (floored at 0), the truncated ideal order whenever the limit does not bind, and exactly `max(0, last + rate)` or `max(0, last − rate)` when the ideal lies above or below the window (for a negative rate, always `max(0, last − rate)`) |
| ProductionSmoother.PushKeepsWindow | profiles-beergame/src/profiles_beergame/agents/production_smoother.py:43-45 | appending and dropping the oldest entry keeps the history equal to the last `window_size` orders, oldest first |
| ProductionSmoother.NonPositiveWindowEmptiesHistory | profiles-beergame/src/profiles_beergame/agents/production_smoother.py:43-47 | with a window of 0 or less the history is emptied (and the average would divide by zero), hence the constructor's precondition |
| ProductionSmoother.TruncDiv | profiles-beergame/src/profiles_beergame/agents/production_smoother.py:47-52 | `int(a / b)` for b > 0 is floored division for non-negative a |
| ProductionSmoother.TruncDivTowardZero | profiles-beergame/src/profiles_beergame/agents/production_smoother.py:47-52 | `int(a / b)` rounds toward zero: `q*b <= a < q*b + b` for non-negative a, `q*b - b < a <= q*b <= 0` for negative a, and negating a negates the quotient |
| ProductionSmoother.BacklogAdjustment | profiles-beergame/src/profiles_beergame/agents/production_smoother.py:50 | 0 without backlog, otherwise `min(2, backlog div 3)`; always in [0, 2] |
| ProductionSmoother.Production | profiles-beergame/src/profiles_beergame/agents/production_smoother.py:47-53 | at least `min_production`, at most `max_production` when the band is not empty; exactly the smoothed value when it lies in the band, exactly `min_production` when it is below the band or the band is empty, and exactly `max_production` when it is above a non-empty band |
| ProductionSmoother.UnclampedIsAveragePlusAdjustment | profiles-beergame/src/profiles_beergame/agents/production_smoother.py:47-52 | for non-negative orders the unclamped value is `sum(history) div len(history)` plus the backlog adjustment |
| ProductionSmoother.ProductionBelowPeak | profiles-beergame/src/profiles_beergame/agents/production_smoother.py:47-53 | without backlog and with the floor at most the largest order in the window, the order never exceeds that largest order |
| ProductionSmoother.ProductionSmootherAgent.constructor | profiles-beergame/src/profiles_beergame/agents/production_smoother.py:25-40 | stores the parameters and starts with an empty history; requires a window of at least 1 |
| ProductionSmoother.ProductionSmootherAgent.DecideOrder | profiles-beergame/src/profiles_beergame/agents/production_smoother.py:42-53 | the history becomes the last `window_size` incoming orders seen, including this one; the order is the clamped production of that window |
| RationalAnalyst.AnalystOrder | profiles-beergame/src/profiles_beergame/agents/rational_analyst.py:40-55 | never negative; at least incoming plus the gap to target; either 0 or exactly incoming plus the on-hand shortfall below target, and 0 only when that sum is not positive; for a non-negative incoming order always the latter |
| RationalAnalyst.IgnoresPipelineAndBacklog | profiles-beergame/src/profiles_beergame/agents/rational_analyst.py:51-54 | states that differ only outside incoming order and inventory give equal orders, so pipeline and backlog never matter |
| RationalAnalyst.OrdersMoreThanPassive | profiles-beergame/src/profiles_beergame/agents/rational_analyst.py:51-54 | with non-negative demand and no more backlog than pipeline, the analyst orders at least what order-up-to orders, and strictly more when the pipeline exceeds the backlog and something is needed |
| RationalAnalyst.RationalAnalystAgent.constructor | profiles-beergame/src/profiles_beergame/agents/rational_analyst.py:26-38 | stores the target, with no demand estimate yet |
| RationalAnalyst.RationalAnalystAgent.DecideOrder | profiles-beergame/src/profiles_beergame/agents/rational_analyst.py:40-55 | the estimate is overwritten with the incoming order, and the order is `AnalystOrder`, independent of earlier calls |
| Scenarios.PassiveSteadyState | tests/test_agents.py:63-68 | target 12, incoming 4, inventory 12, pipeline 4: no order |
| Scenarios.PassiveLowInventory | tests/test_agents.py:70-75 | target 12, incoming 4, inventory 5, nothing on order: 11 |
| Scenarios.PassiveSurplus | tests/test_agents.py:77-80 | inventory 20 and pipeline 10: 0 |
| Scenarios.InverterRateLimited | tests/test_agents.py:220-225 | empty stock and pipeline, last order 4: 7, within 4 of the last order |
| Scenarios.InverterOrdersUnderBacklog | tests/test_agents.py:227-231 | backlog 5, last order 0: a positive order (3) |
| Scenarios.AnalystDoubleOrders | tests/test_agents.py:153-166 | target 12, incoming 4, inventory 8, pipeline 10: the analyst orders 8 and order-up-to orders 0 |
| Scenarios.SpikeWindows | tests/test_agents.py:195-201 | the smoothed production of the windows [4], [4, 4], [4, 4, 4] and [4, 4, 20] in band [2, 15] is 4, 4, 4 and 9 |
| Scenarios.BandWindows | tests/test_agents.py:186-193 | in band [2, 15] the window [0] gives 2 and the window [0, 100] gives 15 |
| Scenarios.SteadyStart | tests/test_agents.py:195-201 | a fresh smoother with window 3 and band [2, 15] answers three orders of 4 with 4 each |
| Scenarios.SmootherDampsSpike | tests/test_agents.py:195-201 | window 3 and orders 4, 4, 4, 20 give 4, 4, 4, 9 |
| Scenarios.SmootherStaysInBand | tests/test_agents.py:186-193 | band [2, 15]: order 0 gives 2, then order 100 gives 15 |

## Left out

- Seasonal demand is not modelled: it uses `sin`.
- Noisy demand's random number generator is not modelled. The draw of each period is a parameter (`NoisyDemandFn` takes the stream of draws); only the clamp `max(0, base + draw)` is modelled.
- The DataFrame-or-list return of `run` is not modelled; the log is returned as a sequence of `LogRow` values.
- Costs are `real` products of the integer quantities, not floating-point numbers; no property is stated about them beyond how they are computed.
- `random_seed` is carried in the configuration but never used by the engine, as in the source.
- Every other policy of the system is modelled as an `Opaque` function of the snapshot, and its private memory is not modelled. These policies use floating-point multipliers, smoothing, random numbers, console input or Q-learning, none of which the engine depends on.
- The rational analyst's `smoothing > 0` branch is not modelled: it is floating-point exponential smoothing. The model fixes smoothing at 0, its default, where the estimate is the raw incoming order.
- Agents.DecideOrder: for the production smoother, only the floor `>= min_production` reaches the engine, because the engine's contract does not follow the smoother's history across periods; the smoother's full behaviour is stated by `ProductionSmoother.ProductionSmootherAgent.DecideOrder`.
- The smoother's average is a float truncated by `int()`. It is modelled as truncating integer division of the sum plus the adjustment times the window length. That equals the float result whenever the sum is exactly representable.
- The inverter computes `gap * 0.5` in floating point. The model keeps the doubled value as an exact integer and truncates toward zero, which equals `int()` of the float for the integer ranges a float represents exactly.
- Integer widths are not modelled: Python integers are unbounded, as Dafny's are.
- The `params` dictionary handed to policies is modelled as the record `CostParams(holding_cost, backlog_cost)`.
- DemandPatterns.NoisyDemandFn: the stream of draws is indexed by the period, so it matches the source's generator only for the first run that uses it. The source's random source keeps advancing across runs while the period restarts at 0, and a second `Run` of the model sees the same draws again.
- ProductionSmoother.ProductionSmootherAgent.constructor: requires a window of at least 1. In the source a window of 0 or less is accepted, and the first `decide_order` then empties the history and fails with a division by zero (production_smoother.py:43-47). That error path is not modelled; every caller in the repository passes a window of 2 or more.
- The policies' and generators' default arguments are not modelled as separate members, except the inverter's (`DefaultInverter`) and the configuration's (`DefaultConfig`). These defaults are step demand (4, 8, 20), shock demand (4, 10, 3, 12), noisy demand (4, 2, seed 42), the smoother (window 5, band 2 to 15) and the analyst (target 12, smoothing 0). A caller of the model passes these values explicitly.
