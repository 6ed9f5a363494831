# A verified model of the perpetual-futures trading bot

The bot trades one position per instrument through a venue that can lose acknowledgements, drop orders, delay fills and
fire stops on its own. This project models the parts where that is hard to get right and proves what they are for:

- **The order protocol** (`Routing`, `Runtime`, `Portfolio`, `Scheduling`). Each instrument has a six-state router driven
  by bars, a fast loop, fills, order updates, time-outs, the kill switch, reconciliation and restarts. A router call is a
  function from desk (router fields, venue account, database rows) to desk. The system moves by *micros*: one router call,
  one venue move, one operator or process action. All of the portfolio's entry points hold one lock, so each of them is
  a sequence of micros; `Scheduling` and `Portfolio.OnBarIsRun` prove that, including that the single snapshot an entry
  point reads at its start serves every router it calls. A statement about every sequence of micros is therefore
  stronger than one about portfolio runs.
- **The simulated venue** (`Sim`, `SimLaws`): average-cost accounting, funding, fees, reduce-only clamping, self-firing
  stops, scripted time-outs, rejects and drops, save and load.
- **Cold start and reconciliation** (`Runtime.RestartWorld`, `Recovery`, `ColdStart`, `Reconciliation`), runs with orders
  given up (`Adoptions`, `Books`) and crashes inside a send (`Crashes`).
- **The entry guards** (`Guards`, `Sizing`, `Exposure`, `Caps`) with entries in flight and every rounding step.
- **What a position is protected by** (`Protection`, `Placement`, `Standing`, `Decisions`): where stops stand over whole runs, and when
  each loop leaves a position.
- **What breaks, step by step** (`Stories`, `ZeroEntries`, `OrphanStops`, `Careless`, `ClusterGap`): concrete reachable
  runs that show a condition of a main theorem is needed.
- **The backtest** (`Harness`, `Backtest`, `PlainLedger`, `BacktestRules`, `Causality`, `EquityContinuity`) and its parity
  with router plus simulated venue (`Live`, `Parity`).
- **The hourly rollup and prune** (`Rollup`, `Spreads`) and **the token bucket** (`RateLimiter`).

Code that changes state step by step appears twice. The value functions say what a call does; the objects
(`SimVenue.SimExecutor`, `RouterObject.InstrumentRouter` and `Database`, `PortfolioObject.Trader`,
`BacktestEngine.Engine`, `TickStore.Tables`, `RateLimiter.TokenBucket`, the method `Reconciliation.Diff`) do it with the
source's fields, branches and loops, and each method is proved to move the object's value exactly as the function says.
What the source promises is then proved of the values, for all inputs and all runs.

Conventions:

- Decimals are `real`; the two places where the code quantizes are explicit (`FloorQ`, toward zero at 1e-8, and `Cents`,
  half to even). Times are integers.
- Client order ids are pairs of instrument and number; the run id is fixed. Tables are maps plus the insertion order the
  code depends on.
- Prices and marks are positive (`PriceOk`), which is all the feed's checks ask of a price by itself. The fixed order is at least a
  quantum exactly up to 1e10 (`Guards.EntryQuantity`). Above that, either the exposure guard divides by the zero quantity
  and the error ends the bar for the routers behind it, or an empty order goes out; both are modelled.
- A strategy is any step from its own state and the bars so far to a new state and a target, with a hook for
  "flattened"; the router clamps the target to [-1, 1]. Calls to strategy hooks are kept as a log.
- The simulated venue rests no order, so its book of resting orders is empty; the protocol lemmas that do not need this
  allow any venue account between calls.

## Findings

Each is a statement about the code as it stands, with its condition.

- **Orphan stops survive a restart.** Recovery puts a stop on every position but withdraws none, so right after a restart
  stops match positions exactly when no orphan stop existed before it (`StopCoverage.RestartKeepsOrphans`), and they match
  at every moment of a run with any number of restarts if and only if none of those restarts finds one
  (`StopCoverage.StopsMatchPositions`). A caller can check for that: before the first orphan is adopted, an orphan stop
  only exists while a fill of its instrument is undelivered, so a restart with no routed fill on its way is safe
  (`StopCoverage.SettledHasNoOrphan`, `SettledRestartsKeepStops`). The case is real: an exit fills, the process dies
  before the fill is delivered, and the stop stays (`OrphanStops.OrphanIsReachable`). The next reconcile pass removes it
  (`Reconciliation.OnePassConverges`).
- **Zero-quantity entries are sent.** A guard may resize an entry to nothing and the router sends it. An entry that
  survives the guards has a quantity exactly when its price is at most 1e10 and both guards' rooms hold a quantum's worth
  (`Sizing.EntrySizedExactly`). Two empty copies of an order can leave a stray empty fill that resets a later pending
  entry, after which a dropped order looks as if it had landed and a position is left without a stop. That happens at
  ordinary prices on an account that is nearly spent (`ZeroEntries.ZeroQuantityUncoversAPosition`). Stop coverage is
  therefore proved for runs whose bar calls each ask for an entry with a quantity, a condition on the call's own close,
  snapshot, entries in flight and side.
- **The liquidation-distance floor never decides.** At the limits set, it admits about 3.7 times equity, the leverage cap
  three times and the gross cap one (`Exposure.FloorNeverBinds`).
- **Late fills.** After the fill of a given-up order router and venue agree, up to the fills still on their way, exactly
  when those sum to zero (`Adoptions.LateFillAgreesExactly`), because each live one is added to a size that already
  holds it. Size conservation and stop coverage are therefore proved for runs, with any number of orders given up, in
  which no adoption comes while a live fill of its instrument is on its way. An entry that times out and is closed before
  its late fill arrives ends with a stop and no position (`Careless.LateFillLeavesAStop`).
- **Early clears.** An operator who clears a router while a fill of it is on its way can leave a position without a stop:
  the router enters again, and a dropped order looks as if it had landed (`Careless.EarlyClearUncoversAPosition`). Stop
  coverage asks that each clear comes with no fill of the instrument undelivered.
- **Equity continuity.** A backtest trade changes equity at its price by exactly minus its cost if and only if it is not a
  same-direction increase at a price other than the entry (`EquityContinuity.TradesAreFair`), because entries are averaged
  over notional, not over contracts.
- **Cluster net.** An entry's recorded notional can exceed quantity times mark by one quantum's worth. At a mark of 6e9
  that takes a cluster 40 past its cap of 300 in one bar with no order resized (`ClusterGap.ClusterNetPassesItsCap`), so
  the bound of `Caps.CapsHoldAcrossABar` carries that term. Where a quantum is worth at most half a cent at every close
  of the bar, the bound is the cap up to a cent per entry sent (`Caps.ClusterCapHoldsToTheCent`).
- **Late ticks and books.** A tick or book inserted into an hour no newer than the newest rolled hour, row or no row, is
  lost when the hour is pruned; `Rollup.LateTickIsLost` and `LateBookIsLost` say exactly when that shows. A retention
  below a day breaks the rollup and a day is enough (`Rollup.RetentionIsExact`).

## Model

| member | source | states |
|---|---|---|
| `Types.FloorQIsLargest` | polyperps/risk/portfolio_exposure.py:70 | quantizing to 1e-8 gives a whole number of quanta, and the largest such number not above the amount |
| `Types.CentsIsNearest` | polyperps/execution/order_router.py:55 | quantizing to cents gives a whole number of cents, none is nearer, and of two as near it is the even one |
| `Guards.EntryQuantity` | polyperps/execution/order_router.py:173 | the fixed-notional entry is never negative and has a quantity exactly at marks up to 1e10 |
| `Sizing.EntrySizedExactly` | polyperps/execution/order_router.py:173-183 | an entry that survives both guards has a quantity if and only if its mark is at most 1e10, the smaller of leverage and floor room is worth a quantum at the mark, and the smaller of gross and cluster room is worth one at notional per contract |
| `Exposure.NotionalAdds` | polyperps/risk/portfolio_exposure.py:45-46 | every position counts once, by its notional, wherever it stands in the list |
| `Exposure.ClusterAdds` | polyperps/risk/portfolio_exposure.py:47-53 | to its own cluster's net a long adds its notional and a short takes it off |
| `Exposure.EntryAdds` | polyperps/risk/portfolio_exposure.py:44-53 | an entry in flight counts like a position, a reduce-only order not at all |
| `Exposure.SharesCluster` | polyperps/risk/portfolio_exposure.py:25-26 | two instruments share a cluster when they are of the same known category, or neither is of a known one |
| `Exposure.SnapshotNotional` | polyperps/execution/sim_executor.py:197-210 | what a snapshot shows the guards adds up to each held instrument's contracts at its mark |
| `Exposure.LeverageVerdict` | polyperps/risk/liquidation_guard.py:64-87 | the leverage guard rejects exactly without equity or when three times equity or equity over 27% is used up, allows exactly when the whole entry fits under both, and else resizes to the most quanta that fit at the mark |
| `Exposure.FloorNeverBinds` | polyperps/risk/liquidation_guard.py:75-83 | at every positive equity the liquidation-distance floor admits more than the leverage cap, and that more than the gross cap |
| `Exposure.ExposureVerdict` | polyperps/risk/portfolio_exposure.py:29-70 | the exposure guard the same against equity and 60% of it within the cluster, at the entry's own price, and raises on resizing an entry without a quantity |
| `Guards.CostParts` | polyperps/backtest/costs.py:22-26 | a fill costs the fee, half the spread and an impact in proportion to its share of the notional, none of them negative |
| `Guards.CostGrows` | polyperps/backtest/costs.py:22-26 | the cost grows with the value traded and with each rate |
| `Sim.SnapshotPosition` | polyperps/execution/sim_executor.py:197-210 | the snapshot reports an instrument exactly when the account holds it, with its size, entry, notional at the mark and funding |
| `SimLaws.BookConserves` | polyperps/execution/sim_executor.py:138-154 | one fill booked through any branch (open, increase, reduce, close, flip) moves realised cash and cost basis so that cash minus basis changes by quantity times price |
| `SimLaws.FillEffect` | polyperps/execution/sim_executor.py:125-136 | a fill keeps the account well-formed and moves plain cash by price, quantity and fee, and only its own instrument |
| `SimLaws.FireStopEffect` | polyperps/execution/sim_executor.py:169-192 | a fired stop closes its whole position at the trigger, is gone afterwards, and moves cash like any fill |
| `SimLaws.FeeIsOnValue` | polyperps/execution/sim_executor.py:125-136 | a fill costs fee, half spread and impact on quantity times price |
| `SimLaws.FailuresInOrder` | polyperps/execution/sim_executor.py:98-103 | scripted failures are used up in order, and before the single one |
| `SimLaws.ReloadKeeps` | polyperps/execution/sim_executor.py:226-245 | save and load keep every open position, the total cost basis, cash, marks, stops and counter, and drop queue and failure script |
| `SimLaws.OpConserves` | polyperps/execution/sim_executor.py:77-192 | every operation moves plain cash and holdings by exactly the ledger lines it writes |
| `SimLaws.EquityIsPathIndependent` | polyperps/execution/sim_executor.py:77-210 | after any sequence of orders, failures, stops, funding, marks and restarts equity is starting cash plus the plain ledger plus holdings at the marks, and each holding is contracts bought minus sold |
| `SimVenue.SimExecutor.constructor` | polyperps/execution/sim_executor.py:49-77 | an account with its cash and nothing else |
| `SimVenue.SimExecutor.SetMark` | polyperps/execution/sim_executor.py:74-75 | sets one mark and nothing else |
| `SimVenue.SimExecutor.SettleFunding` | polyperps/execution/sim_executor.py:77-84 | longs pay positive funding on size times mark; a flat row pays nothing |
| `SimVenue.SimExecutor.ApplyPosition` | polyperps/execution/sim_executor.py:138-154 | the four branches leave exactly the average-cost position and realised cash |
| `SimVenue.SimExecutor.FillOrder` | polyperps/execution/sim_executor.py:125-136 | fee, position and cash of one fill, and the fill reported for it |
| `SimVenue.SimExecutor.Submit` | polyperps/execution/sim_executor.py:98-123 | one failure-script entry consumed; dropped, rejected, clamped, raised or executed, with the ack delivered or lost |
| `SimVenue.SimExecutor.CancelOrder` | polyperps/execution/sim_executor.py:156-157 | nothing rests, so nothing changes |
| `SimVenue.SimExecutor.SetStop` | polyperps/execution/sim_executor.py:159-163 | the stop table holds the trigger, all else as before |
| `SimVenue.SimExecutor.RemoveStop` | polyperps/execution/sim_executor.py:165-167 | the instrument's stop is gone, all else as before |
| `SimVenue.SimExecutor.CheckTriggers` | polyperps/execution/sim_executor.py:169-192 | fires exactly the reached stops of held positions, in listing order, and returns their fills unqueued |
| `SimVenue.SimExecutor.TakeSnapshot` | polyperps/execution/sim_executor.py:197-210 | views of exactly the open positions and equity as cash plus their unrealised profit |
| `SimVenue.SimExecutor.DrainEvents` | polyperps/execution/sim_executor.py:216-220 | every queued event, oldest first, and an empty queue |
| `SimVenue.SimExecutor.OpenPositions` | polyperps/execution/sim_executor.py:226-233 | what a save writes: exactly the non-zero positions, in order |
| `SimVenue.SimExecutor.Load` | polyperps/execution/sim_executor.py:235-246 | what a load restores, and that queue and failure script do not survive |
| `Accumulators.AccumulatorsAgree` | polyperps/execution/order_router.py:442-454 | for every sequence of fills the router's size and entry equal the venue's, with no entry exactly when flat |
| `Accumulators.HandlersAreTheAccumulators` | polyperps/execution/sim_executor.py:138-154 | the fill handler and the venue's fill are those two accumulators |
| `Accumulators.OrderRowIsExact` | polyperps/execution/order_router.py:308-320 | however an order is split into fills, its row holds the contracts filled, the price that pays for exactly them, and is filled precisely when they reach its quantity |
| `Delivery.SubmitExecutes` | polyperps/execution/sim_executor.py:109-123 | an order that reaches the book moves its own instrument by the clamped quantity and queues its update and its fill |
| `Delivery.SubmitFails` | polyperps/execution/sim_executor.py:104-112 | an order that does not reach the book changes no position, queue or stop and is never acknowledged |
| `Delivery.RecoveryTouches` | polyperps/execution/order_router.py:277-289 | a submission with its retry touches only its own instrument, queues only its own events and leaves size minus undelivered fills unchanged |
| `Delivery.AtMostOnce` | polyperps/execution/order_router.py:277-298 | if router and venue agree at the start, then under every script of time-outs, drops and rejects the position moves by zero or by exactly the clamped quantity, and it moves exactly when acknowledged |
| `Delivery.SendMovesOnce` | polyperps/execution/order_router.py:227-275 | the same read off the order row: the clamped quantity moves if the row ends accepted, nothing moves if it ends rejected, lost or in error |
| `Discipline.SendSteps` | polyperps/execution/order_router.py:227-275 | a send keeps rows in step with fields, uses a fresh order number and decision key, and touches nobody else's position, stop, row or given-up status |
| `Discipline.OnBarSteps` | polyperps/execution/order_router.py:142-190 | the same of every branch of the bar cycle |
| `Discipline.OnFastSteps` | polyperps/execution/order_router.py:201-224 | the same of the fast loop |
| `Discipline.ShutdownSteps` | polyperps/execution/order_router.py:479-492 | the same of the kill switch |
| `Discipline.CheckPendingSteps` | polyperps/execution/order_router.py:322-333 | the same of the pending time-out |
| `Discipline.HandleEventSteps` | polyperps/execution/order_router.py:374-440 | the same of every event |
| `Discipline.AdoptAndSettleEffect` | polyperps/execution/order_router.py:335-371 | adoption leaves the venue's size, entry and funding, a stop exactly when it is not zero - the one found, or one 15% from the venue's entry - recorded in the router, no pending order, a frozen state untouched, and exactly one hook: flattened, or recovered on the venue's side |
| `Decisions.BarDecides` | polyperps/execution/order_router.py:142-190 | a bar sends an exit of the whole size exactly when it asks an open router to leave, the guarded entry on the target's side exactly when it asks a flat one in under no pause, and else nothing; every bar that does not raise records one decision with the state before it |
| `Decisions.FastDecides` | polyperps/execution/order_router.py:201-224 | a fast tick exits the whole position exactly when the mark is within a quarter of itself of the price where margin at three times leverage is gone, or funding paid has reached 2% of the notional; liquidation freezes and sends nothing |
| `Decisions.MarginIs` | polyperps/risk/liquidation_guard.py:90-110 | that price is a third of the entry away less 2%, to the cent, and from its safe side a long leaves when three quarters of the mark are below it, a short when five quarters are above |
| `Decisions.SendOutcomes` | polyperps/execution/order_router.py:227-275 | an accepted order is waited for, a rejected one leaves the state as it was, a lost one halts, any other error halts at the venue's position |
| `Decisions.TimesOutExactly` | polyperps/execution/order_router.py:322-333 | a pending order is given up exactly after 30 seconds, and the router then holds what the venue holds |
| `Decisions.UpdateEffect` | polyperps/execution/order_router.py:375-388 | an update that ends the pending order puts the router back to open or flat unless frozen; any other only moves its order's row, and no terminal one |
| `Decisions.FillEffects` | polyperps/execution/order_router.py:402-430 | a fill that leaves the router flat clears entry, funding, stop and pending order, withdraws the venue stop and tells the strategy; no other does |
| `Decisions.SidesOfExit` | polyperps/execution/order_router.py:192-198 | an exit is reduce-only for the whole size against its sign, recorded at its value to the cent |
| `Decisions.HaltEffect` | polyperps/execution/order_router.py:472-477 | halting leaves nothing pending and a frozen router alone |
| `Runs.OrderIdsNeverRepeat` | polyperps/execution/order_router.py:105-118 | over any number of crashes between calls and restarts no decision key repeats and no client order id is used for two sends |
| `Crashes.NoIdIsSubmittedTwice` | polyperps/execution/order_router.py:227-246 | with crashes inside a send as well, after the decision row, the order row, the pending state, the first attempt or the retry, no client order id is submitted for two sends and no decision key repeats |
| `Runs.GivenUpIsForever` | polyperps/execution/order_router.py:384-400 | a given-up status never changes in any run against any venue |
| `Runs.GivenUpFillAdopts` | polyperps/execution/order_router.py:384-400 | a later fill of a given-up order leaves the venue's size at that moment, and a stop exactly when it is not zero |
| `Recovery.RestartEffect` | polyperps/execution/state_recovery.py:61-133 | after every restart each router has the venue's size, entry, funding and stop, or none of them when flat, its row says the same, every non-zero venue position - routed, frozen or unknown - has a stop, and frozen rows stay frozen |
| `ColdStart.RestartSettlesOrders` | polyperps/execution/state_recovery.py:112-133 | every order in flight is adopted if it rests and abandoned if not, a router waits exactly when its row was waiting and an order of it still rests, and of the resting orders exactly our own are left |
| `Conservation.RestartAgrees` | polyperps/execution/state_recovery.py:66-97 | a restart re-establishes size conservation from any store |
| `Conservation.FillAdds` | polyperps/execution/order_router.py:402-408 | a fill of an order the router stands by, or of none it knows, adds exactly its signed quantity |
| `Conservation.SizeConservation` | polyperps/execution/order_router.py:374-454 | in every reachable state in which no further order was given up, venue size is local size plus the signed sum of undelivered fills |
| `Adoptions.AdoptionsConserveSize` | polyperps/execution/order_router.py:322-400 | the same over runs with orders given up, lost, timed out or in error, as long as no adoption comes while a live fill of its instrument is on its way |
| `Adoptions.LateFillAgreesExactly` | polyperps/execution/order_router.py:389-400 | after the late fill of a given-up order router and venue agree up to the fills on their way if and only if those sum to zero |
| `Books.BooksConserved` | polyperps/execution/order_router.py:374-454 | size and entry conservation: replaying its undelivered fills on a router's size and entry gives the venue's size and entry, and with nothing on its way the two are the same |
| `StopCoverage.PositionsAreGuarded` | polyperps/execution/order_router.py:401-470 | over every run with restarts, given-up orders and operator clears, whose bar calls ask for entries with a quantity and whose adoptions and clears wait for the fills on their way, a position with no fill on its way has a venue stop |
| `StopCoverage.StopsMatchPositions` | polyperps/execution/order_router.py:401-470 | over such a run, restarts among it, a stop exists exactly where a position does at every moment if and only if no restart on the way finds an orphan stop |
| `StopCoverage.SettledHasNoOrphan` | polyperps/execution/state_recovery.py:73-97 | until an orphan was adopted, an orphan stop of a routed instrument means one of its fills is undelivered |
| `StopCoverage.SettledRestartsKeepStops` | polyperps/execution/state_recovery.py:73-109 | so stops match positions throughout a run whose restarts each come with no routed fill undelivered |
| `StopCoverage.NothingGivenUpIsCareful` | polyperps/execution/order_router.py:322-400 | a run in which no further order is given up and nothing is cleared meets the conditions on adoptions and clears |
| `StopCoverage.RestartKeepsOrphans` | polyperps/execution/state_recovery.py:73-109 | recovery guards every position; stops match positions right after it exactly when there was no orphan stop |
| `Protection.StopProtects` | polyperps/risk/liquidation_guard.py:97-99 | a stop stands within half a cent of 85% of a long's entry and 115% of a short's |
| `Protection.OnTheLosingSide` | polyperps/risk/liquidation_guard.py:97-99 | such a stop is on the losing side of every entry of four cents or more |
| `Placement.ReplacedStop` | polyperps/execution/order_router.py:456-470 | a fill's stop stands there from the router's entry, and the router records it |
| `Placement.GuardedPosition` | polyperps/execution/order_router.py:61-68 | reconciliation's stop stands there from the venue's entry |
| `Placement.RestartPlaces` | polyperps/execution/state_recovery.py:84-110 | after a restart each stop is one that stood before or stands there from the venue's entry |
| `Placement.FiresOnLoss` | polyperps/execution/sim_executor.py:169-192 | such a stop fires exactly when the mark has lost 15% of the entry, give or take the half cent |
| `Standing.PositionsAreProtected` | polyperps/execution/order_router.py:401-470 | over every run of exact stop coverage from a store whose stops stand in place, at every moment any stop under a position stands there from the venue's own entry, and a routed position with no fill on its way has one |
| `OrphanStops.OrphanIsReachable` | polyperps/execution/state_recovery.py:73-97 | a run of the portfolio's own bars that meets every hypothesis of stop coverage ends, after a restart, with a stop and neither a position nor a fill on its way |
| `ZeroEntries.ZeroQuantityUncoversAPosition` | polyperps/execution/order_router.py:173-183 | a run of the portfolio's own bars at ordinary prices that meets every other hypothesis of stop coverage but asks for an entry without a quantity, and ends with an unguarded position |
| `Careless.EarlyClearUncoversAPosition` | polyperps/execution/order_router.py:494-496 | a run of the portfolio's own bars that meets every other hypothesis but clears a router with its fill on the way ends with an unguarded position |
| `Careless.LateFillLeavesAStop` | polyperps/execution/order_router.py:389-400 | a run of the portfolio's own bars that meets every other hypothesis but adopts with a live fill on its way ends with a stop and no position, with no restart |
| `Freezing.FrozenIsAbsorbing` | polyperps/execution/order_router.py:144-146 | against any venue and through any run a halted or liquidated router keeps its state at every step until the operator clears it, and every order it sends is reduce-only |
| `Freezing.ReduceOnlyNeverOpens` | polyperps/execution/sim_executor.py:109-113 | a reduce-only order, retries included, never opens, grows or turns a position |
| `Portfolio.OnBarIsRun` | polyperps/execution/order_router.py:529-544 | the bar loop is a run of router calls |
| `Portfolio.ShutdownBarHalts` | polyperps/execution/order_router.py:565-585 | one shutdown bar halts every router and flattens each that was not waiting for an order |
| `Portfolio.ShutdownDrains` | polyperps/execution/order_router.py:565-585 | two shutdown bars, with any run between them, leave every routed instrument flat and halted from any reachable state, and it stays so through any later run without an operator clear |
| `Portfolio.SimNeverLiquidates` | polyperps/execution/sim_executor.py:208-210 | on the simulated venue no router ever reaches the liquidated state |
| `Scheduling.OnFastIsRun` | polyperps/execution/order_router.py:587-603 | a fast tick under one snapshot equals the run in which each call reads the venue afresh |
| `Scheduling.ShutdownIsRun` | polyperps/execution/order_router.py:565-585 | a shutdown bar under one snapshot is the run of shutdown calls the drain theorem is about |
| `Scheduling.PollIsRun` | scripts/run_trader.py:247-262 | firing all stops and then dispatching their fills equals dispatching each fill as its stop fires |
| `RouterObject.Database.InsertDecision` | polyperps/storage/db.py:505-512 | appends one decision row |
| `RouterObject.Database.UpsertOrder` | polyperps/storage/db.py:525-535 | a first write adds the row and its place in the listing; a later one keeps instrument, side, quantity and kind and replaces the rest |
| `RouterObject.Database.UpsertPosition` | polyperps/storage/db.py:561-570 | writes one position row and no other |
| `RouterObject.Database.UpdateStatus` | polyperps/execution/order_router.py:300-306 | a missing row stays missing; with skip-if-terminal a terminal status stays |
| `RouterObject.InstrumentRouter.constructor` | polyperps/execution/order_router.py:71-102 | a flat router with both counters at zero |
| `RouterObject.InstrumentRouter.LoadRow` | polyperps/execution/order_router.py:105-118 | takes the row and reseeds both counters past every number ever written |
| `RouterObject.InstrumentRouter.PersistRow` | polyperps/execution/order_router.py:120-124 | the position row equals the fields |
| `RouterObject.InstrumentRouter.RecordDecision` | polyperps/execution/order_router.py:134-139 | one decision under the next key, with the state before |
| `RouterObject.InstrumentRouter.RefreshStop` | polyperps/execution/order_router.py:456-470 | a stop at the stop distance from the entry, unless flat |
| `RouterObject.InstrumentRouter.GuardVenuePosition` | polyperps/execution/order_router.py:61-68 | a venue stop at the stop distance from the venue's entry price |
| `RouterObject.InstrumentRouter.AdoptVenue` | polyperps/execution/order_router.py:335-355 | the venue's size, entry and funding, a stop if it had none, no pending order |
| `RouterObject.InstrumentRouter.AdoptThenSettle` | polyperps/execution/order_router.py:357-371 | the same, then open or flat by size unless frozen, and the strategy hook |
| `RouterObject.InstrumentRouter.HaltNow` | polyperps/execution/order_router.py:472-477 | halted without a pending order; a frozen router is left alone |
| `RouterObject.InstrumentRouter.SubmitTwice` | polyperps/execution/order_router.py:277-289 | the two-attempt loop returns what the pure description of it returns, on the same account |
| `RouterObject.InstrumentRouter.WriteAhead` | polyperps/execution/order_router.py:227-242 | decision and order rows and the pending state are written before the order leaves |
| `RouterObject.InstrumentRouter.SendOrder` | polyperps/execution/order_router.py:227-275 | rows, submission and conclusion of a send |
| `RouterObject.InstrumentRouter.ConcludeSend` | polyperps/execution/order_router.py:249-275 | what an error, a lost ack, a reject or an ack does to row, state and size |
| `RouterObject.InstrumentRouter.ExitNow` | polyperps/execution/order_router.py:192-198 | a reduce-only order for the whole size against its sign |
| `RouterObject.InstrumentRouter.BarClosed` | polyperps/execution/order_router.py:142-190 | every branch of the bar cycle, and whether the guards raised |
| `RouterObject.InstrumentRouter.FastTick` | polyperps/execution/order_router.py:201-224 | liquidation, vanished position, liquidation-distance exit, funding exit |
| `RouterObject.InstrumentRouter.ShutDown` | polyperps/execution/order_router.py:479-492 | flatten the venue's size unless pending, then halt |
| `RouterObject.InstrumentRouter.ClearHaltNow` | polyperps/execution/order_router.py:494-496 | open or flat by size |
| `RouterObject.InstrumentRouter.AdoptPendingOrder` | polyperps/execution/order_router.py:498-506 | the resting order's bookkeeping is restored; any state but a pending one is refused |
| `RouterObject.InstrumentRouter.CheckTimeout` | polyperps/execution/order_router.py:322-333 | after the time-out the order is given up and the venue's size adopted, not before |
| `RouterObject.InstrumentRouter.Recover` | polyperps/execution/state_recovery.py:61-97 | one router's cold start |
| `RouterObject.InstrumentRouter.BookFill` | polyperps/execution/order_router.py:442-454 | the router's own average-cost rule |
| `RouterObject.InstrumentRouter.AccumulateFill` | polyperps/execution/order_router.py:308-320 | filled quantity accumulates and a terminal status is never downgraded |
| `RouterObject.InstrumentRouter.OnUpdate` | polyperps/execution/order_router.py:375-388 | order updates, with given-up and terminal rows protected |
| `RouterObject.InstrumentRouter.OnFill` | polyperps/execution/order_router.py:389-408 | fills: foreign, late, or booked and settled |
| `RouterObject.InstrumentRouter.Settle` | polyperps/execution/order_router.py:409-440 | entry landed, flattened, frozen, later partial, or unexpected |
| `RouterObject.InstrumentRouter.OnEvent` | polyperps/execution/order_router.py:374-440 | the event handler |
| `PortfolioObject.Trader.DispatchEvent` | polyperps/execution/order_router.py:609-620 | a fill to its router, an update to every router |
| `PortfolioObject.Trader.EntriesInFlight` | polyperps/execution/order_router.py:540-543 | exactly the pending entries of the other instruments |
| `PortfolioObject.Trader.BarsClosed` | polyperps/execution/order_router.py:529-544 | the bar loop under one snapshot, entries in flight recomputed per router; guards that raise end it, and the caller learns so |
| `PortfolioObject.Trader.ShutdownAll` | polyperps/execution/order_router.py:565-585 | the shutdown loop over every router |
| `PortfolioObject.Trader.FastTickAll` | polyperps/execution/order_router.py:587-603 | the two loops of a fast tick |
| `PortfolioObject.Trader.PollStops` | scripts/run_trader.py:247-262 | stops fire, then their fills are dispatched |
| `PortfolioObject.Trader.Recover` | polyperps/execution/state_recovery.py:46-133 | the four loops of a cold start leave exactly the restarted world |
| `PortfolioObject.Trader.RecoverAll` | polyperps/execution/state_recovery.py:61-97 | every router takes the venue's position |
| `PortfolioObject.Trader.GuardOthers` | polyperps/execution/state_recovery.py:99-110 | unknown venue positions get a stop |
| `PortfolioObject.Trader.SettleInFlight` | polyperps/execution/state_recovery.py:112-129 | in-flight orders are adopted when resting, abandoned otherwise |
| `PortfolioObject.Trader.Reconcile` | polyperps/execution/order_router.py:630-685 | the pass answers exactly the mismatches of one snapshot |
| `PortfolioObject.MissingReportedOnce` | polyperps/execution/reconciliation.py:43-69 | no instrument is reported twice as missing its stop |
| `Reconciliation.Diff` | polyperps/execution/reconciliation.py:35-69 | the three loops list the mismatches instrument by instrument, stop by stop, order by order |
| `Reconciliation.DiffExact` | polyperps/execution/reconciliation.py:35-69 | a mismatch is reported if and only if it holds of the rows and the venue |
| `Reconciliation.OnePassConverges` | polyperps/execution/order_router.py:630-685 | after one pass stops stand on exactly the non-zero positions, every settled router with a size mismatch is frozen, no size moved, and a second comparison reports only size and stop drift |
| `Caps.EntryFits` | polyperps/execution/order_router.py:173-183 | an entry that leaves fits under the leverage, floor and gross caps at its worth, and its recorded notional brackets its worth |
| `Caps.CapsHoldAcrossABar` | polyperps/execution/order_router.py:529-544 | after one portfolio bar positions plus entries in flight are within the larger of each cap and the total before, up to half a cent per resized order; likewise each cluster's net, up to half a cent and a quantum's worth per order |
| `Caps.ClusterCapHoldsToTheCent` | polyperps/execution/order_router.py:529-544 | where a quantum is worth at most half a cent at every close of the bar, each cluster's net is within the larger of its cap and the net before, up to a cent per entry sent |
| `ClusterGap.ClusterNetPassesItsCap` | polyperps/risk/portfolio_exposure.py:60-70 | a bar with no order resized takes the recorded net exactly to the cap of 300 and the actual net to 340 |
| `Backtest.LedgerLaw` | polyperps/backtest/harness.py:112-266 | cash is trade profits plus ledger cash deltas, gains times notional sum to the last equity, and positions never change sign without zero |
| `PlainLedger.LedgerTellsAll` | polyperps/backtest/harness.py:95-203 | whoever reads the ledger row by row, buying and selling contracts at its prices, has at each row the equity it shows, and at the end the cash, position, closing profits, traded values, equity curve and unfilled count the backtest reports |
| `BacktestRules.TradeCostsItsContracts` | polyperps/backtest/harness.py:176-192 | a trade writes one row at its price and costs the fill cost of its contracts at that price |
| `BacktestRules.FundingIsOnContracts` | polyperps/backtest/harness.py:216-221 | longs pay positive funding on their contracts at the close, into cash and the position's funding alike |
| `BacktestRules.StopClosesAtTrigger` | polyperps/backtest/harness.py:208-214 | a position is stopped out inside a bar exactly when the bar reaches a trigger 15% against it, and at that trigger |
| `BacktestRules.GuardExitsExactly` | polyperps/backtest/harness.py:231-235 | a position leaves at the close exactly when the close is too near the price where its margin is gone, or its funding has reached 2% of its value |
| `BacktestRules.FillIsPricedBy` | polyperps/backtest/harness.py:241-262 | a fill is priced at its minute's close, else the newest close before it that is fresh enough, else the next open, else not at all |
| `BacktestRules.MinuteIs` | polyperps/backtest/harness.py:242-243 | a fill falls in the whole minute that holds its time |
| `BacktestRules.FillIsCounted` | polyperps/backtest/harness.py:241-262 | each fill asked for is counted under the one source that priced it |
| `BacktestRules.StepEndsWithMark` | polyperps/backtest/harness.py:197-264 | every bar of the loop ends with one mark at the next bar's opening time and close, which extends the equity curve |
| `EquityContinuity.TradesAreFair` | polyperps/backtest/harness.py:150-195 | a trade changes equity at its price by exactly minus its cost if and only if it is no same-direction increase away from the entry |
| `Causality.HeldSeesPrices` | polyperps/backtest/harness.py:223-226 | a held position always sees a priced bar |
| `Causality.PrefixRunsArePrefixes` | polyperps/backtest/harness.py:205-264 | a run on a prefix of the bars, with later minute closes removed, gives prefixes of ledger, equity curve and trades |
| `BacktestEngine.Engine.constructor` | polyperps/backtest/harness.py:88-93 | an empty book and empty results |
| `BacktestEngine.Engine.EquityAt` | polyperps/backtest/harness.py:95-101 | cash plus unrealised profit at the price, if there is one |
| `BacktestEngine.Engine.LogRow` | polyperps/backtest/harness.py:146-148 | one ledger row |
| `BacktestEngine.Engine.MarkAt` | polyperps/backtest/harness.py:197-203 | equity point, gain and ledger row |
| `BacktestEngine.Engine.LegTo` | polyperps/backtest/harness.py:156-182 | entry, realised profit, traded value and contracts of a trade |
| `BacktestEngine.Engine.BookLeg` | polyperps/backtest/harness.py:183-189 | the book and the result lists after a trade |
| `BacktestEngine.Engine.Trade` | polyperps/backtest/harness.py:150-195 | one trade: open, increase, reduce or close |
| `BacktestEngine.Engine.StopFirst` | polyperps/backtest/harness.py:208-214 | the intrabar stop |
| `BacktestEngine.Engine.PayFunding` | polyperps/backtest/harness.py:216-221 | funding on the position's value at the close |
| `BacktestEngine.Engine.ProtectiveExit` | polyperps/backtest/harness.py:231-235 | the router's protective exits at the close |
| `BacktestEngine.Engine.FillTo` | polyperps/backtest/harness.py:241-262 | the fill-price fallbacks and their counters |
| `BacktestEngine.Engine.Decide` | polyperps/backtest/harness.py:237-262 | the clamped target, a flip turned into an exit, and its fill |
| `BacktestEngine.Engine.BarStep` | polyperps/backtest/harness.py:205-264 | one iteration of the loop |
| `BacktestEngine.Engine.RunAll` | polyperps/backtest/harness.py:112-266 | the whole backtest |
| `Parity.SameTrades` | tests/test_parity.py:57-114 | backtest and router on the simulated venue make the same trades (time, side, quantity) through stops, funding exits, liquidation-distance exits, gap exits and flips |
| `Parity.RunParity` | tests/test_parity.py:57-114 | at every bar both are flat, or both hold the same side at the same entry with the venue stop in place and funding in proportion |
| `Rollup.RollupIsInvisible` | scripts/prune.py:54-57 | after any interleaving of inserts and rollup-then-prune runs every bar over every window is the bar of the never-pruned raw rows |
| `Rollup.RunAgrees` | polyperps/storage/db.py:439-473 | along every such run each hour answers as the full tables do, from its row or from its raw rows |
| `Rollup.RetentionIsExact` | scripts/prune.py:54-57 | maintenance preserves this from every agreeing state if and only if the retention is at least a day |
| `Rollup.LateTickIsLost` | polyperps/storage/db.py:449-453 | a native tick inserted behind the newest rolled hour is lost at the prune, and exactly when the difference shows |
| `Rollup.LateBookIsLost` | polyperps/storage/db.py:449-453 | a book inserted behind the newest rolled hour is lost at the prune: the spread answered is the median without it, which is the raw answer exactly when the row is one-sided or leaves the median where it was |
| `Spreads.SpreadIsTopOfBook` | polyperps/storage/db.py:382-390 | a two-sided book has the spread between its highest bid and lowest ask in basis points of their mean; a one-sided one has none |
| `Spreads.SpreadsOfWindow` | polyperps/storage/db.py:393-428 | the spreads of a window are those of its two-sided books, one each |
| `Spreads.MedianIsMiddle` | polyperps/storage/db.py:431-436 | the median is the middle of the elements in order, or the mean of the two middle ones |
| `Spreads.IndexIsNewest` | polyperps/storage/db.py:350-379 | an hour's index close is that of the native tick in it that every other is older than |
| `Spreads.MarkIsNewest` | polyperps/storage/db.py:456-464 | the mark an hour opens at is that of the newest native tick from an hour before up to two seconds into it |
| `Spreads.BarsOfWindow` | polyperps/backtest/bars.py:59-121 | one bar per hour of the window, each with its own candle, the funding settled at its end and the median spread of its own books |
| `Spreads.WalkIsExact` | polyperps/storage/db.py:445-469 | a run writes a row for an hour exactly when it is not before the resume point, has been over for five minutes and has something to say |
| `Spreads.InsertsKeepKeys` | polyperps/storage/db.py:143-176 | an insert keeps the key of source and time, touches no row, and stores the new one exactly when its key is free |
| `Spreads.PruneIsExact` | scripts/prune.py:27-51 | a prune keeps exactly the rows at or after the cutoff |
| `TickStore.Tables.constructor` | polyperps/storage/db.py:24-40 | empty tables |
| `TickStore.Tables.AddTick` | polyperps/storage/db.py:143-151 | insert or ignore on the primary key |
| `TickStore.Tables.AddBook` | polyperps/storage/db.py:168-176 | insert or ignore on the primary key |
| `TickStore.Tables.RolledHours` | polyperps/storage/db.py:333-347 | the column's values for exactly the hours fully inside the window |
| `TickStore.Tables.LastIndexByHour` | polyperps/storage/db.py:350-379 | every hour's index close, from the rollup when covered, else the newest native tick in the window |
| `TickStore.Tables.BookRuns` | polyperps/storage/db.py:403-418 | ascending stretches holding exactly the hours that need the book table |
| `TickStore.Tables.SpreadsByHour` | polyperps/storage/db.py:393-428 | every hour's spreads, from the rollup as a list of one, else the two-sided books in the window |
| `TickStore.Tables.ReadBooks` | polyperps/storage/db.py:418-427 | one read of a stretch fills exactly its hours' lists |
| `TickStore.Tables.ReadHour` | polyperps/storage/db.py:456-466 | index close, median spread and open mark of one hour |
| `TickStore.Tables.Collect` | polyperps/storage/db.py:445-469 | the rows a rollup has to write: one per closed hour from the resume point that has something to say |
| `TickStore.Tables.RollUp` | polyperps/storage/db.py:439-473 | one row per closed hour that has none and has something to say, all reads before the first write, and the number inserted |
| `TickStore.Tables.WriteRows` | polyperps/storage/db.py:470-473 | rows whose hour is taken are ignored |
| `TickStore.Tables.Prune` | scripts/prune.py:27-51 | batch by batch, exactly the rows before the cutoff are deleted and counted |
| `TickStore.Tables.Run` | scripts/prune.py:54-57 | roll up, then prune; the number of hours rolled and rows deleted |
| `TickStore.Tables.BuildBars` | polyperps/backtest/bars.py:59-121 | one bar per hour of the window from candles, funding, index closes and spread medians |
| `RateLimiter.TokenBucket.Create` | polyperps/exchange/rate_limiter.py:16-34 | refuses a rate that is not positive and a burst below one |
| `RateLimiter.TokenBucket.RefillAt` | polyperps/exchange/rate_limiter.py:36-39 | tokens earned since the last refill, at most the burst |
| `RateLimiter.TokenBucket.Acquire` | polyperps/exchange/rate_limiter.py:41-51 | one token taken, after the wait the bucket computed |
| `RateLimiter.TakeKeepsSane` | polyperps/exchange/rate_limiter.py:41-51 | tokens stay in range after every acquire, and no more is granted than time earns |
| `RateLimiter.WaitIsLeast` | polyperps/exchange/rate_limiter.py:45-49 | the wait is the least after which a refill finds a whole token |
| `RateLimiter.RateBound` | polyperps/exchange/rate_limiter.py:36-51 | with a monotone clock and honest sleeps, any window of length d holds at most burst plus rate times d acquires |

## Left out

- Live and shadow venue adapters, SDK clients, the dashboard, deployment and key management: network and foreign code. A
  micro `Venue` puts any account in place of the simulated one where a statement does not need the simulation.
- `ShadowRefused` and the branches that only run on the shadow adapter.
- Alerts, their text and their transition ladders; the funding-drift check; the recovery report. No property depends on
  them.
- SQLite, JSON and ISO-8601 text: tables are values, timestamps integers. The order in which the book query returns rows
  is not modelled, since only the median of a list is ever taken; rows of one instrument are modelled, since every query,
  insert and delete names one.
- Newest-tick ties: where two native ticks share an hour's newest timestamp the source may take either; the model takes
  the one stored last.
- The decimal context's 28-digit rounding and binary floating point in the token bucket: arithmetic is over `real`.
- `asyncio` scheduling: a locked call is one step. Crashes inside a send are in `Crashes`, for order numbers; every other
  statement has restarts between steps.
- A recovery that raises (a venue position with entry price zero or below): a venue account here has positive entries.
- A snapshot or funding payment of a held instrument without a mark raises in the source; no reachable account has one.
- Strategy signals, statistics and the counters `fills` and `max_last_trade_age_min` of the backtest result.
- Orders restored by recovery carry no intent and are not counted in flight, as in the source.
- Conservation.SizeConservation: excludes runs in which a further order is given up; Adoptions.AdoptionsConserveSize allows
  them, and Adoptions.LateFillAgreesExactly says what a late fill then does
- StopCoverage.PositionsAreGuarded: excludes adoptions with a live fill of the instrument on its way, operator clears with
  any fill of it on its way, and bar calls that ask for an entry without a quantity; Careless.EarlyClearUncoversAPosition
  and ZeroEntries.ZeroQuantityUncoversAPosition show the last two are needed
- StopCoverage.StopsMatchPositions: excludes the same runs; Careless.LateFillLeavesAStop shows the condition on adoptions is
  needed
- Standing.PositionsAreProtected: starts from a store whose stops, where they stand under positions, stand in place; recovery
  keeps whatever stop it finds
- Runs.OrderIdsNeverRepeat: counts ids as decided, with crashes between calls; Crashes.NoIdIsSubmittedTwice counts them as
  submitted, with crashes inside a send
- Caps.CapsHoldAcrossABar: the cluster bound carries a quantum's worth per order, which ClusterGap.ClusterNetPassesItsCap
  shows is needed; an order adopted by recovery without its intent weighs nothing
- Parity.SameTrades: prices up to 1e10, one instrument, warm-up 0, targets in {-1, 0, +1}, next open equal to close, no
  minute closes, as the source's parity test sets up
- Rollup.RollupIsInvisible: inserts go into hours newer than every written one, and a book's key is not used again after
  its row was pruned
- RouterObject.Database.InsertDecision: the row has no target, verdicts, note or time
- RouterObject.InstrumentRouter.RecordDecision: the decision keeps no target, verdicts, note or time
- RouterObject.InstrumentRouter.RefreshStop: the venue refusing the stop, which only the shadow adapter does
- RouterObject.InstrumentRouter.AdoptVenue: the venue refusing the stop, which only the shadow adapter does
- RouterObject.InstrumentRouter.ConcludeSend: the status for a send the shadow adapter refused, and the exchange's order id
- RouterObject.InstrumentRouter.GuardVenuePosition: the error on a venue entry price that is not positive
- PortfolioObject.Trader.Recover: the failure report and the re-raise of a recovery that fails
- PortfolioObject.Trader.Reconcile: writes the shadow adapter refuses, and their once-only report
- BacktestEngine.Engine.LogRow: the row's note
- BacktestEngine.Engine.BookLeg: the counter of fills
- BacktestEngine.Engine.FillTo: the age of the oldest last trade and the notes on the fill source
- BacktestEngine.Engine.RunAll: parameters, bar counts and those two counters in the result
- TickStore.Tables.RollUp: one instrument's rows
- TickStore.Tables.Prune: one instrument's rows, so no loop over instruments
- TickStore.Tables.Run: one instrument's rows
