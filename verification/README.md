# Backtest ledger, recorded-fill replay and comparator

A Dafny model of the grid-trading backtester, of the replay that drives it with recorded live
executions, of the comparator that joins both sides afterwards, and of two small companions: the
round-robin position fetch and the reference bot's price grid.

**Exchange and ledger.** `OrderBook` and `OrderManager` hold simulated orders, `FillSimulator` decides
when the market fills them, `PositionTracker` keeps one direction of a hedged position, `Session` the
running totals and the equity curve (`Drawdown` says what its one-pass drawdown means). `Runner` ties
them together for one strategy; `Engine` runs several strategies on one session with funding
(`Funding`) and the wind-down; `Desks` says what a simulated tick does to one strategy's market, book
and script, and `Holdings` what several strategies' positions come to.
`CloseGate` holds the arithmetic of the gate on closing orders.

**Replay.** `RecordedStream` is the forward cursor over recorded executions and the choice of the
simulated order each belongs to. Applied slices gather in one roll-up per (client id, exchange order)
and become trades at four triggers; `Lifecycle` (over `Ledger`) has the invariants of that migration.
`ReplaySteps` gives one recorded row, one intent, one flush, one sweep and one tick as functions of a
state of book, lifecycles, strategy, positions and wallet; `Runner` has the drain loop with its flushes,
proved to compute these functions, and `Replay` the whole run.

**Comparator.** `Loader` groups live executions, numbers reused client ids and sorts; `Matcher` joins
the two sides; `PairOrder` says which recorded order a numbered trade belongs to; `Parity` draws the
end-to-end conclusions and `Phantom` their converse; `Pairing` and
`PositionMetrics` pair position snapshots; `Resampling` buckets two curves (the session's own resampler
meets the same specification).

**Companions.** `PositionFetcher` is the fetch rotation, `Greed` (with `Rounding`) the price grid.

Conventions. Money is `real`, time `int` microseconds (the fetch rotation uses `real` seconds). An
object that the program updates in place is a class whose methods are proved against functions of the
old state; what the program promises is then proved about those functions and about the invariants the
methods keep. The strategy engine and the quantity calculator are an oracle (`Strategy`): every event
is answered from a script that is fixed in advance but otherwise arbitrary, so a result for every
script is a result for every strategy. A client id determines side and direction, and an order is
reduce-only exactly when it closes. Ghost fields record what the program does not: original order
quantities and slices, applied rows, rows in flight, the prices of accepted ticks, and whether some
lifecycle was flushed while it still had rows (`premature`) or received a slice after its flush
(`reopened`).

Main results, hardest first:

1. Recorded money is conserved through every applied row, flush, cancel and tick
   (`Runner.BacktestRunner.MoneyIsConserved`, kept by every method of the runner), and a whole replay
   ends with trades that hold exactly the applied slices, order by order, and with positions that are
   the run of those slices (`Replay.ReplayEngine.Run`).
2. The drain loop ends for every strategy and leaves only rows that no order of the final book can
   take; over a run every row up to the last tick is applied once or counted as live-only
   (`Runner.BacktestRunner.DrainLoop`, `Replay.ReplayEngine.Run`).
3. Phantom trades, exactly. A comment in the source says that the comparison of a recorded-fill replay
   has no backtest-only trade "by construction" (apps/backtest/src/backtest/runner.py:737-739). For
   every strategy, and however often client ids are reused, this holds when no lifecycle was flushed
   while it had rows left, and so whenever no two recorded rows share a lifecycle, that is, when every
   recorded order was filled in one execution (`Parity.CompareReplay`). Otherwise it does not hold for
   every strategy: for each stream with two such rows, reused client ids included, `Phantom.Provoke`
   runs the modelled replay of that stream with a strategy that makes the comparison report one. Where
   no client id is reused, a given run reports one exactly when a flushed lifecycle was reopened.
4. Replay meets live, client id by client id. When all orders of a client id were applied whole, each
   has at most one trade and they follow each other in time, the n-th pair of the id is its n-th
   recorded order on both sides, and the two agree in quantity, fee, profit and volume-weighted price:
   reuse does not mix orders up, whatever happened to other client ids (`Parity.PairIsOrder`,
   `Parity.CompareReplay`).
5. The close gate holds over whole runs: of the slices that moved a position over a replay, every close
   was strictly smaller than what it met (`Replay.ReplayEngine.Run`), so none was clamped, none used the
   position up, and the size is exactly what was opened less what was closed
   (`ReplaySteps.NothingIsClamped`).
6. In simulator mode a run is a chain of rounds, one for each tick: from where the round before left
   every strategy, funding is charged when due, each direction moves by the full fills of exactly the
   orders that the market filled, the equity point is the initial balance plus what the strategies are
   then worth, and every strategy's answer to the tick is executed over the orders left resting, sized
   at the balance of that point. Market, book, script and fills are thus determined, tick by tick, by
   the start. The final balance is the last point less the fees of closing
   (`Engine.BacktestEngine.Run`).
7. The greedy pairing of snapshots has maximum cardinality (`Pairing.GreedyIsMaximum`).

## Model

| member | source | states |
|---|---|---|
| Replay.ReplayEngine.Run | apps/replay/src/replay/engine.py:622-676 | for any ticks and any strategy: stops early only when the clock runs backwards or a recorded row with a non-positive price is applied; otherwise the rows up to the last tick were each applied once (pro-rated) or counted live-only, trades hold the applied slices key by key, totals equal their sums, nothing is pending or open, every applied row carries fee and profit in proportion to its applied quantity, every trade has side, direction, time and execution id of slices of its order, each position is where the slices of its direction took it and each closing slice was smaller than what it met, a recorded order with two trades means a reopened lifecycle, which needs two recorded rows of it and a premature flush; the run is a chain of one stage for each tick, funded at the first tick of each slot, every equity point is that of its stage, and the final state, flags and roll-ups included, is the sweep of the last one |
| Replay.ReplayEngine.ProcessTick | apps/replay/src/replay/engine.py:622-662 | one stage of that chain: funding, recorded fills, the sweep of finished lifecycles, equity, orders, each the specified function of the state before; the equity point equals initial balance plus booked, pending and open profit even after a cancel flushed a lifecycle; the clock error is exactly a tick older than the last |
| Replay.ReplayEngine.ApplyFunding | apps/replay/src/replay/engine.py:642-649 | positions and wallet settle funding exactly when it is due, and the slot is marked |
| Replay.ReplayEngine.MarkEquity | apps/replay/src/replay/engine.py:654-659 | one equity point at the last price: what the applied slices, funding and the open positions are worth, and the balance becomes that |
| Replay.ReplayEngine.SlicesAreHeld | apps/backtest/src/backtest/runner.py:820-847 | once no roll-up is open, trades and applied slices have the same totals for every key and overall |
| ReplaySteps.HistoryPush | apps/replay/src/replay/engine.py:622-662 | a stage that starts where the run stands, in state and in stream, extends the run |
| ReplaySteps.LeadsFurther | apps/backtest/src/backtest/runner.py:472-543 | paths of passes join into one path of the tick |
| Runner.BacktestRunner.constructor | apps/backtest/src/backtest/runner.py:122-275 | seeded orders and positions are taken as they are: a fresh runner satisfies every invariant if and only if the seeds fit an order book and the gate holds for them |
| Runner.BacktestRunner.MoneyIsConserved | apps/backtest/src/backtest/runner.py:684-696 | session total plus pending equals the sum of all applied slices, for profit and for fees, in every state the runner passes through between steps |
| Runner.BacktestRunner.ProcessRecordedFills | apps/backtest/src/backtest/runner.py:448-564 | one recorded tick: cursor at the tick, rows partitioned, leftovers unmatchable by the final book and counted, every open roll-up still has rows left, all invariants kept; the path of states from before to the last row, its rows starting with the window, and after it exactly the sweep; the clock error exactly, the price error only with such a row |
| Runner.BacktestRunner.DrainLoop | apps/backtest/src/backtest/runner.py:472-543 | passes repeat to a fixpoint; terminates for any oracle; no leftover matches any order of the final book; the rows tried and the states passed are a path of the row relation |
| Runner.BacktestRunner.DrainPass | apps/backtest/src/backtest/runner.py:478-540 | a progressing pass shrinks the buffer; a pass without progress leaves the book unchanged and every row stuck; no row is lost or duplicated |
| Runner.BacktestRunner.TryRow | apps/backtest/src/backtest/runner.py:479-537 | a row makes progress exactly when some order can take it; then the whole state is that of the row step `ReplaySteps.RowStep` for the order the row selects; otherwise nothing changes; the error is exactly a takeable row with a non-positive price |
| Runner.BacktestRunner.TakeFromBook | apps/backtest/src/backtest/order_manager.py:339-439 | the applied part is min(recorded, remaining) of the chosen order and is owed to the trackers until they see it, so the close gate still holds |
| Runner.BacktestRunner.ApplyAndReact | apps/backtest/src/backtest/runner.py:505-537 | slice, trigger-1 flush, then the reaction: the state is that of the row step, and a lifecycle whose order was used up is no longer open |
| Runner.BacktestRunner.React | apps/backtest/src/backtest/runner.py:514-537 | the oracle is told of the fill, asked once more, and its answer executed: the whole state, every order sized at the balance in force |
| Runner.BacktestRunner.DrainTick | apps/backtest/src/backtest/runner.py:465-543 | window into flight, then the fixpoint; which errors, and when |
| Runner.BacktestRunner.DrainTo | apps/backtest/src/backtest/runner.py:465-470 | each window takes exactly the rows up to the tick, none twice, none skipped |
| Runner.NextWindow | apps/backtest/src/backtest/fill_simulator.py:425-455 | consecutive windows of a sorted stream are contiguous, so the left-edge filter drops nothing |
| Runner.BacktestRunner.ApplyRecordedFillRow | apps/backtest/src/backtest/runner.py:566-682 | one slice moves the position of its direction by exactly its fill, joins its lifecycle as `Lifecycle.AfterApply` says and shows in the pending wallet; lifecycles stay conserved and settled, positions keep following the slices |
| ReplaySteps.FollowsOn | apps/backtest/src/backtest/runner.py:587-603 | a position that is the run of its direction's slices, each close inside it, stays so under the next slice |
| ReplaySteps.NothingIsClamped | apps/backtest/src/backtest/position_tracker.py:237-262 | when every close is smaller than what it meets, the size is what was opened less what was closed and no close empties the position |
| Runner.BacktestRunner.Gather | apps/backtest/src/backtest/runner.py:605-623 | the roll-up dictionary and the order index after a slice |
| Runner.BacktestRunner.SetSessionPending | apps/backtest/src/backtest/runner.py:684-696 | pending profit and fees are the sums over open roll-ups |
| Runner.BacktestRunner.MaybeFlushAggregatedTrade | apps/backtest/src/backtest/runner.py:698-729 | which trigger flushes what; the wallet never notices; the premature flag is raised exactly by trigger 1 or 3 on an open lifecycle with rows left |
| Runner.BacktestRunner.FlushAggregatedTrade | apps/backtest/src/backtest/runner.py:731-792 | money moves from pending to total, the wallet value is unchanged for every mark, lifecycle invariants are kept |
| Runner.BacktestRunner.RecordRollup | apps/backtest/src/backtest/runner.py:746-781 | one trade per flush, roll-up removed, index entries of its orders dropped |
| Runner.BacktestRunner.FlushPostFixpoint | apps/backtest/src/backtest/runner.py:794-818 | the sweep: every lifecycle without rows left is flushed, every other one stays as it is, premature flag or not; afterwards every open roll-up has undrained rows or leftovers |
| Runner.BacktestRunner.EndTick | apps/backtest/src/backtest/runner.py:545-564 | the sweep, the pending wallet and the live-only count after the drain loop, as one function of the state |
| Runner.BacktestRunner.LeftIs | apps/backtest/src/backtest/runner.py:803-812 | the two guards of that flush together are exactly "rows are left" |
| Runner.BacktestRunner.FinalizeEventFollower | apps/backtest/src/backtest/runner.py:820-847 | the final sweep: no roll-up stays open, pending is zero, wallet value and positions are unchanged |
| Runner.BacktestRunner.GiveToTracker | apps/backtest/src/backtest/runner.py:587-603 | a fill reaches the tracker of its order's direction only; a close is strictly smaller than the position and leaves some of it; the gate holds for what is still owed |
| Runner.BacktestRunner.GateAfterFill | apps/backtest/src/backtest/runner.py:928-976 | the gate for both directions after the next owed fill |
| Runner.BacktestRunner.Place | apps/backtest/src/backtest/runner.py:877-926 | the book after a place intent; exactly one order is added, with the calculator's quantity at the balance, if and only if that is positive, the client id is unused and, for a close, the position exceeds everything reserved plus the new quantity; the gate is kept |
| ReplaySteps.ClosesAreRefusedForTheGate | apps/backtest/src/backtest/runner.py:928-962 | where the gate holds, a close is refused if and only if placing it would break the gate |
| Runner.BacktestRunner.Cancel | apps/backtest/src/backtest/runner.py:904-926 | the lifecycle is flushed before its order leaves the book, and neither is open afterwards: the whole state; wallet value and gate are kept |
| Runner.BacktestRunner.DispatchIntents | apps/backtest/src/backtest/runner.py:877-926 | in a replay the state is the fold of the intents, each sized at the balance the flushes before it left; without one the book is their fold at the session's balance and nothing else changes; the wallet value never changes |
| Runner.BacktestRunner.ExecuteTick | apps/backtest/src/backtest/runner.py:849-875 | the oracle's answer to the tick is dispatched with the sizing in force: the whole state; positions and wallet value unchanged |
| Runner.BacktestRunner.ProcessSimulatedFills | apps/backtest/src/backtest/runner.py:410-446 | every order the market reached is filled once, becomes one trade and moves its own tracker by exactly its fill; the grid is told of each; market, book and script exactly; the session books what the trackers book |
| Runner.BacktestRunner.ProcessFill | apps/backtest/src/backtest/runner.py:989-1043 | one market fill: one trade with the execution's figures and the tracker's profit, one tracker moved, session minus trackers unchanged |
| Runner.BacktestRunner.TickMovesCash | apps/backtest/src/backtest/runner.py:434-446 | over a tick, profit at any mark less open value grows by the cash the direction's fills moved |
| Runner.BacktestRunner.ApplyFunding | apps/backtest/src/backtest/runner.py:1671-1686 | the session receives (short size - long size) times price and rate; a long's paid funding rises by its size times price and rate, a short's falls; the session books the sum the trackers book |
| ReplaySteps.FundedInMoney | apps/backtest/src/backtest/runner.py:1671-1686 | the same of the replay's state: longs pay, shorts receive, and the wallet gets the difference |
| Holdings.FundedPlaceInMoney | apps/backtest/src/backtest/engine.py:369-380 | the same of one strategy's positions in simulator mode |
| Holdings.DuesAreOnNetSize | apps/backtest/src/backtest/engine.py:369-380 | all strategies together pay on the size they are net long |
| CloseGate.PlacingKeepsGate | apps/backtest/src/backtest/runner.py:928-962 | the check before a close is placed keeps reserved quantity zero or strictly below the position |
| CloseGate.CloseStaysInside | apps/backtest/src/backtest/position_tracker.py:237-262 | a close within the gate is never clamped and never reaches zero |
| CloseGate.RemovingKeepsGate | apps/backtest/src/backtest/order_manager.py:188-206 | cancelling keeps the gate |
| CloseGate.FillingOwes | apps/backtest/src/backtest/order_manager.py:383-419 | a full or partial fill turns reserved close quantity into owed close quantity, one for one |
| CloseGate.ReportsOwe | apps/backtest/src/backtest/order_manager.py:299-313 | what the market fills in a tick owes what those orders reserved |
| Lifecycle.ApplyKeepsLife | apps/backtest/src/backtest/runner.py:605-623 | applying a slice keeps conservation per key, one open roll-up per key, sound index entries, side, direction, time and execution id from slices of the key, "repeated key iff reopened" and "reopened only if two recorded rows share a key" |
| Lifecycle.FlushKeepsLife | apps/backtest/src/backtest/runner.py:746-781 | a flush keeps all of these |
| Lifecycle.ApplyKeepsSettled | apps/backtest/src/backtest/runner.py:794-818 | without a premature flush no slice ever reaches a flushed lifecycle |
| Lifecycle.FlushKeepsSettled | apps/backtest/src/backtest/runner.py:794-818 | a flush with no rows left, or one marked premature, keeps that |
| Lifecycle.TradeKeepsAmounts | apps/backtest/src/backtest/runner.py:746-773 | the volume-weighted price times the quantity is the roll-up's notional: the trade carries the roll-up's amounts |
| Lifecycle.TwoRowsOfKey | apps/backtest/src/backtest/runner.py:605-623 | a row taken before and a row in flight under one key are two rows of the stream |
| Parity.CompareReplay | apps/replay/src/replay/engine.py:719-741 | replay, load both sides, match: whatever the strategy does and however often client ids are reused, no backtest-only trade unless some lifecycle was flushed too early, and none when no two recorded rows share a lifecycle; with no client id reused, none exactly when no lifecycle was reopened; for every client id whose orders were applied whole, one after the other, each pair is one recorded order and agrees |
| Parity.NoPhantomTrades | apps/comparator/src/comparator/matcher.py:48-70 | at most one trade per recorded order leaves nothing unmatched on the backtest side |
| Parity.TradesPerClient | apps/comparator/src/comparator/loader.py:119-142 | then no client id has more trades than live groups |
| Parity.PhantomsAreRepeats | apps/comparator/src/comparator/matcher.py:54-70 | without reused ids, backtest-only is empty if and only if no recorded order has two trades |
| Parity.PairAgrees | apps/comparator/src/comparator/loader.py:147-196 | a live and a backtest trade of one recorded order agree in quantity, fee, profit and price when its rows were applied whole and it has one trade |
| Parity.PairIsOrder | apps/comparator/src/comparator/matcher.py:48-70 | for a client id whose orders were applied whole and follow each other in time, a pair is the same recorded order on both sides, its number is the number of the id's earlier orders, and both sides agree in quantity, fee, profit and price |
| Parity.WholeOrderHasTrade | apps/backtest/src/backtest/runner.py:746-781 | a recorded order whose rows were all applied has a trade at the end of the replay |
| PairOrder.NumberIsRank | apps/comparator/src/comparator/loader.py:57-73 | when the orders of a client id follow each other in time, the number a trade is given is the number of earlier orders of its id, on either side |
| PairOrder.RanksDiffer | apps/comparator/src/comparator/loader.py:57-73 | two orders of one client id have different ranks, so a number names one order |
| Phantom.Provoke | apps/backtest/src/backtest/runner.py:731-792 | the converse for all streams, reused client ids included: if some recorded order was filled in two parts, there is a strategy whose replay of that stream reopens its lifecycle and compares with a backtest-only trade |
| Phantom.SecondRowReopens | apps/backtest/src/backtest/runner.py:478-537 | along any path of rows, an order of small quantity that is placed again after each fill makes the second row of a lifecycle reopen it |
| Phantom.RowsOnBait | apps/backtest/src/backtest/runner.py:478-537 | along any path of rows, with an order of small quantity that is placed again after each fill, a client id has at least as many trades as rows that took the order |
| Phantom.RowOnBait | apps/backtest/src/backtest/runner.py:479-537 | one row either finds no order or uses up the small order, becomes a trade at once, and the order is placed again |
| Phantom.FewerOrders | apps/comparator/src/comparator/loader.py:119-127 | a client id has at most as many live groups as rows, and fewer when two rows share a group |
| Parity.TradeEqualsRows | apps/comparator/src/comparator/loader.py:147-196 | a recorded order with one trade whose rows were applied whole: quantity, volume, fee and profit equal the live aggregate |
| RecordedStream.EventFollower.Drain | apps/backtest/src/backtest/fill_simulator.py:425-455 | cursor after the drain, exactly the rows younger than the left edge, in stream order, error exactly on a tick older than the last |
| RecordedStream.EventFollower.HasPendingForOrder | apps/backtest/src/backtest/fill_simulator.py:457-465 | the constant-time test agrees with a scan of the undrained tail |
| RecordedStream.EventFollower.Match | apps/backtest/src/backtest/fill_simulator.py:467-539 | no match exactly when no active order can take the row; otherwise the order with the client id, else the one with the exchange id, else one on the side that no other is closer in price than; the keys it reports |
| RecordedStream.ClientPrefix | apps/backtest/src/backtest/fill_simulator.py:467-539 | the link id up to its first dash, nothing when that is empty |
| RecordedStream.EventFollower.ClosestOnSide | apps/backtest/src/backtest/fill_simulator.py:511-530 | the fallback is the closest price on the side, smaller id on ties |
| ReplaySteps.StuckInBook | apps/backtest/src/backtest/fill_simulator.py:467-539 | a linked row is stuck exactly when no active order has its client id, another one exactly when none has its exchange id or its side |
| OrderManager.BacktestOrderManager.PlaceOrder | apps/backtest/src/backtest/order_manager.py:76-127 | refused exactly on a duplicate client id; otherwise a new id and the whole new book |
| OrderManager.BacktestOrderManager.SeedActiveOrders | apps/backtest/src/backtest/order_manager.py:129-186 | the first seed under each exchange id becomes active, nothing else is checked: the whole book, which is sound exactly when the seeds fit |
| OrderManager.SeedingIsSound | apps/backtest/src/backtest/order_manager.py:161-186 | seeds with different exchange ids give a sound book if and only if quantities are positive, client ids differ and no id is of simulated form |
| OrderManager.BacktestOrderManager.CancelOrder | apps/backtest/src/backtest/order_manager.py:188-206 | succeeds exactly for active ids; the whole new book |
| OrderManager.BacktestOrderManager.CheckFills | apps/backtest/src/backtest/order_manager.py:248-337 | exactly the reached orders are filled in full at their limits, in order, for the commission on that, the others stay in place: the whole book and market; for each mode, in prices, what every filled order met and no resting one does |
| FillSimulator.ModesByPrice | apps/backtest/src/backtest/fill_simulator.py:219-302 | the four modes price by price: strict past the limit, at-limit reaching it, book touch by ask for buys and bid for sells while there is a book, last cross only from the far side |
| FillSimulator.StricterModes | apps/backtest/src/backtest/fill_simulator.py:219-302 | a strict fire is exactly one at the limit at another price than the limit, and a last-cross fire is one at the limit |
| OrderManager.BacktestOrderManager.ApplyRecordedFill | apps/backtest/src/backtest/order_manager.py:339-439 | ignored exactly for unknown ids or empty rows; the applied part is all that the order can still take; fee and profit are to the row's as the applied quantity is to the row's; excess counter and the whole new book |
| OrderManager.PartIsProportional | apps/backtest/src/backtest/order_manager.py:390-397 | part times recorded quantity equals amount times applied quantity |
| ReplaySteps.SlicesAreProportional | apps/backtest/src/backtest/order_manager.py:390-397 | the same for every applied row of a replay, with the notional at the row's price |
| OrderBook.PlacingKeepsBook | apps/backtest/src/backtest/order_manager.py:104-127 | placing keeps the book invariant: every order held once, dedup set exact, quantities add up, ids ahead |
| OrderBook.CancellingKeepsBook | apps/backtest/src/backtest/order_manager.py:188-206 | cancelling keeps it |
| OrderBook.FillingKeepsBook | apps/backtest/src/backtest/order_manager.py:299-313 | filling keeps it: placed quantity equals applied slices exactly when the order leaves as filled |
| OrderBook.PartFillingKeepsBook | apps/backtest/src/backtest/order_manager.py:379-419 | a partial fill keeps it: placed equals applied plus remainder, and the remainder stays positive |
| OrderBook.IdsAreUnique | apps/backtest/src/backtest/order_manager.py:104-127 | an active order's id occurs nowhere else in the book |
| OrderIds.SimIdInjective | apps/backtest/src/backtest/order_manager.py:110-112 | different counter values give different order ids, at any length |
| OrderIds.SimIdRoundTrip | apps/backtest/src/backtest/order_manager.py:110-112 | the counter can be read back from the zero-padded id |
| OrderIds.LessIsLexicographic | apps/backtest/src/backtest/fill_simulator.py:511-530 | the tie-breaking order of ids: the first different character decides, beginnings come first |
| OrderIds.SimIdShape | apps/backtest/src/backtest/order_manager.py:110-112 | the prefix and at least eight digits |
| FillSimulator.CrossingIsCaught | apps/backtest/src/backtest/fill_simulator.py:275-302 | from beyond the limit to reached, some tick in between fires |
| FillSimulator.FiresAreSeparated | apps/backtest/src/backtest/fill_simulator.py:275-302 | between two fires at one limit the price went back beyond it |
| FillSimulator.FiresAlternateWithReturns | apps/backtest/src/backtest/fill_simulator.py:275-302 | fires and returns beyond the limit alternate over any path |
| FillSimulator.TradeThroughFillSimulator.AdvanceMarket | apps/backtest/src/backtest/fill_simulator.py:134-160 | repeated or non-positive ticks change nothing; otherwise the slots describe the extended price path |
| FillSimulator.TradeThroughFillSimulator.LastCrossFiresOnCrossings | apps/backtest/src/backtest/fill_simulator.py:275-302 | right after an accepted tick the mode fires exactly where the path crosses |
| PositionTracker.CashFlowIdentity | apps/backtest/src/backtest/position_tracker.py:154-287 | over any fills, realised plus unrealised profit less signed value grows by the signed cash flow of the clamped fills |
| PositionTracker.CashFlowFromFlat | apps/backtest/src/backtest/position_tracker.py:154-287 | the same from flat; size never negative, average entry zero exactly when flat |
| PositionTracker.FillMovesCash | apps/backtest/src/backtest/position_tracker.py:154-262 | the one-fill case of the identity |
| PositionTracker.FilledInMoney | apps/backtest/src/backtest/position_tracker.py:154-262 | an opening fill keeps entry times size equal to the money put in, a closing one realises the price difference on what is there to close, both pay commission on their whole value |
| PositionTracker.CountersTrackRealized | apps/backtest/src/backtest/position_tracker.py:183-201 | the running counter follows realised profit over any fills |
| PositionTracker.CycleCounterIsProfitSinceReopening | apps/backtest/src/backtest/position_tracker.py:183-201 | the cycle counter is the profit realised since the last opening fill on a flat position |
| PositionTracker.PositionTracker.ProcessFill | apps/backtest/src/backtest/position_tracker.py:154-201 | error exactly on non-positive price or quantity; otherwise the state function, and the returned profit |
| PositionTracker.PositionTracker.AddToPosition | apps/backtest/src/backtest/position_tracker.py:219-235 | weighted average entry |
| PositionTracker.PositionTracker.ReducePosition | apps/backtest/src/backtest/position_tracker.py:237-262 | clamped close; flat resets the entry |
| PositionTracker.PositionTracker.CalculateUnrealizedPnl | apps/backtest/src/backtest/position_tracker.py:264-287 | the documented profit formula, cached |
| PositionTracker.PositionTracker.ApplyFunding | apps/backtest/src/backtest/position_tracker.py:346-379 | a long pays size times price and rate, a short receives it; booked with the opposite sign, nothing else changes |
| PositionTracker.LongsPayShortsReceive | apps/backtest/src/backtest/position_tracker.py:346-379 | with a positive rate a long's payment is negative and a short's positive, and paid funding moves by exactly that |
| PositionTracker.PositionTracker.SeedState | apps/backtest/src/backtest/position_tracker.py:112-152 | size, entry and carried counters restored, window totals zero |
| Session.BacktestSession.RecordTrade | apps/backtest/src/backtest/session.py:225-235 | running totals stay the totals of the recorded trades |
| Session.BacktestSession.UpdateEquity | apps/backtest/src/backtest/session.py:367-425 | one point with the wallet value; the one-pass drawdown fields keep describing all points |
| Session.BacktestSession.Finalize | apps/backtest/src/backtest/session.py:450-511 | final balance; maximum drop over all pairs; longest run below the peak, one still open included |
| Session.BacktestSession.ResampleEquity | apps/backtest/src/backtest/session.py:619-654 | the single-curve resampler meets the two-curve bucket specification with an empty second curve |
| Drawdown.AdvanceDescribes | apps/backtest/src/backtest/session.py:398-411 | one step of the one-pass tracking keeps it equal to the definitions over all pairs and all runs |
| Engine.BacktestEngine.ProcessTick | apps/backtest/src/backtest/engine.py:335-367 | one round: funding, exactly the orders the market reached filled and reported, the equity point, then every strategy's answer executed over the orders left resting at that point's balance; books, scripts and markets afterwards are those functions; the session received the funding due; the point is initial balance plus all trackers' total profit, which is what the new positions are worth at the tick's price |
| Engine.BacktestEngine.Run | apps/backtest/src/backtest/engine.py:138-216 | a chain of one round for each tick from the starting positions, books, scripts and markets, funding at the first tick of each slot; the strategies end with the last round's books and scripts, and their filled orders are exactly those of the rounds; every equity point equals initial balance plus the worth of the round's positions; the final balance is the last point less the fees of closing and equals initial balance plus all trackers' total profit; fails exactly when close-all meets an open position at a non-positive last price; close-all otherwise leaves every position flat; drawdown as defined |
| Engine.BacktestEngine.FilledAreThose | apps/backtest/src/backtest/engine.py:138-216 | over a run the filled orders of a book are those of the rounds, in order, whatever was placed and cancelled in between |
| Engine.BacktestEngine.WindDown | apps/backtest/src/backtest/engine.py:382-414 | closing at the last price costs the fees of all positions and nothing else, and the books still agree; fails exactly on a non-positive last price with some position open |
| Engine.ForceClosePosition | apps/backtest/src/backtest/engine.py:416-467 | closes in full with one trade: open profit becomes booked profit less the fee; session minus trackers unchanged; the error case is exact |
| Engine.BacktestEngine.MarkEquity | apps/backtest/src/backtest/engine.py:355-362 | unrealised profit is recomputed over all strategies before the point is taken: initial balance plus what all positions are worth at that price |
| Engine.BacktestEngine.ApplyFunding | apps/backtest/src/backtest/engine.py:369-380 | every strategy's positions are charged, and the session pays price times rate on the size all strategies are net long |
| Engine.BacktestEngine.ProcessFills | apps/backtest/src/backtest/engine.py:350-353 | strategy by strategy, exactly the reached orders are filled and reported, and each direction moves by its share of them |
| Engine.BacktestEngine.ExecuteTicks | apps/backtest/src/backtest/engine.py:364-367 | every strategy's book is the fold of its answer to the tick over the orders it has, each sized at the session's balance, and its script has moved on; positions and session stay |
| Engine.BacktestEngine.CalculateTotalUnrealized | apps/backtest/src/backtest/engine.py:495-503 | the final unrealised figure makes session and trackers agree |
| Engine.BacktestEngine.ReportedIsWorth | apps/backtest/src/backtest/position_tracker.py:381-388 | what the trackers report as total profit is what the positions have booked plus what they hold open at the last valuation |
| Funding.SevenHoursSeparateSlots | apps/backtest/src/backtest/engine.py:68-79 | the seven-hour test refuses exactly a second application in one slot |
| Funding.FundingSimulator.ShouldApplyFunding | apps/backtest/src/backtest/engine.py:55-79 | exactly in every eighth hour, except within seven hours of an application in the same hour of the day |
| Funding.AppliedAtFirstTickOfSlot | apps/backtest/src/backtest/engine.py:55-83 | funding is applied at a tick exactly when it is the first tick of a funding slot |
| Funding.ApplicationsCountSlots | apps/backtest/src/backtest/engine.py:55-83 | there are as many applications as distinct funding slots visited |
| Loader.AssignOccurrences | apps/comparator/src/comparator/loader.py:57-73 | in place: each trade gets the number of earlier trades with its id |
| Loader.KeysAreUnique | apps/comparator/src/comparator/loader.py:57-73 | (client id, occurrence) is unique per source |
| Loader.NumbersAreGapless | apps/comparator/src/comparator/loader.py:57-73 | an id with m trades has exactly the numbers below m |
| Loader.NumbersFollowTime | apps/comparator/src/comparator/loader.py:136-139 | reuses of one id are numbered in time order |
| Loader.GroupByOrder | apps/comparator/src/comparator/loader.py:119-127 | one group for each (client id, order id) in order of first rows, holding exactly its rows in order |
| Loader.AggregateFills | apps/comparator/src/comparator/loader.py:147-196 | the one trade of a group: summed amounts, volume-weighted price, latest time, direction opening exactly when profit is zero |
| Loader.LoadLive | apps/comparator/src/comparator/loader.py:85-145 | exactly the aggregated groups, sorted and numbered; nothing is lost, client id by client id |
| Loader.LoadBacktest | apps/comparator/src/comparator/loader.py:205-232 | exactly the normalized session trades, sorted and numbered, each with the figures, side and direction of a session trade; nothing is lost |
| Loader.SortSorts | apps/comparator/src/comparator/loader.py:139 | order by time, client id and side |
| Loader.SortIsPermutation | apps/comparator/src/comparator/loader.py:139 | sorting keeps every trade |
| Loader.SortedByKey | apps/comparator/src/comparator/loader.py:139 | what that order means: earlier time first, then smaller client id, then buys before sells |
| Matcher.MatchingLosesNothing | apps/comparator/src/comparator/matcher.py:48-70 | each live trade is in exactly one pair or live-only, each backtest trade likewise; pairs share their key; the counts add up |
| Matcher.PairsPerClient | apps/comparator/src/comparator/matcher.py:48-70 | an id with m live and n backtest trades gets exactly min(m, n) pairs |
| Matcher.NoBacktestOnly | apps/comparator/src/comparator/matcher.py:58-70 | backtest-only is empty if and only if no id has more backtest than live trades |
| Matcher.InOrder | apps/comparator/src/comparator/matcher.py:62-68 | keys are reported in ascending order, each once |
| Pairing.GreedyIsMaximum | apps/comparator/src/comparator/position_metrics.py:218-262 | no one-to-one pairing within the tolerance, crossing or not, has more pairs than the greedy one |
| Pairing.GreedyIsMatching | apps/comparator/src/comparator/position_metrics.py:218-262 | the greedy claims are themselves such a pairing, of that size |
| Pairing.ClaimsAdvance | apps/comparator/src/comparator/position_metrics.py:218-262 | claims are order-preserving and one-to-one |
| Pairing.ClaimsAreClose | apps/comparator/src/comparator/position_metrics.py:218-262 | every claim is within the tolerance |
| PositionMetrics.PositionComparator.PairSide | apps/comparator/src/comparator/position_metrics.py:218-262 | exactly one row per backtest snapshot, in order, built from the live row it claims within the tolerance; differences are backtest less live; a row is flagged when sizes or entries differ by more than their tolerances, and not when both are flat |
| PositionMetrics.PositionComparator.RowSays | apps/comparator/src/comparator/position_metrics.py:110-190 | both deltas of a row in prices, and exactly when it is flagged as diverged or as missing telemetry |
| PositionMetrics.PositionComparator.PairAndCompare | apps/comparator/src/comparator/position_metrics.py:199-216 | rows of the buys, all on that side, then rows of the sells, as many as backtest snapshots |
| PositionMetrics.MatchedRowsAreAMaximumPairing | apps/comparator/src/comparator/position_metrics.py:199-262 | on sorted snapshots the matched rows of a side are as many as any pairing can have |
| PositionMetrics.PositionComparator.FoldMetricsInto | apps/comparator/src/comparator/position_metrics.py:264-310 | compared, diverged and unmatched partition the rows; diverged rows are left out of the deltas |
| PositionMetrics.PositionComparator.SumFinalDeltas | apps/comparator/src/comparator/position_metrics.py:340-397 | the sum of the last delta seen on each side |
| PositionMetrics.FinalDeltaIsLast | apps/comparator/src/comparator/position_metrics.py:340-397 | the final delta of a side is the last one recorded there, zero when there is none |
| Resampling.ResampleRange | apps/comparator/src/comparator/equity.py:123-154 | the index loops equal the per-bucket specification and end for any positive interval |
| Resampling.Resample | apps/comparator/src/comparator/equity.py:101-154 | the same over the range of both curves; nothing for two empty curves |
| Resampling.EveryPointIsReported | apps/comparator/src/comparator/equity.py:123-154 | every point lies in a bucket whose row carries the last value of its curve there |
| Resampling.RowsAscend | apps/comparator/src/comparator/equity.py:123-154 | rows are strictly ascending and never empty |
| Resampling.LastInIsLast | apps/comparator/src/comparator/equity.py:123-154 | the value of a bucket is that of the last point in it, and none exactly when it is empty |
| PositionFetcher.PositionFetcher.FetchPositionsRotationTick | apps/gridbot/src/gridbot/position_fetcher.py:544-577 | the offset loop picks what the specification picks and moves the rotation as it says, whether or not the fetch raises; a fetched account was idle for the interval and for fifteen seconds per account, and nobody is fetched only when no account was |
| PositionFetcher.FetchesAreFloorApart | apps/gridbot/src/gridbot/position_fetcher.py:550-573 | from the end of one fetch of an account to the start of the next at least the floor passes |
| PositionFetcher.FetchedSoon | apps/gridbot/src/gridbot/position_fetcher.py:555-575 | an eligible account is fetched within as many further ticks as it is places away, hence within one turn |
| Greed.BuiltShape | bbu_reference/bbu2-master/greed.py:18-41 | 2 * (n / 2) + 1 lines: buys, one wait line, sells |
| Greed.BuiltRises | bbu_reference/bbu2-master/greed.py:18-41 | a fresh grid never falls while its buy lines stay positive, for any step and any tick, and all its prices are fixed by rounding |
| Greed.BuiltRisesExactly | bbu_reference/bbu2-master/greed.py:18-41 | it never falls if and only if there is at most one line on each side or the first buy line is not negative |
| Greed.BuiltRisesStrictly | bbu_reference/bbu2-master/greed.py:18-41 | it rises strictly when a step exceeds a tick at the close and at every line |
| Greed.SellsAreAStepApart | bbu_reference/bbu2-master/greed.py:26-31 | every sell line is a step above the one before it, within half a tick |
| Greed.BuysAreAStepApart | bbu_reference/bbu2-master/greed.py:33-38 | every buy line is a step below the next one, within half a tick |
| Greed.RemarkingSeparates | bbu_reference/bbu2-master/greed.py:57-63 | on a strictly rising grid no sell ends below a buy, whatever the marks were |
| Greed.Greed.MarkLines | bbu_reference/bbu2-master/greed.py:57-63 | a positive line waits exactly when it is closer to the last fill than a quarter of the step, otherwise sells above the close and buys below it; fails exactly on a line at zero |
| Greed.RecentringKeepsMarks | bbu_reference/bbu2-master/greed.py:68-94 | re-centring keeps the number of lines and never puts a sell below a buy |
| Greed.RecentringKeepsOrder | bbu_reference/bbu2-master/greed.py:68-94 | it keeps the price order if and only if buys do not outweigh sells or the new top line is not below the old one; a sell on top is enough |
| Greed.RecentringCanBreakOrder | bbu_reference/bbu2-master/greed.py:72-89 | a grid of three lines built at 4 and re-marked once has no sell left, and re-centring puts a sell at zero on top |
| Greed.LoseOrder | bbu_reference/bbu2-master/greed.py:49-66 | the program itself loses the order: build, update, and the next update fails on the line at zero |
| Greed.UpdateKeepsGrid | bbu_reference/bbu2-master/greed.py:49-66 | one update inside the grid: same number of lines, no sell below a buy, order kept if and only if the same condition holds after marking |
| Greed.Greed.BuildGreed | bbu_reference/bbu2-master/greed.py:18-41 | the loops equal the specified grid, also around existing lines |
| Greed.Greed.UpdateGreed | bbu_reference/bbu2-master/greed.py:49-66 | rebuild outside the grid, mark, re-centre; errors exactly on an empty grid or a line at zero, and then the prices are unchanged |
| Greed.Greed.CenterGreed | bbu_reference/bbu2-master/greed.py:68-94 | one pass of counting; a line is moved up exactly when buys exceed sells by more than three tenths of both, down in the opposite case |
| Greed.BaseIsKeptInside | bbu_reference/bbu2-master/greed.py:49-56 | the grid is rebuilt exactly when the close does not lie strictly between two lines |
| Rounding.RoundPriceIsMonotone | bbu_reference/bbu2-master/bybit_api_usdt.py:482-488 | rounding keeps order |
| Rounding.RoundPriceIsNear | bbu_reference/bbu2-master/bybit_api_usdt.py:482-488 | rounding moves a price by at most half a tick and half of the last decimal |
| Rounding.TiesGoToEven | bbu_reference/bbu2-master/bybit_api_usdt.py:482-488 | halfway between two integers the even one is taken |
| Rounding.RoundPriceSeparates | bbu_reference/bbu2-master/bybit_api_usdt.py:482-488 | prices more than a tick apart stay apart |
| Rounding.RoundPriceIsIdempotent | bbu_reference/bbu2-master/bybit_api_usdt.py:482-488 | a rounded price is left alone |

## Left out

- Runner.BacktestRunner.ProcessRecordedFills: the stream is sorted and not older than the start, as the query that reads it guarantees; nothing is said of the state after a refused price, which ends the run.
- Phantom.Provoke: recorded prices and quantities are positive, and rows without a link id are on the side of their exchange order, as an exchange reports them; rows without quantity are never applied.
- Parity.PairIsOrder: for client ids whose recorded orders follow each other in time; nothing is said of the pairs of an id whose orders' rows interleave.
- Parity.CompareReplay: for replays that leave positions open at the end, which is the default; the forced closes of the other mode are not part of a comparison here.
- Greed.BuiltRisesExactly: for positive closes.
- Greed.RecentringKeepsOrder: for steps between 0 and 100 percent.
- PositionMetrics.PositionComparator.FoldMetricsInto: the counts and the final realised delta; the mean and maximum of each delta family repeat one fold over optional fields.
- PositionFetcher.FetchesAreFloorApart: accounts are fixed during a run; the startup batch is not modelled.
- Orders, roll-ups and trades are values in insertion-ordered lists instead of shared objects in dictionaries, so aliasing between them is not captured.
- Strategy engine, quantity calculator and client-id digest: not modelled, an arbitrary oracle stands for them.
- Order in which live-only rows are counted within a tick: only their multiset and number.
- Several symbols in one session: the engine's symbol filter is left out, a run has one symbol.
- Margin, liquidation price, risk multipliers, position snapshots, collateral re-marking and total equity: they lean on tier functions and constants outside the model.
- Statistics (Sharpe ratio, correlations, mean, median and spike measures) and diagnostic counters of fallback matches.
- Wind-down in a replay: the replay ends with the final sweep; the engine's wind-down is modelled for simulator mode.
- Binary floating point: grid prices and fetch times are exact reals.
- Databases, CSV, logging, configuration, network clients and command line.
