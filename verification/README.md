# Verification of the trading system

A Dafny model of the parts of this FX trading system whose correctness spans several
components, with proofs over all inputs, all runs and all interleavings. One module per
component; `dafny verify dfyconfig.toml` checks everything.

- **Exits between broker and table** (`PositionStore`, `BrokerPaging`, `CompensationQueue`,
  `ExitSaga`, `ExitSagaInvariants`, `ExitSagaTheorems`, `ExitSagaRecords`, `ExitSagaRestarts`,
  `ExitSagaRace`). The broker's close cannot be undone and the table write behind it may fail.
  Entry, exit dispatch, the compensation drain, overlapping syncs with their paged broker read, the
  emergency close, closes made elsewhere and restarts are actors of one step system. Every await is
  an interleaving point, every call may fail, and a write may take effect and still be reported as
  failed.
- **Market bookkeeping** (`Candles`, `SmaLedger`, `TimeFrameBook`, `BookTheorems`,
  `SnapshotAdapter`). Candles and moving averages are kept tick by tick, corrected in the middle of
  a run from official candles, and merged over time frames in backtests. They are proved equal to
  definitions over the whole history.
- **Backtest engines** (`TradeBooks`, `PendingOrders`, `TickEngine`, `TickEngineTheorems`,
  `OhlcEngine`, `Statistics`). What the rules and the execution simulator answer is arbitrary.
- **The live session** (`TradingSession`, `ExitBreaker`, `SessionHalt`, `EntryQueue`). Step systems again, over
  arrivals, stops, timers and callers.
- **Sizing and allocation** (`Allocation`, `Sizing`). Ratios are counted in units of 1e-10 with the
  rounding of the decimal library written out; sizing is over reals with its two rounded divisions.

Operations that change objects are methods of classes, each proved against a function on its
state or against the step of its step system; the theorems are about those functions and steps.

Five properties the code does not have on all inputs are given with the exact condition:

- The loop may attempt an accepted exit again exactly when the exit was not accepted in this process
  through `ExitExecution`, or its compensation completed between the dispatch's read and its loop
  (`SecondAttemptExactly`; a run for each case in `ExitSagaRace`). The sync at start-up takes the
  restarts out of the first case (`NoSecondOrderAcrossRestarts`); a failed write of the emergency
  close stays.
- Each period is counted once, in order, throughout a run exactly when the history has each once and
  every input fits (`CountedOnceExactly`). The inputs that do not fit are those the code lets through
  by comparing open times, and by comparing nothing while no candle is forming: a tick of an earlier
  period than the forming candle; a series that has a period twice or ends in the forming candle's own
  (`CountedTwiceExactly`); a first tick not past the period the warm-up, or a series taken before it,
  ends with (`FirstTickCountsTwiceExactly`, `TicksCountOnceExactly`). `ABarCanBeCountedTwice`,
  `AWarmedUpBarCanBeCountedTwice` and `ABarTakenEarlyCanBeCountedTwice` are such inputs.
- The tick engine's exit guard is reached exactly when the rule asks again for a position whose
  delayed exit is still pending (`RulesThrowExactly`, `ThrownByClash`, `ClashThrows`).
- The target margin level is missed exactly when less than a hundred units are affordable, so that
  the lot is raised to the minimum, or when half-up rounding carries the affordable amount over a
  multiple of 100 below the maximum (`MissesTargetExactly`, with inputs in `MinimumCanMissTarget`
  and `TargetCanBeMissed`).
- Applying an allocation throws exactly when a share that is not suppressed comes to less than 100
  units (`LotsExistExactly`).

The code and its comments differ in one place: the comment on a ledger's warm-up asks for one
candle more than the longer window (`packages/backend/src/domain/market/indicator/IndicatorLedger.ts:140`),
the code is content with the window itself and then shows the current average as the previous one.
The model follows the code (`EveryTickReads`).

## Model

| member | source | states |
|---|---|---|
| `PositionStore.Position.ApplyExtremes` | packages/backend/src/domain/position/Position.ts:142-157 | an open position takes its best and worst excursion in pips, by side; a closed one is left alone |
| `PositionStore.Position.Close` | packages/backend/src/domain/position/Position.ts:159-169 | OPEN becomes CLOSED with exactly the fill given and its time, the excursion untouched, once; closing again throws and changes nothing |
| `PositionStore.Position.Restore` | packages/backend/src/domain/position/Position.ts:66-103 | exit data comes back only for a CLOSED row |
| `PositionStore.PositionTable.Update` | packages/backend/src/infrastructure/database/PostgresPositionRepository.ts:59-71 | an unguarded write of the whole exit half of an existing row |
| `PositionStore.PositionTable.MarkClosed` | packages/backend/src/infrastructure/database/PostgresPositionRepository.ts:80-93 | a guarded write: only an OPEN row gets the status and a closing time, and the row count says so |
| `PositionStore.WritesAreConfluent` | packages/backend/src/infrastructure/database/PostgresPositionRepository.ts:59-93 | any order and number of `update`s with one exit and `markClosed`s, with at least one update, ends with the same CLOSED row in full detail |
| `PositionStore.WritesAreMonotone` | packages/backend/src/infrastructure/database/PostgresPositionRepository.ts:59-93 | no such sequence of writes reopens a row or loses exit details once they are there |
| `BrokerPaging.FetchOpenPositionIds` | packages/backend/src/adapter/gmo/GmoBrokerAdapter.ts:175-247 | the paging loop with its page bound, its stall guard and its failing requests |
| `BrokerPaging.PagingIsComplete` | packages/backend/src/adapter/gmo/GmoBrokerAdapter.ts:184-233 | while positions open and close during the read: the result has every id open throughout, only ids open at some moment of it, none twice, and the stall guard never fires on any request |
| `BrokerPaging.CollectedGrows` | packages/backend/src/adapter/gmo/GmoBrokerAdapter.ts:216-231 | a full page moves the cursor strictly down |
| `BrokerPaging.PagingIsExactOnAStillBook` | packages/backend/src/adapter/gmo/GmoBrokerAdapter.ts:184-233 | on an unchanging book the read returns exactly the open ids, and fails exactly when 101 full pages are open |
| `CompensationQueue.ExitCompensationQueue.EnqueueUpdate` | packages/backend/src/action/ExitCompensationQueue.ts:68-79 | the first exit queued for a position stays; a second is ignored |
| `CompensationQueue.ExitCompensationQueue.BeginDrain` | packages/backend/src/action/ExitCompensationQueue.ts:139-160 | one pass at a time over a snapshot of the entries |
| `CompensationQueue.ExitCompensationQueue.Settle` | packages/backend/src/action/ExitCompensationQueue.ts:160-192 | a written entry leaves the queue, a failed one stays with one attempt more; escalation at the configured number |
| `ExitSagaInvariants.StepKeeps` | packages/backend/src/action/ExitExecution.ts:28-64 | every step of every actor (entry, dispatch loop, closePosition, drain, sync, emergency close, outside closes, restart) keeps the invariant of the protocol |
| `ExitSagaTheorems.ClosedRowIsClosedAtBroker` | packages/backend/src/application/SyncPositionsUseCase.ts:41-75 | in every reachable state a position CLOSED in the table is closed at the broker |
| `ExitSagaTheorems.SyncNeverMarksALivePosition` | packages/backend/src/application/SyncPositionsUseCase.ts:69-75 | a sync, however stale its reads, never marks a position that is open at the broker |
| `ExitSagaTheorems.CompletedSyncRepairs` | packages/backend/src/application/SyncPositionsUseCase.ts:42-75 | a sync that completes leaves CLOSED every position of its pair that it read as OPEN and that was closed at the broker before its broker read began |
| `ExitSagaTheorems.NoAcceptedExitIsForgotten` | packages/backend/src/action/ExitExecution.ts:32-63 | at every await each exit the broker accepted in this process is in the table in full, in the queue, or inside its own unfinished closePosition |
| `ExitSagaRecords.RecordedIsWhatTheBrokerAnswered` | packages/backend/src/action/ExitExecution.ts:28-64 | over every run, column by column: a row with a fill shows the price, profit, type, reason and time the broker answered when it closed that position, and the excursion in pips that follows from the extremes its order was sent with; so does every queued entry |
| `ExitSagaTheorems.QueueLosesOnlyRecorded` | packages/backend/src/action/ExitCompensationQueue.ts:159-192 | an entry leaves the queue only by a drain success, and then the table shows its exit in full |
| `ExitSagaTheorems.FallbackIsNeverReached` | packages/backend/src/action/ExitExecution.ts:39-52 | `Position.close` never fails after an accepted exit, so the status-only entry is never queued |
| `ExitSagaTheorems.QueuedIsNeverHeld` | packages/backend/src/application/ExitDispatcher.ts:58-68 | no closePosition is under way for a queued position, in any interleaving |
| `ExitSagaTheorems.SecondAttemptExactly` | packages/backend/src/application/ExitDispatcher.ts:46-68 | for an exit the broker has accepted, from whomever, the loop may attempt it again if and only if it was not accepted in this process through `ExitExecution`, or its compensation completed after this dispatch read the open positions |
| `ExitSagaTheorems.NoSecondOrderInQuietRuns` | packages/backend/src/application/ExitDispatcher.ts:46-119 | over whole runs in which no drain completes between a dispatch's read and its loop, no second exit order is sent for an exit accepted in this process through `ExitExecution`, however many writes fail |
| `ExitSagaRestarts.NoSecondOrderAcrossRestarts` | packages/backend/src/main.ts:458-473 | across restarts: over such runs, when a sync of the pair completes after each restart before a dispatch of the pair reads, no second exit order is sent for an exit that `ExitExecution` got accepted in any process, whatever the restarts lost |
| `ExitSagaTheorems.RowsNeverGoBack` | packages/backend/src/infrastructure/database/PostgresPositionRepository.ts:59-93 | no run takes a row from CLOSED to OPEN or loses recorded exit details |
| `ExitSagaRace.DrainBetweenReadAndLoopAllowsASecondOrder` | packages/backend/src/application/ExitDispatcher.ts:46-68 | a concrete run with a second order: the drain completes between the read and the loop |
| `ExitSagaRace.RestartWithoutSyncAllowsASecondOrder` | packages/backend/src/main.ts:458-464 | and one where the process restarts in the middle of a table write and dispatches without the sync |
| `ExitSagaRace.FailedEmergencyWriteAllowsASecondOrder` | packages/backend/src/application/EmergencyCloseAllUseCase.ts:88-117 | and one after an emergency close whose table write failed |
| `Candles.FormingCandle.Update` | packages/backend/src/domain/market/candle/FormingCandle.ts:50-63 | high and low widen, close follows the bid; throws once confirmed |
| `Candles.CandleAccumulator.Accumulate` | packages/backend/src/domain/market/candle/CandleAccumulator.ts:29-56 | a tick grows the candle of its period or confirms it and opens the next; the confirmed candle passes the checks of its factory |
| `Candles.CandleAccumulator.ReconcileLastConfirmed` | packages/backend/src/domain/market/candle/CandleAccumulator.ts:94-114 | an official candle of another time frame, or opening at or after the forming candle's first tick, is refused |
| `Candles.CandlesAreBatch` | packages/backend/src/domain/market/candle/CandleAccumulator.ts:29-56 | for any time-nondecreasing ticks the confirmed candles are first/max/min/last bid of every period but the last, in order, and the forming candle is that of the last |
| `Candles.BidsAreWithin` | packages/backend/src/domain/market/candle/FormingCandle.ts:50-63 | the batch high and low bound every bid of the period |
| `Candles.BoundsAreBids` | packages/backend/src/domain/market/candle/FormingCandle.ts:50-63 | and are bids of the period |
| `Candles.BarShowsTicks` | packages/backend/src/domain/market/candle/FormingCandle.ts:37-63 | in the ticks themselves: open and open time of the first tick of the period, close of the last, high and low the attained bounds of its bids, close time the end of the period |
| `SmaLedger.SmaTracker.Update` | packages/backend/src/domain/market/indicator/IndicatorLedger.ts:74-84 | the provisional value is added once and replaced after |
| `SmaLedger.SmaTracker.Reset` | packages/backend/src/domain/market/indicator/IndicatorLedger.ts:63-71 | the confirmed close takes the provisional value's place |
| `SmaLedger.SmaTracker.Reseed` | packages/backend/src/domain/market/indicator/IndicatorLedger.ts:34-46 | both calculators are rebuilt from the closes |
| `SmaLedger.IndicatorLedger.ReconcileWith` | packages/backend/src/domain/market/indicator/IndicatorLedger.ts:187-201 | both lines rebuilt; before, after and whether they differ |
| `SmaLedger.LedgerIsBatch` | packages/backend/src/domain/market/indicator/IndicatorLedger.ts:142-173 | after any warm-up and any confirmed and updated events the ledger is the one defined at one go from the closes and the last provisional value |
| `SmaLedger.SmaIsPositive` | packages/backend/src/domain/market/indicator/IndicatorLedger.ts:227-239 | averages of positive prices are positive, so the value object that refuses others never throws |
| `SmaLedger.AverageForgets` | packages/backend/src/domain/market/indicator/IndicatorLedger.ts:48-84 | an average depends on the last p closes only |
| `SmaLedger.AverageSlides` | packages/backend/src/domain/market/indicator/IndicatorLedger.ts:48-84 | a further close moves the average by its difference to the close that leaves the window, divided by p |
| `SmaLedger.AverageOfEqual` | packages/backend/src/domain/market/indicator/IndicatorLedger.ts:48-84 | and p equal closes have themselves as average; together the three leave the mean of the last p closes only |
| `SmaLedger.CorrectsExactly` | packages/backend/src/domain/market/indicator/IndicatorLedger.ts:187-201 | a reconciliation reports the averages before and after, and a correction if and only if one of the four differs or only one snapshot exists |
| `SmaLedger.ReconciledIsFresh` | packages/backend/src/domain/market/indicator/IndicatorLedger.ts:187-201 | a ledger in any state, once reconciled, equals a new one warmed up on the official series, after every later run of events |
| `SmaLedger.SecondReconcileCorrectsNothing` | packages/backend/src/domain/market/indicator/IndicatorLedger.ts:187-201 | a second reconcile with the same series and only forming updates between reports no correction |
| `TimeFrameBook.TimeFrameEntry.WarmUp` | packages/backend/src/domain/market/TimeFrameBook.ts:68-79 | an empty, mixed or unordered series is refused and changes nothing |
| `TimeFrameBook.TimeFrameEntry.Process` | packages/backend/src/domain/market/TimeFrameBook.ts:146-205 | accumulator, then ledger, then the snapshot or its error |
| `TimeFrameBook.TimeFrameEntry.Reconcile` | packages/backend/src/domain/market/TimeFrameBook.ts:111-144 | validity, length, boundary check, candle before averages; reports exactly a correction |
| `TimeFrameBook.TimeFrameBook.OnTick` | packages/backend/src/domain/market/TimeFrameBook.ts:85-101 | every time frame in turn; the first that throws ends the round |
| `TimeFrameBook.AscendingByOpenTime` | packages/backend/src/domain/market/TimeFrameBook.ts:223-237 | true exactly on strictly ascending open times |
| `BookTheorems.RunIsBatch` | packages/backend/src/domain/market/TimeFrameBook.ts:111-205 | after any interleaving of ticks and reconciliations an entry is its batch definition over the confirmed series |
| `BookTheorems.TickStreamIsBatch` | packages/backend/src/domain/market/TimeFrameBook.ts:146-205 | for a history and ticks the series is the history and the batch candles of all periods but the last, the forming candle is the last period's |
| `BookTheorems.ReconciledStreamIsBatch` | packages/backend/src/domain/market/TimeFrameBook.ts:111-205 | a series taken over in the middle of a stream replaces what was confirmed; the batch candles of the stream go on undisturbed |
| `BookTheorems.EveryTickReads` | packages/backend/src/domain/market/indicator/IndicatorLedger.ts:207-254 | after any run on a history at least as long as both windows no tick ever throws, and what it reads are the last candle of the series and the means over the series and the bid; with exactly p closes the previous average is the current one |
| `BookTheorems.TickMovesAverages` | packages/backend/src/domain/market/indicator/IndicatorLedger.ts:227-254 | what a tick reads: the forming average less the confirmed one is the bid less the close that leaves the window, divided by the window; likewise the confirmed one less the previous one |
| `BookTheorems.TicksReadExactly` | packages/backend/src/domain/market/indicator/IndicatorLedger.ts:207-225 | after any run on any warmed-up history a tick can be read if and only if the confirmed series is as long as the longer window |
| `BookTheorems.RoundsNeverThrow` | packages/backend/src/domain/market/TimeFrameBook.ts:85-101 | once every time frame is ready a round of all of them succeeds |
| `BookTheorems.RoundStopsAtFirst` | packages/backend/src/domain/market/TimeFrameBook.ts:85-101 | otherwise the first that throws ends the round with its error: those up to it have the tick, the others do not |
| `BookTheorems.SecondReconcileReportsNothing` | packages/backend/src/domain/market/TimeFrameBook.ts:111-144 | reconciling again with the same series succeeds and reports nothing until a bar is confirmed; it throws only if no candle was forming and the first tick since is not later than the last official open time |
| `BookTheorems.CountedOnceExactly` | packages/backend/src/domain/market/TimeFrameBook.ts:111-205 | over any run on any warmed-up history: at every moment the confirmed series and the forming candle hold each period at most once, in order, if and only if the history does and every input fits: no tick is of an earlier period than the forming candle, a tick that opens one is of a later period than the last confirmed candle, and a series taken over has each period once and ends before the forming candle's period |
| `BookTheorems.NoBarCountedTwice` | packages/backend/src/domain/market/candle/CandleAccumulator.ts:94-114 | so no bar is counted twice when all of that holds |
| `BookTheorems.TicksCountOnceExactly` | packages/backend/src/domain/market/candle/CandleAccumulator.ts:29-56 | on a warm-up and ticks in order alone: nothing is counted twice if and only if the first tick's period comes after that of the last candle warmed up on |
| `BookTheorems.CountedTwiceExactly` | packages/backend/src/domain/market/candle/CandleAccumulator.ts:104-112 | one way it fails: a series taken over while a candle is forming, and then a confirmed bar, count a period twice if and only if the series ends in the forming candle's own period |
| `BookTheorems.FirstTickCountsTwiceExactly` | packages/backend/src/domain/market/candle/CandleAccumulator.ts:31-34 | the other: after a history or a series that came while nothing was forming, the first bar to be confirmed repeats a period or goes back if and only if the first tick is not of a later period |
| `BookTheorems.ABarCanBeCountedTwice` | packages/backend/src/domain/market/candle/FormingCandle.ts:37-41 | the check lets such a series through: a first tick 30 ms into the minute |
| `BookTheorems.AWarmedUpBarCanBeCountedTwice` | packages/backend/src/domain/market/TimeFrameBook.ts:68-79 | a minute is counted twice with no official series: warmed up on it, then a first tick 30 ms into it |
| `BookTheorems.ABarTakenEarlyCanBeCountedTwice` | packages/backend/src/domain/market/candle/CandleAccumulator.ts:100-112 | and with a series taken before the first tick, when there is no boundary to check |
| `SnapshotAdapter.TimeFrameState.SetUpcoming` | packages/backtest/src/snapshot-adapter/BacktestSnapshotAdapter.ts:122-142 | a queue that goes back before the warm-up is refused |
| `SnapshotAdapter.TimeFrameState.OnDrivingClose` | packages/backtest/src/snapshot-adapter/BacktestSnapshotAdapter.ts:163-191 | at an aligned close earlier heads are dropped, a match confirmed, a later head waits; then the forming value |
| `SnapshotAdapter.MergesExactly` | packages/backtest/src/snapshot-adapter/BacktestSnapshotAdapter.ts:163-186 | with increasing driving closes and sorted upcoming bars, the bars taken are precisely those closing with a driving candle so far, in order and once |
| `SnapshotAdapter.LedgerHoldsDueBars` | packages/backtest/src/snapshot-adapter/BacktestSnapshotAdapter.ts:163-191 | the averages are the batch averages over the warm-up and exactly those bars |
| `SnapshotAdapter.TakesExactlyTheDue` | packages/backtest/src/snapshot-adapter/BacktestSnapshotAdapter.ts:163-186 | a bar is taken if and only if it is queued and closes with some driving candle so far on a boundary of its time frame |
| `SnapshotAdapter.NeverAhead` | packages/backtest/src/snapshot-adapter/BacktestSnapshotAdapter.ts:163-191 | no look-ahead: the closes the averages were told since the warm-up are those of bars that had closed by the current driving close, however the queue is ordered |
| `PendingOrders.PendingOrderManager.AcceptExitOrder` | packages/backtest/src/engine/PendingOrderManager.ts:57-63 | a taken slot refuses a second order |
| `PendingOrders.PendingOrderManager.CheckExitFill` | packages/backtest/src/engine/PendingOrderManager.ts:100-107 | fills from acceptance plus delay on, and empties the slot |
| `PendingOrders.PendingOrderManager.CheckEntryFill` | packages/backtest/src/engine/PendingOrderManager.ts:86-93 | the same for entries |
| `PendingOrders.PendingOrderManager.SettleAtStreamEnd` | packages/backtest/src/engine/PendingOrderManager.ts:118-130 | the exit fills regardless of the delay, the entry is cancelled |
| `TickEngine.TickEngine.RunAll` | packages/backtest/src/engine/TickEngine.ts:65-259 | the tick loop: rules at a confirmed bar, exit fill, entry fill; then settlement and forced close |
| `TickEngineTheorems.RunKeeps` | packages/backtest/src/engine/TickEngine.ts:65-164 | after every tick: at most one position, a pending entry excludes a position and a pending exit, a pending exit is for the open position, fills wait for the delay, equity is handed on |
| `TickEngineTheorems.EveryTickFollows` | packages/backtest/src/engine/TickEngine.ts:82-164 | each tick of every run: a wanted entry is accepted when nothing is open or pending, and only then; a wanted exit of the open position is; a pending order fills at this tick if and only if its delay has passed, with this tick's time and pips; nothing else moves |
| `TickEngineTheorems.EntryIsTaken` | packages/backtest/src/engine/TickEngine.ts:90-140 | a wanted entry opens a position of its lot at the first tick from its acceptance plus the delay on, whatever comes in between |
| `TickEngineTheorems.ExitIsTaken` | packages/backtest/src/engine/TickEngine.ts:82-120 | a wanted exit becomes the next trade, of that position, with the pips and the time of the first such tick |
| `TickEngineTheorems.EntersAgain` | packages/backtest/src/engine/TickEngine.ts:82-103 | entry, exit and entry again on three bars: two positions |
| `TickEngineTheorems.RulesThrowExactly` | packages/backtest/src/engine/TickEngine.ts:82-99 | the rules throw if and only if the exit rule asks for the position whose exit is pending; the entry guard is unreachable |
| `TickEngineTheorems.ThrownByClash` | packages/backtest/src/engine/PendingOrderManager.ts:57-60 | a run that throws does so at such a tick, on the exit guard |
| `TickEngineTheorems.ClashThrows` | packages/backtest/src/engine/PendingOrderManager.ts:57-60 | and every such tick that is reached throws |
| `TickEngineTheorems.NoDelayNoClash` | packages/backtest/src/engine/TickEngine.ts:82-103 | without a delay no run throws |
| `TickEngineTheorems.WellSpacedNeverThrows` | packages/backtest/src/engine/TickEngine.ts:82-103 | a condition on the tick stream alone under which no run throws whatever the rules answer |
| `TickEngineTheorems.SparseTicksThrow` | packages/backtest/src/engine/TickEngine.ts:82-103 | with a delay and one tick per bar the exit guard is reached |
| `TickEngineTheorems.LastPositionIsClosed` | packages/backtest/src/engine/TickEngine.ts:166-259 | the position left at the end, its exit pending or not, is the last trade, closed at the last tick; a pending entry opens none |
| `TickEngineTheorems.CompletedRunConserves` | packages/backtest/src/engine/TickEngine.ts:166-259 | a completed run ends flat, trades match entries one to one and are numbered from 0, capital is handed on, final equity is the starting one and the sum of amounts |
| `TradeBooks.EngineBooks.Record` | packages/backtest/src/engine/TradeRecordBuilder.ts:33-69 | the trade record, its amount and the equity after it |
| `TradeBooks.EquityIsSum` | packages/backtest/src/engine/TradeRecordBuilder.ts:39-44 | the capital after any number of trades is the start and the sum of their amounts |
| `OhlcEngine.Run` | packages/backtest/src/engine/OhlcEngine.ts:41-195 | the bar loop, exits then entry at the next open, forced close on the last bar, and its two refusals |
| `OhlcEngine.EveryBarFollows` | packages/backtest/src/engine/OhlcEngine.ts:73-175 | each bar of every run after the warm-up: the open position, when asked for, is the next trade at the next open; then a wanted entry opens a position if none is open; nothing else moves |
| `OhlcEngine.LastBarCloses` | packages/backtest/src/engine/OhlcEngine.ts:175-195 | at the last bar the open position is closed at its close |
| `OhlcEngine.RunConserves` | packages/backtest/src/engine/OhlcEngine.ts:73-195 | the same conservation; a run fails exactly when there are no bars after the warm-up |
| `Statistics.CalcBasicStats` | packages/backtest/src/engine/ResultCalculator.ts:77-159 | one pass equals totals, counts and largest values over winning and losing trades, and profit less loss is the total |
| `Statistics.SumsGrow` | packages/backtest/src/engine/ResultCalculator.ts:88-106 | a profit adds to the gross profit, anything else to the gross loss |
| `Statistics.CountsAre` | packages/backtest/src/engine/ResultCalculator.ts:88-115 | wins, losses, sides and wins by side are the numbers of trades of each kind; a break-even is no win |
| `Statistics.LargestIsLargest` | packages/backtest/src/engine/ResultCalculator.ts:91-106 | the largest win and loss are attained bounds |
| `Statistics.CalcDrawdown` | packages/backtest/src/engine/ResultCalculator.ts:170-211 | one pass equals the maximal fall from a peak and the longest time from a peak to the next strict high or the end |
| `Statistics.MaxDrawdownBounds` | packages/backtest/src/engine/ResultCalculator.ts:182-205 | no fall of equity from one point to a later one is larger |
| `Statistics.MaxDrawdownHappens` | packages/backtest/src/engine/ResultCalculator.ts:182-205 | and such a fall happens |
| `Statistics.PeakIsLatestHigh` | packages/backtest/src/engine/ResultCalculator.ts:184-192 | the running peak is the latest strict high |
| `Statistics.UnderwaterSincePeak` | packages/backtest/src/engine/ResultCalculator.ts:193-199 | a drawdown is open exactly when equity has been below the peak since it |
| `Statistics.LongestRecoveryIsLongest` | packages/backtest/src/engine/ResultCalculator.ts:184-192 | the longest ended drawdown is an attained bound |
| `Statistics.CalcStreaks` | packages/backtest/src/engine/ResultCalculator.ts:298-312 | streaks are the longest runs of winning and of other trades |
| `TradingSession.TradingSession.OnMarketData` | packages/backend/src/application/TradingSession.ts:153-167 | stopped or foreign: ignored; busy: the latest replaces what is pending; otherwise processed |
| `TradingSession.TradingSession.TakePending` | packages/backend/src/application/TradingSession.ts:175-185 | the pending snapshot is next unless stopped |
| `TradingSession.ProcessingIsSingleFlight` | packages/backend/src/application/TradingSession.ts:153-187 | at most one snapshot is in processing, whatever arrives, returns or throws |
| `TradingSession.ProcessedInOrderOfArrival` | packages/backend/src/application/TradingSession.ts:153-187 | what is processed, dispatched and evaluated is in order of arrival and never twice |
| `TradingSession.LatestIsProcessed` | packages/backend/src/application/TradingSession.ts:173-187 | an idle session that is not stopped has processed the last arrival, even after errors |
| `TradingSession.ArrivalsAreNoticed` | packages/backend/src/application/TradingSession.ts:153-167 | every snapshot of the pair that comes before a stop counts, and one that finds the session idle is processed at once |
| `TradingSession.EachStageFollows` | packages/backend/src/application/TradingSession.ts:189-234 | over every run: exits are dispatched exactly after a successful extremes update, an entry evaluation begins exactly after a dispatch that returned with no reason to halt, the session is killed exactly by one that returned with a reason |
| `TradingSession.NothingAfterKill` | packages/backend/src/application/TradingSession.ts:208-233 | after the kill-switch no dispatch and no entry evaluation ever begins; after any stop no snapshot is taken in |
| `ExitBreaker.ExitFailureCircuitBreaker.BeginTick` | packages/backend/src/domain/guard/ExitFailureCircuitBreaker.ts:54-62 | time advances, records of positions no longer open go |
| `ExitBreaker.ExitFailureCircuitBreaker.KillDetail` | packages/backend/src/domain/guard/ExitFailureCircuitBreaker.ts:95-108 | some position reached the threshold, if and only if; the worst is reported |
| `ExitBreaker.ExitDispatcher.Dispatch` | packages/backend/src/application/ExitDispatcher.ts:46-144 | the per-position loop: shield, cooldown, rule, close; its three lists and what it records |
| `ExitBreaker.DispatchedByAnswer` | packages/backend/src/application/ExitDispatcher.ts:53-144 | by what was met at each position alone: closed if and only if its close was admitted and succeeded, failed if and only if it was admitted and threw, skipped in the other cases but the silent ones; a close or absence ends the record, a throw adds one failure and sets the cooldown |
| `ExitBreaker.CounterIsFailures` | packages/backend/src/domain/guard/ExitFailureCircuitBreaker.ts:54-87 | the counter is the number of admitted throws since the last admitted close or absence, which are max(1, cooldown) dispatches apart |
| `ExitBreaker.HaltBounds` | packages/backend/src/application/TradingSession.ts:202-231 | at the halt a position failed exactly `threshold` times in a row, not earlier than (threshold - 1) * max(1, cooldown) dispatches after the first, and none failed more |
| `ExitBreaker.KillsExactly` | packages/backend/src/domain/guard/ExitFailureCircuitBreaker.ts:90-108 | the halt comes exactly when some position's failures in a row reach the threshold |
| `SessionHalt.KilledExactly` | packages/backend/src/application/TradingSession.ts:189-234 | over runs of the session whose dispatch results are the breaker's: it is killed if and only if some position's failures in a row have reached the threshold, and none ever fails more often |
| `SessionHalt.NothingBeginsAfterThreshold` | packages/backend/src/application/TradingSession.ts:153-234 | once they have, whatever arrives: no snapshot is taken in, no dispatch and no entry evaluation begins, and no dispatch is under way |
| `EntryQueue.EntryQueue.BeginDrain` | packages/backend/src/action/EntryQueue.ts:130-162 | one drain at a time; the head is placed unless older than the limit |
| `EntryQueue.EntryQueue.BeginStop` | packages/backend/src/action/EntryQueue.ts:94-106 | closes the queue, stops the timer, waits for the drain in progress or starts dropping |
| `EntryQueue.EntryQueue.ResumeStop` | packages/backend/src/action/EntryQueue.ts:100-106 | after its wait a stop drops what is left, one command per notification |
| `EntryQueue.EntryQueue.ReservedMargin` | packages/backend/src/action/EntryQueue.ts:213-218 | the sum over the queued commands |
| `EntryQueue.EveryCommandIsAccountedFor` | packages/backend/src/action/EntryQueue.ts:94-205 | every accepted command is queued or has exactly one fate, in order; one placement at a time; placed only within the limit, expired only past it |
| `EntryQueue.AcceptedAreSubmitted` | packages/backend/src/action/EntryQueue.ts:111-117 | what is accepted is what was submitted before the first stop, in order, nothing else |
| `EntryQueue.FatesAreWhatHappened` | packages/backend/src/action/EntryQueue.ts:94-205 | over every run the fate of each command is fixed by when it was submitted, when it left the queue and what the broker answered: expired past the limit, placed on success, failed on an error, dropped by a stop |
| `EntryQueue.ReservedIsWhatIsQueued` | packages/backend/src/action/EntryQueue.ts:213-218 | reserved margin is that of all accepted less that of what left the queue |
| `EntryQueue.FatesAreFinal` | packages/backend/src/action/EntryQueue.ts:111-117 | after a stop nothing is accepted; no fate is ever undone |
| `EntryQueue.StopLeavesNothing` | packages/backend/src/action/EntryQueue.ts:94-107 | once a stop has resolved, and ever after: the queue is empty, the drain it found is over, and no drain can start |
| `EntryQueue.StopLeavesNothingAtBroker` | packages/backend/src/action/EntryQueue.ts:74-107 | as the session uses it (drains by the timer only, which stays off after the stop): once the stop has resolved nothing is at the broker either |
| `Allocation.DivideOneFits` | packages/backend/src/domain/Ratio.ts:46-53 | rounding at the twentieth digit never carries: 1/n is cut off at ten digits exactly, for every n |
| `Allocation.ApplyToSucceedsExactly` | packages/backend/src/domain/Ratio.ts:90-94 | a share is a lot if and only if it comes to a hundred units |
| `Allocation.CheckAllocation` | packages/backend/src/domain/allocation/LotAllocation.ts:27-47 | accepted exactly when all is suppressed or the sum is within 1e-9 of 1 |
| `Allocation.FromAllocation` | packages/backend/src/domain/allocation/StrategyLots.ts:21-31 | lots of the strategies that are not suppressed, or the refusal of the first too small |
| `Allocation.LotIsShare` | packages/backend/src/domain/allocation/StrategyLots.ts:21-31 | every lot is an unsuppressed entry's share of the base lot, cut off to hundreds |
| `Allocation.ShareHasLot` | packages/backend/src/domain/allocation/StrategyLots.ts:21-31 | and every unsuppressed entry has its lot |
| `Allocation.LotsExistExactly` | packages/backend/src/domain/allocation/StrategyLots.ts:21-31 | the lots exist if and only if every share that is not suppressed comes to a hundred units |
| `Allocation.LotsFitBaseLot` | packages/backend/src/application/PositionManager.ts:129-138 | for every accepted allocation and base lot the lots sum to at most the base lot: the cap never fires |
| `Allocation.ComputeEqualWeights` | packages/backend/src/domain/allocation/EqualWeightAllocationPolicy.ts:57-65 | n - 1 equal parts and their complement, never refused |
| `Allocation.Decide` | packages/backend/src/domain/allocation/EqualWeightAllocationPolicy.ts:22-50 | eligible strategies share equally, held ones are suppressed; the sum check never fails |
| `Allocation.DecidedExactly` | packages/backend/src/domain/allocation/EqualWeightAllocationPolicy.ts:22-65 | every detected strategy has an entry, no other has; one that holds a position gets nothing, each of the n others one n-th, the last one what is left |
| `Allocation.EqualWeightsSumToOne` | packages/backend/src/domain/allocation/EqualWeightAllocationPolicy.ts:57-65 | equal weights sum to exactly 1 and are always accepted |
| `Allocation.EqualWeightsLoseLittle` | packages/backend/src/domain/allocation/EqualWeightAllocationPolicy.ts:22-50 | when the shares exist, less than a hundred units per strategy are lost |
| `Sizing.HundredsExactly` | packages/backend/src/domain/position/MaintenanceRatioBasedLotPolicy.ts:45-50 | the chosen hundreds are the floor of what is affordable plus 50.5 steps of the last digit |
| `Sizing.RateScales` | packages/backend/src/domain/position/MaintenanceRatioBasedLotPolicy.ts:32-57 | k times the capital at k times the rate buys the same lot |
| `Sizing.HigherRateSmallerLot` | packages/backend/src/domain/position/MaintenanceRatioBasedLotPolicy.ts:32-57 | a higher rate never buys a larger lot |
| `Sizing.AtRate150` | packages/backend/src/domain/position/MaintenanceRatioBasedLotPolicy.ts:32-57 | a million yen at rate 150, margin rate 0.04 and level 2 is 83,300 units, and 83,400 would miss the level |
| `Sizing.LotBounds` | packages/backend/src/domain/position/MaintenanceRatioBasedLotPolicy.ts:32-57 | what is affordable reaches a hundred with 50.5 steps of the last digit: lot times rate times margin rate times target exceeds the capital by at most the same for 50.5 steps; otherwise the lot is the minimum; a hundred more would not fit in any case |
| `Sizing.MissesTargetExactly` | packages/backend/src/domain/position/MaintenanceRatioBasedLotPolicy.ts:45-57 | it exceeds the capital at all if and only if what is affordable does not reach a hundred even with 50.5 steps added, or is just below a multiple of a hundred, by no more than 50.5 steps, and the maximum does not cap it |
| `Sizing.TargetCanBeMissed` | packages/backend/src/domain/position/MaintenanceRatioBasedLotPolicy.ts:45-50 | a concrete input, at twenty digits, whose lot needs more than the capital allows |
| `Sizing.MarginsFollowLots` | packages/backend/src/domain/position/RequiredMarginCalculator.ts:29-32 | rounding to yen adds at most half a yen a command |
| `Sizing.HandleSignals` | packages/backend/src/application/PositionManager.ts:107-147 | allocate, size, cap and one command per strategy |
| `Sizing.CycleCommandsFit` | packages/backend/src/application/PositionManager.ts:107-147 | only a detected strategy without a position gets a command, with a lot and that lot's margin at the rate, rounded to the nearest yen |
| `Sizing.NobodyIsLeftOut` | packages/backend/src/application/PositionManager.ts:107-147 | and each of them gets one |
| `Sizing.CycleFailsExactly` | packages/backend/src/application/PositionManager.ts:107-147 | a cycle is refused if and only if somebody is to trade and the quote is not yen, or a share comes to less than a hundred units |
| `Sizing.CycleMarginIsBounded` | packages/backend/src/application/PositionManager.ts:129-147 | the required margins of the n commands of one cycle come to at most n / 2 yen and the larger of the minimum lot's margin and of capital / target plus the margin of 50.5 steps |

## Left out

- `GmoBrokerAdapter.waitForExecution` and `findOpenPosition`: an entry is assumed to return the id it opened, an exit to close or to throw without closing. Broker ids are never reused and the broker rejects an exit for a position it does not have.
- Order of the dispatch list: `sortedByOpenedAtAsc` is left out; the list of open positions may come in any order.
- Writes that reach the table after the process that sent them has restarted, and writes of an aborted sync.
- `ExitCompensationQueue.stop` and its timer: a drain may begin at any moment instead.
- `PositionStore.Position.ApplyExtremes`: the excursions are kept exactly, without the cut to four decimals. The extremes trackers of the engines are left out: the extremes of a closing position are arbitrary.
- `TradeBooks.EngineBooks.Record`: prices, excursions, holding time and hour of the trade record are left out.
- `TimeFrameBook.TimeFrameBook.OnTick`: the four entries are values in a sequence here; each alone is also a graph of objects (`TimeFrameEntry`). The snapshot shares the forming candle's object with the accumulator; the model hands out its value at that moment. The capture time and the market snapshot's wrapping are left out.
- The averages' calculator is taken by its contract (add, replace the last, mean of the window) over reals; the library behind it and binary rounding are left out.
- `SnapshotAdapter.TimeFrameState.OnDrivingClose`: the forming value is half a spread below the last close without the rounding to six decimals. Dummy snapshots for time frames without specification are left out.
- `TickEngine.TickEngine.RunAll` and `OhlcEngine.Run`: which ticks confirm a bar, what the rules answer and the pips of each exit are arbitrary inputs; fetching, snapshots and their errors, price selection, slippage and side are left out.
- `Statistics.CalcBasicStats`: averages, the median and the ratios of the cited span are left out.
- `Statistics.CalcDrawdown`: drawdown percentages and their sums are left out. So are the ratios under square roots.
- `TradingSession.start`: warm-up and the order in which streams and timers start. Which error a processed call rethrows is left out.
- `ExitBreaker.ExitDispatcher.Dispatch`: takes the shield's and the rule's answers as inputs; their interleaving with other actors is the subject of `ExitSaga`.
- The `drainAndWait` loop is one of the callers that may start a drain at any moment. Notifications only matter as awaits.
- `Sizing.HandleSignals`: admission, detection and logging are left out; strategies found open by the later checks are an input. Failing reads of balance or rate end a cycle without commands.
- HTTP, WebSocket, SQL text, user interface, start-up wiring, logging, ADX, random numbers and slippage.
