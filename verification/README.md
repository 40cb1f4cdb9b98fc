# Trading engine: model and proofs

This project models the parts of the trading system that turn signals into positions, keep cash and share ledgers,
enforce exposure caps and close positions, and proves properties of every run of them. To verify:
`dafny verify dfyconfig.toml`.

## What is modelled

| module | part of the system |
|---|---|
| `Prelude`, `MapSums` | optional values, products and quotients over reals, truncation, sums over the values of a map |
| `MarketData` | dated price rows and the lookup "last row on or before a date" |
| `EngineSpec` | the portfolio engine as a transition system on values: one slot, one buy attempt, runs |
| `PortfolioEngine` | the same engine as mutable objects (`Position`, `Engine`), proved against `EngineSpec` |
| `DriverSpec`, `BacktestDriver` | the day, slot and candidate loops as event traces, and the class that runs them |
| `EngineOutcome`, `EngineAdmission` | what a slot and a buy attempt do and why, in configuration figures, carried to the log of every run |
| `EngineLedger`, `EngineValue`, `EngineLifetime` | theorems over every run of the engine |
| `BacktestTheorems` | the same theorems for a whole calendar of days |
| `IntradayPath`, `Drawdown` | the synthetic intraday path; the one-pass drawdown loops and the out-of-sample report |
| `PositionSizing`, `Diversification`, `BuyExecutor`, `ExecutorOutcome`, `SectorCaps` | sizing, the diversification check, the live buy signal with resize and re-check, and the sector cap over runs |
| `BacktesterSpec`, `SignalCursor`, `SimulationSpec`, `Backtester` | the event-driven simulator with its incremental value and cache |
| `BacktesterOutcome`, `SimulationOutcome` | what a day and a signal do to a position and to the book, in figures |
| `FactorScoring` | the technical and the final factor score |
| `AccountSync`, `AccountSyncProofs` | reconciliation of the portfolio table with the brokerage account |
| `MessageWorker` | the queue worker: its class, and the protocol between broker and worker |

Code that updates fields in place is a class whose methods are proved equal to a function on values (`View()` of the
object before and after); the theorems are lemmas about those functions and their runs.

## Conventions

* Money, prices and ratios are exact reals. Rounding of floating-point numbers is not modelled. `int(x)` truncates toward
  zero (`Prelude.Trunc`); `//` on positive prices is a floor.
* Times are minutes since an epoch and dates are day numbers; `(t - entry).days` is a Euclidean quotient by 1440.
* A missing indicator (NaN) is `None`. Indicators, candidates, signals and the LLM score are arbitrary inputs. Candidates
  carry their live, positive price, and no price is negative.
* The dictionary of positions is the sequence of its values in insertion order, each keyed by its own code. A price cache
  without a code gives no row. Price lookups are functions of the code for the length of one slot.
* The calendar handed to the driver is the one left after days with fewer than 30 index rows have been skipped.
* The easing curve of the intraday path is any monotone function from 0 to 1.
* A division by zero inside the position sizer is caught there and gives the quantity 0, as in the source. In
  `utilities/backtest.py` the cash ratio of a tier-2 signal divides by equity; equity 0 counts as "skip" in the model.
* Rows of the active portfolio carry neither a current price nor a buy price, so the live executor values them at their
  average price, both in total assets and in the check. `_check_diversification` is called without the undefined name
  `db_conn` that three calls pass (`services/buy-executor/executor.py:238`, 270 and 301).
* In `utilities/backtest.py` the cache stores no `current_price`, so the checker values holdings at cost there, while total
  assets use cached prices. The model keeps that difference.
* The broker puts an unsettled message back in its original place when the channel closes, one worker consumes the queue,
  and the prefetch count is one.

## What the proofs show about the code

* A position past its age limit is closed or partially sold by every slot that sees it, and at most four of these leave
  it open. Lots of five or more shares are never emptied by partial sales; a fresh lot can be exactly when it has at most four
  shares (`EmptiedByPartialsIff`).
* "More volatile never means more shares" is false: Smart Skip can refuse an order at a low ATR and accept it at a high one.
  `SmartSkipBreaksVolatilityRule` is an account where it happens, `VolatilityRuleIff` says exactly when the rule holds.
* The executor computes resizes from its own total, which counts every HOLDING row, while the checker sees one row per
  code. `StockRecheckFailsIff` and `SectorRecheckFailsIff` say exactly when the re-check after a resize fails. As long as
  each code has one HOLDING row, it never fails after a stock-limit resize, so the branch at
  `services/buy-executor/executor.py:305` is dead, and after a sector-limit resize it can fail only on the stock limit. With
  duplicate rows both can fail; `DuplicateRowsFailRecheck` is such a table.
* In `utilities/backtest.py:2358-2363` the trailing stop never rises above break-even: the high has already been raised to
  the close when it is compared with it (`TrailingNeverPassesBreakEven`).
* The Bollinger part of the technical score exceeds its documented 30 points exactly when the price is below the lower
  band. The true bounds are below 47 for the part, 117 for the technical score (documented as 100) and 1034 for the final
  score (documented as 1000); `BoundIsAttained` shows that the inequality behind 47 is sharp.
* The comments on the volume and RSI parts of that score name points the code does not give (`DocumentedVolumePointsDiffer`,
  `DocumentedRsiPointsDiffer`); the model follows the code.
* The padding branch of the intraday path (`utilities/backtest_gpt_v2.py:1139-1140`) is dead.
* The out-of-sample drawdown is not deeper than that of the full run exactly when there are training entries, or no equity
  of the run lies further below the initial capital than the run's own drawdown (`OutOfSampleNotDeeperIff`);
  `OutOfSampleCanBeDeeper` is a run where it is deeper.
* The signal cursor equals grouping by date exactly when no signal is dated between calendar days.
* A reconciliation pass shows the account exactly when the table held at most one HOLDING row per code before it, and the
  pass adds what is missing or nothing is. In any case, with or without additions, repeated passes end.
* A sale at or above the mark never breaks a sector cap; below it, exactly when the loss makes some sector too large a part
  of what is left (`SaleKeepsGoodIff`).
* A message that does not decode is neither acknowledged nor refused: it stays unsettled, and the queue can move on exactly
  when the oldest message left decodes (`QueueMovesIff`). Acknowledging first can also lose a message when the process dies
  before the handler runs (`RemovedUnhandled`).

## Model

| member | source | states |
|---|---|---|
| `MarketData.RowAtOrBeforeIsLatest` | utilities/backtest_gpt_v2.py:168-177 | nothing is found exactly when every row is later; otherwise the latest row not after the date |
| `MarketData.RowAtOrBeforeIsLast` | utilities/backtest_gpt_v2.py:168-177 | whatever the order of the rows, what is found is the last one not after the date |
| `PortfolioEngine.Engine.constructor` | utilities/backtest_gpt_v2.py:465-484 | a new engine holds the initial capital, no positions and an empty log |
| `PortfolioEngine.Engine.Classify` | utilities/backtest_gpt_v2.py:619-693 | the branch chain with its overriding assignments picks one decision: stops, target, the RSI tier that preempts later exits, then time exit before death cross |
| `PortfolioEngine.Engine.SellPart` | utilities/backtest_gpt_v2.py:643-677 | a partial sale moves the tier's shares into cash net of fee, logs the trade, updates the position in place, and drops the key when nothing is left |
| `PortfolioEngine.Engine.SellAll` | utilities/backtest_gpt_v2.py:695-712 | a full sale turns the position into cash net of fee, logs the trade and drops the key; the other positions stay in place |
| `PortfolioEngine.Engine.ProcessPosition` | utilities/backtest_gpt_v2.py:600-712 | one turn of the slot loop has on its position, cash and log the effect of one step of the transition system |
| `PortfolioEngine.Engine.Turn` | utilities/backtest_gpt_v2.py:600-712 | one turn leaves every other position of the dictionary as it was |
| `PortfolioEngine.Engine.ProcessSlot` | utilities/backtest_gpt_v2.py:590-715 | the in-place loop over a copy of the items equals processing each holding on its own, in order |
| `PortfolioEngine.Engine.TotalValue` | utilities/backtest_gpt_v2.py:486-501 | cash plus the value of every holding that has a row |
| `PortfolioEngine.Engine.Snapshot` | utilities/backtest_gpt_v2.py:504-525 | the same equity as the total value, with sector exposures and holding values |
| `PortfolioEngine.Engine.PutPosition` | utilities/backtest_gpt_v2.py:556-567 | dictionary assignment: an existing key keeps its place, a new key goes last |
| `PortfolioEngine.Engine.ExecuteBuy` | utilities/backtest_gpt_v2.py:534-588 | the buy happens exactly when the quantity is positive and cash covers cost and fee; then cash, log and positions change as specified |
| `BacktestDriver.BacktestGPT.Gate` | utilities/backtest_gpt_v2.py:915-936 | the checks before sizing accept exactly the eligible candidates and return the snapshot |
| `BacktestDriver.BacktestGPT.Cap` | utilities/backtest_gpt_v2.py:955-981 | the two limits and the cash floor applied one after another |
| `BacktestDriver.BacktestGPT.Admit` | utilities/backtest_gpt_v2.py:915-981 | the quantity to order, or nothing when any check skips the attempt |
| `BacktestDriver.BacktestGPT.AttemptBuy` | utilities/backtest_gpt_v2.py:892-995 | a buy attempt has the effect of the transition system's, and reports whether it filled |
| `BacktestDriver.BacktestGPT.TryCandidates` | utilities/backtest_gpt_v2.py:878-883 | candidates are tried in order until the daily limit is reached |
| `BacktestDriver.BacktestGPT.RunSlot` | utilities/backtest_gpt_v2.py:860-883 | a slot sells first and then buys, unless the daily limit is already reached |
| `BacktestDriver.BacktestGPT.RunSlots` | utilities/backtest_gpt_v2.py:860-883 | the slots of a day issue exactly the day's trace of events |
| `BacktestDriver.BacktestGPT.RunDay` | utilities/backtest_gpt_v2.py:845-888 | a day ends in the state of its trace and records its closing equity |
| `BacktestDriver.BacktestGPT.Run` | utilities/backtest_gpt_v2.py:832-890 | the backtest ends in the state of the whole calendar's trace and records the equity curve |
| `DriverSpec.DailyBuyLimit` | utilities/backtest_gpt_v2.py:858-883 | no day fills more buys than the daily limit |
| `DriverSpec.DayInOrder` | utilities/backtest_gpt_v2.py:858-883 | a day issues its slots in order, each followed by attempts on its first candidates; every attempt comes while the day's filled buys leave room, and no candidate is passed over while they do |
| `DriverSpec.DayOfCalendar` | utilities/backtest_gpt_v2.py:845-888 | every day of a calendar starts where the previous one ended and contributes its own point of the curve |
| `BacktestTheorems.BooksBalanceEveryDay` | utilities/backtest_gpt_v2.py:832-890 | the ledger balances at the end of every day of a backtest |
| `BacktestTheorems.BuysOverCalendar` | utilities/backtest_gpt_v2.py:843-883 | a backtest fills at most the daily limit times the number of days |
| `BacktestTheorems.CurveIsGainsLessFees` | utilities/backtest_gpt_v2.py:885-887 | each point of the equity curve is the initial capital plus mark-to-market gains minus all fees so far |
| `EngineLedger.LedgerOverRun` | utilities/backtest_gpt_v2.py:544-715 | after every run, per code BUY minus SELL quantities are the held quantity, cash is capital plus cash flows and never negative, codes are distinct and positions within the maximum |
| `EngineLedger.StepKeepsLedger` | utilities/backtest_gpt_v2.py:544-715 | every slot and every buy attempt keeps the ledger |
| `EngineLedger.SlotConserves` | utilities/backtest_gpt_v2.py:648-712 | a slot gives up per code exactly the shares its sales record, for a non-negative amount of cash |
| `EngineLedger.BuyKeepsLedger` | utilities/backtest_gpt_v2.py:544-571 | a buy of a code that is not held keeps the ledger; the overwrite of a held one is excluded by the attempt's guard |
| `EngineLedger.HeldMeansShares` | utilities/backtest_gpt_v2.py:675-677 | a code is in the dictionary exactly when at least one share of it is held |
| `EngineValue.SlotLosesFees` | utilities/backtest_gpt_v2.py:648-712 | at one price lookup, a slot changes total value by exactly minus its fees |
| `EngineValue.BuyLosesFee` | utilities/backtest_gpt_v2.py:544-571 | a filled buy changes total value by exactly minus its fee, a skipped one not at all |
| `EngineValue.SumsInFigures` | utilities/backtest_gpt_v2.py:486-525 | equity is cash plus shares at live prices of the holdings with a row, and 0 for one without; a sale brings its worth less the fee, a buy costs its worth plus the fee |
| `EngineValue.DriftIsPriceMoves` | utilities/backtest_gpt_v2.py:486-501 | for holdings priced at both lookups the mark-to-market drift is shares times price moves |
| `EngineValue.EquityIdentity` | utilities/backtest_gpt_v2.py:486-717 | over any run, equity moves by mark-to-market gains minus fees |
| `EngineValue.FinalEquity` | utilities/backtest_gpt_v2.py:860-887 | final equity is the initial capital plus mark-to-market gains minus every fee in the log |
| `EngineValue.ExposuresPartition` | utilities/backtest_gpt_v2.py:511-525 | the snapshot's sector exposures are the per-sector sums and add up to everything held |
| `EngineValue.HoldingsPartition` | utilities/backtest_gpt_v2.py:511-525 | the snapshot's holdings give each code its value and add up to everything held |
| `EngineLifetime.TierMovesOnGrid` | utilities/backtest_gpt_v2.py:629-645 | every legal tier stays on the grid of sold ratios, never exceeds 0.9, and uses up one of at most four partial sales |
| `EngineLifetime.PartialKeepsTidy` | utilities/backtest_gpt_v2.py:643-655 | a partial sale keeps the unsold share of a lot of five or more in the position |
| `EngineLifetime.EmptiedByPartialsIff` | utilities/backtest_gpt_v2.py:643-677 | partial sales alone can empty a fresh lot exactly when it has at most four shares |
| `EngineLifetime.TidyOverRun` | utilities/backtest_gpt_v2.py:629-677 | every position of every reachable state has a sold ratio on the grid and its lot's floor |
| `EngineLifetime.LotFloorOverRun` | utilities/backtest_gpt_v2.py:643-677 | in every reachable state a lot of five or more keeps at least its unsold share, a tenth or more of the original |
| `EngineLifetime.OverdueActs` | utilities/backtest_gpt_v2.py:629-693 | past the age limit, a slot that finds the row closes the position or uses up a partial sale |
| `EngineLifetime.OverdueUsesUpPartials` | utilities/backtest_gpt_v2.py:629-715 | along a run in which a code stays open past its limit, each slot that sees it uses up one partial sale |
| `EngineLifetime.BoundedLifetime` | utilities/backtest_gpt_v2.py:629-715 | from any reachable state, a position past its limit is gone after more slots than it has partial sales left, at most five |
| `EngineLifetime.OverduePersists` | utilities/backtest_gpt_v2.py:691-693 | once past the limit, every later slot is too |
| `EngineLifetime.AtMostFourPartials` | utilities/backtest_gpt_v2.py:629-677 | as long as a position stays open, its sells are at most four |
| `EngineLifetime.AtMostFourOverLife` | utilities/backtest_gpt_v2.py:629-715 | over its whole life, including the event that closes it, the RSI tiers sell at most four times |
| `EngineLifetime.SlotIsLocal` | utilities/backtest_gpt_v2.py:600-712 | a slot treats each code on its own |
| `EngineLifetime.BuyIsLocal` | utilities/backtest_gpt_v2.py:919-920 | buy attempts do not touch a code while it is held |
| `EngineLifetime.StopIsRunningMaximum` | utilities/backtest_gpt_v2.py:604-611 | while held, the stop is the maximum of its entry stop and every trailing level seen, the high the maximum of every price seen |
| `EngineLifetime.StepKeepsStopBelowHigh` | utilities/backtest_gpt_v2.py:604-617 | whatever the ATR, a slot never lowers the stop, and what it leaves open keeps its stop at or below its high |
| `EngineLifetime.StopBelowHighOverRun` | utilities/backtest_gpt_v2.py:552-611 | in every reachable state no stop exceeds its position's running high |
| `EngineLifetime.SurvivorIsBetweenStops` | utilities/backtest_gpt_v2.py:613-627 | whatever a slot leaves open is priced above its stop, with profit strictly between dynamic stop and target |
| `EngineAdmission.FittingIsLargest` | utilities/backtest_gpt_v2.py:1000-1038 | each limit returns the largest fitting quantity, and 0 exactly when no half of the wish fits |
| `EngineAdmission.CappedWithinCaps` | utilities/backtest_gpt_v2.py:955-981 | an ordered quantity is within both caps and the cash floor and at least a quarter of the sized one |
| `EngineAdmission.BuyRespectsCaps` | utilities/backtest_gpt_v2.py:915-995 | a filled buy costs at most the cash and the regime-scaled slice of equity, keeps the stock and its sector within their percentages (in a strong bull market the smaller of 20 and 1.5 times, and of 50 and ten more), and leaves the kept share less the fee |
| `EngineAdmission.FilledBuyRespectsCaps` | utilities/backtest_gpt_v2.py:843-995 | so does every filled buy after every run |
| `EngineAdmission.FillsIff` | utilities/backtest_gpt_v2.py:915-995 | a buy fills in a quantity exactly when the candidate passes every gate, the quantity is what the budget pays for cut to the most under the stock and then the sector limit, neither cut going below half, and cash covers the kept share, and the cost with its fee; limits in configuration figures |
| `EngineAdmission.BuyOutcome` | utilities/backtest_gpt_v2.py:534-588 | a filled buy costs its worth and 0.00841 percent of it and enters the new position last, with its stop, target and ATR in figures; a skipped one changes nothing |
| `EngineOutcome.SlotOutcomeIff` | utilities/backtest_gpt_v2.py:600-693 | for each outcome of a slot on a position with a row, exactly when it happens: price against stop, net price against loss limit and target, RSI against its three thresholds with the sold ratio, age, and the averages of a death cross |
| `EngineOutcome.SlotOutcomeFigures` | utilities/backtest_gpt_v2.py:606-712 | what a slot sells and keeps: everything, or the whole part of the original lot's 20, 50 or 30 percent, at least one share and at most what is left; price, fee, and the position left |
| `EngineOutcome.EverySaleIsJustified` | utilities/backtest_gpt_v2.py:590-715 | every sale in the log of a run was made at one of its slots from a position held then, for a reason that held, in the quantity that reason sells |
| `EngineOutcome.RowSeenIff` | utilities/backtest_gpt_v2.py:168-177 | the row a slot works with is the code's last one dated up to the trade date |
| `IntradayPath.SimulateIntradayPath` | utilities/backtest_gpt_v2.py:1105-1141 | the nested loops produce exactly `slots` prices, the prefix of the three joined segments |
| `IntradayPath.StepsCover` | utilities/backtest_gpt_v2.py:1123-1140 | the segments always cover the remaining steps, exactly so from three steps on; padding never happens |
| `IntradayPath.PathShape` | utilities/backtest_gpt_v2.py:1119-1141 | from four slots on the path starts at the open, falls to the low, rises to the high, falls to the close, reaches each exactly and stays within the range |
| `IntradayPath.PathFollows` | utilities/backtest_gpt_v2.py:1094-1141 | the path of a row starts at its open, falls to the least and rises to the greatest of its prices and ends at its close, each price being the eased share of the way between two of them |
| `IntradayPath.BarIsConsistent` | utilities/backtest_gpt_v2.py:1094-1101 | the corrected range contains open and close whatever the row says |
| `IntradayPath.GenerateIntradayCurve` | utilities/backtest_gpt_v2.py:1083-1103 | constant curves without data; otherwise, for prices that are not negative, a curve from the row's own open to its own close whose least and greatest prices are those of the row, with the stated fallbacks for zero fields |
| `Drawdown.ComputeMdd` | utilities/backtest.py:1366-1378 | the one-pass loop computes the worst relative drop over all pairs of days, as a positive percentage |
| `Drawdown.ReportDrawdown` | utilities/backtest_gpt_v2.py:1153-1159 | so does the loop of the report, as a negative fraction, from any starting peak |
| `Drawdown.WorstIsUnique` | utilities/backtest_gpt_v2.py:1153-1159 | the worst drop is determined by the curve, so both loops agree up to sign and scale |
| `Drawdown.FiltersCut` | utilities/backtest_gpt_v2.py:1194-1197 | the two date filters cut the entries in two |
| `Drawdown.ReportOutOfSample` | utilities/backtest_gpt_v2.py:1193-1211 | start and end equity, return and drawdown of the out-of-sample part, or nothing when it is empty |
| `Drawdown.OutOfSampleNotDeeper` | utilities/backtest_gpt_v2.py:1193-1211 | with training days the out-of-sample drawdown is never deeper than the full one |
| `Drawdown.OutOfSampleNotDeeperIff` | utilities/backtest_gpt_v2.py:1193-1211 | the reported out-of-sample drawdown is not deeper than the full one exactly when there are training entries or no equity lies further below the initial capital than the full drawdown |
| `Drawdown.OutOfSampleCanBeDeeper` | utilities/backtest_gpt_v2.py:1198-1211 | the failing instance of that condition: no training entries and one entry below the initial capital |
| `Drawdown.ReportReturn` | utilities/backtest_gpt_v2.py:1151-1152 | the total return takes the initial capital to the last equity |
| `Drawdown.ReturnsCompose` | utilities/backtest_gpt_v2.py:1151-1201 | for the entries of any run, the return of the training part composed with the reported out-of-sample return is the total return |
| `PositionSizing.RefreshesKeepLatest` | shared/position_sizing.py:35-41 | after any series of refreshes each limit is the one most recently configured; a key that disappears keeps its last value rather than its first |
| `PositionSizing.PositionSizer.CalculateQuantity` | shared/position_sizing.py:43-159 | the step-by-step calculation, with its error paths, equals the specified steps |
| `PositionSizing.PositionSizer.LimitByValue` | shared/position_sizing.py:109-155 | the value caps and the two rules that give an order up |
| `PositionSizing.StepsAreClosedForm` | shared/position_sizing.py:75-155 | for a priced stock and any configuration the steps equal min(clamp(trunc(budget / risk)), trunc(cap / price)) with the two skip rules, and the reason tells which rule applied; without assets or risk per share nothing is ordered |
| `PositionSizing.SizedRespectsLimits` | shared/position_sizing.py:101-138 | a non-zero quantity is between minimum and maximum, under both value caps, and within the risk budget unless it is the minimum |
| `PositionSizing.ResultInFigures` | shared/position_sizing.py:75-155 | the whole result for a usable configuration, from the shares the risk budget pays for at the ATR, or at two percent of the price without one, and those the tighter value cap pays for |
| `PositionSizing.NoAssetsNoShares` | shared/position_sizing.py:75-79 | without assets nothing is sized |
| `PositionSizing.LargerAtrNeverMore` | shared/position_sizing.py:85-138 | a larger ATR never gives more shares when the calmer order is not skipped for cash |
| `PositionSizing.VolatilityRuleIff` | shared/position_sizing.py:85-138 | from an ATR upward that rule holds exactly when the order is not skipped for cash there or cash would not pay for the minimum |
| `PositionSizing.SmartSkipBreaksVolatilityRule` | shared/position_sizing.py:125-132 | a concrete account where doubling the ATR turns no order into nine shares |
| `PositionSizing.TruncFits` | shared/position_sizing.py:93-122 | truncating a non-negative quotient gives the largest count that fits |
| `Diversification.CheckDiversification` | shared/portfolio_diversification.py:51-124 | the loop over the holdings and the two rules give the specified verdict |
| `Diversification.AccumulateExposures` | shared/portfolio_diversification.py:76-82 | the dictionary is filled holding by holding |
| `Diversification.SectorsPartition` | shared/portfolio_diversification.py:76-85 | its entries are the per-sector sums and add up to the portfolio value |
| `Diversification.PassedIff` | shared/portfolio_diversification.py:97-124 | a purchase passes exactly when sector and stock values stay within their shares of total assets |
| `Diversification.CheckAntitone` | shared/portfolio_diversification.py:97-124 | ordering less never turns an approval into a rejection |
| `ExecutorOutcome.ItemsAddUp` | shared/portfolio_diversification.py:51-82 | holdings are valued at the current price, without one at cost; total and sector sums add them up |
| `BuyExecutor.CacheIsItems` | services/buy-executor/executor.py:426-443 | with one row per code the checker sees exactly the rows |
| `BuyExecutor.NotHeldIsFilter` | services/buy-executor/executor.py:118 | exactly the candidates that are not held remain |
| `BuyExecutor.BestIsIn` | services/buy-executor/executor.py:135-136 | the selected candidate is one of them and none scores higher |
| `BuyExecutor.ChosenFacts` | services/buy-executor/executor.py:106-145 | what is chosen scores highest among the candidates not held, scores enough, was not traded recently, and the daily and portfolio limits have room |
| `BuyExecutor.StockResizeOutcome` | services/buy-executor/executor.py:282-305 | from whatever total a smaller resize is computed, after a stock-limit rejection its re-check fails exactly when it is still over the stock limit, and never when that total is not above the checker's |
| `BuyExecutor.StockRecheckFailsIff` | services/buy-executor/executor.py:282-305 | the re-check after a stock-limit resize fails exactly when the first verdict is on the stock limit, the resize is positive, smaller, not below half, and worth more than the limit's share of the checker's total |
| `BuyExecutor.SectorRecheckFailsIff` | services/buy-executor/executor.py:247-274 | the same for the sector-limit resize; with equal totals it fails on the stock limit only |
| `BuyExecutor.DuplicateRowsFailRecheck` | services/buy-executor/executor.py:185-305 | a table with two HOLDING rows of one code for which the stock-limit re-check fails |
| `BuyExecutor.KeyedRowsPassRecheck` | services/buy-executor/executor.py:300-305 | with one HOLDING row per code no request ends in that failure |
| `BuyExecutor.SectorResizeOutcome` | services/buy-executor/executor.py:247-274 | from whatever total the resize is computed, the re-check judges it by its own sector and stock values; from a total not above the checker's it is strictly smaller and cannot fail on the sector |
| `BuyExecutor.DiversifySound` | services/buy-executor/executor.py:237-311 | from whatever total resizes are computed, what goes out is a positive approved quantity, no larger than asked |
| `BuyExecutor.DiversifyIff` | services/buy-executor/executor.py:237-310 | exactly which quantity goes out: all that is wanted when it fits both limits; otherwise the most that the broken limit, less 0.1 percentage points, leaves, if that is at least half and fits itself |
| `ExecutorOutcome.SectorStopsIff` | services/buy-executor/executor.py:244-281 | why a wish over the sector limit is not ordered: no room above half a percent, room for no share, or room for less than half |
| `ExecutorOutcome.StockStopsIff` | services/buy-executor/executor.py:284-310 | why a wish over the stock limit alone is not ordered |
| `BuyExecutor.BoughtIsApproved` | services/buy-executor/executor.py:50-345 | whatever rows the table holds, a recorded trade is the chosen candidate in the quantity that was sized, or in the most that the broken limit leaves, and the check approves it; a stock-limit re-check fails only if the executor's total exceeds the checker's |
| `BuyExecutor.AutomaticTradeRespectsCaps` | services/buy-executor/executor.py:200-311 | a recorded trade without a manual quantity costs at most the position cap and leaves the cash-keep share, through ratio, one-share minimum and resize |
| `ExecutorOutcome.ChosenIff` | services/buy-executor/executor.py:75-174 | a candidate is chosen exactly when it is the first of the highest scores among those not held, scores enough, none of those was traded recently, both counts leave room, and it has a price |
| `ExecutorOutcome.NotChosenIff` | services/buy-executor/executor.py:75-145 | which reason is given when no candidate is chosen |
| `ExecutorOutcome.SizeIff` | services/buy-executor/executor.py:157-223 | exactly which quantity is sized: the manual one if cash pays for it, or the whole part of the sizer's quantity times the ratio of the first risk setting, raised to one share; and why none is |
| `ExecutorOutcome.SignalBuysIff` | services/buy-executor/executor.py:50-345 | a signal buys a quantity of a candidate exactly when it is picked, sized, ordered in that quantity, and accepted or not placed for real |
| `ExecutorOutcome.DictionaryIsLastRows` | services/buy-executor/executor.py:426-443 | the checker sees every non-empty code once, with the figures of its last row, at cost |
| `ExecutorOutcome.RowsAddUp` | services/buy-executor/executor.py:180-182 | the executor's own total counts every row at cost |
| `BuyExecutor.Executor.KeepNotHeld` | services/buy-executor/executor.py:114-121 | the loop keeps the candidates that are not held, in order |
| `BuyExecutor.Executor.FirstBest` | services/buy-executor/executor.py:135-136 | the first candidate of highest score |
| `BuyExecutor.Executor.Pick` | services/buy-executor/executor.py:75-174 | the stages before sizing stop or choose as specified, and price the choice |
| `BuyExecutor.Executor.CheckOrder` | services/buy-executor/executor.py:418-467 | the check on the rows as a dictionary by code |
| `BuyExecutor.Executor.DiversifyOrder` | services/buy-executor/executor.py:237-310 | check, resize and re-check as the imperative code does them |
| `BuyExecutor.Executor.Size` | services/buy-executor/executor.py:157-223 | the request's or the candidate's manual quantity, or the sizer's scaled by the candidate's, the request's or the cached risk setting and kept at one share |
| `BuyExecutor.Executor.ProcessBuySignal` | services/buy-executor/executor.py:50-345 | the whole request gives the specified result and records a trade exactly when it bought |
| `SectorCaps.PurchaseMovesValue` | shared/portfolio_diversification.py:76-85 | a purchase adds its worth to its own sector only |
| `SectorCaps.SaleMovesValue` | shared/portfolio_diversification.py:51-82 | a sale takes the marked worth of its shares out of its own sector and out of no other |
| `SectorCaps.SaleKeepsGoodIff` | shared/portfolio_diversification.py:97-98 | a sale at any price leaves every sector within the cap exactly when assets remain and every sector, its own without the shares sold, fits them |
| `SectorCaps.SaleAtMarkFits` | shared/portfolio_diversification.py:97-98 | every sale at the mark or above does |
| `SectorCaps.SignalKeepsGood` | services/buy-executor/executor.py:237-310 | a processed buy signal keeps every sector within the cap and total assets unchanged |
| `SectorCaps.CapsOverRun` | services/buy-executor/executor.py:237-345 | every sector stays within the cap over every run of buy signals, sales at or above the mark, and sales below it that fit; total assets change by what sales earn over their marks |
| `Backtester.Simulator.constructor` | utilities/backtest.py:518-570 | the simulation starts with the initial capital and agreeing figures |
| `Backtester.Simulator.UpdatePortfolioCache` | utilities/backtest.py:571-607 | value and cache are recomputed at the day's prices |
| `Backtester.Simulator.TakeProfit` | utilities/backtest.py:2292-2335 | the RSI tiers, with the full sale when hardly anything would remain |
| `Backtester.Simulator.ApplySellRules` | utilities/backtest.py:2233-2345 | the sell rules decide in their order of priority |
| `Backtester.Simulator.ArmStop` | utilities/backtest.py:2347-2365 | the trailing stop of a kept position is armed or raised in place |
| `Backtester.Simulator.CheckSingleStock` | utilities/backtest.py:2213-2367 | one position is decided on and marked in place; a day without its row or without history leaves it alone |
| `Backtester.Simulator.CollectSells` | utilities/backtest.py:2125-2130 | every position is decided on and marked in place |
| `Backtester.Simulator.ExecuteSale` | utilities/backtest.py:2133-2204 | one sale changes portfolio, cache, cash and running value exactly by the shares sold |
| `Backtester.Simulator.ProcessSells` | utilities/backtest.py:2120-2211 | the day's sells leave the book a recomputation would give; equity never rises when lows are not above closes |
| `Backtester.Simulator.ExecuteBuySignal` | utilities/backtest.py:1121-1278 | a signal buys exactly when its order goes through and cash pays for it; equity stays unchanged |
| `Backtester.Simulator.OfferSignal` | utilities/backtest.py:1027-1084 | the checks of the event loop, then the buy, counting the day's buys |
| `Backtester.Simulator.TradeSignals` | utilities/backtest.py:1018-1090 | the cursor takes off the signals up to the day's end, each once and in order, and trades them |
| `Backtester.Simulator.RunDay` | utilities/backtest.py:995-1094 | a day refreshes, sells, and trades its stretch of the signals |
| `Backtester.Simulator.Run` | utilities/backtest.py:989-1103 | the event loop ends in the specified book and marks each day's equity |
| `BacktesterSpec.KeptIsBetweenStops` | utilities/backtest.py:2258-2345 | a position kept on a day is above every stop, below the target while unsold, younger than the time limit, and fires no open RSI tier |
| `BacktesterOutcome.DayOutcomeIff` | utilities/backtest.py:2228-2345 | for each outcome of a day on a position with a row and history, exactly when it happens; an RSI tier sells the whole part of 20, 50 or 30 percent of the shares held, at least one, and everything when the sold ratio would reach 0.99 |
| `BacktesterOutcome.MarksInFigures` | utilities/backtest.py:2229-2365 | a day raises the high to the close and arms the trailing stop at cost exactly when the close has risen by the initial multiple of the ATR |
| `BacktesterOutcome.SaleInFigures` | utilities/backtest.py:2133-2204 | what a day sells of a position, for how much at the day's low less slippage, and what it leaves |
| `BacktesterOutcome.RowsInFigures` | utilities/backtest.py:571-607 | the day's row, the cached price and the sale price in terms of the last row up to the day |
| `BacktesterOutcome.NoRowNoChange` | utilities/backtest.py:2213-2227 | a day without a row, or with fewer than fifteen so far, leaves a position alone |
| `BacktesterSpec.TrailingNeverPassesBreakEven` | utilities/backtest.py:2258-2365 | the trailing stop is only ever armed at the average price |
| `BacktesterSpec.PartKeepsRatio` | utilities/backtest.py:2187-2195 | after a partial sale sold ratio times lot is exactly the shares sold, and the cap at 1 never applies |
| `BacktesterSpec.DayKeepsConsistent` | utilities/backtest.py:2120-2367 | a day keeps a position consistent and sells something exactly when it decided to |
| `BacktesterSpec.SellPriceBelowClose` | utilities/backtest.py:2156-2161 | a sale is priced at or below the cached close when the low is |
| `BacktesterSpec.CachedWorthUpdate` | utilities/backtest.py:1254-1267 | changing one cache entry changes the recomputed value by the difference at that entry |
| `BacktesterSpec.CachedWorthRemove` | utilities/backtest.py:2170-2204 | removing one entry lowers it by that entry's worth |
| `SimulationSpec.ListingSums` | utilities/backtest.py:1497-1518 | whatever order the cache is walked in, the checker sums up the same values, at cost |
| `SimulationSpec.ListingOrderIrrelevant` | utilities/backtest.py:1159-1237 | so resize and re-check do not depend on that order |
| `SimulationSpec.OrderRespectsLimitsAtCost` | utilities/backtest.py:1121-1237 | what a signal orders keeps its sector and its own value within their shares of total assets, holdings at cost |
| `SimulationOutcome.OrderIff` | utilities/backtest.py:1134-1237 | exactly which quantity a signal orders, from the sizer's quantity, the regime's ratio, the limits at cost and the resize at cached prices |
| `SimulationOutcome.OfferOutcomeIff` | utilities/backtest.py:1027-1270 | exactly what a signal does to the book: with the cash, watchlist, holdings, daily and regime conditions met and the order paid for, the position is entered with its stop in figures; otherwise nothing changes |
| `SimulationOutcome.SoldInFigures` | utilities/backtest.py:2120-2211 | after a day's sells every code holds what the day leaves of it, cash has grown by the sales, and value and cache are recomputed at the day's prices |
| `SimulationSpec.BookedKeepsSound` | utilities/backtest.py:1240-1270 | entering a bought position keeps value and cache in agreement with the portfolio and equity as it is |
| `SimulationSpec.OfferKeepsLimits` | utilities/backtest.py:1027-1084 | one signal keeps agreement, equity and both limits, and buys only a new code outside a bear market |
| `SimulationSpec.TradeKeepsLimits` | utilities/backtest.py:1018-1090 | so do all signals of a day: buys within the daily limit, holdings within theirs |
| `SimulationSpec.SoldIsSound` | utilities/backtest.py:2120-2204 | a day's sells keep the figures in agreement and never add a holding |
| `SimulationSpec.RunKeepsLimits` | utilities/backtest.py:995-1094 | over every run the incremental figures agree with a recomputation, cash is not negative and holdings stay within the limit |
| `SimulationSpec.EachDayTradesItsOwn` | utilities/backtest.py:983-1030 | with signals on calendar days, each day trades exactly its own signals in time order, and the days together each signal up to the end once |
| `SignalCursor.CursorCounts` | utilities/backtest.py:1018-1028 | before each day the cursor has passed exactly the signals dated up to the previous one |
| `SignalCursor.RunExaminesOnce` | utilities/backtest.py:1018-1030 | by the end of a run exactly the signals dated up to its last day have been examined, each once and in time order, on calendar days or not |
| `SignalCursor.BatchIsGroup` | utilities/backtest.py:1018-1028 | a day's batch is its date group when signals are dated on calendar days |
| `SignalCursor.StrayIsExamined` | utilities/backtest.py:1022-1028 | a signal dated between calendar days is still examined, on a later day |
| `SignalCursor.CursorGroupsIff` | utilities/backtest.py:983-1028 | the cursor loop equals grouping by date exactly when no signal falls between calendar days |
| `FactorScoring.CalculateTechnicalScore` | shared/factor_scoring.py:300-387 | the accumulated score is the sum of its three parts |
| `FactorScoring.VolumeScoreIff` | shared/factor_scoring.py:304-327 | the volume part is none up to half of the past mean, 40 from three times it, linear in the ratio of the last five to the twenty before, and 20 without them |
| `FactorScoring.DocumentedVolumePointsDiffer` | shared/factor_scoring.py:312-317 | at an unchanged and at a doubled volume the code gives 8 and 24 points, the comments 20 and 36 |
| `FactorScoring.RsiScoreInterpolates` | shared/factor_scoring.py:329-354 | the RSI part interpolates 30 at 30, 15 at 50, 5 at 70 and 0 at 90, and is constant beyond |
| `FactorScoring.DocumentedRsiPointsDiffer` | shared/factor_scoring.py:332-346 | at an RSI of 40 and of 80 the code gives 22.5 and 2.5 points, the comments 25 and 0 |
| `FactorScoring.BandPartLine` | shared/factor_scoring.py:357-383 | the Bollinger part from the last twenty closes: 15 less 7.5 times the distance from their mean over the deviation, clamped below; 15 for fewer closes or a flat band |
| `FactorScoring.BandScoreLine` | shared/factor_scoring.py:363-376 | the Bollinger part is 15 minus 7.5 standard scores, clamped below only |
| `FactorScoring.BandExceedsIffBelowLowerBand` | shared/factor_scoring.py:367-376 | it exceeds 30 points exactly when the price is below the lower band |
| `FactorScoring.Cauchy` | shared/factor_scoring.py:360-361 | the squared sum of deviations is at most n times the sum of their squares |
| `FactorScoring.Samuelson` | shared/factor_scoring.py:360-365 | the last value of a window lies within (n - 1) / sqrt(n) sample deviations of the mean |
| `FactorScoring.BandScoreBound` | shared/factor_scoring.py:357-376 | for every window of twenty closes the part is below 47 |
| `FactorScoring.TechnicalScoreBound` | shared/factor_scoring.py:285-387 | the technical score lies in [0, 117) |
| `FactorScoring.FinalScoreBound` | shared/factor_scoring.py:419-447 | the final score stays below 1034, and below 1025.5 in a bear market |
| `FactorScoring.FinalScoreWeights` | shared/factor_scoring.py:419-447 | the weights of the four factors per regime, which add up to ten points a point |
| `FactorScoring.BoundIsAttained` | shared/factor_scoring.py:357-376 | nineteen equal closes and a lower one attain the inequality behind 47 |
| `AccountSync.Session.GetDbPortfolio` | utilities/sync_portfolio_from_account.py:83-94 | the HOLDING rows, each once, in any order |
| `AccountSync.CompareHoldings` | utilities/sync_portfolio_from_account.py:111-196 | the four lists partition the union of account and table codes, each code once, with the figures of its rows |
| `AccountSync.ListOnlyInKis` | utilities/sync_portfolio_from_account.py:153-162 | exactly the codes of the account that the table lacks |
| `AccountSync.ListOnlyInDb` | utilities/sync_portfolio_from_account.py:165-176 | exactly the codes of the table that the account lacks, with their recent sells |
| `AccountSync.ListCommon` | utilities/sync_portfolio_from_account.py:179-196 | the common codes, split by whether the quantities differ |
| `AccountSync.Session.ApplySync` | utilities/sync_portfolio_from_account.py:244-298 | closes and corrects the listed rows; a dry run or a failed commit changes nothing |
| `AccountSync.Session.AddMissingHoldings` | utilities/sync_portfolio_from_account.py:301-338 | adds one HOLDING row per item under fresh keys; a dry run or a failed commit adds nothing |
| `AccountSync.Session.Synchronise` | utilities/sync_portfolio_from_account.py:341-407 | one confirmed command is one pass, without its additions when only the second commit fails; dry runs, refusals and a failed first commit change nothing |
| `AccountSyncProofs.PassEffect` | utilities/sync_portfolio_from_account.py:255-329 | a pass treats every old row on its own and adds exactly one row per missing code |
| `AccountSyncProofs.PassInFigures` | utilities/sync_portfolio_from_account.py:255-329 | what a pass leaves in the table, row by row: closed, corrected, kept, or new with its total, high and a stop two percent below the average price |
| `AccountSyncProofs.LastHoldingCounts` | utilities/sync_portfolio_from_account.py:134-136 | of several account entries of one code the last one counts |
| `AccountSyncProofs.LastRowCounts` | utilities/sync_portfolio_from_account.py:137-139 | of several listed rows of one code the last one counts |
| `AccountSyncProofs.SellsInFigures` | utilities/sync_portfolio_from_account.py:141-176 | a code only the table holds is listed with its row's figures, its number of sells, and the first listed of them |
| `AccountSyncProofs.PassShowsAccountIff` | utilities/sync_portfolio_from_account.py:255-329 | after a pass the HOLDING rows are the account, as a map from code to quantity, exactly when no code had two HOLDING rows and the pass adds what is missing or nothing is |
| `AccountSyncProofs.SecondPassIsIdle` | utilities/sync_portfolio_from_account.py:134-329 | once the table shows the account, a pass finds and changes nothing |
| `AccountSyncProofs.PassMakesProgress` | utilities/sync_portfolio_from_account.py:134-329 | with or without additions, and even with duplicate rows, a pass that changes the table leaves strictly fewer discrepancies |
| `AccountSyncProofs.RepeatedPassesEnd` | utilities/sync_portfolio_from_account.py:341-407 | repeated passes, each with or without additions, change the table at most as often as there were discrepancies |
| `MessageWorker.RabbitMQWorker.Callback` | shared/rabbitmq.py:235-258 | when stopping it refuses and requeues; otherwise it acknowledges before handling, and does nothing with a body that does not decode |
| `MessageWorker.RabbitMQWorker.Run` | shared/rabbitmq.py:222-281 | the reconnect loop stops at the first look after the stop request, and counts and pauses after every attempt made |
| `MessageWorker.PauseFollowsRefusals` | shared/rabbitmq.py:232-279 | the counter is the number of refusals in a row, plus one after an error on an open connection |
| `MessageWorker.PauseInFigures` | shared/rabbitmq.py:222-281 | the pause is five seconds per refusal since a connection was last made, from any count at the start, and a minute from the twelfth on |
| `MessageWorker.StoppingHandsBack` | shared/rabbitmq.py:235-240 | a delivery that reaches a stopping worker goes back to the head of the queue and changes nothing else |
| `MessageWorker.StoppedStartsNothing` | shared/rabbitmq.py:235-258 | while a worker stays stopped no run starts the handler or acknowledges a message |
| `MessageWorker.OnePlaceInOrder` | shared/rabbitmq.py:202-258 | in every run each message is in exactly one of removed, unacked and ready, in the order of publication |
| `MessageWorker.HandledAtMostOncePlusLost` | shared/rabbitmq.py:235-258 | in every run only decoded messages are removed, and a message is handled at most once more than its acknowledgements got lost |
| `MessageWorker.RemovedWasHandled` | shared/rabbitmq.py:240-258 | a removed message was handled once more than its acknowledgements got lost, less the times the process died on it; so at all exactly when it died on it no more often than they got lost |
| `MessageWorker.BoundIsAttained` | shared/rabbitmq.py:202-250 | for every number of lost acknowledgements some run handles a message exactly once more than that |
| `MessageWorker.RemovedUnhandled` | shared/rabbitmq.py:244-250 | acknowledging first can remove a message that is never handled |
| `MessageWorker.PoisonBlocksQueue` | shared/rabbitmq.py:240-258 | from the moment the oldest message does not decode, no run removes a message or starts the handler again |
| `MessageWorker.QueueMovesIff` | shared/rabbitmq.py:222-258 | some continuation removes a message exactly when the oldest one left decodes |

## Left out

- SectorCaps.CapsOverRun: fixed marks and a fixed cap, as the cap can be broken by price moves or by a change of regime alone; one HOLDING row per non-empty code.
- BuyExecutor.AutomaticTradeRespectsCaps: a position size ratio of at most 1, as `shared/market_regime.py:222` documents it, and a usable sizer configuration.
- AccountSync.Session.ApplySync: the columns `updated_at` and `created_at`.
- BuyExecutor.Executor.ProcessBuySignal: preset and regime lookup, the order gateway and the record in the database are inputs or left out.
- Backtester.Simulator.ProcessSells: lows are not negative, so that cash cannot become negative by a sale.
- MessageWorker.OnePlaceInOrder: one worker on the queue; the delayed and expiring messages of the publisher are not modelled.
- Floating-point rounding, in every module.
- `process_slot`'s returned list of actions, and the fallback to CLOSE prices of `total_value` and `snapshot`, which the driver never uses.
- The cache of intraday prices (`_get_intraday_price`), which only avoids recomputation.
- The fail-open paths of the diversification checker on exceptions.
- Candidate and signal generation, indicators, regime detection, LLM scores: arbitrary inputs.
- Monthly returns, reports, logs, CSV and JSON output, the database, Redis, the brokerage gateway, Telegram, Flask.
- Dead or superseded code in utilities/backtest.py: `_process_buys`, `_process_buys_hybrid`, `_scan_single_stock_for_buy`, `_calculate_ranking_score`, both `_calculate_position_size`.
- Momentum, quality and value scores: sums of clamped parts within 100, taken as inputs of the final score.
- Threads, process pools and concurrent requests: one sequential driver.
