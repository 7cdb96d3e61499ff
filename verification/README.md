# Paper-trading platform: verified model

A Dafny model of the parts of the platform whose promises span whole runs, and proofs of those promises:

- **Money.** The paper portfolio, the target planner, the risk gate, the paper broker and the shadow run that strings them
  together; the scheduler's daily trading from day to day; the alpha ledger and its rebuilds; the backtest engine. The main results are
  conservation laws over every sequence of fills, with the rounding of the code accounted for.
- **The daily job.** A leased lock with takeover, driven by any number of workers that may stall, raise or crash anywhere.
  Every committed transaction is one step; steps interleave in any order under one clock that never runs backwards.
- **Broker events.** An idempotent, saturating fold.
- **Caches.** The stale-while-refresh cache as a step protocol, the snapshot cache behind its circuit breaker over whole
  call histories, and the bounded time-to-live cache against an unbounded map.
- **Calendar.** Bounded day searches with their exact meaning, and the counting argument for the 370-day cap.
- **Listing and streaming.** Keyset pagination as a partition of the table, and exactly-once delivery of the dashboard event
  log over any number of connections.

Code that changes state is a class whose methods are proved against functions of the old state; protocols are a `System`
datatype with an `Enabled`/`Perform` step relation, and theorems quantify over every possible sequence of actions. Where a
protocol has a sequential counterpart (`PollingCache.Cache.GetOrRefresh`, `DailyJob.RunDailyJob`) a lemma connects the two.

Floats are `real`, so the only rounding is the one the code asks for; `round(x, k)` is the nearest multiple of 10^-k, ties to
even (`Rounding.dfy`). Dates are day ordinals, instants are numbers of one clock. Quotes, decisions, the outcome of a
refresh or a fetch, generated ids and clock readings are parameters.

Where the code falls short of what one would expect, the model keeps the code and a lemma shows the case:

- A cancelled order still fills (`OrderEvents.CancelledOrderStillFills`); `OrderEvents.ClosedOrderStaysClosedIff` says exactly
  which streams leave a cancelled or rejected order closed. Although a comment announces a copy that protects the original
  state, `apply_broker_event` appends to the id list it shares with its input (`OrderEvents.ApplyBrokerEvent` states both
  effects).
- A worker that stalls between its check and its `create_run` until its lease is taken over can leave two blocking runs, after
  which the single-row lookup raises (`DailyJobRuns.LateCreationDoublesTheRun`). A day never has two exactly when every run is
  created while none blocks (`DailyJobRuns.OneBlockingRunIffCreatedUnblocked`): the check would have to be repeated there.
- A worker that crashes while trading loses the day: its run blocks the worker that takes over, which then closes the lock for
  good (`DailyJobRuns.CrashWhileTradingLosesTheDay`). A day is recoverable exactly when no run blocks it
  (`DailyJobRuns.DayIsRecoverableIff`).
- When a watchlist sells a held symbol twice the broker raises (`ShadowRun.SellingTwiceIsRejected`), and the shadow run, which
  catches the error, ends as failed with its earlier orders filled; for any decisions `ShadowRun.GatedPlanGoesThroughIff` says
  exactly when that does not happen.
- The gate looks at one BUY at a time, so approved BUYs may together exceed the cash
  (`ShadowRunCash.ApprovedBuysCanOverspend`); `ShadowRunCash.CashStaysNonNegativeIff` gives the condition.
- The scheduler reads its cash from the latest snapshot and its shares from the positions. A run that trades but records no
  snapshot, because it raised or because the day already had one, parts the two by exactly the cash it moved
  (`DailyHistory.CashIsHandedOnIff`; `DailyHistory.RaisedRunKeepsTheCash` shows a run that leaves 500 too much).
- A full `TTLMemoryCache` may forget a live key even when the key being set is already stored; the cache agrees with the
  unbounded map exactly when there is room to spare (`TtlCache.CacheIsIdealIffRoomToSpare`).
- The broker events check no fill quantity. With negative partial fills the filled quantity is no longer the capped sum, and it
  may depend on the order of arrival (`OrderEvents.NegativeFillNeedsItsPlace`); `OrderEvents.FilledIsCappedSumIff` and
  `OrderEvents.FilledIgnoresOrderIff` give the exact conditions.
- A rebuild from manual fills drops short positions from the stored rows but keeps their unrealized profit in the report
  (`AlphaPortfolio.ShortIsReportedNotStored`). The two agree at all prices exactly when no symbol is short
  (`AlphaPortfolio.ReportedIsStoredIff`).
- A BUY of a negative quantity followed by the BUY that covers it loses cash without a reported loss
  (`AlphaLedger.CoveringAShortHidesTheLoss`); `AlphaLedger.FillConservesCapitalIff` gives the exact condition.
- The events table has no uniqueness of (user, run, seq). If two appends read the maximum before either inserts, a reader may
  never see one of the events (`EventLog.RacingAppendsHideAnEvent`); the numbering holds exactly when no insert into a log
  falls between another append's read of it and its insert (`EventWriters.NumberedIffUndisturbed`).
- `recent_trading_days` meets the 370-day cap for some end dates as soon as more than 249 A-share or 254 US days are asked
  for (`TradingCalendar.CapIsNeverHitIff`).

## Model

| member | source | states |
|---|---|---|
| Rounding.Nearest | src/execution/paper_portfolio.py:45 | Python's rounding: at most half a unit away, an exact half goes to the even neighbour |
| Rounding.NearestIsUnique | src/execution/paper_portfolio.py:45 | those two clauses leave only one value |
| Rounding.RoundsToTheGrid | src/execution/paper_portfolio.py:45 | rounding lands on the multiple of a cent, a ten-thousandth or a millionth whose number is nearest |
| MarketRules.LotQuantityIsLargestAffordable | src/core/market_rules.py:43-47 | the quantity is a whole number of lots within the target value and no larger such number is affordable |
| MarketRules.LotIsNatural | src/core/market_rules.py:47 | rounding down to lots stays non-negative, loses less than one lot and leaves a multiple |
| PaperPortfolio.ApplyFill | src/execution/paper_portfolio.py:4-45 | the fill's cash, averaged position and rounded profit, or the error for an oversold or unknown side |
| PaperPortfolio.FillMovesItsSymbol | src/execution/paper_portfolio.py:18-45 | a purchase adds its shares and takes no profit; a sale takes its shares and its profit, keeps the average and clears it at zero; other symbols stay |
| PaperPortfolio.FillMovesBookValue | src/execution/paper_portfolio.py:18-45 | one accepted fill of any quantity and price moves cash plus cost basis by its reported profit, its BUY fee and the cost a zeroed position forgets, within half a cent per BUY and a cent per SELL |
| PaperPortfolio.FillKeepsNothingShort | src/execution/paper_portfolio.py:28-40 | with a non-negative quantity no position goes negative and nothing is forgotten |
| PaperPortfolio.ReplayHoldsNet | src/execution/paper_portfolio.py:18-44 | an accepted sequence of any fills holds of every symbol what the start held plus purchases less sales |
| PaperPortfolio.ReplayAcceptedIff | src/execution/paper_portfolio.py:28-42 | any fills from any portfolio are accepted to the end if and only if each names a known side and no sale exceeds the start plus the net of the fills before it |
| PaperPortfolio.ReplayMovesBookValue | src/execution/paper_portfolio.py:13-45 | over every accepted sequence of fills of any quantities cash plus cost basis is the start plus all profit minus all BUY fees and all cost forgotten, within the summed tolerance |
| PaperPortfolio.ReplayConservesBookValue | src/execution/paper_portfolio.py:13-45 | over accepted fills of non-negative quantities no position goes short and nothing is forgotten: cash plus cost basis is the start plus all profit minus all BUY fees, within the summed tolerance |
| PaperPortfolio.TolerancesByCount | src/execution/paper_portfolio.py:45 | the summed tolerance is 0.005 per BUY plus 0.01 per SELL |
| PaperPortfolio.ComputeNav | src/execution/paper_portfolio.py:48-54 | cash plus every position at its price, at its average cost when unpriced, rounded to cents, in whatever order the positions are walked |
| PaperPortfolio.NavByPricing | src/execution/paper_portfolio.py:48-54 | the nav is cash, the priced positions at their prices and the others at their average cost |
| PaperPortfolio.UnpricedIsWorthItsCost | src/execution/paper_portfolio.py:48-54 | without any price the nav is the book value that the replay conserves |
| PaperPortfolio.FillCostsFeeAndSlippage | src/execution/paper_portfolio.py:18-54 | at fixed prices a fill lowers the value by its fee and its slippage against the price, within half a cent |
| Totals.TotalWithout | src/execution/paper_portfolio.py:50-53 | a sum over a dictionary does not depend on the key taken first |
| TargetPlanner.BuyTakesItsShare | src/portfolio/target_planner.py:32-36 | as many BUY ratios as the watchlist is long add up to the maximum, the target value is the slice of the capital without its fraction, and a slice under one unit, a price or a lot size that is not positive buys nothing |
| TargetPlanner.OthersAskForNoValue | src/portfolio/target_planner.py:39-52 | what is not a BUY asks for no value; a SELL is for all shares held, never fewer than none, with its proceeds truncated, and anything else for nothing |
| TargetPlanner.BuildTargetPositions | src/portfolio/target_planner.py:69-102 | succeeds exactly when every active decision has a price, and then gives one target per active decision, in order |
| TargetPlanner.PlanSellsWholePositions | src/portfolio/target_planner.py:39-45 | over distinct symbols each target is for its own symbol and a SELL is for exactly what is held |
| TargetPlanner.BuyFitsItsSlice | src/portfolio/target_planner.py:32-38 | a BUY is the largest lot multiple its truncated slice affords and costs no more than the slice |
| TargetPlanner.BuyReportsItsRounding | src/portfolio/target_planner.py:33-38 | the notional is the cost without its fraction, and the rounding loss is the shares the target value affords beyond the lots, under one lot, to a ten-thousandth |
| TargetPlanner.UnpricedBuyReportsNothing | src/portfolio/target_planner.py:32-38 | a BUY without a price above zero is for nothing and reports nothing |
| TargetPlanner.BuyFillsSlice | src/portfolio/target_planner.py:32-38 | a BUY is for as many whole lots as the slice without its fraction affords, and for none when the slice is under one unit or price or lot are not positive |
| TargetPlanner.PlanStaysWithinCapital | src/portfolio/target_planner.py:80-101 | all BUYs together cost at most capital_base times max_position_ratio |
| PreTradeRisk.VerdictNamesFirstViolation | src/risk/pre_trade_risk.py:42-62 | the gate approves exactly the requests no rule objects to, and otherwise names the first rule, in the order of the checks, that does |
| PreTradeRisk.ApprovedBuyIsBounded | src/risk/pre_trade_risk.py:46-56 | an approved BUY is in whole lots, costs less than the cash plus one, and with positive nav leaves the holding below ratio times nav plus one |
| PreTradeRisk.SameDaySaleIsBlocked | src/risk/pre_trade_risk.py:57-61 | an A-share sale on or before its buying day is never approved |
| PaperExecution.PaperExecutionService.ExecuteTarget | src/execution/paper_execution_service.py:34-123 | one target becomes one stored order: filled at the slipped price, charged the fee of its notional and agreeing with its booked fill, or left submitted when the fill is rejected |
| PaperExecution.PaperExecutionService.ExecuteTargets | src/execution/paper_execution_service.py:22-133 | the result is the replay of the targets' fills, orders and snapshot are stored accordingly, and a rejected fill stops the loop with its error, earlier orders filled and no snapshot |
| PaperExecution.PaperExecutionService.FillAll | src/execution/paper_execution_service.py:34-123 | the loop itself: the replayed state with one booked order per target, or the store at the rejected target |
| PaperExecution.SlippageIsAsConfigured | src/execution/paper_execution_service.py:163-167 | on either side a fill is worse than its quote by the configured slippage, to a twenty-thousandth per share |
| PaperExecution.FeeIsAsConfigured | src/execution/paper_execution_service.py:40 | every fill's fee is its notional times fee_bps over ten thousand, to half a cent |
| PaperExecution.FeesAreAsConfigured | src/execution/paper_execution_service.py:34-123 | over a run the fees are that part of the turnover of the stored orders, to half a cent per order |
| PaperExecution.ReplayNext | src/execution/paper_execution_service.py:64-73 | one more fill is booked on top of the replay so far, or rejects the whole replay with its error |
| ShadowRun.Run | src/execution/shadow_run_service.py:279-443 | the executed targets are the plan's approved ones in order, the report agrees with their replay, and the run fails exactly when a price is missing or an approved SELL is not covered |
| ShadowRun.ApproveTargets | src/execution/shadow_run_service.py:290-345 | the loop keeps exactly the targets the gate approves, in order |
| ShadowRun.GatedPlanGoesThroughIff | src/execution/shadow_run_service.py:279-388 | for every decision list, repeated symbols included, the gated plan is executed without an oversold error if and only if, at each approved SELL of a symbol of which h are held, k earlier ones leave k times h within the shares bought before |
| ShadowRun.DistinctFillsGoThrough | src/execution/paper_portfolio.py:28-44 | fills in distinct symbols that sell whole positions all go through, empty what they sell, add what they buy and touch nothing else |
| ShadowRun.ReplayCostsFeesAndSlippage | src/execution/paper_execution_service.py:34-73 | any accepted fills in priced symbols lower the value by total fees plus total signed slippage, within half a cent per fill |
| ShadowRun.GatedPlanNeverOversells | src/execution/shadow_run_service.py:279-345 | over distinct symbols the gated plan's fills never raise the oversold error |
| ShadowRun.GatedBuysAreBounded | src/execution/shadow_run_service.py:324-345 | every executed BUY costs less than the cash plus one and, with positive nav, leaves its holding below ratio times nav plus one |
| ShadowRun.RunMovesItsPositions | src/execution/shadow_run_service.py:376-388 | after a run over distinct symbols sold symbols are at zero and bought ones grew by their targets |
| ShadowRun.RunProfitIsCost | src/execution/shadow_run_service.py:376-443 | for any decisions the reported net profit is the portfolio's worth at the run's prices above the previous nav, less fees and signed slippage, within half a cent per fill and a cent |
| ShadowRun.ReportIsAgainstRecordedNav | src/execution/shadow_run_service.py:390-443 | net profit is against the recorded nav, or the capital while none is recorded, and fees are the configured part of the turnover |
| ShadowRun.GateSeesRecordedNav | src/execution/shadow_run_service.py:290-345 | the gate compares with the recorded nav, and with the capital only while none is recorded |
| ShadowRun.SellingTwiceIsRejected | src/execution/paper_portfolio.py:30-31 | a held symbol decided SELL twice is planned, approved twice and then rejected as oversold |
| ShadowRunCash.RunLeavesCashLessOutlay | src/execution/paper_execution_service.py:34-73 | an executed run leaves the cash less purchases at the quotes, plus sales, less fees and slippage, within half a cent per fill |
| ShadowRunCash.RunCostsAtMostAllowance | src/portfolio/target_planner.py:80-101 | planner, gate and broker together: at non-negative quotes a run never costs more than capital_base times max_position_ratio plus fees and slippage, within half a cent per fill |
| ShadowRunCash.CashStaysNonNegativeIff | src/risk/pre_trade_risk.py:50-51 | in whole cents the run ends with non-negative cash if and only if its outlay is within the cash before it; with fractions up to half a cent per fill |
| ShadowRunCash.LotsOfHundredMoveCents | src/execution/paper_execution_service.py:38-40 | lots of a hundred at four-decimal prices and a fee in cents move whole cents |
| ShadowRunCash.ApprovedBuysCanOverspend | src/risk/pre_trade_risk.py:50-51 | two BUYs of 500 are planned and approved against a cash of 600 and leave -400 |
| DailyTrading.AccountLedger.UpdateForFill | src/scheduler/daily_scheduler.py:318-335 | the position after one booked target: averaged, reduced by what is there, or emptied |
| DailyTrading.AccountLedger.ReadAccount | src/scheduler/daily_scheduler.py:191-217 | the cash and the positions value of the latest snapshot, and before the first the positions at their quotes and the capital less those |
| DailyTrading.AccountLedger.BookTargets | src/scheduler/daily_scheduler.py:298-337 | positions and fill rows after the first targets, in order |
| DailyTrading.AccountLedger.TradeAndSnapshot | src/scheduler/daily_scheduler.py:298-370 | positions, fill rows, recomputed cash, positions value and the day's snapshot after all targets; when the store raises on the way, what was committed until then and no snapshot |
| DailyTrading.AccountLedger.ExecuteDailyTrading | src/scheduler/daily_scheduler.py:191-370 | for any quotes and signals: without decisions nothing changes; otherwise the targets are the plan of the decisions sized by the account as read, the fill rows and books are those of the run, it stops exactly when and where the store raises, and a day that finishes does to every symbol what its signal says and computes exactly the nav it started from |
| DailyTrading.AccountLedger.PlanDay | src/scheduler/daily_scheduler.py:284-294 | the day's run is planned from its decisions on the cash and positions value that were read, targets each symbol once, at a known price, sells exactly what is held, and would end at the nav it starts from |
| DailyTrading.DayObeysSignals | src/scheduler/daily_scheduler.py:230-337 | on a finished day a watched symbol with a SELL signal is sold whole in one fill at its price, one with a BUY signal grows by the lots its slice affords in one fill, and every other symbol keeps its position and gets no fill |
| DailyTrading.CapitalBaseIsLatest | src/scheduler/daily_scheduler.py:209-217 | purchases are sized by the initial capital until there is a snapshot, then by the cash and positions value of the latest |
| DailyTrading.ExecutedConserves | src/scheduler/daily_scheduler.py:299-344 | what a run executed, finished or not, conserves cash plus positions at its prices |
| DailyTrading.LatestDay | src/paper_ledger/store.py:252-265 | the latest snapshot is the one of the greatest day |
| DailyTrading.PositionsValue | src/scheduler/daily_scheduler.py:340-344 | the loop's total over all stored positions |
| DailyTrading.FinalCash | src/scheduler/daily_scheduler.py:348-357 | starting cash moved by every target with a positive quantity |
| DailyTrading.FillMovesValue | src/scheduler/daily_scheduler.py:318-357 | one booked target conserves cash flow plus value except for shares sold that were not held |
| DailyTrading.FillAveragesCost | src/scheduler/daily_scheduler.py:320-335 | a BUY adds its cost to the cost basis, a sale keeps the average cost of what remains and clears it when nothing does |
| DailyTrading.TradingMovesNavByPhantoms | src/scheduler/daily_scheduler.py:299-359 | for any targets in priced symbols nav moves by exactly the worth of those shares |
| DailyTrading.DistinctPlanHasNoPhantoms | src/scheduler/daily_scheduler.py:284-335 | over distinct symbols selling what is held there are none |
| DailyTrading.SellingTwiceCreatesValue | src/scheduler/daily_scheduler.py:328-357 | why symbols must not repeat: a target list that sold one holding twice would raise nav by its worth; no watchlist yields one |
| DailyWatchlist.Watchlists.ForMarket | src/scheduler/daily_scheduler.py:223-228 | the market's own list grows by exactly the held symbols it lacks and stays without repetition |
| DailyWatchlist.Watchlists.constructor | src/scheduler/daily_scheduler.py:22-37 | the default lists name each symbol once |
| DailyWatchlist.Decide | src/scheduler/daily_scheduler.py:230-278 | the decisions and prices of the watched symbols' turns, in order |
| DailyWatchlist.SignalsAreDecided | src/scheduler/daily_scheduler.py:234-278 | a symbol is decided on with a side exactly when it is watched and came with a price and that signal |
| DailyWatchlist.DecidedInOrder | src/scheduler/daily_scheduler.py:234-278 | each place of the watchlist with a signal has exactly one decision, and they keep its order |
| DailyWatchlist.DecisionsAreDistinct | src/scheduler/daily_scheduler.py:234-278 | a list without repetition yields at most one decision per symbol, and every decision has a price |
| DailyHistory.RecordedRunDoesNotDrift | src/scheduler/daily_scheduler.py:209-217 | a run that finishes on a day later than every stored snapshot hands its cash on exactly |
| DailyHistory.UnrecordedRunDriftsByItsFlow | src/scheduler/daily_scheduler.py:209-217 | a run that raised, or whose day had a snapshot, leaves the next one's cash wrong by exactly the cash it moved |
| DailyHistory.UnrecordedFirstRunStartsOver | src/scheduler/daily_scheduler.py:209-211 | before the first snapshot each run starts from the capital again; the exact difference |
| DailyHistory.CashIsHandedOnIff | src/paper_ledger/store.py:234-250 | with a snapshot in the books the cash is handed on exactly if and only if the run is recorded or moved no cash on balance |
| DailyHistory.RaisedRunKeepsTheCash | src/scheduler/daily_scheduler.py:298-337 | a BUY of 500 that was booked before the raise leaves the next run 500 too much |
| DailyHistory.NavMovesOnlyWithPrices | src/scheduler/daily_scheduler.py:209-370 | over any history of runs on one ledger, finished or not, nav is the first run's plus the revaluation of the positions held in between plus the drifts |
| DailyHistory.RecordedHistoryDoesNotDrift | src/scheduler/daily_scheduler.py:209-370 | when every earlier run is recorded there is no drift, so trading creates and destroys nothing over any number of days |
| DailyHistory.FinishedDaysAreRecorded | src/paper_ledger/store.py:204-265 | days in increasing order that all finish are all recorded |
| DailyHistory.SnapshotsMoveOnlyWithPrices | src/scheduler/daily_scheduler.py:209-370 | on an account without snapshots, when days in increasing order all finish, every stored snapshot's nav is the opening nav plus what the held positions gained by its day |
| DailyHistory.UndisturbedDaysFinish | src/scheduler/daily_scheduler.py:178-375 | increasing days on which the store never raises make runs that all finish, in order |
| DailyHistory.TradeDays | src/scheduler/daily_scheduler.py:178-375 | scheduled days one after another leave the books of the history of just these days, each day with decisions on its watchlist making one run of its own input; a last day that finishes computes the nav predicted; and on an account without snapshots increasing days without a raise store only snapshots whose nav is the opening one plus revaluations |
| PaperLedgerStore.Store.AcquireJobLock | src/paper_ledger/store.py:298-349 | the lock is won exactly when the key is new or running on a lease that has run out, and then carries the caller's lease |
| PaperLedgerStore.Store.FinishJobLock | src/paper_ledger/store.py:351-361 | closes the row whoever owns it and ignores a missing key |
| PaperLedgerStore.Store.CheckRunExists | src/paper_ledger/store.py:267-288 | the answer of the single-row lookup over the runs that block |
| PaperLedgerStore.StandingRowsAreFound | src/paper_ledger/store.py:267-288 | the lookup says yes exactly when one row of the day and source is running, successful or skipped and all others have failed, raises exactly when two have not failed, and says no exactly when all have |
| PaperLedgerStore.Store.CreateRun | src/paper_ledger/store.py:63-94 | adds a running row |
| PaperLedgerStore.Store.UpdateRunStatus | src/paper_ledger/store.py:96-107 | changes the status of an existing row and raises for a missing one |
| PaperLedgerStore.InsertSnapshot | src/paper_ledger/store.py:204-250 | a snapshot goes in under a new key; under a taken one the first row stays and is answered |
| DailyJob.RunDailyJob | src/scheduler/daily_scheduler.py:108-176 | a job that loses the lock changes nothing; one that wins it always closes the lock; behind an automatic run that is running, successful or skipped it touches neither runs nor snapshots, and otherwise it adds one run that ends, like the lock, successful, skipped or failed as the day does |
| DailyJob.RunAndTrade | src/scheduler/daily_scheduler.py:138-176 | behind the two guards the new run and the lock end with the same status, whether the market is closed, trading ends or it raises |
| DailyJob.AloneIsRunDailyJob | src/scheduler/daily_scheduler.py:117-176 | the protocol's steps of one worker, uninterrupted, leave the tables as that method does |
| DailyJobProtocol.LeasesExcludeEachOther | src/paper_ledger/store.py:298-349 | in every run no two workers hold an unexpired lease on one key |
| DailyJobProtocol.FinishedKeyStaysFinished | src/paper_ledger/store.py:327-348 | from a finished key on, every continuation keeps it finished with the same owner and nobody wins it |
| DailyJobProtocol.FinishedKeyIsNeverLeasedAgain | src/paper_ledger/store.py:327-361 | the same from the start: after a key is finished at any moment its lock is never won again |
| DailyJobProtocol.FirstSnapshotStays | src/paper_ledger/store.py:234-250 | the first snapshot of a day is the one every later state has |
| DailyJobProtocol.ExpiredLeaseCanBeTakenOver | src/paper_ledger/store.py:327-346 | once a running lease is over a new worker can win the lock row |
| DailyJobProtocol.LeaseLastsTwoHours | src/paper_ledger/store.py:299-345 | a new key is leased to its winner from the instant it read its clock for two hours |
| DailyJobRuns.OneBlockingRunIffCreatedUnblocked | src/scheduler/daily_scheduler.py:133-162 | in every run no market and day ever has two blocking automatic runs if and only if each run is created while none blocks, which is what a second check right before would test |
| DailyJobRuns.StepKeepsOneIff | src/scheduler/daily_scheduler.py:133-162 | the same for one step of any kind from any accounted state |
| DailyJobRuns.InTimeIsAsOwner | src/scheduler/daily_scheduler.py:123-162 | a worker that creates its run within its lease is still the last to have leased the lock |
| DailyJobRuns.AsOwnerIsUnblocked | src/scheduler/daily_scheduler.py:133-162 | while it is, what its check found still holds, so nothing blocks its creation |
| DailyJobRuns.OneBlockingRunPerDay | src/paper_ledger/store.py:267-288 | so if every worker creates within its lease, or before its lock is taken over, the single-row lookup never meets two rows |
| DailyJobRuns.CheckPassesIff | src/scheduler/daily_scheduler.py:133-136 | in any state a worker passes its check if and only if every automatic run of the day has failed |
| DailyJobRuns.SettledDayIsNotTradedAgain | src/scheduler/daily_scheduler.py:117-176 | once a run of the day ended well and no worker is past its check, no interleaving of any workers ever creates another automatic run of the day or touches that one |
| DailyJobRuns.LateCreationDoublesTheRun | src/scheduler/daily_scheduler.py:134-162 | a concrete run in which a stalled worker leaves two blocking runs |
| DailyJobRuns.DayIsRecoverableIff | src/scheduler/daily_scheduler.py:123-162 | once a lease is over, a new worker running alone can reach the creation of its run if and only if no run blocks the day |
| DailyJobRuns.CrashWhileTradingLosesTheDay | src/scheduler/daily_scheduler.py:133-136 | a concrete run: a worker crashes while trading, the next one skips the day, the crashed run stays running, and no continuation ever leases the key again |
| OrderEvents.ApplyBrokerEvent | src/execution/state_machine.py:3-58 | the new state with the event applied once, and the shared id list's effect on the input |
| OrderEvents.RepeatsDoNothing | src/execution/state_machine.py:8-11 | any stream gives the state of the stream without later repeats |
| OrderEvents.ProcessedWasSent | src/execution/state_machine.py:52-56 | an id is marked as processed exactly when it was before or came with an event |
| OrderEvents.FilledIsSumLessOvershoot | src/execution/state_machine.py:20-70 | any stream on a new order: over its distinct events the filled quantity is the sum of partial fills since the last FILLED event less the greatest overshoot of a running sum over the room there was |
| OrderEvents.FilledIsCappedSumIff | src/execution/state_machine.py:20-70 | any stream: all of the order once a FILLED event is among the distinct ones, else the capped sum of the distinct partial fills, if and only if no running sum exceeded the final one or, before any FILLED event, the order quantity; always when no partial fill is negative |
| OrderEvents.FilledIgnoresOrderIff | src/execution/state_machine.py:20-43 | distinct events fill alike in every order of arrival if and only if no partial fill is negative, or none is FILLED and the rising ones together fit the order |
| OrderEvents.NegativeFillNeedsItsPlace | src/execution/state_machine.py:30-38 | fills of 15 and -5 on an order of 10 leave 5 in one order and 10 in the other |
| OrderEvents.StatusAgreesWithQuantity | src/execution/state_machine.py:30-43 | every stream keeps the filled quantity within the order, FILLED to fully filled and PARTIALLY_FILLED to not; without negative partial fills it stays non-negative |
| OrderEvents.StatusIsOfLastEvent | src/execution/state_machine.py:20-50 | among distinct events the last of a known kind decides the status: cancelled, rejected with its reason, filled, or partially filled unless the order is full; without one nothing changes |
| OrderEvents.CancelledOrderStillFills | src/execution/state_machine.py:39-45 | there is no terminal-state guard |
| OrderEvents.ClosedOrderStaysClosedIff | src/execution/state_machine.py:8-50 | a cancelled or rejected order keeps its status through every moment of a stream if and only if each event repeats that status, is of an unknown kind, was processed before or repeats an earlier id |
| PollingCache.Cache.GetOrRefresh | src/api/polling_cache.py:27-61 | entries, locks and outcome of a call nothing interleaves with: until its expiry an entry is answered and nothing changes, and from then on a refresh that returns is the answer and stays for the time-to-live |
| PollingCache.AloneMeans | src/api/polling_cache.py:27-61 | the four cases of such a call: unexpired, expired behind a taken lock, refreshed, and refreshed in vain |
| PollingCache.StoredForTheTimeToLive | src/api/polling_cache.py:27-47 | what a refresh stored answers the next call exactly until the time-to-live is over |
| PollingCache.Cache.Clear | src/api/polling_cache.py:63-65 | forgets every entry and no lock |
| PollingCache.Cache.LockFor | src/api/polling_cache.py:67-73 | creates the key's lock once |
| PollingProtocol.OneRefreshPerKey | src/api/polling_cache.py:33-61 | in every interleaving at most one caller per key is inside refresh |
| PollingProtocol.FinishedCallersHoldNothing | src/api/polling_cache.py:38-61 | a call that ended, by value or exception, holds no lock |
| PollingProtocol.AllLocksAreFreedInTheEnd | src/api/polling_cache.py:38-61 | when all calls have ended every lock is free |
| PollingProtocol.WhoSawAnEntryNeverWaits | src/api/polling_cache.py:35-38 | a caller that saw an entry never waits for the lock |
| PollingProtocol.ValuesComeFromRefreshes | src/api/polling_cache.py:28-58 | every returned and every cached value came from a completed refresh of that key |
| PollingProtocol.FailedRefreshesChangeNothing | src/api/polling_cache.py:49-61 | until a refresh of the key returns or somebody clears, its entry stays as it was |
| PollingProtocol.ReadEndsIffUnexpired | src/api/polling_cache.py:28-35 | reading the dictionary ends a call exactly when the entry has not expired, and otherwise sends it to the lock |
| PollingProtocol.EntryAnswersUntilItExpires | src/api/polling_cache.py:27-61 | in every interleaving without a renewal exactly the readers before the expiry are answered at once |
| PollingProtocol.WaiterTakesWhatItFinds | src/api/polling_cache.py:38-47 | whoever waited and finds an entry answers it without a refresh, and refreshes when there is none |
| PollingProtocol.WaiterAnswersWhatWasCached | src/api/polling_cache.py:38-41 | a waiter that gets the freed lock answers what was cached meanwhile and frees the lock again |
| PollingProtocol.RaisingFallsBackIff | src/api/polling_cache.py:42-61 | a raising refresh is answered with the seen entry exactly for a caller that did not wait and an exception that is caught |
| PollingProtocol.ClearForgetsEntries | src/api/polling_cache.py:63-65 | clear empties the entries and nothing else |
| PollingProtocol.SomeoneCanAlwaysMove | src/api/polling_cache.py:33-61 | no deadlock: an unfinished caller, or the holder it waits for, has a step |
| PollingProtocol.AloneIsGetOrRefresh | src/api/polling_cache.py:27-61 | the protocol run without interruption does what the method promises |
| SpotSnapshotCache.Cache.GetFrame | src/data/providers/akshare_snapshot_cache.py:28-45 | the answer and the new fields for every state, instant and fetch outcome |
| SpotSnapshotCache.BreakerCountsFailures | src/data/providers/akshare_snapshot_cache.py:36-44 | the breaker is set exactly when the consecutive failures reach the threshold, for open_seconds after the last, and failures are then that far apart |
| SpotSnapshotCache.RefusedIffRecentlyTripped | src/data/providers/akshare_snapshot_cache.py:30-31 | a call is refused exactly while the consecutive failures have reached the threshold and the last is less than open_seconds ago |
| SpotSnapshotCache.FreshFrameIsAnswered | src/data/providers/akshare_snapshot_cache.py:32-45 | a frame younger than ttl_seconds is answered without the fetcher; an older one never is |
| SpotSnapshotCache.FailuresAreThrottled | src/data/providers/akshare_snapshot_cache.py:28-40 | the n-th consecutive failure is at least (n - threshold) times open_seconds after the threshold-th |
| SpotSnapshotCache.OpenBreakerHidesNothing | src/data/providers/akshare_snapshot_cache.py:30-33 | an open breaker means no fresh frame, so swapping the two checks changes no answer |
| SpotSnapshotCache.AnswersAreRecentFetches | src/data/providers/akshare_snapshot_cache.py:32-45 | every frame handed out is the latest fetched one and younger than ttl_seconds |
| TtlCache.TTLMemoryCache.Get | src/us_stock/cache.py:15-24 | the live value or nothing, and the expired entry is dropped |
| TtlCache.TTLMemoryCache.Set | src/us_stock/cache.py:26-33 | evicts expired entries, then the oldest, and stores in place or at the end; raises when there is no room at all |
| TtlCache.TTLMemoryCache.EvictExpired | src/us_stock/cache.py:43-47 | keeps exactly the live entries in order |
| TtlCache.GetDropsItsExpired | src/us_stock/cache.py:15-24 | a get drops the expired entry of its key and no other |
| TtlCache.SetEvictsExpiredFirst | src/us_stock/cache.py:26-47 | with room a set loses no other entry; a full cache drops all expired ones, and only when all are live the oldest alone |
| TtlCache.StoreIsBounded | src/us_stock/cache.py:15-47 | every run keeps the size within maxsize and only last-set entries |
| TtlCache.GetIsNoneOrLastSet | src/us_stock/cache.py:15-24 | a get returns nothing or the last value set for its key within its time-to-live |
| TtlCache.FewKeysFollow | src/us_stock/cache.py:26-47 | with fewer keys than places only expired entries are ever missing |
| TtlCache.FullCacheForgets | src/us_stock/cache.py:28-33 | a full cache of live entries set once more forgets its oldest key |
| TtlCache.CacheIsIdealIffRoomToSpare | src/us_stock/cache.py:15-47 | over a set of keys the cache agrees with the unbounded map in every run if and only if keys are fewer than places or at most one |
| Drawdown.MetricsMaxDrawdown | src/backtest/metrics.py:4-26 | the one-pass loop computes the rounded running-peak drawdown |
| Drawdown.LongRunMaxDrawdown | src/evaluation/long_run.py:45-54 | so does the second implementation |
| Drawdown.DashboardMaxDrawdown | src/api/routes_dashboard.py:490-503 | the dashboard loop computes the rounded depth |
| Drawdown.WorstIsLeastChange | src/backtest/metrics.py:10-15 | on every positive curve the running-peak drawdown is the least change from any value to a later one, and some pair attains it |
| Drawdown.DeepestIsMinusWorst | src/api/routes_dashboard.py:495-503 | on every curve the dashboard's depth is the negated drawdown |
| Drawdown.DashboardAgrees | src/api/routes_dashboard.py:490-503 | the reports agree even after rounding and for short curves |
| Backtest.TradeBar | src/backtest/engine.py:23-65 | cash, position, average cost and trades after one bar |
| Backtest.LastSignalCounts | src/backtest/engine.py:19-27 | the last signal listed for a date counts, and a date without one holds |
| Backtest.SellSignalSellsAll | src/backtest/engine.py:50-65 | on a SELL signal an open position is sold whole in one trade at the close less slippage, and its proceeds less the fee go to cash |
| Backtest.BuySignalBuysToTarget | src/backtest/engine.py:28-49 | on a BUY signal of positive ratio the most whole lots below the target less the value held are bought at the close plus slippage whenever cash covers them and the fee, and averaged in; otherwise nothing happens |
| Backtest.OtherSignalsDoNothing | src/backtest/engine.py:28-50 | any other bar leaves the book alone |
| Backtest.EveryDayFollowsItsSignal | src/backtest/engine.py:22-65 | the same on every day of every run |
| Backtest.RunDailyBacktest | src/backtest/engine.py:6-74 | equity points, trades and final nav for every bar and signal list; a list that ends on a SELL day ends with nothing open and the cash as its nav |
| Backtest.SellDayEndsInCash | src/backtest/engine.py:50-67 | after any SELL day of any run nothing is held and the equity is the cash |
| Backtest.EquityIsMarked | src/backtest/engine.py:15-67 | a run starts from its cash alone, and each equity point is cash plus the position at that close, to half a cent |
| Backtest.EquityAt | src/backtest/engine.py:67 | each equity point is cash plus the position at that bar's close, and later bars change no earlier point |
| Backtest.FeeIsCovered | src/backtest/engine.py:54-55 | a rounded fee of at most half the notional never exceeds the notional |
| Backtest.BacktestIsSound | src/backtest/engine.py:15-67 | cash and position never go negative, the position is in whole lots, replaying the trades gives cash and position, and each SELL closes exactly the BUYs since the last |
| Backtest.BuyStaysUnderTarget | src/backtest/engine.py:28-39 | a bar never takes the position's value above the larger of what it was and the target |
| Backtest.PairedTradeResults | src/backtest/metrics.py:32-44 | one result per SELL that follows a BUY, for the smaller quantity |
| Backtest.SaleIsPairedWithOpenBuy | src/backtest/metrics.py:32-44 | a SELL adds the difference in price to the last BUY before it over the smaller quantity |
| Backtest.RoundTripsAddUp | src/backtest/metrics.py:32-44 | over round trips of equal quantities cash grows by the paired results less the fees |
| Backtest.EverySellIsPaired | src/backtest/metrics.py:32-44 | in a backtest's trades every SELL is paired |
| AlphaLedger.ApplyManualFill | src/alpha/ledger.py:18-50 | averaging on BUY, a capped sale at kept average cost on anything else |
| AlphaLedger.SaleIsCapped | src/alpha/ledger.py:39-50 | a sale sells what is asked for but no more than is held, for its proceeds and their profit over the kept average cost |
| AlphaLedger.PurchaseIsPaid | src/alpha/ledger.py:30-38 | a BUY adds its shares, pays for them, takes no profit and leaves other symbols alone |
| AlphaLedger.MarkToMarket | src/alpha/ledger.py:53-65 | unrealized profit and nav over all positions, in any order |
| AlphaLedger.FillMovesCapital | src/alpha/ledger.py:30-44 | one fill changes cash plus cost basis minus realized profit by exactly the cost a BUY to zero forgets |
| AlphaLedger.FillConservesCapitalIff | src/alpha/ledger.py:30-44 | conserved if and only if the fill is not a BUY that ends at zero with a cost left over |
| AlphaLedger.NegativeBuyOpensAShort | src/alpha/ledger.py:30-38 | a BUY of a negative quantity opens a short position |
| AlphaLedger.CoveringAShortHidesTheLoss | src/alpha/ledger.py:30-38 | covering that short at a higher price loses cash and reports no loss |
| AlphaLedger.NavDecomposes | src/alpha/ledger.py:18-65 | for every fill sequence and all prices nav is opening cash plus realized plus unrealized profit less what was forgotten, which is nothing for non-negative quantities |
| AlphaLedger.DroppedPositionsHideShorts | src/alpha/portfolio_service.py:84-86 | for all positions and prices the unrealized total is that of the kept positions plus that of the short ones |
| AlphaLedger.DroppedPositionsHideNothingIff | src/alpha/portfolio_service.py:84-86 | dropping the positions without shares leaves the unrealized total at all prices if and only if none is short |
| AlphaPortfolio.AlphaPortfolioService.RebuildFromManualFills | src/alpha/portfolio_service.py:56-90 | an unknown ticket raises and stores nothing; otherwise the replayed ledger is marked, its non-empty positions replace the stored ones and the summary is appended |
| AlphaPortfolio.ResolvesIffTicketsKnown | src/alpha/portfolio_service.py:64-72 | the journal resolves exactly when every ticket is known, each fill with its ticket's symbol and action and its own quantity and price |
| AlphaPortfolio.RebuildAddsUp | src/alpha/portfolio_service.py:63-90 | for every resolved journal exactly the positions with shares are stored, the reported unrealized profit is their sum plus that of the short positions, and nav is opening cash plus realized plus unrealized profit less the cost forgotten |
| AlphaPortfolio.ReportedIsStoredIff | src/alpha/portfolio_service.py:84-90 | for every ledger a journal can leave, report and stored positions agree at all prices if and only if no symbol is short |
| AlphaPortfolio.ForwardRebuildAddsUp | src/alpha/portfolio_service.py:63-90 | with non-negative quantities the report is the sum over the stored positions and nav is opening cash plus realized plus unrealized profit |
| AlphaPortfolio.ShortIsReportedNotStored | src/alpha/portfolio_service.py:84-90 | one BUY of minus ten at 5, marked at 7, reports a loss of 20 and stores no position |
| AlphaPortfolio.AlphaPortfolioService.SumBySymbol | src/alpha/portfolio_service.py:98-105 | per symbol the sums of quantity and cost |
| AlphaPortfolio.AlphaPortfolioService.RebuildFromHoldingsEntries | src/alpha/portfolio_service.py:96-142 | the rounded rows of every symbol with a positive rounded quantity, and the rounded totals over those rows |
| AlphaPortfolio.RowIsMarked | src/alpha/portfolio_service.py:108-128 | a row is marked at its price, or at its average when that is missing or zero, and its profit is the difference over the quantity |
| AlphaPortfolio.HoldingsNavIsCostAndProfit | src/alpha/portfolio_service.py:106-142 | the reported nav is the rows' cost plus the reported profit, within half a millionth per row and one more for each total |
| AlphaPortfolio.LedgerAddsUp | src/alpha/ledger.py:30-38 | folding lots as BUYs gives exactly the summed quantity and cost of each symbol |
| AlphaPortfolio.SumIgnoresOrder | src/alpha/portfolio_service.py:99-105 | the sums do not depend on the order of the entries |
| AlphaPortfolio.HoldingsRefineLedger | src/alpha/portfolio_service.py:96-161 | aggregation agrees with folding the lots as BUYs in any order: quantities within half a millionth, averages within half a millionth plus the average times half a millionth over the quantity; with six-decimal lots quantities exactly and averages within half a millionth |
| TradingCalendar.NextTradingDay | src/market_calendar/service.py:61-67 | the least later trading day; only an unsupported market raises |
| TradingCalendar.PreviousTradingDay | src/market_calendar/service.py:53-59 | the greatest earlier trading day; only an unsupported market raises |
| TradingCalendar.SearchesInvert | src/market_calendar/service.py:53-67 | on trading days the two searches undo each other |
| TradingCalendar.ListedHolidaysAreWeekdays | src/market_calendar/static_calendars.py:22-51 | every listed holiday is a weekday of 2026, each once: 15 for A shares and 10 for the United States |
| TradingCalendar.LookupMeetsEnough | src/market_calendar/service.py:14 | any 370 days hold at least 264 open days less the holidays |
| TradingCalendar.RecentTradingDays | src/market_calendar/service.py:69-81 | the ascending, gap-free last trading days, or the error, exactly when the look-back does or does not hold enough |
| TradingCalendar.CapIsNeverHitIff | src/market_calendar/service.py:69-81 | the cap is met for no end date if and only if count is at most 249 (A shares) or 254 (United States) |
| TradingCalendar.NextTradingRunAt | src/market_calendar/service.py:88-98 | the least run instant not before now |
| TradingCalendar.RunsAtQuarterPast | src/market_calendar/static_calendars.py:17-20 | every run is on a trading day at 09:15 for A shares and 21:15 for the United States |
| RunListing.AnalysisRunStore.ListRuns | src/alpha/analysis_run_store.py:119-159 | the clamped page of the filtered runs below the cursor, newest first; an unknown cursor is ignored |
| RunListing.FiltersKeep | src/alpha/analysis_run_store.py:127-149 | a listing keeps exactly the user's runs of the market and status asked for that are older than the cursor's |
| RunListing.MarketsSplitTheListing | src/alpha/analysis_run_store.py:129-134 | the two market filters split the unfiltered listing |
| RunListing.PageIsNewest | src/alpha/analysis_run_store.py:126-158 | a page is the newest of what matches, as many as the limit within 1 and 100, newest first, and everything it leaves out is older |
| RunListing.CursorOfOthersIsIgnored | src/alpha/analysis_run_store.py:136-149 | a cursor that names no run of the user is ignored |
| RunListing.SortedLists | src/alpha/analysis_run_store.py:150-153 | the order is strictly descending in (created_at, run_id) and lists each run of the set |
| RunListing.PagesForIsCeiling | src/alpha/analysis_run_store.py:153-158 | the number of requests is n over limit rounded up, one when n is zero |
| RunListing.FollowingListsEverythingOnce | src/alpha/analysis_run_store.py:127-159 | over a fixed table following next_cursor lists every matching run exactly once, newest first, and stops by itself after that many requests |
| RunListing.NewerRunsChangeNoLaterPage | src/alpha/analysis_run_store.py:136-149 | runs that arrive above a cursor change no page from that cursor on |
| RunListing.SessionListsEverythingOnce | src/alpha/analysis_run_store.py:119-159 | however the table grows above the cursor between any two requests, a session lists every run that matched at its first request exactly once, newest first, and stops after the requests the first table needs |
| EventLog.RuntimeStore.AppendDashboardRunEvent | src/storage/runtime_store.py:1457-1485 | the row gets the next number of its own log, and a table whose logs are numbered 1..n stays so |
| EventLog.RuntimeStore.ListDashboardRunEvents | src/storage/runtime_store.py:1487-1511 | of a numbered log exactly what lies after the given position, in order |
| EventLog.MaxSeqIsGreatest | src/storage/runtime_store.py:1467-1473 | the number appended to is the greatest of any log, numbered in order or not |
| EventLog.OrderedIsSorted | src/storage/runtime_store.py:1487-1511 | any rows are listed ascending by number, each as often as it is there |
| EventLog.AppendKeepsNumbering | src/storage/runtime_store.py:1466-1485 | an append to one log keeps every log of the shared table numbered |
| EventLog.SplitAppendNumbersIff | src/storage/runtime_store.py:1467-1484 | a row numbered by the log as it was read continues the numbering if and only if no row of that log came in between |
| EventLog.RacingAppendsHideAnEvent | src/storage/runtime_store.py:1467-1484 | two appends that read the same maximum break the numbering and hide an event from a reader in between |
| EventWriters.InsertNumbersIff | src/storage/runtime_store.py:1466-1484 | one insert keeps every log of the shared table numbered if and only if its own log was not touched since the writer read it |
| EventWriters.NumberedIffUndisturbed | src/storage/runtime_store.py:1466-1484 | in every interleaving of reads, inserts and aborts all logs stay numbered at every moment if and only if no insert into a log falls between another append's read of it and its insert |
| EventWriters.TwoWritersCanRace | src/storage/runtime_store.py:1466-1484 | from any numbered state two new writers of one log can both read before either inserts, and then the numbering is lost |
| EventStream.EventIter | src/api/routes_dashboard.py:246-281 | one undisturbed connection sends what the last polled log holds after the resume point and stops at the first round by which a terminal event was sent or the summary had been terminal for three seconds of checks |
| EventStream.LingeredMeans | src/api/routes_dashboard.py:273-280 | the remembered instant decides exactly whether an unbroken row of terminal checks spans three seconds |
| EventStream.DueMeans | src/api/routes_dashboard.py:246-281 | a stream is due to stop exactly when a completion or a failure was sent or for three seconds every check found the summary terminal |
| StreamSessions.ReceivedIsPrefixOfLog | src/api/routes_dashboard.py:246-281 | in every interleaving of appends, polls, losses and reconnects the events received over all connections are a prefix of the log, numbered 1..k |
| StreamSessions.EndedStreamIsComplete | src/api/routes_dashboard.py:268-278 | a stream that ends by itself has sent all its last poll saw; ended by an event, that event, and so the whole log when nothing follows it |
| StreamSessions.BrowserCanCatchUp | src/api/routes_dashboard.py:246-267 | from any reachable state a reconnect and one poll can deliver the whole log as it stands |
| StreamSessions.AnyLogCanBeReceived | src/api/routes_dashboard.py:246-267 | every numbered log can be written and received whole |
| StreamSessions.RoundEndsOnTerminalEvent | src/api/routes_dashboard.py:257-281 | a round that sends or follows a completion or a failure ends the stream on it; any other ends it only when the summary has been remembered as terminal for three seconds |
| StreamSessions.QuietStreamEndsAfterThreeSeconds | src/api/routes_dashboard.py:268-281 | without news a stream ends when its summary is terminal at two checks three seconds apart, and polls on when they are closer |

## Left out

- Floating-point error: floats are reals; only the rounding the code performs is modelled.
- SQLAlchemy sessions, migrations, JSON columns and user scoping: tables are maps or sequences, a committed transaction is one step, and rows of other users are modelled only where a query filters them.
- Missing accounts: `create_run`, `create_fill`, `update_position` and `create_nav_snapshot` raise for an account that does not exist; here the account exists.
- Lock owners: a job is its own owner here. The code never compares owners, but "the last to have leased the lock" is told by the owner in the model, in `DailyJobRuns.OneBlockingRunPerDay` among others; with the code's default owner, host name and process id, jobs of one process share it, so that could not be read off the stored row.
- Error messages, reasons, timestamps and generated ids on rows and events, except where an id is a key.
- `resolve_lot_size` and `infer_market_from_symbol`: string normalisation; the planner takes the lot size per symbol as a parameter.
- Symbol order in dictionaries and in the sorted holdings rows: rows are maps by symbol.
- The signal computation of the daily trading: each watched symbol yields no quote, a price, or a price and an action.
- Nav snapshots from other sources than the scheduler's, which share the account's history.
- T+1 end to end: the shadow run hands the gate no buying day, so only the gate itself blocks same-day sales.
- The other figures of `calculate_metrics` and of the long-run evaluation, and reading positions back in `load_portfolio`.
- `_decorate_positions`, broker event rows of the paper broker, reconcile items and the unrealized part of the run summary.
- Processed events kept as a set, and states without a list of processed events: an order state carries its list.
- OrderEvents.FilledIsSumLessOvershoot: for an order quantity of at least zero; an order of a negative quantity would start above its cap.
- OrderEvents.FilledIsCappedSumIff: for an order quantity of at least zero, for the same reason.
- OrderEvents.FilledIgnoresOrderIff: for an order quantity of at least zero, for the same reason.
- Event ids that are falsy count as missing; other ids are strings.
- PollingCache.Cache.GetOrRefresh: states an undisturbed call only, which cannot end while another caller holds the lock and nothing is cached; waiting is a step of the protocol.
- Sequential double refreshes of the polling cache: a caller that gets the lock at its first attempt does not look at the entry again; the protocol allows this and claims nothing against it.
- TtlCache.CacheIsIdealIffRoomToSpare: for maxsize of at least one and a non-negative time-to-live; a maxsize below one makes every set into the empty cache raise.
- Date overflow at the ends of Python's calendar, time zones and daylight saving.
- Run ids compare as strings in the database; here a run id is its rank in that order. The other columns of a listed run are the table's.
- HTTP, event-source framing, keep-alive pings and pacing delays: an event on the wire is its row.
- Merged dashboard history, the alpha event stream, analysis run service, market data providers, indicators, scanner, fund analytics, user interface, authentication.
