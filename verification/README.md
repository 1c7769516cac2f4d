# Verified model of the trading engine

A Dafny model of the parts of the engine that have to be right: the money, the orders, the training
indices and the clockwork of a backtest. Prices, cash and fees are exact reals; quantities and times are
integers; nothing is rounded unless the program rounds it to four decimals on purpose.

The modules follow the program:

- **Accounting.** `Ledger` is the average-cost position update, `Fifo` the round-trip matcher and `FifoOrder`
  which fill every round trip opens and closes with, `Costs` the fee model, `CostMeaning` what each charge is
  and `CostRounding` what rounding can and cannot bend.
- **Broker.** `BrokerSpec` is the paper broker as functions on its state and `Paper` the same broker as an
  object that updates its fields. `BrokerLedger`, `BrokerPrices`, `BrokerRules`, `BrokerCover`, `BrokerCash`,
  `BrokerFills` and `BrokerTelling` say what every run of any mix of calls keeps; `BrokerDuty`, `BrokerEntry`
  and `BrokerSquareOff` what a price, an order entry and a square-off must do.
- **Replay.** `PortfolioBook` is the portfolio rebuilt from the fill stream, `Replay` one engine step as a
  function, `Trading` the engine as an object. `ReplayDuty` says what a step fills and closes;
  `ReplayOrdering`, `ReplayTimes` and `ReplayEquity` hold the no-look-ahead argument and the agreement of
  portfolio and broker, `ReplayRaises` when a bar can raise and what that does to it. The agents between the
  phases of a step are any finite sequence of reading updates and calling the broker.
- **Execution.** `ExecutionSpec` and `Execution` are the agent as functions and as an object, against a
  venue that may answer anything. `ExecutionProofs` has tokens, slices and live children, `ExecutionCaps` the
  limits a slice is cut to, `ExecutionDuty` what is sent for an approval, a report and a fill, `ExecutionRuns`
  what a run of events adds up to,
  `ExecutionLeaks` the slices that stops release, `ExecutionSound` what every reachable state satisfies,
  `ExecutionStops`, `ExecutionSlices` and `ExecutionFills` (on the arithmetic of `Synthesis`) what follows
  from it.
- **Training.** `Labels`, `Splits` and `SplitMeaning` and, for several symbols on one time line,
  `StackedSplits`.
- **Market data.** `BarsSpec`, `BarsMeaning`, `Builders` and `SessionGrid` for bars, `Features`,
  `FeatureMeaning` and `FeatureBuffer` for features and the live buffer.
- **Guards.** `RateLimits`, `Risk`, `RiskControl` and `RiskOutcome`, `Symbols` and `SymbolRoundTrip`.

An object's methods promise a function of the old state; what the program promises is then proved about
that function. Python exceptions are values: a broker call that raises leaves the state it had reached
(`Step.ok` false, or the reply `Raised`), and the runs go on from there.

Where the code does less than its documentation says, the code is modelled and the difference is stated:

- The fee model says that charging brokerage per fill over-estimates split orders. Before rounding that
  is so; with each component rounded to four decimals a split can be cheaper
  (`Costs.RoundingCanMakeSplittingCheaper`), by no more than `CostRounding.RoundedSplitBound` allows.
- The risk agent says that only a kill switch stops an exit. The market-hours, instrument and paused-strategy
  rules stop exits too (`RiskControl.ExitsAreAllOrNothing` names all four gates).
- `walk_forward` splits stacked symbols by time; its purge counts bars of the common time line, which is
  enough for one series and not for several (`StackedSplits.GapSufficesExactlyWhen` has the condition).
- The bar calendar calls bar starts session-relative; they are floored from midnight
  (`SessionGrid.GridsAgreeWhenOpenIsOnGrid`).
- A backtest never fills in the step that places, but bars of several symbols with one start share a clock,
  and a fill can carry an earlier time than its order (`ReplayTimes.FillsFollowOrdersExactly` says when).
- A child order is meant to release its successor alone; a cancelled protective stop releases one too
  (`ExecutionLeaks.LiveChildrenFollowStops` counts them).
- Fills are meant to be derived for brokers that stream none; what is first seen in a reply to a chase or a
  cancel, or in a reconciliation, is never published (`ExecutionFills.PublishedQuantity`).
- The engine takes its portfolio for the broker's; a bar on which the broker raises drives the two apart
  (`ReplayRaises.RaisingSplitsTheBooks`), and `ReplayRaises.PricedReplaysAgree` says what rules that out.

To check everything: `dafny verify dfyconfig.toml`.

## Model

| member | source | states |
|---|---|---|
| Ledger.ApplyFillMovesBasisByValue | trading/brokers/paper.py:115-134 | however a fill opens, adds, reduces, closes or reverses a position, realised PnL less the signed cost of what is held moves by exactly the signed value traded |
| Ledger.AveragePriceIsBetweenFills | trading/brokers/paper.py:115-134 | the average price of a position stays inside any range that contains the prices paid, reversals through zero included |
| Ledger.AddingAverages | trading/brokers/paper.py:115-134 | adding to a position, or opening one, realises nothing, and average times quantity grows by what was paid |
| Ledger.ReducingRealises | trading/brokers/paper.py:115-134 | a fill against a position realises the distance of its price from the average on what it closes, in the direction held; what is left keeps its average, a closed position has none, and a reversal starts over at the price |
| Ledger.IndexOf | trading/brokers/paper.py:632-636 | the account found for a symbol and product is the first with that key, and none is found only when there is none |
| Ledger.AverageCostIsCashFlow | trading/brokers/paper.py:115-134 | for every fill sequence and every mark, average-cost realised plus unrealised less fees over all accounts is the plain cash sum of the fills |
| Ledger.AccountsHoldNetQty | trading/brokers/paper.py:632-637 | the quantity each account shows is the net signed quantity of the fills under its key |
| Ledger.AccountsShowTheLatestPrice | trading/brokers/paper.py:632-645 | an account is there exactly when its key has traded, and unmarked it shows the price of its latest fill |
| Ledger.AccountsAreGood | trading/brokers/paper.py:632-639 | accounts have distinct keys, carry their symbol's multiplier and have been priced |
| Fifo.SortByTsCorrect | trading/backtest/metrics.py:128 | sorting by time orders the fills, keeps every one of them and keeps the arrival order of equal times |
| Fifo.ConsumeLots | trading/backtest/metrics.py:133-159 | the inner loop takes opposite lots off the front of a book, shrinking or popping the head, and returns the trades, the lots left and the quantity still to place |
| Fifo.CloseOut | trading/backtest/metrics.py:173-195 | every lot still open becomes an open trade at its mark, or at its entry price without one, with its entry fees only |
| Fifo.MatchTrades | trading/backtest/metrics.py:112-196 | the imperative matcher returns exactly the closed trades of the sorted fills followed by the open ones, the list that `FifoOrder.RoundTripsAreFifo` shows to be first in, first out |
| Fifo.BooksHoldNetPosition | trading/backtest/metrics.py:128-172 | after any fills every book holds lots of one direction only and their signed quantity is the net position |
| FifoOrder.RoundTripsAreFifo | trading/backtest/metrics.py:112-196 | for every account the trades returned open, one after the other, at fills in arrival order, closed trades before those still open, and close at fills in arrival order; each trade takes its quantity, prices, times, fees and PnL from the two fills it joins; and every fill is used up to the last unit |
| Fifo.FifoIsCashFlow | trading/backtest/metrics.py:112-196 | FIFO trades, closed plus open, earn exactly the cash sum of the fills with what is open at its mark, and at its cost where it has none; the fees allocated to trades are the fees paid |
| Fifo.ThreeBooksAgree | trading/backtest/metrics.py:112-196 | FIFO net less the cost of what has no mark, average-cost net and cash flow agree after every fill sequence and in every order of the fills |
| Fifo.LotsAfterConserves | trading/backtest/metrics.py:133-172 | what one fill does to its book conserves value: trades made plus lots left are worth the lots before plus the fill |
| Costs.FeesMonotone | trading/backtest/costs.py:125-156 | fees are not negative, and a larger trade never costs less, rounding included |
| CostMeaning.TradesAreCharged | trading/backtest/costs.py:106-156 | every trade is charged what the rates of its own segment say is owed on quantity times price times multiplier: brokerage up to its cap, two levies, tax on the three, transaction tax at the rate of the side, stamp duty only on a purchase, a flat charge only on a sale; each charge and the total to the nearest tick |
| CostMeaning.RoundingIsNearest | trading/backtest/costs.py:148-156 | rounding to four decimals gives the nearest ten-thousandth, of two equally near the even one, and no other number does |
| CostMeaning.OnlyIndicesAreFree | trading/backtest/costs.py:106-122 | a fill cannot be charged exactly when no segment is for its symbol |
| CostMeaning.HurdleIsBothWays | trading/backtest/costs.py:175-194 | the hurdle is what a purchase and a sale of the quantity are charged together, to the nearest tick, and the slippage twice, in basis points of the value; there is none without a value or without a segment |
| Costs.SplitShape | trading/backtest/costs.py:125-156 | the unrounded total of any split is linear in value but for the brokerage cap and the flat charge of each piece |
| Costs.SplittingNeverLowersFees | trading/backtest/costs.py:12-13 | before rounding, splitting a value into any pieces never lowers total fees, and leaves them equal exactly when the cap and the flat charge had nothing to say |
| Costs.SplittingQuantityNeverLowersFees | trading/backtest/costs.py:12-13 | the same for a quantity split into any number of fills at one price |
| Costs.RoundingCanMakeSplittingCheaper | trading/backtest/costs.py:148-156 | with the four-decimal rounding the promise can fail: a split that costs less than the whole |
| CostRounding.RoundedSplitBound | trading/backtest/costs.py:148-156 | a rounded split into n fills pays at least the rounded whole plus what the split adds, less 0.00035 for each of the n + 1 roundings; so at least the whole when the flat charges and the brokerage the cap spares cover that, or when every charge is on the four-decimal grid |
| CostRounding.FlatChargeCoversRounding | trading/backtest/costs.py:148-156 | a flat charge of 0.00105 or more keeps the promise after rounding however the order is cut |
| CostRounding.SplitOrderPaysTheWhole | trading/backtest/costs.py:12-13 | the same bounds for quantities filled at one price, on the fees the program computes |
| Costs.RoundingBound | trading/backtest/costs.py:148-156 | how far rounding can move the total of one fill |
| Costs.CostBpsNonIncreasing | trading/backtest/costs.py:175-194 | before rounding the hurdle in basis points never rises with the value traded |
| Costs.RoundingCanRaiseTheHurdle | trading/backtest/costs.py:175-194 | with rounding it can: a pair of quantities where the larger has the higher hurdle |
| CostRounding.BpsIsNearRaw | trading/backtest/costs.py:175-194 | rounding moves the hurdle by at most 7 / value basis points, and not at all when every charge is on the grid |
| CostRounding.RoundedHurdleBound | trading/backtest/costs.py:175-194 | a trade at least as big has a hurdle at most 7 / v1 + 7 / v2 higher, and none higher when the flat charge and the capped brokerage weigh enough less on it, or when every charge is on the grid |
| BrokerSpec.FindOrder | trading/brokers/paper.py:468-472 | an order is found by its id exactly when one has it |
| Paper.PaperBroker.constructor | trading/brokers/paper.py:140-161 | a new account has its starting cash and nothing else |
| Paper.PaperBroker.MarkPrice | trading/brokers/paper.py:236-240 | the mark reaches every position of the symbol and no other |
| Paper.PaperBroker.MatchAll | trading/brokers/paper.py:242-246 | the loop over the book is the recursive matcher from the first order on, stopping where an attempt raises |
| Paper.PaperBroker.OnTick | trading/brokers/paper.py:228-230 | a tick marks first and matches after |
| Paper.PaperBroker.OnBar | trading/brokers/paper.py:232-234 | a bar matches first and marks after |
| Paper.PaperBroker.TryToFill | trading/brokers/paper.py:507-550 | the whole new state after one attempt on one order is the one `BrokerDuty.AttemptServes` describes |
| Paper.PaperBroker.TryTrigger | trading/brokers/paper.py:552-585 | the whole new state after one attempt on a stop |
| Paper.PaperBroker.FillOrder | trading/brokers/paper.py:587-649 | rejection for lack of cash, the exception for an index or a vanishing price, or the booked fill with the order, cash, position and queue all moved |
| Paper.PaperBroker.Book | trading/brokers/paper.py:631-645 | cash, position and fill list after a fill |
| Paper.PaperBroker.PlaceOrder | trading/brokers/paper.py:248-276 | placing: idempotent on the tag, validated, then filled on the spot or tagged |
| Paper.PaperBroker.ModifyOrder | trading/brokers/paper.py:324-355 | modifying: prices first, a quantity below the filled one refused, then re-evaluated |
| Paper.PaperBroker.CancelOrder | trading/brokers/paper.py:357-364 | cancelling a working order, and nothing for any other |
| Paper.PaperBroker.Liquidate | trading/brokers/paper.py:403-443 | closing the selected positions one by one at the last price, with what `BrokerSquareOff.SquareOffClosesEverything` says of the result |
| Paper.PaperBroker.Handle | trading/brokers/paper.py:228-443 | any call keeps the books and only moves orders forward, whether it returns or raises |
| Paper.PaperBroker.ValuePositions | trading/brokers/paper.py:387-398 | the valuation loop is the sum over positions of market value, or unrealised PnL for futures |
| BrokerLedger.BookFillKeepsAccounting | trading/brokers/paper.py:631-648 | a booked fill keeps cash equal to starting cash plus what every account has moved, whichever rule its instrument moves cash by |
| BrokerLedger.EquityIdentity | trading/brokers/paper.py:387-401 | cash plus position value is starting cash plus the net PnL of the positions |
| BrokerLedger.ApplyKeepsInv | trading/brokers/paper.py:228-443 | every call, also one that raises half-way, keeps the books, and only moves orders forward |
| BrokerLedger.RunConservesEquity | trading/brokers/paper.py:378-401 | in every reachable state equity is starting cash plus realised plus unrealised less fees, and the positions are the average-cost accounts of the fills |
| BrokerLedger.RunBalancesOrders | trading/brokers/paper.py:625-630 | in every reachable state each order has filled between nothing and its quantity, its fills add up to that, and at its recorded average price |
| BrokerLedger.TerminalIsForever | trading/brokers/paper.py:507-509 | a filled, cancelled or rejected order never changes again whatever comes later |
| BrokerLedger.EmitFillFirst | trading/brokers/paper.py:474-478 | an update that shows filled quantity always follows a fill of that order in the queue |
| BrokerPrices.DecideRespectsLimit | trading/brokers/paper.py:507-585 | no attempt fills worse than a limit on the four-decimal grid, rounding of the price included |
| BrokerRules.DecisionsAreLawful | trading/brokers/paper.py:507-585 | what each kind of order fills at, on entry and later: a limit only across its price and never past it, at the slipped last price on entry, at the open when it was resting, at the slipped open when it had crossed on entry; a stop at its slipped trigger, or the slipped open when gapped; a stop-limit within its limit; a market order at the slipped last price or open |
| BrokerRules.BarFillsAreLawful | trading/brokers/paper.py:232-246 | every fill a bar makes follows those rules for its order as the bar found it |
| BrokerRules.ModifiedFillsAreLawful | trading/brokers/paper.py:343-355 | a modification fills, if the broker fills on entry, the edited order at the last price by those rules, and nothing else |
| BrokerRules.RunFillsAreLawful | trading/brokers/paper.py:232-321 | over every run, filling at placement or not, every fill on record came by those rules: from a bar or tick, on its order as that found it; when its order was placed or modified, at the last price; or in a square-off |
| BrokerRules.SimLimitsNeedATradeThrough | trading/backtest/sim_broker.py:8-10 | for the backtest broker a live limit, triggered stop-limits included, fills on a bar only if the bar traded strictly through it |
| BrokerDuty.TradesExactlyWhenDue | trading/brokers/paper.py:493-585 | a working order with a quota of at least one trades exactly when the price calls for it - a market order always, a limit when it is crossed, a pending stop when it is reached, its limit permitting - and then the whole quota: what is left of it, or the most whole lots within its share of the volume; a stop that is reached is live from then on |
| BrokerDuty.AttemptServes | trading/brokers/paper.py:507-649 | an attempt that answers fills a due order once, by the price rules and with the charges of that trade, or rejects it when the cash does not reach, and leaves any other alone |
| BrokerDuty.BarDoesItsDuty | trading/brokers/paper.py:232-246 | a bar that answers does that for every working order of its symbol, at the cash there is when its turn comes: one fill of its quota and no other, a rejection, or nothing |
| BrokerDuty.TickDoesItsDuty | trading/brokers/paper.py:228-246 | and so does a tick |
| BrokerEntry.PlacingDoesItsDuty | trading/brokers/paper.py:248-321 | a known tag changes nothing; a new order is rejected exactly when its product does not fit the instrument or the account cannot cover it, counting what other open delivery sells claim; else it is entered, and then filled on the spot by the rules or marked when its limit is beyond the last price |
| BrokerEntry.ModifyingDoesItsDuty | trading/brokers/paper.py:324-355 | only a working order changes, in the fields named and no others; a quantity below what has filled is refused after the prices have changed; else it is handled like a new one |
| BrokerEntry.CancellingDoesItsDuty | trading/brokers/paper.py:357-364 | a working order is cancelled and told of, and nothing else changes |
| BrokerEntry.TakersPaySlippage | trading/brokers/paper.py:484-486 | slippage is paid: a buyer pays more than the price and a seller gets less, by that many basis points |
| BrokerTelling.RunTellsEverything | trading/brokers/paper.py:474-478 | in every reachable state, calls that raised half-way among them, what has filled, at what average, and whether it has ended is in the last update about each order |
| BrokerSquareOff.SquareOffClosesEverything | trading/brokers/paper.py:403-443 | a square-off that answers leaves every account it was asked to close flat, or short when a purchase of all of it was turned down for want of cash, and every other account as it was; each of its fills undoes one of those positions in full, on the other side, at the slipped last price |
| BrokerPrices.ApplyFillsFairly | trading/brokers/paper.py:228-443 | every call of the broker, repricing included, fills at or better than the limit the order has at that moment |
| BrokerPrices.RunFillsFairly | trading/brokers/paper.py:324-355 | over a whole run without repricing every fill on record is at or better than its order's limit |
| BrokerCover.PlaceKeepsCover | trading/brokers/paper.py:298-321 | from a covered state placing keeps delivery holdings covering the open sells exactly unless the order is a delivery sell larger than the free holding, with no price of its own and no last price to check it by |
| BrokerCover.ModifyKeepsCover | trading/brokers/paper.py:324-355 | modifying keeps the cover exactly unless a working delivery sell grows by more than the free holding, filling at placement or not |
| BrokerCover.LiquidateKeepsCover | trading/brokers/paper.py:403-443 | squaring off keeps the cover exactly unless it closes a delivery holding that open sells still count on, whether or not its order fills |
| BrokerCover.AnsweredSquareOffKeepsCover | trading/brokers/paper.py:403-443 | where what is to be closed has known fees and prices that do not round to nothing a square-off never raises, and one that does not raise keeps the cover exactly when no holding it is asked to sell out has an open sell |
| BrokerCover.DeliveryNeverShort | trading/brokers/paper.py:303-321 | holdings cover every open delivery sell throughout a run exactly when no call of the run is one of those three; then delivery never goes short |
| BrokerCash.CashNeverBelowFees | trading/brokers/paper.py:592-603 | without futures cash never falls below minus the fees paid |
| BrokerCover.QtyModificationBreaksCover | trading/brokers/paper.py:343-346 | from any covered state every working delivery sell has a quantity modification that breaks the cover |
| BrokerCover.UnpricedSellIsNotChecked | trading/brokers/paper.py:298-300 | from any covered state a share without a last price has a sell that is accepted and breaks the cover |
| BrokerCover.SquareOffStrandsOpenSells | trading/brokers/paper.py:403-443 | squaring off delivery breaks the cover when the first holding it closes has open sells |
| BrokerFills.TryFillFillsOwnOrder | trading/brokers/paper.py:507-649 | one attempt books at most one fill, of the order it looks at, stamped with the price's time, and posts exactly it to the positions |
| BrokerFills.MatchFills | trading/brokers/paper.py:242-246 | what a price does to the positions is the posting of its new fills, all stamped with its time |
| BrokerFills.CallsNeverFill | trading/backtest/sim_broker.py:97-118 | with filling at placement off, placing, modifying and cancelling change neither fills nor positions |
| BrokerFills.NewOrdersAreStamped | trading/brokers/paper.py:251-253 | an order is created at the time of the call that enters it |
| BrokerFills.LiquidationFillsItsOrders | trading/brokers/paper.py:403-443 | every fill of a square-off belongs to one of its own market orders |
| PortfolioBook.Portfolio.constructor | trading/agents/portfolio.py:31-39 | an empty portfolio with its starting equity |
| PortfolioBook.Portfolio.ApplyFill | trading/agents/portfolio.py:79-94 | positions, last prices, totals and count after a published fill |
| PortfolioBook.Portfolio.Mark | trading/agents/portfolio.py:71-77 | the mark reaches the symbol's last price and every position of it |
| PortfolioBook.Portfolio.UnrealisedPnl | trading/agents/portfolio.py:108-110 | the sum of the positions' own unrealised PnL |
| PortfolioBook.Portfolio.Equity | trading/agents/portfolio.py:112-118 | starting equity plus realised plus unrealised less fees |
| PortfolioBook.Portfolio.GrossExposure | trading/agents/portfolio.py:127-134 | the sum of absolute values at the last price, or the average price without one |
| PortfolioBook.RecordKeepsOk | trading/agents/portfolio.py:79-94 | a recorded fill keeps the totals equal to the sums over positions, and posts exactly as the broker does |
| PortfolioBook.EquityIsNetPnl | trading/agents/portfolio.py:112-118 | equity from the totals is starting equity plus each position's own net PnL |
| PortfolioBook.GrossIsLongPlusShort | trading/agents/portfolio.py:127-134 | the gross exposure is what the longs are worth plus what the shorts would cost: neither is set off against the other |
| Trading.TradingEngine.constructor | trading/agents/engine.py:121-180 | a fresh engine over an empty account |
| Trading.TradingEngine.HandleUpdate | trading/agents/execution.py:400-423 | what taking one queued update does to the stream and the portfolio |
| Trading.TradingEngine.Perform | trading/agents/engine.py:257-265 | any finite interleaving of taking updates and calling the broker |
| Trading.TradingEngine.FeedBroker | trading/agents/engine.py:244-249 | the bar goes to the broker and its updates are drained, unless the broker raised |
| Trading.TradingEngine.Step | trading/agents/engine.py:271-280 | one bar: broker, drain, mark, agents, drains, square-off, drain, in this order |
| Trading.TradingEngine.Replay | trading/agents/engine.py:282-292 | a replay is the fold of its steps |
| Replay.NothingSynthesised | trading/agents/execution.py:419-422 | no order update in the queue makes the agent invent a fill: the real one has been streamed before |
| Replay.DrainedPortfolioMatchesBroker | trading/agents/engine.py:244-265 | what has been published is the fills among the updates read, in order; with the queue empty it is every broker fill exactly once, and quantities, average prices, realised PnL and fees are the broker's |
| ReplayEquity.PortfolioEquityIsBrokerEquity | trading/agents/engine.py:251-280 | after every cleanly drained step of a replay without filling at placement, the portfolio holds the broker's very positions, last prices included, and the same equity |
| ReplayRaises.PricedBarsAnswer | trading/brokers/paper.py:507-610 | a bar at real prices of a symbol that can be charged never makes the broker raise when every order that may be matched against a limit has one and slippage is at most half the price |
| ReplayRaises.PricedReplaysAgree | trading/agents/engine.py:236-280 | so on such bars, with no order turned into a limit without a price, portfolio and broker show the same equity after every backtest whose queue is drained |
| ReplayRaises.RaisingSplitsTheBooks | trading/brokers/paper.py:578-580 | three bars, a stop modified into a stop-limit without a price: the third raises, the broker does not mark what it holds, and the two equities differ by the move |
| ReplayDuty.StepServesOrders | trading/agents/engine.py:244-280 | a step of a backtest whose bar is taken fills an order of the bar's symbol exactly when the bar calls for it and the cash reaches, once, by the price rules, and not again before the step ends |
| ReplayDuty.StepLeavesOthers | trading/agents/engine.py:271-280 | no step fills any other order that was on the book |
| ReplayDuty.StepEndsFlat | trading/agents/engine.py:294-320 | when the square-off of a step answers, every intraday account of a due symbol ends the step flat, or short after a refused purchase, and every other account ends it as it would have without the square-off |
| ReplayDuty.RunsEndFlat | trading/agents/engine.py:294-320 | an intraday position of a due symbol that is still there after a backtest whose last step squares off is short, and a purchase of all of it was turned down |
| ReplayOrdering.FillsComeInLaterSteps | trading/agents/engine.py:271-280 | in every replay without filling at placement, each fill that is not a square-off comes in a strictly later step than the placement of its order, orders placed while draining included |
| ReplayOrdering.BarFillsOldOrders | trading/agents/engine.py:190-203 | a bar fills only orders that were on the book before its step |
| ReplayTimes.FillsFollowOrdersExactly | trading/agents/engine.py:268-292 | on a clock that does not go back no fill can be stamped before its order was created, whatever the agents do, exactly when no bar starts before the previous one was processed |
| ReplayTimes.OneSeriesFillsAfterCreation | trading/agents/engine.py:268-280 | in particular in a replay of one symbol at one interval |
| ReplayTimes.ReachingBackPredates | trading/agents/engine.py:282-287 | wherever a bar starts before the previous one was processed, as with two symbols on one clock, a market sell placed on the previous bar is filled by it at an earlier time than it was created |
| ExecutionProofs.CutIsExact | trading/agents/execution.py:272-278 | cutting gives positive slices that add up to the quantity and stay under the cap |
| ExecutionProofs.SlicesAreExact | trading/agents/execution.py:255-278 | whatever the volumes and limits, the slices are positive, add up and stay under the lot-floored cap |
| ExecutionCaps.SlicesObeyTheLimits | trading/agents/execution.py:255-278 | under a freeze limit or a participation that reaches one unit, every slice before the last is the largest whole number of lots within the freeze quantity and mean volume times participation, or one lot when not even that fits, and the last is no larger; together they are the quantity |
| ExecutionCaps.UnlimitedGoesWhole | trading/agents/execution.py:255-278 | with no limit the quantity goes out whole, but for what is not a whole lot of a larger one |
| ExecutionDuty.ApprovalsAreDecided | trading/agents/execution.py:207-253 | an approval is executed exactly when trading goes on, its token is fresh and unexpired, its quantity is positive and within the intent, and its intent is the one seen; then its token is spent and the first slice of a plan for exactly its quantity goes out; any other changes nothing |
| ExecutionDuty.FinishedChildrenAreFollowed | trading/agents/execution.py:474-492 | the first report that a child of a plan is over sends the next slice, if one is left and trading goes on, and nothing is sent on any other report |
| ExecutionDuty.BracketCoversTheFill | trading/agents/execution.py:509-545 | the stop sent for a fill is for that quantity, tagged with the intent that asked for it and under the token of the order that filled; without one nothing is sent |
| ExecutionDuty.ReconcileMatchesTheBook | trading/agents/execution.py:617-655 | after a reconciliation the agent works on exactly the orders it worked on that the book lists and does not say are over, and knows the last the book says of each |
| ExecutionRuns.NetIsWhatWasPublished | trading/agents/execution.py:450-457 | over every run the net position of a key is the signed quantity of the fills published in it, streamed and derived |
| ExecutionRuns.RunRemembers | trading/agents/execution.py:184-239 | over every run: trading is halted exactly when the last command about it was to halt, an intent is known exactly when it was the last seen under its id, an order counts as streamed exactly when a fill of it has arrived, and a token is used exactly when an approval with it has been executed |
| ExecutionRuns.RunsDecideApprovals | trading/agents/execution.py:207-239 | so in every run an approval is executed exactly when the events leave trading on, its token unspent and unexpired, its quantity positive and within the intent, and no other intent last seen under its id |
| ExecutionRuns.NothingNewWhileHalted | trading/agents/execution.py:196-205 | from a halt until trading is resumed only protective orders go out and no approval is executed |
| ExecutionRuns.StreamedOrdersDeriveNothing | trading/agents/execution.py:400-423 | once a fill of an order has come down the stream nothing more is derived for it |
| ExecutionProofs.TokensAreOneShot | trading/agents/execution.py:207-239 | over every run against any venue a token is executed at most once, and the ordinary quantity sent under it never exceeds what its approval allowed |
| ExecutionProofs.AtMostOneLiveChild | trading/agents/execution.py:474-492 | over every run with one approval per intent, brackets on or off, the live slices of an intent are at most one more than its stops have released; so at most one when no stop has released any |
| ExecutionLeaks.LeaksAreCounted | trading/agents/execution.py:458-492 | over every run a leak is counted for each report looked at on a stop that releases a slice, and for nothing else |
| ExecutionLeaks.LiveChildrenFollowStops | trading/agents/execution.py:458-492 | with one approval per intent the live slices are at most one more than those reports; the counter is zero exactly when there was none, and then at most one slice is live |
| ExecutionProofs.OneLiveChildWithoutStops | trading/agents/execution.py:474-492 | with brackets off, or when no intent asks for a stop, at most one slice is live |
| ExecutionProofs.StopReportReleases | trading/agents/execution.py:474-492 | a report on a stop sends a slice exactly when it is terminal, comes while the stop is not working, and its plan has slices to go and may place them |
| ExecutionProofs.CancellingAStopReleasesASlice | trading/agents/execution.py:593-603 | a cancelled protective stop is forgotten before its report is looked at, so whatever terminal state comes back with its tag it releases a slice |
| ExecutionProofs.TwoChildrenLiveWithBrackets | trading/agents/execution.py:593-603 | a concrete run with brackets on that ends with two live children |
| ExecutionSound.RunIsSound | trading/agents/execution.py:141-176 | in every reachable state the agent holds only orders it has sent, every working stop is on file or was dropped from it, and what is known and derived of an order follows from its reports |
| ExecutionStops.FlatTakesItsStops | trading/agents/execution.py:450-472 | a fill that takes a position flat empties its file; of the stops working for it exactly the order that filled and those dropped from the file before survive, when cancels succeed |
| ExecutionStops.FlatFillLeavesAStop | trading/agents/execution.py:400-407 | a streamed fill that closes a position leaves the file empty exactly when the bracket guard fails for that fill or the stop is refused; otherwise a fresh stop is left on a flat book; for an order the agent sent the guard is the one before the fill |
| ExecutionStops.AskedBeforehand | trading/agents/execution.py:509-520 | publishing a fill of an order the agent sent, with all the cancelling it sets off, changes neither whether a stop is asked for nor by what intent |
| ExecutionStops.RunsTakeTheirStops | trading/agents/execution.py:458-472 | so over every run a flat position leaves working only the order that filled and stops dropped before |
| ExecutionSlices.InstantFillsAreNotCounted | trading/agents/execution.py:291-300 | a terminal report brings the filled quantity of its plan up to date but for the children it makes it send; once all have finished those all filled on placement, and the quantity is complete exactly when there are none |
| ExecutionSlices.FirstFillsAreNotCounted | trading/agents/execution.py:280-300 | a new plan whose slices all fill when placed ends with a filled quantity of zero |
| ExecutionFills.PublishedQuantity | trading/agents/execution.py:410-423 | over every run the quantity derived for an order without streamed fills is what is last reported, less what was first seen in a placement reply, chase, cancel or reconciliation, plus what updates took back; equal to the report exactly when it only ever grew in updates, if no report shrinks |
| ExecutionFills.PublishedWorth | trading/agents/execution.py:425-448 | likewise its worth: at least average price times filled quantity less the worth first seen outside the stream, and exactly that when the price floor never acted |
| ExecutionFills.ChaseSwallowsAFill | trading/agents/execution.py:582-591 | a reachable run in which three of four are first seen in the reply to a chase and are never published |
| Execution.ExecutionAgent.constructor | trading/agents/execution.py:141-176 | a new agent knows nothing |
| Execution.ExecutionAgent.CutSlices | trading/agents/execution.py:273-278 | the loop is the recursive cut |
| Execution.ExecutionAgent.Slices | trading/agents/execution.py:255-278 | the planned slices |
| Execution.ExecutionAgent.Place | trading/agents/execution.py:302-338 | what a placement remembers of the venue's answer - the new state is exactly the specified one |
| Execution.ExecutionAgent.PlaceNextSlice | trading/agents/execution.py:280-300 | the next slice, and through an instant fill the ones after it - the new state is exactly the specified one |
| Execution.ExecutionAgent.MarkAdvanced | trading/agents/execution.py:487-490 | a finished child is marked as having released its successor, and the filled quantity is counted afresh - the new state is exactly the specified one |
| Execution.ExecutionAgent.OnOrderProgress | trading/agents/execution.py:474-492 | a finished child releases its successor once - the new state is exactly the specified one |
| Execution.ExecutionAgent.OnApproval | trading/agents/execution.py:207-253 | a refusal with its reason, or the executed approval with its plan under way - the new state is exactly the specified one |
| Execution.ExecutionAgent.CancelOrder | trading/agents/execution.py:593-603 | the cancel and the progress it causes - the new state is exactly the specified one |
| Execution.ExecutionAgent.CancelProtective | trading/agents/execution.py:458-472 | the loop over a copy of the stops kept for a key - the new state is exactly the specified one |
| Execution.ExecutionAgent.PublishFill | trading/agents/execution.py:450-456 | the net position moves and going flat cancels the stops - the new state is exactly the specified one |
| Execution.ExecutionAgent.MaybeBracket | trading/agents/execution.py:509-545 | whether a fill gets a stop, and whose - the new state is exactly the specified one |
| Execution.ExecutionAgent.OnFill | trading/agents/execution.py:400-407 | a streamed fill - the new state is exactly the specified one |
| Execution.ExecutionAgent.OnChased | trading/agents/execution.py:582-591 | a successful chase - the new state is exactly the specified one |
| Execution.ExecutionAgent.DropUnlisted | trading/agents/execution.py:645-652 | the loop over the orders still working, which forgets those the book does not list - the new state is exactly the specified one |
| Execution.ExecutionAgent.ReconcileWith | trading/agents/execution.py:617-655 | the loops over the broker's book and over the orders still working - the new state is exactly the specified one |
| Execution.ExecutionAgent.Handle | trading/agents/execution.py:177-204 | one event, which also keeps tokens within their grants and stops on file - the new state is exactly the specified one |
| Execution.ExecutionAgent.HandleAll | trading/agents/execution.py:400-408 | a run is the fold of its events - the new state is exactly the specified one |
| Execution.ExecutionAgent.OnOrderUpdate | trading/agents/execution.py:410-423 | an order report, with a fill derived from it for brokers that stream none - the new state is exactly the specified one |
| Labels.ConcurrencyIsDifference | trading/training/labels.py:211-218 | how many labels share a bar is a difference of two prefix counts |
| Labels.ConcurrencyCounts | trading/training/labels.py:205-218 | concurrency is the number of valid labels whose bars include this one |
| Labels.Differences | trading/training/labels.py:214-217 | the difference array built by accumulation |
| Labels.InverseSums | trading/training/labels.py:218-220 | the running sum of differences is the concurrency, and the shifted running sum of its inverse |
| Labels.LabelUniqueness | trading/training/labels.py:205-224 | the fast form returns the direct definition, the mean of one over concurrency, for every mask and horizon, and zero for invalid labels |
| Labels.UniquenessBounds | trading/training/labels.py:205-224 | a valid label is between 1/h and 1 unique |
| Labels.WeightsCountCoveredBars | trading/training/labels.py:205-224 | h times the sum of all uniquenesses is the number of bars covered by at least one label |
| Labels.LabelStaysInSession | trading/training/labels.py:120-128 | on bars in time order a label is kept by the mask exactly when its horizon fits and none of its bars is in another session |
| Labels.WalkToBarrier | trading/training/labels.py:152-160 | the inner loop finds the first touch, the stop winning when both are touched |
| Labels.TripleBarrier | trading/training/labels.py:136-162 | the filled arrays hold each bar's specified outcome |
| Labels.OutcomeWithinBarriers | trading/training/labels.py:148-161 | a gross outcome is the stop, the target, or a timeout strictly between them |
| Labels.BarrierMeans | trading/training/labels.py:136-162 | a bar is labelled exactly when the horizon fits and it has a width; the first later bar to touch a barrier decides, the stop when it touches both, and else the price at the end |
| Splits.UniqueTimesCorrect | trading/training/splits.py:88-89 | the time line is strictly increasing and has exactly the given times |
| Splits.RowTimesOrder | trading/training/splits.py:90-91 | rows are ordered by position exactly as by time |
| Splits.CheckNoLeakage | trading/training/splits.py:128-144 | the check reports the first fold that is empty, too close or overlapping |
| Splits.WalkForward | trading/training/splits.py:61-125 | the refusals in order, the first short fold, or the folds if the check passes them |
| Splits.FoldKeepsGap | trading/training/splits.py:105-112 | every training row of a fold is more than purge plus embargo positions before every validation row |
| Splits.BlocksTileTheTail | trading/training/splits.py:103-112 | a row is validated by some fold exactly when it is not before the first validation time |
| Splits.BlocksAreDisjoint | trading/training/splits.py:103-112 | no row is validated by two folds |
| SplitMeaning.PositionCounts | trading/training/splits.py:88-91 | the position of a row is the number of distinct times before its own |
| SplitMeaning.FoldIs | trading/training/splits.py:100-123 | fold k validates exactly the rows of block k and trains on exactly the rows more than the gap before it, in a rolling split those within the rolling length, in row order |
| SplitMeaning.FoldsExactlyWhenFeasible | trading/training/splits.py:61-125 | folds come back exactly when the parameters make sense and leave enough to train on; they are one for each block, in order |
| Splits.CheckFiresExactlyWhenNothingTrains | trading/training/splits.py:124-144 | the leakage check can fire on built folds in one case only: no training minimum was asked for and the first block starts right after the gap |
| Splits.NoLabelReachesValidation | trading/training/train.py:282-291 | for one series with purge at least the horizon, no training label's price window reaches a validation bar |
| StackedSplits.LeaksExactlyWhen | trading/training/train.py:282-291 | with several symbols on one time line a fold is free of label leaks exactly when the label of every row it trains on, counted in bars of its own symbol, ends before the block starts |
| StackedSplits.ShortStretchesDoNotLeak | trading/training/splits.py:9-13 | so it is when every symbol's stretch of horizon bars spans at most purge plus embargo positions of the common time line |
| StackedSplits.LongStretchLeaks | trading/training/train.py:282-291 | a label that reaches further leaks: into a fold that is built with this purge and embargo and passes the check |
| StackedSplits.GapSufficesExactlyWhen | trading/training/splits.py:9-13 | so a purge plus embargo never leaks exactly when no label reaches more than that many positions down the common time line |
| StackedSplits.StackedSymbolsCanLeak | trading/training/splits.py:3-5 | a purge as long as the horizon is not enough: a fold the program builds and checks trains on a label priced inside validation |
| Features.BufferReproducesHistory | trading/features/features.py:240-256 | features of the last bar on the last `buffer_bars` bars equal those on the whole history when its session is no longer than planned; daily bars need no condition |
| Features.FeaturesAreCausal | trading/features/features.py:9-10 | a row is what it would be had the later bars not come |
| FeatureMeaning.RowMeans | trading/features/features.py:155-214 | every feature of a row means what its name says of the rows up to it, missing exactly when the window is not full: return, trend, distance, strength index, average true range, volatility, volume, range position and the session features |
| FeatureMeaning.RsiMeans | trading/features/features.py:117-123 | with R the sum of the rises and F that of the falls of the close in the window, rsi times (R + F + w EPS) is 100 R |
| FeatureMeaning.RsiRange | trading/features/features.py:117-123 | so it is between 0 and 100, 0 exactly when the close never rose, and above 50 exactly when the rises exceed the falls by more than w EPS |
| FeatureMeaning.ReturnHasTheSign | trading/features/features.py:171-173 | a return has the sign of the price comparison, for an increasing logarithm |
| FeatureMeaning.ReturnsAddUp | trading/features/features.py:171-173 | the return over n rows is the sum of the n one-row returns |
| FeatureMeaning.TrendMeans | trading/features/features.py:175-178 | the trend compares the fast average of the close with the slow one and the distance compares the close with the slow one |
| FeatureMeaning.DistanceHasTheSign | trading/features/features.py:175-178 | such a distance has the sign of the comparison |
| FeatureMeaning.AtrMeans | trading/features/features.py:126-146 | the true range covers high, low and the previous close; its window average is given as a part of the close |
| FeatureMeaning.VolatilityMeans | trading/features/features.py:184 | the volatility is the sample deviation of the one-row returns in the window, and needs two of them |
| FeatureMeaning.VolumeMeans | trading/features/features.py:186-189 | the volume score is the volume less its window average, in deviations, so that it has the sign of that difference |
| FeatureMeaning.QuotientHasTheSign | trading/features/features.py:186-189 | such a score has the sign of the difference, for a root that is not negative |
| FeatureMeaning.RangeMeans | trading/features/features.py:191-197 | the range position is between 0 and 1, 0 at the lowest low of the window, 1 at its highest high, and a half when they are equal |
| FeatureMeaning.VwapIsDayAverage | trading/features/features.py:200-206 | the volume-weighted price is the value traded that day over the volume, or the close before any trade |
| FeatureMeaning.DayAverageStaysInside | trading/features/features.py:200-206 | it lies between the lowest low and the highest high of the day so far |
| FeatureMeaning.SessionMeans | trading/features/features.py:199-214 | the session features: distance from the day average, hours since the day opened, and the step of the open from the last close before it |
| Features.RollingFeaturesAgree | trading/features/features.py:66-77 | windows that fit after the first bar of a shorter frame cannot tell it from the longer one |
| Features.SessionFeaturesAgree | trading/features/features.py:199-214 | session features survive when the session's first bar and the one before it are kept |
| Features.TimeOfDayNeedsSessionStart | trading/features/features.py:208-209 | time of day is right exactly when the session's first bar is still in the buffer |
| Features.SessionSurvivesExactlyWhen | trading/features/features.py:199-214 | all session features of the last bar survive exactly when the buffer holds the session and the bar before it, or just the session when there was no overnight gap |
| Features.FeaturesSurviveExactlyWhen | trading/features/features.py:240-256 | so do all features of the last bar, once the buffer covers the longest window |
| FeatureBuffer.BufferIsTail | trading/agents/data.py:219-228 | the bounded deque is always the end of the accepted history, restatements included |
| FeatureBuffer.HistoryMeans | trading/agents/data.py:219-228 | the accepted history is exactly the bars that were not late when they came and that no later bar restated before the feed moved on, in strictly increasing time |
| FeatureBuffer.PrimedMeans | trading/agents/data.py:294-307 | priming adds exactly the bars later than the history and than every bar before them, in order |
| FeatureBuffer.LiveFeaturesMatchHistory | trading/agents/data.py:219-248 | whatever bars arrive, late and repeated ones included, live features are those of the accepted history |
| FeatureBuffer.DataBuffer.EmitBar | trading/agents/data.py:219-248 | a bar is dropped when older than the last, replaces it when equal, and is published with the last row of features of the bars then held, the row that `FeatureMeaning.RowMeans` describes |
| FeatureBuffer.DataBuffer.Prime | trading/agents/data.py:294-307 | priming adds exactly the bars later than the last one |
| BarsSpec.BarStartMonotone | trading/core/clock.py:218-227 | bar starts follow time and never lie after it |
| BarsSpec.BarStartCoarsens | trading/core/clock.py:218-227 | flooring to a finer interval first does not change the coarser window |
| BarsSpec.ResamplingComposes | trading/agents/data.py:381-395 | resampling to the finer interval and then the coarser is resampling straight to the coarser |
| BarsMeaning.ResampleIsFaithful | trading/agents/data.py:119-139 | windows come out in increasing order, each with the first open, highest high, lowest low, last close, summed volume and last known open interest of exactly its bars; every bar has its window and total volume is conserved |
| Builders.BarBuilder.OnBar | trading/agents/data.py:119-139 | one bar opens, completes, joins or is dropped |
| Builders.BarBuilder.OnTick | trading/agents/data.py:99-117 | a tick acts as the one-price bar of its metered volume, and a late one still moves the meter |
| Builders.BarBuilder.CloseIfDue | trading/agents/data.py:141-149 | a window whose end has passed is handed out and closed |
| Builders.BarBuilder.Flush | trading/agents/data.py:151-156 | whatever is pending is handed out |
| Builders.SessionVolume | trading/agents/data.py:86-97 | over one session with a counter that never falls the deltas add up to the first trade plus what the counter gained |
| Builders.DeltaMeans | trading/agents/data.py:86-97 | over any ticks and days: a tick whose counter carries on from the last one of its day counts the difference; one without a counter, with the first of its day, or with one that fell counts its own trade |
| Builders.SortKeepsSymbols | trading/agents/data.py:395 | the final sort orders by time and then symbol and leaves each symbol's bars as they were |
| Builders.ResampleBars | trading/agents/data.py:381-395 | with several symbols interleaved in any order the output holds, per symbol, exactly what its own builder makes of its bars, ordered by time and then symbol |
| SessionGrid.ListSessionBars | trading/core/clock.py:184-204 | the loop lists the session's bars |
| SessionGrid.SessionBarsAre | trading/core/clock.py:184-204 | the bars of a session are the open and every whole number of intervals after it that comes before the close |
| SessionGrid.GridsAgreeWhenOpenIsOnGrid | trading/core/clock.py:184-227 | a session's bars are bar starts exactly when the open lies on the grid of the interval |
| SessionGrid.HourlyBarsMissTheOpen | trading/core/clock.py:218-227 | an hourly bar on a 09:15 open is listed at 09:15 and floored to 09:00 |
| RateLimits.OrderRateLimiter.Acquire | trading/agents/execution.py:86-97 | the loop takes a token at the first reading that has one, and counts its waits |
| RateLimits.BurstIsBounded | trading/agents/execution.py:76-97 | any stretch of length T sees at most rate times (1 + T) tokens, whatever waiters interleave and whatever came before |
| RateLimits.SleepSuffices | trading/agents/execution.py:95-97 | an undisturbed waiter that sleeps as told gets its token, for rates of at least one |
| RateLimits.IdleBucketBursts | trading/agents/execution.py:86-97 | a bucket left alone for a second gives out as many tokens at once as its rate has whole ones |
| RateLimits.SlowRatesStarve | trading/agents/execution.py:89-94 | below one per second no token is ever given |
| RateLimits.RateLimiter.Acquire | trading/brokers/dhan.py:274-292 | one request: the day's counter, the cap, the sleep and the stamp |
| RateLimits.RateLimiter.Prune | trading/brokers/dhan.py:294-296 | stamps a second old or more leave from the front |
| RateLimits.WindowIsRespected | trading/brokers/dhan.py:274-292 | with honest sleeps any perSecond + 1 consecutive requests span at least a second |
| RateLimits.DayCapHolds | trading/brokers/dhan.py:277-281 | no day, as read on admission, sees more requests than its cap |
| RateLimits.RefusedExactlyAtTheCap | trading/brokers/dhan.py:277-281 | a request is refused exactly when its day has used up its cap |
| RateLimits.SleepsExactlyWhenCrowded | trading/brokers/dhan.py:283-291 | a request sleeps exactly when the latest perSecond requests were all let through within the last second, and goes out at once otherwise |
| RateLimits.SentPerDayIsCapped | trading/brokers/dhan.py:274-292 | on a calendar that moves forward at most one request more than the cap is sent on any day, and none more when no request sleeps across a midnight |
| RateLimits.SleepAcrossMidnightAddsOne | trading/brokers/dhan.py:277-292 | a request that sleeps across midnight counts for the old day: a run that sends three on one day against a cap of two |
| Risk.QtyForValueIsExact | trading/agents/risk.py:407-412 | a whole-lot quantity fits a value exactly when it is at most the computed one, itself whole lots |
| Risk.ApprovedEntryIsWithinEveryCap | trading/agents/risk.py:198-246 | an approved entry is a positive whole number of lots no larger than asked, within the position, gross, order and Kelly caps after every trim, and the largest such quantity |
| Risk.AlwaysOneOutcome | trading/agents/risk.py:198-227 | `evaluate` approves or rejects and never raises |
| RiskOutcome.OutcomeIsExact | trading/agents/risk.py:198-402 | for every intent and desk: the refusal names the first rule, in order, that does not hold of the intent as asked; when all hold an exit is approved in full and an entry for the largest whole number of lots that fits the stake, the position cap and the exposure cap |
| RiskOutcome.KellyBalances | trading/agents/risk.py:81-92 | the Kelly fraction is the stake at which expected growth turns, positive exactly when the bet has an edge |
| RiskOutcome.BalanceIsUnique | trading/agents/risk.py:81-92 | and no other fraction is |
| RiskControl.RiskAgent.Evaluate | trading/agents/risk.py:198-246 | the loop over the rules, rebinding the quantity, returns the specified outcome |
| RiskControl.RiskAgent.HandleIntent | trading/agents/risk.py:178-196 | the outcome, counted |
| RiskControl.RiskAgent.Control | trading/agents/risk.py:136-150 | what each command latches or releases |
| RiskControl.RiskAgent.SeeFill | trading/agents/risk.py:152-167 | the day is halted the moment the loss limit is breached |
| RiskControl.HurdleIsForTheFullSize | trading/agents/risk.py:330-349 | the hurdle cleared is the one of the quantity asked; the approval keeps that quantity exactly when it fits every cap, and has then cleared its own hurdle |
| RiskControl.ApprovedQtyIsTrimmed | trading/agents/risk.py:351-402 | the approved quantity is the one asked or what fits the tightest of the Kelly, position and gross caps |
| RiskControl.ApprovalClearsItsOwnHurdle | trading/agents/risk.py:340-349 | an approved entry clears its own hurdle exactly when its edge exceeds the round trip cost, times the multiple asked, of the quantity the caps leave |
| RiskControl.OneLotEdgeIsEnough | trading/agents/risk.py:330-349 | a trimmed approval clears its own hurdle too when the edge clears that of one lot with 14 / (value of a lot) basis points to spare |
| RiskControl.TrimmedApprovalCanMissItsHurdle | trading/agents/risk.py:330-349 | a concrete trimmed approval whose own cost exceeds its edge |
| RiskControl.ExitsAreAllOrNothing | trading/agents/risk.py:229-253 | an exit is approved in full exactly when the four gates pass it, and flips the position exactly when larger than it |
| RiskControl.OversizedExitFlips | trading/agents/risk.py:248-253 | a concrete oversized exit that leaves a position far over the cap |
| RiskControl.NothingTradesAfterKill | trading/agents/risk.py:136-146 | from a kill until a resume every intent is refused, exits included |
| RiskControl.NoEntryAfterHalt | trading/agents/risk.py:152-167 | once halted no entry is approved for the rest of the day, whatever the PnL does |
| RiskOutcome.KillHolds | trading/agents/risk.py:136-146 | after any events, a KILL and then no RESUME, every intent is refused |
| RiskOutcome.ResumeHolds | trading/agents/risk.py:136-146 | after a RESUME the kill switch refuses nothing until the next KILL |
| RiskOutcome.PauseHolds | trading/agents/risk.py:136-150 | after a strategy is paused its intents are refused until it is unpaused, and no other strategy is refused for it |
| RiskOutcome.UnpauseHolds | trading/agents/risk.py:136-150 | after it is unpaused, or if it never was paused, it is not refused for that |
| RiskOutcome.HaltHolds | trading/agents/risk.py:152-167 | a fill seen with the day at its loss limit stops entries for the rest of the day |
| RiskOutcome.NoHaltBeforeTheLimit | trading/agents/risk.py:152-167 | a fill seen before the limit halts nothing |
| Symbols.SplitOfJoin | trading/brokers/symbols.py:150-155 | splitting what was joined from tokens without dashes gives the tokens back |
| Symbols.JoinOfSplit | trading/brokers/symbols.py:178 | joining what was split gives the text back, in tokens without dashes |
| SymbolRoundTrip.ParseIsWellFormed | trading/brokers/symbols.py:170-209 | what parsing accepts: a legal underlying, an expiry exactly for derivatives, a strike and option type exactly for options, NSE exactly for cash |
| SymbolRoundTrip.WellFormedSymbolsParse | trading/brokers/symbols.py:135-209 | every well-formed symbol is accepted in its canonical form and read back as it was exactly when its strike prints exactly |
| SymbolRoundTrip.FutSuffixIsOptional | trading/brokers/symbols.py:170-209 | a FUT suffix changes nothing for a future and makes any other text unacceptable |
| SymbolRoundTrip.ParsingInvertsPrinting | trading/brokers/symbols.py:100-209 | for every accepted text, parsing its canonical form gives the same symbol exactly when its strike, if any, is printed exactly |
| SymbolRoundTrip.WholeStrikesPrintExactly | trading/brokers/symbols.py:135-136 | every whole strike is printed exactly |
| SymbolRoundTrip.CanonicalIsIdempotent | trading/brokers/symbols.py:100-104 | canonicalising twice is canonicalising once for cash symbols, futures and whole strikes |

## Left out

- Floating-point round-off: all arithmetic is over exact reals; Python's `round(x, 4)` is kept, as rounding half to even on exact values.
- Object identity: orders and positions are values, so a caller that keeps a broker's own order object and sees it change is not modelled; what the queue carries are copies, as in the program.
- Persistence, status messages, alerts, logging, order parents and strategy attribution: no effect on the modelled state.
- Funds and margin reports: read-only summaries of what is proved about equity.
- Lot sizes and contract multipliers: attributes of a symbol, a positive integer and a positive real; the lookup tables are not modelled.
- Fee rates: typed as non-negative, which the tables are.
- Slippage models: any function of the order, quantity and price context; the backtest's fixed and square-root models are instances.
- Order pricing, tick rounding and the chase's new price in the execution agent: orders, not prices, are what its results are about; a chase is an arbitrary report on a working child.
- The execution agent's clock: deadlines and the timer that decides when to cancel or chase are arbitrary events.
- asyncio: handlers run to completion in subscription order, as on the in-memory bus; the token bucket is proved for every interleaving of its waiters.
- Several limiter categories: one bucket stands for each; they share a lock and nothing else.
- The day snapshot of the portfolio and the kill switch's alerts: the daily PnL is an input of the risk rules.
- Approval token expiry and the checks text attached to an approval: the risk model ends at the approved quantity.
- `warmup`, `precompute` and the feed loops of the data agent: I/O; that a whole-series computation may replace the live one is `Features.FeaturesAreCausal`.
- The frame layout of features: a frame is a sequence of rows in increasing time; on such frames the previous session's last close is the close before the session's first bar.
- Logarithm and square root in features: arbitrary functions, so the parity holds for any.
- `holdout_split`, label dispatch, cost fractions and labels net of costs, drawdown and the ratio statistics: short expressions that would add only easy members.
- Training minimum and rolling size of a split: natural numbers, as every caller passes.
- Non-ASCII text in symbols: upper-casing and digits are the ASCII ones; the `:g` format of fractional strikes is an arbitrary function.
- The exchange's holiday calendar and the special sessions: a session is its open and close.
- BrokerPrices.RunFillsFairly: covers runs without repricing, because after a reprice an old fill may be worse than the new limit; each single call, repricing included, is `BrokerPrices.ApplyFillsFairly`, and that in every run each fill is at or better than the limit its order had at that moment is part of `BrokerRules.RunFillsAreLawful`.
- ReplayTimes.FillsFollowOrdersExactly: the converse half sells at market, so it asks that bars are of tradable symbols with an open that does not round to nothing.
- ReplayEquity.PortfolioEquityIsBrokerEquity: for steps in which the broker does not raise and the queue is drained where the engine drains it; that a bar which raises breaks the agreement is `ReplayRaises.RaisingSplitsTheBooks`.
- ExecutionProofs.AtMostOneLiveChild: with one approval per intent, as the risk agent gives; a second approval replaces the plan while children of the first may still be live.
- ExecutionFills.PublishedWorth: for reports whose average price is given with their filled quantity; what is derived from a report without an average is priced by the limit or the floor.
- StackedSplits.LeaksExactlyWhen: labels that always look `horizon` bars ahead; a barrier label that ends earlier leaks no more.
- ReplayDuty.StepEndsFlat: for backtests and for steps whose square-off answers; what makes one answer is part of `BrokerCover.AnsweredSquareOffKeepsCover`.
