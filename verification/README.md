# A verified model of the quantitative research and trading platform

This project models the ledgers, state machines, caches and optimisers of the platform in Dafny and proves what
they promise. `dafny verify dfyconfig.toml` checks everything.

| Modules | What they model |
|---|---|
| `TaxLots`, `TaxSales`, `TaxSimulation`, `TaxTargets`, `TaxTheorems`, `HifoDominance`, `TaxReport`, `TaxBill` | the tax-lot ledger: lots consumed in place under FIFO, LIFO or HIFO inside a rebalancing loop, wash sales and the tax bill |
| `LiveControls`, `LiveEngine`, `LiveRisk`, `LiveFlatten`, `LiveAssessment`, `LiveExposure` | the live strategy engine: one background loop, advanced a critical section or broker call at a time, with any control pressed between any two steps and closes from the API in flight beside it |
| `Signals`, `LiveBacktest`, `LabWealth`, `LiveSleeve` | the trading signals, the backtest the live engine is meant to reproduce, what that backtest earns, and the live sleeve as a run of the engine |
| `FillBook`, `OrderTags` | average-cost fill accounting, reconciliation, and the order tags that attribute fills |
| `Lru`, `SignalCache`, `SharedCache` | the content-addressed panel cache: one process as a class, many processes and crashes as a state machine |
| `OrderBook`, `OrderBookRows`, `OrderBookPruning`, `LostRows` | order-book replay, what its rows say, and the replay with and without pruning |
| `Capacity` | capital allocation by bisection on a shadow price, and crowding |
| `Execution`, `Universe`, `WalkForward`, `WalkForwardTheorems`, `WalkForwardWealth` | partial fills, point-in-time membership, the walk-forward loop and what it earns |
| `RiskOptimizer` | the position-cap loop, the turnover budget and the rebalance loop around them |
| `PointInTime`, `TrailingSums`, `FlowLookAhead` | trailing sums of filed fundamentals, their alignment to trading days, and what later filings do to them |
| `Seal` | the hash-chained report seal |
| `Reals` | arithmetic shared by all of them |

Floats are exact reals. A missing or NaN price is `None`. The ledger's thresholds (1e-12 shares, 1e-9 for a buy) are
kept as they are, so its theorems carry an explicit dust bound; every other theorem is exact. Code that updates
state in place is a class or a method with loops, proved against a function of the old state; the theorems are about
that function.

## Where the code and its documentation differ

* `research/mds/lob.py:112` says pruning does not affect any feature. It does once the near-touch levels are
  withdrawn: `OrderBookPruning.PruningCanHideTheBook` gives the family of books, `LostRows.PruningLosesARow` a
  session whose rows change, and `OrderBookPruning.PruningPreservesRows` the condition under which the claim holds.
* `research/service/engine.py:8` says a cycle stops the instant kill is pressed. One order whose last check has
  already passed can still go out: `LiveEngine.KillLatches` bounds it by one and `LiveEngine.KillCanMissOneOrder`
  shows that the bound is reached.
* `research/service/lab.py:5` promises no drift between backtest and live. The live engine fetches 120 bars, so a
  strategy with a longer window never trades live; the parameter grid offers slow = 192
  (`Signals.GridEntryNeverTradesLive`). It also skips a symbol with fewer than five bars, which a strategy with a
  shorter window would already trade (`LiveBacktest.ShortWindowSkipsEarlyBars`).
  `LiveBacktest.TradesTheBacktestIffFits` is the exact condition.
* `research/service/engine.py:52-61` issues order numbers under the lock and the orders are submitted outside it, so
  numbers are unique and increase as issued, and as sent only while no number is drawn with another outstanding
  (`LiveRisk.OneAtATimeSendsInOrder`, `LiveRisk.TwoOutstandingCanSendOutOfOrder`, `LiveRisk.CloseOvertakes`).
* `research/service/engine.py:395-401` can resume in the middle of a risk halt, which then ends with its flag set and
  the kill released (`LiveRisk.ResumeMidHaltLosesTheKill`).
* `research/mds/edgar.py:236-238` calls alignment the whole point-in-time guarantee. A filing that arrives later can
  still change the trailing sum aligned to an earlier day (`FlowLookAhead.LaterFilingChangesThePast`);
  `FlowLookAhead.AlignedFlowIsCausalIff` says exactly when.
* `research/mds/taxaware.py:228-230` compares the methods on one trade path. Their realized plus unrealized totals
  agree only while every position held has a last price (`TaxReport.UnpricedTotalDependsOnMethod`).
* `research/service/engine.py:372-379` lets a strategy be armed after a cycle's assessment, and that cycle can then
  trade it past the drawdown limits it has just assessed (`LiveRisk.LateArmTrades`,
  `LiveRisk.ArmingMidCycleSlipsThrough`).
* `research/mds/capacity.py:48` states the budget as an equality; the bisection can under-spend
  (`Capacity.BudgetIsNotMet`), by at most `Capacity.Leftover`. `Capacity.BudgetIsMetIff` says exactly when it does
  not.
* `research/mds/engine.py:11-12` says look-ahead is impossible by construction. The membership mask reads the last
  valid price, so a hole in a price history leaks whether the price comes back
  (`WalkForwardTheorems.HolesLeakTheFuture`; `Universe.MaskIsSettledIff` is the exact condition).
* `research/mds/engine.py:77-78` says a delisting loss is realized when a held name exits. Under a participation
  cap it is charged again at every rebalance until the position is closed
  (`WalkForwardTheorems.ChargedAgainIff`).
* `research/mds/riskmodel.py:211` guarantees the cap by clipping after 64 passes; the clip can cost the book its
  dollar neutrality (`RiskOptimizer.FallbackBreaksNeutrality`), and under a gross target too large for the cap every
  run ends that way (`RiskOptimizer.CrowdedNeverSettles`).

## Model

| member | source | states |
|---|---|---|
| `TaxLots.OrderIsComplete` | research/mds/taxaware.py:70-78 | every lot method visits every lot exactly once, and HIFO visits them by descending cost, the older first among equals |
| `TaxSales.AnyOrderIsFeasible` | research/mds/taxaware.py:81-101 | a sale in any lot order delivers the quantity asked for (up to one dust), with proceeds and basis matching the shares taken, and the lots keep the rest |
| `TaxSales.SaleIsFeasible` | research/mds/taxaware.py:81-101 | the same for the sale of every policy, the source's methods included |
| `TaxSales.SplitSettles` | research/mds/taxaware.py:81-101 | so does any feasible split of the quantity across the lots |
| `TaxSales.HifoIsDearestFirst` | research/mds/taxaware.py:70-101 | after a HIFO sale no lot has been touched while a dearer one, or an older one of the same cost, still holds shares |
| `TaxSales.FifoIsOldestFirst` | research/mds/taxaware.py:70-101 | after a FIFO sale no lot has been touched while an older one still holds shares |
| `TaxSales.LifoIsNewestFirst` | research/mds/taxaware.py:70-101 | after a LIFO sale no lot has been touched while a newer one still holds shares |
| `TaxSales.SaleEventsDescribeLots` | research/mds/taxaware.py:81-101 | every event of a sale is about a lot held: at most its shares, at its cost and the sale's price and date, long-term exactly when it was held for 365 days |
| `TaxSales.FeasibleFloor` | research/mds/taxaware.py:81-101 | whatever the order, no more than the sale's quantity leaves the lots of cost c or above |
| `TaxSales.DearestCeiling` | research/mds/taxaware.py:81-101 | a dearest-first sale takes all it can out of every cost level |
| `TaxSimulation.Simulator.SellLots` | research/mds/taxaware.py:81-101 | the in-place consumption loop leaves exactly the live lots of the specified sale and appends its events |
| `TaxSimulation.Simulator.TradeSymbol` | research/mds/taxaware.py:123-139 | one symbol's trim, buy or hold changes the book as specified and nothing else |
| `TaxSimulation.Simulator.Step` | research/mds/taxaware.py:119-139 | one date's valuation and rebalance is the specified transition of cash, shares, lots and events |
| `TaxSimulation.Simulator.Liquidate` | research/mds/taxaware.py:141-148 | the final liquidation sells every open position at the last finite price |
| `TaxSimulation.Simulate` | research/mds/taxaware.py:104-160 | the whole simulation ends in the specified book and reports its unrealized gain |
| `TaxSimulation.Decide` | research/mds/taxaware.py:124-139 | a sale never exceeds the shares held and a buy is above the minimum trade at a positive price |
| `TaxTargets.DaysEndOnTarget` | research/mds/taxaware.py:117-139 | after every date of every run each priced holding is worth its target weight of what the book was worth before the date's trades, to within the smallest trade; an unpriced one keeps its shares, and none is short |
| `TaxTargets.DecisionReachesTarget` | research/mds/taxaware.py:124-139 | a buy or a sale reaches the target value exactly, and what is left alone is off it by no more than the smallest trade |
| `TaxTheorems.TradePathIgnoresMethod` | research/mds/taxaware.py:104-160 | over every history, cash, shares and purchases are the same under FIFO, LIFO, HIFO and any other policy of taking shares from lots at each sale |
| `TaxTheorems.LedgerConserved` | research/mds/taxaware.py:104-160 | under every such policy, after every date cash plus remaining basis equals capital plus realized gain, and the lots of a symbol add up to its shares, within an explicit dust bound |
| `TaxTheorems.RunKeeps` | research/mds/taxaware.py:104-160 | the per-position and per-ledger invariants behind conservation hold after every date |
| `HifoDominance.SaleDominates` | research/mds/taxaware.py:70-101 | a HIFO sale of one position against any feasible sale of another, in any order or split across its lots in any way, preserves holding no more at every cost level |
| `HifoDominance.BasisDominates` | research/mds/taxaware.py:81-101 | holding no more shares at every cost level means holding no more basis |
| `HifoDominance.HifoHoldsFewestDearShares` | research/mds/taxaware.py:70-160 | after every date and for every cost c, HIFO holds no more shares bought at c or above than FIFO, LIFO or any policy that takes any feasible amounts from the lots at each sale |
| `HifoDominance.HifoRealizesLeast` | research/mds/taxaware.py:70-160 | after every date HIFO's cumulative realized gain is no larger than that of any such policy |
| `TaxReport.FinalLedgerConserved` | research/mds/taxaware.py:104-160 | the cash, basis and share conservation of `TaxTheorems.LedgerConserved` holds at the end of every run, liquidated or not |
| `TaxReport.ReportedIsMoneyMade` | research/mds/taxaware.py:104-160 | realized plus unrealized gain is the account's value above its starting capital plus the basis of what has no last price, under every policy, liquidated at the end or not |
| `TaxReport.TotalGainIgnoresMethod` | research/mds/taxaware.py:225-243 | less the basis of what has no last price, realized plus unrealized gain is the same under every policy, liquidated or not; so the total itself is when every position held has a last price |
| `TaxReport.LiquidationRealizesAll` | research/mds/taxaware.py:141-160 | after a liquidation nothing is left unrealized |
| `TaxReport.UnpricedTotalDependsOnMethod` | research/mds/taxaware.py:150-160 | four days of trading, the last without a price, whose reported total is 2 under FIFO and 0 under HIFO |
| `TaxBill.SimResult.BuysBySymbol` | research/mds/taxaware.py:173-175 | the grouped repurchase dates are exactly the purchases |
| `TaxBill.SimResult.FlagWashSales` | research/mds/taxaware.py:163-183 | exactly the losses with a repurchase of the symbol within the window are disallowed |
| `TaxBill.BillConservesGain` | research/mds/taxaware.py:186-222 | taxable gain, carryforward and disallowed losses account for every realized dollar, and nothing is taxed while a loss is left |
| `TaxBill.EachGainPaysItsRate` | research/mds/taxaware.py:186-200 | two gains each pay their own rate, one bucket's loss comes off the other's gain first, and a net loss pays nothing and is carried forward whole |
| `TaxBill.OneTermPaysItsRate` | research/mds/taxaware.py:203-222 | a ledger of short-term events alone pays the short rate on its deductible net gain, one of long-term events the long rate |
| `TaxBill.TaxMonotone` | research/mds/taxaware.py:186-200 | more gain in either bucket never lowers the tax |
| `TaxBill.WashSalesNeverCutTax` | research/mds/taxaware.py:163-222 | flagging wash sales never lowers the bill |
| `LiveControls.EngineState.ArmStrategy` | research/service/engine.py:372-379 | an armed registered strategy may trade unless the kill is engaged, and whether any other may is unchanged; an unknown one is refused |
| `LiveControls.EngineState.DisarmStrategy` | research/service/engine.py:382-385 | the strategy is halted, and whether any other is stays unchanged |
| `LiveControls.EngineState.KillAll` | research/service/engine.py:388-392 | every strategy is halted, and stays so through any number of arms |
| `LiveControls.EngineState.ResumeTrading` | research/service/engine.py:395-401 | exactly the armed strategies may trade again, and the next assessment starts from zero drawdown and no breach |
| `LiveControls.EngineState.NextSeq` | research/service/engine.py:52-61 | each order number exceeds the last and is the clock's when that is new |
| `LiveControls.EngineState.AssessRisk` | research/service/engine.py:279-298 | the assessment raises every peak first and measures drawdowns from the raised peaks |
| `LiveAssessment.DrawdownsAreFromTheHighs` | research/service/engine.py:279-298 | whenever the loop assesses, in any run, the drawdown is the fall from the highest total P&L assessed since the last resume, the exposure is the books' total, and each row's sleeve is measured from the highest P&L shown for it |
| `LiveEngine.KillLatches` | research/service/engine.py:202-260 | under every interleaving, between a kill and the next resume the loop sends at most the one order already past its last check |
| `LiveEngine.KilledCyclesAreSilent` | research/service/engine.py:202-260 | a cycle begun after the kill trades nothing, whatever is armed |
| `LiveEngine.GateOpensIff` | research/service/engine.py:330-337 | a pass begins exactly when some strategy may trade |
| `LiveEngine.KillCanMissOneOrder` | research/service/engine.py:246-248 | a kill between an order's last check and its submission does not stop that order, whether or not its number has been drawn |
| `LiveEngine.DisarmStops` | research/service/engine.py:202-260 | the same latch for one disarmed strategy |
| `LiveRisk.PeaksAlwaysMaxima` | research/service/engine.py:279-298 | at every moment the session mark bounds the total P&L of every book assessed since the last resume and is attained by one; and exactly the strategies shown have a mark that bounds, and is attained by, their own rows |
| `LiveRisk.GrossStaysCapped` | research/service/engine.py:202-251 | within every pass the sum of absolute weights is at most the running estimate, which never exceeds the cap or, if larger, what was held at the start, and an entry is of the minimum size and fits what is left |
| `LiveExposure.EntriesAlwaysCapped` | research/service/engine.py:220-251 | over every run the pass's estimate is the exposure it began with and the entries it has sent, per symbol and in total, and the entries of no cycle exceed the gross cap |
| `LiveRisk.OrdersRespectDrawdownLimits` | research/service/engine.py:270-339 | every entry and exit of a strategy not itself armed since the assessment comes from a cycle with session drawdown above -750 and that sleeve's above -400 |
| `LiveRisk.LateArmTrades` | research/service/engine.py:324-337 | from every state at the gate or before the pass, whatever drawdowns were assessed, arming a registered strategy lets it enter in that cycle if the exposure cap leaves room |
| `LiveRisk.ArmingMidCycleSlipsThrough` | research/service/engine.py:324-337 | a run from the start enters at a session drawdown of -800 |
| `LiveRisk.RiskHaltIsLatched` | research/service/engine.py:300-310 | in every run in which no resume lands in the middle of a halt, an automatic halt implies the latched kill |
| `LiveFlatten.BreachFlattensEveryone` | research/service/engine.py:265-310 | over every run no cycle that assessed a drawdown of 750 or more with exposure open ends before every registered strategy has had its turn to be flattened, in the first breached cycle and in every later one; in a turn whose positions could be read each that needs a close has one, numbered and submitted or turned away, and no other does |
| `LiveFlatten.BleedingSleevesAreFlattened` | research/service/engine.py:312-321 | over every run the loop disarms no sleeve before flattening it, and no cycle within the session limit goes on to trade, or ends, before every sleeve beyond its own limit has been flattened |
| `LiveFlatten.HaltsOnlyOnBreach` | research/service/engine.py:299-321 | over every run a cycle kills or halts only on a drawdown of 750 or more with exposure or something armed, flattens everyone only with exposure, and stops only sleeves down 400 or more with exposure or armed |
| `LiveFlatten.TurnClosesWhatItShould` | research/service/engine.py:404-439 | a finished turn put in one close for each open position with something available and no close working, and for no other |
| `LiveFlatten.TurnsAlwaysSound` | research/service/engine.py:265-321 | the invariant behind both: at every point of every cycle the turns on record are complete and those still due are on the list |
| `LiveRisk.ResumeMidHaltLosesTheKill` | research/service/engine.py:300-310 | from every state in the middle of a halt, a resume leads to a flagged halt with the kill released |
| `LiveRisk.NumbersAreUnique` | research/service/engine.py:52-61 | over every run, with closes from the API in flight beside the loop, numbers are issued in increasing order and no two orders sent, numbered or waiting share one |
| `LiveRisk.OneAtATimeSendsInOrder` | research/service/engine.py:52-61 | in every run in which no more than one number is outstanding before each action, orders are sent in the order of their numbers |
| `LiveRisk.TwoOutstandingCanSendOutOfOrder` | research/service/engine.py:52-61 | every run that has two numbers outstanding can go on to send out of order |
| `LiveRisk.CloseOvertakes` | research/service/engine.py:404-434 | from every state about to number an order, whatever closes are waiting, a close can be numbered later and sent first |
| `Signals.TailKeepsSign` | research/service/strategies.py:87-107 | a signal reads no more than its window of bars |
| `Signals.MomentumIsLongIff` | research/service/strategies.py:100-106 | on positive prices momentum is long if and only if the last price is above the one `lookback` bars before it |
| `Signals.CrossoverIsLongIff` | research/service/strategies.py:87-99 | a crossover is long if and only if both windows fit and the fast mean is above the slow one |
| `Signals.LiveMatchesIffWindowFits` | research/service/engine.py:220-224 | the sign a flat live sleeve acts on is the backtest's on every history if and only if the window has at least five bars and at most the 120 fetched, or the strategy can never be long |
| `Signals.GridEntryNeverTradesLive` | research/service/lab.py:120-123 | in the grid exactly the crossovers with slow = 192 differ, and they are never long live; every momentum entry matches |
| `LiveBacktest.RunSeries` | research/service/lab.py:132-150 | the backtest loop returns the specified net return of every bar and the total turnover |
| `LabWealth.ReturnsAreTheAccount` | research/service/lab.py:132-150 | without costs the compounded net returns of any run are the value of an account that is switched between cash and shares at the closes as the signal says |
| `LabWealth.CostsAreTheTurnover` | research/service/lab.py:132-150 | costs take their rate off the summed returns at every change of position and nothing else |
| `LiveBacktest.LiveTradesTheBacktest` | research/service/engine.py:220-260 | armed flat at any bar, a strategy that fits holds at every later bar the position of the backtest begun there and sends exactly its change |
| `LiveBacktest.OrdersAreTheTurnover` | research/service/lab.py:138-146 | from any start bar the number of live orders is the backtest's turnover |
| `LiveBacktest.TradesTheBacktestIffFits` | research/service/engine.py:220-260 | on every history and calm market the live orders are the backtest's changes if and only if the window fits the 120 bars and either it or the start bar covers the five-bar minimum, or the strategy is never long |
| `LiveBacktest.ShortWindowSkipsEarlyBars` | research/service/engine.py:222-224 | a one-bar momentum is long on its second bar with turnover one, and the live engine sends nothing |
| `LiveSleeve.CycleSends` | research/service/engine.py:324-337 | one cycle of the engine on quiet books sends exactly the order its quote decides on |
| `LiveSleeve.EngineTradesTheBacktest` | research/service/engine.py:202-337 | a run of the engine, one cycle a bar, sends exactly the backtest's changes of position, in order |
| `FillBook.SymbolBook.ApplyFill` | research/service/strategies.py:133-158 | a fill updates the book as specified on the open, add, reduce, close and flip branches |
| `FillBook.PositionPnl` | research/service/strategies.py:161-174 | the loop reduces the usable fills, in order |
| `FillBook.UsableIs` | research/service/strategies.py:165-168 | fills are taken one by one, in order and as reported, and exactly those without a price or a quantity are skipped |
| `FillBook.FillConservesCash` | research/service/strategies.py:133-158 | on every branch realized less quantity times average cost moves by the fill's signed, fee-net cash |
| `FillBook.FillsConserveCash` | research/service/strategies.py:133-174 | so over every sequence of fills the book explains exactly the cash that moved |
| `FillBook.AverageCostIff` | research/service/strategies.py:133-158 | after every fill there is exactly one book that conserves cash, books nothing on an open or add, keeps the average on a partial reduction, and carries a flipped rest at the fill's net price; it is the one computed |
| `FillBook.AddsCarryTheirCost` | research/service/strategies.py:139-146 | a position built by adds alone has booked nothing, and average cost times size is what its fills cost |
| `FillBook.RoundTripRealizes` | research/service/strategies.py:133-174 | adds closed out in full realize the exits' proceeds less the adds' cost, long or short |
| `FillBook.FeeDrag` | research/service/strategies.py:161-221 | total P&L at a fee is the fee-free P&L less the fee on all traded notional and on the liquidation notional |
| `FillBook.SplitFill` | research/service/strategies.py:133-158 | one fill of q1 + q2 gives the same book as q1 and then q2, across the flat crossing too |
| `FillBook.MergeExecutions` | research/service/strategies.py:133-174 | partial executions anywhere in a history can be merged |
| `FillBook.PartsSumToReality` | research/service/strategies.py:193-216 | the reconciled parts sum to the real position unless the tags net to nothing, and are unchanged when tags and reality agree |
| `FillBook.PartsKeepProportions` | research/service/strategies.py:193-216 | each part keeps its tag's proportion of the real position |
| `OrderTags.TagRoundTrip` | research/service/strategies.py:70-83 | reading a tag back gives its strategy if and only if the strategy is registered and named and the number is not negative |
| `OrderTags.AttributedWasTagged` | research/service/strategies.py:75-83 | whatever is attributed to a strategy was tagged with its name and a run of digits |
| `OrderTags.AttributionSurvivesRegistration` | research/service/strategies.py:47-67 | registering more strategies never takes an order from its owner |
| `OrderTags.TagsAreInjective` | research/service/strategies.py:70-72 | a tag names one strategy and one number, even for names that end in digits |
| `OrderTags.RunTagsAreDistinct` | research/service/engine.py:52-61 | in every run no two orders share a tag, in whatever order they are sent, and each is attributed to its strategy |
| `Lru.HitKeepsLongestFit` | research/mds/sigcache.py:92-97 | a hit keeps the residents the longest suffix of recency order that fits both budgets |
| `Lru.MissKeepsLongestFit` | research/mds/sigcache.py:132-143 | so does an insertion followed by evictions |
| `Lru.EvictsUntilBudgetsHold` | research/mds/sigcache.py:140-143 | eviction takes the oldest and stops as soon as the count and the total size are both within budget, or nothing is left |
| `SignalCache.SignalCache.KeyIsPrecise` | research/mds/sigcache.py:76-84 | two environments share a key if and only if they agree on every column the signal reads |
| `SignalCache.SignalCache.Evaluate` | research/mds/sigcache.py:87-118 | the answer is what direct evaluation gives and never aliases a stored panel; one hit or miss is counted, by tier, and a write exactly when something was computed and stored; the store gains this panel and loses an unreadable one; the invariant is kept |
| `SignalCache.SignalCache.Remember` | research/mds/sigcache.py:132-143 | insertion leaves exactly the evicted recency list, with the byte count equal to the recorded sizes and both budgets kept |
| `SignalCache.SignalCache.Compute` | research/mds/sigcache.py:111-118 | a miss evaluates, stores and returns a copy, and remembers nothing when evaluation fails |
| `SignalCache.SignalCache.Clear` | research/mds/sigcache.py:145-152 | clearing empties memory and, if asked, the store, and keeps the invariant |
| `SignalCache.ScribbleAndRepeat` | research/mds/sigcache.py:87-118 | a caller who overwrites the panel it was given does not change the next answer |
| `SharedCache.EveryRunIsSafe` | research/mds/sigcache.py:87-129 | under every interleaving of processes, crashes, failed writes, evictions and clears every answer is direct evaluation's and every readable file is true |
| `SharedCache.StepIsSafe` | research/mds/sigcache.py:87-129 | each single step keeps that |
| `SharedCache.StepPoisonsNothing` | research/mds/sigcache.py:120-129 | no step makes a file at a final path unreadable |
| `SharedCache.DiscardedStaysGone` | research/mds/sigcache.py:99-105 | a corrupt file that was discarded never comes back |
| `SharedCache.EvaluationFinishes` | research/mds/sigcache.py:87-118 | in every schedule in which others act freely and the process is neither crashed, failed nor restarted, each of its turns brings it a step nearer, and after seven it is done |
| `SharedCache.StartedIsAnswered` | research/mds/sigcache.py:87-118 | an evaluation that is started ends in what direct evaluation gives, after at most seven turns of its own in any schedule that spares it |
| `SharedCache.StaysStoredIff` | research/mds/sigcache.py:99-129 | a readable panel stays readable under every step of anybody except a clear and the discard of a process that had failed to read it |
| `SharedCache.RenamePublishes` | research/mds/sigcache.py:120-129 | finishing a computation stores its panel and leaves no temporary file |
| `SharedCache.StoredIsServed` | research/mds/sigcache.py:87-118 | while a panel is stored and nobody clears or is about to discard it, a process asking for it never computes and has its answer within two of its own steps |
| `OrderBook.Replayer.OnEvent` | research/mds/lob.py:84-147 | the event loop's body updates both sides, flow and rows as specified |
| `OrderBook.Replayer.Sample` | research/mds/lob.py:118-146 | sampling records the specified row and resets the running flow |
| `OrderBook.BuildRows` | research/mds/lob.py:73-148 | the replay's rows are those of the specified run |
| `OrderBookRows.RowsDescribeTheBook` | research/mds/lob.py:121-146 | every row of every replay of well-formed events gives back the touch, has imbalances that are signed shares of the touch and of the depth, a micro premium of half the spread times the imbalance, a flow of the sign and size of the volume traded since the row before, and a return of the sign of mid's move |
| `OrderBookRows.SampledIff` | research/mds/lob.py:84-124 | an event samples a row if and only if it is a change, the changes so far are a multiple of `sample_every`, and the book is two-sided |
| `OrderBookRows.FlowIsVolume` | research/mds/lob.py:95-101 | the flow carried is the signed volume traded since the last row |
| `OrderBookRows.BookIsTheLastWord` | research/mds/lob.py:84-108 | without pruning a level rests in the book exactly at the last size quoted for it since the snapshot began |
| `OrderBookRows.DepthGrows` | research/mds/lob.py:67-70 | the level with n better ones is what one more level adds to the depth of n |
| `OrderBookRows.MidTracksTheTouch` | research/mds/lob.py:118-124 | the mid carried is that of the last change that left the book two-sided |
| `OrderBookPruning.PruneRefines` | research/mds/lob.py:110-116 | the pruned side stays a sub-map of the full one that agrees with it at or better than the tightest boundary so far |
| `OrderBookPruning.SideFeaturesAgree` | research/mds/lob.py:60-70 | best price and top-n depth agree while n full levels (at least one) lie within the boundary |
| `OrderBookPruning.PruningPreservesRows` | research/mds/lob.py:38-147 | the pruned replay samples exactly the rows of the unpruned one while both sides stay covered |
| `OrderBookPruning.BestCertainIffInside` | research/mds/lob.py:60-66 | the pruned best price is the only one consistent with what is known if and only if it lies within the boundary |
| `OrderBookPruning.TopCertainIffInside` | research/mds/lob.py:67-70 | the pruned n best levels are the only ones consistent with what is known if and only if n of the levels shown lie within the boundary |
| `OrderBookPruning.PruningCanHideTheBook` | research/mds/lob.py:110-116 | on every side of more than 256 levels, withdrawing the 64 kept empties the pruned side while the full one is deep |
| `LostRows.PruningLosesARow` | research/mds/lob.py:110-147 | at every depth, an ask, 257 bids and the withdrawal of the 64 best give the pruned replay one row fewer |
| `Capacity.Allocate` | research/mds/capacity.py:46-63 | two hundred halvings keep the shadow price bracketed, end at the specified price and under-spend by no more than an explicit bound |
| `Capacity.WaterFillingIsOptimal` | research/mds/capacity.py:35-63 | every non-negative alternative earns at most the allocation's profit plus the shadow price times the difference in capital |
| `Capacity.NearOptimalForBudget` | research/mds/capacity.py:46-63 | against every split of the whole budget the loss is at most the shadow price on the unspent capital |
| `Capacity.BudgetIsMetIff` | research/mds/capacity.py:46-63 | for all signals and budgets the allocation never over-spends, and meets the budget if and only if one of the 2^200 evenly spaced prices of the bracket spends it exactly |
| `Capacity.BudgetIsNotMet` | research/mds/capacity.py:46-63 | one signal and a budget of 2 for which the allocation spends less, since its only exact shadow price is off the grid |
| `Capacity.CrowdIsNash` | research/mds/capacity.py:74-95 | no player gains by deploying another amount |
| `Capacity.CrowdingDestroysProfit` | research/mds/capacity.py:74-95 | one more player raises total capital and lowers total profit |
| `Execution.NeverOvershoots` | research/mds/execution.py:139-142 | the achieved weight lies between the previous one and the target |
| `Execution.BookNeverOvershoots` | research/mds/execution.py:105-148 | so does every weight of a book, under either model; the realistic one fails exactly when it has no liquidity |
| `Execution.ResidualShrinksByCap` | research/mds/execution.py:139-142 | one rebalance works off exactly the cap, or whatever is left |
| `Execution.ResidualAfter` | research/mds/execution.py:139-142 | n rebalances work off n caps |
| `Execution.ReachesTargetIff` | research/mds/execution.py:139-142 | a fixed target is reached after n rebalances if and only if n caps cover the trade |
| `Execution.UnknownVolumeFillsFully` | research/mds/execution.py:140-141 | a name with no known volume is not capped |
| `Execution.CostIsNotNegative` | research/mds/execution.py:144-148 | no rebalance has a negative cost |
| `Execution.TradedIsAchieved` | research/mds/execution.py:139-144 | cost is charged on the trade achieved, not on the one asked for |
| `Execution.FlatCostOfOneName` | research/mds/execution.py:105-108 | a one-name trade costs its rate on the weight traded and fills in full |
| `Execution.RealisticCostOfOneName` | research/mds/execution.py:131-148 | a one-name trade costs half the spread and the impact of its share of the daily volume on the dollars traded |
| `Execution.CarryOfOneName` | research/mds/execution.py:150-155 | a long pays no borrow and finances what exceeds the capital; a short pays borrow on all of it as well |
| `Universe.MembershipMask` | research/mds/universe.py:37-46 | the mask filled column by column is true exactly between a price at or before and a price at or after |
| `Universe.MaskIsTheRowIffGapFree` | research/mds/universe.py:37-46 | the mask equals the row's own prices if and only if the symbol has no interior hole |
| `Universe.MaskIsSettledIff` | research/mds/universe.py:31-46 | the mask at the last known row is the same for all continuations if and only if the symbol is priced there or was never priced |
| `WalkForward.Walk` | research/mds/engine.py:72-134 | the block-by-block loop fills every row with the specified net return and held weights, and fails exactly when it must trade without liquidity |
| `WalkForward.HoldBlock` | research/mds/engine.py:119-125 | one block's rows are written and no earlier row changes |
| `WalkForwardWealth.ReturnsCompound` | research/mds/engine.py:84 | over rows with prices throughout, compounded returns are the ratio of the last price to the first |
| `WalkForwardWealth.NetIsSharesGain` | research/mds/engine.py:119-125 | a row's net is what the shares held gain in price, less the carry, and on a rebalance row less the trade's cost and with the result of what delisted |
| `WalkForwardWealth.NetIsReturn` | research/mds/engine.py:103-128 | a run at flat cost that stays in one symbol earns its return on every row, the first less the cost of buying in |
| `WalkForwardWealth.StayingInFollowsPrice` | research/mds/engine.py:103-128 | a cost-free run fully invested in one symbol is worth what the symbol is, from the row before its first rebalance on |
| `WalkForwardWealth.TargetKeepsProportions` | research/mds/engine.py:104-113 | the target keeps the strategy's proportions among listed names, at its own gross or the cap if that is less |
| `WalkForwardWealth.DelistingLossIs` | research/mds/engine.py:109-112 | a single delisted position costs its weight times the delisting return, and with none nothing is lost |
| `WalkForwardWealth.PanelIs` | research/mds/engine.py:83 | with a universe the run sees every row; without one exactly the rows on which every symbol is priced |
| `WalkForwardWealth.BlockIsOnSchedule` | research/mds/engine.py:103-128 | rebalances fall every `rebalance` rows from the first and are held until the next |
| `WalkForwardTheorems.FillsAgree` | research/mds/engine.py:103-118 | the trade on a row depends only on the rows before it |
| `WalkForwardTheorems.NetsAgree` | research/mds/engine.py:119-125 | the net return over a row depends only on the rows through it |
| `WalkForwardTheorems.NoLookAhead` | research/mds/engine.py:72-134 | two histories that agree on their first rows give the same weights and net returns there, for every causal strategy; with a universe, if neither has interior holes |
| `WalkForwardTheorems.HolesLeakTheFuture` | research/mds/engine.py:109-113 | with a hole two such histories give different weights |
| `WalkForwardTheorems.TargetWithinLeverage` | research/mds/engine.py:104-113 | the target's gross exposure, and each weight, is within the leverage cap |
| `WalkForwardTheorems.HeldWithinLeverage` | research/mds/engine.py:103-128 | through a whole run every held weight is within the cap, however partial the fills |
| `WalkForwardTheorems.FlatGrossWithinLeverage` | research/mds/engine.py:103-128 | with full fills the gross exposure is too |
| `WalkForwardTheorems.GrossWithCaps` | research/mds/execution.py:139-142 | the gross exposure held is the target's plus what the participation caps add, symbol by symbol: at most what they cut, and exactly that when only reductions are cut |
| `WalkForwardTheorems.GrossWithinLeverageIff` | research/mds/engine.py:103-128 | on every row gross stays within leverage if and only if the target leaves room for what the caps add, whatever they cut |
| `WalkForwardTheorems.GrossOfReductions` | research/mds/engine.py:103-128 | where no cap cuts a trade gross stays within leverage; where only reductions are cut it does if and only if the target leaves room for what is cut, so at full leverage only if nothing is cut |
| `WalkForwardTheorems.PartialFillsMayExceedLeverage` | research/mds/execution.py:139-142 | with partial fills it may not be: a run whose gross reaches one and a half times the cap |
| `WalkForwardTheorems.NotHeldBeforeListing` | research/mds/universe.py:37-46 | nothing is held in a symbol before its first price |
| `WalkForwardTheorems.ChargedAgainIff` | research/mds/engine.py:109-113 | a delisting loss is charged again at the next rebalance if and only if the participation cap kept the position from closing |
| `WalkForwardTheorems.AttributionReconciles` | research/mds/engine.py:161-172 | per-symbol contributions add up to the net return before costs, carry and delistings |
| `RiskOptimizer.Optimize` | research/mds/riskmodel.py:200-214 | the cap loop with its break, its fallback clip and the turnover step compute the specified book |
| `RiskOptimizer.PassIsNeutral` | research/mds/riskmodel.py:203-205 | each pass ends dollar-neutral at the gross target, or empty |
| `RiskOptimizer.CapLoopSound` | research/mds/riskmodel.py:200-211 | every outcome respects the position cap and the gross target, and is neutral if the loop settled |
| `RiskOptimizer.NeutralBookSettles` | research/mds/riskmodel.py:200-211 | a neutral solution that fits the cap once scaled settles on the first pass, unchanged |
| `RiskOptimizer.FitKeepsRanking` | research/mds/riskmodel.py:200-219 | however often it is clipped, recentred and rescaled, the book ranks no two names against the solution; without a cap it is the solution scaled to the gross target |
| `RiskOptimizer.NeutralGrossIsLimited` | research/mds/riskmodel.py:200-211 | a neutral book under a bound carries at most twice half its names, rounded down, at the bound |
| `RiskOptimizer.CrowdedNeverSettles` | research/mds/riskmodel.py:200-211 | with a larger gross target the loop settles only on an empty book |
| `RiskOptimizer.FallbackBreaksNeutrality` | research/mds/riskmodel.py:202-211 | a neutral solution whose fallback clip leaves the book a tenth short |
| `RiskOptimizer.BudgetKeeps` | research/mds/riskmodel.py:222-231 | the budgeted trade costs at most the budget and keeps the cap, the gross and neutrality of both ends |
| `RiskOptimizer.BudgetIsSpent` | research/mds/riskmodel.py:222-231 | a budget is spent in full unless the whole trade costs less, and every name trades its share |
| `RiskOptimizer.OptimizedWeights` | research/mds/riskmodel.py:273-297 | the rebalance loop returns the specified frame |
| `RiskOptimizer.FrameIs` | research/mds/riskmodel.py:275-296 | a date with twenty factor returns in its window holds the optimized book, any other holds nothing and leaves the previous book in place |
| `RiskOptimizer.RunCompliant` | research/mds/riskmodel.py:273-297 | at every rebalance the book respects the cap and the gross target, and is neutral while every cap loop so far settled |
| `RiskOptimizer.RunWithinTurnover` | research/mds/riskmodel.py:273-297 | from the second optimized book on, what the frame trades is within the turnover budget |
| `PointInTime.FlowTtmPoints` | research/mds/edgar.py:170-216 | the dictionary-filling loops return the specified trailing sums |
| `PointInTime.FirstFiledWins` | research/mds/edgar.py:180-185 | the series holds exactly the originally reported value of each period end |
| `TrailingSums.FirstFiledIs` | research/mds/edgar.py:180-185 | the figure kept for a period end is the earliest filed of those for it, of 80 to 100 days for a flow, and there is none exactly when there are none |
| `PointInTime.NoRestatementLookAhead` | research/mds/edgar.py:219-225 | a value first filed by a day is settled by what had been filed by then |
| `PointInTime.DerivedYearIsTheAnnual` | research/mds/edgar.py:190-212 | a year closed by a derived fourth quarter sums to the annual figure exactly |
| `PointInTime.AlignsToTheLatest` | research/mds/edgar.py:235-249 | alignment returns the point with the greatest filing date and period end among those filed by the day, and nothing exactly when there is none |
| `FlowLookAhead.SeriesSettles` | research/mds/edgar.py:180-199 | the quarter series of a day settles into the final one: every end stays, and every entry stamped by that day was already there with its value |
| `FlowLookAhead.RollingIff` | research/mds/edgar.py:201-212 | the trailing sums are exactly those of the last four quarters up to each end, about three months apart |
| `TrailingSums.TrailingSumIff` | research/mds/edgar.py:201-212 | there is a trailing sum exactly for each run of four consecutive quarters 60 to 130 days apart, worth their sum and stamped with the last filing among them |
| `TrailingSums.AnnualPointIff` | research/mds/edgar.py:186-187 | every figure over 350 to 380 days, and nothing else, is a point of its own, stamped with its own filing |
| `FlowLookAhead.FlowPointsAreKnown` | research/mds/edgar.py:170-216 | every point stamped by a day is, with its value, among the points computed from what had been filed by that day, if no annual figure filed by then precedes a quarter netted from it |
| `FlowLookAhead.AlignedFlowIsCausalIff` | research/mds/edgar.py:170-249 | under the same condition the aligned flow of a day is the one computed from what had been filed by then if and only if no sum stood, or no quarter filed later falls into the window of the sum that stood |
| `FlowLookAhead.LaterFilingChangesThePast` | research/mds/edgar.py:170-249 | six filings whose flow aligned to day 480 is 14 as known then and 10 when rebuilt after day 500 |
| `PointInTime.LevelPointIs` | research/mds/edgar.py:219-225 | a level's points are the originally reported values, all of them and nothing else |
| `PointInTime.AlignedLevelIsCausal` | research/mds/edgar.py:219-249 | the aligned level on a day is the one computed from what was filed by that day |
| `Seal.ChainHead` | harness/integrity.py:52-56 | the chaining loop computes the specified chain |
| `Seal.VerifyReport` | harness/integrity.py:115-152 | the scan stops at the first differing leaf and names its id; with ids everywhere it names none exactly when the leaves are as sealed; the verdict adds the recomputed head and the signature |
| `Seal.HeadDeterminesLeaves` | harness/integrity.py:52-56 | two leaf lists of any lengths with one chain head are equal or exhibit a hash collision |
| `Seal.HashesDetermineTexts` | harness/integrity.py:33-49 | equal leaf hashes mean equal sealed verdicts or a collision |
| `Seal.IntegrityImpliesSealedVerdicts` | harness/integrity.py:115-152 | a passing integrity check implies the sealed verdict sequence even if the seal's leaf list was rewritten, or exhibits a collision |
| `Seal.VerifyUntouched` | harness/integrity.py:91-152 | an untouched report passes against its own seal, with the key or without |
| `Seal.CulpritIsFirstChange` | harness/integrity.py:120-136 | with ids on every leaf a culprit is named if and only if the lists differ, and for the only position that is a first difference |
| `Seal.NullIdHidesThePosition` | harness/integrity.py:120-136 | without an id the position goes unnamed and the chain head still fails |

## Left out

- Floating-point rounding, and overflow to infinity: floats are exact reals; `round(x, n)` for display is not modelled.
- Broker, market-data, filing and bank clients, HTTP routes, files, reports and drivers: I/O. The broker is an environment that may fail reads, accept or reject orders and fill them at any step.
- TaxSimulation.Simulator.SellLots: lots are values in the simulator's list, so a caller keeping a reference to a `Lot` it passed in is not modelled.
- TaxTheorems.LedgerConserved: weaker than an exact law by an explicit bound of three dust per day and symbol at the dearest price, because the source drops lots and remainders of up to 1e-12 shares.
- HifoDominance.HifoRealizesLeast: up to eight dust per day and symbol at the dearest price, for the same reason; it is about realized gain and not about tax, which also depends on holding periods and wash sales.
- NaN target weights, the `final_positions` dictionary and the long-term fraction in the tax summary.
- LiveEngine.KillLatches: the loop's reads of open orders fail open in the source (an error reads as no open orders), so nothing is claimed about stacking orders; the order that a pass is about to consider is chosen by the environment among the armed strategies.
- LiveFlatten.BreachFlattensEveryone: an exception other than the broker client's own error aborts the cycle in the source, and whether a close fills, or a rejected one is taken next cycle, is the broker's.
- LiveRisk.OrdersRespectDrawdownLimits: the registry does not grow during a run, so every strategy has a row in the books; fills that land after the refresh are not seen by the source either.
- The engine's portfolio-volatility cap and volatility-targeted size: an environment choice (`volOk`, `qty`), since they need square roots and matrix products.
- LiveBacktest.LiveTradesTheBacktest: for one sleeve on its own symbol with one cycle per bar, fills between cycles, entries that pass the caps and a position that stays worth the minimum order; sleeves that share a symbol or a cap can stand in each other's way. `LiveSleeve.EngineTradesTheBacktest` also takes cycles in which no limit is breached.
- LiveBacktest.RunSeries: the counts of active and winning bars, and `walk_forward`'s fold selection by Sharpe ratio, which needs square roots.
- OrderTags.TagRoundTrip: digits are ASCII; other characters that count as digits are not modelled.
- `register`'s construction of ids from kind, symbol and parameters; registries are sets that may grow.
- FillBook.FeeDrag: the tagged quantity is the real position and the mark is known; reconciliation to another real position is `FillBook.PartsSumToReality`.
- SignalCache.SignalCache.Evaluate: content hashes are assumed to be free of collisions and evaluation to depend only on the columns read; a failed write of the cache file is covered in `SharedCache` only.
- `parallel`'s worker pool, its result slots and its sequential fallback; the processes that share the store are `SharedCache`.
- CSV parsing, product filtering, forward labels, realized volatility, the synthetic panel, `walk_forward_splits` and the information-coefficient helpers of the order-book module.
- Capacity.NearOptimalForBudget: with the bisection's shadow price, which the source does not return.
- Execution.CostIsNotNegative: the square root in market impact is an arbitrary non-negative function; liquidity estimation is an input.
- WalkForward.Walk: prices are positive, the universe is built from the panel being traded, and `prepare` is part of the strategy function; averages and annualized statistics of the result are not modelled.
- WalkForwardTheorems.AttributionReconciles: for a run over the panel given to `attribution`; when incomplete rows were dropped before the run, `attribution` takes returns from the undropped panel and the two differ.
- RiskOptimizer.Optimize: the unconstrained solution (matrix inversion and projection) is an input, as are the factor covariances.
- FlowLookAhead.FlowPointsAreKnown: a point stamped by a day can be missing from the rebuilt series when a later filing breaks up its window; the converse is therefore not claimed, and `FlowLookAhead.AlignedFlowIsCausalIff` says when it matters.
- PointInTime.LevelPointIs: the order of the points, on which alignment does not depend.
- SHA-256, HMAC (RFC 2104, section 2) and JSON canonicalization: arbitrary functions. No hash of fixed length is injective, so the seal theorems exhibit a collision instead of assuming there is none.
- Bootstrap, Newey-West, deflated Sharpe, PBO, PCA, option pricing and learned models: sampling or transcendental functions. Indicators, factor definitions and other one-expression formulas would only add easy members.
- The front end, the harness's command line, telemetry and process control.
