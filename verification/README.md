# A verified model of the trading engine

An event-driven, simulated trading engine: strategies emit signals, a risk manager checks them and
reserves cash or shares, an execution simulator turns them into orders and fills, and a portfolio
settles the fills, all over an event bus. This project states in Dafny what its money arithmetic, its
order life cycle, its buses, its strategies, its text formats and its life-cycle controllers do, and
proves properties of whole histories of them. `dafny verify dfyconfig.toml` checks everything.

How it is laid out:

* Money is whole millionths in unbounded integers (`Decimals`), as `common::Decimal` does not check for
  overflow; where the source argues that its integers fit (`MovingAverage`, `DecimalText`,
  `TimestampText`), the arithmetic is on 64-bit types and Dafny checks every operation.
* A component that updates its fields (`PortfolioManager`, `ExecutionSimulator`, `RiskManager`, the
  strategies, `EngineService.Engine`, `StrategyEngine`, the JSON parser and writers) is a class. Each
  method is tied to a function of the old state, and the properties are lemmas about those functions.
* `TradingRun` puts portfolio, simulator, risk manager and bus together as one step system; `Engine`
  shows that the classes, called as the handlers and the backtest loop call them, take exactly its steps;
  `CashRun` adds what whole runs do to buying power, `RunSafety` what is granted, what the kill switch stops
  and that every order and fill answers a signal.
* `Grants`, `FillHistory`, `FairFills`, `Valuation`, `RiskLimits` and `WireText` say what the decisions of
  those functions mean in terms of cash, shares, prices, limits and literal text, not of the functions.
* The buses, the subscription registry and the engine service are step systems in which one step is one
  critical section, so a list of steps is an interleaving of all threads. `TopicWire` joins the topic bus to
  the wire codec: which of its own messages the bus can read back.

Assumptions, each a parameter or a precondition where it is used: the fee and hold scaling of
`Decimal::scaled_by` is monotone, non-negative and zero at zero (`FeeModel.Valid`); a fill model meets
`FillContract` (the naive model is proved to); signal ids are new (`StrategyEngine.Emit` is proved to
mint them so); publishing to a running bus succeeds and the bus is first in, first out, so an order's
Working event comes before its fills; the square root is a root; a logarithmic move has the direction of
the prices it is taken of (`MovesWithThePrice`); a signal's doubles have texts that read back
(`DoubleSurvives`).

What was found to fall short of what the source says, with the exact condition proved:

* `unsubscribe()` is not always the barrier `event_bus.hpp` promises. A `remove()` off the dispatcher is
  one if and only if it finds the entry or the handler is not running at the call (`RemoveIsABarrier`).
  It fails when another thread's `remove()` of the id is still waiting (`SecondRemoveReturnsEarly`), and
  when the handler has unsubscribed itself and is still running (`RemoveAfterSelfRemovalReturnsEarly`).
* A buy at a negative limit price is granted a negative hold and raises buying power above cash
  (`NegativeLimitRaisesPower`). Reservations stay non-negative exactly while no such hold or order is
  taken (`StepKeepsReserves`); with limits that are not negative, in every run
  (`PowerNeverExceedsCash`, `PowerStaysWithinCash`). An order's reservation is proportional from its
  opening on if and only if the amount it was opened with is not negative
  (`ReservationStaysProportional`).
* A run stopped after it was popped and before it is marked running is reported stopped and then runs to
  completion (`FinishedStaysFinished`, `AtomicMarkMakesStatesFinal`, `StoppedRunStillRuns`).
* An amount of INT64_MIN millionths is written by the event codec and refused by its decoder
  (`DecimalSurvives`, `DecodeUndoesEncode`).
* `performance_report.hpp` says that trade profit sums to realised profit. It does if and only if no lot
  still held carries opening fees (`ProfitsAgreeExactly`); one buy with a fee is a counterexample
  (`OneBuySplitsProfits`).
* With other writers on a topic bus's log, `depth()` can underflow, and a wait can report a drained bus
  with an own message undelivered, if and only if they may append a message that carries the bus's
  origin, is on a subscribed topic and decodes (`DepthNeverUnderflows`, `DrainedMeansDelivered`,
  `SharedOriginUnderflows`, `SharedOriginHidesOwn`).
* Without such writers, `depth()` counts the bus's own messages still in the log or in hand, in every run,
  if and only if everything the bus publishes decodes again, which is if and only if no published event
  holds an amount of INT64_MIN millionths (`DepthIsOutstandingExactly`, `DepthIsOutstandingForAmounts`).
  Such an event is sent and counted, and the bus's own dispatcher drops it undecoded without counting it
  (`UndecodableIsNeverReceived`): `depth()` stays one too high and no later wait ends drained
  (`DroppedIsNeverDrained`).
* The lab's JSON writer keeps its promises under any calls, misuse caught and ignored, as long as every
  string passed is valid UTF-8 (`Perform`). A string that is not changes the writer before it is refused:
  at the root `complete()` then holds of an empty text (`BadTextBreaksThePromise`).

## Model

| member | source | states |
|---|---|---|
| Decimals.DivRoundNearest | include/trading_engine/common/decimal.hpp:77-87 | the quotient of a price by a quantity is a nearest integer to the exact one, a tie going to the larger magnitude |
| Decimals.DivRoundUnique | include/trading_engine/common/decimal.hpp:77-87 | those two facts leave one answer: rounding half away from zero |
| Decimals.DivRoundNegate | include/trading_engine/common/decimal.hpp:77-87 | dividing signed totals by a signed quantity or magnitudes by a magnitude gives the same price |
| PortfolioManagement.PortfolioManager.Apply | src/portfolio/portfolio_manager.cpp:26-98 | a fill is ignored, refused for the first of its faults, or settled into cash, position, reservation and sequence; refusals and ignored fills change nothing |
| PortfolioManagement.PortfolioManager.ApplyOrder | src/portfolio/portfolio_manager.cpp:100-149 | a Working order takes over its signal's hold, a dead order gives everything back, anything else changes nothing |
| PortfolioManagement.PortfolioManager.Mark | src/portfolio/portfolio_manager.cpp:151-162 | the last price, or the rounded midpoint, becomes the mark when positive |
| PortfolioManagement.PortfolioManager.TakeSnapshot | src/portfolio/portfolio_manager.cpp:164-188 | the whole snapshot: its clock reading, every position with its unrealised profit, the pending orders, reserved cash, buying power, both exposures and equity |
| PortfolioManagement.PortfolioManager.Exposures | src/portfolio/portfolio_manager.cpp:180-186 | the loop over the positions adds up exactly the marked values, signed and unsigned |
| PortfolioManagement.PortfolioManager.Reserve | src/portfolio/portfolio_manager.cpp:210-246 | the atomic check-and-hold does what is proved of it in `Grants`: a sell within the uncommitted shares, a buy within the buying power, else nothing |
| Grants.BuyIsGrantedExactly | src/portfolio/portfolio_manager.cpp:210-246 | a new buy is granted exactly when it has a price and cash less all reservations covers its cost; after it cash still covers all reservations, and a refusal changes nothing |
| Grants.SellIsGrantedExactly | src/portfolio/portfolio_manager.cpp:228-238 | a new sell is granted exactly when the shares held cover it and all that is promised already; it reserves no cash |
| Grants.RepeatedOrEmptyRequest | src/portfolio/portfolio_manager.cpp:220-226 | a signal that holds something is granted the same again, a request for nothing or without an id is refused, and nothing changes |
| Grants.CostIsTheFillAtTheCeiling | src/portfolio/portfolio_manager.cpp:264-280 | a buy is held for exactly the cash its whole fill takes at the limit, or at the buffered value of the mark, fees included |
| Grants.TakingOverKeepsPower | src/portfolio/portfolio_manager.cpp:122-125 | an order that takes its hold over leaves buying power as it was |
| Grants.OpeningTakesItsCost | src/portfolio/portfolio_manager.cpp:126-132 | an order without a hold takes its own cost off buying power, a sell nothing |
| Grants.DeadOrderGivesBack | src/portfolio/portfolio_manager.cpp:136-145 | a rejected, cancelled or expired order gives back all it and its signal reserved, and is closed for good |
| Grants.OtherUpdatesChangeNothing | src/portfolio/portfolio_manager.cpp:100-148 | no other order update changes anything |
| Grants.FillMovesItsOrder | src/portfolio/portfolio_manager.cpp:308-324 | a fill that completes its order or takes all that remains closes it and frees its whole reservation; any other takes its shares, and the nearest to their share of the reservation; no other order moves |
| Grants.FillOfAnUntrackedOrder | src/portfolio/portfolio_manager.cpp:91-96 | an untracked order is closed by the fill that completes it, and by no other |
| PortfolioManagement.PortfolioManager.Committed | src/portfolio/portfolio_manager.cpp:293-306 | the loop adds up exactly the shares promised by sell holds and open sell orders |
| PortfolioManagement.PortfolioManager.Reserved | src/portfolio/portfolio_manager.cpp:282-291 | the loop adds up exactly the cash in holds and open orders |
| PortfolioManagement.PortfolioManager.Release | src/portfolio/portfolio_manager.cpp:308-324 | a fill releases its rounded pro-rata share of the reservation, the closing fill the rest |
| Accounting.StepConserves | src/portfolio/portfolio_manager.cpp:52-87 | any operation keeps cash + cost of open shares - realised profit, up to half a millionth per share of a position it blends, and exactly otherwise |
| Accounting.RunConserves | src/portfolio/portfolio_manager.cpp:52-87 | over any history the book value drifts by at most half the shares of all blended positions |
| Accounting.EquityDecomposes | src/portfolio/portfolio_manager.cpp:164-188 | snapshot equity is exactly book value + realised + unrealised profit |
| Accounting.EquityGainIsProfit | src/portfolio/portfolio_manager.cpp:164-188 | from opening cash, equity gained is profit up to that same bound |
| Accounting.PartialFillKeepsProportion | src/portfolio/portfolio_manager.cpp:308-324 | one partial fill adds at most half a millionth to the distance between a reservation and its exact share |
| Accounting.ReservationStaysProportional | src/portfolio/portfolio_manager.cpp:308-324 | from its opening on, after k fills in any history, a reservation is in [0, original] and within k/2 millionths of the exact share, or the order is closed and holds nothing: if and only if the amount it was opened with, the hold taken over or else its own cost, is not negative |
| Accounting.HoldIsNegative | src/portfolio/portfolio_manager.cpp:240-245 | a hold just granted is negative exactly when it is a buy whose cost is |
| Accounting.StepKeepsReserves | src/portfolio/portfolio_manager.cpp:282-291 | any operation keeps every reservation non-negative exactly when it takes no negative one |
| Accounting.PowerNeverExceedsCash | src/portfolio/portfolio_manager.cpp:205-208 | in any history whose buy limits are not negative: reserved cash is not negative and buying power never exceeds cash |
| Accounting.NegativeLimitRaisesPower | src/portfolio/portfolio_manager.cpp:264-280 | the input that shows the limit matters: a buy of q at -1 is granted and raises buying power by q |
| Accounting.FillMovesBuyingPower | src/portfolio/portfolio_manager.cpp:205-208 | a fill moves buying power by what it releases minus what it costs |
| FillHistory.FillIsSettledExactly | src/portfolio/portfolio_manager.cpp:26-50 | a fill is settled exactly when it is of this run, new, for some shares at a positive price without negative fees, of an order not closed, and numbered next for its order |
| FillHistory.AcceptedFillsAreOrderly | src/portfolio/portfolio_manager.cpp:26-98 | over any history no fill counts twice, the fills of an order that count are numbered from one without a gap, and none comes after the one that completes it |
| FillHistory.CashAndSharesAreTheFills | src/portfolio/portfolio_manager.cpp:54-58 | over any history cash is the opening cash less what those fills cost, and shares held are their net |
| FillHistory.PositionMoves | src/portfolio/portfolio_manager.cpp:62-87 | adding realises only the fees and blends to the nearest average; reducing keeps the average and realises the difference on the shares closed; a flip opens the rest at the fill price |
| Valuation.MarketMarks | src/portfolio/portfolio_manager.cpp:151-162 | an event marks its symbol at its trade price, else at the midpoint of its quote to the nearest millionth, when that is positive, and otherwise not at all |
| Valuation.MarkRevalues | src/portfolio/portfolio_manager.cpp:164-188 | a new mark moves equity by its change times the shares held, and revalues that position and no other |
| Valuation.FillMarksItsSymbol | src/portfolio/portfolio_manager.cpp:89 | right after a fill its position is valued at the fill price |
| Valuation.ExposuresAreLongAndShort | src/portfolio/portfolio_manager.cpp:164-188 | net is long less short, gross is long plus short, equity is cash plus net, power is cash less reserved |
| PerformanceAnalysis.Analyze | src/analytics/performance_analyzer.cpp:79-125 | the replay loop computes the fold of the fills into lots, fees, trades, gross profit and gross loss |
| FillHistory.ReportCountsTrades | src/analytics/performance_analyzer.cpp:79-125 | a trade is a fill against the net of its symbol's earlier fills: every fill and its fees, every trade, the winners with what they earned and the losers with what they lost are counted as such |
| FillHistory.TradeIsChargedItsShare | src/analytics/performance_analyzer.cpp:93-122 | a trade is charged its own fees and the nearest to its share of the lot's opening fees, all of them when it closes the lot; the rest stays with the shares kept |
| PerformanceAnalysis.SameAverageCost | src/analytics/performance_analyzer.cpp:107-124 | the analyzer's signed division and the portfolio's division of magnitudes give the same average cost |
| PerformanceAnalysis.FillStaysReconciled | src/analytics/performance_analyzer.cpp:81-125 | one fill keeps the two accountings reconciled, on opening, blending, reducing, closing and flipping |
| PerformanceAnalysis.AccountingsReconcile | src/analytics/performance_analyzer.cpp:81-125 | over any history lots equal positions in quantity and average cost, and gross profit - gross loss is realised profit plus the opening fees of shares still held |
| PerformanceAnalysis.ProfitsAgreeExactly | include/trading_engine/domain/performance_report.hpp:14-17 | over any history the profit reported is at least the profit realised, and equal if and only if no held lot carries opening fees; flat at the end is enough |
| PerformanceAnalysis.OneBuySplitsProfits | src/analytics/performance_analyzer.cpp:90-96 | after one buy with fees nothing is reported and the fees are realised |
| PerformanceAnalysis.MaxDrawdown | src/analytics/performance_analyzer.cpp:40-57 | the loop finds the most negative return from the running peak, values below zero included: none is lower, and a non-zero one is attained |
| PerformanceAnalysis.DrawdownIsUnique | src/analytics/performance_analyzer.cpp:40-57 | that leaves one value |
| PerformanceAnalysis.NoFallIsDeeper | src/analytics/performance_analyzer.cpp:40-57 | to a value that is not negative no fall from any earlier value, peak or not, is deeper |
| PerformanceAnalysis.LowerStartFallsDeeperBelowZero | src/analytics/performance_analyzer.cpp:40-57 | to a negative value one can be: 10, 5, -5 has drawdown -1.5 and a fall of -2 from 5 |
| Execution.NaiveMeetsContract | src/execution/fill_model.cpp:26-70 | the naive model fills the whole remainder, on the right side, at a positive price no worse than the limit |
| Execution.NaiveKeepsContract | src/execution/fill_model.cpp:26-70 | so the model of a backtest, on every order and bar, meets the contract the whole-run statements ask of a fill model |
| Execution.LimitBuyNeverLowersPower | src/execution/fill_model.cpp:26-70 | a limit buy with its whole cost reserved never lowers buying power when it fills |
| CashRun.LimitBuysNeverLowerPower | src/execution/fill_model.cpp:26-70 | in every run with the naive model each limit buy has its whole cost reserved when its fill is delivered, and no such delivery lowers buying power |
| CashRun.PowerStaysWithinCash | src/portfolio/portfolio_manager.cpp:205-208 | in every reachable state of a run whose buy limits are not negative, with any fill model, buying power is within cash |
| Execution.HoldCoversCost | src/portfolio/portfolio_manager.cpp:264-280 | the hold of a limit buy covers cost and fees at any price within the limit |
| Execution.AverageStaysInRange | src/execution/execution_simulator.cpp:126-163 | the volume-weighted fill price stays between the lowest and highest execution price |
| Execution.ExecuteKeepsTable | src/execution/execution_simulator.cpp:126-163 | one fill keeps the order table consistent, moves only its own order, and leaves the rest of the model's fills within the remainder |
| Execution.ExecutionSimulator.SubmitSignal | src/execution/execution_simulator.cpp:48-108 | the order made from a signal, Working or Rejected, and the table with it |
| Execution.ExecutionSimulator.OnMarketEvent | src/execution/execution_simulator.cpp:110-166 | every eligible working order in id order meets the model; orders and fills come out in that order |
| Execution.SweepFillsEarlierOrders | src/execution/execution_simulator.cpp:110-125 | a bar fills only orders on its symbol created before its time, never one its own close led to |
| Execution.ExecutionSimulator.Fills | src/execution/execution_simulator.cpp:126-163 | the loop over one order's fills numbers, averages and completes them as the specification does |
| FairFills.BarFillsExactlyWhatIsDue | src/execution/execution_simulator.cpp:110-166 | a bar of a backtest fills exactly the open orders of its symbol created before it whose limit its price reaches, each once and whole and in id order: at the open, or else the last trade, moved against the order by the slippage and no further than its limit, at the stated fees; every other order is untouched |
| FairFills.NaiveIsFair | src/execution/fill_model.cpp:26-70 | the naive model's answer for one order: that fill, or none |
| FairFills.AverageIsWhatWasPaid | src/execution/execution_simulator.cpp:138-143 | over any executions the average price times the shares is all that was paid, within half a millionth per share and execution |
| Risk.PassedMeetsEveryLimit | src/risk/risk_manager.cpp:113-135 | a signal that passes meets every listed policy at its final size, whatever the order of the list |
| Risk.StarterPoliciesAreExact | src/risk/risk_policy.cpp:31-111 | the five starter policies refuse exactly when the capped order would break one of the limits |
| Risk.RiskManager.Check | src/risk/risk_manager.cpp:92-198 | kill switch, policies in order, then the hold; the decision and the portfolio after it |
| Risk.RiskManager.OnMarketEvent | src/risk/risk_manager.cpp:76-90 | positive prices become references, and a new UTC day restarts the session from current equity |
| RiskLimits.SignalIsApprovedExactly | src/risk/risk_manager.cpp:92-166 | with the starter policies a new signal is approved exactly when the kill switch is off, its capped size is positive and keeps every limit - size, open orders, position and gross value at the reference price, loss since the session began - and the account can take it |
| RiskLimits.SessionStartsWithTheDay | src/risk/risk_manager.cpp:83-89 | the session's reference is the equity at the first market event of the current UTC day |
| RiskLimits.PriceIsTheLatest | src/risk/risk_manager.cpp:76-82 | the reference price of a symbol is the last positive one seen, the trade price before the open |
| TradingRun.SubmitAgrees | src/execution/execution_simulator.cpp:48-108 | an order submitted for a held signal is one the portfolio will accept, and the tables agree again once it has |
| TradingRun.ExecuteAgrees | src/execution/execution_simulator.cpp:126-163 | the events of one execution are all accepted by a portfolio that agreed with the simulator, and restore the agreement |
| TradingRun.DrainCommutesWithHold | src/portfolio/portfolio_manager.cpp:210-246 | a new hold and the events already queued do not notice each other |
| TradingRun.FillKeepsLongOnly | src/portfolio/portfolio_manager.cpp:293-324 | an accepted fill keeps every symbol's promised shares within what is held |
| TradingRun.NextKeepsInvariant | src/portfolio/portfolio_bus_bridge.cpp:16-66 | every action, with any events in flight, keeps the account, the simulator and the queue in step |
| TradingRun.NoPositionEverGoesShort | include/trading_engine/app/backtest.hpp:28-29 | in every reachable state 0 <= committed to sell <= held, for every symbol |
| TradingRun.EveryFillIsSettled | src/portfolio/portfolio_manager.cpp:29-50 | in every reachable state no fill of the simulator was refused or ignored by the portfolio |
| TradingRun.DrainedMeansNoLeak | src/portfolio/portfolio_manager.cpp:100-149 | whenever the bus is drained there is no hold left, and open orders equal working orders in keys and remaining quantity |
| RunSafety.GrantNeverOverdraws | src/portfolio/portfolio_manager.cpp:240-245 | no delivery grants a buy that leaves cash short of all reservations |
| RunSafety.KillSwitchStopsOrders | src/risk/risk_manager.cpp:113-120 | from any state with the kill switch engaged, through any actions that do not disengage it, no order is placed and no signal gets a hold |
| RunSafety.EngagingStopsOrders | src/risk/risk_manager.cpp:208-217 | engaging the switch has that effect at once, whatever is queued |
| RunSafety.SignalBecomesOrderExactly | src/risk/risk_manager.cpp:92-198 | in every reachable state the oldest signal becomes an order exactly when it is approvable: the order it asks for, at its capped size, numbered next, rejected exactly when it is flat or lacks its limit; otherwise it is only reported |
| RunSafety.OpenOrdersAnswerSignals | src/execution/execution_simulator.cpp:48-108 | in every reachable state each open order answers a signal emitted in the run: its symbol, side, type and limit, no more shares, created when the signal was decided |
| RunSafety.FillsAnswerSignals | src/execution/execution_simulator.cpp:110-166 | every fill of a backtest answers such a signal, at a time after it was decided, within its limit, a buy at the bar's price or above and a sell at it or below |
| RunSafety.NewerMarkWins | src/portfolio/portfolio_bus_bridge.cpp:40-56 | a delivered fill marks its symbol, unless the last market event delivered is at least as new: then its price does |
| RunSafety.SessionOpensBeforeTheMark | src/app/backtest.cpp:75-76 | the first event of a UTC day opens the session at the equity before it is marked, and then marks its symbol |
| Engine.TradingEngine.DispatchNext | src/portfolio/portfolio_bus_bridge.cpp:16-66 | the handlers of one event do exactly the specified step, and keep the whole-run invariant |
| Engine.TradingEngine.DrainBus | src/app/backtest.cpp:80-90 | draining terminates with nothing held, order tables equal and no error counted |
| Engine.TradingEngine.ReplayBar | src/app/backtest.cpp:77-90 | one bar is exactly: the clock, the fills of earlier orders, all their events settled, the close published, its signals in order, all their events settled; nothing is left queued or held and no error counted |
| Engine.BarSettlesWhatIsDue | src/app/backtest.cpp:77-90 | before a bar's signals are decided, exactly the orders due at it are filled and gone from simulator and portfolio, and nothing is queued or held |
| Engine.BarDecidesItsSignals | src/app/backtest.cpp:80-90 | by the end of the bar every signal emitted on it has been decided |
| SubscriptionRegistry.RemoveIsABarrier | include/trading_engine/events/event_bus.hpp:25-27 | in every interleaving, after a remove() of an issued id off the dispatcher the handler is never running again once it returned, if and only if it found the entry or the handler was not running at the call |
| SubscriptionRegistry.SecondRemoveReturnsEarly | src/events/event_bus.cpp:27-43 | while a first remove() of a running handler waits, a second returns at once |
| SubscriptionRegistry.RemoveAfterSelfRemovalReturnsEarly | src/events/event_bus.cpp:27-43 | after a running handler unsubscribed itself, another thread's remove() of it returns at once |
| SubscriptionRegistry.HandlerCanRun | src/events/event_bus.cpp:45-68 | the state those two cases need is reachable |
| SubscriptionRegistry.RemovedInHandlerIsSkipped | src/events/event_bus.cpp:45-68 | unsubscribed from inside a handler, another target is skipped for the rest of the delivery and ever after |
| SubscriptionRegistry.DeliveryVisitsEachTargetOnce | src/events/event_bus.cpp:45-68 | a delivery visits each target of its snapshot once, in subscription order |
| SubscriptionRegistry.EverySubscriberIsReached | src/events/event_bus.cpp:45-68 | a finished delivery ran the handler of every entry that was there when it began and is still registered, whatever was added or removed meanwhile |
| SubscriptionRegistry.TargetsComeInSubscriptionOrder | src/events/event_bus.cpp:45-68 | in every reachable state targets are visited in the order they subscribed |
| InProcessBus.NoEventIsLostOrReordered | src/events/event_bus.cpp:92-123 | in every reachable state delivered, in dispatch and queued are exactly the accepted events, numbered from 1 without gap, and the counters say so |
| InProcessBus.StoppedMeansDelivered | src/events/event_bus.cpp:189-219 | Stopped means an empty queue with everything accepted delivered, handlers' own events included |
| InProcessBus.DrainedMeansDelivered | src/events/event_bus.cpp:156-177 | a wait_until_drained() that returned saw every event accepted before it delivered |
| InProcessBus.OutsidersRespectCapacity | src/events/event_bus.cpp:92-123 | no step but a handler's publish takes the queue past its capacity |
| InProcessBus.CapacityHolds | src/events/event_bus.cpp:92-123 | so without handler publishes the queue never exceeds it |
| InProcessBus.HandlersAreNeverRefused | src/events/event_bus.cpp:92-123 | a handler's publish is accepted even while the bus drains |
| InProcessBus.PublishIsAnsweredExactly | src/events/event_bus.cpp:92-123 | in every reachable state an outside publish is accepted, numbered next, exactly when the bus is open and has room, refused exactly when it is not open or full under Reject, and waits exactly when it is open and full under Block |
| InProcessBus.UnblockIsAnsweredExactly | src/events/event_bus.cpp:109-114 | a waiting publisher goes on exactly when there is room or the bus is not open, accepted in the first case and refused in the second |
| InProcessBus.ShutdownClosesTheBus | src/events/event_bus.cpp:143-154 | from a shutdown on only handlers add events, and the bus does not open again |
| InProcessBus.EverythingCanBeDelivered | src/events/event_bus.cpp:189-219 | nobody is stuck: from every reachable state the dispatcher's own steps deliver all that was accepted, and then waits return, waiting publishers go on and a draining bus stops |
| InProcessBus.HighWaterIsTheLongestQueue | src/events/event_bus.cpp:119 | the high-water mark is the longest the queue has been |
| TopicBus.DeliveryFollowsTheLog | src/events/topic_event_bus.cpp:177-225 | under every interleaving messages are taken in log order, none skipped: those on a topic that decode are delivered, those that do not decode are dropped |
| TopicBus.ReadingBeginsWhereAsked | src/events/message_transport.cpp:56-73 | started from the beginning the bus reads the whole log, otherwise what comes after its start |
| TopicBus.DepthNeverUnderflows | src/events/topic_event_bus.cpp:66-95 | received_own <= sent_own in every reachable state, for other writers that append messages of a given set only, if and only if none of these carries the origin, is on a subscribed topic and decodes |
| TopicBus.CountersFollowTheLog | src/events/topic_event_bus.cpp:66-95 | then the difference of the counters is the bus's own messages still in the log or in hand, plus those its dispatcher read and could not decode |
| TopicBus.DepthIsOutstandingExactly | include/trading_engine/events/topic_event_bus.hpp:28-31 | in every run depth() is the own messages still in the log or in hand, if and only if every own message published decodes again |
| TopicBus.UndecodableIsNeverReceived | src/events/topic_event_bus.cpp:197-207 | the seven-step run: an own message that does not decode is sent, counted, read and dropped, and depth() is 1 with nothing left |
| TopicBus.DroppedIsNeverDrained | src/events/topic_event_bus.cpp:147-150 | from then on, whatever happens, no wait ends because the bus is drained |
| TopicWire.PublicationDecodes | src/events/event_codec.cpp:285-296 | a published event decodes again exactly when none of its amounts is INT64_MIN millionths, and then to the same event and origin |
| TopicWire.DepthIsOutstandingForAmounts | src/events/topic_event_bus.cpp:66-95 | so depth() is the own messages outstanding in every run, if and only if no event published holds such an amount |
| TopicBus.DrainedMeansDelivered | src/events/topic_event_bus.cpp:131-165 | a wait that ends because the bus is drained means every own message was delivered, under that same condition and no other |
| TopicBus.PublishIsAnsweredExactly | src/events/topic_event_bus.cpp:66-95 | a publish is taken exactly while the bus is open, or from a handler while it drains; sent, it is the log's next message and counted; refused here or by the transport it uses no sequence number |
| TopicBus.ShutdownClosesTheBus | src/events/topic_event_bus.cpp:122-129 | from a shutdown on only handlers publish, and the bus does not open again |
| TopicBus.WaitCanEndDrained | src/events/topic_event_bus.cpp:131-165 | from every reachable state the dispatcher's own steps read all there is, and a wait can then end drained exactly when no own message was dropped undecoded |
| TopicBus.ReadingsAreCounted | src/events/topic_event_bus.cpp:197-207 | every message read is counted as received, once, and those that did not decode as errors |
| TopicBus.SharedOriginUnderflows | src/events/topic_event_bus.cpp:177-225 | with such a message a six-step run makes the count underflow |
| TopicBus.SharedOriginHidesOwn | src/events/topic_event_bus.cpp:131-165 | four more steps, and a wait ends drained with an own message undelivered |
| TopicBus.NextIndex | src/events/message_transport.cpp:36-52 | the scan of the log returns the first message at or after the position that is on a subscribed topic |
| MovingAverage.WindowSlides | src/strategy/moving_average_crossover_strategy.cpp:167-198 | a window sum moves by the close that enters minus the one that leaves |
| MovingAverage.RelateIsTheSignOfTheDifference | src/strategy/moving_average_crossover_strategy.cpp:200-210 | the cross-multiplied comparison is the exact sign of the difference of the two averages |
| MovingAverage.MaxCloseIsLargest | src/strategy/moving_average_crossover_strategy.cpp:51-55 | the largest close accepted is the largest for which the products fit int64: one more would not |
| MovingAverage.SumsFit | src/strategy/moving_average_crossover_strategy.cpp:167-198 | both rolling sums stay within long * largest close, before and after the incoming close |
| MovingAverage.ProductsFit | src/strategy/moving_average_crossover_strategy.cpp:200-210 | both cross-products fit int64 |
| MovingAverage.SignalsAlternate | src/strategy/moving_average_crossover_strategy.cpp:112-164 | in any run Buy and Sell strictly alternate, and the last signal names the current relation |
| MovingAverage.LatestSignalIsTheTrend | src/strategy/moving_average_crossover_strategy.cpp:112-164 | while the averages differ the latest signal is a buy when the short one is above the long one, and a sell when it is below |
| MovingAverage.Crossover.OnMarketEvent | src/strategy/moving_average_crossover_strategy.cpp:92-165 | after any bars the ring is the last closes, both sums are the plain window sums, and the signals are exactly the sign changes after the silent first relation |
| MovingAverage.Crossover.RelateSums | src/strategy/moving_average_crossover_strategy.cpp:200-210 | computed in int64 without overflow, the relation is that of the two windows of the history |
| MeanReversion.Samuelson | apps/strategy_lab/lab/catalog.cpp:494-500 | no member of a sample of n is more than sqrt(n - 1) standard deviations from its mean |
| MeanReversion.SamuelsonIsAttained | apps/strategy_lab/lab/catalog.cpp:494-500 | and that bound is attained, so it cannot be improved |
| MeanReversion.Measure | src/strategy/mean_reversion_strategy.cpp:80-124 | the origin-shifted, corrected two-pass loops compute the population mean, variance and z-score of the window |
| MeanReversion.ScoreIsBounded | apps/strategy_lab/lab/catalog.cpp:494-500 | every measured z satisfies z^2 <= lookback - 1 |
| MeanReversion.ScoreIsTheDistance | src/strategy/mean_reversion_strategy.cpp:80-124 | a score is the distance of the price above the mean in deviations, negative below it; a sample without noticeable variation has none |
| MeanReversion.Reverter.OnMarketEvent | src/strategy/mean_reversion_strategy.cpp:154-232 | an ignored bar changes nothing; an accepted one is stored, and once the window is full the signal and the latch are exactly what the measurement of the window and the old latch call for; a threshold the catalog calls unreachable never emits |
| MeanReversion.Reverter.Respond | src/strategy/mean_reversion_strategy.cpp:184-232 | a request exactly when the score is at or beyond the threshold and that side is not latched, a rearm exactly when it is not and the score is near the mean or the window constant; two requests on one side always have a rearm or an opposite request between them |
| MeanReversion.Reverter.WindowStatistics | src/strategy/mean_reversion_strategy.cpp:234-244 | what is measured is the last lookback closes, wherever the ring starts |
| Logistic.WelfordStep | src/strategy/logistic_model.cpp:113-121 | one update keeps the batch mean and the batch sum of squared deviations |
| Logistic.RunningStandardizer.Observe | src/strategy/logistic_model.cpp:113-121 | after any observations mean_ and m2_ are the batch statistics of every vector observed |
| Logistic.QueueNeverExceedsHorizon | src/strategy/logistic_regression_strategy.cpp:238-257 | at most `horizon` samples wait for their label |
| Logistic.Learner.OnMarketEvent | src/strategy/logistic_regression_strategy.cpp:141-236 | walk-forward: a sample is taken exactly when the bar is accepted, the window is full and the features exist; it is scaled with statistics of earlier bars only and predicted by parameters trained on labels already due; with enough training the signal and the latch are exactly what the prediction and the old latch call for, before that there is none; an ignored bar changes nothing |
| Logistic.Learner.TrainDue | src/strategy/logistic_regression_strategy.cpp:238-257 | every sample is labelled once, exactly `horizon` accepted bars after it was taken, by the close of that bar, and none is overdue afterwards |
| Logistic.Learner.TrainOne | src/strategy/logistic_regression_strategy.cpp:238-257 | scored, trained, hits and parameters are those of the labelled samples in order |
| Logistic.LabelIsTheDirection | src/strategy/logistic_regression_strategy.cpp:238-257 | a sample is labelled risen when the later close is higher by more than the dead band, fallen when lower by more, and not at all between |
| Logistic.Learner.Score | src/strategy/logistic_regression_strategy.cpp:103-111 | the ring holds the last hundred outcomes |
| StrategyEngines.StrategyEngine.Emit | src/strategy/strategy_engine.cpp:69-103 | only the strategy whose callback is running is heard, and its signal gets its name and an id above every earlier one, restarts included |
| StrategyEngines.StrategyEngine.Start | src/strategy/strategy_engine.cpp:165-210 | each strategy is started once, in order; on a failure exactly those that started are ended once, last first, and the engine stays stopped |
| StrategyEngines.StrategyEngine.Stop | src/strategy/strategy_engine.cpp:212-233 | a running engine ends every strategy once, last first, and nothing else happens; a second stop does nothing |
| StrategyEngines.StrategyEngine.OnMarketEvent | src/strategy/strategy_engine.cpp:235-248 | each event reaches every strategy once in order, and none while stopped or nested |
| StrategyEngines.NothingBeforeItsStart | src/strategy/strategy_engine.cpp:165-254 | every delivery to a strategy and every end of it comes after a start of it with no end between |
| EngineService.InvariantIsKept | src/app/engine_service.cpp:201-320 | every critical section of reader or worker keeps the run states, the queue and the lent risk manager consistent |
| EngineService.RunsBeginAsAdmitted | src/app/engine_service.cpp:201-320 | at every interleaving queued + current stay within the limit, an id is admitted once, and runs begin in the order admitted |
| EngineService.KillSwitchReachesTheRiskManager | src/app/engine_service.cpp:335-360 | while a replay goes on, its risk manager's kill switch is the one on record |
| EngineService.QueuedSwitchIsCarriedOver | src/app/engine_service.cpp:335-360 | a switch set just before the start is the one the replay starts with |
| EngineService.FinishedStaysFinished | src/app/engine_service.cpp:346-390 | a step changes a finished state exactly when it marks or records a run stopped between pop and mark |
| EngineService.AtomicMarkMakesStatesFinal | src/app/engine_service.cpp:308-310 | with pop and mark as one step, over whole histories a run that has finished keeps the state it finished in |
| EngineService.StoppedRunStillRuns | src/app/engine_service.cpp:275-280 | the trace: start, pop, stop (reported Stopped), mark, end, record (Completed) |
| EngineService.NothingIsLeftRunning | src/app/engine_service.cpp:79-104 | after stop() every run the service ever owned has ended |
| EngineService.StartIsAnsweredExactly | src/app/engine_service.cpp:207-263 | a start is admitted, last in the queue, exactly when its id is new, it has a topic and valid settings, there is room and the service is not stopping; what happens to every other start is stated as well |
| EngineService.StopIsAnsweredExactly | src/app/engine_service.cpp:264-284 | a run that waits or is not yet marked is taken out at once, a replaying one is asked to stop, a finished one refuses, an unknown one is ignored |
| EngineService.SwitchIsAnsweredExactly | src/app/engine_service.cpp:285-293 | the switch is set on record and in the risk manager of any run that has not finished, and of no other |
| EngineService.StoppingAsksTheRun | src/app/engine_service.cpp:79-104 | stop() asks the run the worker has to stop, and touches no other |
| EngineService.OutcomeIsRecorded | src/app/engine_service.cpp:378-390 | how a run ended is recorded and counted once |
| EngineService.ServiceCanGoOn | src/app/engine_service.cpp:299-320 | from every reachable state the worker's own steps bring it back, and then the oldest run can begin, or a stopping service can close |
| EngineService.Engine.Handle | src/app/engine_service.cpp:201-297 | each command's branches do exactly the specified step |
| EngineService.Engine.TakeNext | src/app/engine_service.cpp:299-320 | the oldest queued run becomes the current one, or the worker leaves |
| EngineService.Engine.MarkAsRunning | src/app/engine_service.cpp:344-355 | the run is marked and its switch handed over in one step |
| EngineService.Engine.DropQueue | src/app/engine_service.cpp:79-104 | every run never started ends Stopped, and then every run has ended |
| DecimalText.ParseScaled | include/trading_engine/common/decimal_text.hpp:47-98 | Ok exactly when the text is a plain decimal whose value times 10^decimals is an integer within int64, with that integer; each refusal has its reason; no intermediate overflow |
| DecimalText.ParseOfMeans | include/trading_engine/common/decimal_text.hpp:47-98 | the integer n is the result exactly when the text denotes n / 10^decimals |
| DecimalText.FormatScaled | include/trading_engine/common/decimal_text.hpp:104-129 | the text of the number, INT64_MIN included, trimmed by a loop |
| DecimalText.FormatDenotes | include/trading_engine/common/decimal_text.hpp:104-129 | that text denotes the number exactly, with no needless leading zero and no trailing fraction zero |
| DecimalText.ParseUndoesFormat | include/trading_engine/common/decimal_text.hpp:47-129 | parse(format(v)) = v exactly when v fits int64, at every scale |
| DecimalText.FormatUndoesParse | include/trading_engine/common/decimal_text.hpp:47-129 | format(parse(t)) = t for every shortest text |
| DecimalText.DecimalSurvives | src/events/event_codec.cpp:285-296 | with its sign, every int64 amount survives except INT64_MIN |
| CivilTime.CivilFromDaysIsADate | apps/strategy_lab/lab/timestamp.cpp:27-52 | every day number is a real calendar date, whose day number it is |
| CivilTime.DateComesBack | apps/strategy_lab/lab/timestamp.cpp:27-52 | every real date comes back from its day number |
| CivilTime.NextDayIsOneMore | apps/strategy_lab/lab/timestamp.cpp:27-34 | the calendar's next day has the next number |
| CivilTime.DaysCountTheCalendar | apps/strategy_lab/lab/timestamp.cpp:16-52 | day numbers count along the Gregorian calendar from 1970-01-01, in both directions |
| TimestampText.FormatUtcTimestamp | apps/strategy_lab/lab/timestamp.cpp:145-177 | the text of the moment, by truncating division corrected to floor for times before 1970 |
| TimestampText.StampByPosition | apps/strategy_lab/lab/timestamp.cpp:145-177 | year, month, day, hour, minute, second and nine digits of nanoseconds stand at fixed places between - - T : : . Z |
| TimestampText.ParseUtcTimestamp | apps/strategy_lab/lab/timestamp.cpp:83-143 | the instant of every real moment in 1970..2261 spelled in the format, nothing else, without int64 overflow |
| TimestampText.ReadFraction | apps/strategy_lab/lab/timestamp.cpp:106-128 | none, or one to nine digits scaled to nanoseconds, before a final Z |
| TimestampText.ParseUndoesStamp | src/common/timestamp_text.cpp:30-86 | parsing what was formatted gives the instant back exactly when its year is allowed |
| TimestampText.LabTimesSurvive | apps/strategy_lab/lab/timestamp.cpp:83-177 | parse(format(t)) = t for every nanosecond of 1970..2261 and for no other int64 |
| Json.StringReadsBack | src/events/json.cpp:196-318 | any bytes at all: what append_string writes, parse_string reads back |
| Json.NumberReadsBack | src/events/json.cpp:252-288 | a number literal is read back whole, whatever follows that could not belong to it |
| Json.ParseUndoesRender | src/events/json.cpp:25-318 | parse(render(d)) is the value of d, for every document with distinct keys nested at most 32 deep |
| JsonParsing.Parser.ParseString | src/events/json.cpp:196-250 | the scanning loop reads the string described, escapes and surrogate pairs included, or refuses |
| JsonParsing.Parser.ParseObject | src/events/json.cpp:82-123 | the loop reads the members described, refusing repeated keys |
| JsonParsing.Parser.Document | src/events/json.cpp:25-36 | the parser accepts exactly the described texts, with the described value |
| JsonWriting.AppendString | src/events/json.cpp:297-318 | the loop appends the quoted, escaped string |
| JsonWriting.ObjectWriter.Close | src/events/json.cpp:320-361 | the text appended is the rendering of the members written, in order |
| WireMessages.EnumComesBack | src/events/event_codec.cpp:39-47 | an enumerator comes back from its spelling |
| WireWords.SpellingTellsWord | src/domain/domain.cpp:12-83 | no two member names or enumerators are spelled alike |
| WireCodec.WrittenIsFound | src/events/event_codec.cpp:241-247 | a member is found exactly when it was written, with what was written |
| WireCodec.MarketSurvives | src/events/event_codec.cpp:331-347 | a market event's payload comes back, unless a price is INT64_MIN millionths |
| WireCodec.SignalSurvives | src/events/event_codec.cpp:349-372 | a signal's payload comes back, its optional members and metadata included |
| WireCodec.OrderSurvives | src/events/event_codec.cpp:374-394 | an order's payload comes back |
| WireCodec.FillSurvives | src/events/event_codec.cpp:396-410 | a fill's payload comes back |
| WireCodec.DecisionSurvives | src/events/event_codec.cpp:412-455 | a risk decision's payload comes back with all its checks |
| WireProtocol.DecodeUndoesEncode | src/events/event_codec.cpp:473-518 | decode(encode(e)) = e for every envelope whose payload matches its type, unless it holds an amount of INT64_MIN millionths; a mismatch is never written |
| WireProtocol.EncodeEnvelope | src/events/event_codec.cpp:473-488 | built member by member, the message is the encoding |
| WireText.EncodedTextSays | src/events/event_codec.cpp:100-233 | what any JSON reader finds in a message: every member of envelope and payload under its literal name, absent exactly when it has no value, each enumerator in its literal spelling, each amount at six decimals |
| WireText.SignalSideIsSpelled | src/domain/domain.cpp:23-30 | a buy signal is spelled "buy", a sell "sell", a flat one "flat" |
| WireText.OrderSideIsSpelled | src/domain/domain.cpp:32-38 | likewise for order sides |
| WireText.OrderStatusIsSpelled | src/domain/domain.cpp:48-61 | likewise for the nine order statuses |
| WireText.DecodedTextSaid | src/events/event_codec.cpp:490-518 | nothing is decoded but schema 1, a known event type in its literal spelling, and a payload of that type |
| WireWriting.DecisionJson | src/events/event_codec.cpp:192-233 | built member by member, the payload is its document's text, the array of checks included |
| WireWriting.SignalJson | src/events/event_codec.cpp:120-148 | likewise for a signal and its metadata object |
| Utf8Text.IsValidUtf8 | apps/strategy_lab/lab/utf8.hpp:15-44 | true exactly on sequences of the well-formed characters of section 4 of RFC 3629 |
| Utf8Text.ValidMeansEncoded | apps/strategy_lab/lab/utf8.hpp:15-44 | valid is exactly what encodes a sequence of Unicode scalar values by section 3 of RFC 3629: nothing overlong, no surrogate |
| Utf8Text.RepairedIsValid | apps/strategy_lab/lab/utf8.hpp:48-72 | replacing every byte outside a well-formed character gives valid text, and leaves valid text alone |
| Utf8Text.ToValidUtf8 | apps/strategy_lab/lab/utf8.hpp:48-72 | the search for the shortest valid stretch does exactly that replacement |
| Utf8Text.Utf8Excerpt | apps/strategy_lab/lab/utf8.hpp:76-85 | an excerpt of valid text is valid and is cut at the last place between characters that fits |
| LabJson.TextReadsBack | apps/strategy_lab/lab/json_writer.cpp:102-135 | any bytes written as a string are read back as those bytes |
| LabJson.TreeReadsBack | apps/strategy_lab/lab/json_writer.cpp:15-101 | in compact and in indented style the grammar of section 2 of RFC 8259 reads from a tree's text exactly that tree |
| LabJson.LaidIsValid | apps/strategy_lab/lab/json_writer.cpp:102-135 | the text is valid UTF-8 throughout |
| LabJsonWriting.JsonWriter.BeforeValue | apps/strategy_lab/lab/json_writer.cpp:23-44 | a value is allowed exactly once at the root, in an array, or after a key, with its comma and indentation |
| LabJsonWriting.JsonWriter.Key | apps/strategy_lab/lab/json_writer.cpp:86-100 | a key is allowed exactly directly inside an object with none waiting, when it is valid UTF-8; a misplaced one changes nothing, a badly encoded one leaves its comma and line behind |
| LabJsonWriting.JsonWriter.BeginObject | apps/strategy_lab/lab/json_writer.cpp:46-51 | opens an object where a value is due |
| LabJsonWriting.JsonWriter.EndObject | apps/strategy_lab/lab/json_writer.cpp:53-64 | closes exactly an open object with no key waiting; it becomes one value of its container or the root |
| LabJsonWriting.JsonWriter.EndArray | apps/strategy_lab/lab/json_writer.cpp:73-84 | closes exactly an open array, likewise |
| LabJsonWriting.JsonWriter.WriteString | apps/strategy_lab/lab/json_writer.cpp:102-135 | refuses exactly what is not valid UTF-8; otherwise appends the escaped text, line separators included |
| LabJsonWriting.JsonWriter.Text | apps/strategy_lab/lab/json_writer.cpp:137-141 | the string becomes the value that was due; a misplaced one changes nothing, a badly encoded one leaves its separator behind and counts as written |
| LabJsonWriting.JsonWriter.ScaledNumber | apps/strategy_lab/lab/json_writer.cpp:185-189 | an exact decimal becomes the value that was due, as a JSON number |
| LabJsonWriting.JsonWriter.Finished | apps/strategy_lab/lab/json_writer.cpp:191-203 | given exactly when complete, the text is a JSON text of exactly the tree the calls described, and valid UTF-8 |
| LabJsonWriting.Perform | apps/strategy_lab/lab/json_writer.hpp:20-22 | any calls in any order, misuse caught and ignored: while every string is valid UTF-8 the writer stays one whose finished text is the JSON text of the tree the accepted calls describe |
| LabJsonWriting.BadTextBreaksThePromise | apps/strategy_lab/lab/json_writer.cpp:137-141 | one string that is not valid UTF-8, at the root: complete() holds and the text, which is empty, spells no tree |

## Left out

- Overflow of `common::Decimal`, and of the narrowing of a calendar year to int: integers are unbounded there; the source leaves both unchecked.
- Timestamps within the first, partial day of the int64 range: the source's arithmetic overflows there, the model's does not.
- Wrap-around of the 32-bit fill sequence and of 64-bit ids and counters.
- The exact value of floating-point computations: statistics are over reals; basis-point scaling, logarithm, logistic function and the text of doubles are parameters with stated assumptions.
- Fill models other than the naive one, beyond `FillContract`; risk policies other than the five starter policies.
- Orders submitted directly, without a signal: they have no hold, so the whole-run statements cover the signal path.
- Orders travelling on topics separate from their fills: there the Working event may come after a fill, and the whole-run statements do not apply.
- The buses, the registry and the topic log as classes: they are step systems on values, which say nothing of memory layout or of fairness; a timeout is a step that may be taken at any time.
- A handler that throws: the buses' per-handler error counters are not modelled.
- Reason texts, metadata, observers, diagnostics, statistics shown to users, and the wall clock of reports.
- Several symbols in one strategy: each strategy class is the state of one symbol; the allow-list lookup before it is not modelled.
- The content of error messages and the order in which several faults of one text are reported, except by `DecimalText.ParseScaled`.
- The key order of a signal's metadata: `keys` lists the keys in the order they are written, and every order is covered.
- The transport of the topic bus beyond the in-memory log; partition keys; the control protocol's codec.
- LabJsonWriting.JsonWriter.Text: after a string that is not valid UTF-8 was refused, the state is given and no later call is described.
- Logistic.Learner.OnMarketEvent: features, scaling, prediction and training are parameters; what is proved is which data each of them is given, and when.
- Risk-adjusted ratios and volatility of the performance report, and the console, gateway, Kafka, dataset and file plumbing.
