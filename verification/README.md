# Proofs about the trading bot's risk and accounting loop

A Dafny model of the part of the bot that decides whether an order may exist and what it does
to the account, with proofs of what that part keeps over whole runs. `dafny verify
dfyconfig.toml` checks everything.

The model follows the program's layers, one module a component:

- **Policies and gate.** `Drawdown` has the Combine floor, a ratcheting and locking state
  machine, and the EFA floor, a formula. `GateRules` has the seven rules and the stop
  tightening as functions of the account state, `Rulebook` the same rules in contracts, dollars
  and minutes; `Gate` has the gate object with its flatten latch, and the replay of approved
  orders; `CancelTracker` has the pruned lists behind the cancel-to-fill rule.
- **Ledgers.** `Ledger` and `Tracker` are the account tracker; `SimAccount` and `SimEngine` the
  simulated broker account; `RoundTrips` the two walkers that recover closed trades from fills, and `Trips`
  what a round trip is. `Parity` and `RoundTrips` say when the four agree, and `Admission` how
  the simulated broker's order checks relate to the gate's. `Markets` is the registry they price
  with.
- **Order path.** `LiveLoop` is a bar of the live loop as a step over the gate's latches and the
  ledger, with arbitrary proposed orders; `BarOrders` says what the orders of one bar add up to;
  `Strategies` has the position machines of mean reversion and trend following, and
  `EntriesAndExits` when they open and close; `ClosedLoop` is the loop closed through a strategy;
  `LiveTradingLoop` the objects that run it. `Backtest` is the same path over recorded bars, with
  its log.
- **Fleet.** `Allocator` is the allocator that caps many bots on one account, `Fleet` every
  interleaving of the bots' steps through it. `FleetEndings` says how far a fleet can still move
  when nothing more is offered, `FleetMarkets` what the cap means for a market with several
  spellings, and `FleetVeto` puts a bot of the closed loop into the fleet.
- **Data.** `Continuous` builds the ratio-adjusted series, `Aggregator` bars from ticks, and
  `SignalQueue` is the strategy fed from outside.

Objects whose methods update fields are classes here, and each method's contract equates the new
state with a function of the old one; the properties are then lemmas about those functions. A
lookup or a broker that raises is a value (`Raised`, `None`, `raised`) wherever the program can
reach it.

Where the code does not do what one would expect of it, a lemma gives an input and another one
the exact condition:

- The tracker averages a partial reduction into the entry price instead of realizing it; cash
  then drifts by exactly 2 x quantity x price x multiplier (`Ledger.FillConserves`). The
  simulator does not realize it either. The live loop never reaches that branch with the two
  strategies modelled, as long as its closes find room in the fleet
  (`ClosedLoop.ClosedLoopConservesCash`).
- Opening fills away from the latest mark also part the two ledgers, because the tracker returns
  before refreshing unrealized P&L on an open (`Parity.OpeningPnl`, `Parity.LedgersAgree`).
- All orders of one bar are judged against one snapshot, so two of them can pass the cap
  together (`Backtest.TwoOrdersPassTheCap`); the cap holds if and only if the orders approved
  one by one fit together (`Backtest.CapHoldsThroughoutExactly`).
- The backtest engine never drains a scheduled flatten, and so trades on after a touch
  (`Backtest.TouchIsForgotten`, `Backtest.TouchedBacktestBuys`).
- The allocator can veto a close, which strands its contracts, doubles or flattens them at the
  next open, and so reaches the partial reduction (`FleetVeto.CloseCanBeVetoed`,
  `ClosedLoop.StrandedRunReduces`); exactly when the account without that position is past the
  cap (`FleetVeto.CloseVetoedExactly`, `FleetVeto.FleetRunIsSafeExactly`).
- The fleet cap bounds settled plus reserved contracts. Settled contracts alone can pass it, and
  a release without a fill breaks it; exactly when one side's reservations could take the
  account past it together (`FleetEndings.SettledStaysCappedExactly`,
  `FleetEndings.BothStayCappedExactly`).
- The fleet cap is kept per spelling of a symbol, against the allocator's own description; it
  covers a market exactly when the bots spell it one way (`FleetMarkets.MarketCapExactly`).
- A contract directory without bars breaks an older seam of the continuous series
  (`Continuous.GapBreaksSeam`, `Continuous.SeamMeetsExactly`).
- The interval floor rounds up for instants in the last second before a boundary, before 1970
  (`Aggregator.FloorIsExact`).
- A signal whose symbol is too short to name a market reaches the bots of several
  (`SignalQueue.ShortSignalReachesMany`, `SignalQueue.SignalReachesOneMarket`).
- The gate stops new exposure at 15:00, the simulated broker at 15:10 (`Admission.ClocksDiffer`).

## Model

| member | source | states |
|---|---|---|
| `Drawdown.CarryIsClosedForm` | src/bot/risk/combine_drawdown.py:31-54 | after any non-empty equity trace the account is locked exactly when the peak has reached start + loss limit, and the floor is min(peak - limit, start) |
| `Drawdown.ForgettingTheLockIsHarmless` | src/bot/risk/combine_drawdown.py:31-43 | dropping the lock between ticks, as account snapshots do, leads to the same account state as carrying it, over every trace |
| `Drawdown.FloorRatchets` | src/bot/risk/combine_drawdown.py:31-51 | further ticks never lower the floor, and it never passes the start balance |
| `Drawdown.CombineAndEfaFloorsAgree` | src/bot/risk/efa_drawdown.py:48-66 | after any trace the Combine state machine and the EFA formula give the same floor and the same lock, for an account not seeded below its start |
| `Drawdown.RoomGrowsWithEquity` | src/bot/risk/combine_drawdown.py:31-51 | a tick at a higher equity leaves at least as much room above the floor, although the ratchet may have moved |
| `Drawdown.EfaRatchetsAtDayEnds` | src/bot/risk/efa_drawdown.py:41-66 | over any days of any ticks an EFA high-water is the highest equity a day has ended at, the floor and the lock follow from it in closed form, and intraday equity leaves no trace |
| `Drawdown.CombineIgnoresDayEnds` | src/bot/risk/combine_drawdown.py:45-51 | a Combine account's high-water and floor after a day come from its ticks alone |
| `Markets.TickRatioIsPointValue` | src/bot/execution/topstepx_sim/account.py:31-33 | tick value over tick size equals the registry multiplier for every bare root, so both ledgers price a point alike |
| `Markets.RootIsItsOwnPrefix` | src/bot/markets/registry.py:134-155 | the longest-first prefix search resolves each root to its own market, never to a shorter one it contains |
| `Markets.RegistryInNumbers` | src/bot/markets/registry.py:35-155 | for every registered symbol, contract codes included, the prefix search gives the market's tick size, dollars a tick, dollars a point and contracts to a mini in figures |
| `Markets.MicroIsATenth` | src/bot/markets/registry.py:35-126 | a micro has its full contract's tick, a tenth of its dollars and ten times its cap |
| `CancelTracker.PruningIsInvisible` | src/bot/risk/cancel_tracker.py:19-32 | for every interleaving of recordings and queries whose query times do not go back, the pruned lists answer like the full history, the no-fills infinity included |
| `CancelTracker.RatioInNumbers` | src/bot/risk/cancel_tracker.py:25-32 | the ratio of the pruned lists is over a threshold if and only if the window's cancels are more than that many times its fills, or there are cancels and no fill |
| `CancelTracker.ForwardIsExact` | src/bot/risk/cancel_tracker.py:25-32 | two queries agree with the full history for every history if and only if the second is not earlier than the first |
| `CancelTracker.BackwardQueryForgets` | src/bot/risk/cancel_tracker.py:27-32 | a concrete history on which a query that goes back gets a different answer from the pruned lists |
| `CancelTracker.RollingRatioTracker.RatioAt` | src/bot/risk/cancel_tracker.py:25-32 | prunes both lists to the window and answers as the full history would, provided time has not gone back |
| `GateRules.ApprovalBound` | src/bot/risk/gate.py:150-182 | an approved bracketed order is the order asked for with a stop between 1 and the original; being stopped out keeps equity at the floor plus buffer, keeps the day above the loss limit, and the projected position fits the cap |
| `GateRules.RoomIsExact` | src/bot/risk/gate.py:163-170 | a stop of one tick or more keeps the buffer if and only if it is within the computed room, truncation toward zero included |
| `GateRules.WidestSafeStop` | src/bot/risk/gate.py:163-182 | every wider stop up to the one asked for would eat into the buffer, and MLL_PROXIMITY is answered exactly when even one tick would |
| `GateRules.ApprovedIsStable` | src/bot/risk/gate.py:109-182 | an approved order asked again at the same state, without journal or cancel history, is approved unchanged |
| `GateRules.MonotoneInEquity` | src/bot/risk/gate.py:109-182 | whatever is approved at some equity is approved at any higher one, all else equal, with a stop at least as wide, for the Combine and the tiered EFA policy |
| `GateRules.MonotoneInRoom` | src/bot/risk/gate.py:109-182 | the same whenever room above the floor and position cap do not shrink, whatever else moved equity and high-water |
| `GateRules.MonotoneThroughTick` | src/bot/risk/gate.py:367-375 | the same for a bar that ends richer, its own high-water ratchet included |
| `GateRules.TouchBlocksExposure` | src/bot/risk/gate.py:235-273 | at or below the floor no market, limit or bracket order of one contract or more that adds exposure is approved, with or without a stop |
| `Rulebook.DecisionIsFirstBroken` | src/bot/risk/gate.py:109-365 | for every order in a registered contract: denied if and only if it breaks a rule, each written out in minutes, dollars and contracts; the denial names the first one broken; the gate never raises, and approves whatever breaks none |
| `Rulebook.EfaTiers` | src/bot/risk/efa_drawdown.py:68-87 | under the EFA policy an approved order leaves at most two minis below 1,500 dollars of profit, three below 2,000 and five ever, ten micros to a mini; and the cap passes exactly what fits those numbers |
| `Rulebook.HftInNumbers` | src/bot/risk/gate.py:351-365 | rule 7 denies if and only if the last sixty minutes hold more than the threshold of cancels to a fill, or cancels and no fill |
| `Rulebook.UnregisteredRaises` | src/bot/risk/gate.py:218-293 | an order in an unregistered contract is never approved; it raises, and which error, unless the clock, a missing stop or an exhausted limit denies it first |
| `Gate.TopstepRiskGate.ApproveOrDeny` | src/bot/risk/gate.py:109-148 | the ordered rules with first denial winning, which Rulebook.DecisionIsFirstBroken spells out in numbers; and, while requests go forward in time, the decision of a gate that remembers every cancel and fill |
| `Gate.TopstepRiskGate.OnTick` | src/bot/risk/gate.py:367-375 | the ticked state; a flatten is scheduled exactly when its equity is at or below the floor |
| `Gate.TopstepRiskGate.ScheduleForceFlatten` | src/bot/risk/gate.py:377-383 | the first request is latched, later ones are ignored |
| `Gate.TopstepRiskGate.ForceFlattenNow` | src/bot/risk/gate.py:385-408 | drains a pending request once, disabling the strategy, also when the broker call fails |
| `Gate.LatchOverRuns` | src/bot/risk/gate.py:367-408 | over every run of ticks, requests, drains and recordings the flatten latch only advances and cancel-all is sent at most once |
| `Gate.FirstReasonStands` | src/bot/risk/gate.py:377-408 | over every run the flatten reason latched first stands until it is drained, and no other ever follows it |
| `Gate.RequestPrunesAtRuleSeven` | src/bot/risk/gate.py:109-148 | a request moves nothing of the gate but the cancel lists, and those, down to sixty minutes, only when rules 1 to 6 have passed |
| `Gate.NothingAfterDrainedTouch` | src/bot/risk/gate.py:109-119 | in every run, after a touching tick and a later drain every request is denied as STRATEGY_DISABLED |
| `Gate.ReplayIsClean` | src/bot/backtest/rule_replay.py:40-57 | replaying the adjusted orders of any approvals at their states through a fresh gate yields no violation and returns each order unchanged |
| `Gate.ViolationsAreDenials` | src/bot/backtest/rule_replay.py:40-57 | the violations of a replay are its denials and nothing else |
| `Gate.ReplayThroughFreshGate` | src/bot/backtest/rule_replay.py:40-57 | counts the items and collects exactly the denials of a fresh gate, in order |
| `Ledger.CashIsConserved` | src/bot/backtest/tracker.py:42-84 | over every stream of marks and fills, realized P&L less open cost moves by the cash of the fills plus the drift of the partial reductions |
| `Ledger.FillConserves` | src/bot/backtest/tracker.py:51-84 | one fill of any branch: the same balance, with drift 2 x quantity x price x multiplier on a partial reduction and none otherwise |
| `Ledger.NoPartialNoDrift` | src/bot/backtest/tracker.py:56-76 | without partial reductions there is no drift, so cash is conserved exactly |
| `Ledger.MarkedEquity` | src/bot/backtest/tracker.py:86-123 | from a fresh account, with every open symbol marked, equity is start + cash + drift + market value of what is held |
| `Ledger.RaisedFillStops` | src/bot/backtest/tracker.py:51-84 | how far a fill that raises has got: nothing where its own symbol is unregistered and it closes or flips; otherwise position and realized P&L have moved and the open P&L and high-water have not |
| `Ledger.UnregisteredRaisesAtItsMark` | src/bot/backtest/tracker.py:51-103 | a position opened in an unregistered symbol goes unnoticed, fill and other marks included, until that symbol's own first mark, which raises |
| `Ledger.RunMovesQuantity` | src/bot/backtest/tracker.py:51-76 | over every stream the position of a symbol moves by the signed quantity of its fills |
| `Tracker.AccountStateTracker.RecordFill` | src/bot/backtest/tracker.py:42-77 | the books after opening, adding, closing or flipping are those of the ledger function; it raises exactly when it realizes on, or refreshes, an unregistered symbol, and says how far the books have got |
| `Tracker.AccountStateTracker.MarkToMarket` | src/bot/backtest/tracker.py:86-90 | the mark is stored and equity figures refreshed, unless a marked position is unregistered |
| `Tracker.AccountStateTracker.RecomputeUnrealized` | src/bot/backtest/tracker.py:92-103 | the loop over positions computes the open P&L of all marked symbols, and the high-water only ratchets up; it raises exactly at a marked unregistered position |
| `SimAccount.LiquidationKeepsEquity` | src/bot/execution/topstepx_sim/account.py:93-143 | closing a symbol whole at its own mark leaves equity and high-water exactly as they were |
| `SimAccount.AdvancesOneRung` | src/bot/execution/topstepx_sim/account.py:35-44 | a stage advances one rung towards funding, steps back from payout to efa_active, or fails out of an active stage; every other move raises, and nothing but the stage changes |
| `SimAccount.ComputeUnrealized` | src/bot/execution/topstepx_sim/account.py:173-183 | the loop sums the open P&L of the marked symbols, or raises at one that is not a bare root |
| `SimAccount.ApplyFill` | src/bot/execution/topstepx_sim/account.py:93-143 | the account after a fill is that of the specification function, branch by branch; it raises exactly when it realizes on, or marks, a symbol that is not a bare root |
| `SimAccount.OddSymbolRaisesAtItsMark` | src/bot/execution/topstepx_sim/account.py:93-183 | the same in the simulated account, for a symbol that is not a bare root |
| `SimEngine.RunIsSound` | src/bot/execution/topstepx_sim/engine.py:85-162 | in every run of orders, ticks and end-of-day passes, in any stage: the balance sheet holds, high-water is at least equity and never falls, every position fits the cap of the stage (the Combine cap, or five minis under the EFA policy), the stage only ever moves from combine_active or efa_active to its failure, and a failed account stays failed |
| `SimEngine.FreshIsSound` | src/bot/execution/topstepx_sim/engine.py:42-63 | a new account in any stage satisfies that invariant |
| `SimEngine.TickOutcome` | src/bot/execution/topstepx_sim/engine.py:139-152 | for every stage: above the closed-form floor (the Combine's, or in an EFA the account start's) a tick is just the mark; at or below it the ticked symbol ends flat and no other moves; combine_active ends combine_failed, and efa_active efa_failed, if and only if marked equity is at or below it; equity is the marked equity either way |
| `SimEngine.SubmitOutcome` | src/bot/execution/topstepx_sim/engine.py:85-123 | for every order in a bare root: rejected by the clock, rejected by the cap in force at the account's profit, or filled whole, a buy the configured ticks above mid and a sell as far below; a rejection moves nothing, a fill moves its symbol alone |
| `SimEngine.OnlyRootsFill` | src/bot/execution/topstepx_sim/engine.py:85-123 | a symbol that is not a bare root is rejected by clock or cap or raises, and never moves the account |
| `SimEngine.SubmitCostsItsSlippage` | src/bot/execution/topstepx_sim/engine.py:108-113 | a fill that opens, adds, closes or flips leaves equity at the marked equity less exactly its slippage in dollars |
| `SimEngine.EodOutcome` | src/bot/execution/topstepx_sim/engine.py:154-162 | before the hard-flat minute the end-of-day pass changes nothing; from it on the named symbol is closed at the price given, its open P&L there is realized, and nothing else moves |
| `SimEngine.EodRatchets` | src/bot/execution/topstepx_sim/engine.py:154-162 | with an EFA policy the end-of-day pass leaves no account, however seeded, with a high-water under its equity |
| `SimEngine.FlattenKeepsEquity` | src/bot/execution/topstepx_sim/engine.py:215-228 | the liquidation at the mark leaves equity and high-water unchanged |
| `SimEngine.TopstepSimEngine.SubmitOrder` | src/bot/execution/topstepx_sim/engine.py:85-123 | clock rejection, cap rejection, or a fill with slippage and re-mark, in that order; what that comes to in numbers is SubmitOutcome |
| `SimEngine.TopstepSimEngine.Tick` | src/bot/execution/topstepx_sim/engine.py:139-152 | mark, floor test, liquidation, failure; what that comes to in each stage is TickOutcome |
| `SimEngine.TopstepSimEngine.Eod` | src/bot/execution/topstepx_sim/engine.py:154-162 | flatten past the hard-flat time, then the end-of-day ratchet; what that comes to is EodOutcome |
| `SimEngine.TopstepSimEngine.FlattenAt` | src/bot/execution/topstepx_sim/engine.py:215-228 | closes the ticked symbol whole at the given price, and nothing else |
| `Parity.LedgersAgree` | src/bot/backtest/tracker.py:42-103 | on every stream of marks and nonzero fills the tracker and the simulated account agree in positions, averages, realized, unrealized, equity and high-water after every event, if and only if every fill is in step: opens at the latest mark, no partial reduction except at the one price where the averages coincide |
| `Parity.FillKeepsSame` | src/bot/execution/topstepx_sim/account.py:93-143 | one fill keeps equal accounts equal if and only if it is in step |
| `Parity.LegsAgree` | src/bot/execution/topstepx_sim/account.py:102-129 | both ledgers realize the same on every branch and book the same leg except on a partial reduction, where they agree only if the price is the negated average |
| `Parity.OpeningPnl` | src/bot/execution/topstepx_sim/account.py:99-100 | an opening fill moves the simulator's unrealized P&L by its distance from the mark, which the tracker leaves for the next mark |
| `Admission.SnapshotsAgree` | src/bot/execution/topstepx_sim/engine.py:237-255 | while the two ledgers are equal the gate is shown the same state from either, and so decides alike |
| `Admission.ApprovedIsFilledExactly` | src/bot/execution/topstepx_sim/engine.py:85-123 | an order the gate approves on the simulated account, in a bare root, is filled there whole, except that the engine rejects an added exposure exactly when its own clock is past; then it is set earlier than the gate's 15:00 |
| `Admission.ApprovedIsNeverRejected` | src/bot/execution/topstepx_sim/engine.py:3-6 | with the engine's clock at 15:00 or later nothing the gate approves is rejected |
| `Admission.ClocksDiffer` | src/bot/execution/topstepx_sim/engine.py:183-190 | from 15:00 to the engine's hard-flat minute the gate denies every added exposure, and the engine fills it if and only if its cap allows |
| `RoundTrips.WalkConserves` | src/bot/backtest/report.py:66-93 | round-trip P&L so far plus the dollar cash of the symbols still open equals all cash moved, over every list of fills the walk gets through |
| `RoundTrips.WalkTracksQuantity` | src/bot/backtest/report.py:80-92 | the walker's running quantity is the net of the fills, and a symbol it has dropped is flat |
| `RoundTrips.ReportAgreesWithLedger` | src/bot/backtest/report.py:66-93 | for every stream that ends flat the round trips add up to the tracker's realized P&L less the drift of partial reductions, and exactly to it without any |
| `RoundTrips.WalkersAgree` | src/bot/proof/sources.py:136-175 | when orders fill in full the proof bundle's walker closes trades with the very P&L list of the report, and raises exactly when it does |
| `Trips.TradesAreTrips` | src/bot/proof/sources.py:136-175 | the walker's trades are exactly the round trips of the list: one for each fill that brings its symbol back to flat, in order, entered at the first fill since the symbol was last flat, with all the cash in between as P&L |
| `Trips.ReportListsTrips` | src/bot/backtest/report.py:66-93 | the report's list is the P&L of exactly those trips when orders fill in full |
| `RoundTrips.WalkOrders` | src/bot/backtest/report.py:66-93 | the loop computes the report's list, or raises at a close of a symbol that is not a bare root |
| `RoundTrips.WalkRawFills` | src/bot/proof/sources.py:136-175 | the generator loop yields the specified trades, or raises at such a close |
| `Strategies.EveryBarIsATurn` | src/bot/strategy/mean_reversion.py:150-263 | on every bar, whatever the indicators, either strategy does nothing, opens from flat with a bracket, or closes what it believes it holds with a bare market order of the same quantity |
| `Strategies.OwnStopIsBracketStop` | src/bot/strategy/trend_following.py:230-271 | on an open the strategy's own stop price is the bracket's ticks from the close, on the losing side, one tick away at least |
| `Strategies.NothingHeldPastStop` | src/bot/strategy/mean_reversion.py:226-248 | over every run of bars, days and indicators, a position that is still held has lived through no bar that reached the stop set at its open |
| `Strategies.DailyCap` | src/bot/strategy/mean_reversion.py:150-186 | bars of one trading day open at most the daily cap, however often signals fire |
| `EntriesAndExits.MrOpensExactly` | src/bot/strategy/mean_reversion.py:150-186 | from flat, mean reversion is long after a bar if and only if it is warm and under its daily cap, the close is at or under the lower band and RSI is oversold; short if and only if the mirror image holds and that does not; it buys the long and sells the short |
| `EntriesAndExits.MrClosesExactly` | src/bot/strategy/mean_reversion.py:226-263 | a held position is closed, by one order the other way, if and only if the bar reaches its stop or comes back to the middle band; the order says which, the stop if both |
| `EntriesAndExits.MrBracketIsSigma` | src/bot/strategy/mean_reversion.py:200-224 | the stop is the ticks nearest to sigma times the reward ratio, the target those nearest to sigma, one at least; the own stop price on the losing side of the close |
| `EntriesAndExits.TfOpensExactly` | src/bot/strategy/trend_following.py:123-228 | from flat, trend following is long if and only if it is warm, under its cap and before the cutoff, the averages are a tenth of the ATR or more apart with the fast one above, and the low has pulled back; short on the mirror image |
| `EntriesAndExits.TfClosesExactly` | src/bot/strategy/trend_following.py:273-316 | a held position is closed if and only if the session is over, the bar reaches target or stop, or the averages have met or crossed |
| `EntriesAndExits.TfBracketIsAtr` | src/bot/strategy/trend_following.py:230-271 | the stop is the ticks nearest to one ATR beyond the fast average, one tick at least, the target its multiple to the nearest tick, and the own levels are where the bracket puts them |
| `EntriesAndExits.DayRollsCount` | src/bot/strategy/mean_reversion.py:150-157 | a new trading day clears the count of entries and nothing else; an entry adds one |
| `EntriesAndExits.OrderIdsAreDistinct` | src/bot/strategy/mean_reversion.py:209-256 | over any run of bars the orders are numbered one after the other: no two share a client order id |
| `Strategies.MeanReversionStrategy.OnBar` | src/bot/strategy/mean_reversion.py:150-186 | the new position state and the orders are those of the position machine, whose entries and exits MrOpensExactly and MrClosesExactly state in prices |
| `Strategies.MeanReversionStrategy.OpenIntent` | src/bot/strategy/mean_reversion.py:200-224 | position, counters and bracketed order of an entry |
| `Strategies.MeanReversionStrategy.MaybeEmitExit` | src/bot/strategy/mean_reversion.py:226-248 | stop before mid-band, the stop also while the bands are cold |
| `Strategies.TrendFollowingStrategy.OnBar` | src/bot/strategy/trend_following.py:123-149 | the new position state and the orders are those of the position machine, whose entries and exits TfOpensExactly and TfClosesExactly state in prices |
| `Strategies.TrendFollowingStrategy.OpenIntent` | src/bot/strategy/trend_following.py:230-271 | levels, counters and bracketed order of an entry |
| `LiveLoop.TouchEndsTrading` | src/bot/runtime/live_loop.py:220-309 | in every run, whatever strategies propose: a bar whose ticked equity is at or below the floor approves nothing that adds exposure against its snapshot, and no later bar approves or fills anything |
| `LiveLoop.BarShowsLedger` | src/bot/runtime/live_loop.py:236-241 | every bar reached shows the gate its marked ledger field by field, judges it by the closed-form floor, an EFA's counted from the account's own start, and schedules a flatten if and only if equity is at or below it |
| `LiveLoop.FloorNeverFalls` | src/bot/runtime/live_loop.py:236-241 | over every run, under either policy, the floor a bar is judged by is at least the first bar's |
| `LiveLoop.QuietBar` | src/bot/runtime/live_loop.py:220-253 | how a stop request, a drain the broker refuses and a bar outside the schedule end: loop status, gate, ledger |
| `LiveLoop.EveryProposalIsAnswered` | src/bot/runtime/live_loop.py:254-309 | a bar answers its proposals one by one, in order, with the order unchanged but for a tighter stop |
| `LiveLoop.FillsAreApprovals` | src/bot/runtime/live_loop.py:271-282 | every fill of a bar is one of its approved orders, at the bar's close |
| `ClosedLoop.ClosedLoopIsSafe` | src/bot/runtime/live_loop.py:220-309 | with soft consistency a run is safe at every bar if and only if every close of it finds room in the fleet: the ledger holds -q, 0 or +q, and while the gate can approve either nothing or exactly the strategy's own side; the close of an open that never filled is denied; a real close is denied by the gate only when it is dead or the floor is touched; a dead gate never trades again |
| `ClosedLoop.StrategyMovesWhenTrading` | src/bot/runtime/live_loop.py:220-254 | the strategy moves on exactly the bars the loop trades on, by its own bar and signals, whatever becomes of its orders |
| `ClosedLoop.StepIsSafeExactly` | src/bot/runtime/live_loop.py:220-309 | a bar keeps the invariant if and only if its close, if the gate can approve one above the floor, finds room in the fleet |
| `ClosedLoop.AloneFindsRoom` | src/bot/runtime/live_loop.py:261-262 | a bot without an allocator always does |
| `ClosedLoop.BareOpenIsDenied` | src/bot/risk/gate.py:235-250 | a market or limit order without a bracket that adds exposure is never approved |
| `ClosedLoop.CloseIsApproved` | src/bot/risk/gate.py:109-182 | an exact close is approved by an enabled gate above the floor and short of the daily limit |
| `ClosedLoop.VetoedCloseStrands` | src/bot/runtime/live_loop.py:261-275 | without room the loop goes on with the contracts on the books, a gate that can still approve, and a strategy that believes it is flat |
| `ClosedLoop.OpenOntoStranded` | src/bot/strategy/mean_reversion.py:200-224 | the next open that fills adds to the stranded position: it doubles on the same side and goes flat on the other |
| `ClosedLoop.StrandedRunReduces` | src/bot/backtest/tracker.py:69-76 | a vetoed close, an open on the same side and its close put the partial reduction into the run that safe runs exclude |
| `FleetVeto.CloseVetoedExactly` | src/bot/runtime/fleet/allocator.py:109-135 | the allocator denies the close of an idle bot's whole position if and only if settled plus reserved contracts less that position are past the cap |
| `FleetVeto.CloseCanBeVetoed` | src/bot/runtime/fleet/allocator.py:109-135 | a reachable state in which a bot holds a whole cap it was allowed and its close is denied |
| `FleetVeto.FleetStepIsSafeExactly` | src/bot/runtime/live_loop.py:261-297 | a closed-loop bar that meets the fleet in a state is safe if and only if it does not close, or the account without the position is within the cap |
| `FleetVeto.FleetRunIsSafeExactly` | src/bot/runtime/live_loop.py:220-309 | the same over whole runs, one fleet state a bar |
| `FleetVeto.ReachableVetoStrands` | src/bot/runtime/live_loop.py:261-275 | in the reachable state the close strands its contracts |
| `ClosedLoop.ClosedLoopConservesCash` | src/bot/backtest/tracker.py:69-76 | the tracker's partial-reduction branch is never reached in such a run, so realized P&L less open cost moves by exactly the cash of the fills |
| `ClosedLoop.BrokerAccountAgrees` | src/bot/execution/topstepx_sim/account.py:93-161 | a simulated broker account fed the marks and fills of such a run equals the tracker after every event |
| `LiveTradingLoop.LiveTradingLoop.Run` | src/bot/runtime/live_loop.py:203-325 | the loop over live objects, allocator included, ends in the state, decisions and events of the state machine over the bars it takes; `max_bars` is looked at after a bar |
| `LiveTradingLoop.LiveTradingLoop.RunBar` | src/bot/runtime/live_loop.py:220-309 | one bar: shutdown, drain, mark, snapshot, tick, schedule, orders, and the table its last approved order leaves; what the gate is shown is BarShowsLedger |
| `LiveTradingLoop.LiveTradingLoop.PumpIntents` | src/bot/runtime/live_loop.py:254-309 | all orders of a bar against one and the same state, each with its own fleet view, stopping at a lookup or a broker that raises |
| `LiveTradingLoop.LiveTradingLoop.Place` | src/bot/runtime/live_loop.py:255-297 | gate, allocator, broker, ledger, settlement; and the allocator's table after each outcome, still reserved if the broker raised |
| `LiveTradingLoop.TableIsSettled` | src/bot/runtime/live_loop.py:261-297 | after an order the allocator's table has every quantity it was found with, except an order that had found room when the broker raised, which stays reserved |
| `Backtest.LogIsComplete` | src/bot/backtest/engine.py:144-206 | in every backtest emitted = approved + denied, approved orders and fills match one to one, in order and in full, and the ledger has seen exactly those fills |
| `Backtest.RecordedBarShowsLedger` | src/bot/backtest/engine.py:157-160 | every recorded bar is judged against its marked ledger, shown field by field, by the closed-form floor |
| `Backtest.LogFillsAtCloses` | src/bot/backtest/engine.py:170-181 | the log's orders carry the broker's numbers in turn, and each was filled whole at the close, and the time, of one of the bars |
| `Backtest.LogAddsUp` | src/bot/backtest/engine.py:144-206 | emitted orders are all the strategy's, and approved plus denied; fills and approved orders match; the final state is the ledger's |
| `BarOrders.BarMovesByAdded` | src/bot/backtest/engine.py:165-187 | for any orders, fleets and cancel histories a bar moves each position by the sum of the orders that get through when judged one by one at the bar's snapshot |
| `BarOrders.CapHoldsExactly` | src/bot/backtest/engine.py:165-187 | the Combine cap holds after a bar if and only if that sum fits on top of what is held |
| `Backtest.CapHoldsThroughoutExactly` | src/bot/backtest/engine.py:157-187 | over whole runs, any number of orders a bar: every position is within the cap after every bar if and only if every bar's orders fit |
| `BarOrders.StaleStateDoubles` | src/bot/backtest/engine.py:165-185 | an order approved once and offered twice in a bar adds its quantity twice |
| `Backtest.TwoOrdersPassTheCap` | src/bot/backtest/engine.py:165-185 | a fresh 50K backtest under a cap of five that is offered three NQ twice in one bar ends with six |
| `Backtest.ReportMatchesRealized` | src/bot/backtest/engine.py:144-206 | for every backtest that ends flat and whose report does not raise, the round trips of the log add up to realized P&L less drift, and both walkers give the same list |
| `Backtest.CapHoldsOneOrderABar` | src/bot/backtest/engine.py:157-187 | so with at most one order a bar every position is within the cap after every bar, whatever the strategy |
| `Backtest.BacktestNeverDisables` | src/bot/backtest/engine.py:157-187 | a backtest never drains a flatten, so an enabled gate stays enabled however often the floor is touched |
| `Backtest.TouchIsForgotten` | src/bot/backtest/engine.py:157-187 | a run decides, fills and logs the same whatever the flatten latch says |
| `Backtest.TouchedBacktestBuys` | src/bot/backtest/engine.py:157-187 | a run that touches the floor, recovers and buys more |
| `Backtest.BacktestEngine.RunCollect` | src/bot/backtest/engine.py:144-206 | the loop returns the specified log, or raises on an unregistered symbol |
| `Backtest.BacktestEngine.RunBar` | src/bot/backtest/engine.py:157-187 | one bar: denials and filled orders in order |
| `Backtest.BacktestEngine.Propose` | src/bot/backtest/engine.py:168-187 | an approved order goes to the ledger and the simulated broker at the bar's close |
| `Fleet.EveryInterleavingKeepsCap` | src/bot/runtime/fleet/allocator.py:95-175 | for any number of bots that start flat, any orders, and every interleaving of marks, approvals, fills with settlement, and failing bots: settled plus reserved contracts stay within the cap per symbol, the table holds exactly one entry for each bot with an order in flight, and settled contracts alone are within the cap when none is in flight |
| `Fleet.OfferOutcome` | src/bot/runtime/fleet/allocator.py:95-143 | an offer within the cap is in flight and reserved, one past it changes nothing, and one in an unregistered contract kills its bot with nothing reserved |
| `FleetEndings.SettledStaysCappedExactly` | src/bot/runtime/fleet/allocator.py:114-137 | from any state whose reservations match the orders in flight, settled contracts stay within the cap in every order of fills and failures if and only if neither side's live orders could take them past it together |
| `FleetEndings.BothStayCappedExactly` | src/bot/runtime/fleet/allocator.py:145-162 | with releases too, settled and settled plus reserved contracts stay within the cap if and only if neither side's reservations, dead bots' included, could take them past it together |
| `FleetEndings.EndNeverReachesFurther` | src/bot/runtime/fleet/allocator.py:145-175 | no fill, failure or release takes either side further than it could already go |
| `FleetEndings.StagedReachesTwice` | src/bot/runtime/fleet/allocator.py:109-143 | a reachable state in which both conditions fail |
| `FleetEndings.ReleaseAloneBreaksCap` | src/bot/runtime/fleet/allocator.py:145-162 | there, releasing the sell without its fill leaves twice the cap reserved in buys |
| `FleetEndings.SettledCanExceedCap` | src/bot/runtime/fleet/allocator.py:114-137 | and filling the buys settles twice the cap while the sell is in flight or dead |
| `FleetEndings.DeadReservationStays` | src/bot/runtime/fleet/allocator.py:27-30 | what a dead bot held and had reserved stays through every later run |
| `FleetEndings.ExcessCanBeClosed` | src/bot/runtime/fleet/allocator.py:109-143 | the excess does not: an idle holder's close is approved and takes settled contracts back within the cap |
| `FleetMarkets.MarketCapExactly` | src/bot/runtime/fleet/allocator.py:3-6 | settled plus reserved contracts of a market, over all its spellings, stay within one cap in every interleaving from flat if and only if the bots offer at most one spelling of it |
| `FleetMarkets.TwoSpellingsTwoCaps` | src/bot/runtime/fleet/allocator.py:110-122 | under two spellings a market takes two caps |
| `Fleet.SettleKeepsExposure` | src/bot/runtime/live_loop.py:276-297 | fill and settlement leave settled plus reserved unchanged in every symbol |
| `Allocator.ReleaseUndoesReserve` | src/bot/runtime/fleet/allocator.py:145-162 | releasing what was just approved restores every reserved quantity |
| `Allocator.GateAndFleetCapsAgree` | src/bot/runtime/fleet/allocator.py:190-204 | the allocator's and the Combine policy's ways of telling a micro give the same cap for every registered symbol |
| `Allocator.FleetAllocator.ApproveIntent` | src/bot/runtime/fleet/allocator.py:95-143 | approves exactly when settled + reserved + order fits the cap, and reserves then and only then |
| `Allocator.FleetAllocator.SumFor` | src/bot/runtime/fleet/allocator.py:115-121 | the sum of one symbol over all books |
| `Allocator.FleetAllocator.ReleaseIntent` | src/bot/runtime/fleet/allocator.py:145-162 | takes the quantity back, drops empty entries, ignores bots never seen |
| `Continuous.SeriesIsContinuous` | src/bot/data/continuous.py:81-186 | with bars in every contract and positive closes: the close of each expiring contract's latest bar, scaled, equals the scaled close of the next contract's last bar of that day, or of its earliest bar if it did not trade that day; the newest contract is unscaled |
| `Continuous.RollIsMeasured` | src/bot/data/continuous.py:81-142 | a roll records the day and close of the old contract's latest bar and the close of the new one's last bar of that day, or else of its earliest, and their ratio; it raises if and only if that close is zero |
| `Continuous.SeriesRaisesExactly` | src/bot/data/continuous.py:81-208 | the pass raises if and only if two neighbouring contracts roll at a close of zero |
| `Continuous.SeamMeetsExactly` | src/bot/data/continuous.py:158-170 | a seam meets if and only if its roll is the newest, its new contract is the next to roll away, or the scale after it is one |
| `Continuous.GapBreaksSeam` | src/bot/data/continuous.py:93-103 | a contract without bars between two others makes an older seam miss |
| `Continuous.SeriesKeepsBars` | src/bot/data/continuous.py:145-186 | the series is every bar of every contract once, each price times its contract's scale and nothing else changed, in time order; scales are positive, so bars keep their open, high, low, close order |
| `Continuous.SortIsStable` | src/bot/data/continuous.py:185 | the sort returns a time-ordered permutation in which bars of one instant keep their order |
| `Continuous.ComputeRatios` | src/bot/data/continuous.py:81-116 | one roll for each consecutive pair that both have bars, measured as RollIsMeasured says, or a division by zero |
| `Continuous.AccumulateScales` | src/bot/data/continuous.py:198-208 | the running product from the newest roll back gives each roll the product over itself and all later ones |
| `Continuous.AdjustWithRolls` | src/bot/data/continuous.py:145-186 | scale table, scaled bars of every contract, stable sort |
| `Continuous.WriteContinuous` | src/bot/data/continuous.py:188-226 | rolls, cumulative scales and adjustment composed; the seams of the result are SeriesIsContinuous |
| `Aggregator.StreamingIsBatch` | src/bot/data/aggregator.py:40-88 | for every tick stream, in or out of order, the bars returned by feeding with the final flush are first, highest, lowest, last and total of the accepted ticks grouped by boundary |
| `Aggregator.BatchIsAligned` | src/bot/data/aggregator.py:48-68 | bar times are on boundaries and strictly increasing |
| `Aggregator.BarIsItsInterval` | src/bot/data/aggregator.py:19-28 | since the epoch a bar is made of exactly the ticks from its start to less than 60, or 300, seconds after it |
| `Aggregator.BarsSplitTicks` | src/bot/data/aggregator.py:59-82 | the groups behind the bars, one after the other, are exactly the ticks: each is in one bar and one only |
| `Aggregator.ExtremesBound` | src/bot/data/aggregator.py:75-76 | high and low are prices of the group that bound all the others |
| `Aggregator.FloorIsExact` | src/bot/data/aggregator.py:19-25 | the code rounds down for every instant since the epoch, and before it if and only if the instant is not inside the last second before a boundary |
| `Aggregator.BarAggregator.FeedTick` | src/bot/data/aggregator.py:40-82 | rejection without effect, opening, closing or extending a bar |
| `Aggregator.BarAggregator.Drive` | src/bot/data/aggregator.py:40-88 | feeding a whole stream and flushing gives the specified bars |
| `SignalQueue.QueueIsLossless` | src/bot/strategy/signal_strategy.py:126-186 | over every interleaving of arrivals, injections that find room, and bars: the events that left as orders, then the matching events still queued, are the matching events accepted, in order |
| `SignalQueue.DrainTakesFirstMatches` | src/bot/strategy/signal_strategy.py:162-186 | a bar takes exactly the first min(quota, matching) matching events, mismatches using no quota, and leaves exactly the other matching ones |
| `SignalQueue.InjectionKeepsLosslessExactly` | src/bot/strategy/signal_strategy.py:140-146 | a direct injection keeps the queue lossless if and only if there is room or the event pushed off the front is a mismatch |
| `Strategies.TicksAreNearest` | src/bot/strategy/signal_strategy.py:240-246 | a price distance of a tick or more becomes a tick count within half a tick of it, a shorter one becomes one tick |
| `SignalQueue.UnanchoredSignalNeverOpens` | src/bot/strategy/signal_strategy.py:222-239 | a signal without a limit price or without a stop never gets exposure past the gate |
| `SignalQueue.SignalOrder` | src/bot/strategy/signal_strategy.py:199-247 | the order of a signal: the bot's symbol, the signal's side and quantity, a limit at its price or else at market, and a bracket only with limit and stop, of the ticks nearest to their distances, the target defaulting to the stop |
| `SignalQueue.SignalReachesOneMarket` | src/bot/strategy/signal_strategy.py:190-203 | a signal in a registered contract reaches the bots of that contract's market alone |
| `SignalQueue.RootMatchesItsMarket` | src/bot/strategy/signal_strategy.py:190-203 | a bare root matches, from either side, exactly the contracts of its market |
| `SignalQueue.ShortSignalReachesMany` | src/bot/strategy/signal_strategy.py:190-203 | an empty symbol reaches every bot, and "M" exactly the micros |
| `SignalQueue.OrdersFollowSignals` | src/bot/strategy/signal_strategy.py:154-220 | a bar's orders are its signals' in the order taken, numbered on |
| `SignalQueue.SignalStrategy.Pump` | src/bot/strategy/signal_strategy.py:126-136 | an arrival is appended, or dropped when the queue is full |
| `SignalQueue.SignalStrategy.Inject` | src/bot/strategy/signal_strategy.py:140-146 | an injection is appended, pushing out the oldest event of a full queue |
| `SignalQueue.SignalStrategy.OnBar` | src/bot/strategy/signal_strategy.py:154-186 | the drain loop emits the orders of the events taken, numbered on, and keeps the rest |
| `Continuous.BuildScales` | src/bot/data/continuous.py:158-166 | one for the newest contract, the cumulative scale for each old one; all ones without rolls |
| `Continuous.AppendScaled` | src/bot/data/continuous.py:169-184 | a contract's bars are appended at its scale, untouched at a scale of one |
| `CancelTracker.KeepFrom` | src/bot/risk/cancel_tracker.py:28-29 | the loop keeps exactly the entries from the cutoff on, in order |

## Left out

- Floating point: prices, averages and equity are `real`; `int()`, `round()` and floor division are modelled as they are.
- Time zones: a timestamp carries its instant and its Central-time minute of the day; the trading-day key of a strategy is an input.
- Indicator formulas (bands, RSI, moving averages, ATR): arbitrary inputs of every bar.
- The opening-range strategy, whose day reset forgets an open position, and tiered sizing: they enter only as arbitrary proposed orders.
- Allocator with a suspending market lookup: production passes the plain lookup.
- LiveTradingLoop.LiveTradingLoop.Place: the other bots' steps between two orders of this one enter as the table and the positions it finds; `Fleet` has the steps themselves.
- Fleet.EveryInterleavingKeepsCap: a bot that fails between recording a fill and settling it is not a step of the model, because nothing suspends in between; releases are not steps either, because nothing calls them (`FleetEndings` adds them).
- Overlapping `force_flatten_now` calls from the dashboard: drains are sequential here.
- Broker adapters, journal, telemetry, heartbeats, dashboard, files and configuration loading: I/O; the journal's figures, the schedule's answer and whether broker calls succeed are inputs.
- Fields that only travel (pending intent count, denial texts, metadata, bar interval, broker number text): not kept. Client order ids are kept by their parts.
- Constructors that validate their arguments and raise: modelled by a precondition with the same conditions.
- SimClient.SimExecutionClient.ExecuteFill: raises for an order never placed; here a precondition, which the backtest meets.
- Order of summation over dictionaries: the sums are exact, so the loops may take the keys in any order; which of several unregistered symbols is looked up first is open too.
- Continuous.SortIsStable: the library sort is modelled by insertion; reading and partitioning the files is not modelled.
- TopstepX stage transitions other than failing, and `set_account`: they only replace the account value.
