# Verified model of the futures-trading bot

The bot lets a language model propose futures trades, filters them through a risk engine, executes
them on an exchange adapter and manages the exits of open positions; a backtest engine replays the
same rules over candles. This project models the parts that hold state or do arithmetic and proves
what they promise over every input and every run.

Amounts are exact `real` values. `Decimals` gives the roundings the program applies to them:
`quantize` to 1e-8 (ties to even), ROUND_DOWN, ROUND_UP and ROUND_FLOOR. Failing calls, exchange
timeouts and the outcome of orders are inputs that the theorems quantify over.

| component | modules |
|---|---|
| paper exchange | `CostModels`, `PaperLedger`, `PaperAdapter`, `PaperAnswers`, `PaperConservation`, `PaperMargin`, `AtMostOnce` |
| exits of open positions | `ExitRules`, `ExitMachine`, `TickAnswers`, `PositionManager`, `Protection`, `ExitRuns`, `StopRuns` |
| backtest | `BacktestModel`, `BacktestRun`, `BacktestAnswers`, `BacktestLookahead`, `BacktestLives`, `BacktestSchedule`, `BacktestStaleClose`, `BacktestSlippage`, `BacktestMetrics`, `Validation` |
| emergency stop | `BotStates`, `KillProtocol`, `CycleRunner` |
| risk and execution | `FeeGate`, `RiskEngine`, `LossRatchet`, `Execution`, `ExecutionEngine`, `SimulatorsAgree` |
| retries | `Retry` |

Objects the program mutates are classes (`PaperAdapter.Adapter`, `PositionManager.Manager`,
`BotStates.EmergencyStopService`, `CycleRunner.Runner`, `ExecutionEngine.Engine`,
`Retry.CircuitBreaker`) and loops are methods; their `ensures` tie the new state to a function on
values. What those functions answer is stated once more without them, in prices, rates, states and
indices alone (`TickAnswered`, `EveryCandleAnswered`, `OrderAnswered`, `ExecutionAnswered`,
`CommitsIff`, `PlacedIff`, `GateIff`, `ExecutableIff`), and the remaining theorems are about their runs.

## What the proofs found

Each of these is proved as a lemma named in parentheses, with the exact condition where there is one.

- A non-reduce-only order against a held position overwrites it and its profit is never realized;
  every other order conserves equity (`PaperConservation.OrderConservesUnlessFlip`).
- A plan whose exits need the ATR is executed and then left without exits when the ATR is zero,
  which the volatility schema admits (a candle with equal high and low). So is any entry whose call
  times out after the fill, or returns partly filled or pending and fills later
  (`Execution.ProtectedIff`). The documentation of `execute_approved_plan` promises to fail closed
  before the order, but only a missing ATR does.
- A registered configuration protects its position over every run exactly when it has no take-profit
  levels or one of them closes everything, while close orders that return, and invalidations by
  hand, have filled (`Protection.LevelsProtectIff`). The configuration schema demands neither.
- The manager does not look at the status of a close order that returned, and a full close by hand drops
  the configuration even when its order raises, with no cycle to register it again. With levels
  that end in a full close, a position keeps its exits throughout a run exactly when neither
  happens to an order that does not fill (`Protection.ProtectedThroughoutIff`). The paper adapter
  fills every market order it returns; an exchange may not.
- Take-profit levels already taken become pending again exactly when the order of a full close raises,
  whether it is a stop, a target, the trailing stop, a full invalidation or the last level
  (`Protection.LevelsReviveIff`).
- With any extra latency a requested close can end the position opened after the one it was meant for
  (`BacktestStaleClose.CloseOwnIffPrompt`).
- The backtest's net profit subtracts both slippages twice (`BacktestSlippage.SlippageChargedTwice`).
- The two liquidation thresholds never adjust anything, although their check reports ADJUST_DOWN
  (`RiskEngine.ThresholdsAdjustNothing`), and a long whose estimated liquidation price is zero or
  below, as a long without leverage has, is refused or raises a division by zero
  (`RiskEngine.UnliquidatableLongRefused`).
- The position count comes from the exchange, the last loss from the trades recorded as closed, and
  nothing under backend/, worker/ or scripts/ records a close. Over all runs the loss ratchet
  therefore holds only when no position may open at all; over runs in which every position that
  is gone is recorded as closed before the next proposal, exactly when at most one may be open
  (`LossRatchet.RatchetHoldsIff`, for the leverage of the account and the margin of a symbol).
- A client order id is executed again exactly when its first execution raised, which happens on a
  negative fill price, or on a zero one that would open a position (`AtMostOnce.ExecutesAgainIff`,
  `AtMostOnce.ExecutionRaisesIff`).
- Changing the leverage of a symbol under an open position breaks the recorded margin at the next order
  that resizes it (`PaperMargin.ResizeBackedIff`).
- The kill switch cannot be triggered from MANUAL_PAUSED (`BotStates.KillAcceptedIff`), and every failed
  state read lets one more order through after a kill (`KillProtocol.FailedReadsCost`).
- An open circuit breaker keeps operations away for its timeout exactly when no earlier call is still in
  flight (`Retry.TimeoutHoldsIff`); half-open it admits any number of overlapping calls
  (`Retry.HalfOpenAdmitsAll`), and the jittered delay can exceed the configured maximum
  (`Retry.DelayCappedIff`).

## Model

| member | source | states |
|---|---|---|
| Decimals.Quantize | backend/core/constants.py:12-14 | rounding to eight decimals is at most half a step off and leaves eight-decimal values alone |
| CostModels.EstimateSlippage | backend/core/slippage.py:128-206 | the estimate exists exactly on a positive notional, coherent book, positive reference and non-negative impact |
| CostModels.FillMatchesEstimate | backend/core/slippage.py:181-206 | the simulated market fill is within 1e-8 of the fill the estimator announced for the same book, price and basis points |
| CostModels.EstimateComponentsAddUp | backend/core/slippage.py:181-206 | the rounded total is within 1e-8 of the sum of its rounded components |
| CostModels.EstimateAmounts | backend/core/slippage.py:181-206 | impact costs the basis points of the notional, the spread half its width per unit bought, an order not at market nothing, each to half a step |
| PaperAnswers.FeeRates | backend/backtesting/fee_model.py:46-64 | market and triggered orders pay the taker rate of the notional, limit orders the maker rate, to half a step |
| PaperLedger.PlaceKeepsValid | backend/exchange_adapters/paper_adapter.py:371-482 | every position stays schema-valid through opening, averaging, reducing and overwriting |
| PaperLedger.OrderKeepsRest | backend/exchange_adapters/paper_adapter.py:123-147 | an order touches neither leverage settings nor funding totals, and its id is recorded exactly when it returned |
| PaperAnswers.OrderAnswered | backend/exchange_adapters/paper_adapter.py:123-147 | a known id is answered from the record, an order not at market rests untouched, and a market order that does not raise fills at the book and basis points with its fee, slippage, balance and position in those terms |
| PaperAnswers.CancelAnswered | backend/exchange_adapters/paper_adapter.py:149-173 | a cancel touches one pending order, keeps its identity, and works once |
| PaperAnswers.LeverageAnswered | backend/exchange_adapters/paper_adapter.py:203-210 | a leverage from 1 to 10 is what the symbol reads afterwards, any other changes nothing |
| PaperAdapter.Adapter.PlaceOrder | backend/exchange_adapters/paper_adapter.py:123-147 | the in-place adapter moves the account exactly as the ledger says, raising included |
| PaperAdapter.Adapter.FillMarketOrder | backend/exchange_adapters/paper_adapter.py:294-336 | a market order charges its fee first, then opens, nets or reduces |
| PaperAdapter.Adapter.OpenOrNetPosition | backend/exchange_adapters/paper_adapter.py:371-421 | opening, weighted averaging and overwriting, or a rejection that changes nothing |
| PaperAdapter.Adapter.CloseOrReduce | backend/exchange_adapters/paper_adapter.py:423-482 | closes or reduces in place and realizes the profit of what was closed |
| PaperAdapter.Adapter.Cancel | backend/exchange_adapters/paper_adapter.py:149-173 | true exactly when a pending order was cancelled, all else untouched |
| PaperAdapter.Adapter.ApplyFunding | backend/exchange_adapters/paper_adapter.py:222-260 | the payment returned is what left the balance and entered the symbol's total |
| PaperAdapter.Adapter.SetLeverage | backend/exchange_adapters/paper_adapter.py:203-210 | accepted exactly within 1 to 10, otherwise nothing changes |
| PaperConservation.RunConserves | backend/exchange_adapters/paper_adapter.py:222-482 | over every run and all mark prices, equity is the initial equity plus the value of what was traded, less fees, funding and the profit of overwritten positions |
| PaperConservation.NoFlipsDropsNothing | backend/exchange_adapters/paper_adapter.py:371-421 | without opposite-side orders no position is overwritten, so trades, fees and funding explain the equity |
| PaperConservation.OrderConservesUnlessFlip | backend/exchange_adapters/paper_adapter.py:383-403 | a filled order agrees with a plain cash ledger at all marks exactly when it does not flip a held position |
| PaperConservation.FundingAccumulates | backend/exchange_adapters/paper_adapter.py:222-272 | the reported funding of a symbol is the sum of the payments charged on it during the run |
| PaperMargin.MarginBacksPositions | backend/exchange_adapters/paper_adapter.py:371-482 | with steady leverage every position's margin times leverage is its entry price times quantity, over every run |
| PaperMargin.ResizeBackedIff | backend/exchange_adapters/paper_adapter.py:371-482 | an order that resizes a position keeps its margin on its entry notional exactly when the leverage read is the one it was opened with |
| AtMostOnce.RepeatsChangeNothing | backend/exchange_adapters/paper_adapter.py:123-147 | a run ends in the same account as its first occurrences alone, provided an id that repeats had been accepted before |
| AtMostOnce.PositiveFillAccepted | backend/exchange_adapters/paper_adapter.py:294-336 | an order that fills at a positive price never raises |
| AtMostOnce.ExecutionRaisesIff | backend/exchange_adapters/paper_adapter.py:294-336 | an executed market order raises exactly when it fills below zero, or at zero where that would open a position |
| AtMostOnce.AtMostOneFill | backend/exchange_adapters/paper_adapter.py:123-147 | in any run one client order id is executed at most once without raising, never after that, and at most once at all where its fills are positive |
| AtMostOnce.ExecutesAgainIff | backend/exchange_adapters/paper_adapter.py:123-147 | repeating an executed order, after anything else, executes it again exactly when it had raised |
| AtMostOnce.RetriesFillAtMostOnce | backend/execution/engine.py:131-223 | re-executing an approved plan after successes, timeouts on either side of the fill or rolled-back rows fills at most once |
| ExitRules.SmoothBetween | backend/position_manager/manager.py:576-598 | the smoothed ATR lies in every interval that holds its inputs |
| ExitRules.BreakEvenTightensSafely | backend/position_manager/break_even.py:39-54 | a move to break-even tightens the stop and leaves the current price clear of it |
| ExitRules.ValidMeans | backend/position_manager/schemas.py:134-195 | validation leaves at most one trailing family, a target or levels, a way out, and a break-even short of its trigger |
| ExitRules.BuiltConfigIsValid | backend/position_manager/config_mapper.py:94-126 | with a positive ATR and validated defaults a decision always yields a valid configuration with its own stop, target, distances and a break-even offset of the configured share of the entry, or half the trigger if that is less |
| ExitMachine.TickValid | backend/position_manager/manager.py:300-574 | every tick, failed orders included, leaves schema-valid exits and a valid position |
| TickAnswers.TickAnswered | backend/position_manager/manager.py:300-574 | every tick is answered by the signed distance of the mark from the stop in force, the invalidation, the next level, the target and the trailing stop, in that order, with the order placed and the state kept |
| TickAnswers.NoTriggerIff | backend/position_manager/manager.py:409-574 | at a price that fills a tick takes no exit exactly when none of the five prices is reached |
| TickAnswers.TargetCloses | backend/position_manager/manager.py:514-540 | a reached single target closes everything unless the stop or a due invalidation comes first |
| TickAnswers.HandAnswered | backend/position_manager/manager.py:195-298 | the invalidation by hand orders its share, moves the stop unless the call raised, and is not spent |
| TickAnswers.ServeAnswered | backend/position_manager/tick_service.py:95-143 | a cycle skips, answers or re-registers a symbol, and reports exactly the ticks whose call did not raise |
| PositionManager.Exchange.PlaceClose | backend/position_manager/manager.py:619-662 | a close order executes all, a share or none of its quantity for its symbol alone, whether its call returns or raises |
| PositionManager.Manager.SetConfig | backend/position_manager/manager.py:104-130 | a registration resets every entry of the symbol and no other |
| PositionManager.Manager.RemoveConfig | backend/position_manager/manager.py:151-165 | forgets every entry of the symbol and no other |
| PositionManager.Manager.UpdateSl | backend/position_manager/manager.py:167-172 | replaces the effective stop alone, raising on an unknown symbol |
| PositionManager.Manager.UpdateTp | backend/position_manager/manager.py:174-193 | discards the pending levels for one target, raising on an unknown symbol |
| PositionManager.Manager.UpdateSmoothedAtr | backend/position_manager/manager.py:576-598 | a non-positive reading is ignored, the first accepted one seeds the average |
| PositionManager.Manager.UpdateTrailing | backend/position_manager/manager.py:351-386 | high-water mark, smoothed ATR and stop are updated as the one-symbol machine says |
| PositionManager.Manager.ApplyInvalidation | backend/position_manager/manager.py:219-298 | the stop move, partial or full close and the single automatic firing, with the configuration dropped on a full close |
| PositionManager.Manager.TriggerSetupInvalidation | backend/position_manager/manager.py:195-217 | the manual form acts only with configuration, action and position |
| PositionManager.Manager.Tick | backend/position_manager/manager.py:300-574 | one tick on the dictionaries is one step of the one-symbol machine and leaves all other symbols alone |
| PositionManager.ServeSymbol | backend/position_manager/tick_service.py:95-143 | a symbol without a price is skipped and one orphaned by a failure is registered again |
| PositionManager.TickAll | backend/position_manager/tick_service.py:88-156 | one cycle serves every configured symbol independently and reports those whose tick did not raise |
| Protection.ProtectionNeverLost | backend/position_manager/tick_service.py:95-143 | over any cycles, price failures, raising orders, updates, filled invalidations by hand and outside closes an open position keeps its exits, provided level lists are empty or contain a full close and close orders of cycles that return have filled |
| Protection.LevelsProtectIff | backend/position_manager/manager.py:466-513 | while returned orders and invalidations by hand have filled, a registered configuration protects its position over every run exactly when it has no levels or one of them closes everything |
| Protection.BaredIff | backend/position_manager/manager.py:409-560 | a cycle bares a position exactly when its exit dropped the configuration for an order that returned and was short or not for everything |
| Protection.HandBaredIff | backend/position_manager/manager.py:195-260 | an invalidation by hand bares a position exactly when it is a full close whose order did not fill, raised or returned |
| Protection.ProtectedThroughoutIff | backend/position_manager/manager.py:195-260 | with levels that end in a full close, exits are kept throughout a run exactly when no cycle dropped a configuration for an order that returned short and no full close by hand failed to fill |
| Protection.CycleSafeIff | backend/position_manager/manager.py:480-491 | while returned orders have filled, a cycle is safe for every price and failure exactly when no single pending level closes less than everything |
| Protection.LevelsReviveIff | backend/position_manager/tick_service.py:119-143 | taken levels become pending again exactly when the exit was a full close whose order raised, and then the whole original configuration is registered |
| Protection.FailedLastLevelRevivesAll | backend/position_manager/tick_service.py:119-143 | the last level is such a close: at some price its failure brings back every level |
| ExitRuns.LevelsTakenInOrder | backend/position_manager/manager.py:466-513 | the levels taken by orders that returned are a prefix of those pending and the rest stays pending: none skipped, repeated or lost to an order that raised |
| ExitRuns.QuantityClosedForm | backend/position_manager/manager.py:466-513 | while orders fill exactly when they return, the position is its start times one minus each fraction taken, times what an invalidation spared |
| ExitRuns.QuantityThroughLastLevel | backend/position_manager/manager.py:480-513 | the same product over all pending levels once the last one is taken |
| ExitRuns.InvalidatesAtMostOnce | backend/position_manager/manager.py:436-464 | between registrations automatic invalidation applies at most once |
| StopRuns.ExtremeIsBest | backend/position_manager/trailing.py:20-34 | the running extreme is one of the marks and none lies beyond it |
| StopRuns.HighWaterIsExtreme | backend/position_manager/manager.py:351-386 | the high-water mark is the extreme of every mark since registration |
| StopRuns.StaticStopRatchets | backend/position_manager/trailing.py:37-79 | FIXED, PERCENT and snapshot-ATR stops never move against the position over any run |
| StopRuns.RegisteredStopRatchets | backend/position_manager/manager.py:351-386 | from any registration on, the static stop exists after the first tick and every later one is as tight |
| StopRuns.NewExtremeNeverFires | backend/position_manager/manager.py:542-560 | a tick that sets a new extreme never fires the trailing stop, in any mode |
| StopRuns.SmoothedAtrBounded | backend/position_manager/manager.py:576-598 | over every run the smoothed ATR stays between the bounds of its seed and accepted readings |
| StopRuns.BreakEvenNeverFiresAtOnce | backend/position_manager/manager.py:388-421 | the tick that moves the stop to break-even never closes on it |
| StopRuns.StopLossRatchets | backend/position_manager/manager.py:388-407 | unless an invalidation names a stop, the effective stop only tightens over any run |
| StopRuns.ReachedStopCloses | backend/position_manager/manager.py:409-434 | a price at or through the stored stop always leads to its full close, whatever else the tick would do, and empties the position when the order fills |
| StopRuns.ReachedTrailingStopActs | backend/position_manager/manager.py:542-560 | a price through a static trailing stop never leaves a tick without an exit |
| BacktestRun.RunLoop | backend/backtesting/engine.py:117-246 | the loop with its slots computes the fold of the step function, or raises with it |
| BacktestRun.ProcessCandle | backend/backtesting/engine.py:152-229 | one pass of the body is one step: fill, close, exits, funding, signal |
| BacktestRun.CheckSlTp | backend/backtesting/engine.py:318-397 | the stop wins over targets, one level per candle, and the rest of the position is returned |
| BacktestAnswers.EveryCandleAnswered | backend/backtesting/engine.py:152-229 | every candle of every run fills or drops a due entry, takes exactly the exit its prices call for at that exit's price and charge, charges funding on what stays open, and schedules the signal heard; a run ends early exactly at a due entry that cannot open |
| BacktestAnswers.RunEndsAnswered | backend/backtesting/engine.py:231-246 | what is open after the last candle is closed at its close by a limit order |
| BacktestAnswers.TradesArePriced | backend/backtesting/engine.py:318-397 | every trade of every run entered at its signal's fill and exited at the price its reason stands for, which its candle reached; a target only where the stop was not reached |
| BacktestLookahead.NoLookahead | backend/backtesting/engine.py:152-229 | runs whose candles agree up to k, with strategies that agree on the past, are in the same state after k steps |
| BacktestLookahead.HistoryIsPast | backend/backtesting/engine.py:215-229 | what the strategy sees at a candle is exactly the candles before it |
| BacktestLookahead.PrefixRunsAgree | backend/backtesting/engine.py:117-246 | the trades of a prefix run, without its forced close, are a prefix of the whole run's |
| BacktestLives.LevelKeepsRunning | backend/backtesting/engine.py:463-555 | a partial close keeps quantities exact and every attributed cost within one step |
| BacktestLives.CloseFinishes | backend/backtesting/engine.py:399-461 | a whole close leaves nothing owed: quantities sum to the opened one and costs drift at most 1e-8 per partial close |
| BacktestLives.AccrualKeepsRunning | backend/backtesting/engine.py:203-210 | funding charged to a position is due from it, to the unit |
| BacktestLives.NetIsExact | backend/backtesting/engine.py:425-432 | the net profit loses nothing to its rounding |
| BacktestSchedule.EveryStateInOrder | backend/backtesting/engine.py:152-229 | before every candle: no pending entry beside an open position, lives disjoint and in order, trades are theirs |
| BacktestSchedule.RunsAreComplete | backend/backtesting/engine.py:146-246 | every fill comes exactly one plus the extra candles after its signal, lives are disjoint, and each ends in exactly one whole close with balanced accounts |
| BacktestStaleClose.LateCloseHitsNext | backend/backtesting/engine.py:175-187 | for every extra latency a run on schema-valid inputs exists in which a close ends the position opened after it was asked for |
| BacktestStaleClose.CloseOwnIffPrompt | backend/backtesting/engine.py:175-220 | every run, and every run on schema-valid inputs, closes only what was open when asked exactly when there is no extra latency |
| BacktestSlippage.FillNeverBetter | backend/backtesting/slippage_model.py:33-66 | slippage never improves a fill on an eight-decimal price |
| BacktestSlippage.SlippageChargedTwice | backend/backtesting/engine.py:414-432 | a round trip nets the reference profit less fees and funding less twice the slippage of both fills, up to three half-steps |
| BacktestMetrics.TotalsReconcile | backend/backtesting/metrics.py:44-77 | in every run total net is exactly gross less fees, slippage and funding, every total is the exact sum, and so is the final balance |
| BacktestMetrics.PeakIsMax | backend/backtesting/metrics.py:95-112 | the running peak is the greatest equity so far and is attained |
| BacktestMetrics.DrawdownMeans | backend/backtesting/metrics.py:95-112 | a drawdown is the share of the peak that the equity has lost, never negative |
| BacktestMetrics.MaxDrawdown | backend/backtesting/metrics.py:95-112 | the loop finds the deepest relative fall from the running peak |
| Validation.NoParameterSnooping | backend/backtesting/validation.py:63-119 | passes exactly when every training timestamp precedes every evaluation timestamp |
| Validation.SplitDataset | backend/backtesting/validation.py:128-163 | two non-empty parts that concatenate to the data, cut at the last candle within the ratio unless a side would be empty, or an error exactly on a bad ratio or fewer than two candles |
| Validation.WalkForwardSplits | backend/backtesting/validation.py:166-228 | expanding folds with non-empty contiguous tests that end at the data's end, or an error exactly on impossible parameters |
| Validation.TestsPartition | backend/backtesting/validation.py:196-219 | the test windows together are exactly the data after the first training window |
| Validation.FoldsNeverSnoop | backend/backtesting/validation.py:63-219 | on chronological data every fold and every split passes the snooping check |
| BotStates.Machine.TransitionTo | backend/trading_core/bot_state_machine.py:81-98 | moves exactly along the transition table, otherwise raises and stays |
| BotStates.EmergencyStopService.Trigger | backend/trading_core/emergency_stop.py:89-191 | one locked step decides on the persisted state, appends at most one row, and moves the caller's memory only after the commit |
| BotStates.CommitsIff | backend/trading_core/emergency_stop.py:125-181 | a trigger commits exactly on a running run whose readable state the caller accepts and the target may follow, writing one row, and otherwise writes nothing |
| KillProtocol.EveryInterleavingOk | backend/trading_core/cycle_runner.py:171-234 | over all interleavings persisted states form allowed transitions and the worker's memory is a state of the log, never ahead and never going back |
| KillProtocol.RunsFromStartOk | backend/trading_core/cycle_runner.py:164-234 | every interleaving of a bot run from its start keeps those invariants |
| KillProtocol.KillIsNotOverwritten | backend/trading_core/emergency_stop.py:125-181 | the row after a committed kill is HALTED, never SAFE_MODE |
| KillProtocol.WorkerStopsOnlyActive | backend/trading_core/emergency_stop.py:152-155 | in every interleaving the worker's SAFE_MODE step adds one row exactly when it believes the bot ACTIVE between symbols and the log of a running bot says so, and otherwise nothing |
| KillProtocol.KillTakesEffect | backend/trading_core/emergency_stop.py:125-181 | in every interleaving a kill of a running bot not paused by hand commits, and the worker's next successful read stops it before another symbol |
| KillProtocol.OrdersAfterStop | backend/trading_core/cycle_runner.py:346-376 | once the log says stopped at most the order in progress follows, plus one per failed state read |
| KillProtocol.FailedReadsCost | backend/trading_core/cycle_runner.py:189-234 | the bound is attained: n failed reads let n orders through |
| CycleRunner.LimitHoldsWithinTick | backend/trading_core/cycle_runner.py:344-376 | the count read at tick start plus every entry that may have left exposure never passes the limit, and an unreliable count places nothing |
| CycleRunner.PlacedIff | backend/trading_core/cycle_runner.py:344-376 | the entries of a tick are exactly the turns that are ACTIVE after their own read and never told to stop, verified, with a proposal and room by a reliable count, in order and each with its own proposal |
| CycleRunner.MemoryIsLastTold | backend/trading_core/cycle_runner.py:189-234 | the memory at a turn is what the last telling state read said, or the initial one |
| CycleRunner.StopEndsTick | backend/trading_core/cycle_runner.py:346-354 | after a state read that stops the bot no later symbol places an entry |
| CycleRunner.KillEndsTick | backend/trading_core/cycle_runner.py:346-354 | a kill visible from a turn on leaves only the entries placed before it |
| CycleRunner.Runner.SyncStateFromDb | backend/trading_core/cycle_runner.py:189-234 | failed reads, missing rows and unknown strings leave the memory alone |
| CycleRunner.Runner.ExecuteCounted | backend/trading_core/cycle_runner.py:593-616 | an attempt is counted unless its order is dead with nothing filled |
| CycleRunner.Runner.RunDecisionPipeline | backend/trading_core/cycle_runner.py:293-376 | the loop places the entries of the reference definition and its counter equals their exposure |
| FeeGate.EstimateFees | backend/core/fees.py:114-193 | an estimate exists exactly on a positive notional and prices coherent with the side |
| FeeGate.GateIff | backend/core/fees.py:151-193 | a plan passes exactly with sound prices and a ratio after fees, in prices and rates, whose four-decimal floor reaches the minimum |
| FeeGate.EstimateIs | backend/core/fees.py:151-193 | each fee is its own notional at its own rate rounded up by less than a step, and both ratios are the floors of those of the prices |
| FeeGate.NetBelowGross | backend/core/fees.py:167-193 | the net risk/reward never exceeds the gross one |
| FeeGate.VerdictIgnoresNotional | backend/core/fees.py:163-193 | the gate's verdict is the same for every notional |
| FeeGate.PassIsExact | backend/risk_engine/checks.py:783-803 | a pass means the exact, unrounded ratio reaches the minimum |
| FeeGate.CheaperIsBetter | backend/core/fees.py:167-193 | lowering fee rates never lowers the exact net ratio |
| FeeGate.CheaperNeverBlocks | backend/risk_engine/checks.py:783-803 | lowering fee rates never turns a pass into a block, for any minimum |
| RiskEngine.ExecutableIff | backend/risk_engine/engine.py:124-249 | a well-formed proposal trades exactly when every rule, stated in its own terms, permits it |
| RiskEngine.RaisedIff | backend/risk_engine/engine.py:124-249 | a validation raises exactly at a liquidation price of zero, on broken recorded trades, or when only the caps leave nothing to trade with |
| RiskEngine.DefencesHold | backend/risk_engine/engine.py:128-147 | for any decision at all, only one not to be executed is passed on as such, and one that trades has entry, stop and target |
| RiskEngine.ExecutedWithinCaps | backend/risk_engine/adjustments.py:16-28 | executed margin and leverage are positive, at most the proposal, the caps and the hard limits, and changed only to a cap |
| RiskEngine.NotionalWithinApproval | backend/execution/engine.py:266-271 | quantity times entry never exceeds margin times leverage and falls short by less than one step of quantity |
| RiskEngine.StopBeforeLiquidation | backend/risk_engine/checks.py:318-459 | the stop of an executed order lies between entry and estimated liquidation |
| RiskEngine.FeeGateSurvivesAdjustment | backend/trading_core/cycle_runner.py:484-505 | the trade at its executed margin and leverage still clears the fee gate, and does so exactly |
| RiskEngine.LiquidationFinding | backend/risk_engine/checks.py:318-459 | up to ADJUST_DOWN the check is its flags, except that a long that cannot be liquidated is blocked or raises |
| RiskEngine.ThresholdsAdjustNothing | backend/risk_engine/engine.py:180-211 | changing the liquidation thresholds changes no verdict outside that exception |
| RiskEngine.UnliquidatableLongRefused | backend/risk_engine/checks.py:412-459 | such a long never trades, and at exactly 100 percent distance the validation raises |
| LossRatchet.ApprovalIsDisciplined | backend/risk_engine/checks.py:504-696 | an approved trade raises neither leverage nor margin over the last trades recorded as closed when those lost |
| LossRatchet.EveryTradeDisciplined | backend/trading_core/cycle_runner.py:508-540 | every trade of every run obeyed both rules against the closes recorded when it opened, and the exchange never holds more positions than the limit |
| LossRatchet.CapOfOneSerializes | backend/risk_engine/checks.py:274-315 | with a limit of at most one, and every vanished position recorded as closed before the next proposal, each trade opens after the one before it closed |
| LossRatchet.LossesNeverEscalate | backend/risk_engine/checks.py:504-696 | under the same two premises executed leverage never rises through consecutive account losses, nor margin through a symbol's |
| LossRatchet.RatchetHoldsIff | backend/risk_engine/checks.py:504-696 | over all runs and all other limits neither leverage nor margin escalates exactly when the position limit is at most zero; over the runs whose vanished positions are recorded as closed before the next proposal, exactly when it is at most one |
| LossRatchet.OverlapEscalates | backend/risk_engine/checks.py:504-696 | for every limit of two or more a run with timely records exists in which both leverage and margin rise through consecutive losses |
| LossRatchet.UnrecordedEscalates | backend/storage/repositories/trades.py:45-76 | for every limit of one or more a run exists in which they rise because the first loss was not recorded when its position vanished |
| Execution.Request | backend/execution/engine.py:266-298 | the order built from a plan is valid and priced, and refused exactly when the approved notional buys less than one step of quantity |
| Execution.RequestIs | backend/execution/engine.py:274-298 | the order carries the plan's own id, symbol, side, entry price and book, market or limit as planned, and the largest quantity the approved notional buys |
| Execution.ExecutionAnswered | backend/execution/engine.py:95-227 | a recorded plan is replayed and a refusable one refused without a trace; any other sets its leverage, is recorded once it rests or opens, and registers its own stop and target exactly when it opens |
| Execution.ExecutedOnce | backend/execution/engine.py:131-138 | what is on record is only replayed |
| Execution.LimitPlanRests | backend/execution/engine.py:186-202 | a limit plan leaves a pending order and neither a position nor a payment |
| Execution.OffsetFollowsFill | backend/execution/engine.py:421-434 | the registered break-even offset is a share of the fill, not of the planned price |
| Execution.AttemptIsExecution | backend/execution/engine.py:95-227 | the attempts of the retry model leave the account, and where they complete the record, of an execution |
| Execution.SizeWithinEveryCap | backend/execution/engine.py:186-193 | an order sized from a verdict commands at most the proposal's notional, the caps' and 100 USDT |
| Execution.ProtectedIff | backend/execution/engine.py:172-223 | an execution on a flat symbol leaves no bare position exactly when it timed out before the fill, or returned its fill in time with the ATR its exits need; partial, later and timed-out fills leave it bare |
| Execution.OpenedStaysProtected | backend/execution/engine.py:215-223 | from a completed execution on the position keeps its exits through every later cycle, price failure and raising order, while close orders that return and invalidations by hand have filled |
| Execution.PaperCloseIsShrink | backend/exchange_adapters/paper_adapter.py:423-482 | a reduce-only order on the paper ledger does what the exit machine assumes of its exchange |
| ExecutionEngine.Engine.ExecuteApprovedPlan | backend/execution/engine.py:95-227 | the in-place engine replays, refuses, raises or opens with the desk the value model says |
| SimulatorsAgree.FundingAgrees | backend/backtesting/engine.py:557-572 | the backtest charges the paper adapter's funding payment, rounded |
| SimulatorsAgree.ClosesAgree | backend/backtesting/engine.py:399-424 | both close a position at the same fill, fee and slippage, and the paper balance moves by the backtest's gross less the fee to within half a step |
| SimulatorsAgree.OpeningIsSized | backend/backtesting/engine.py:285-316 | a backtest position is worth margin times leverage times fill ratio up to the rounding of its quantity |
| Retry.CircuitBreaker.BeforeCall | backend/core/retry.py:66-74 | refuses exactly inside the timeout of an opening, else admits and turns half-open |
| Retry.CircuitBreaker.OnFailure | backend/core/retry.py:81-87 | counts the failure and opens on a failed probe or at the threshold |
| Retry.AlwaysConsistentIff | backend/core/retry.py:60-87 | in every interleaving not-closed means threshold reached means opening time set, exactly when the threshold is at least one |
| Retry.HalfOpenAdmitsAll | backend/core/retry.py:66-74 | any number of overlapping probes pass a half-open breaker |
| Retry.TimeoutHoldsIff | backend/core/retry.py:66-87 | no interleaving of events inside the timeout of an opening starts an operation exactly when no call is in flight |
| Retry.TimeoutIsRespected | backend/core/retry.py:66-87 | under serial use no operation starts within the timeout of an opening |
| Retry.OneProbeDecides | backend/core/retry.py:66-87 | under serial use the first operation after an opening is the first to start once the timeout is over, and it closes the breaker or opens it anew |
| Retry.DelayCappedIff | backend/core/retry.py:90-103 | every possible delay respects the maximum exactly when there is no jitter or the largest draw still fits |
| Retry.BackoffDoubles | backend/core/retry.py:90-103 | the delay before jitter starts at the base and doubles up to the maximum |
| Retry.DelayAnswers | backend/core/retry.py:90-103 | a delay the server asked for is kept up to the maximum, any other strays from the backoff by its draw |
| Retry.RetrySync | backend/core/retry.py:141-172 | the loop ends as the recursive definition says, with the delays of the failed attempts |
| Retry.RetryOutcome | backend/core/retry.py:141-172 | at most the allowed operations run, all but the last fail retryably, the last decides, and the breaker is left as a serial use leaves it |
| Retry.BurstIsCutShort | backend/core/retry.py:141-172 | a failing burst runs exactly up to the threshold, then the caller gets the breaker's refusal |

## Left out

- The 28-digit decimal context, UUIDs, timestamps, logs and audit events: amounts are exact, orders carry opaque ids.
- Exchange clients, HTTP routes, frontend, migrations and database repositories: persisted rows are sequences or sets, the row lock is step atomicity.
- Prompt building, the model's answer, quant signals, regimes and aggregation: a proposal is an input.
- Login throttle, token budget, password hashing and the reconciliation engine; the reconciliation gate and connection monitor appear only as SAFE_MODE triggers.
- Sharpe, Sortino, profit factor and expectancy: square roots and one-line ratios.
- A close order that returned PENDING and fills later: its position only appears closed elsewhere.
- Orphaned threads after a timeout: a timeout is a failure before or after the fill.
- `get_account_state`, snapshots, order listing and margin type of the adapter, the invalidation callback and event, the leverage cap's choice by environment (one number here).
- Manager.Tick: the book passed to close orders is not modelled; its only effect is the fill price.
- TickAll: reports are a map by symbol instead of a list in serving order.
- KillProtocol.OrdersAfterStop: the worker's outer loop may interleave more freely here than in the program, which only strengthens the bound.
- RetrySync: the asynchronous form has the same body; the operation's outcomes and times are given as a sequence.
- CheckSlTp: candle volume and timestamp validation of the schemas are not modelled.
- Delay and breaker times are exact reals instead of floats; so are the floats of the risk engine.
