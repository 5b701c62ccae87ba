# Crypto trading bot: verified model of the trading decision path

This project models the decision core of a crypto-trading bot written in Python, and proves properties of that model in Dafny. One Dafny module stands for each source file:

- **Strategies** (`strategies.dfy`, from `core/strategies.py`): the five signal rules and `min_data_points`. These are RSI, MACD, Bollinger bands, moving-average crossover and grid trading. The module also has the base-class helpers and the strategy factory.
- **RiskManagement** (`risk_management.dfy`, from `core/risk_management.py`):
  - the trade gate and its four checks;
  - value at risk, over the constants of `RISK_RULES`;
  - the risk score, risk level and maximum position size;
  - the stop-loss and take-profit tables, and the volatility factor.

  `assess_risk` and `adjust_position_size` appear twice: once as their bodies intend, and once as they behave as written. Both call helpers that do not exist, so as written they always take their exception paths.
- **Engine** (`trading_engine.dfy`, from `core/trading_engine.py`): class `TradingEngine`. It has the bot status, the counters, the start and current balance, the session record, and `active_strategies` as a map from the integer strategy id to an entry. The entry holds the strategy, its type, parameters, symbol, last signal and active positions. It also has the user's position table, whose rows carry the Portfolio record's fields, and the trade log. The methods cover:
  - the lifecycle;
  - adding and removing strategies;
  - one processing step per strategy and signal execution;
  - filled-order bookkeeping and the position update;
  - portfolio revaluation, the pause predicate, the status report;
  - one pass of the trading loop.

  Venue and database results are method inputs.
- **TradingRoutes** (`trading_routes.dfy`, from `api/routes/trading.py`):
  - the strategy validators (create, update, delete);
  - class `BotRegistry`, the module-level `active_engines` map, with the start, stop, pause, resume, status and signals endpoints.
- **PortfolioRoutes** (`portfolio_routes.dfy`, from `api/routes/portfolio.py`):
  - overview totals and shares, and the sort orders;
  - concentration bands, the diversification score, volatility and value at risk;
  - risk recommendations and rebalance suggestions.
- **HistoryRoutes** (`history_routes.dfy`, from `api/routes/history.py`):
  - the side filter and pagination, and the timeframe mapping;
  - the trading summary with its per-symbol and per-strategy aggregation;
  - the trade-size distribution, and the bot-session details with the cumulative P&L timeline.

Three support modules sit beside them:

- `wrappers.dfy` has `Option`, `Result` and `Outcome`. `Outcome` is "returned a value" or "raised".
- `records.dfy` has the Portfolio and Trade records of `core/database.py`, plus the sums and lookups over them.
- `sorting.dfy` has a stable descending insertion sort. It stands for Python's `list.sort(key=..., reverse=True)`.

Python floats are modelled as Dafny `real`. A Python exception that the source catches is its own modelled path: a division by zero, a missing key, a call to a missing method. One example is the `Outcome.Raised` input of `Engine.TradingEngine.Start`. Another is the `...AsWritten` functions of the risk manager.

Facts of the source that the model keeps:

- **Grid never trades (over exact reals).** A grid signal never fires for a positive price and spacing. In exact arithmetic the nearest `linspace` level below or above the close is at least `price·spacing/2` away, so the strict half-spacing proximity tests never pass (`Strategies.GridNeverTrades`). This holds for the model's exact reals only; see the floating-point line under "Left out".
- **Positions are sized 0.0.** `signal.symbol` is not a field of `TradingSignal`, so `_calculate_position_size` always raises and returns 0.0 (`Engine.PositionSizeAsWritten`, `Engine.SizingDefectZeroesOrders`). Every trade the engine records therefore has quantity 0 and value 0 (`Engine.ExecutedTradesAreEmpty`, `Engine.Processed`, `Engine.CycleTradesAreEmpty`).
- **`remove_strategy` never removes.** It looks up `str(strategy_id)` in a dictionary keyed by `int` (`Engine.StrKeyNeverPresent`, `Engine.TradingEngine.RemoveStrategy`). For the same reason `delete_strategy`'s "active strategy" refusal never fires (`TradingRoutes.BotRegistry.DeleteNeverRefused`).
- **VaR blocks funded portfolios.** Value at risk is in currency units but is compared with the fraction 0.02, so every portfolio worth at least 1 is refused every trade (`RiskManagement.FundedPortfolioBlocksEveryTrade`).

## Model

| member | source | states |
|---|---|---|
| Records.NetFlowAppend | core/trading_engine.py:450-453 | the signed daily flow (SELL +value, BUY −value) of two concatenated trade lists is the sum of their flows |
| Records.NetFlowOfBuys | core/trading_engine.py:450-453 | a day of BUY trades only has daily P&L equal to minus its traded volume |
| Records.VolumeSnoc | api/routes/history.py:157 | appending one trade adds exactly its total value to the traded volume |
| Records.TotalValueNonNegative | api/routes/portfolio.py:24 | the portfolio total is non-negative when every position value is |
| Records.FindSymbol | core/trading_engine.py:373-376 | the query `.first()` for a symbol finds the first row with that symbol, and finds none exactly when no row carries it |
| Records.LookupAt | core/trading_engine.py:373-376 | with distinct symbols per user, looking up a row's symbol finds that very row |
| Records.Digits | core/trading_engine.py:148 | `str` of a natural number is a non-empty run of decimal digits with no leading zero |
| Records.DecimalString | core/trading_engine.py:148 | `str(strategy_id)` is digits for a non-negative id, and a minus sign followed by digits for a negative one |
| Records.DigitsRoundTrip | core/trading_engine.py:148 | reading back the digits of a natural number gives the number |
| Records.DecimalRoundTrip | core/trading_engine.py:148 | `int(str(n)) == n` for every integer |
| Records.DecimalStringInjective | core/trading_engine.py:148 | distinct ids have distinct strings |
| Sorting.Insert | api/routes/portfolio.py:58 | inserting into the ordered list adds exactly one element and keeps the others |
| Sorting.SortDesc | api/routes/portfolio.py:58 | the sort returns a permutation of its input |
| Sorting.InsertSorted | api/routes/portfolio.py:58 | inserting into a list sorted by descending key keeps it sorted |
| Sorting.SortDescCorrect | api/routes/portfolio.py:58 | `sort(key, reverse=True)` returns a permutation of the input sorted by descending key |
| Sorting.InsertWithKey | api/routes/portfolio.py:58 | among the elements of one key, the inserted element comes first and the others keep their order |
| Sorting.SortDescStable | api/routes/portfolio.py:58 | the sort is stable: the elements of each key come out in their input order |
| Strategies.GetPositionSize | core/strategies.py:96-98 | the base position size lies between 0 and the portfolio value for a risk fraction in [0,1], and is 0 for zero risk |
| Strategies.Ratio | core/strategies.py:123 | a ratio over a positive denominator is positive for positive numerators and non-negative for non-negative ones |
| Strategies.RsiSignal | core/strategies.py:110-146 | too few bars give the empty HOLD; otherwise BUY iff rsi < oversold, SELL iff not BUY and rsi > overbought; a non-HOLD confidence is in (0,1]; the price is the last close |
| Strategies.MacdSignal | core/strategies.py:158-222 | too few bars give the empty HOLD; otherwise BUY iff MACD crosses above its signal line, SELL iff it crosses below; a zero current MACD gives confidence 0.5 |
| Strategies.BollingerSignal | core/strategies.py:233-293 | too few bars give the empty HOLD; BUY iff close ≤ lower band, checked before SELL iff close ≥ upper band; band confidence is in [0.5,1] for a positive close |
| Strategies.MaCrossoverSignal | core/strategies.py:304-355 | too few bars give the empty HOLD; BUY iff the fast average crosses above the slow one, SELL iff it crosses below; confidence in (0,1] |
| Strategies.Linspace | core/strategies.py:374-379 | `linspace(start, stop, num)` yields exactly `num` levels, the first one `start` |
| Strategies.LinspaceAscending | core/strategies.py:374-379 | levels from `start` up to `stop ≥ start` ascend |
| Strategies.GridPrices | core/strategies.py:373-379 | the grid has `grid_levels` levels, ascending for a non-negative price, spacing and level count |
| Strategies.Below | core/strategies.py:382 | the levels kept below the price are exactly the grid levels strictly under it |
| Strategies.BelowAscends | core/strategies.py:382 | the kept levels of an ascending grid ascend |
| Strategies.Above | core/strategies.py:383 | the levels kept above the price are exactly the grid levels strictly over it |
| Strategies.AboveAscends | core/strategies.py:383 | the kept levels of an ascending grid ascend |
| Strategies.NearestLevels | core/strategies.py:385-405 | on ascending levels, the last level below the price is the largest one below it, and the first level above the smallest one above it |
| Strategies.GridTestsUseNearestLevels | core/strategies.py:373-405 | the grid ascends, so `buy_levels[-1]` and `sell_levels[0]` are the levels nearest the close from below and from above |
| Strategies.GridSignal | core/strategies.py:366-421 | too few bars give the empty HOLD; a fractional or negative level count makes `linspace` raise (Err) exactly then; a fired test has confidence 0.7 at the close price |
| Strategies.GridDecision | core/strategies.py:381-421 | whenever a grid test fires, the signal has confidence 0.7 at the close price |
| Strategies.CalculateSignal | core/strategies.py:92-421 | dispatch to the variant: too few bars give the empty HOLD, every signal is well formed, only the grid can raise |
| Strategies.GridLevelAt | core/strategies.py:374-379 | the k-th grid level is `close − close·spacing·n/2 + k·step` with `step = close·spacing·n/(n−1)` |
| Strategies.GridLevelOffset | core/strategies.py:374-379 | the k-th level's offset from the close is `(2k − (n−1))` half steps, and a step exceeds `close·spacing` |
| Strategies.GridLevelFar | core/strategies.py:374-379 | every grid level other than the close lies at least `close·spacing/2` away from it |
| Strategies.HalfSteps | core/strategies.py:374-379 | a non-zero multiple of half a step is at least half a step in size |
| Strategies.GridTestsFail | core/strategies.py:385-419 | over exact reals, the strict tests `distance < close·spacing·0.5` to the nearest level below and above never pass, so the grid decision is HOLD |
| Strategies.GridNeverTrades | core/strategies.py:366-421 | over exact reals, a grid strategy with positive spacing never emits BUY or SELL for a positive price |
| Strategies.RsiExample | core/strategies.py:121-146 | the default RSI strategy with rsi 20 buys with confidence 1/3, and with rsi 50 holds |
| Strategies.CreateStrategy | core/strategies.py:428-446 | the factory builds exactly the five listed identifiers and raises "Unknown strategy type" for any other |
| Strategies.DefaultsFitEngineHistory | core/strategies.py:83 | every strategy built with default parameters accepts a history of at least 100 bars |
| RiskManagement.ValueAtRisk | core/risk_management.py:324-343 | VaR is 0 for an empty portfolio, positive for a positive one, and above `max_portfolio_risk` once the portfolio is worth at least 1 |
| RiskManagement.NoCorrelatedPositionMeans | core/risk_management.py:236-243 | the early-exit correlation search passes iff no other held symbol's correlation exceeds the 0.7 limit |
| RiskManagement.CheckTradeAllowedReduces | core/risk_management.py:42-73 | with the stub inputs (empty correlation matrix, volatility 0.3), the trade gate passes iff the basic limits and the concentration check both pass |
| RiskManagement.FundedPortfolioBlocksEveryTrade | core/risk_management.py:181-200 | VaR in currency compared with the fraction 0.02 refuses every trade once the portfolio is worth at least 1 |
| RiskManagement.EmptyPortfolioGate | core/risk_management.py:42-73 | with no positions the gate passes iff today's signed P&L is non-negative |
| RiskManagement.EmptyMetricsPass | core/risk_management.py:181-200 | missing keys read as 0, and the basic limits pass on empty metrics |
| RiskManagement.OverallRiskScore | core/risk_management.py:345-361 | the score is `0.4c + 0.3m + 0.3r` clamped into [0,1] |
| RiskManagement.LevelOfMonotone | core/risk_management.py:142-148 | a higher score never gives a lower risk level |
| RiskManagement.MaxPositionSizeFor | core/risk_management.py:151 | the maximum size lies between 0 and 10 % of a non-negative portfolio, and is 0 at score 1 |
| RiskManagement.StopLossPercentage | core/risk_management.py:363-370 | stop-loss percentages are strictly between 0 and 1 |
| RiskManagement.TakeProfitPercentage | core/risk_management.py:372-379 | take-profit percentages are positive |
| RiskManagement.PercentagesIncrease | core/risk_management.py:363-379 | both tables strictly increase from LOW to MEDIUM to HIGH |
| RiskManagement.ExitPricesBracket | core/risk_management.py:153-156 | for a positive price, stop-loss price < price < take-profit price |
| RiskManagement.VolatilityFactor | core/risk_management.py:441-456 | the volatility factor is in [0.5,1] |
| RiskManagement.VolatilityFactorAntitone | core/risk_management.py:441-456 | higher volatility never gives a larger factor |
| RiskManagement.LevelMultiplier | core/risk_management.py:84-88 | the risk-level multiplier is in [0.5,1] |
| RiskManagement.Flag | core/risk_management.py:119-135 | a raised risk factor adds exactly its factor, and one advice line per factor |
| RiskManagement.AssessRisk | core/risk_management.py:109-166 | the intended assessment: score in [0,1], level from the score, max size within 10 % of value, stop < price < take profit, and each risk factor listed iff its threshold is crossed |
| RiskManagement.AssessRiskAsWritten | core/risk_management.py:109-179 | as written (missing market-risk helper) every call lands on the fallback: score 0.8, level HIGH, max size 0, both prices 0, the error factor and "Contact support" |
| RiskManagement.AssessRiskAsWrittenDiffers | core/risk_management.py:109-179 | on a funded portfolio whose weighted risk is under 0.3 the intended assessment is LOW with a positive max size, while the written one is HIGH with max size 0 |
| RiskManagement.QuietMarketIsLow | core/risk_management.py:109-179 | an empty portfolio in a quiet market assesses as LOW as intended and as HIGH as written |
| RiskManagement.AdjustPositionSize | core/risk_management.py:75-101 | the intended adjustment never exceeds the assessment's max size, stays within [0, base], and is at most half the base at HIGH risk |
| RiskManagement.AdjustPositionSizeAsWritten | core/risk_management.py:75-107 | as written (missing `_assess_risk`) the size is always exactly half the base size |
| RiskManagement.AdjustAsWrittenBreaksCap | core/risk_management.py:75-107 | for a positive base the written result `base/2` exceeds the max size 0 of the fallback assessment, while the intended adjustment of that assessment is 0 |
| Engine.StrKeyNeverPresent | core/trading_engine.py:127-155 | the `str` key used by remove never occurs among the `int` keys used by add |
| Engine.AverageCost | core/trading_engine.py:381-383 | the new average price times the total quantity equals the old cost plus the new cost |
| Engine.LookupAfterDelete | core/trading_engine.py:399-402 | deleting a position row keeps symbols distinct and leaves every other symbol's row unchanged |
| Engine.LookupAfterUpdate | core/trading_engine.py:379-384 | updating a row in place keeps symbols distinct and changes only that symbol's row |
| Engine.LookupAfterAppend | core/trading_engine.py:385-397 | adding a new symbol's row keeps symbols distinct and changes only that symbol's lookup |
| Engine.ApplyTradeFrame | core/trading_engine.py:367-408 | a position update keeps one row per symbol and touches no other symbol's position |
| Engine.ApplyTradeOwnSymbol | core/trading_engine.py:367-408 | BUY into an empty slot opens (q, p); BUY into a position adds q at the weighted-average cost; SELL subtracts and deletes at quantity ≤ 0; SELL with no position changes nothing; a zero total quantity raises and changes nothing |
| Engine.BuyAtAverageKeepsAverage | core/trading_engine.py:381-383 | buying more at the current average price keeps the average |
| Engine.SignalFor | core/trading_engine.py:189-197 | a signal is produced only when market data exist with at least 100 bars, and it is well formed |
| Engine.GridNeverActionable | core/trading_engine.py:196-201 | over exact reals, a grid strategy's signal is never executed |
| Engine.PositionSizeAsWritten | core/trading_engine.py:295-321 | `signal.symbol` raises, so the computed position size is always 0.0 |
| Engine.IntendedPositionSize | core/trading_engine.py:299-316 | without the faulty attribute read, the size is `balance · 0.02 · confidence · 0.5` (the written risk adjustment halves it), within [0, 2 % of the balance] and positive for a funded balance |
| Engine.SizingDefectZeroesOrders | core/trading_engine.py:295-321 | for a funded balance and an actionable confidence the intended size is positive, at most 1 % of the balance, while the size as written is 0 |
| Engine.Executed | core/trading_engine.py:206-239 | the book after `_execute_signal`: one more trade iff the risk gate passes and the order fills, and then the trade row, the position update and, iff BUY, the open position appended; otherwise the book is unchanged |
| Engine.ExecutedTradesAreEmpty | core/trading_engine.py:206-239 | a filled signal as written records a trade of quantity 0 and value 0; with the intended size it would record a positive quantity |
| Engine.Processed | core/trading_engine.py:183-204 | the book after `_process_strategy`: no signal changes nothing; otherwise `last_signal` is stored, one more trade iff actionable and filled, and nothing else changes when not; every trade recorded has quantity 0 |
| Engine.Cycle | core/trading_engine.py:165-169 | a pass over the strategies in order keeps the ids, only appends trades, and adds at most one per strategy |
| Engine.CycleTradesAreEmpty | core/trading_engine.py:165-169 | as written, every trade a pass records has quantity 0 and value 0 |
| Engine.DistinctCard | core/trading_engine.py:506 | a list of distinct strategy ids has as many members as entries |
| Engine.PercentOf | core/trading_engine.py:423 | the P&L percentage times the cost basis is 100 times the P&L |
| Engine.Revalue | core/trading_engine.py:416-423 | a quoted price sets current price, value and P&L from it; a missing (zero) quote leaves the row as it was; quantity and average never change |
| Engine.Refreshed | core/trading_engine.py:410-429 | revaluation rewrites every row by `Revalue`, in order |
| Engine.TradingEngine.constructor | core/trading_engine.py:36-54 | a new engine is STOPPED with zero counters and balances, no strategies, positions, trades or session |
| Engine.TradingEngine.UpdateSession | core/trading_engine.py:481-496 | with a session id and an existing row, the session row is overwritten with the status and counters; nothing else changes |
| Engine.TradingEngine.Start | core/trading_engine.py:56-83 | no prior-state check; a false connect leaves the status; success iff connected and balance fetched, then RUNNING with both balances set and one more loop; any raise sets ERROR |
| Engine.TradingEngine.Stop | core/trading_engine.py:85-103 | the status becomes STOPPED in every case; the result is False exactly when disconnecting raises |
| Engine.TradingEngine.Pause | core/trading_engine.py:105-114 | the status becomes PAUSED unconditionally and the session is synced |
| Engine.TradingEngine.Resume | core/trading_engine.py:116-125 | the status becomes RUNNING unconditionally, with no new loop |
| Engine.TradingEngine.AddStrategy | core/trading_engine.py:127-143 | a known type inserts or overwrites the entry with no last signal and no positions; an unknown type returns False and changes nothing |
| Engine.TradingEngine.RemoveStrategy | core/trading_engine.py:145-155 | the lookup by `str(id)` never matches, so it returns False and changes nothing |
| Engine.TradingEngine.ExecuteSignal | core/trading_engine.py:206-239 | the engine's book becomes `Executed` of the old book with the size as written; order, status and session unchanged |
| Engine.TradingEngine.ExecuteOrder | core/trading_engine.py:241-293 | success iff the order status is "FILLED"; then the completed trade (fee 0, value q·p) is recorded and the position table updated; otherwise nothing changes |
| Engine.TradingEngine.ProcessStrategy | core/trading_engine.py:183-204 | the engine's book becomes `Processed` of the old book: skipped without data, `last_signal` stored, and an actionable signal executed |
| Engine.TradingEngine.PausesOnlyOnLoss | core/trading_engine.py:323-342 | the engine pauses iff the start balance is 0 (division error) or the daily P&L is below −5 % of the start balance |
| Engine.TradingEngine.StatusCountsStrategies | core/trading_engine.py:498-508 | the status reports the number of registered strategies and the number of completed trades |
| Engine.TradingEngine.UpdatePortfolio | core/trading_engine.py:410-429 | every row is revalued from its quote, unless a zero cost basis raises and the whole refresh is lost |
| Engine.TradingEngine.RunCycle | core/trading_engine.py:165-169 | the engine's book becomes `Cycle` of the old book over the strategy order, the gate seeing today's trades plus those the pass recorded |
| Engine.TradingEngine.LoopIteration | core/trading_engine.py:157-181 | the loop continues iff the status is RUNNING, otherwise it exits; when paused for risk nothing is traded; otherwise the book is one `Cycle` followed by the portfolio refresh |
| TradingRoutes.CreateStrategy | api/routes/trading.py:73-104 | rejects an unknown type, then a symbol without "/", then a bad risk level; otherwise it creates an active row of the given fields |
| TradingRoutes.CreatedStrategyBuilds | api/routes/trading.py:73-78 | every type the configuration accepts is one the strategy factory can build |
| TradingRoutes.UpdateStrategy | api/routes/trading.py:139-164 | a missing row gives "Strategy not found"; a bad risk level is refused; only the supplied fields change |
| TradingRoutes.UpdateStrategyIdempotent | api/routes/trading.py:151-164 | an empty update changes nothing, and applying the same update twice equals applying it once |
| TradingRoutes.Matching | api/routes/trading.py:246-250 | the strategy query returns exactly the table's active rows whose id was requested |
| TradingRoutes.IdsOfSnoc | api/routes/trading.py:262-274 | adding a row adds exactly its id to the set of ids |
| TradingRoutes.MatchingDistinct | api/routes/trading.py:246-252 | with unique ids the matching rows have as many distinct ids as rows, all requested |
| TradingRoutes.SnocKeepsDistinct | api/routes/trading.py:246-250 | a row with a new id keeps the ids distinct |
| TradingRoutes.DistinctIdsCard | api/routes/trading.py:252 | rows with distinct ids have as many ids as rows |
| TradingRoutes.DistinctValuesBound | api/routes/trading.py:252 | a list has at most as many distinct values as entries, and fewer when one repeats |
| TradingRoutes.RepeatedIdRefused | api/routes/trading.py:252-256 | a request that repeats a strategy id always fails the count check |
| TradingRoutes.SubsetCard | api/routes/trading.py:252 | a subset of ids is no larger than the set |
| TradingRoutes.AddRow | api/routes/trading.py:264-270 | adding one row succeeds iff its type is known and then registers exactly its id; lifecycle state and trades are untouched |
| TradingRoutes.AddAll | api/routes/trading.py:262-274 | adding the rows succeeds iff every type is known, and then registers exactly their ids |
| TradingRoutes.SignalList | api/routes/trading.py:453-465 | the signal list has at most one report per registered strategy |
| TradingRoutes.SignalListExact | api/routes/trading.py:453-465 | a strategy is reported iff it is registered with a last signal, and its report carries that signal |
| TradingRoutes.DeleteStrategyWith | api/routes/trading.py:199-218 | a missing row gives "Strategy not found"; otherwise the row is deleted or refused as active |
| TradingRoutes.BotRegistry.constructor | api/routes/trading.py:16 | the registry starts empty |
| TradingRoutes.BotRegistry.StartBot | api/routes/trading.py:229-300 | refused if already running or if the matching count differs; registers a RUNNING engine holding exactly the matching ids only when every add and the start succeed; otherwise the registry is unchanged |
| TradingRoutes.BotRegistry.StopBot | api/routes/trading.py:302-337 | refused when not registered; the engine is stopped with its loops, strategies, positions and trades unchanged, and its entry is removed only when stop returns True |
| TradingRoutes.BotRegistry.PauseBot | api/routes/trading.py:339-371 | refused when not registered; otherwise the engine is PAUSED with its loops, strategies, positions and trades unchanged, and the registry unchanged |
| TradingRoutes.BotRegistry.ResumeBot | api/routes/trading.py:373-405 | refused when not registered; otherwise the engine is RUNNING with its loops, strategies, positions and trades unchanged, and the registry unchanged |
| TradingRoutes.BotRegistry.StatusReportsRegistry | api/routes/trading.py:407-436 | an unregistered user reads "stopped"; a registered one reads the engine's status and strategy count |
| TradingRoutes.BotRegistry.Signals | api/routes/trading.py:438-470 | no engine gives no signals; otherwise the signal list of the registered strategies |
| TradingRoutes.BotRegistry.DeleteNeverRefused | api/routes/trading.py:205-212 | the `str(strategy_id)` test never matches an int-keyed registry, so delete is never refused |
| PortfolioRoutes.PnlPercentage | api/routes/portfolio.py:26 | P&L % is `pnl/(value−pnl)·100` when the cost is positive and 0 otherwise; positive or negative exactly with the P&L |
| PortfolioRoutes.Percent | api/routes/portfolio.py:42 | a share of a positive whole is `part/whole·100`, with the sign of the part |
| PortfolioRoutes.Share | api/routes/portfolio.py:41-44 | a share is 0 when the total is not positive, else `value/total·100` |
| PortfolioRoutes.Distribution | api/routes/portfolio.py:39-56 | one entry per position, carrying the position and its share |
| PortfolioRoutes.ShareSumScales | api/routes/portfolio.py:41-44 | the shares sum to 100 times value over total |
| PortfolioRoutes.SharesSumTo100 | api/routes/portfolio.py:41-44 | the shares of a positive portfolio sum to 100 |
| PortfolioRoutes.CancelPositive | api/routes/portfolio.py:41-44 | a positive factor cancels on both sides of an equation |
| PortfolioRoutes.PositionDistribution | api/routes/portfolio.py:39-58 | the distribution sorted by value, descending, as a permutation |
| PortfolioRoutes.PositionsByPnlOrdered | api/routes/portfolio.py:103-120 | `/positions` lists a permutation of the positions sorted by P&L, descending |
| PortfolioRoutes.ConcentrationLevel | api/routes/portfolio.py:300 | "high" iff above 20, "medium" iff in (10, 20], "low" iff at most 10 |
| PortfolioRoutes.ConcentrationLevelMonotone | api/routes/portfolio.py:300 | a larger concentration never gives a lower band |
| PortfolioRoutes.Concentrations | api/routes/portfolio.py:294-301 | one entry per position with its share and band |
| PortfolioRoutes.ConcentrationRisk | api/routes/portfolio.py:294-304 | the concentration list sorted by concentration, descending, as a permutation |
| PortfolioRoutes.DiversificationScore | api/routes/portfolio.py:307-314 | 0 for one position, 30 for 2–3, 60 for 4–7, 90 for 8 or more |
| PortfolioRoutes.DiversificationMonotone | api/routes/portfolio.py:307-314 | more positions never lower the score |
| PortfolioRoutes.Returns | api/routes/portfolio.py:323 | only positions with a non-zero P&L % yield a return |
| PortfolioRoutes.SumBound | api/routes/portfolio.py:325 | a sum of bounded terms is at most the count times the bound |
| PortfolioRoutes.ReturnsBound | api/routes/portfolio.py:323 | when every P&L % is at most a bound, every return is at most that bound over 100 |
| PortfolioRoutes.ModestReturnsNotVolatile | api/routes/portfolio.py:321-329 | positions with P&L % at most 50 never reach the volatility warning |
| PortfolioRoutes.AnalysisVarIsRiskManagerVar | api/routes/portfolio.py:331-337 | the endpoint's VaR equals the risk manager's VaR of the same positions |
| PortfolioRoutes.HighCount | api/routes/portfolio.py:441 | the number of "high" entries is zero exactly when none is high |
| PortfolioRoutes.Warnings | api/routes/portfolio.py:440-463 | one warning per condition raised; only the first can be high priority, and it is iff there is a high concentration; the diversification advice is present iff the score is below 30, the volatility advice iff volatility exceeds 0.5 |
| PortfolioRoutes.GenerateRiskRecommendations | api/routes/portfolio.py:436-473 | never empty; the single info entry iff no warning fired; high priority first iff a position is highly concentrated |
| PortfolioRoutes.RiskAnalysis | api/routes/portfolio.py:280-355 | no positions give the empty report; otherwise total value and P&L, score, volatility, VaR, the sorted concentration list and its recommendations |
| PortfolioRoutes.HighConcentrationWarns | api/routes/portfolio.py:440-447 | any highly concentrated position yields a high-priority first warning |
| PortfolioRoutes.Move | api/routes/portfolio.py:398-405 | the value change is `(target − current)/100·total`, positive when buying and negative when selling |
| PortfolioRoutes.Quantity | api/routes/portfolio.py:414 | the quantity change is value over price, and 0 when the price is not positive |
| PortfolioRoutes.ActionFor | api/routes/portfolio.py:392-415 | an action is emitted iff current and target differ by more than 1; BUY iff target above current, with matching sign of value change |
| PortfolioRoutes.Actions | api/routes/portfolio.py:392-415 | at most one action per position |
| PortfolioRoutes.MentionsConcat | api/routes/portfolio.py:408 | a symbol is mentioned in two appended lists iff in either |
| PortfolioRoutes.ActionsCoverOffTargetRows | api/routes/portfolio.py:392-415 | a held symbol gets an action iff it is off target beyond 1 %, a missing target counting as 0 |
| PortfolioRoutes.ActionsOmit | api/routes/portfolio.py:392-415 | a symbol not held is never mentioned, whatever its target |
| PortfolioRoutes.RebalancePortfolio | api/routes/portfolio.py:371-418 | refused when targets miss 100 by more than 0.01, then when the total is 0; otherwise the actions sorted by absolute value change, as a permutation |
| HistoryRoutes.Upper | api/routes/history.py:37 | upper-casing keeps the length and maps each character |
| HistoryRoutes.SideFilter | api/routes/history.py:36-42 | no side filters nothing; otherwise accepted iff upper-cased it is BUY or SELL, filtering on the upper-cased value; else the side error |
| HistoryRoutes.UpperIsWord | api/routes/history.py:37 | upper-casing yields an upper-case word iff the text spells it in some mix of cases |
| HistoryRoutes.SideFilterAcceptsAnyCase | api/routes/history.py:36-42 | a non-empty side is accepted iff it spells BUY or SELL in any case |
| HistoryRoutes.Selection | api/routes/history.py:28-42 | a trade is listed iff it passes each filter given |
| HistoryRoutes.SelectionAppend | api/routes/history.py:28-42 | filtering a concatenation of trade lists filters each part |
| HistoryRoutes.SelectionUnfiltered | api/routes/history.py:28-42 | without filters the query lists every trade in order |
| HistoryRoutes.Window | api/routes/history.py:68 | `.offset(offset).limit(limit)` keeps `min(limit, max(0, n − offset))` rows, the i-th being row `offset + i` |
| HistoryRoutes.TradingHistory | api/routes/history.py:12-109 | refused iff limit outside [1,1000], offset negative or side invalid; the page is the `Window` of the selected rows at `limit` and `offset`, its total the selection's size, and `has_more` iff `offset + limit < total` |
| HistoryRoutes.HasMoreIffRowsRemain | api/routes/history.py:96-99 | a full page ends before the total iff rows remain |
| HistoryRoutes.TimeframeDays | api/routes/history.py:113-132 | exactly the six timeframes are accepted; 1d, 7d, 30d, 90d and 1y reach back 1, 7, 30, 90 and 365 days, and only "all" has no lower bound |
| HistoryRoutes.TimeframesNested | api/routes/history.py:121-132 | a trade in a shorter window is in every longer window and in "all" |
| HistoryRoutes.CountSide | api/routes/history.py:161-162 | a side count never exceeds the trades |
| HistoryRoutes.CountSideIsSelection | api/routes/history.py:161-162 | the count of a side is the number of trades the side filter lists |
| HistoryRoutes.SideCountsCover | api/routes/history.py:161-162 | buy plus sell counts are at most the total, and equal when every side is BUY or SELL |
| HistoryRoutes.Mean | api/routes/history.py:168 | the average times the count is the total, non-negative for a non-negative total |
| HistoryRoutes.TradingSummary | api/routes/history.py:141-220 | no trades give the all-zero summary; otherwise the count, volume, fees, `avg · n = volume`, and the BUY and SELL counts of the trades |
| HistoryRoutes.SymbolsSnoc | api/routes/history.py:171-175 | one more trade adds exactly its symbol |
| HistoryRoutes.SymbolsBound | api/routes/history.py:443 | distinct symbols number between 1 and the trade count for a non-empty list |
| HistoryRoutes.SymbolAbsent | api/routes/history.py:173-175 | a symbol that never trades has the empty statistics |
| HistoryRoutes.BySymbol | api/routes/history.py:170-190 | keys are exactly the traded symbols, each with totals over that symbol's trades |
| HistoryRoutes.SymbolVolumesSplit | api/routes/history.py:184-190 | per symbol, buy volume + sell volume (non-BUY counts as sell) = total volume |
| HistoryRoutes.SymbolCountsSnoc | api/routes/history.py:183 | one more trade adds exactly one to its symbol's count |
| HistoryRoutes.SymbolCountsSumToTotal | api/routes/history.py:170-190 | the per-symbol counts sum to the total number of trades |
| HistoryRoutes.StrategyStatsSnoc | api/routes/history.py:194-206 | one more attributed trade updates only its strategy's statistics |
| HistoryRoutes.Attributed | api/routes/history.py:195-196 | attributed trades are no more than the trades, all of them iff every trade has a strategy row, and none iff no trade has one |
| HistoryRoutes.StrategyNamesSnoc | api/routes/history.py:196-198 | one more trade adds its strategy name, if any |
| HistoryRoutes.StrategyAbsent | api/routes/history.py:196-198 | a strategy with no trades has the empty statistics |
| HistoryRoutes.ByStrategy | api/routes/history.py:192-206 | keys are exactly the strategies with trades, each with totals over those trades |
| HistoryRoutes.StrategyCountsSnoc | api/routes/history.py:204 | one more attributed trade adds one to its strategy's count |
| HistoryRoutes.StrategyCountsSumToAttributed | api/routes/history.py:192-206 | per-strategy counts sum to the number of trades with a strategy |
| HistoryRoutes.Sizes | api/routes/history.py:291 | the size list is the trades' values in order |
| HistoryRoutes.BandsPartition | api/routes/history.py:298-300 | below, between and above two ordered cut-offs partition any list |
| HistoryRoutes.Minimum | api/routes/history.py:294 | the minimum is a member not above any other |
| HistoryRoutes.Maximum | api/routes/history.py:295 | the maximum is a member not below any other |
| HistoryRoutes.SizeDistribution | api/routes/history.py:290-303 | no trades give zeros; otherwise the mean, the extreme sizes, and the counts at 0.5·avg and 1.5·avg |
| HistoryRoutes.VolumeNonNegative | api/routes/history.py:291-293 | volume is non-negative when every trade value is |
| HistoryRoutes.SizeBucketsPartition | api/routes/history.py:298-300 | for non-negative values the small, medium and large buckets partition the trades |
| HistoryRoutes.Metrics | api/routes/history.py:437-445 | session metrics: count, volume, fees, the BUY and SELL counts, and distinct symbol and strategy counts |
| HistoryRoutes.TimelineSteps | api/routes/history.py:447-463 | the first P&L is the first trade's signed value; each next one adds the trade's signed value; the last is the net flow |
| HistoryRoutes.TimelineSnoc | api/routes/history.py:447-463 | extending the timeline by the next trade's cumulative entry keeps it a timeline |
| HistoryRoutes.PnlTimeline | api/routes/history.py:447-463 | one entry per trade, each the cumulative signed P&L up to that trade |
| HistoryRoutes.BotSessionDetails | api/routes/history.py:406-490 | refused "Bot session not found" iff there is no session; otherwise the session, its trades, metrics and timeline |

## Left out

- Network and database I/O: exchange calls (connect, balance, market data, quotes, order status) and SQL query results are inputs, and writes are modelled as updates of the engine's own fields (`positions`, `tradeLog`, `session`). `core/exchange_interface.py`, `main.py` and `setup.py` are not part of this model.
- Position table: modelled as a sequence of rows with distinct symbols, in query order, rather than a map from symbol to row, so that `.first()` and the query order of the listings stay visible.
- Concurrency: `asyncio.create_task`, `sleep`, the 30-second loop period and the 60-second wait after a risk pause. A running loop is the counter `runningLoops`; a loop pass is `Engine.TradingEngine.LoopIteration`.
- Indicator computation: RSI, MACD, Bollinger bands and moving averages come from a foreign library, so their last values are inputs; the requires on RSI range, positive close and positive slow average exclude the NaN or infinite values pandas can yield.
- Floating point: all arithmetic is exact `real`; `round(…, 6)` in the position-size adjustment and `np.sqrt(252)` (a fixed constant) are not modelled; `linspace` rounding is exact.
- Strategies.GridNeverTrades: holds over exact reals only. With an odd `grid_levels` the centre level equals the close only before rounding, and with one level the sole level sits exactly `price·spacing/2` away; in floating point, rounding decides whether the strict tests fire, and a fired test gives confidence 0.7, which is actionable. With an even level count (the default is 10) the nearest levels are half a step away, which exceeds `price·spacing/2` by `price·spacing/(2(n−1))`, so rounding would have to exceed that margin to make a test fire. The same qualification applies to `Strategies.GridTestsFail` and `Engine.GridNeverActionable`.
- Strategies.CreateStrategy, Engine.TradingEngine.AddStrategy, TradingRoutes.AddAll: strategy parameters are numbers only. A string or null period makes the constructor's `+ 10` raise, so `add_strategy` returns False for a known type; the model does not cover non-numeric parameters, and its "iff the type is known" is stated for numeric parameters.
- Placeholders: the stub drawdown 0.05, volatility 0.3, price 100.0 and the empty correlation matrix are fixed constants; the risk manager's database reads (portfolio, daily P&L) are the engine's own position table and today's trades.
- Timestamps and dates: `datetime.now()`, the ISO `start_date`/`end_date` filters of the history listing, the daily and hourly analytics, session durations in the bot-session list, and `last_used` in the strategy performance table; trade lists arrive already filtered and ordered by time.
- Strategy performance in the analytics endpoint: its aggregation is the same as `HistoryRoutes.ByStrategy`; strategy names are a map from strategy id to name given as input.
- CSV and JSON export, the performance endpoint, the position-details endpoint, the strategy listing, backtesting, logging and authentication: no decision logic, or only presentation.
- FastAPI request validation (422 answers): the query-parameter bounds of the trade listing and the timeframe pattern are modelled as `Err` results of `HistoryRoutes.TradingHistory` and `HistoryRoutes.TimeframeDays`; type coercion of the other request bodies and parameters is not modelled.
- Error messages: the messages of `Result.Err` carry the route's fixed detail text; where the source formats a list into it (invalid strategy type, invalid risk level) only the fixed prefix is kept. HTTP status codes and the 500 handlers for database failures are not modelled.
- HistoryRoutes.Upper: models `str.upper` on ASCII letters only; other characters are unchanged, so non-ASCII case mappings are not covered.
- Engine.TradingEngine.RunCycle: a pass is specified by `Engine.Cycle`; each strategy's market data and order outcome are given per strategy id, so two fetches for one strategy within a pass cannot differ.
- Engine.TradingEngine.LoopIteration: the sleeps, the `_update_risk_metrics` no-op and a loop-level exception (which cannot arise, since every step catches its own) are not modelled.
- RiskManagement.CheckTradeAllowed: the correlation and volatility checks use the stub constants; their fail-open exception paths are not reachable in the model.
