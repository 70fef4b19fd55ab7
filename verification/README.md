# Botty the AI Trader, modelled in Dafny

Botty is a browser-based paper-trading app. A set of AI "agents" (LLM
prompts with a trading mode and risk limits) vote on buy/sell/hold/close
signals for crypto assets. A unified agent weighs the votes into one decision
and recommends execute, wait or skip. The portfolio ledger executes trades
with leverage and tracks drawdown. A throttle queue spaces out the LLM
requests and retries them. Technical indicators and a toy forecaster feed
the prompts. Small dashboards show keys, signals, the trade journal and risk.

This project models the deterministic core of that app as pure Dafny
functions over immutable datatypes, and proves what each piece promises:

- `Types`: the records of `src/lib/types.ts`.
- `Trading`, `TradingLaws`: the portfolio ledger, with the laws relating
  buys, sells, marking and the ledger invariant.
- `RateLimiter`: the request throttle as a state machine over a FIFO queue
  and an integer millisecond clock.
- `AiAgents`, `UnifiedAgent`: signal normalisation, the multi-model
  consensus, the weighted vote, the execution ladder and strategy
  adjustment.
- `TechnicalIndicators`, `Series`, `Forecasting`, `MarketSimulator`,
  `CoinbaseApi`: the price-series helpers.
- `ApiKeys`, `ApiKeysManager`, `AgentManager`, `SignalsDashboard`,
  `TradeJournal`, `RiskManagement`: the pure logic inside the hook and the
  UI components.
- `Util` and `Sorting`: shared helpers.
  - `Util` holds `Option`, sums, counts, filters and the JavaScript `x || d`
    fallback (`OrElse`).
  - `Sorting` is a stable insertion sort standing in for `Array.prototype.sort`.

Conventions:

- Numbers are `real`.
- Time is an explicit `now`.
- Each `Math.random()` draw is an explicit `draw` parameter.
- An LLM answer enters as an already-parsed record or as a failure.
- `Math.sqrt` is never computed. Its result is a parameter `root` with
  `root >= 0` and `root * root` equal to the variance.

JavaScript's division by zero yields `Infinity` or `NaN`. The model treats
these values in one of three ways:

- Trend classification uses an extended number type (`Series.Extended`), so
  those values are followed exactly.
- Percentages that may be non-finite return `Option<real>`, with `None` for
  a non-finite value.
- Elsewhere the divisor is required to be non-zero.

## Model

| member | source | states |
|---|---|---|
| `Trading.Mark` | src/lib/trading.ts:5 | the valuation price is the fresh map price unless it is missing or zero, in which case the position's last mark is kept |
| `Trading.PortfolioValue` | src/lib/trading.ts:3-13 | a portfolio with no positions is worth exactly its cash |
| `Trading.PortfolioValueOfAppended` | src/lib/trading.ts:4-12 | adding one position adds exactly that position's value at its valuation price (long `q*price*lev`, short `q*(2*avg-price)*lev`) to the portfolio value |
| `Trading.PositionsValueAppend` | src/lib/trading.ts:4-10 | the value of the positions is additive over concatenation of position lists |
| `Trading.PositionPnL` | src/lib/trading.ts:15-31 | long P&L is `q*lev*(cur-avg)`, short P&L is `q*lev*(avg-cur)`; the percentage exists iff the cost basis is non-zero, and is then `pnl / costBasis * 100` (percentage times basis is 100 times the P&L); for a positive basis it has the sign of the P&L |
| `Trading.LongShortPnLOpposite` | src/lib/trading.ts:19-26 | the same position held long or short has opposite P&L |
| `Trading.FirstOnAsset` | src/lib/trading.ts:50 | finds the first position on the asset, of either type, or reports that none exists |
| `Trading.CanExecuteTrade` | src/lib/trading.ts:33-57 | a quantity <= 0 is rejected; a buy is allowed iff cash covers `quantity*price` (leverage plays no part); a sell is allowed iff the first position on the asset holds at least the quantity; with no position the reason reports 0 held |
| `Trading.FindKey` | src/lib/trading.ts:89 | finds the first position with the given asset and type, or reports that none exists |
| `Trading.MergeBuy` | src/lib/trading.ts:89-97 | quantities add, quantity times average entry equals the old cost plus the new notional, the mark moves to the price, and no other field changes except the recomputed P&L |
| `Trading.MergeBuyRevaluesPnL` | src/lib/trading.ts:96-97 | after a merge the stored unrealised P&L is the P&L of the merged position |
| `Trading.BookBuy` | src/lib/trading.ts:85-110 | cash drops by `quantity*price/leverage`; with no matching position exactly one is appended, otherwise only the matched position is replaced by the merge |
| `Trading.BookSell` | src/lib/trading.ts:111-125 | with a matching position the P&L of the whole pre-sale position is realised, cash rises by `total/leverage`, and the position is reduced or removed when it reaches <= 0; with none nothing changes |
| `Trading.Revalue` | src/lib/trading.ts:127-130 | only the drawdowns change; the current drawdown is >= 0, positive iff the value is below the starting balance, and equal to the percentage shortfall; the maximum never decreases and is the old maximum or the current drawdown |
| `Trading.ExecuteTrade` | src/lib/trading.ts:59-133 | exactly one trade record is appended with the given fields and `total = quantity*price`; the cash, P&L and drawdown effects of buys, matched sells and unmatched sells; a positive current drawdown is `(start - value) / start * 100` of the new portfolio's value; the maximum drawdown becomes the larger of the old maximum and the new current drawdown |
| `TradingLaws.UpdatePositionPrices` | src/lib/trading.ts:135-143 | same positions in the same order, only `currentPrice` changes (to the fresh price unless missing or zero); everything else in the portfolio is untouched |
| `TradingLaws.MarkingIsIdempotent` | src/lib/trading.ts:135-143 | marking twice with the same prices is the same as marking once |
| `TradingLaws.ValueAfterMarking` | src/lib/trading.ts:135-143 | valuing the marked portfolio with no prices equals valuing the original with the prices |
| `TradingLaws.FilterRemovesOnlyMatch` | src/lib/trading.ts:122 | when keys are unique, the removal filter deletes exactly the matched position and keeps the rest in order |
| `TradingLaws.BuyOpensPosition` | src/lib/trading.ts:98-110 | a buy with no matching position appends one position with entry and mark at the price and zero unrealised P&L |
| `TradingLaws.BuyMergesIntoPosition` | src/lib/trading.ts:89-97 | a buy into a position keeps the position count and every other position; quantities add, the entry price becomes the volume-weighted average, the mark moves to the price, and leverage is kept |
| `TradingLaws.SellReducesPosition` | src/lib/trading.ts:120 | a partial sell lowers only the matched position's quantity |
| `TradingLaws.SellClosesPosition` | src/lib/trading.ts:120-123 | a sell of at least the held quantity removes every position on that key and nothing else |
| `TradingLaws.ExecutePreservesWellFormed` | src/lib/trading.ts:59-133 | starting from a ledger with unique `(asset, type)` keys and open positions, every execution with a positive quantity keeps both |
| `TradingLaws.OrdersKeepHistory` | src/lib/trading.ts:83 | a run of orders appends one trade per order and keeps earlier ones; the maximum drawdown never decreases |
| `TradingLaws.BuysAccumulate` | src/lib/trading.ts:89-97 | repeated buys into an open position stay at its index and accumulate quantity and cost |
| `TradingLaws.BuysAverageIn` | src/lib/trading.ts:85-110 | a run of buys on a new key opens one position whose entry price is total notional divided by total volume |
| `TradingLaws.AllowedBuyKeepsCash` | src/lib/trading.ts:44-49 | a buy that `canExecuteTrade` allows, at leverage >= 1 and a non-negative price, leaves the cash non-negative |
| `TradingLaws.AllowedSellIsCovered` | src/lib/trading.ts:49-53 | an allowed sell has a positive quantity and a first position on the asset holding at least that much; with no position on the asset a sell is rejected |
| `RateLimiter.Create` | src/lib/rate-limiter.ts:7-14 | a fresh limiter has an empty queue, is not processing and has a zero last-request time |
| `RateLimiter.QueueLength` | src/lib/rate-limiter.ts:66-68 | the queue length is the number of items waiting |
| `RateLimiter.Enqueue` | src/lib/rate-limiter.ts:18 | the item goes to the tail; the length grows by one and nothing else changes |
| `RateLimiter.Kick` | src/lib/rate-limiter.ts:23-26 | nothing happens while processing or when the queue is empty; otherwise only the processing flag is set |
| `RateLimiter.StartLoop` | src/lib/rate-limiter.ts:26-41 | the loop up to its first `await`: an empty queue ends it; otherwise the head is shifted off and served, with `lastRequestTime` stamped to now when no spacing wait is due; with no attempt allowed and no wait due every queued item passes at once and the loop ends |
| `RateLimiter.Execute` | src/lib/rate-limiter.ts:16-30 | during a running loop the item is only queued; on an idle limiter with an empty queue the new item is shifted off at once, the queue length is back to 0, the limiter stays processing and `lastRequestTime` becomes now unless a spacing wait is due (with no attempt allowed, it stays processing only while that wait is pending) |
| `RateLimiter.ExecuteBeginsStep` | src/lib/rate-limiter.ts:16-41 | on an idle limiter, `execute` leaves the queue `Step` leaves, serves the item `Step` reports on, and, when no spacing wait is due, stamps the start of that item's first attempt |
| `RateLimiter.Attempts` | src/lib/rate-limiter.ts:38-52 | no attempt runs iff the attempt budget is spent; otherwise at most `maxRetries` attempts in total |
| `RateLimiter.AttemptsSettle` | src/lib/rate-limiter.ts:38-56 | attempts replay the calls in order; all but the last failed; resolved iff the last succeeded, with its value; rejected with the last error iff the budget ran out on failures; no attempt leaves the previous state |
| `RateLimiter.AttemptsBackoff` | src/lib/rate-limiter.ts:46-51 | a delay of `retryDelay*(attempt+1)` follows a failure iff it mentions 429 and it is not the last attempt |
| `RateLimiter.AttemptsTiming` | src/lib/rate-limiter.ts:41 | the first attempt starts at the given time and each next attempt starts when the previous call and its backoff end |
| `RateLimiter.PlainErrorsRetryAtOnce` | src/lib/rate-limiter.ts:46-51 | after a failure without 429 the next attempt starts as soon as the call returned |
| `RateLimiter.Wait` | src/lib/rate-limiter.ts:32-36 | the wait before an item is what brings it to `minDelay` after the last request, or zero when that time has passed |
| `RateLimiter.Process` | src/lib/rate-limiter.ts:32-56 | the first attempt starts after the spacing wait; the last-request time becomes the start of the last attempt; the item stays unsettled iff `maxRetries <= 0` |
| `RateLimiter.Step` | src/lib/rate-limiter.ts:28-57 | on an empty queue only the flag clears; otherwise the head is dequeued and run by `Process` from the current time and the last request time, the report is for that item, the last request time becomes the one `Process` leaves, and the loop resumes when the item's attempts finish, never before the current time |
| `RateLimiter.Drain` | src/lib/rate-limiter.ts:23-60 | draining empties the queue, clears the flag and reports once per item |
| `RateLimiter.DrainIsSpaced` | src/lib/rate-limiter.ts:28-41 | in one drain, the first attempt of each item starts at least `minDelay` after the last attempt of the item before it, and the first item's at least `minDelay` after the last request before the drain |
| `RateLimiter.DrainIsFifo` | src/lib/rate-limiter.ts:28-30 | reports come out in submission order |
| `RateLimiter.OneLoopAtATime` | src/lib/rate-limiter.ts:24 | a submission while a loop runs only enqueues |
| `RateLimiter.AttemptsCapped` | src/lib/rate-limiter.ts:39-56 | an item gets at most `max(0, maxRetries)` attempts; it is rejected iff retries are allowed and every attempt failed, and then exactly `maxRetries` ran |
| `AiAgents.ErrorSignal` | src/lib/ai-agents.ts:98-110 | the fallback signal is hold, confidence 0, quantity 0, leverage 1, long |
| `AiAgents.GenerateTradingSignal` | src/lib/ai-agents.ts:84-110 | confidence is clamped to [0,100] with 50 for a missing or zero value; action and position type default to hold and long; leverage is `min(1, maxLeverage)` for a missing or zero value, the cap when the reply exceeds it, and the reply's when within it; the suggested quantity is the reply's unless missing or zero, then 0; a failure gives the fallback signal |
| `AiAgents.ValidReplyRoundTrips` | src/lib/ai-agents.ts:86-96 | a reply with every field present, confidence in (0,100], a non-zero quantity and a non-zero leverage within the cap is carried into the signal unchanged |
| `AiAgents.SignalRoundTrips` | src/lib/ai-agents.ts:86-96 | reading a signal's own fields back as a reply gives the same signal again, when its confidence, quantity and leverage are non-zero |
| `AiAgents.MultiModelDecision` | src/lib/ai-agents.ts:141-165 | nothing for no signals; otherwise the most confident signal with the average confidence; buy iff buys are a majority and the average is above 70; sell likewise when buy does not apply; otherwise hold |
| `AiAgents.MajoritiesExclude` | src/lib/ai-agents.ts:146-150 | buys and sells cannot both be a strict majority |
| `AiAgents.MultiModelConfidenceBounded` | src/lib/ai-agents.ts:141 | the average confidence of in-range signals lies in [0,100] |
| `AiAgents.GenerateMultiModelSignal` | src/lib/ai-agents.ts:113-167 | the decision is `MultiModelDecision` of one normalised signal per model, in order; it exists iff some model was asked, is for the asset, and its confidence lies in [0,100] |
| `AiAgents.AskAll` | src/lib/ai-agents.ts:118-120 | one signal per model, in list order, each the normalisation of that model's reply |
| `AiAgents.ModelName` | src/lib/ai-agents.ts:259-269 | only gpt-4o maps to "gpt-4o"; every other model maps to "gpt-4o-mini" |
| `AiAgents.Alerts` | src/lib/ai-agents.ts:274-284 | at most one stop-loss and one take-profit report per position |
| `AiAgents.CheckStopLossAndTakeProfit` | src/lib/ai-agents.ts:271-287 | the returned portfolio equals the input |
| `AiAgents.TriggeredLevelsAreReported` | src/lib/ai-agents.ts:277-283 | a position whose mark is at or past a set stop loss or take profit is reported at that mark |
| `AiAgents.ReportsAreTriggered` | src/lib/ai-agents.ts:277-283 | every report comes from a position whose level was actually hit at its mark |
| `AiAgents.AdjustStrategy` | src/lib/ai-agents.ts:289-312 | only maximum leverage and position size change; a drawdown above 15 forces leverage 1 and size `max(3, size/2)`; a poor win rate over more than 5 trades lowers both; a win rate above 0.6 with drawdown below 5 raises leverage up to 10; otherwise the config is returned unchanged |
| `AiAgents.AdjustKeepsLeverageRange` | src/lib/ai-agents.ts:297-309 | leverage only rises on a good run, and a maximum leverage in [1,10] stays in [1,10] |
| `UnifiedAgent.AgentWeight` | src/lib/unified-agent.ts:242-254 | weight 1.5 iff conservative in a drawdown above 10, 1.2 iff aggressive with P&L above 10 % of the start, 1 otherwise; always >= 1 |
| `UnifiedAgent.TotalWeightAtLeastCount` | src/lib/unified-agent.ts:69 | with weights >= 1 the total weight is at least the number of votes |
| `UnifiedAgent.ScoresWithinTotal` | src/lib/unified-agent.ts:69-75 | the weighted buy and sell scores are non-negative and together at most `100*totalWeight` |
| `UnifiedAgent.VoteCountsAddUp` | src/lib/unified-agent.ts:64-67 | the buy, sell, hold and close counts sum to the number of votes |
| `UnifiedAgent.UnanimousIffOneActionTakesAll` | src/lib/unified-agent.ts:79 | every vote has the first vote's action iff some action received every vote |
| `UnifiedAgent.NoConflictIffActiveVotesAgree` | src/lib/unified-agent.ts:80 | there is no conflict iff all non-hold votes are for the same action |
| `UnifiedAgent.FinalAction` | src/lib/unified-agent.ts:82-93 | buy iff the buy score beats the sell score and `50*totalWeight`, with confidence `buy/totalWeight`; sell symmetrically; close iff neither applies and close votes are a majority; otherwise hold; hold and close keep the average confidence |
| `UnifiedAgent.FinalActionByThreshold` | src/lib/unified-agent.ts:85-90 | with weights >= 1 and confidences in range, buy iff the buy score exceeds half the maximum, sell likewise, a chosen side has confidence in (50,100], and every confidence lies in [0,100] |
| `UnifiedAgent.UnifiedQuantity` | src/lib/unified-agent.ts:277-291 | 0 when no vote suggests a positive quantity; otherwise the mean of the positive suggestions capped at `cash*0.1/50000`: times their count it is at most their sum and equal to it unless the cap is taken, and it is positive when cash is |
| `UnifiedAgent.PositiveSuggestions` | src/lib/unified-agent.ts:281-283 | exactly the suggested quantities that are positive |
| `UnifiedAgent.CappedPositiveMean` | src/lib/unified-agent.ts:287-290 | `min(mean, cap)` of positive numbers is at most the cap, positive for a positive cap, and times the count at most the sum, with equality unless the cap is taken |
| `UnifiedAgent.UnifiedQuantityBelowLargest` | src/lib/unified-agent.ts:281-290 | the quantity never exceeds the largest suggestion |
| `UnifiedAgent.UnifiedLeverage` | src/lib/unified-agent.ts:293-298 | the rounded leverage is at most 3 |
| `UnifiedAgent.UnifiedLeverageBounds` | src/lib/unified-agent.ts:294-297 | the leverage lies within half a unit of the votes' range capped at 3 |
| `UnifiedAgent.ExecutionRecommendation` | src/lib/unified-agent.ts:300-319 | execute iff the action is not hold, drawdown <= 15 and (unanimous at >= 80, or >= 70 without a low-confidence conflict); wait iff not hold, drawdown <= 15, not unanimous at >= 80, and either a conflict below 75 or confidence in [60,70) |
| `UnifiedAgent.RecommendationMonotone` | src/lib/unified-agent.ts:310-318 | raising the confidence never weakens the recommendation |
| `UnifiedAgent.DefaultSignal` | src/lib/unified-agent.ts:321-332 | the default signal is hold at confidence 0, quantity 0, leverage 1, long (the same signal as `AiAgents.ErrorSignal`) |
| `UnifiedAgent.CastVotes` | src/lib/unified-agent.ts:50-62 | one vote per enabled agent with its id, name, normalised signal and weight; every weight >= 1 and every confidence in [0,100] |
| `UnifiedAgent.Decide` | src/lib/unified-agent.ts:64-133 | the votes are kept as cast; the consensus is their `Tally`; the signal is their `UnifiedSignal`; the recommendation is the execution ladder applied to that signal, the conflict and unanimity flags and the drawdown; the confidence lies in [0,100], the quantity is 0 or within the cash cap, and execute needs a non-hold action, drawdown <= 15 and confidence >= 70 |
| `UnifiedAgent.Tally` | src/lib/unified-agent.ts:64-80 | the agent, buy, sell and hold counts are the numbers of votes for each; the average confidence is the mean and lies in [0,100]; unanimity holds iff one action took every vote; the conflict flag is the pairwise buy/sell/close test |
| `UnifiedAgent.BestVote` | src/lib/unified-agent.ts:95-97 | the first vote of maximal confidence: no vote is more confident and every earlier vote is strictly less confident |
| `UnifiedAgent.UnifiedSignal` | src/lib/unified-agent.ts:82-110 | action and confidence are `FinalAction`'s; buy or sell iff its score passes half the maximum; confidence in [0,100]; quantity and leverage are the unified ones with leverage <= 3; position type, take profit and stop loss are the best vote's; asset and time are the given ones |
| `UnifiedAgent.GetUnifiedDecision` | src/lib/unified-agent.ts:25-134 | no enabled agent gives skip, no votes, the default signal and an all-zero consensus; otherwise the votes are those cast by the enabled agents in list order, and the decision is `Decide` of those votes |
| `UnifiedAgent.DisabledAgentIgnored` | src/lib/unified-agent.ts:30 | adding a disabled agent anywhere in the list leaves the decision unchanged |
| `UnifiedAgent.ConfidentBuysScore` | src/lib/unified-agent.ts:69-86 | when every vote is a buy above 50 %, the weighted buy score exceeds half the maximum |
| `UnifiedAgent.ConfidentBuysDecideBuy` | src/lib/unified-agent.ts:64-93 | when every vote is a buy above 50 %, the decision is a unanimous buy with every vote counted as a buy and no conflict |
| `Sorting.SortByKeyDescending` | src/components/SignalsDashboard.tsx:15 | the sort is a permutation of its input |
| `Sorting.SortIsOrdered` | src/components/SignalsDashboard.tsx:15 | the sort output is non-increasing in the key |
| `Sorting.SortIsStable` | src/components/SignalsDashboard.tsx:15 | elements with equal keys keep their input order |
| `Sorting.SortAscending` | src/lib/technical-indicators.ts:89 | the ascending numeric sort is a permutation of its input |
| `Sorting.SortAscendingIsOrdered` | src/lib/technical-indicators.ts:89 | the ascending numeric sort is non-decreasing |
| `Sorting.CountPermutation` | src/lib/technical-indicators.ts:89 | reordering a list does not change how many of its elements pass a test |
| `Sorting.OrderStatistic` | src/lib/technical-indicators.ts:89-92 | the element at index `k` of the ascending sort has at most `k` elements strictly below it and more than `k` at or below it |
| `Sorting.OrderStatisticUnique` | src/lib/technical-indicators.ts:91-92 | at most one value has rank `k` in that sense |
| `Series.LastN` | src/lib/technical-indicators.ts:23 | `slice(-k)` for `k > 0` keeps the last `min(k, n)` elements in order |
| `Series.SliceFromEnd` | src/lib/technical-indicators.ts:24 | `slice(-from, -to)` has the JavaScript length and elements, empty when the list is too short |
| `Series.Divide` | src/lib/technical-indicators.ts:31 | IEEE division: the exact quotient for a non-zero divisor, and +Infinity, -Infinity or NaN by the sign of the dividend for a zero divisor |
| `Series.PercentOf` | src/lib/technical-indicators.ts:51 | a percentage is finite iff the base is non-zero, and then times the base it gives 100 times the amount |
| `Series.Returns` | src/lib/technical-indicators.ts:105-110 | 0 below 2 points; otherwise finite iff the first price is non-zero (the same function appears in forecasting.ts and market-simulator.ts) |
| `Series.ReturnsRecoverLastPrice` | src/lib/technical-indicators.ts:105-110 | applying the return to the first price gives the last price; for a positive first price the return is positive iff the price rose and zero iff it did not move |
| `TechnicalIndicators.Changes` | src/lib/technical-indicators.ts:6-9 | one change per consecutive pair of prices |
| `TechnicalIndicators.RecentChanges` | src/lib/technical-indicators.ts:11 | the last 14 changes are those between the last 15 prices |
| `TechnicalIndicators.GainsAndLosses` | src/lib/technical-indicators.ts:12-13 | gains and losses are non-negative, and the losses are zero iff no change is negative |
| `TechnicalIndicators.RsiFormulaRange` | src/lib/technical-indicators.ts:15-17 | the RSI formula lies in [0,100], is 100 iff the losses are zero, and with losses is above 50 iff gains exceed losses |
| `TechnicalIndicators.RSI` | src/lib/technical-indicators.ts:3-18 | 50 below 15 points; always in [0,100]; 100 iff no price fell in the last 14 moves |
| `TechnicalIndicators.NoFallsInRecent` | src/lib/technical-indicators.ts:11-15 | the recent changes are all non-negative iff the last 15 prices never fall |
| `TechnicalIndicators.RsiAboveHalfIffGainsWin` | src/lib/technical-indicators.ts:16-17 | with some loss, the RSI is above 50 iff gains exceed losses |
| `TechnicalIndicators.ClassifyTrendMonotone` | src/lib/technical-indicators.ts:33-37 | the trend label is monotone in the percentage difference and symmetric under negation |
| `TechnicalIndicators.DetectTrend` | src/lib/technical-indicators.ts:20-38 | neutral for at most 10 points (the older slice is empty); with a positive older average the trend is up iff the recent average exceeds it by more than 0.5 % and down iff it falls short by more than 0.5 % |
| `TechnicalIndicators.DiffThresholds` | src/lib/technical-indicators.ts:31-36 | the ±0.5 % thresholds on the difference are ratio tests on the averages |
| `TechnicalIndicators.Momentum` | src/lib/technical-indicators.ts:40-52 | 0 below 10 points; finite iff the older average is non-zero, and then the percentage change from the older five-point average to the recent one (`r * older == (recent - older) * 100`); for a positive older average, positive iff the recent average is higher and zero iff equal |
| `TechnicalIndicators.SignOfPercent` | src/lib/technical-indicators.ts:51 | over a positive base a percentage has the sign of the amount |
| `TechnicalIndicators.SupportResistance` | src/lib/technical-indicators.ts:78-103 | below 20 points, the ±5 % band with both distances 5; otherwise support is the price of rank `floor(0.1n)` and resistance the price of rank `floor(0.9n)`, support <= resistance, and each distance times its base (support, resp. the current price) gives 100 times the gap, finite iff that base is non-zero |
| `TechnicalIndicators.Level` | src/lib/technical-indicators.ts:89-92 | the `k`-th smallest price is one of the prices and has rank `k` |
| `TechnicalIndicators.LevelMonotone` | src/lib/technical-indicators.ts:91-92 | a lower rank never gives a higher level |
| `TechnicalIndicators.PercentileLevels` | src/lib/technical-indicators.ts:88-102 | from 20 points on, the levels are prices of ranks `floor(0.1n)` and `floor(0.9n)`, ordered, with the two distances as percentages of support and of the current price |
| `TechnicalIndicators.LevelsIgnoreOrder` | src/lib/technical-indicators.ts:78-103 | two histories with the same prices in any order give the same levels and distances |
| `TechnicalIndicators.Rises` | src/lib/technical-indicators.ts:118-120 | the number of rises is at most the number of moves |
| `TechnicalIndicators.PriceStrength` | src/lib/technical-indicators.ts:112-129 | neutral below 5 points; bullish and bearish are unreachable; strong bullish iff at least 3 of the last 4 moves rise, strong bearish iff at most 1, neutral iff exactly 2 |
| `TechnicalIndicators.SmoothBounds` | src/lib/technical-indicators.ts:154-156 | exponential smoothing stays within any bounds of the prices and the seed |
| `TechnicalIndicators.EMA` | src/lib/technical-indicators.ts:148-159 | the last price (0 for none) below `period` prices; otherwise the mean of the first `period` prices smoothed over the rest with multiplier `2 / (period + 1)` |
| `TechnicalIndicators.EmaAppend` | src/lib/technical-indicators.ts:154-156 | from `period` prices on, one more price moves the EMA by the multiplier times that price's distance from the old EMA |
| `TechnicalIndicators.EmaOfConstant` | src/lib/technical-indicators.ts:148-159 | the EMA of a non-empty constant list is that constant |
| `TechnicalIndicators.EmaBounds` | src/lib/technical-indicators.ts:148-159 | the EMA of a non-empty list lies within any bounds of its prices |
| `TechnicalIndicators.MACD` | src/lib/technical-indicators.ts:131-146 | all zeros below 26 points; from 26 points on the MACD line is the 12-period EMA minus the 26-period EMA of the prices; the signal always equals the MACD line and the histogram is 0 |
| `TechnicalIndicators.MacdBounded` | src/lib/technical-indicators.ts:136-139 | the MACD line is bounded by the price range |
| `TechnicalIndicators.SquaredDeviations` | src/lib/technical-indicators.ts:73 | one squared deviation per value |
| `TechnicalIndicators.Variance` | src/lib/technical-indicators.ts:70-76 | the variance is non-negative |
| `TechnicalIndicators.BollingerBands` | src/lib/technical-indicators.ts:161-180 | the fixed ±2 % band around the last price (0 for none) below `period` points; otherwise the middle is the mean of the last `period` prices, the bands are `middle ± root * multiplier`, and they are ordered for a non-negative multiplier |
| `TechnicalIndicators.BollingerMiddleInRange` | src/lib/technical-indicators.ts:171-172 | the middle band lies within the price range |
| `Forecasting.ForecastTrend` | src/lib/forecasting.ts:70-86 | the forecaster's trend is neutral up to 10 points, below 3 by its guard and from 3 to 10 because the empty older slice gives NaN |
| `Forecasting.PromptFigures` | src/lib/forecasting.ts:4-7 | the prompt's return is the percentage change from the first to the last of the last 20 points (0 below two points, non-finite for a zero first price), and its trend is the indicator trend of those points |
| `Forecasting.ForecastTrendIsIndicatorTrend` | src/lib/forecasting.ts:70-86 | the forecaster's trend, without the empty-slice guard and falling to neutral on NaN, always equals the indicator trend |
| `Forecasting.PredictFrom` | src/lib/forecasting.ts:102-109 | one point per remaining period, five minutes apart, each price floored at 70 % of the start |
| `Forecasting.PredictionPoints` | src/lib/forecasting.ts:88-112 | exactly `periods` points at `now + k*5min` for k = 1..periods, each price >= 70 % of the start |
| `Forecasting.PredictionTimesIncrease` | src/lib/forecasting.ts:106 | prediction timestamps strictly increase |
| `Forecasting.NoNoiseFrom` | src/lib/forecasting.ts:98-108 | without volatility the walk adds the per-period change each step, floored at 70 % of the start |
| `Forecasting.NoNoiseReachesTarget` | src/lib/forecasting.ts:98-108 | without volatility the last predicted price is the target price, floored at 70 % of the start |
| `Forecasting.GenerateForecast` | src/lib/forecasting.ts:3-61 | 10 predictions floored at 70 %; confidence 50 for a missing or zero value, 0 for a negative one, 100 above 100 and otherwise the reply's; 50 on failure; a failure forecasts no change |
| `Forecasting.FailureIsEmptyReply` | src/lib/forecasting.ts:36-59 | a failed reply gives the same forecast as a reply with no expected change and no confidence |
| `Forecasting.CalmForecastReachesTarget` | src/lib/forecasting.ts:36-41 | for an asset without volatility the tenth prediction is the target of the expected change (0 on failure), floored at 70 % of the price |
| `MarketSimulator.SimulateFrom` | src/lib/market-simulator.ts:45-50 | one point per remaining period ending at `now`, each price at least half the previous one |
| `MarketSimulator.InitializePriceHistory` | src/lib/market-simulator.ts:38-53 | `periods+1` points, five minutes apart and ending at `now`; the first price is at least half of 90 % of the current price and each price at least half the previous one |
| `MarketSimulator.HistoryTimesIncrease` | src/lib/market-simulator.ts:46 | history timestamps strictly increase |
| `MarketSimulator.HistoryStaysPositive` | src/lib/market-simulator.ts:43-48 | a positive current price gives an all-positive history |
| `MarketSimulator.GeneratePriceUpdate` | src/lib/market-simulator.ts:55-59 | the new price is at least the drifted price `current + (draw - 0.48) * volatility * current` and at least the 80 % floor, and equals one of them: the larger |
| `MarketSimulator.PriceUpdateBounded` | src/lib/market-simulator.ts:56-58 | for a draw in [0,1) the update rises by at most 52 % of the volatility |
| `CoinbaseApi.UpdatePriceWithRealData` | src/lib/coinbase-api.ts:178-187 | only the price and history change; the history has `min(n+1, 100)` points, ends with the new point and keeps the newest old points in order |
| `CoinbaseApi.KeptFromHistory` | src/lib/coinbase-api.ts:182-185 | the kept window ends with the new point and its other points are the newest old ones, in order |
| `CoinbaseApi.ShortHistoryIsExtended` | src/lib/coinbase-api.ts:182-185 | below the limit the new point is simply appended |
| `CoinbaseApi.UpdatesStayBounded` | src/lib/coinbase-api.ts:178-187 | any run of updates keeps at most 100 points and ends on the last price |
| `CoinbaseApi.RelativeReturns` | src/lib/coinbase-api.ts:165-169 | one relative return per consecutive pair |
| `CoinbaseApi.Volatility` | src/lib/coinbase-api.ts:162-176 | 0.02 below 2 points; finite iff no price except the last is zero; always clamped to [0.01, 0.05]: equal to the standard deviation when that is inside, 0.05 above it and 0.01 below it |
| `CoinbaseApi.ReturnsAreScaleFree` | src/lib/coinbase-api.ts:165-169 | scaling every price by a non-zero factor keeps the returns finite exactly when they were, and then leaves them unchanged |
| `CoinbaseApi.VolatilityIsScaleFree` | src/lib/coinbase-api.ts:162-176 | scaling every price by a non-zero factor leaves the volatility unchanged, with the same square root |
| `ApiKeys.ApiSecret` | src/hooks/use-api-keys.ts:16-19 | reads the entry `provider + "Secret"` |
| `ApiKeys.IsProviderEnabled` | src/hooks/use-api-keys.ts:21-23 | enabled iff the flag is present and true |
| `ApiKeys.IsProviderConfigured` | src/hooks/use-api-keys.ts:25-29 | configured iff the key is non-empty and, when a secret is required, the secret is non-empty |
| `ApiKeys.UsableIsOrderedSelection` | src/hooks/use-api-keys.ts:33 | the selection keeps, in list order, exactly the listed providers that are enabled and configured |
| `ApiKeys.EnabledAiProviders` | src/hooks/use-api-keys.ts:31-34 | exactly the AI providers that are enabled and have a key |
| `ApiKeys.EnabledTradingProviders` | src/hooks/use-api-keys.ts:36-39 | exactly the trading providers that are enabled and have both key and secret |
| `ApiKeysManager.ToggleKeyVisibility` | src/components/ApiKeysManager.tsx:83-93 | flips the provider's visibility and no other |
| `ApiKeysManager.ToggleTwiceIsIdentity` | src/components/ApiKeysManager.tsx:83-93 | toggling twice restores the set |
| `ApiKeysManager.HandleKeyUpdate` | src/components/ApiKeysManager.tsx:95-100 | writes exactly the key or secret entry; every other entry is unchanged |
| `ApiKeysManager.HandleToggleProvider` | src/components/ApiKeysManager.tsx:102-106 | sets only the provider's flag |
| `ApiKeysManager.HandleClearKey` | src/components/ApiKeysManager.tsx:115-123 | removes the key, and the secret when one is required; nothing else changes |
| `ApiKeysManager.ClearUndoesFreshKey` | src/components/ApiKeysManager.tsx:95-123 | clearing a freshly added key restores the map |
| `ApiKeysManager.GetKeyStatus` | src/components/ApiKeysManager.tsx:136-143 | configured iff configured; missing iff a secret is required and neither value is present; with no secret required a missing key reads partial |
| `AgentManager.CreateAgent` | src/components/AgentManager.tsx:44-60 | no agent iff the name is missing or empty; otherwise name, model and mode are copied, the agent is always enabled, falsy numbers fall back to 3/10/2/4/2/5, and communication defaults to true only when unset |
| `AgentManager.NamedInitialFormGivesDefaults` | src/components/AgentManager.tsx:30-60 | the initial form with a name yields the default agent |
| `AgentManager.CreateFromOwnForm` | src/components/AgentManager.tsx:44-60 | creating from an agent's own form gives the agent back iff it is enabled, named and has all six numbers non-zero |
| `SignalsDashboard.SortedSignals` | src/components/SignalsDashboard.tsx:15 | a permutation of the signals in non-increasing confidence |
| `SignalsDashboard.SortedSignalsAreStable` | src/components/SignalsDashboard.tsx:15 | signals of equal confidence keep their input order |
| `SignalsDashboard.HighConfidenceSignals` | src/components/SignalsDashboard.tsx:16 | exactly the non-hold signals with confidence >= 85, in non-increasing confidence |
| `SignalsDashboard.FilterKeepsOrder` | src/components/SignalsDashboard.tsx:16 | filtering keeps the confidence order |
| `SignalsDashboard.Cards` | src/components/SignalsDashboard.tsx:37-39 | at most 6 cards, each a shown high-confidence signal paired with an asset of its id |
| `SignalsDashboard.WithAssets` | src/components/SignalsDashboard.tsx:38-39 | every card pairs a signal with an asset of its id |
| `SignalsDashboard.ShownIffAssetKnown` | src/components/SignalsDashboard.tsx:38-39 | the number of cards is the number of signals whose asset is known |
| `SignalsDashboard.AllKnownKeepsAll` | src/components/SignalsDashboard.tsx:38-39 | when every asset is known, every signal is shown in order |
| `SignalsDashboard.CardsAreTopSix` | src/components/SignalsDashboard.tsx:37 | when every asset is known, the cards are the first `min(6, n)` high-confidence signals |
| `TradeJournal.RecentTrades` | src/components/TradeJournal.tsx:15 | the newest `min(50, n)` trades, newest first |
| `TradeJournal.ComputeStats` | src/components/TradeJournal.tsx:17-23 | the wins are the trades with positive P&L and the losses those with negative P&L; wins plus losses are at most the total; the average P&L times the count is the P&L sum with missing P&L as 0, and 0 with no trades; volume is the sum of totals |
| `TradeJournal.WinRate` | src/components/TradeJournal.tsx:25 | 0 with no trades; otherwise times the total it gives 100 times the wins; in [0,100]; 100 iff there are trades and all of them are profitable |
| `TradeJournal.FullWinRateIffAllWin` | src/components/TradeJournal.tsx:19-25 | the win rate is 100 iff every trade has positive P&L |
| `TradeJournal.StatsOfAppend` | src/components/TradeJournal.tsx:17-23 | the total, win, loss and volume figures of two journals put together are the sums of theirs |
| `TradeJournal.MeanOfAppend` | src/components/TradeJournal.tsx:21 | the average P&L of two journals put together is their trade-weighted average |
| `RiskManagement.RiskLevelOf` | src/components/RiskManagement.tsx:14-15 | high iff drawdown > 15, medium iff in (10, 15], low otherwise |
| `RiskManagement.RiskLevelMonotone` | src/components/RiskManagement.tsx:15 | a deeper drawdown never lowers the risk level |
| `RiskManagement.AverageLeverage` | src/components/RiskManagement.tsx:18-21 | 1 when no position has leverage above 1; otherwise the mean of those positions' leverages (times their count it gives their sum); at least 1, and above 1 iff some position has leverage above 1 |
| `RiskManagement.MeanOfLeverages` | src/components/RiskManagement.tsx:20 | the mean of leverages above 1 is above 1 and times their count gives their sum |
| `RiskManagement.UnleveragedPositionIgnored` | src/components/RiskManagement.tsx:18 | adding a position with leverage at most 1 anywhere leaves the average unchanged |
| `RiskManagement.ExposurePercent` | src/components/RiskManagement.tsx:23-26 | 0 unless the total value is positive; otherwise times the total value it gives 100 times the positions' marked value |
| `RiskManagement.ExposureNonNegative` | src/components/RiskManagement.tsx:23-26 | non-negative quantities and prices give non-negative exposure |
| `RiskManagement.PnlPercent` | src/components/RiskManagement.tsx:28-30 | 0 unless the starting balance is positive; otherwise times the start it gives 100 times the gain, and it is positive iff the value exceeds the start |

## Left out

- LLM calls: prompt building, `window.spark.llm` and `JSON.parse` are left out. Replies enter as parsed records (`AiAgents.Reply`, `Forecasting.ForecastReply`) or as failures. The reasoning strings and `generateUnifiedReasoning` are text only and are not modelled.
- Network I/O in `src/lib/coinbase-api.ts` is not modelled: the price fetches, the historical-data fetch and the fallback history.
- Time: `Date.now()` is a parameter `now`. `generateForecast` reads the clock twice; the model uses one `now` for the prediction points and the forecast timestamp.
- Ids: the `agent-${Date.now()}` and `trade-…` ids are parameters.
- `Trading.ExecuteTrade`: the three `Date.now()` reads (the trade id, the trade timestamp and a new position's `openedAt`, `src/lib/trading.ts:70`, `:77` and `:107`) are one `now`; the source's reads may differ by a millisecond.
- Randomness: each `Math.random()` is an explicit draw. The draws are not constrained to [0,1) except where a lemma says so.
- Concurrency: the throttle's promises and timers are modelled as one sequential drain loop. A timer fires exactly when due; nothing else interleaves with a running loop.
- `RateLimiter.Execute` returns where the source's `execute` does, at the loop's first `await`. The rest of that first turn is not a separate continuation: it is `RateLimiter.Step` run with the item still at the head of the queue, and `RateLimiter.ExecuteBeginsStep` relates the two. The two clock reads of one turn (`src/lib/rate-limiter.ts:32` and `:41`) are one `now` when no wait is due.
- `RateLimiter.Covers`: an item's outcome list must describe at least `maxRetries` calls. A thrown falsy value (which the source would not reject) is not modelled: every error is an `Err` outcome.
- Floating point: numbers are exact reals. Rounding, `toFixed` and `isFinite` guards are not modelled.
- Support/resistance indices: `Math.floor(n*0.1)` and `Math.floor(n*0.9)` are taken as exact integer parts.
- Division by zero is excluded by `requires` in these places:
  - the leverage, the starting balance and a merged quantity in `executeTrade` (`Trading.Executable`);
  - `period > 0` in `calculateEMA` and `calculateBollingerBands`.
- `CoinbaseApi.Volatility` returns `None` where the source's result is NaN, which happens when a price other than the last is zero.
- `Math.sqrt` is not computed. The standard deviation is a parameter `root` with `root >= 0` and `root * root` equal to the variance (`TechnicalIndicators.BollingerBands`, `CoinbaseApi.Volatility`).
- `calculateVolatilityTrend` and `calculateStdDev` used on its own are not modelled. The prompts use them only as text.
- `generateMultiModelSignal`: the news, technical and risk sub-analyses it attaches are prompt material only and are not modelled.
- `INITIAL_ASSETS`, `COINBASE_ASSETS` and the provider display configurations are data only and are not modelled.
- JavaScript string enums (actions, trends, statuses) are Dafny datatypes. The source's `x || d` fallbacks on possibly-missing fields are `Option` values with `OrElse`.
- Fields that may be missing in a persisted portfolio are plain reals, so their `|| 0` defaults collapse to the value itself. These are `currentDrawdown` in `RiskManagement.RiskLevelOf`, and `maxDrawdown` and `totalPnL` in `Trading.ExecuteTrade`.
- `TechnicalIndicators.DetectTrend`: states the direction of the trend, not the ±2 % strong/weak split. The split is in `ClassifyTrend` and `TechnicalIndicators.ClassifyTrendMonotone`.
- `UnifiedAgent.UnifiedLeverage`: states only the cap of 3. `UnifiedAgent.UnifiedLeverageBounds` relates it to the votes' range.
- The throttle's backoff is linear (`retryDelay*(attempt+1)`, only after a 429) and every error is retried until the attempts run out, as `src/lib/rate-limiter.ts:39-51` does; a failure without 429 is retried at once.
- `executeTrade` copies the portfolio shallowly (`{ ...portfolio }`) and then changes the matched position object in place when merging a buy or reducing a sell (`src/lib/trading.ts:82-97` and `:118`). Any other holder of the old portfolio would see those changes. Every operation here returns a new portfolio and leaves the old one as it was.
- `canExecuteTrade` checks a sell against the first position on the asset, of either type, while `executeTrade` matches on asset and type. The model keeps both as written.
- React rendering, toasts, the chart, `useKV` persistence and the purely presentational components are not part of this model.
