# Order-flow trading bot: a verified Dafny model

This project models the decision core of two Sierra Chart order-flow
trading studies written in C++ and proves properties of that model.

**MAN.cpp** is the "Advanced Order Flow Trading Bot". On every chart bar it
works through a fixed sequence:

1. It applies the day-start reset.
2. It checks the gates in order: the trading-enabled flag, the daily P&L
   limits, the session hours, the flatten time and the daily trade cap.
3. On a new bar it refreshes the order-flow aggregate: cumulative delta,
   imbalance and absorption.
4. It rebuilds the volume profile and its HVN and LVN lists.
5. It skips the rest of the bar when a position is open. An open position
   does not skip the two updates above.
6. It runs ten signal evaluators and collects the non-zero signals of the
   enabled ones.
7. It picks the most confident signal. A tie goes to the first one.
8. It validates that signal: the stop side, a reward-to-risk ratio of at
   least 1.5, and the portfolio heat.
9. It sizes the position from the risk budget, clamped to
   [1, 3 × base quantity], and submits a market order.

**c.cpp** is the simpler "Order Flow Trading Bot" study. On each new bar
from bar 10 on it does the following:

1. It passes a daily-loss and concurrent-trade check.
2. It approximates the bar's ask and bid volume from its direction.
3. It runs its absorption, iceberg and imbalance detectors.
4. It advances a cumulative delta.
5. It runs up to ten strategies. Each strategy builds trades with fixed
   tick offsets for the stop and the targets.

## Modelling approach

Prices and volumes are `real`. C++ `(int)` casts are modelled by
`Bars.TruncToInt`, which truncates toward zero.

Bars are a `seq<Bar>`. The host's current index (`sc.Index`) is an explicit
parameter `host`, kept apart from the loop's bar index `i`, because the
source's helpers read `sc.Index` while the evaluators read `i`.

Inputs with declared limits (`SetIntLimits` / `SetFloatLimits`) become
`Settings.ValidConfig`.

Float division by zero is modelled by the value the float code gets, not
ruled out by a precondition:

- A zero cumulative delta in the divergence test gives +inf, which passes
  the test.
- `std::min(cap, v / 0)` returns the cap.
- In c.cpp, a volume of 0 makes the absorption ratio test false.

### Modules

| module | file | what it models |
|---|---|---|
| Bars | bars.dfy | the bar record and the look-back sums and counts the evaluators share |
| Signals | signals.dfy | TradeSignal, strategy ranks, the overwrite order inside an evaluator |
| Settings | settings.dfy | the study inputs and their declared limits |
| Swings | swings.dfy | FindSwingPoints |
| OrderFlow | orderflow.dfy | UpdateOrderFlowData and the cumulative-delta series |
| Profile | profile.dfy | ProcessVolumeProfile |
| Chart | chart.dfy | what the evaluators read besides bars, plus shared helpers |
| FlowEvaluators | flowchecks.dfy | absorption, iceberg, divergence, imbalance, delta-trend and trap evaluators |
| LevelEvaluators | levelchecks.dfy | stop-run, HVN rejection, LVN breakout and momentum evaluators |
| Arbitration | arbitration.dfy | collecting the signals and `std::max_element` |
| Validation | validation.dfy | ValidateSignal and CalculatePositionSize |
| Session | session.dfy | the per-bar gates and order entry of the MAN.cpp study |
| StudyFlow | studyflow.dfy | CollectOrderFlowData and the detectors of c.cpp |
| StudyStrategies | studystrategies.dfy | the Execute*Strategy trade builders of c.cpp |
| StudyBot | studybot.dfy | the c.cpp entry function, its index guard and ExecuteStrategies |

## Model

| member | source | states |
|---|---|---|
| Bars.TruncToInt | MAN.cpp:638 | an `(int)` cast keeps the sign, drops less than one unit of magnitude, and equals the floor for non-negative values |
| Swings.HighestIndex | MAN.cpp:1600-1606 | the chosen bar's high is the maximum of the range, and every earlier bar in the range is strictly lower, so it is the first maximum |
| Swings.LowestIndex | MAN.cpp:1600-1606 | mirror of HighestIndex: the first bar holding the minimum low |
| Swings.FindSwingPoints | MAN.cpp:966-1001 | the early-exit nested scan returns exactly the reference list of swing extremes, in bar order; every point is the extreme of a bar within `lookback` of both ends of the chart |
| OrderFlow.Imbalance | MAN.cpp:699-703 | the one-sided share of traded volume lies in [0, 1] and is 0 exactly when ask and bid volume are equal |
| OrderFlow.UpdateOrderFlowData | MAN.cpp:676-715 | the update is a no-op before bar 1. Otherwise cumulative delta advances by the bar's ask minus bid volume and is written to the curve at the host index only. When volume traded, the imbalance becomes that bar's `Imbalance`, and otherwise it is kept. Absorption becomes volume per tick of range when the bar has both range and volume, and otherwise it is kept |
| Profile.VolumeAtBucket | MAN.cpp:725-753 | in the ascending histogram the volume held at a bucket's price is that bucket's volume, so each price has one bucket |
| Profile.Deposit | MAN.cpp:750-752 | adding volume at a price keeps the histogram ascending and adds that price. The volume at that price rises by exactly the amount, and the volume at every other price is unchanged |
| Profile.Spread | MAN.cpp:747-752 | depositing one share at each level from the bar's low upward adds exactly those levels. Each level's volume rises by one share and every other price is unchanged |
| Profile.SharesAddUp | MAN.cpp:745-752 | spreading a bar's volume evenly over its levels conserves it |
| Profile.AddBar | MAN.cpp:740-752 | one bar adds exactly its tick levels and exactly its volume to the histogram. Each of its levels gains volume / level count, and every other price is unchanged |
| Profile.LevelCount | MAN.cpp:745 | a bar spans max(1, floor(range / tick)) levels, at least one |
| Profile.Histogram | MAN.cpp:725-753 | the window's histogram holds exactly the window's tick levels, ascending, with the window's total volume. The volume at every price equals the bar-by-bar sum of the shares the window's bars put there. It is empty exactly when no bar is in the window |
| Profile.HvnMembership | MAN.cpp:782-785 | a price is on the HVN list if and only if some level at that price is flagged HVN |
| Profile.LvnMembership | MAN.cpp:788-791 | a price is on the LVN list if and only if some level at that price is flagged LVN |
| Profile.SelectedPricesAscending | MAN.cpp:769-793 | the HVN and LVN lists come out in strictly increasing price order, as `std::map` iteration gives them |
| Profile.Classify | MAN.cpp:757-793 | one level per histogram bucket with the same price and volume. The flags are taken against the mean volume per level times the multipliers. The lists are exactly the flagged prices |
| Profile.ProcessVolumeProfile | MAN.cpp:717-794 | the profile is rebuilt from the window `max(0, host - lookback) .. host` only. Its levels are the window's tick levels, each once, ascending, holding exactly the window's volume. Each level's volume is the bar-by-bar sum of the shares the window's bars put at its price. An empty window gives empty lists. Flags match the thresholds, and the lists are the flagged prices, ascending |
| Profile.NoBothFlags | MAN.cpp:766-778 | with volume present and the declared multiplier limits (HVN at least 1.2, LVN at most 0.8), no level is flagged both HVN and LVN |
| Profile.NodesDisjoint | MAN.cpp:717-794 | no price is on both the HVN and the LVN list of a profile with volume |
| Chart.ClosePosition | MAN.cpp:1625-1627 | the close position is non-negative exactly when the close is at or above the low, and lies in [0, 1] for a well-formed bar |
| Chart.VolumeBonus | MAN.cpp:1555-1574 | the volume bonus never exceeds 0.3; a zero average gives exactly 0.3 (std::min returns the cap against inf or NaN); volume above 1.2 times the average gives more than 0.2 |
| Chart.FirstWhere | MAN.cpp:1549-1584 | a range-for that breaks on its first hit returns the first satisfying index, or -1 exactly when none satisfies |
| FlowEvaluators.CheckLiquidityAbsorption | MAN.cpp:1007-1089 | no signal before bar 5. Short exactly when absorption at the high is confirmed; long exactly when absorption at the low is and the high check does not overwrite it. Confidence lies in [0.75, 1]. On a well-formed bar stop, entry and target are ordered and the reward is at least the risk |
| FlowEvaluators.IcebergTally | MAN.cpp:1106-1121 | the iceberg hit count never exceeds the bars scanned, and the truncating integer accumulator holds at least the minimum hit volume per hit |
| FlowEvaluators.CheckIcebergDetection | MAN.cpp:1091-1184 | no signal before the detection window fills. Sell-side iceberg gives a short; buy-side gives a long only when the sell check does not overwrite it. Confidence lies in [0.78, 0.9]; target is 1.5 times the risk |
| FlowEvaluators.CappedRatio | MAN.cpp:1207-1214 | the divergence bonus never exceeds its cap and reaches 0.1 whenever the ratio passes the 0.1 test, including the +inf case |
| FlowEvaluators.CheckDeltaDivergence | MAN.cpp:1186-1253 | bullish divergence gives a long, bearish a short unless bullish overwrites it. A short needs the high three ticks above every high of the lookback and a long the mirror. Confidence lies in [0.8, 0.95]; target is twice the risk |
| FlowEvaluators.CheckVolumeImbalance | MAN.cpp:1255-1321 | a long needs ask volume at least 3 times bid volume and a short the mirror (the 75% share test); signals fire exactly on the strong-imbalance conditions; confidence is at least 0.65 |
| FlowEvaluators.CheckCumulativeDeltaTrend | MAN.cpp:1689-1750 | no signal before bar 20; long exactly on a bullish delta trend, short exactly on a bearish one; confidence in [0.85, 0.9]; target 1.5 times the risk |
| FlowEvaluators.CheckLiquidityTraps | MAN.cpp:1752-1852 | no signal before bar 10. A downward spike always wins with a 0.7 long; an upward spike alone gives a 0.7 short. Otherwise a signal needs a heavy small bar and has confidence 0.65 |
| LevelEvaluators.FirstRunAbove | MAN.cpp:1341-1391 | the first swing high the bar ran above, or -1 exactly when it ran above none |
| LevelEvaluators.CheckStopRunAnticipation | MAN.cpp:1324-1450 | no signal before bar 20. A run above a swing high decides the signal before any run below a swing low is looked at. A signal fires exactly when some swing was run. Confidence is 0.65 or 0.7 |
| LevelEvaluators.FadeShortOrdering | MAN.cpp:1357-1366 | the fade short after a run above a swing high is correctly ordered exactly when the close is above the swing minus two ticks |
| LevelEvaluators.RejectionSignal | MAN.cpp:1474-1513 | rejection below a node gives a short with the stop two ticks above the node, otherwise a long with the stop two ticks below; always ordered with target 1.5 times the risk |
| LevelEvaluators.CheckHVNRejection | MAN.cpp:1452-1524 | a signal fires exactly when the bar is rejected at some HVN price, and is built from the first such node; confidence in [0.85, 0.9] |
| LevelEvaluators.BreakoutSignal | MAN.cpp:1555-1583 | breaking up through a node gives a long stopped a tick below it, otherwise a short stopped a tick above; a stop behind the entry means a target at twice the risk |
| LevelEvaluators.CheckLVNBreakout | MAN.cpp:1526-1587 | a signal fires exactly when the bar breaks through some LVN price, built from the first such node; confidence in [0.6, 0.9] on well-formed bars |
| LevelEvaluators.RangeHigh | MAN.cpp:1600-1605 | the range high bounds every high of the lookback |
| LevelEvaluators.CheckMomentumBreakout | MAN.cpp:1589-1687 | the downward check runs second and wins. A long needs a high above every high of the range, and a short a low below every low. Confidence lies in [0.6, 0.9]; a stop behind the entry means a target at twice the risk |
| Arbitration.AllSignals | MAN.cpp:571-621 | the ten evaluators run in a fixed order: position k holds the strategy of rank k |
| Arbitration.Collect | MAN.cpp:571-621 | the candidate list holds exactly the eligible signals (strategy enabled, direction non-zero) in evaluation order |
| Arbitration.MaxElement | MAN.cpp:628-631 | `std::max_element` with strict less-than on confidence returns the first index of maximal confidence |
| Arbitration.FirstMaxUnique | MAN.cpp:628-631 | the first maximum is unique, so MaxElement's result is determined |
| Arbitration.Pick | MAN.cpp:626-631 | among ten results in evaluation order: nothing is chosen exactly when none is eligible. Otherwise the choice is an eligible result, at least as confident as every eligible one, and strictly more confident than every eligible result before it |
| Arbitration.Arbitrate | MAN.cpp:568-631 | no winner exactly when no evaluator produced an eligible signal. The winner is eligible, one of the ten results, at least as confident as every eligible signal, and strictly more confident than every eligible signal of an earlier strategy |
| Arbitration.TieGoesToFirst | MAN.cpp:628-631 | worked example: on a tie of 0.9 the earlier candidate wins |
| Validation.ValidateSignal | MAN.cpp:868-895 | a signal is accepted exactly when it has a direction, its stop and target are on the correct sides of entry, reward / risk is at least 1.5, and the heat is within its ceiling; an accepted signal has positive risk and reward |
| Validation.RatioTest | MAN.cpp:884-887 | the float ratio test reward / risk < 1.5 agrees with the division-free test reward < 1.5 risk |
| Validation.PositionSize | MAN.cpp:839-866 | zero risk gives the base quantity. Otherwise the size lies in [1, 3 × base]. Inside the clamp, size × risk × point value equals the risk budget scaled by confidence. Outside it the size is clamped to 1 or to 3 × base |
| Validation.SizeMonotoneInConfidence | MAN.cpp:839-866 | a more confident signal is never sized smaller |
| Validation.AcceptedOrderQuantity | MAN.cpp:632-638 | an accepted signal is sent with an integer quantity between 1 and 3 × base |
| Validation.ThinRewardRejected | MAN.cpp:884-887 | worked example: a 0.9-confidence long with reward/risk 1/3 is rejected |
| Session.DayStart | MAN.cpp:476-492 | a new trading day enables trading, zeroes the trade count, cumulative delta and strategy counters; otherwise nothing changes |
| Session.Bump | MAN.cpp:659 | the winning strategy's counter goes up by one (from 0 if absent) and no other counter changes |
| Session.Enter | MAN.cpp:626-664 | an order is placed exactly when arbitration yields a winner that passes validation. It carries the winner's direction, strategy and stop and target offsets, with quantity in [1, 3 × base]. The trade count goes up only on an accepted order |
| Session.Prepared | MAN.cpp:556-561 | the state the evaluators see after the gates: on a new bar the flow record is advanced by `UpdateOrderFlowData` and the profile is rebuilt by `ProcessVolumeProfile` from the host's bar; otherwise it is the day-start state unchanged |
| Session.Step | MAN.cpp:473-667 | trading is only switched on by a new day; hitting a P&L limit disables trading, flattens an open position, and places no order. An order needs every gate open and a flat position. The trade count rises by one exactly on an accepted order and never passes the cap. Cumulative delta advances exactly when the gates are open on a new bar. The flow record and the profile are refreshed from the host's bar exactly when the gates are open on a new bar, open position or not, and are otherwise left as the day-start reset leaves them. With every gate open and no position, an order is placed exactly when the arbitration winner over the refreshed chart validates, and it carries that winner's direction, strategy and offsets. An open position is flattened exactly on a limit hit, or at the flatten time within trading hours, while trading is enabled. Trading stays enabled unless a limit is hit |
| Session.RunKeepsTradeCap | MAN.cpp:546-555 | over any sequence of bars the daily trade count never exceeds the cap |
| Session.EnabledOnlyByNewDay | MAN.cpp:476-505 | if trading is enabled after a run of bars, it was enabled before or a new trading day occurred in the run |
| Session.LastNewDay | MAN.cpp:476 | the last pass that opens a trading day: it opens one, and no later pass does; -1 exactly when none does |
| Session.RunCumDeltaIsSessionSum | MAN.cpp:476-483 | after any run of passes, cumulative delta is the sum of the bar deltas of the passes that reached the flow update (gates open, a new bar, host past bar 0) since the last new trading day. That day's reset starts the sum at 0; with no new day in the run it continues from the starting value |
| Session.NoTradingBeforeFirstDay | MAN.cpp:437-438 | starting from the initial state, no order can be placed before the first new trading day |
| StudyFlow.Approximate | c.cpp:228-237 | ask plus bid equals the bar volume, the split is 60/40 toward the bar's direction, and (with volume) ask exceeds bid exactly on an up bar |
| StudyFlow.DetectAbsorption | c.cpp:492-509 | before bar 3 the flag keeps its unset value. From bar 3 on it is 1 exactly when the bar's volume exceeds 1.5 times the mean of the three previous bars and its range is below 0.7 times their mean range; otherwise it is 0 |
| StudyFlow.TallyCountsSimilar | c.cpp:516-534 | the loop's similar-bar count equals the number of similar previous bars |
| StudyFlow.DetectIcebergOrders | c.cpp:511-542 | the flag is -1, 0 or 1 and is 0 before bar 5. It is non-zero exactly when at least two of four previous bars are similar and their volume exceeds three times the bar's. Its sign follows the bar's direction |
| StudyFlow.LiquidityImbalance | c.cpp:544-553 | 0 when nothing traded; within [-1, 1] for non-negative volumes; positive exactly when ask exceeds bid and negative exactly when bid exceeds ask |
| StudyFlow.CollectOrderFlowData | c.cpp:218-260 | on the approximation path ask plus bid is the bar volume, delta is ask minus bid and (with volume) positive exactly on an up bar; the imbalance lies in [-1, 1] |
| StudyStrategies.MakeTrade | c.cpp:367-371 | the construction every strategy repeats (here the absorption one; likewise c.cpp:396-400, 437-441, 473-477, 665-669, 724-728, 796-800, 875-879): entry and quantity as given, the stop on the losing side and the targets on the winning side, nearer first |
| StudyStrategies.AbsorptionTrade | c.cpp:349-382 | a trade exactly when absorption is flagged, |delta / volume| is below the threshold (false for zero volume), and volume exceeds 1.5 times the previous bar's. It fades the delta, with 4- and 8-tick offsets. Every trade is entered at the bar's close with the configured size |
| StudyStrategies.ApproximatedAbsorptionFadesBar | c.cpp:228-237 | under the volume approximation, an absorption trade always goes against the bar's direction |
| StudyStrategies.IcebergTradeAsWritten | c.cpp:384-409 | as written, a trade exactly when the iceberg flag is positive, and then always long. Every trade is entered at the bar's close with the configured size |
| StudyStrategies.SellIcebergIgnored | c.cpp:388-392 | as written, a sell-side iceberg (flag -1) never produces a trade |
| StudyStrategies.IcebergTrade | c.cpp:384-409 | corrected: a trade exactly when the iceberg flag is non-zero, in the flag's direction, with 6- and 12-tick offsets. Every trade is entered at the bar's close with the configured size |
| StudyStrategies.IcebergFollowsDetector | c.cpp:511-542 | with the corrected guard, every detected iceberg is traded in the detector's direction |
| StudyStrategies.ImbalanceTrade | c.cpp:411-451 | a trade exactly when one side holds more than 70% of the volume; long exactly when it is the ask side. Every trade is entered at the bar's close with the configured size |
| StudyStrategies.ApproximationNeverImbalanced | c.cpp:228-237 | under the 60/40 approximation the 70% imbalance test can never pass, so on the approximation path the strategy never trades |
| StudyStrategies.DivergenceTrade | c.cpp:453-486 | none before bar 5; a trade exactly on a bullish or bearish price/delta divergence; long exactly on the bullish one. Every trade is entered at the bar's close with the configured size |
| StudyStrategies.ApproximatedDivergenceFollowsBar | c.cpp:453-486 | under the approximation, a divergence trade's direction is determined by the bar's direction |
| StudyStrategies.TrapTrade | c.cpp:642-679 | a trade exactly on the trap pattern; long exactly on an up bar; 3- and 8-tick offsets. Every trade is entered at the bar's close with the configured size |
| StudyStrategies.HighBack | c.cpp:689-692 | the running maximum over the previous bars bounds every high and equals one of them |
| StudyStrategies.BreakoutTradeAsWritten | c.cpp:681-738 | as written, a long needs the close above the bar's own high as well as the ten previous highs, and a short the close below its own low as well as the ten previous lows. Every trade is entered at the bar's close with the configured size |
| StudyStrategies.BreakoutNeverFires | c.cpp:686-707 | as written, on any well-formed bar the breakout strategy never trades, because the close cannot exceed a high that includes the bar's own |
| StudyStrategies.BreakoutTrade | c.cpp:681-738 | corrected: a trade needs a volume surge. A long closes above all ten previous highs with positive delta, and a short closes below all ten previous lows with negative delta. A surge with positive delta and a close above all ten highs always trades long; the mirror always trades short. Offsets are 6 and 15 ticks. Every trade is entered at the bar's close with the configured size |
| StudyStrategies.StopRunTrade | c.cpp:740-812 | a trade exactly when, from bar 15 on, volume exceeds twice the mean of the three previous bars and the close is just past the ten-bar swing high (within three ticks below it and two above, strictly above) or the mirror at the swing low. It is long exactly on the run above the swing high. The trade is entered at the bar's close, and its quantity is the truncated 80% size |
| StudyStrategies.BucketsHoldVolume | c.cpp:838-845 | bucketing the window's volume into the 100 price levels conserves it |
| StudyStrategies.ScanMax | c.cpp:848-856 | the scan returns a volume bounding every bucket; a positive peak is the first bucket holding it; no volume leaves level 0 |
| StudyStrategies.HvnTrade | c.cpp:814-889 | a trade exactly when, from bar 50 on, the window has a price range, the close is within three ticks of the node, and the bar moved more than two ticks from the open. It fades the move. Every trade is entered at the bar's close with the configured size |
| StudyBot.PassesRiskChecks | c.cpp:569-585 | passes exactly when daily P&L is above minus the loss limit and active trades are below the limit |
| StudyBot.Offsets | c.cpp:349-889 | every trading strategy's stop offset is positive and smaller than its first-target offset |
| StudyBot.StrategyTrade | c.cpp:292-347 | each strategy's trade is of that strategy's kind and correctly shaped; the LVN and cumulative-delta strategies build none. Every trade is entered at the bar's close, with the configured size or, for the stop run, the truncated 80% of it |
| StudyBot.RunKinds | c.cpp:292-347 | running strategies in a fixed order yields exactly the trades of the switched-on ones among them, in that order |
| StudyBot.ExecuteStrategies | c.cpp:292-347 | a trade is in the list exactly when its strategy is switched on and builds it. The list follows the fixed order absorption, iceberg, traps, breakout, stop run, imbalance, divergence, HVN, so it holds at most one trade per strategy and at most eight |
| StudyBot.Process | c.cpp:172-212 | bars before 10 or already processed change nothing. Otherwise the last-processed index moves to the bar. Cumulative delta advances by the estimated delta exactly when a strategy is enabled and the risk checks pass; no trade is built otherwise. Past every gate the trades are exactly ExecuteStrategies' list for the bar's order-flow estimate |
| StudyBot.Guarded | c.cpp:182-186 | over any sequence of calls the indices the guard lets through are call indices, strictly increasing, never below 10 and above the starting last-processed index. The last one bounds every call index from bar 10 on |
| StudyBot.GuardedExactly | c.cpp:182-186 | the guard lets a call through exactly when its index is at least 10, above the starting last-processed index, and above every earlier call's index |
| StudyBot.Calls | c.cpp:172-212 | replaying the entry function over any sequence of calls processes exactly the indices the guard admits, in call order, and leaves the last-processed index at the last of them |

## Left out

- Host plumbing is not modelled: persistent storage handles and their null checks, subgraph and colour writes, logging (`LogTrade`, `AddMessageToLog`, `LogSystemStatus`) and the study set-up block.
- Order submission (`BuyEntry` / `SellEntry`) is a host call; its return code is the input `orderResult`. `FlattenPosition` is the `flatten` flag of the outcome.
- `UpdateRiskMetrics` reads the host's position and P&L records; the daily P&L and portfolio heat are inputs of each bar, and the account estimate is computed from an `averagePrice` input.
- `IsWithinTradingHours` and the flatten-time comparison read the clock; they are boolean inputs of each bar.
- `sc.SimpleMovAvg` is a host routine; its output, the delta moving average, is the input sequence `ma`.
- `CalculateVolatility` is never called by the per-bar logic and is not modelled.
- `GetIndexOfHighestValue` / `GetIndexOfLowestValue` are host routines; they are assumed to return the first index of the extreme.
- Float32 rounding is not modelled: prices and volumes are exact reals. Only the `(int)` casts are modelled.
- LevelEvaluators.CheckLVNBreakout: reads the previous bar without a guard; at bar 0 that is an out-of-range host read, so the model returns no signal there.
- In c.cpp the volume-at-price path (`ProcessVolumeAtPriceData`) reads the host's per-price volume arrays, which this model does not represent. Only the approximation path is modelled.
- `ManageActiveTrades` and the trade log of `ExecuteTrade` are not modelled.
- c.cpp's LVN and cumulative-delta strategies have empty bodies and build no trade; they are modelled as never trading.
- StudyFlow.DetectAbsorption: the source writes the flag into an uninitialised local record before bar 3; that indeterminate value is the parameter `unset`.
- c.cpp's `abs` on a float is taken to be the floating-point overload.
- FlowEvaluators.CheckLiquidityTraps: for the heavy-small-bar pattern the contract states only that a signal needs that pattern; which direction wins is left to the body.
- StudyBot.Calls: relates the processed indices, not the trades built.

## Findings

Both findings are in c.cpp's strategies. StudyBot takes a `Variant`. `AsWritten` runs the iceberg and breakout strategies as c.cpp writes them, and it is the study's behaviour. `Corrected` runs the corrected members below in their place.

| source | as written | input that shows it | evidently intended | confidence | as-written member | corrected member |
|---|---|---|---|---|---|---|
| c.cpp:388-392 | the iceberg strategy runs only when `IcebergDetected > 0` | a bar with the detector's flag at -1 (a bearish bar with a similar-volume cluster) | trade sell-side icebergs short, as the strategy's own direction test expects | not executed | StudyStrategies.SellIcebergIgnored | StudyStrategies.IcebergTrade |
| c.cpp:686-707 | the breakout's recent high and low are taken over the current bar and the ten before it, and the trade needs the close beyond them | any well-formed bar (low ≤ close ≤ high) | compare the close with the ten previous bars' high and low | not executed | StudyStrategies.BreakoutNeverFires | StudyStrategies.BreakoutTrade |
