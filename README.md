# Order-flow analysis and paper-trading pipeline

This project models the core of a browser extension that watches a crypto futures
trading page and paper-trades on what it sees. It is written in Dafny, and every
property listed below is proved. The pipeline has these stages:

- **Market snapshots.** The content script turns the scraped price, trade tape
  and order book into a market snapshot. It also has small order-book helpers:
  - a book diff;
  - a largest-order ("wall") finder;
  - spoofing and wall-movement detectors;
  - a 10-second price-momentum tracker;
  - a countdown parser.
- **Snapshot store.** The store keeps every snapshot and republishes the latest
  one and the snapshots of eight time windows.
- **Order-flow indicators.** The eight windows are summarised by order-flow
  indicators: slope, depth imbalance, wall score, order-flow pressure, and so on.
- **Candles.** The candle aggregator turns the latest snapshot into OHLCV candles
  for five frames, keeping the last 100 of each.
- **Technical indicators.** A candle series is reduced to the latest values of
  RSI, the MACD histogram, momentum, ROC, ATR, Bollinger band width, OBV and MFI,
  plus a volume-spike flag. SMA and the EMA series feed into these but are not
  reported themselves.
- **Candlestick patterns.** The series is scanned for eight patterns.
- **Scoring.** The analysis engine scores the indicators and the pattern names
  against a strategy configuration, giving BUY, SELL or NEUTRAL. The analysis
  service runs this on every one-minute candle list and keeps the last 100
  signals.
- **Trading bot.** The bot ticks once a second:
  - it closes an open position on stop-loss or take-profit;
  - otherwise, after a cooldown, it opens one on the first eligible timeframe
    signal.
- **Wallet and trade journal.** The wallet and the trade journal keep balances,
  positions and statistics.

Objects whose methods update fields in place are Dafny classes with `modifies`
clauses:
- the snapshot store;
- the aggregator;
- the analysis service;
- the bot;
- the wallet;
- the trade journal;
- the momentum tracker.

Each of their methods is specified against a function of the old state, and the
lemmas are proved about those functions. The loops of the source are `while`
or `for` loops with invariants, each proved equal to a specification function:
- the snapshot windows;
- the cache fan-out;
- EMA, RSI, OBV and MFI;
- the pattern scan;
- the signal loop;
- the book diff;
- the wall and spoofing detectors;
- the momentum pruning;
- the bot's scan over the enabled timeframes.

Pure computations are functions:
- the order-flow indicators;
- the candle builder;
- the scoring;
- the statistics.

Modelling conventions:
- A JavaScript `number` is a `real`, and timestamps are `int`.
- `undefined`, `null` and `NaN` results are `Option` values.
- A square root is a parameter (`sqrt`), since reals have no square root here.
- The clock (`Date.now()`) is a `now` parameter. So are the price the bot reads
  and the contents of browser storage.
- A `uuidv4()` id is a counter the service has not handed out before.

Some properties of the source as written that the model proves:

- **The wired pipeline is always neutral.** The analysis service passes only the
  last 3 candles to `compute`. That is fewer than the 30 it needs, so the
  indicator object is empty. No pattern name contains "bullish" or "bearish".
  The default strategy therefore produces NEUTRAL with score 0 on every candle
  list (`AnalysisLog.AsWiredAlwaysNeutral`). A log of neutral signals never
  makes the bot enter (`TradingBot.NeutralLogNeverEnters`).
- **Hammer never fires on a well-formed candle.** `isHammer` measures the lower
  shadow as `low - min(open, close)`, so a hammer needs a low above the open
  (`PatternDetection.HammerNeedsLowAboveOpen`). Every candle the aggregator
  builds has its low at most its open, since the low is the minimum price and
  the open is one of the prices.
- **A wallet round trip is asymmetric.** Closing a BUY position returns the cost
  at the exit price and adds the pnl on top of it. A buy round trip therefore
  changes the balance by twice the pnl, while a sell round trip leaves it
  unchanged (`Wallet.BuyRoundTrip`, `Wallet.SellRoundTrip`).

## Model

| member | source | states |
|---|---|---|
| MarketSnapshot.SidesPartition | src/content.js:16-20 | the buy-side and sell-side sums of the tape add up to the total size, since every trade is a buy or a sell |
| MarketSnapshot.SideWithinTotal | src/content.js:16-20 | with non-negative sizes, each side's sum lies between 0 and the total |
| MarketSnapshot.PercentBounds | src/content.js:21 | a share `part / whole * 100` with 0 ≤ part ≤ whole lies in [0, 100] (0 when the whole is falsy) |
| MarketSnapshot.CreateAnalysisSnapshot | src/content.js:9-57 | the snapshot keeps timestamp, price, trades, best rows and depths; buy and sell sizes add up to the total; the buy ratio and the book imbalance lie in [0, 100] for non-negative inputs, and the imbalance is 0 when both depths are 0; a spread exists exactly when both best rows have a non-zero price, and it is then ask minus bid |
| OrderBookSignals.GetFound | src/content.js:215-216 | a lookup in the price map returns an entry of the map that has that price |
| OrderBookSignals.MapSetGet | src/content.js:215-216 | setting a price in the map keeps the keys distinct; that price then maps to the new order and every other price keeps its entry |
| OrderBookSignals.GetSomeWhenPresent | src/content.js:215-216 | every price of an entry in the map is found |
| OrderBookSignals.PriceMapGet | src/content.js:215-216 | `new Map(orders.map(o => [o.price, o]))` has distinct keys and maps each price to the last order with that price |
| OrderBookSignals.EntryIffGet | src/content.js:215-216 | in a map with distinct keys, an order is an entry exactly when looking up its price returns it |
| OrderBookSignals.UpsertsStep | src/content.js:219-232 | the first loop's output over one more entry is its output so far followed by that entry's added or updated change |
| OrderBookSignals.RemovalsStep | src/content.js:235-239 | the second loop's output over one more entry is its output so far followed by that entry's removal, if any |
| OrderBookSignals.CompareOrderBooks | src/content.js:212-242 | the two loops return exactly the specified diff: additions and updates in current-map order, then removals in previous-map order |
| OrderBookSignals.UpsertsMember | src/content.js:219-232 | a change is produced by the first loop exactly when some current entry produces it |
| OrderBookSignals.RemovalsMember | src/content.js:235-239 | a change is produced by the second loop exactly when some previous entry produces it |
| OrderBookSignals.UpsertsNotRemoved | src/content.js:219-232 | the first loop never emits a removal |
| OrderBookSignals.RemovalsAllRemoved | src/content.js:235-239 | the second loop emits only removals |
| OrderBookSignals.UpsertsNone | src/content.js:219-232 | entries already in the previous map, with distinct keys, produce no addition or update |
| OrderBookSignals.RemovalsNone | src/content.js:235-239 | entries still present in the current map produce no removal |
| OrderBookSignals.DiffSelfEmpty | src/content.js:212-242 | comparing a book with itself yields no change |
| OrderBookSignals.DiffContents | src/content.js:212-242 | a change is in the diff exactly when: an "added" order is the last one at its price now and its price was absent before; an "updated" change carries the side and the old and new sizes at a price present in both books, with different sizes; a "removed" order was the last at its price before and its price is absent now. Stated of `Diff`, the model of what `compareOrderBooks` returns. |
| OrderBookSignals.DiffRemovalsLast | src/content.js:212-242 | every removal comes after every addition and update |
| OrderBookSignals.GetWall | src/content.js:331-341 | null exactly for an empty book; otherwise the first order whose size is the largest (no earlier order is as large, and no later one is larger) |
| OrderBookSignals.FirstLargestUnique | src/content.js:331-341 | at most one index is the first largest, so the wall is well defined |
| OrderBookSignals.KeyCountPositive | src/content.js:349-357 | the count for a side-price key is positive exactly when some large added or removed change has that key |
| OrderBookSignals.KeyCountPair | src/content.js:349-357 | the count exceeds 1 exactly when two distinct such changes share the key |
| OrderBookSignals.DetectSpoofing | src/content.js:345-365 | true exactly when two large (size ≥ 5) added or removed changes have the same side and price |
| OrderBookSignals.WallMovesCount | src/content.js:369-371 | the filter of large added or removed changes has at least one (or two) entries exactly when one (or two distinct) such changes exist |
| OrderBookSignals.WallMovementIff | src/content.js:367-375 | wall movement is reported exactly when two distinct changes are large additions or removals. Stated of `DetectWallMovement`, the model of `detectWallMovement`. |
| OrderBookSignals.SpoofingImpliesWallMovement | src/content.js:345-375 | whenever spoofing is detected, wall movement is detected too |
| OrderBookSignals.StaleCount | src/content.js:411-413 | the number of leading entries older than 10 s: all of them are stale and the next is not |
| OrderBookSignals.PrunedWithinWindow | src/content.js:411-413 | after pruning, a time-ordered history stays ordered and every kept entry is within 10 s of now |
| OrderBookSignals.FreshLastKept | src/content.js:408-413 | an entry pushed at `now` is never pruned |
| OrderBookSignals.SortedPush | src/content.js:408 | pushing a point no older than the last keeps the history in time order |
| OrderBookSignals.DivThreshold | src/content.js:420-423 | for a positive base, comparing `change / first` with a threshold is comparing change with threshold × first |
| OrderBookSignals.TrendThresholds | src/content.js:415-424 | for a positive first price, "rising" exactly when the move exceeds 0.1 % of it and "falling" exactly when it is below −0.1 % |
| OrderBookSignals.MomentumTracker.constructor | src/content.js:404 | the global history starts empty |
| OrderBookSignals.MomentumTracker.DetectMomentum | src/content.js:406-425 | the history becomes the pushed history minus its stale prefix; it ends with the new point; it stays time-ordered within the 10-s window; the trend is the one computed from that history |
| OrderBookSignals.Group | src/content.js:445 | a matched `\d{1,2}` group is a value below 100, and the match advances within the string |
| OrderBookSignals.MatchAt | src/content.js:445-446 | a match at a position yields hours, minutes and seconds each below 100 |
| OrderBookSignals.FirstMatch | src/content.js:446 | the leftmost match yields fields each below 100 |
| OrderBookSignals.ParseCountdownToSeconds | src/content.js:442-452 | 0 for a missing or empty string and when the pattern does not match; otherwise h·3600 + m·60 + s of the leftmost match; never above 99 h 99 m 99 s |
| OrderBookSignals.GroupReadsField | src/content.js:445 | a `\d{1,2}` group of one or two digits followed by its literal is read as that number, and scanning resumes after the literal |
| OrderBookSignals.CountdownMatches | src/content.js:445-446 | text of the form `h:m:s` with one- or two-digit fields matches the countdown pattern at its first position, with those three numbers |
| OrderBookSignals.CountdownRoundTrip | src/content.js:442-452 | parsing `h:m:s` text whose fields have one or two digits each gives back h·3600 + m·60 + s |
| SnapshotState.Window | src/app/services/snapshot-state.service.ts:81-83 | a window is no longer than the whole history |
| SnapshotState.WindowMembers | src/app/services/snapshot-state.service.ts:81-83 | a snapshot is in a window exactly when it is in the history and no older than `now - seconds*1000` |
| SnapshotState.WindowEmpty | src/app/services/snapshot-state.service.ts:81-83 | when every snapshot is too old the window is empty |
| SnapshotState.WindowIsSuffix | src/app/services/snapshot-state.service.ts:81-83 | for a history in time order, a window is a suffix of it |
| SnapshotState.WindowNested | src/app/services/snapshot-state.service.ts:69-85 | a shorter window is the shorter filter of a longer window, so the eight windows are nested |
| SnapshotState.SnapshotStore.constructor | src/app/services/snapshot-state.service.ts:21-34 | empty history, last timestamp 0, no latest snapshot and eight empty windows |
| SnapshotState.SnapshotStore.Load | src/app/services/snapshot-state.service.ts:39-46 | the history becomes the stored list or empty; the last timestamp is that of its last entry or 0; the latest snapshot and all windows are refreshed |
| SnapshotState.SnapshotStore.HandleNewSnapshot | src/app/services/snapshot-state.service.ts:48-60 | a snapshot with the last timestamp changes nothing; any other is appended without a cap, becomes the latest and the last timestamp, and the windows are refreshed; the store invariant is kept |
| SnapshotState.SnapshotStore.RefreshSubjects | src/app/services/snapshot-state.service.ts:62-86 | the history is unchanged, the latest snapshot is its last entry or null, and each of the eight windows is the filter for its number of seconds |
| CandleAggregator.FrameOfKey | src/app/services/candle-aggregator.service.ts:83-98 | a key maps to the frame whose key it is, and to none ("Invalid key") exactly when no frame has that key |
| CandleAggregator.KeyRoundTrip | src/app/services/candle-aggregator.service.ts:83-98 | every frame's key leads back to that frame |
| CandleAggregator.IndexOf | src/app/services/candle-aggregator.service.ts:25-31 | each frame has a position in the five-frame list |
| Util.MaxOf | src/app/services/candle-aggregator.service.ts:76 | `Math.max(...xs)` on a non-empty list: an upper bound that is one of the elements. It is also the wall size of indicator.service.ts:109-117 and the `maxGain` of bot-trade-log.service.ts:46 |
| Util.MinOf | src/app/services/candle-aggregator.service.ts:77 | `Math.min(...xs)` on a non-empty list: a lower bound that is one of the elements. It is also the `maxLoss` of bot-trade-log.service.ts:47 |
| CandleAggregator.VolumeSumNonNegative | src/app/services/candle-aggregator.service.ts:71-79 | summed non-negative sizes are non-negative |
| CandleAggregator.BuildCandle | src/app/services/candle-aggregator.service.ts:69-81 | the candle starts at the given time, opens at the first price and closes at the last; low ≤ every price ≤ high, both attained, so low ≤ open, close ≤ high; its volume is non-negative for non-negative sizes |
| CandleAggregator.NextCandles | src/app/services/candle-aggregator.service.ts:65 | `[...current.slice(-99), candle]`: length grows by one up to 100, ends with the candle, and keeps the latest earlier candles in order |
| CandleAggregator.NextKeepsShape | src/app/services/candle-aggregator.service.ts:65 | appending a well-formed candle keeps every candle well-formed |
| CandleAggregator.StepKeepsShape | src/app/services/candle-aggregator.service.ts:51-67 | one aggregation keeps the candle list well-formed and at most 100 long |
| CandleAggregator.StepEffect | src/app/services/candle-aggregator.service.ts:55-66 | with no snapshot inside the interval, neither the cache nor the candles change; otherwise the cache is emptied and the earlier candles are the latest 99 |
| CandleAggregator.Aggregator.constructor | src/app/services/candle-aggregator.service.ts:16-31 | every frame starts with an empty cache and no candles |
| CandleAggregator.Aggregator.OnSnapshot | src/app/services/candle-aggregator.service.ts:44-48 | a null snapshot changes nothing; otherwise it is appended to the cache of every frame; the candles are unchanged |
| CandleAggregator.Aggregator.Aggregate | src/app/services/candle-aggregator.service.ts:51-67 | only the given frame's cache and candles change, to one aggregation step |
| CandleAggregator.Aggregator.Tick | src/app/services/candle-aggregator.service.ts:35-41 | every frame takes one aggregation step with its own interval (1, 5, 15, 60, 300 s) |
| OrderFlowIndicators.Avg | src/app/services/indicator.service.ts:154-156 | the mean of an empty list is 0 |
| Util.MeanBetween | src/app/services/indicator.service.ts:154-156 | the mean of values in [lo, hi] lies in [lo, hi]. This covers `avg` here, `avg` in technical-indicators.service.ts:189-191 and `avgPnL` in bot-trade-log.service.ts:43-44 |
| OrderFlowIndicators.Indices | src/app/services/indicator.service.ts:166 | the x values are 0, 1, …, n−1 |
| OrderFlowIndicators.LinearSlope | src/app/services/indicator.service.ts:164-179 | the slope is 0 for fewer than two values |
| OrderFlowIndicators.SumOfLine | src/app/services/indicator.service.ts:167-168 | the sum of points on a line a + b·i is n·a + b·Σi |
| OrderFlowIndicators.CrossSumOfLine | src/app/services/indicator.service.ts:170-175 | for points on a line, the numerator of the least-squares slope is b times the denominator |
| OrderFlowIndicators.SquareSumMonotone | src/app/services/indicator.service.ts:170-175 | the denominator is non-negative and grows with the number of points |
| OrderFlowIndicators.SquareSumPositive | src/app/services/indicator.service.ts:170-178 | with at least two points the denominator is positive, so the division is taken |
| OrderFlowIndicators.MeanOfLine | src/app/services/indicator.service.ts:167-168 | the mean of points on a line is the line at the mean x |
| OrderFlowIndicators.LinearSlopeOfLine | src/app/services/indicator.service.ts:164-179 | for two or more points lying on a line a + b·i, the least-squares slope is exactly b |
| OrderFlowIndicators.RatioOfMultiple | src/app/services/indicator.service.ts:178 | a guarded ratio of b·den over a non-zero den is b |
| OrderFlowIndicators.MaxTradeSize | src/app/services/indicator.service.ts:92 | `Math.max(...sizes, 0)`: non-negative, at least every trade's size, and 0 or one of the sizes |
| OrderFlowIndicators.CountAbove | src/app/services/indicator.service.ts:93-94 | the number of large trades is at most the number of trades |
| OrderFlowIndicators.TopSizes | src/app/services/indicator.service.ts:108-111 | two top sizes (bid and ask) per snapshot |
| OrderFlowIndicators.Pressure | src/app/services/indicator.service.ts:102 | finite when the average spread is non-zero; with a zero spread it is +∞ or −∞ exactly when the numerator is positive or negative, and NaN (0 here) otherwise |
| OrderFlowIndicators.VolumeImbalance | src/app/services/indicator.service.ts:85-89 | the buy share in percent lies in [0, 100] for non-negative sizes, and is 0 when there is no volume |
| OrderFlowIndicators.AggressiveRatio | src/app/services/indicator.service.ts:93-95 | the aggressive-trade share lies in [0, 100] and is 0 without trades |
| OrderFlowIndicators.EarlyReversal | src/app/services/indicator.service.ts:126-130 | 0 or 1; 1 exactly when (depthImbalance − 1)·momentum < 0, i.e. book and momentum point opposite ways; 0 whenever the imbalance is 1 or the momentum is 0 |
| OrderFlowIndicators.PriceChange | src/app/services/indicator.service.ts:79 | 0 exactly when the price is unchanged; for a positive first price, positive exactly when the last price is above it (below it for a negative first price) |
| OrderFlowIndicators.Momentum | src/app/services/indicator.service.ts:76-80 | zero when the first and last snapshots share a timestamp, since a zero elapsed time gives 0 |
| OrderFlowIndicators.WallScore | src/app/services/indicator.service.ts:108-117 | the wall score is 0 when there is no depth |
| OrderFlowIndicators.Calc | src/app/services/indicator.service.ts:50-151 | for fewer than two snapshots, the all-zero result of its timeframe. Otherwise: priceChange's sign is the sign of the relative move; momentum is 0 over zero elapsed time; volume imbalance and aggressive ratio lie in [0, 100] and are 0 without volume or trades; maxTradeSize bounds every trade; depth imbalance is 0 without sell depth and the wall score is 0 without depth; pressure is finite unless the spread average is 0; earlyReversal is exactly the disagreement flag; slope is the least-squares slope of the prices. `Stddev` (`stddev`, with `sqrt` a parameter) and `Acceleration` (the second difference of the first, middle and last price over n squared) have no contract of their own and are fixed by this one's body. |
| OrderFlowIndicators.AllIndicators | src/app/services/indicator.service.ts:38-47 | one result per timeframe tag, in order, each the calculation over its window |
| TechnicalIndicators.Mean | src/app/services/technical-indicators.service.ts:189-191 | the mean times the count is the sum |
| TechnicalIndicators.Sma | src/app/services/technical-indicators.service.ts:48-52 | one entry per price, undefined exactly for the first period−1 |
| TechnicalIndicators.SmaWithinRange | src/app/services/technical-indicators.service.ts:48-52 | every defined SMA lies within the range of the prices |
| TechnicalIndicators.Alpha | src/app/services/technical-indicators.service.ts:55 | k = 2/(period+1) lies in (0, 2], and in (0, 1] for a period of at least 1 |
| TechnicalIndicators.EmaSeries | src/app/services/technical-indicators.service.ts:54-62 | one value per price, starting at the first price |
| TechnicalIndicators.EmaAppend | src/app/services/technical-indicators.service.ts:57-60 | one more price extends the series by its blend with the previous value |
| TechnicalIndicators.EmaStep | src/app/services/technical-indicators.service.ts:57-60 | each value after the first is p·k + previous·(1−k) |
| TechnicalIndicators.EmaLowerBound | src/app/services/technical-indicators.service.ts:54-62 | for 0 ≤ k ≤ 1, a lower bound of the prices bounds the EMA |
| TechnicalIndicators.EmaUpperBound | src/app/services/technical-indicators.service.ts:54-62 | for 0 ≤ k ≤ 1, an upper bound of the prices bounds the EMA |
| TechnicalIndicators.EmaExtend | src/app/services/technical-indicators.service.ts:57-60 | the EMA of a prefix one longer is the shorter EMA plus the next blended value |
| TechnicalIndicators.Ema | src/app/services/technical-indicators.service.ts:54-62 | the loop returns the EMA series with k = 2/(period+1) |
| TechnicalIndicators.MacdOf | src/app/services/technical-indicators.service.ts:64-72 | all lines have one value per price; the MACD line is EMA12 − EMA26, the signal line is the EMA9 of it, and the histogram is their difference |
| TechnicalIndicators.MacdFlat | src/app/services/technical-indicators.service.ts:64-72 | for constant prices every MACD, signal and histogram value is 0 |
| TechnicalIndicators.SeedSums | src/app/services/technical-indicators.service.ts:80-87 | the seed gains and losses are non-negative |
| TechnicalIndicators.WilderNonNegative | src/app/services/technical-indicators.service.ts:94-99 | Wilder smoothing of non-negative values stays non-negative |
| TechnicalIndicators.Smoothed | src/app/services/technical-indicators.service.ts:80-101 | the smoothed average gain and loss are non-negative at every step |
| TechnicalIndicators.RsiValue | src/app/services/technical-indicators.service.ts:89-100 | undefined (NaN) exactly when gains and losses are both 0; otherwise in [0, 100]; below 100 when there are losses; 100 when there are gains and no losses |
| TechnicalIndicators.RsiSeries | src/app/services/technical-indicators.service.ts:75-104 | one entry per price, each the RSI at that index (undefined before `period`) |
| TechnicalIndicators.RsiBounds | src/app/services/technical-indicators.service.ts:89-101 | every defined RSI lies in [0, 100], and it is defined and below 100 when the smoothed loss is positive |
| TechnicalIndicators.Rsi | src/app/services/technical-indicators.service.ts:75-104 | the seed loop and the smoothing loop return exactly the RSI series |
| TechnicalIndicators.SmoothStep | src/app/services/technical-indicators.service.ts:91-99 | a rise feeds the gain average and a fall feeds the loss average, each Wilder-smoothed |
| TechnicalIndicators.RsiSeed | src/app/services/technical-indicators.service.ts:80-87 | the seed averages are the smoothed values at index `period` |
| TechnicalIndicators.Momentum | src/app/services/technical-indicators.service.ts:106-108 | one entry per price, undefined exactly before `period`, and otherwise the difference with the price `period` steps back |
| TechnicalIndicators.Roc | src/app/services/technical-indicators.service.ts:110-114 | one entry per price, undefined exactly before `period` or when the base price is 0 |
| TechnicalIndicators.RocIsScaledMomentum | src/app/services/technical-indicators.service.ts:106-114 | ROC times the base price is 100 × momentum |
| TechnicalIndicators.Max3 | src/app/services/technical-indicators.service.ts:125-129 | `Math.max` of three values bounds them and is one of them |
| TechnicalIndicators.TrueRange | src/app/services/technical-indicators.service.ts:123-130 | the true range is non-negative |
| TechnicalIndicators.Atr | src/app/services/technical-indicators.service.ts:117-133 | one value per candle, all non-negative for a period of at least 1 |
| TechnicalIndicators.Bollinger | src/app/services/technical-indicators.service.ts:135-147 | one entry per price, null exactly for the first period−1; the middle band is the window mean and the bands are symmetric around it |
| TechnicalIndicators.ObvSeries | src/app/services/technical-indicators.service.ts:150-158 | starts at 0 with one value per price (a single 0 for no prices); its up/down/tie step is stated by ObvStep |
| TechnicalIndicators.ObvStep | src/app/services/technical-indicators.service.ts:150-158 | each later value is the previous plus the volume on an up-close, minus it on a down-close, unchanged on a tie |
| TechnicalIndicators.ObvBounded | src/app/services/technical-indicators.service.ts:150-158 | for non-negative volumes, the final OBV is bounded in absolute value by the sum of the volumes after the first |
| TechnicalIndicators.Obv | src/app/services/technical-indicators.service.ts:150-158 | the loop returns exactly the OBV series |
| TechnicalIndicators.FlowsNonNegative | src/app/services/technical-indicators.service.ts:174-180 | for non-negative candles the positive and negative money flows are non-negative |
| TechnicalIndicators.MfiValue | src/app/services/technical-indicators.service.ts:181-182 | with non-negative flows the MFI is defined and lies in [0, 100) |
| TechnicalIndicators.MfiSeries | src/app/services/technical-indicators.service.ts:160-186 | empty when there are at most `period` closes, else one value per close |
| TechnicalIndicators.MfiBounds | src/app/services/technical-indicators.service.ts:174-183 | for non-negative candles every MFI from index `period` on is defined and in [0, 100) |
| TechnicalIndicators.Mfi | src/app/services/technical-indicators.service.ts:160-186 | the nested loops return exactly the MFI series |
| TechnicalIndicators.LatestRsi | src/app/services/technical-indicators.service.ts:15 | the latest RSI(14), when defined, lies in [0, 100] |
| TechnicalIndicators.LatestMfi | src/app/services/technical-indicators.service.ts:29 | the latest MFI(14) of non-negative candles is defined and in [0, 100) |
| TechnicalIndicators.LatestMomentum | src/app/services/technical-indicators.service.ts:18 | the latest 10-step momentum is the last close minus the close 10 steps before |
| TechnicalIndicators.LatestAtr | src/app/services/technical-indicators.service.ts:20 | the latest ATR(14) is non-negative |
| TechnicalIndicators.Compute | src/app/services/technical-indicators.service.ts:5-46 | empty exactly for fewer than 30 candles. Otherwise: the volume-spike flag is the spike test on the volumes; a defined RSI lies in [0, 100]; the ATR is non-negative; momentum is the 10-step close difference; for non-negative candles the MFI is defined and in [0, 100) |
| PatternDetection.Rank | src/app/services/pattern-detection.service.ts:31-92 | each rule has its position in the scan order |
| PatternDetection.HitsAt | src/app/services/pattern-detection.service.ts:31-92 | at index i, each of the eight rules yields its pattern (name, strength, direction, candle indexes, timestamp of candle i) exactly when its test holds. The tests are the predicates `IsDoji`, `IsHammer`, `IsInvertedHammer`, `IsBullishEngulfing`, `IsBearishEngulfing`, `IsEngulfing`, `IsMorningStar`, `IsEveningStar`, `IsThreeWhiteSoldiers` and `IsThreeBlackCrows` (the `is*` methods), and `Build` is `buildPattern`. |
| PatternDetection.DetectAll | src/app/services/pattern-detection.service.ts:21-96 | the nested scan returns exactly the detected list, which is empty for fewer than 5 candles |
| PatternDetection.DetectAt | src/app/services/pattern-detection.service.ts:27-92 | the eight tests at one index extend the list by that index's matches in rule order |
| PatternDetection.ScanToWellFormed | src/app/services/pattern-detection.service.ts:98-106 | every pattern found so far is sound: its rule really fires at its last index; its indexes are consecutive, span the rule and end at a valid candle; it carries that candle's timestamp and the rule's strength and direction |
| PatternDetection.ScanToBefore | src/app/services/pattern-detection.service.ts:26-92 | every pattern found so far ends before i, or at i with an earlier rule |
| PatternDetection.ScanToOrdered | src/app/services/pattern-detection.service.ts:26-92 | the partial output is ordered by last index, then by rule order |
| PatternDetection.ScanToComplete | src/app/services/pattern-detection.service.ts:26-92 | every match at an earlier index, or at i with an earlier rule, is in the partial output |
| PatternDetection.DetectedWellFormed | src/app/services/pattern-detection.service.ts:21-106 | every detected pattern is sound: its rule fires at its last candle, with the rule's indexes, strength, direction and that candle's timestamp |
| PatternDetection.DetectedOrdered | src/app/services/pattern-detection.service.ts:21-96 | the detected list is ordered by last candle index, then rule order |
| PatternDetection.DetectedComplete | src/app/services/pattern-detection.service.ts:21-96 | with at least 5 candles, every rule that matches at any index 2.. is reported |
| PatternDetection.DojiExample | src/app/services/pattern-detection.service.ts:110-114 | a candle with body 4 and range 10 is not a doji (the body must be at most 10 % of the range) |
| PatternDetection.HammerNeedsLowAboveOpen | src/app/services/pattern-detection.service.ts:116-120 | a candle whose low is at or below its open is never a hammer, because the lower shadow is measured as low minus the body bottom |
| PatternDetection.EngulfingColours | src/app/services/pattern-detection.service.ts:128-146 | an engulfing pair has opposite colours, and its direction is bullish exactly when the second candle is green. Stated of `EngulfingDirection`, the model of `engulfingDirection`. |
| PatternDetection.ExclusiveRules | src/app/services/pattern-detection.service.ts:148-182 | morning and evening star never both match at one index, and neither do three white soldiers and three black crows |
| AnalysisEngine.JoinAssociative | src/app/services/analysis-engine.ts:28-77 | accumulating score and reasons is associative, so the sections can be scored separately. `Total` is the sum of the parts, and `PatternsPart` is the pattern section as a fold over the names. |
| AnalysisEngine.ToLower | src/app/services/analysis-engine.ts:68 | lower-casing keeps the length and maps each character |
| AnalysisEngine.ContainsLetters | src/app/services/analysis-engine.ts:68 | if a string contains a substring, it contains each of its letters |
| AnalysisEngine.RsiPart | src/app/services/analysis-engine.ts:31-43 | a reason is added exactly when RSI is enabled, defined and outside [30, 70]; no reason means no score change; at most one reason |
| AnalysisEngine.MacdPart | src/app/services/analysis-engine.ts:45-56 | a reason is added exactly when MACD is enabled and its histogram is defined; no reason means no score change; at most one reason |
| AnalysisEngine.VolumePart | src/app/services/analysis-engine.ts:58-64 | a reason is added exactly when the volume spike is enabled and flagged; no reason means no score change; at most one reason |
| AnalysisEngine.FinalAction | src/app/services/analysis-engine.ts:79-84 | BUY exactly when score ≥ minScore; SELL exactly when score < minScore and score ≤ −minScore |
| AnalysisEngine.Filtered | src/app/services/analysis-engine.ts:87-92 | the filter either keeps the action or makes it NEUTRAL, and changes it exactly for SELL under long-only and BUY under short-only |
| AnalysisEngine.ScoreIndicators | src/app/services/analysis-engine.ts:28-64 | the statements compute the RSI, MACD and volume contributions in that order |
| AnalysisEngine.ScoreName | src/app/services/analysis-engine.ts:67-76 | one pattern name adds its bullish and bearish contributions |
| AnalysisEngine.ScorePatterns | src/app/services/analysis-engine.ts:66-77 | the loop adds the contributions of all names in order |
| AnalysisEngine.AnalyzeData | src/app/services/analysis-engine.ts:22-98 | the signal is the scored and filtered analysis, stamped with the given time and timeframe. `Analysis` is that scored and filtered signal as a function. |
| AnalysisEngine.PatternsPartReasons | src/app/services/analysis-engine.ts:66-77 | names that add no reason add no score |
| AnalysisEngine.PatternsPartNeutral | src/app/services/analysis-engine.ts:66-77 | names with neither "bullish" nor "bearish" contribute nothing |
| AnalysisEngine.NoReasonsNoScore | src/app/services/analysis-engine.ts:28-77 | a signal without reasons has score 0 |
| AnalysisEngine.NothingEnabled | src/app/services/analysis-engine.ts:31-77 | with none of the four keys enabled, the score is 0 and there are no reasons |
| AnalysisEngine.FilterOnlyNeutralises | src/app/services/analysis-engine.ts:79-92 | the action is the raw action or NEUTRAL; long-only never sells and short-only never buys |
| AnalysisEngine.NeutralWithoutEvidence | src/app/services/analysis-engine.ts:22-98 | with undefined indicators and no polar pattern names, and minScore > 0, the signal is NEUTRAL with score 0 and no reasons |
| AnalysisLog.Appended | src/app/services/analysis.service.ts:58-62 | the log grows by one up to 100 and ends with the new signal |
| AnalysisLog.AppendedKeepsLast | src/app/services/analysis.service.ts:60 | appending is "the last 100 of the log plus the signal" |
| AnalysisLog.OfTimeframe | src/app/services/analysis.service.ts:65 | the filter keeps only signals of that timeframe |
| AnalysisLog.LatestIsLastMatch | src/app/services/analysis.service.ts:64-66 | `filter(...).at(-1)` is undefined exactly when no signal has that timeframe, and otherwise it is the last one that has it |
| AnalysisLog.LatestAfterAppend | src/app/services/analysis.service.ts:58-66 | right after appending, the latest signal of its timeframe is that signal |
| AnalysisLog.AppendedAllKeepsLast | src/app/services/analysis.service.ts:43-51 | appending several signals one by one keeps the last 100 of the log followed by all of them |
| AnalysisLog.AppendedAllStep | src/app/services/analysis.service.ts:43-51 | the last-100 characterisation survives one more append |
| AnalysisLog.AppendedAllPrefix | src/app/services/analysis.service.ts:43-51 | appending one more signal of the batch is one append step |
| AnalysisLog.TakeLastOfTakeLast | src/app/services/analysis.service.ts:60 | trimming to 100 before appending and trimming again equals trimming once |
| AnalysisLog.Input | src/app/services/analysis.service.ts:38 | an empty indicator object reads as undefined fields; a full one passes RSI, the MACD histogram and the spike flag |
| AnalysisLog.Names | src/app/services/analysis.service.ts:39-41 | one name per detected pattern, in order |
| AnalysisLog.SignalsFor | src/app/services/analysis.service.ts:43-51 | one signal per strategy, in order, each the analysis under that strategy's timeframe |
| AnalysisLog.IndicatorsAlwaysEmpty | src/app/services/analysis.service.ts:37-38 | `compute` of the last three candles is empty, so every indicator field is undefined |
| AnalysisLog.MissingLetter | src/app/services/analysis-engine.ts:68-72 | a string lacking a letter of a word does not contain the word |
| AnalysisLog.LowerLacks | src/app/services/analysis-engine.ts:68-72 | a string without a letter in either case has no lower-case copy of it after `toLowerCase` |
| AnalysisLog.NameLacksB | src/app/services/pattern-detection.service.ts:31-92 | every pattern name except "Three Black Crows" has no "b" once lower-cased |
| AnalysisLog.CrowsLackUAndI | src/app/services/pattern-detection.service.ts:83-92 | "three black crows" has no "u" and no "i" |
| AnalysisLog.NamesHaveNoPolarity | src/app/services/analysis-engine.ts:68-72 | no pattern name contains "bullish" or "bearish" |
| AnalysisLog.AsWiredAlwaysNeutral | src/app/services/analysis.service.ts:34-52 | under the default strategy, every candle list of length ≥ 3 yields exactly one signal: NEUTRAL, score 0, no reasons, timeframe "1m" |
| AnalysisLog.AnalysisService.constructor | src/app/services/analysis.service.ts:10-26 | empty log and the single default strategy |
| AnalysisLog.AnalysisService.GetCurrentPrice | src/app/services/analysis.service.ts:55-57 | the price is the constant 1 |
| AnalysisLog.AnalysisService.AppendSignal | src/app/services/analysis.service.ts:58-62 | the log becomes the capped append; the strategies are unchanged |
| AnalysisLog.AnalysisService.GetLatestSignal | src/app/services/analysis.service.ts:64-66 | undefined exactly when no logged signal has that timeframe; otherwise the last logged signal of that timeframe (no later signal has it) |
| AnalysisLog.AnalysisService.OnCandles | src/app/services/analysis.service.ts:34-52 | the log becomes the old log with each strategy's signal appended in turn; the strategies are unchanged. `UpdateSignals` is the list of those signals. |
| TradingBot.MergeLaws | src/app/services/trading-bot/trading-bot.service.ts:33 | merging no overrides keeps the config, and merging the same overrides twice equals merging once. Stated of `Merge`, the model of `{ ...this.config, ...config }`. |
| TradingBot.Archived | src/app/services/trading-bot/trading-bot.service.ts:150 | the closed list grows by one up to 100 and ends with the completed trade |
| TradingBot.ArchivedKeepsLast | src/app/services/trading-bot/trading-bot.service.ts:150 | the closed list is the last 100 of the old list plus the trade |
| TradingBot.PriceDiffSign | src/app/services/trading-bot/trading-bot.service.ts:64-65 | for a positive entry price, the move is positive exactly when the price went up for a long or down for a short |
| TradingBot.FirstEligibleIsFirst | src/app/services/trading-bot/trading-bot.service.ts:90-111 | the entry signal is the latest signal of the first enabled timeframe whose signal qualifies; there is none exactly when none qualifies |
| TradingBot.TickPreservesValid | src/app/services/trading-bot/trading-bot.service.ts:48-115 | a tick keeps the closed list capped and any open position well-formed |
| TradingBot.TickWithoutEffect | src/app/services/trading-bot/trading-bot.service.ts:49-56 | a stopped bot, and a held position with a falsy price, change nothing |
| TradingBot.StopLossBeforeTakeProfit | src/app/services/trading-bot/trading-bot.service.ts:54-81 | with a position open: at or below −stopLoss it closes as SL, even when take-profit also holds; at or above takeProfit it closes as TP; either exit archives the trade with price and pnl, clears it, restarts the cooldown and reports COOLING_DOWN; otherwise only the status becomes RUNNING |
| TradingBot.AtMostOnePosition | src/app/services/trading-bot/trading-bot.service.ts:54-81 | a tick never replaces an open position: it stays or is closed |
| TradingBot.CooldownBlocksEntry | src/app/services/trading-bot/trading-bot.service.ts:84-87 | within the cooldown no trade opens and the status is COOLING_DOWN |
| TradingBot.EntryOnFirstEligible | src/app/services/trading-bot/trading-bot.service.ts:90-134 | after the cooldown, a position opens exactly when there is an eligible signal and a non-zero price; it takes that signal's action and timeframe, the current price and time; the closed list and the cooldown clock are untouched and the status is RUNNING |
| TradingBot.NeutralLogNeverEnters | src/app/services/trading-bot/trading-bot.service.ts:97 | a log of NEUTRAL signals never yields an entry |
| TradingBot.TradingBotService.constructor | src/app/services/trading-bot/trading-bot.service.ts:9-26 | stopped, no position, no trades, default config, IDLE |
| TradingBot.TradingBotService.Start | src/app/services/trading-bot/trading-bot.service.ts:30-40 | a running bot is unchanged; otherwise the overrides are merged, and the bot runs with status RUNNING |
| TradingBot.TradingBotService.Stop | src/app/services/trading-bot/trading-bot.service.ts:42-46 | only `isRunning` (false) and the status (IDLE) change |
| TradingBot.TradingBotService.ExecuteTrade | src/app/services/trading-bot/trading-bot.service.ts:117-134 | the new state is one entry step: no-op with a position or a falsy price, otherwise a position at the current price. The step is `Execute`. |
| TradingBot.TradingBotService.ClosePosition | src/app/services/trading-bot/trading-bot.service.ts:136-159 | the new state is one close step: no-op without a position, otherwise archive, clear and restart the cooldown. The step is `Close`. |
| TradingBot.TradingBotService.Tick | src/app/services/trading-bot/trading-bot.service.ts:48-115 | the new state is one tick step, and the bot invariant holds. The step is `TickStep`, whose effects the lemmas below state. |
| Wallet.Find | src/app/services/wallet/wallet.service.ts:68 | undefined exactly when no position has the id; otherwise the first position with it |
| Wallet.Without | src/app/services/wallet/wallet.service.ts:76 | the filter drops every position with the id and keeps every other one |
| Wallet.ClosedFound | src/app/services/wallet/wallet.service.ts:66-87 | closing a found position credits the refund at the exit price plus the pnl, sets equity to the new balance, drops the position and records the pnl |
| Wallet.OpenedKeepsIds | src/app/services/wallet/wallet.service.ts:47-60 | a fresh id keeps position ids distinct and below the counter |
| Wallet.ClosedRemovesOne | src/app/services/wallet/wallet.service.ts:66-87 | closing removes exactly the positions with that id, keeps all others, and keeps the ids distinct |
| Wallet.WithoutKeepsDistinct | src/app/services/wallet/wallet.service.ts:76 | filtering keeps ids distinct |
| Wallet.SellRoundTrip | src/app/services/wallet/wallet.service.ts:36-87 | opening a SELL and closing it at any price leaves the balance as it was |
| Wallet.BuyRoundTrip | src/app/services/wallet/wallet.service.ts:36-87 | opening a BUY and closing it changes the balance by twice the pnl |
| Wallet.RoundTripBalance | src/app/services/wallet/wallet.service.ts:43-77 | the balance arithmetic of an open followed by a close, for each side |
| Wallet.FindAppended | src/app/services/wallet/wallet.service.ts:59-68 | a newly opened position is found by its id |
| Wallet.WalletExample | src/app/services/wallet/wallet.service.ts:9-87 | from the default state, buying 1 at 200 leaves 800, and closing at 220 leaves 1040 with history [20] |
| Wallet.UnrealizedAtEntry | src/app/services/wallet/wallet.service.ts:91-95 | at every position's entry price the unrealized pnl is 0 |
| Wallet.UnrealizedOpened | src/app/services/wallet/wallet.service.ts:91-95 | opening a position adds its own pnl to the unrealized total |
| Wallet.WalletService.constructor | src/app/services/wallet/wallet.service.ts:9-15 | balance 1000, no positions, equity 1000, empty history |
| Wallet.WalletService.Reset | src/app/services/wallet/wallet.service.ts:27-34 | back to the default state |
| Wallet.WalletService.OpenPosition | src/app/services/wallet/wallet.service.ts:36-64 | refused, with nothing changed, exactly when the balance is below size × price; otherwise the cost is debited and a position with a fresh id appended. The new state is `Opened`. |
| Wallet.WalletService.ClosePosition | src/app/services/wallet/wallet.service.ts:66-87 | the new state is the close of that id (no-op for an unknown id). `Closed` is that close, and `ClosedFound` and `ClosedRemovesOne` state its effect. |
| Wallet.WalletService.UpdateEquity | src/app/services/wallet/wallet.service.ts:89-103 | only equity changes, to balance plus the unrealized pnl at the price. `Unrealized` is the `reduce` over the positions. |
| TradeLog.Pnls | src/app/services/bot/bot-trade-log.service.ts:43-47 | the pnl list has one entry per trade, in order |
| TradeLog.WinsPlusLosses | src/app/services/bot/bot-trade-log.service.ts:41-42 | wins and losses add up to the number of trades |
| TradeLog.WinRateBounds | src/app/services/bot/bot-trade-log.service.ts:45 | the win rate lies in [0, 100] |
| TradeLog.AveragePnlBounds | src/app/services/bot/bot-trade-log.service.ts:43-47 | the average pnl lies between the largest loss and the largest gain |
| TradeLog.StatsCounts | src/app/services/bot/bot-trade-log.service.ts:39-59 | the total is the trade count, wins plus losses equal it, and the win rate is a percentage. Stated of `StatsOf`, the model of the record `updateStats` builds. |
| TradeLog.StatsAverageBounds | src/app/services/bot/bot-trade-log.service.ts:39-59 | maxLoss ≤ avgPnL ≤ maxGain |
| TradeLog.StatsAverageTimesCount | src/app/services/bot/bot-trade-log.service.ts:43-44 | the average times the count is the total pnl |
| TradeLog.Logged | src/app/services/bot/bot-trade-log.service.ts:33 | the journal is at most 1000 long and ends with the new trade, dropping the oldest only when it was full |
| TradeLog.BotTradeLogService.constructor | src/app/services/bot/bot-trade-log.service.ts:9-19 | no trades and all-zero statistics |
| TradeLog.BotTradeLogService.UpdateStats | src/app/services/bot/bot-trade-log.service.ts:39-59 | the statistics become those of the given non-empty list |
| TradeLog.BotTradeLogService.LogTrade | src/app/services/bot/bot-trade-log.service.ts:31-37 | the trade gets a fresh id and is logged in the capped journal, and the statistics describe exactly the new journal |
| TradeLog.BotTradeLogService.ClearLogs | src/app/services/bot/bot-trade-log.service.ts:61-73 | no trades and all-zero statistics |

## Left out

- The page scraping in `src/content.js` is not modelled: DOM queries, regular expressions over page text, `parseNumber`, `parseDollarValue`, `parsePercentage` and `parseFundingRate`, the header-stat extraction, `monitorPrices`, `getOrderBookSnapshot` and the messaging to the background script. `createAnalysisSnapshot` receives already-parsed values.
- The order book that `createAnalysisSnapshot` spreads into the snapshot keeps only the fields the pipeline reads: the top bid and ask rows, the buy and sell depths, the spread and the imbalance. `bidWall`, `askWall`, `changes`, `buyOrders` and `sellOrders` are dropped, since no modelled consumer reads them.
- `toFixed(2)` rounding of the buy ratio, and every display formatting, are not modelled.
- `src/background.js`, `chrome.service.ts`, `app.component.ts` and the chart component are not part of this model: they are I/O and user interface.
- Chrome storage, `Date.now()`, the rxjs subjects and `interval`/`setInterval` timers become parameters or explicit calls. The store takes the stored list as an `Option`. The aggregator's `Tick` and `OnSnapshot`, the analysis service's `OnCandles` and the bot's `Tick` are invoked by the caller rather than by subscriptions.
- `console.log` output is not modelled.
- The observable getters (`getState$`, `getTradeLogs$`, `getStats$`), the plain getters (`getState`, `getTradeList`, `getCurrentStats`) and `getCurrentConfig` are not modelled. Each only returns a field, and the classes expose those fields directly.
- Square roots are a parameter. So `stddev`, the Bollinger band width, the order-flow `priceVolatility` and `obVolatility` are modelled only as the given function applied to the variance.
- Floating point is modelled as exact reals. There is no rounding, overflow to Infinity or NaN propagation except where named below.
- OrderFlowIndicators.Pressure: `x / 0` is modelled as ±Infinity by sign and as 0 for `0 / 0`. NaN is not carried further.
- OrderFlowIndicators.Calc: requires a non-zero first price for two or more snapshots, since the source then divides by it and yields NaN or Infinity.
- TechnicalIndicators.Mean: requires a non-empty list. `avg([])` is NaN in the source and is never reached from `compute`.
- TechnicalIndicators.Rsi: requires more prices than `period`. With fewer, the source's seed loop reads past the end, giving NaN entries.
- TechnicalIndicators.Roc: a zero base price yields `None`, standing for the source's Infinity or NaN.
- TradeLog.BotTradeLogService.UpdateStats: requires a non-empty list. `Math.max()` and `Math.min()` of nothing are −Infinity and +Infinity, and `logTrade`, its only caller, always passes a non-empty list.
- `|| 0` defaults for absent fields (`t.size || 0`, `s.volume?.totalSize || 0`) are not modelled: every field is present in the model's datatypes.
- Candle frames are the datatype `Frame` rather than strings. `FrameOfKey` keeps the string-keyed lookup and its "Invalid key" error as `None`.
- Pattern rules are the datatype `Rule`, with `Name` giving the source's display string.
- `toLowerCase` is modelled for ASCII letters only, which covers every pattern name.
- `uuidv4()` is modelled as a per-service counter, so ids are distinct by construction rather than with high probability.
- `getCurrentPrice`'s falsy test (`!currentPrice`) is modelled as `== 0`, since a NaN price cannot arise.
- `riskPerTradePct` is carried in the bot config but never read, as in the source.
- The trading bot's use of `getCurrentPrice` is a `currentPrice` parameter of its tick, so the constant 1 of the analysis service is not wired in. The wallet's `updateEquity` takes the price as an argument in the source as well.
- OrderBookSignals.DetectMomentum: the `priceHistory` global is a field of a `MomentumTracker` object.
- OrderBookSignals.ParseCountdownToSeconds: the regular expression is modelled by a scanner for its `\d{1,2}h:\d{1,2}m:\d{1,2}s` shape. `Number` of a digit group is its decimal value.
