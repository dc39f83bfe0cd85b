# Trading automation core: a Dafny model

This project models the decision core of a trading-automation pipeline. The
pipeline lives in six scripts of `automation/scripts`:

- `indicators.py` computes technical indicators from candles: SMA, RSI, ATR,
  VWAP and Donchian channels. From them it derives three strategy signals:
  ORB + VWAP, SMA + RSI + ATR, and Donchian breakout.
- `bsm_signals.py` turns volatility into analysis-only options context. With
  real options data this is the IV rank, IV regime flags and a
  mispricing/vega ratio. Without it, a proxy IV is taken from realized
  volatility.
- `context_builder.py` flattens the indicator output, the options context,
  the clock and the risk state into a 28-entry feature vector.
- `bandit.py` is the LinUCB contextual bandit, which chooses among 14
  strategy/stop/size actions:
  - it detects the market regime and keeps the actions allowed in it;
  - it scores each kept action by its upper confidence bound;
  - it learns by a rank-one update of the chosen action's `A` and `b`.
- `position_sizer.py` sizes a position:
  - it takes a fixed fraction of capital at risk;
  - it caps the position by the 60% cash reserve;
  - it rounds to the instrument's lot increment and minimum size;
  - it reports reserve and risk warnings.
- `screener.py` builds the daily watchlist:
  - it classifies each instrument into an asset class;
  - it measures ATR%, overnight gap, range compression and volume
    consistency;
  - it normalises the scores and combines them into a weighted composite
    score with reasons;
  - it keeps the top N of each class.

**Module layout.** There is one Dafny module per script, plus `Common` for
shared helpers:

| Dafny module | script |
|---|---|
| `Common` | Python helpers: `min`/`max`/`mean`/`sum`, negative slicing, division bounds |
| `Indicators` | `indicators.py` |
| `BsmSignals` | `bsm_signals.py` |
| `ContextBuilder` | `context_builder.py` |
| `Bandit` | `bandit.py` |
| `PositionSizer` | `position_sizer.py` |
| `Screener` | `screener.py` |

**How the Python is modelled.**
- Python dictionaries with `.get(key, default)` become datatypes with
  `Option` fields, read with the same defaults.
- An exception the code can raise on its inputs becomes the `Err` branch of
  a `Result`. The error kinds (`Common.Error`) are:
  - a division by zero;
  - an `IndexError` from reading past the end of a list (the ATR loop on
    misaligned lists);
  - `mean` of an empty list (the ATR with period 0 and one bar);
  - `max` or `min` of an empty list (the Donchian channel).

  `stdev` is only applied to two or more returns, so it cannot raise.
- A few failures are excluded by preconditions instead. Each has a line
  under "## Left out":
  - the `mean` of an empty list in the SMA and RSI;
  - the division by a period of 0 in the screener's ATR%.
- Square roots, matrix inverses and the clock are parameters.
- Numbers are mathematical reals. Every `round(x, n)` applied to an output
  is left out; rounding to an increment is kept (below).

**Form of the model.**
- Code that computes a value is a function with lemmas.
- Code that loops becomes a method, proved equal to its function. This
  covers:
  - RSI gains and losses;
  - ATR, ATR% and realized volatility;
  - the volatility history;
  - the per-class filter and scoring loops;
  - the bandit's update and selection loops.
- The bandit is a class whose `A` and `b` maps its methods update.

**Where the model follows the code rather than the documented intent:**
- **Screener candle columns.**
  - The screener's candle query selects `symbol, tf, ts, open, high, low,
    close, volume`.
  - The metric functions index each row as open at 2, high at 3, low at 4,
    close at 5 and volume at 6.
  - The model follows the functions: `Candle` names the positions they read.
  - Every metric property (for example `Screener.GapPctMeaning`) holds for
    rows in that order. On rows in the query's order each function reads the
    neighbouring column: `calculate_gap_pct` takes `ts` as the open, and the
    high, low and close positions hold open, high and low.
  - On such rows, with at least two rows and a non-zero value in the close
    position, `calculate_gap_pct` subtracts a price from the `ts` datetime,
    which raises a `TypeError` in Python; the model does not follow that
    column order.
- **Bandit regime inputs.**
  - `detect_market_regime` reads entries 0 to 3 of its context as RSI, SMA
    ratio, ATR% and volume ratio.
  - The context builder puts the three SMA gaps in entries 0 to 2 and the
    RSI normalised to 0–1 in entry 3; ATR% is entry 4.
  - So the regime rules read an SMA gap as the RSI, the other two gaps as
    the SMA ratio and ATR%, and the normalised RSI as the volume ratio.
  - Each module is modelled as written.
- **Bandit fallback action.**
  - The fallback `best_action = 9  # SKIP` names `BOLLINGER_SQUEEZE`, not
    SKIP, which has id 13.
  - The fallback is unreachable: SKIP has no regime, so every regime keeps
    it. `Bandit.RegimeActionsKeepSkip` proves this.
- **Sizer minimum size.** The sizer raises a position below the instrument
  minimum up to that minimum. So its "below minimum size" warning is never
  produced (`PositionSizer.SizingWarnings`).
- **Unreachable length checks.** The second length checks in
  `calculate_rsi` and `calculate_atr` can never fire once the first has
  passed. The model keeps only the first.
- **Realized volatility uses the oldest closes.** `calculate_realized_volatility`
  uses the first `period + 1` closes of its input, not the last ones
  (`BsmSignals.RealizedVolUsesFirstCloses`).
- **Proxy IV thresholds.** The proxy path uses fixed thresholds of 70 and 30.
  The options path reads them from the configuration.

## Model

| member | source | states |
|---|---|---|
| Common.SeqMax | automation/scripts/indicators.py:99 | `max` of a non-empty list bounds every entry and is one of them |
| Common.SeqMin | automation/scripts/indicators.py:100 | `min` of a non-empty list is below every entry and is one of them |
| Common.PyTail | automation/scripts/indicators.py:18 | `values[-k:]`: the whole list for `k == 0`, else the last `min(k, len)` entries in order |
| Common.PyPrefix | automation/scripts/screener.py:407 | `s[:k]`: the first `min(k, len)` entries for `k >= 0`, all but the last `-k` for `k < 0`, in order |
| Common.MeanBetweenMinAndMax | automation/scripts/indicators.py:18 | the `mean` of a non-empty list lies between its minimum and its maximum |
| Indicators.SmaWithinWindow | automation/scripts/indicators.py:14-18 | the SMA of the last `period` values lies between their minimum and maximum |
| Indicators.Sma | automation/scripts/indicators.py:14-18 | fewer values than the period give 0.0 |
| Indicators.StepGainLoss | automation/scripts/indicators.py:29-36 | each step's gain and loss are non-negative, at most one is non-zero, and gain minus loss is the price change |
| Indicators.StepGain | automation/scripts/indicators.py:30-33 | a step's gain is non-negative, positive exactly when the close rose, and then the rise |
| Indicators.StepLoss | automation/scripts/indicators.py:30-36 | a step's loss is non-negative, positive exactly when the close fell, and then the fall |
| Indicators.Gains | automation/scripts/indicators.py:26-36 | one non-negative gain per step between consecutive closes |
| Indicators.Losses | automation/scripts/indicators.py:26-36 | one non-negative loss per step between consecutive closes |
| Indicators.GainsLossesEntries | automation/scripts/indicators.py:29-36 | helper: entry `j` of the gains and losses is the gain and loss of the step from close `j` to close `j + 1` |
| Indicators.AverageGain | automation/scripts/indicators.py:41 | the mean of the last `period` gains is non-negative |
| Indicators.AverageLoss | automation/scripts/indicators.py:42 | the mean of the last `period` losses is non-negative |
| Indicators.Rsi | automation/scripts/indicators.py:21-50 | RSI is 50 with too few closes and always lies in [0, 100] |
| Indicators.RsiOfAverages | automation/scripts/indicators.py:44-48 | the RSI of two non-negative averages lies in [0, 100] |
| Indicators.RsiFormula | automation/scripts/indicators.py:47-48 | `100 - 100 / (1 + rs)` lies in [0, 100) for a non-negative `rs` |
| Indicators.RsiAsGainShare | automation/scripts/indicators.py:41-48 | RSI is 100 exactly when the average loss is 0, and otherwise equals the share of gain, `100 * ag / (ag + al)` |
| Indicators.RsiOfAveragesShare | automation/scripts/indicators.py:44-48 | the same two facts for given average gain and loss |
| Indicators.RsiFormulaShare | automation/scripts/indicators.py:47-48 | the source's formula equals `100 * ag / (ag + al)` |
| Indicators.CalculateRsi | automation/scripts/indicators.py:21-50 | the loop's result is the RSI function's value |
| Indicators.CollectGainsLosses | automation/scripts/indicators.py:26-36 | the loop builds exactly the gains and losses lists |
| Indicators.TrueRange | automation/scripts/indicators.py:65-69 | the true range is non-negative, at least each of the three spans, and equal to one of them |
| Indicators.TrueRangeInsideBar | automation/scripts/indicators.py:65-69 | when the previous close lies inside the bar, the true range is the bar's high-low span |
| Indicators.TrueRanges | automation/scripts/indicators.py:58-70 | an `IndexError` exactly when some bar after the first has no low or no previous close; otherwise entry `j` is the true range of bar `j + 1` against close `j`, one per bar after the first |
| Indicators.Atr | automation/scripts/indicators.py:53-75 | 0 with fewer than `period + 1` bars; otherwise an `IndexError` exactly on misaligned lists, the `mean([])` error exactly for period 0 with one bar, and a non-negative value in every other case |
| Indicators.AtrWithinRanges | automation/scripts/indicators.py:72-75 | on aligned lists ATR is defined and lies between the smallest and largest of the last `period` true ranges |
| Indicators.CalculateAtr | automation/scripts/indicators.py:53-75 | the loop stops with the `IndexError` at the first missing low or close, and its result, error included, is the ATR function's value |
| Indicators.TypicalPrice | automation/scripts/indicators.py:83 | the typical price lies between the smallest and largest of high, low and close, and is the close of a flat bar |
| Indicators.PriceVolumeSumZeroVolume | automation/scripts/indicators.py:85 | the price-volume sum over the bars `zip` pairs up is 0 when every volume is 0 |
| Indicators.Vwap | automation/scripts/indicators.py:78-91 | VWAP is 0 when total volume is 0, and otherwise VWAP times total volume is the price-volume sum |
| Indicators.PriceVolumeSumBounds | automation/scripts/indicators.py:83-86 | if every typical price lies in [lo, hi] and volumes are non-negative, the price-volume sum lies between `lo` and `hi` times total volume |
| Indicators.VwapWithinTypicalPrices | automation/scripts/indicators.py:78-91 | with positive total volume, VWAP lies between the smallest and largest typical price |
| Indicators.Donchian | automation/scripts/indicators.py:94-107 | too few bars give the zero channel; otherwise `max`/`min` of an empty list fails exactly when the highs or the lows are empty; a channel's middle is the midpoint of upper and lower |
| Indicators.DonchianEncloses | automation/scripts/indicators.py:99-100 | over a full window the channel is defined; upper is the highest high and lower the lowest low of the window, both attained |
| Indicators.DonchianOrdered | automation/scripts/indicators.py:94-107 | for equal-length bars with low ≤ high the channel is defined and lower ≤ middle ≤ upper |
| Indicators.Highs | automation/scripts/indicators.py:122 | the list of candle highs |
| Indicators.Lows | automation/scripts/indicators.py:123 | the list of candle lows |
| Indicators.Closes | automation/scripts/indicators.py:124 | the list of candle closes |
| Indicators.Volumes | automation/scripts/indicators.py:125 | the list of candle volumes |
| Indicators.Verdict | automation/scripts/indicators.py:183-197 | confidence is 0 exactly for NEUTRAL, and the strategy's fixed confidence otherwise |
| Indicators.OrbVwap | automation/scripts/indicators.py:137-146 | BUY iff price is above VWAP and SMA20; SELL iff below both; strength ≤ 1; raises on a zero VWAP exactly when a branch divides by it |
| Indicators.OrbVwapStrengthPositive | automation/scripts/indicators.py:141-146 | with positive VWAP, a BUY or SELL has strength in (0, 1] |
| Indicators.SmaRsiAtr | automation/scripts/indicators.py:148-158 | BUY iff both SMAs are positive, price > SMA20 > SMA50 and RSI < 70; SELL iff price < SMA20 < SMA50 and RSI > 30 |
| Indicators.SmaRsiAtrStrength | automation/scripts/indicators.py:153-158 | for RSI in [0, 100], BUY strength is in (0, 1], SELL strength in (0.3, 1], NEUTRAL strength 0 |
| Indicators.DonchianBreakout | automation/scripts/indicators.py:160-169 | BUY iff price ≥ upper; SELL iff price ≤ lower but below upper; fixed strength 0.8 and confidence 0.75 on a signal |
| Indicators.ComputeIndicators | automation/scripts/indicators.py:127-133 | RSI in [0, 100], ATR ≥ 0, SMA50 is 0 below 50 candles |
| Indicators.GenerateSignals | automation/scripts/indicators.py:110-199 | the insufficient-data record is returned exactly below 20 candles; a report's price is the last close |
| Indicators.GenerateSignalsFails | automation/scripts/indicators.py:137-146 | the report fails exactly when VWAP is 0 and the ORB branch taken divides by it |
| Indicators.ReportWellFormed | automation/scripts/indicators.py:171-199 | a report has in-range indicators and, for each strategy, confidence 0 exactly on NEUTRAL and bounded strengths |
| Indicators.ReportParts | automation/scripts/indicators.py:128-199 | helper: a report is assembled from the indicators of its candles and the three strategy verdicts at the last close |
| BsmSignals.IvRank | automation/scripts/bsm_signals.py:34-46 | IV rank is 50 with fewer than two history values or a flat history |
| BsmSignals.IvRankBounds | automation/scripts/bsm_signals.py:39-46 | an IV inside the history's range ranks in [0, 100] |
| BsmSignals.IvRankEndpoints | automation/scripts/bsm_signals.py:39-46 | the history's minimum ranks 0 and its maximum ranks 100 |
| BsmSignals.IvRankMonotone | automation/scripts/bsm_signals.py:34-46 | a higher IV never ranks lower against the same history |
| BsmSignals.Returns | automation/scripts/bsm_signals.py:19-22 | one simple return per step of the first `n + 1` closes |
| BsmSignals.SampleStdev | automation/scripts/bsm_signals.py:28 | `stdev` of two or more returns is never negative for a square root that is never negative |
| BsmSignals.RealizedVol | automation/scripts/bsm_signals.py:14-31 | 0 with too few closes; raises exactly when one of the first `period` closes, a divisor, is 0 |
| BsmSignals.RealizedVolUsesFirstCloses | automation/scripts/bsm_signals.py:20-22 | only the first `period + 1` closes affect the result |
| BsmSignals.RealizedVolNonNegative | automation/scripts/bsm_signals.py:27-31 | for a square root that is never negative, realized volatility is never negative |
| BsmSignals.CalculateRealizedVolatility | automation/scripts/bsm_signals.py:14-31 | the loop's result is the realized-volatility function's value, error included |
| BsmSignals.SegmentCountExact | automation/scripts/bsm_signals.py:74-75 | segment `k` exists iff its start is in the range over the last 252 closes in steps of 20 and leaves room for a full segment |
| BsmSignals.Segment | automation/scripts/bsm_signals.py:76 | segment `k` is the closes from its start, of the segment width |
| BsmSignals.VolHistory | automation/scripts/bsm_signals.py:73-77 | fails with the division by zero exactly when some segment's volatility does; otherwise one entry per segment, entry `k` the volatility of segment `k` |
| BsmSignals.CollectVolHistory | automation/scripts/bsm_signals.py:73-77 | the loop builds exactly the volatility history |
| BsmSignals.VolHistoryIs | automation/scripts/bsm_signals.py:73-77 | a list with one entry per segment, each that segment's volatility, is the history |
| BsmSignals.AsWrittenHistoryIsFlat | automation/scripts/bsm_signals.py:73-77 | with 20-close segments every history entry is 0 |
| BsmSignals.AsWrittenRankIsNeutral | automation/scripts/bsm_signals.py:73-79 | so with 20-close segments the proxy IV rank is 50 for every input |
| BsmSignals.CorrectedHistoryMeasures | automation/scripts/bsm_signals.py:73-77 | with 21-close segments each entry is the annualised deviation of the segment's 20 returns, and consecutive segments share their boundary close |
| BsmSignals.SquaredDeviationsPositive | automation/scripts/bsm_signals.py:28 | a list with an entry away from the mean point has a positive sum of squared deviations, so its `stdev` is the square root of a positive number |
| BsmSignals.SquaredDeviationsOfZeros | automation/scripts/bsm_signals.py:28 | a list of zero returns has no squared deviation from 0 |
| BsmSignals.FlatSegmentVol | automation/scripts/bsm_signals.py:14-31 | 21 equal closes have realized volatility 0 when the square root of 0 is 0 |
| BsmSignals.MovingSegmentVol | automation/scripts/bsm_signals.py:14-31 | 21 closes alternating between 1 and 2 have a positive realized volatility under a positive square root |
| BsmSignals.CorrectedRankCanMove | automation/scripts/bsm_signals.py:63-79 | with 21-close segments there are 41 candles whose proxy IV ranks 0 rather than 50, for every configuration and every positive square root |
| BsmSignals.ProxySignalWith | automation/scripts/bsm_signals.py:56-103 | the insufficient-candles record is returned exactly below 20 candles; an error exactly when the realized volatility of the closes or the volatility history fails; a proxy signal's context is `ProxyContextOf` at the closes' 20-period realized volatility, the bias (1.10 by default) and the segment history |
| BsmSignals.ProxySignalMeasures | automation/scripts/bsm_signals.py:63-79 | a proxy signal's realized volatility is the closes' 20-period realized volatility, its proxy IV that times the bias (1.10 by default), and its rank the proxy IV's rank in the history of segment volatilities (50 for an empty history) |
| BsmSignals.ProxyContextOf | automation/scripts/bsm_signals.py:65-103 | the proxy IV is realized volatility times the bias; with a non-empty history the rank is the proxy IV's rank in it; rank 50 with fewer than two history values; flags iff rank > 70 / < 30, never both; the regime agrees with the flags and is normal iff the rank is in [30, 70]; mispricing is (rank − 50)/50, in [−1, 1] for a rank in [0, 100] |
| BsmSignals.ProxySignalConsistent | automation/scripts/bsm_signals.py:79-103 | flags never both set, flags iff rank > 70 / < 30, regime agrees with flags, mispricing is (rank − 50)/50, score is its size |
| BsmSignals.AsWrittenProxyIsNeutral | automation/scripts/bsm_signals.py:73-103 | with 20-close segments every proxy signal is neutral: rank 50, normal regime, score 0 |
| BsmSignals.GenerateProxySignal | automation/scripts/bsm_signals.py:49-105 | the loop-based method returns the proxy signal function's value |
| BsmSignals.GenerateBsmContext | automation/scripts/bsm_signals.py:108-153 | raises exactly when vega is 0 yet exceeds the minimum vega (a negative minimum); otherwise the context reports the implied volatility (0 when missing), its rank against the supplied history (50 without one), and the high/low flags iff the rank is above the high threshold (70 by default) / below the low threshold (30 by default) |
| BsmSignals.BsmContextProperties | automation/scripts/bsm_signals.py:117-151 | the rank is the implied volatility's rank in the history, 50 without one; high/low flags iff the rank is above/below the configured thresholds (70 and 30 by default); ratio is 0 at or below the minimum vega and |mispricing|/vega above it; significance iff ratio > threshold; score is the ratio; regime agrees with the flags |
| BsmSignals.BsmContextDefined | automation/scripts/bsm_signals.py:129 | with a non-negative minimum vega the options path never fails |
| BsmSignals.ProcessInputWith | automation/scripts/bsm_signals.py:156-170 | the proxy path is taken exactly when the mode is `proxy` or absent; the symbol defaults to `UNKNOWN`, the candles to none and the options data to all-absent; either path's result or error is passed on unchanged |
| BsmSignals.ProcessInput | automation/scripts/bsm_signals.py:156-170 | `process_input` as written, with 20-close history segments: every proxy record it returns has rank 50 and score 0 |
| BsmSignals.ProcessInputCorrected | automation/scripts/bsm_signals.py:156-170 | `process_input` with the corrected 21-close segments |
| BsmSignals.BareInputIsShortProxy | automation/scripts/bsm_signals.py:159-165 | for any segment width, an input with no fields yields the insufficient-candles proxy record for its symbol or `UNKNOWN` |
| BsmSignals.DefaultConfigIsFallbacks | automation/scripts/bsm_signals.py:186-192 | for any segment width, the default configuration behaves like an empty one, its values being the per-key defaults |
| ContextBuilder.GetTimeBucket | automation/scripts/context_builder.py:14-32 | each time bucket holds exactly on its hour/minute interval: pre-market before 9:30, morning to 12:00, lunch to 14:00, afternoon to 16:00, after-hours to 20:00, closed after |
| ContextBuilder.GetDayOfWeek | automation/scripts/context_builder.py:35-39 | weekday 0 is Monday, 4 is Friday, 1 to 3 midweek, 5 and 6 the weekend |
| ContextBuilder.Gap | automation/scripts/context_builder.py:52-62 | a relative gap is 0 unless both the value and the reference are positive, and otherwise gap times reference is the difference |
| ContextBuilder.SmaSpread | automation/scripts/context_builder.py:57-62 | the SMA20/SMA50 gap is 0 unless price and both averages are positive, and otherwise gap times SMA50 is SMA20 − SMA50 |
| ContextBuilder.ChannelPosition | automation/scripts/context_builder.py:81-89 | 0.5 unless both bounds are positive and distinct; otherwise position times channel width is the price's distance above the lower bound |
| ContextBuilder.GapMeaning | automation/scripts/context_builder.py:52-79 | for positive inputs, gap times reference is the difference, and its sign is the sign of the difference |
| ContextBuilder.ExtractTaFeatures | automation/scripts/context_builder.py:42-91 | a non-positive price zeroes the gaps and ATR%; a non-positive SMA20 zeroes its price gap and the SMA20/SMA50 gap, a non-positive SMA50 likewise, a non-positive VWAP its gap; for a positive price ATR% times price is the ATR; with a positive price and reference, each gap times its reference (SMA20, SMA50, VWAP) is the price's excess over it, and with all three positive the SMA20/SMA50 gap times SMA50 is SMA20 − SMA50; normalised RSI times 100 is the RSI (0.5 when missing); oversold/overbought flags iff RSI < 30 / > 70; Donchian position 0.5 without a proper channel, and inside one position times channel width is price − lower |
| ContextBuilder.DonchianPositionRange | automation/scripts/context_builder.py:86-89 | inside a proper channel the position lies in [0, 1], 0 at the lower and 1 at the upper band |
| ContextBuilder.ExtractBsmFeatures | automation/scripts/context_builder.py:94-119 | IV rank divided by 100 (default 50); flags copied; vol-regime flags iff `high` / `low`; delta taken in absolute value |
| ContextBuilder.ExtractRegimeFeatures | automation/scripts/context_builder.py:122-142 | each time flag is 1 exactly on its hour/minute interval, Monday and Friday are weekdays 0 and 4, midweek is weekdays 1 to 3 |
| ContextBuilder.TimeFlagsOneHot | automation/scripts/context_builder.py:122-142 | before 20:00 exactly one time flag is set, after it none; pre-market plus after-hours is the outside-hours flag |
| ContextBuilder.DayFlagsAtMostOne | automation/scripts/context_builder.py:122-142 | on weekdays exactly one day-group flag is set, on weekends none |
| ContextBuilder.ExtractRiskFeatures | automation/scripts/context_builder.py:145-156 | risk values copied with defaults 0; open positions scaled by 1/10 and trades today by 1/20 |
| ContextBuilder.FeatureVector | automation/scripts/context_builder.py:179-215 | the feature vector has 28 entries |
| ContextBuilder.FeatureVectorLayout | automation/scripts/context_builder.py:179-215 | all 28 positions: entries 0–7 the technical group (7 the sum of the RSI flags), 8–14 the volatility group (14 the sum of the vol-regime flags), 15–21 the time and day flags (18 pre-market plus after-hours), 22 the reserved 0, 23–27 the risk group |
| ContextBuilder.VectorSums | automation/scripts/context_builder.py:188-215 | the combined entries are the sums of their flags, and the time and day slots sum to the group sums |
| ContextBuilder.BuildContext | automation/scripts/context_builder.py:159-223 | 28 entries, a matching feature count, the reserved entry 0, symbol `UNKNOWN` by default |
| ContextBuilder.ContextMarketGroups | automation/scripts/context_builder.py:165-166 | helper: the TA and options groups are extracted from the input's own sections |
| ContextBuilder.ContextRegimeGroup | automation/scripts/context_builder.py:167 | helper: the regime group uses the input's timestamp, else the current clock |
| ContextBuilder.ContextRiskGroup | automation/scripts/context_builder.py:168 | helper: the risk group is extracted from the input's risk section |
| ContextBuilder.ContextVector | automation/scripts/context_builder.py:170-215 | helper: the context's vector is the layout of its four groups |
| ContextBuilder.FeatureVectorMarketFlags | automation/scripts/context_builder.py:188-197 | entry 7 flags an RSI outside [30, 70] and entry 14 a high or low vol regime |
| ContextBuilder.FeatureVectorOutsideHours | automation/scripts/context_builder.py:203 | entry 18 flags pre-market or after-hours |
| ContextBuilder.FeatureVectorTimeOneHot | automation/scripts/context_builder.py:200-203 | entries 15–18 sum to 1 before 20:00 and 0 after |
| ContextBuilder.FeatureVectorDayFlags | automation/scripts/context_builder.py:204-206 | entries 19–21 sum to 1 on weekdays and 0 at weekends |
| ContextBuilder.EmptyInputNeutral | automation/scripts/context_builder.py:159-215 | with no input every non-time entry is its neutral default (0.5 for RSI, Donchian position and IV rank, 0 elsewhere) |
| ContextBuilder.EmptyContextGroups | automation/scripts/context_builder.py:42-156 | an empty input gives the neutral TA, options and risk groups |
| ContextBuilder.NeutralGroups | automation/scripts/context_builder.py:42-156 | each extractor applied to an empty section gives its neutral defaults |
| Bandit.ActionTable | automation/scripts/bandit.py:18-42 | 14 actions whose ids are their positions; SKIP is 13 with size 0 and is the only action without a regime |
| Bandit.Zeros | automation/scripts/bandit.py:60 | `[0.0] * n` |
| Bandit.Identity | automation/scripts/bandit.py:59 | the n-by-n identity |
| Bandit.MatVec | automation/scripts/bandit.py:62-64 | entry `i` of the product is the dot product of row `i` with the vector |
| Bandit.AddOuter | automation/scripts/bandit.py:214-217 | entry (i, j) grows by `x[i] * x[j]` |
| Bandit.AddScaled | automation/scripts/bandit.py:219-221 | entry `i` grows by `reward * x[i]` |
| Bandit.DotComm | automation/scripts/bandit.py:98-100 | the dot product is symmetric |
| Bandit.DotAddLeft | automation/scripts/bandit.py:98-100 | the dot product is additive in its first argument |
| Bandit.DotScaleLeft | automation/scripts/bandit.py:98-100 | the dot product is homogeneous in its first argument |
| Bandit.IdentityMatVec | automation/scripts/bandit.py:59-64 | the identity maps every vector to itself |
| Bandit.DotSelfNonNegative | automation/scripts/bandit.py:98-100 | `x · x` is never negative |
| Bandit.DotSelfZero | automation/scripts/bandit.py:98-100 | `x · x` is 0 only for the zero vector |
| Bandit.QuadAfterUpdate | automation/scripts/bandit.py:214-217 | after `A += x xᵀ`, `v · A v` grows by `((x · v) x) · v` |
| Bandit.ScaledSelfDot | automation/scripts/bandit.py:214-217 | `((x · v) x) · v` is `(x · v)²` |
| Bandit.QuadAddOuter | automation/scripts/bandit.py:214-217 | after the update, `v · A v` is the old value plus `((x · v) x) · v`, which `Bandit.ScaledSelfDot` shows is `(x · v)²` |
| Bandit.QuadGrows | automation/scripts/bandit.py:214-217 | the update never decreases `v · A v` |
| Bandit.AddOuterSymmetric | automation/scripts/bandit.py:214-217 | the update keeps `A` symmetric |
| Bandit.AddOuterDiagonal | automation/scripts/bandit.py:214-217 | diagonal entry `i` grows by `x[i]²` |
| Bandit.AddOuterKeepsRegular | automation/scripts/bandit.py:214-217 | the update keeps `A` symmetric with `v · A v ≥ v · v` |
| Bandit.IdentityIsRegular | automation/scripts/bandit.py:59 | the initial `A` satisfies that invariant |
| Bandit.RegularDiagonal | automation/scripts/bandit.py:48-60 | every diagonal entry of such an `A` is at least 1 |
| Bandit.RegularIsNonSingular | automation/scripts/bandit.py:66-96 | such an `A` maps no non-zero vector to zero, so an inverse exists |
| Bandit.UpdatesFromIdentity | automation/scripts/bandit.py:48-60 | after any sequence of updates from the identity, every diagonal entry is at least 1 |
| Bandit.UpdatesStayRegular | automation/scripts/bandit.py:207-221 | any sequence of updates keeps `A` symmetric with `v · A v ≥ v · v` |
| Bandit.FitContext | automation/scripts/bandit.py:131-133 | the context is padded with zeros or truncated to exactly `n` entries |
| Bandit.FitContextIdempotent | automation/scripts/bandit.py:131-133 | fitting twice is fitting once, and a context of the right length is unchanged |
| Bandit.DetectMarketRegime | automation/scripts/bandit.py:102-125 | each regime is chosen exactly when its rule matches and no earlier rule does, `unknown` below 10 entries |
| Bandit.KeptIdsFrom | automation/scripts/bandit.py:139 | surviving ids are in range and strictly increasing |
| Bandit.RegimeActionIds | automation/scripts/bandit.py:139-141 | the regime's action ids are valid and in table order |
| Bandit.RegimeActionIdsExact | automation/scripts/bandit.py:139 | an action is kept iff its regime matches or it has none |
| Bandit.RegimeActionsKeepSkip | automation/scripts/bandit.py:139-141 | SKIP is always kept, so the list is never empty and the fallback never runs; `unknown` keeps only SKIP |
| Bandit.Bonus | automation/scripts/bandit.py:173-176 | for a non-negative variance term the bonus is `alpha * sqrt(q)`; a negative term counts as 0; with `alpha >= 0` and a non-negative square root the bonus is non-negative |
| Bandit.FreshUcb | automation/scripts/bandit.py:166-176 | an untrained action's UCB is the bonus `alpha * sqrt(x · x)` alone |
| Bandit.Ucb | automation/scripts/bandit.py:166-176 | the UCB is never below the expected reward `(A⁻¹ b) · x` for a non-negative `alpha` and square root, and equals it for `alpha = 0` |
| Bandit.AddOuterLoop | automation/scripts/bandit.py:214-217 | the double loop yields `A + x xᵀ` |
| Bandit.AddScaledLoop | automation/scripts/bandit.py:219-221 | the loop yields `b + reward * x` |
| Bandit.FirstMaxIndex | automation/scripts/bandit.py:158-186 | the selection loop returns a maximum score, with every earlier score strictly lower |
| Bandit.LinUCBBandit.constructor | automation/scripts/bandit.py:48-60 | every action starts with the identity `A` and a zero `b` |
| Bandit.LinUCBBandit.FromDict | automation/scripts/bandit.py:233-239 | the loaded state is exactly the snapshot |
| Bandit.LinUCBBandit.ToDict | automation/scripts/bandit.py:223-231 | the snapshot holds the bandit's `n_features`, `alpha`, `A` and `b`; it is well-shaped iff the state is valid |
| Bandit.LinUCBBandit.Update | automation/scripts/bandit.py:207-221 | only the chosen action changes, by `A += x xᵀ` and `b += reward x` for the fitted context; an unknown id changes nothing; the invariant on `A` is kept |
| Bandit.LinUCBBandit.SelectAction | automation/scripts/bandit.py:127-205 | the regime is detected on the fitted context; the chosen action is kept for it, has the highest UCB, and no earlier kept action ties it |
| Bandit.LinUCBBandit.ScoreActions | automation/scripts/bandit.py:162-182 | one UCB per kept action, in order |
| Bandit.LinUCBBandit.Score | automation/scripts/bandit.py:166-176 | the chosen action's `b` has `n` entries and its inverse is square; its score is never below its expected reward for non-negative `alpha` and square root, and equals it for `alpha = 0` |
| PositionSizer.InstrumentConstraints | automation/scripts/position_sizer.py:115-128 | the minimum size and increment of each instrument type, `(0.01, 0.01)` for unknown types, all positive |
| PositionSizer.RoundHalfEven | automation/scripts/position_sizer.py:135 | Python's `round`: the nearest integer, ties to even |
| PositionSizer.RoundToIncrement | automation/scripts/position_sizer.py:131-135 | a non-positive increment leaves the value unchanged |
| PositionSizer.RoundToIncrementMultiple | automation/scripts/position_sizer.py:131-135 | with a positive increment the result is a whole multiple of it, within half an increment of the value |
| PositionSizer.RoundToIncrementExact | automation/scripts/position_sizer.py:131-135 | a whole multiple of the increment is left unchanged |
| PositionSizer.GetWarnings | automation/scripts/position_sizer.py:138-157 | each warning is present iff its condition holds, at most three, in the order reserve, risk, minimum size (strictly increasing `Rank`, so none repeats); the risk warning's message divides by zero capital |
| PositionSizer.WithDefaults | automation/scripts/position_sizer.py:22-30 | default risk 2%, reserve 60%, forex, size multiplier 1 |
| PositionSizer.EffectiveStop | automation/scripts/position_sizer.py:55-56 | a non-positive stop becomes 2%, and the stop is always positive |
| PositionSizer.CappedIsMin | automation/scripts/position_sizer.py:60-71 | the capped USD size is the smaller of risk/stop and the cap, and units times price is that size |
| PositionSizer.CappedPositionIsMin | automation/scripts/position_sizer.py:47-71 | the USD size is `min(risk / stop, max deployable)`, never above the reserve cap, with units × price equal to it |
| PositionSizer.CappedPositionExample | automation/scripts/position_sizer.py:47-71 | with 1000 capital and a 2% stop the uncapped 1000 is cut to the deployable 400 |
| PositionSizer.FinalUnits | automation/scripts/position_sizer.py:73-79 | the final units are never below the instrument minimum |
| PositionSizer.FinalUnitsBump | automation/scripts/position_sizer.py:73-79 | the final units are the larger of the rounded units and the minimum |
| PositionSizer.ReserveFraction | automation/scripts/position_sizer.py:90-91 | the reserve fraction is 0 for non-positive capital, and otherwise times capital gives the capital left |
| PositionSizer.CalculatePositionSize | automation/scripts/position_sizer.py:22-112 | a zero price is the division by zero, the only error kind; a successful sizing has the final units and their warnings |
| PositionSizer.SizingIsRecord | automation/scripts/position_sizer.py:82-112 | helper: a successful sizing is the record of the final units with their warnings |
| PositionSizer.SizingErrors | automation/scripts/position_sizer.py:60-112 | sizing fails exactly on a zero price (the unit division) or zero capital with a positive price (the warning's message) |
| PositionSizer.SizingOfAmounts | automation/scripts/position_sizer.py:82-103 | USD size, risk, stop %, take-profit at twice the stop, and max deployable as the source computes them |
| PositionSizer.SizingOfReserve | automation/scripts/position_sizer.py:90-104 | reserve after entry, its percentage, the risk as a percentage of positive capital (risk % times capital is risk times 100; 0 without positive capital), and that the requirement holds iff the percentage reaches the minimum |
| PositionSizer.SizingAtLeastMinimum | automation/scripts/position_sizer.py:73-95 | a sized position always has at least the instrument minimum |
| PositionSizer.SizingWarnings | automation/scripts/position_sizer.py:105-111 | the reserve warning iff reserve < 60%, the risk warning iff risk > 5% of capital; never the below-minimum warning |
| Screener.UpperChar | automation/scripts/screener.py:48 | ASCII upper-casing of one character |
| Screener.Upper | automation/scripts/screener.py:48-50 | upper-casing applied to each character |
| Screener.UpperIdempotent | automation/scripts/screener.py:48-50 | upper-casing twice equals upper-casing once |
| Screener.Classify | automation/scripts/screener.py:46-69 | crypto, forex, metals, indices, stocks, each exactly when its test holds and no earlier one does |
| Screener.ClassifyIgnoresCase | automation/scripts/screener.py:48-50 | the class does not depend on the case of the symbol or the exchange |
| Screener.GoldPairIsForex | automation/scripts/screener.py:56-62 | `XAUUSD` is classified forex, since the forex test runs before the metals test |
| Screener.MissingFirstChar | automation/scripts/screener.py:53-65 | a substring whose first character is absent does not occur |
| Screener.AtrPct | automation/scripts/screener.py:72-99 | 0 with too few candles or a zero last close, non-negative for a positive last close |
| Screener.AtrPctIsRelativeAtr | automation/scripts/screener.py:72-99 | ATR% is the indicator ATR divided by the last close, in percent |
| Screener.CalculateAtrPct | automation/scripts/screener.py:72-99 | the loop's result is the ATR% function's value |
| Screener.GapPct | automation/scripts/screener.py:102-114 | 0 with fewer than two candles or a zero previous close |
| Screener.GapPctMeaning | automation/scripts/screener.py:102-114 | gap times previous close is 100 × (open − previous close), and its sign is the gap's direction |
| Screener.RecentRangePct | automation/scripts/screener.py:126-136 | no range percentage exactly when the average close divides by zero |
| Screener.Compression | automation/scripts/screener.py:117-146 | compression lies in [0, 1], and is 0 with too few candles, a zero average close over the window, or zero ATR% |
| Screener.CompressionScale | automation/scripts/screener.py:139-146 | compression is `1 − ratio` for a ratio in [0, 1] and 0 for a ratio ≥ 1 |
| Screener.PositiveVolumes | automation/scripts/screener.py:158 | only positive volumes are kept |
| Screener.LiquidityScore | automation/scripts/screener.py:149-173 | liquidity lies in [0, 1] and is 0.5 with too few candles or at most one positive volume |
| Screener.SteadyVolumeIsLiquid | automation/scripts/screener.py:163-173 | identical volumes give the full liquidity score 1 |
| Screener.MinMax | automation/scripts/screener.py:224-231 | one normalised score per input |
| Screener.MinMaxRange | automation/scripts/screener.py:224-231 | min-max scores lie in [0, 1] |
| Screener.MinMaxAt | automation/scripts/screener.py:224-231 | helper: a flat list normalises to 0.5 everywhere, otherwise each score is rescaled between the minimum and maximum |
| Screener.MinMaxMonotone | automation/scripts/screener.py:224-231 | min-max normalisation preserves order |
| Screener.MinMaxExtremes | automation/scripts/screener.py:224-231 | the minimum goes to 0 and the maximum to 1, unless all scores are equal (0.5) |
| Screener.ZScore | automation/scripts/screener.py:233-243 | one normalised score per input |
| Screener.ZScoreRange | automation/scripts/screener.py:233-243 | clipped z-scores lie in [0, 1] whatever the square root returns |
| Screener.NormalizeScores | automation/scripts/screener.py:219-245 | length kept; both clip methods land in [0, 1]; an unknown method returns the scores unchanged |
| Screener.CalculateCompositeScore | automation/scripts/screener.py:248-294 | the method's score and reasons are the composite score and reason list |
| Screener.CompositeScore | automation/scripts/screener.py:253-288 | with no weights the score is 0; a non-positive ATR% adds nothing even when weighted |
| Screener.CompositeReasons | automation/scripts/screener.py:254-292 | at most five reasons, one per metric |
| Screener.ThresholdReasonsIff | automation/scripts/screener.py:257-283 | high volatility iff the ATR% is weighted, positive and normalised above 0.7; compressed range iff weighted and above 0.7; high liquidity iff weighted and above 0.8 |
| Screener.GapReasonIff | automation/scripts/screener.py:263-269 | a gap reason iff the gap is weighted and its size exceeds the class minimum (0.5 by default); `gap_up` iff also positive; never both |
| Screener.SentimentReasonIff | automation/scripts/screener.py:285-292 | positive sentiment reason iff weighted and > 0.3, negative iff < −0.3; never both |
| Screener.CompositeScoreBounds | automation/scripts/screener.py:248-294 | for non-negative weights and metrics in range, the score lies between 0 and the total weight |
| Screener.Passing | automation/scripts/screener.py:375-381 | the filter keeps only candidates that pass both thresholds |
| Screener.AtrScores | automation/scripts/screener.py:388 | the ATR% of each filtered candidate |
| Screener.GapScores | automation/scripts/screener.py:389 | the absolute gap of each filtered candidate |
| Screener.Scored | automation/scripts/screener.py:399-402 | a scored candidate carries its own composite score and reasons |
| Screener.InsertByScore | automation/scripts/screener.py:405 | insertion adds exactly one element |
| Screener.SortByScore | automation/scripts/screener.py:405 | sorting is a permutation of its input |
| Screener.SortByScoreSorted | automation/scripts/screener.py:405 | sorting yields descending scores |
| Screener.InsertKeepsSorted | automation/scripts/screener.py:405 | inserting by score into a descending list keeps it descending |
| Screener.SortByScoreKeeps | automation/scripts/screener.py:405 | sorting keeps every property all elements had |
| Screener.ScoreAll | automation/scripts/screener.py:387-402 | one scored candidate per filtered candidate |
| Screener.ScoreAllEntries | automation/scripts/screener.py:394-402 | helper: each scored candidate carries the normalised scores at its position, then its composite |
| Screener.ScreenClass | automation/scripts/screener.py:368-407 | the loop-based class block returns the ranked list |
| Screener.RankClass | automation/scripts/screener.py:368-407 | the watchlist is no longer than the passing candidates, and empty when none pass |
| Screener.FilterCandidates | automation/scripts/screener.py:375-381 | the filter loop keeps exactly the passing candidates |
| Screener.WriteNorms | automation/scripts/screener.py:394-396 | the loop stores each candidate's normalised ATR and gap |
| Screener.ScoreEach | automation/scripts/screener.py:399-402 | the loop scores every candidate |
| Screener.RankClassProperties | automation/scripts/screener.py:374-407 | the watchlist is the slice `[:top_n]` of the passing candidates: `min(top_n, passing)` entries for a non-negative `top_n`, all but the last `-top_n` for a negative one; sorted by descending score, each passing and carrying its own score and reasons |
| Screener.RankClassKeepsBest | automation/scripts/screener.py:387-407 | the watchlist is a sub-multiset of the scored passing candidates, and every scored candidate left out scores no higher than any listed one |
| Screener.TopNKeeps | automation/scripts/screener.py:404-407 | sorting best first and slicing `[:top_n]` keeps as many entries as that slice of the unsorted list, in descending score order, each keeping every property all the entries had |
| Screener.PrefixKeepsBest | automation/scripts/screener.py:404-407 | the first `top_n` of a best-first list come from it, and every entry left behind scores no higher than every kept one |
| Screener.RankClassNormsInRange | automation/scripts/screener.py:387-407 | with a clip method every listed candidate's normalised scores lie in [0, 1] |
| Screener.Reverse | automation/scripts/screener.py:342 | the rows in reverse order |
| Screener.InstrumentMetrics | automation/scripts/screener.py:338-363 | no metrics below the minimum number of candles; compression and liquidity in [0, 1]; last close is the newest row's close |

## Left out

- All I/O is left out: reading stdin, parsing and emitting JSON, the `main`
  entry points, `sys.exit`, and printing.
- Databases are left out:
  - the bandit's `load_bandit_from_db` and `save_bandit_to_db` (SQLite);
  - the screener's `get_db_connection`, `screen_symbols`' queries and
    `save_to_database` (PostgreSQL);
  - the YAML `load_config`.
- `get_sentiment_score`, from the screener, is left out. It reads the news
  table, uses the wall clock and uses `math.exp`. The sentiment is a
  parameter of `Screener.InstrumentMetrics`.
- `format_output` and the output formatting of every script are left out.
- The grouping of instruments by class in `screen_symbols` is not modelled;
  the model starts from one class's candidates. The `generated_at` and
  `day` timestamps are not modelled either.
- `matrix_inverse` (Gauss-Jordan with a pivot floor of 1e-10) is not
  modelled; the inverses are inputs of `SelectAction`. The model proves
  instead that every `A` stays invertible (`Bandit.RegularIsNonSingular`).
- The exception fallback in `select_action` is not modelled. It exists for a
  failing matrix operation, which cannot happen to the model's inputs.
- The ε-greedy branch of `select_action` depends on `hash` and `random`, so
  it is left out; `SelectAction` models the selection for `epsilon == 0`.
- `SelectAction` does not return the `action_scores` dictionary; the scores
  of every kept action are the result of `ScoreActions`.
- `to_dict`'s `updated_at` and `build_context`'s default timestamp read the
  clock: the clock is a parameter (`Clock`).
- Parsing ISO-8601 timestamps is left out: a timestamp is given as its hour,
  minute and weekday.
- The `context_features` dictionary of `build_context` is left out. The
  model keeps the four feature groups and the vector.
- `math.sqrt`, `** 0.5` and `statistics.stdev`'s square root are a `sqrt`
  parameter. Properties that need its behaviour state it as a precondition.
- The result of `round(x, n)` on outputs, and every floating-point effect,
  is left out: numbers are exact reals. Some rounded values feed decisions:
  - `generate_signals` compares the RSI, the VWAP and the Donchian bands
    after rounding them;
  - the realized volatility and the IV rank are rounded before the 70 and
    30 tests.
  So at those thresholds the model can decide differently from the code. Python's `round(value / increment)`
  in the sizer is modelled as round-half-even on the exact quotient.
- Upper-casing covers ASCII letters only; Python's Unicode case mapping is
  not modelled.
- The screener's `epic` argument is unused by `classify_instrument` and is
  not a parameter of `Screener.Classify`.
- Screener.SortByScore: the sort is stated as descending and a permutation.
  Its stability, which Python's `list.sort` guarantees, is not stated.
- In-place mutation of the screener's metric dictionaries, with the aliasing
  between `by_class` and `filtered`, is modelled as values: each step
  returns new metric records.
- Indicators.Sma: requires a positive period or a non-empty list, because
  Python's `mean([])` raises where `values[-0:]` is empty. Every caller passes
  period 14, 20 or 50.
- Indicators.AverageGain: requires a positive period or a close count other
  than one, for the same `mean([])`. The same holds for
  `Indicators.AverageLoss` and `Indicators.CalculateRsi`.
- Indicators.Rsi: requires a positive period or a close count other than one,
  for the same `mean([])`.
- Screener.AtrPct: requires a positive period or fewer than two candles,
  because `sum(trs[-0:]) / 0` divides by zero. The same holds for
  `Screener.CalculateAtrPct`.
- Scripts outside the six, such as `bsm.py`, `capital_server.py` and the
  MCP wrappers, are not part of this model.

## Findings

| source | as written | input that shows it | evidently intended | confidence | as-written member | corrected member |
|---|---|---|---|---|---|---|
| automation/scripts/bsm_signals.py:73-79 | each volatility-history segment is `closes[i:i+20]`, and `calculate_realized_volatility(segment, 20)` returns 0.0 for fewer than 21 closes, so every history entry is 0.0 and the proxy IV rank is always 50 | 40 candles with no zero among the first 20 closes: two segments, both 0.0, a flat history, rank 50, regime `normal`, score 0 | segments of 21 closes (20 returns), so that each entry measures that stretch's volatility and the rank compares the proxy IV with real past volatility | not executed | BsmSignals.AsWrittenProxyIsNeutral | BsmSignals.CorrectedHistoryMeasures |

`BsmSignals.ProcessInput` is `process_input` as written: it cuts the history
into 20-close segments, and its contract states that every proxy record it
returns is neutral. `BsmSignals.ProcessInputCorrected` cuts the history into
21-close segments (`BsmSignals.SegmentWidth`). With that width the rank is no
longer stuck at 50: `BsmSignals.CorrectedRankCanMove` exhibits candles whose
proxy IV ranks 0. `BsmSignals.ProxySignalWith` and
`BsmSignals.GenerateProxySignal` take the width as a parameter, so the
20-close behaviour as written is stated about the same definition.
