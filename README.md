# Cryptocurrency market-cycle signal engine, in Dafny

This project models the signal engine of a cryptocurrency market-cycle analyser. It covers three parts:

- **Indicators** (`indicators.py`). Six classifiers read a daily price series and label the latest row:
  - Pi Cycle Top
  - 2-Year MA Multiplier
  - RSI
  - Rainbow Chart
  - Mayer Multiple
  - Golden Ratio Multiplier

  An aggregator counts the labels that mention `TOP` or `BOTTOM` and calls the market as approaching a top, approaching a bottom, or mixed.
- **Backtester** (`backtesting.py`). A sliding-window scan finds peaks and troughs, each recorded with only its row and price. Crossover scans walk the history for events:
  - Pi Cycle crossovers
  - Mayer crossings of 2.4 and 0.8
  - RSI crossings of 30 and 70

  Each crossover event records its percentage return 30, 60 and 90 rows later. A horizon that falls past the end of the series is absent. Each crossover stream is scored by accuracy and average returns, and the accuracy is mapped to a reliability ladder. Peaks and troughs carry neither returns nor a score.
- **TTL cache** (`cache.py`). An in-memory key/value table whose entries expire. Lookups evict expired entries lazily; a cleanup pass evicts them in bulk.

Modules:

| file | module | contents |
|---|---|---|
| `wrappers.dfy` | `Wrappers` | `Option` |
| `series.dfy` | `Series` | Rolling means, the RSI oscillator and its gains and losses, sums and extrema of sequences, and comparisons that treat a missing value as NaN (every comparison false) |
| `signals.dfy` | `Signals` | The label vocabulary, its text, and which labels contain `TOP` or `BOTTOM` |
| `indicators.dfy` | `Indicators` | The six classifiers and `AnalyzeAll`. These are pure functions, as in the source |
| `backtesting.dfy` | `Backtesting` | The scans as methods with loops, proved against specification functions. Accuracy and the ladders are functions |
| `cache.dfy` | `TtlCache` | `class Cache<V>` over a `map` field, with one method per operation. The methods are proved against pure functions on tables |

Conventions:

- A price series is a `seq<real>`. Row `i` stands for the i-th date.
- A pandas statistic column is a `seq<Option<real>>`. `None` is NaN.
- A rolling mean over `w` rows exists from row `w - 1` on.
- The cache's clock is an explicit `now: int` in microseconds. A TTL of `t` seconds moves the expiry by `t * 1_000_000`.

Behaviours of the code that are easy to get wrong, each proved about the model:

- **Constant price series.** On a constant series of 730 rows or more, not every classifier is neutral:
  - Pi Cycle is SAFE, because the 111-day average never exceeds twice the 350-day one (`indicators.py:40-48`).
  - The 2-year multiplier is exactly 1.0, which the ladder labels NEAR_BOTTOM, not NEUTRAL (`indicators.py:99-103`).
  - RSI has no value (0/0), and the ladder reads NaN as NEUTRAL (`indicators.py:136-155`).
  - Rainbow, Mayer and Golden Ratio are NEUTRAL.

  The overall verdict is MIXED SIGNALS. `FlatSeriesAnalysis` proves this.
- **Averages of forward returns.** A missing horizon counts as 0, and each average divides by the number of all events, not by the events that have that horizon (`backtesting.py:103-105`, `backtesting.py:267-269`). `Summarize` states this.
- **A price level shift.** Once a new price has held for 200 rows, the Mayer Multiple is exactly 1.0 and NEUTRAL, whatever came before (`indicators.py:237-264`). So a price that triples at row 200 of a 400-row series reads NEUTRAL at row 399, not TOP (`MayerAfterLevelShift`).

## Model

| member | source | states |
|---|---|---|
| Series.MovingAverageAt | indicators.py:14-16 | The rolling mean of `w` rows is defined exactly from row `w - 1` on |
| Series.MovingAverage | indicators.py:14-16 | The rolling-mean column has one entry per row. Each entry is that row's `MovingAverageAt`, defined iff its row has `w` rows behind it |
| Series.MovingAverageWithinWindow | indicators.py:14-16 | A rolling mean lies between the minimum and the maximum of its window |
| Series.MovingAveragePositive | indicators.py:14-16 | A rolling mean of positive prices is positive, so every ratio over it is defined |
| Series.MovingAverageOfFlatWindow | indicators.py:14-16 | A rolling mean over a window of one repeated price is that price |
| Series.MeanBetween | indicators.py:14-16 | A mean lies between any lower and upper bound of its elements |
| Series.SeqMax | backtesting.py:37 | The maximum is an element of the window and no element exceeds it |
| Series.SeqMin | backtesting.py:47 | The minimum is an element of the window and no element is below it |
| Series.Scaled | indicators.py:29 | Doubling a column keeps NaN positions and doubles every defined value |
| Series.Delta | indicators.py:132 | `price.diff()`: NaN on row 0, then the price minus the previous row's price |
| Series.Gain | indicators.py:132-133 | A row's gain is non-negative, and positive iff the price rose from the previous row. Row 0's NaN difference counts as 0 |
| Series.Loss | indicators.py:132-134 | A row's loss is non-negative, and positive iff the price fell from the previous row |
| Series.Gains | indicators.py:133 | The gains column is the row-by-row gain |
| Series.Losses | indicators.py:134 | The losses column is the row-by-row loss |
| Series.MeanGain | indicators.py:133 | The mean gain over the period is non-negative |
| Series.MeanLoss | indicators.py:134 | The mean loss over the period is non-negative |
| Series.RsiAt | indicators.py:132-137 | RSI is defined iff the period is filled and gain or loss is non-zero. It then lies in [0, 100] and equals `100 g / (g + l)`. Zero loss with positive gain gives 100 |
| Series.RsiFormula | indicators.py:136-137 | `100 - 100 / (1 + g/l)` equals `100 g / (g + l)` and lies in [0, 100] |
| Series.Rsi | indicators.py:136-137 | The RSI column is the row-by-row RSI |
| Series.RsiOfFlatWindow | indicators.py:132-137 | A window without price changes gives RSI NaN (0/0) |
| Signals.Text | indicators.py:42-323 | The fourteen `signal` strings the classifiers return, one per label, spelled as in the source |
| Signals.ContainsTop | indicators.py:359 | A label contains `TOP` iff it is TOP or EXTREME_TOP |
| Signals.ContainsBottom | indicators.py:360 | A label contains `BOTTOM` iff it is NEAR_BOTTOM, BOTTOM or EXTREME_BOTTOM |
| Signals.NotContains | indicators.py:359-360 | A text in which no position starts the token's first three characters does not contain the token |
| Signals.Contains | indicators.py:359-360 | Python's `token in text`: the token occurs at some position of the text |
| Indicators.DistancePct | indicators.py:36-38 | The distance is defined iff both averages are, and equals `(ma111 - ma350x2) / price * 100` |
| Indicators.PiCycleSignal | indicators.py:40-48 | TOP iff the 111-day average is above twice the 350-day by at least 5% of the price. WARNING iff above by less. SAFE iff not above, NaN included |
| Indicators.ScaledComparison | indicators.py:41 | `distance_pct < 5` is the same test as distance below a twentieth of the price |
| Indicators.PiCycleIndicator | indicators.py:19-63 | Reports the latest price and both latest averages. The distance is `DistancePct` of them, defined iff there are at least 350 rows. The signal follows `PiCycleSignal`, and any series shorter than 350 rows is SAFE |
| Indicators.TwoYearZone | indicators.py:93-106 | The 2-year ladder: EXTREME_TOP above 5, TOP in (3, 5], NEUTRAL in [1.2, 3], NEAR_BOTTOM in [1, 1.2), BOTTOM below 1 |
| Indicators.TwoYearMultiplier | indicators.py:66-121 | Insufficient data iff fewer than 730 rows. Otherwise the multiplier times the 730-day average is the price, and the signal is the ladder's |
| Indicators.RsiZone | indicators.py:142-155 | The RSI ladder, with NaN as NEUTRAL. EXTREME_OVERBOUGHT above 80, OVERBOUGHT in (70, 80], NEUTRAL in [30, 70], OVERSOLD in [20, 30), EXTREME_OVERSOLD below 20 |
| Indicators.RsiIndicator | indicators.py:124-164 | Reports the latest RSI, its zone (NEUTRAL when NaN) and the whole RSI column |
| Indicators.RsiSignalNeverCounts | indicators.py:359-360 | No RSI label contains `TOP` or `BOTTOM`, so RSI never moves the overall verdict |
| Indicators.RainbowPosition | indicators.py:196-198 | The position ratio is `(price - ma150) / (ma7 - ma150)`, or 0.5 when the two averages coincide |
| Indicators.RainbowZone | indicators.py:201-214 | The rainbow ladder: EXTREME_TOP above 1.5, TOP in (1, 1.5], NEUTRAL in [0.3, 1], BOTTOM in [0, 0.3), EXTREME_BOTTOM below 0 |
| Indicators.LatestBands | indicators.py:179-223 | The latest bands hold exactly the periods whose average is defined at the last row, each with that average |
| Indicators.BandHistory | indicators.py:179-224 | The band history holds every period's full rolling-mean column |
| Indicators.RainbowChart | indicators.py:167-225 | Insufficient data iff fewer than 150 rows. Otherwise the ratio and zone come from the 7-day and 150-day averages. The bands hold the latest value and the full column of each of the eleven periods from 7 to 150 rows |
| Indicators.MayerZone | indicators.py:251-264 | The Mayer ladder: EXTREME_TOP above 2.4, TOP in (1.8, 2.4], NEUTRAL in [1, 1.8], NEAR_BOTTOM in [0.8, 1), BOTTOM below 0.8 |
| Indicators.LatestPriceOver | indicators.py:274 | The history divides the LATEST price by each row's 200-day average, and is NaN where that average is |
| Indicators.MayerMultiple | indicators.py:228-275 | Insufficient data iff fewer than 200 rows. Otherwise the multiple times the 200-day average is the latest price, the signal is the ladder's, and the history is `MayerHistory` |
| Indicators.MayerHistory | indicators.py:274 | One entry per row, defined from row 199 on, each the latest price over that row's 200-day average |
| Indicators.MayerAfterLevelShift | indicators.py:228-275 | When the last 200 rows share one price, the multiple is exactly 1 and NEUTRAL, whatever came before |
| Indicators.GoldenZone | indicators.py:296-323 | The golden-ratio ladder against 0.5x, 1x, 1.618x, 2.618x and 3.618x the 350-day average. For a non-negative average each rung is an iff, which positive prices always give |
| Indicators.GoldenRatioMultiplier | indicators.py:278-333 | Insufficient data iff fewer than 350 rows. Otherwise the signal is the ladder's at the 350-day average |
| Indicators.Levels | indicators.py:298-304 | The five Fibonacci levels: 0.5, 1, 1.618, 2.618 and 3.618 times the 350-day average |
| Indicators.CountMentions | indicators.py:359-360 | The number of labels containing a token is at most the number of labels |
| Indicators.MentionsOfTop | indicators.py:359 | Counting labels that contain `TOP` is counting TOP and EXTREME_TOP |
| Indicators.MentionsOfBottom | indicators.py:360 | Counting labels that contain `BOTTOM` is counting NEAR_BOTTOM, BOTTOM and EXTREME_BOTTOM |
| Indicators.OverallVerdict | indicators.py:362-367 | APPROACHING TOP iff at least three top labels. APPROACHING BOTTOM iff fewer than three tops and at least three bottoms. Otherwise MIXED |
| Indicators.AnalyzeAll | indicators.py:336-371 | Runs all six classifiers (RSI period 14) and derives the verdict from their six labels |
| Indicators.CountsWithinLength | indicators.py:359-360 | Top and bottom labels together never outnumber the labels |
| Indicators.CountsWithNeutralEntry | indicators.py:359-360 | A label that is neither top nor bottom lowers that bound by one |
| Indicators.TopsAndBottomsNeverBothReachThree | indicators.py:359-367 | Of the six labels, tops and bottoms number at most five, because the RSI label is neither |
| Indicators.FlatPiCycle | indicators.py:19-63 | A constant series is SAFE for Pi Cycle |
| Indicators.FlatTwoYear | indicators.py:66-121 | A constant series of 730+ rows has 2-year multiplier exactly 1.0, labelled NEAR_BOTTOM |
| Indicators.FlatRsi | indicators.py:124-164 | A constant series has RSI NaN, labelled NEUTRAL |
| Indicators.FlatRainbow | indicators.py:167-225 | A constant series of 150+ rows has position ratio 0.5 (the equal-averages fallback), labelled NEUTRAL |
| Indicators.FlatMayer | indicators.py:228-275 | A constant series of 200+ rows has Mayer multiple exactly 1.0, labelled NEUTRAL |
| Indicators.FlatGolden | indicators.py:278-333 | A constant series of 350+ rows has price equal to the 350-day average (the 1x level), labelled NEUTRAL |
| Indicators.FlatSeriesAnalysis | indicators.py:336-371 | A constant series of 730+ rows gives labels SAFE, NEAR_BOTTOM and four NEUTRAL, and a mixed verdict |
| Indicators.FlatVerdict | indicators.py:359-367 | The constant-series labels hold no top and one bottom |
| Backtesting.IsExtremum | backtesting.py:38-48 | A row in `[window, n - window)` is a peak iff its price equals the maximum of the `2 window + 1` prices centred on it, and a trough iff it equals their minimum |
| Backtesting.PeakIsWindowMaximum | backtesting.py:37 | A row is a peak iff no price within `window` rows on either side is higher. Ties count |
| Backtesting.TroughIsWindowMinimum | backtesting.py:47 | A row is a trough iff no price within `window` rows on either side is lower. Ties count |
| Backtesting.FindPeaksAndTroughs | backtesting.py:22-58 | Returns exactly the peak rows and exactly the trough rows in `[window, n - window)`, ascending, with their prices. A series of at most `2 window` rows has none |
| Backtesting.RisingSeriesHasNoExtrema | backtesting.py:22-58 | A strictly rising series has no peak or trough for any radius of at least 1 |
| Backtesting.FallingSeriesHasNoExtrema | backtesting.py:22-58 | A strictly falling series has no peak or trough for any radius of at least 1 |
| Backtesting.ZeroRadiusMarksEveryRow | backtesting.py:22-58 | With radius 0 every row is both a peak and a trough |
| Backtesting.ReturnPct | backtesting.py:249 | The return times the signal price is 100 times the price change. With a positive signal price, its sign is the sign of the change |
| Backtesting.ForwardReturns | backtesting.py:242-251 | A horizon among 30, 60 and 90 is present iff it falls inside the series, with that row's percentage return |
| Backtesting.CalculateFutureReturns | backtesting.py:242-251 | The loop over the horizons builds exactly `ForwardReturns` |
| Backtesting.MayerAt | backtesting.py:125-133 | The Mayer column is defined from row 199 on, and times the 200-day average gives the price |
| Backtesting.MayerColumn | backtesting.py:126 | The column holds each row's Mayer multiple |
| Backtesting.Fires | backtesting.py:72-215 | Row i fires iff i >= 1 and: Pi Cycle, both lines are defined at i, the 111-day average is below twice the 350-day average at i - 1 and at or above it at i. Mayer top, previous < 2.4 and current >= 2.4. Mayer bottom, previous > 0.8 and current <= 0.8. RSI oversold, previous > 30 and current <= 30. RSI overbought, previous < 70 and current >= 70. The current value must be defined, and a NaN previous value fails its comparison |
| Backtesting.EventAt | backtesting.py:139-147 | The event at row i: the row, its price, the kind, the metric (the Mayer multiple or RSI at i, none for Pi Cycle), and the forward returns from that price |
| Backtesting.VisitRow | backtesting.py:198-226 | One loop body: given the row's own crossing test, which must equal `Fires`, it appends `EventAt` exactly when the row fires, with returns from `CalculateFutureReturns`, and keeps the scan invariant |
| Backtesting.ScanStep | backtesting.py:198-226 | Visiting one row appends its event exactly when the row fires, and keeps the events exact and ordered |
| Backtesting.CrossingsAreNeverAdjacent | backtesting.py:132-162 | An event on one row rules out an event of the same kind on the next row |
| Backtesting.UndefinedPreviousNeverFires | backtesting.py:198-215 | A NaN statistic on the previous row never lets a crossing fire |
| Backtesting.PiCycleNeedsTwoFilledRows | backtesting.py:72-77 | A Pi Cycle event needs the 350-day average on both rows, so it fires no earlier than row 350 |
| Backtesting.OppositeSignalsExclusive | backtesting.py:132-150 | One row never fires both a Mayer top and a Mayer bottom, nor both RSI oversold and overbought |
| Backtesting.SingleUpCrossing | backtesting.py:132-135 | A Mayer multiple below 2.4 until row t and at or above it afterwards fires exactly once, at t |
| Backtesting.CountAccurate | backtesting.py:259-263 | The accurate count never exceeds the number of signals |
| Backtesting.ReturnOrZero | backtesting.py:265-269 | `.get(key, 0)`: the return at a horizon, or 0 when that horizon is missing |
| Backtesting.Accurate | backtesting.py:259-263 | A top signal is right iff its 90-day return (missing reads as 0) is negative. A bottom signal iff it is positive |
| Backtesting.Summarize | backtesting.py:253-276 | No signals: all zeros. Otherwise the accuracy is 100 times the accurate share of ALL signals, in [0, 100], and each average is the sum (missing horizons as 0) over ALL signals |
| Backtesting.AccuracyOf | backtesting.py:255-265 | 0 with no signals. Otherwise in [0, 100], and times the number of ALL signals it is 100 times the accurate count |
| Backtesting.AverageReturn | backtesting.py:267-269 | 0 with no signals. Otherwise times the number of ALL signals it is the sum of returns at that horizon, a missing one counting as 0 |
| Backtesting.AllAccurateCount | backtesting.py:259-263 | The accurate count equals the number of signals iff every signal is accurate |
| Backtesting.NoneAccurateCount | backtesting.py:259-263 | The accurate count is 0 iff no signal is accurate |
| Backtesting.AccuracyExtremes | backtesting.py:259-265 | Accuracy is 100 iff every signal was right, and 0 iff none was |
| Backtesting.MissingHorizonStillCounted | backtesting.py:261-265 | A signal without a 90-row return is in the denominator and never counts as accurate |
| Backtesting.AccuracyInPrices | backtesting.py:261-263 | A recorded top is accurate iff the price 90 rows later is lower. A bottom iff it is higher. Both need that row to exist |
| Backtesting.ReliabilityOf | backtesting.py:278-293 | The reliability ladder: highly at 75 or more, moderately in [60, 75), somewhat in [50, 60), otherwise not reliable |
| Backtesting.DirectionOf | backtesting.py:291 | The move is reported as down iff the average return is negative, and up otherwise, including 0 |
| Backtesting.DirectionFollowsReturns | backtesting.py:103-115 | For a non-empty stream the reported direction is down iff the summed 90-row returns, a missing one counting as 0, are negative |
| Backtesting.InterpretDual | backtesting.py:295-316 | Each side is called reliable iff its accuracy reaches 60, which is the ladder's highly or moderately rung |
| Backtesting.BacktestPiCycle | backtesting.py:60-116 | The signals are exactly the upward crossings of the 111-day average over twice the 350-day average, ascending, with returns. The summary, reliability and up/down direction of the 90-row average are computed over them |
| Backtesting.BacktestMayerMultiple | backtesting.py:118-177 | Tops are exactly the upward crossings of 2.4 and bottoms exactly the downward crossings of 0.8, each scored with its own accuracy rule |
| Backtesting.BacktestRsi | backtesting.py:179-240 | Oversold signals are exactly the downward crossings of 30 and overbought exactly the upward crossings of 70. The dual interpretation takes overbought as the top side |
| Backtesting.RunFullBacktest | backtesting.py:318-339 | Runs the three backtests on the same series and reports its length in rows |
| TtlCache.ExpiryFor | cache.py:56 | An entry expires `ttl` seconds after it is written. A negative TTL expires it at once |
| TtlCache.Lookup | cache.py:36-45 | A value is served iff the key is present and `now <= expires_at`, and it is the stored value |
| TtlCache.AfterGet | cache.py:39-43 | A lookup removes at most the looked-up key, and only when its entry has expired |
| TtlCache.LiveKeys | cache.py:75 | The keys counted as active are exactly those with `now <= expires_at` |
| TtlCache.ExpiredKeys | cache.py:86-89 | The keys collected for cleanup are exactly those with `now > expires_at` |
| TtlCache.Prune | cache.py:83-94 | The pruned table keeps exactly the live keys, with unchanged entries |
| TtlCache.Cache.constructor | cache.py:16-17 | A new cache is empty |
| TtlCache.Cache.Get | cache.py:26-45 | Returns `Lookup` on the old table and leaves `AfterGet` of it |
| TtlCache.Cache.Set | cache.py:47-61 | Overwrites only the given key, with expiry `now + ttl` |
| TtlCache.Cache.Delete | cache.py:63-66 | Removes only the given key. An absent key is a no-op |
| TtlCache.Cache.Clear | cache.py:68-70 | Empties the table |
| TtlCache.Cache.GetStats | cache.py:72-81 | Total is the table size, active the live keys, expired the expired keys, and total = active + expired |
| TtlCache.Cache.CleanupExpired | cache.py:83-94 | Leaves exactly the live entries and returns how many expired entries it removed |
| TtlCache.LiveAndExpiredPartition | cache.py:75-80 | Live and expired keys are disjoint and together make up the table |
| TtlCache.ExpiryBoundary | cache.py:40 | An entry is still served at its expiry instant, and not one unit later |
| TtlCache.SetThenLookup | cache.py:56-61 | A key just written reads back for a non-negative TTL and not for a negative one. Other keys read as before |
| TtlCache.GetEvictionUnobservable | cache.py:39-43 | Lazy eviction changes no lookup at the same or a later instant, and a repeated lookup evicts nothing more |
| TtlCache.PruneKeepsLookups | cache.py:83-94 | Cleanup changes no lookup at that instant, leaves nothing expired, and a second cleanup changes nothing |
| TtlCache.PruneSize | cache.py:83-94 | After cleanup the table size drops by exactly the number of expired keys |

## Left out

- Dates and timestamps. Rows are numbered, and the `date` field of events, `data_period.start` and `data_period.end` are not modelled.
- Floating point. Prices and statistics are exact reals. Rounding, infinities and IEEE NaN propagation beyond the comparisons above are not modelled.
- Interpretation strings and string formatting, such as `f"{accuracy:.1f}%"` and the `interpretation` texts. Only the decisions that choose them are modelled: the ladders, `ReliabilityOf`, `DirectionOf` and `InterpretDual`. The `abs(avg_return)` magnitude is only printed.
- The `indicator` and `name` string fields of result dictionaries. The `__main__` demonstration blocks print to a console.
- `Indicators.RsiIndicator`: requires `period >= 1`. The RSI call sites use 14: `indicators.rsi(df)` relies on the default (`indicators.py:351`), and the backtest sets `period = 14` (`backtesting.py:187`). A window of 0 would give pandas an all-NaN column, which reads as NEUTRAL, and is not modelled.
- `Backtesting.FindPeaksAndTroughs`: the radius is a `nat`. In the source a negative radius makes `range(window, len(prices) - window)` reach `i = len(prices)`, where `prices.iloc[i]` raises `IndexError`. The model's type excludes that input.
- `Series.MovingAverage`: requires `w >= 1`. Every rolling-mean window in the source is a fixed constant from 7 to 730. A zero window is not modelled. The extremum scan, whose radius defaults to 30, does accept radius 0.
- `Indicators.AnalyzeAll`: requires a non-empty series of strictly positive prices. The same holds for `PiCycleIndicator`, `TwoYearMultiplier`, `MayerMultiple` and the backtests. The source accepts zero or negative prices, for which pandas divides to infinity or NaN. The model does not capture those values.
- Default arguments are explicit parameters: RSI `period=14`, extremum `window=30` and cache `ttl_seconds=300`. Callers pass the defaults themselves.
- `Cache._generate_key` and the `cached` decorator. They rely on MD5 hashing, JSON serialisation and wrapping arbitrary functions.
- `_global_cache` and `get_cache`. They are a process-wide singleton.
- The `created_at` field written by `set`. Nothing reads it.
- `TtlCache.Cache.Get`: models a stored value as always present. A Python `None` stored as a value is indistinguishable from a miss there.
- The wall clock (`datetime.now()`). It becomes the `now` parameter.
- `TtlCache.Cache.Set` / `TtlCache.ExpiryFor`: the clock is an unbounded integer. In the source, `datetime.now() + timedelta(seconds=ttl_seconds)` raises `OverflowError` when the expiry falls outside `datetime`'s range (past year 9999, or beyond `timedelta`'s 999,999,999 days), leaving the cache unchanged. The model stores the entry instead, and that error path is not modelled.
- The data fetcher, configuration, command-line and web front ends, and the prose interpreter. They are network I/O or presentation.
