# NVDA one-minute RSI backtest, modelled in Dafny

This project models the simulation core of `backtest_nvda_intraday.py`. The core has four parts:

- **The oscillator.** `compute_rsi` computes a 14-bar RSI from bar-to-bar close changes. Gains and losses are smoothed with pandas `ewm(alpha=1/14, adjust=False)`. An undefined first value becomes the neutral 50, and so does a zero average loss.
- **The execution engine.** `backtest_day` is a single-position FLAT/LONG machine run over the one-minute bars of one session:
  - it buys with all its cash when the RSI is under 20;
  - it sells on a 2% stop, or on RSI over 65 after at least five whole minutes held;
  - slippage is 2 basis points per side;
  - a position still open after the last bar is sold as "EOD";
  - it tracks the running peak equity and the maximum drawdown, and reports a day summary.
- **The session aggregation** of `run`. Bars are grouped by calendar day. Each day, in ascending order, is run through a fresh engine. The summaries and the date-tagged trades are collected.
- **The day selection** of `fetch_recent_days`. Only the last `n` distinct days are kept.

Modules:

- `Oscillator` (`oscillator.dfy`). The RSI as recursive functions on `seq<real>`, with the smoothing recurrence and the "NaN becomes 50" rules written out.
- `Rounding` (`rounding.dfy`). Python's `round` (half to even) on real numbers. The model needs it where the source computes its win rate from rounded `PnL_%` values.
- `Engine` (`engine.dfy`). The engine's state and one bar of the loop as functions (`Track`, `Decide`, `Step`). `Run` is the whole loop, `Finish` the end-of-day block, `Summarize` the summary and `Simulate` the whole day. `backtest_day` is the method `BacktestDay`:
  - `ReplayBars` is its `for` loop, with the seven engine variables updated in place;
  - `CloseSession` is the forced close;
  - `SummarizeSession` is the summary block.

  Each method is proved equal to its function.
- `EngineProperties` (`engine_properties.dfy`). What the engine promises: the entry and exit rules, the stop's priority, peak and drawdown monotonicity, the ledger shape after the end-of-day block, the summary figures, the compounding of the final equity over the round trips, and the behaviour on quiet, rising and falling sessions.
- `Sessions` (`sessions.dfy`). The day keys and `sorted(unique)`, the day selection with Python's `[-n:]` slice, the grouping into per-day chunks and the proof that they partition the series, and the `run` loop `RunSessions` with its inner tagging loop `AppendDated`. Both are proved equal to recursive functions, and lemmas state what the table and the consolidated ledger contain.
- `Wrappers` (`wrappers.dfy`). `Option`.

Prices, cash and returns are `real`. Times are whole seconds (`int`). A calendar day is an `int` day number, so the order of the numbers is the order of the dates.

## Model

| member | source | states |
|---|---|---|
| Oscillator.Gain | backtest_nvda_intraday.py:24 | the gain is non-negative and positive exactly when the change is positive |
| Oscillator.Loss | backtest_nvda_intraday.py:25 | the loss is non-negative and positive exactly when the change is negative |
| Oscillator.Smooth | backtest_nvda_intraday.py:26-27 | one step of the `adjust=False` weighted mean: the first observation seeds it, and both averages stay non-negative |
| Oscillator.Smoothed | backtest_nvda_intraday.py:23-27 | one pair of averages per bar; the first bar has none (its `diff` is NaN); every later pair is non-negative |
| Oscillator.SmoothedAt | backtest_nvda_intraday.py:26-27 | the pandas recurrence per bar: bar 1 seeds both averages with the first change's gain and loss, and every later bar applies y = (1-α)·y' + α·x to the previous bar's averages |
| Oscillator.SmoothedPrefix | backtest_nvda_intraday.py:23-27 | the averages of a prefix of the closes are the prefix of the averages (causality) |
| Oscillator.RsiOf | backtest_nvda_intraday.py:27-30 | 50 for undefined averages or a zero average loss (`replace(0, nan)` then `fillna(50)`); otherwise 100 - 100/(1+g/l), in [0,100), and 0 exactly when the average gain is 0 |
| Oscillator.ComputeRsi | backtest_nvda_intraday.py:22-30 | one value per bar, the first is 50, all lie in [0,100], 50 wherever the average loss is 0, and below 100 wherever it is positive |
| Oscillator.RsiPrefix | backtest_nvda_intraday.py:22-30 | the RSI of a prefix of the closes is the prefix of the RSI |
| Oscillator.ZeroAverages | backtest_nvda_intraday.py:23-27 | at bar i ≥ 1 the average loss is 0 exactly when no close up to i fell, and the average gain is 0 exactly when none rose |
| Oscillator.RisingSeriesNeutral | backtest_nvda_intraday.py:27-30 | on a series that never falls, a strictly rising one included, the RSI is 50 at every bar, not 100 |
| Oscillator.FallingSeriesZero | backtest_nvda_intraday.py:23-29 | on a strictly falling series the RSI is exactly 0 from the second bar on |
| Rounding.NearestEven | backtest_nvda_intraday.py:136 | the result is within one half of the argument, and even on a tie |
| Rounding.RoundHalfEven | backtest_nvda_intraday.py:136 | `round(x, digits)`: a whole number of units of 10^-digits, within half a unit of x, and an even number of units on a tie |
| Rounding.RoundedPositive | backtest_nvda_intraday.py:136 | a rounded value is positive exactly when x exceeds half a unit |
| Engine.SharesFor | backtest_nvda_intraday.py:118-119 | the shares bought are positive whenever the cash exceeds the fee |
| Engine.Percentage | backtest_nvda_intraday.py:156 | a share in percent lies in [0,100] and is 0 exactly when the part is 0 |
| Engine.Track | backtest_nvda_intraday.py:107-113 | marking to market never lowers the peak, which ends at least the bar's equity, never raises the maximum drawdown, and changes nothing else |
| Engine.Decide | backtest_nvda_intraday.py:115-139 | the entry and exit rules keep cash/shares exclusivity and leave peak and drawdown alone; a bar without a new ledger row leaves the state unchanged; a new row is exactly one appended trade, a BUY exactly when the engine was flat, and it flips the position |
| Engine.Step | backtest_nvda_intraday.py:102-139 | one iteration keeps exclusivity, never lowers the peak and never raises the maximum drawdown |
| Engine.Run | backtest_nvda_intraday.py:92-139 | after any number of bars, shares are non-negative; shares or cash is zero; the entry price and time are set exactly while shares are held; the entry price is positive |
| Engine.Finish | backtest_nvda_intraday.py:141-151 | the end-of-day block always ends flat and keeps peak and drawdown; a flat engine is left as it is; an open position adds exactly one SELL with reason EOD stamped with the last bar's time |
| Engine.Summarize | backtest_nvda_intraday.py:153-164 | the trade count is the SELL count and the final equity the cash; the total return is positive exactly when the cash exceeds START_CASH; the win rate is absent exactly without SELLs and otherwise in [0,100]; the drawdown figure is non-negative |
| Engine.Annotate | backtest_nvda_intraday.py:89-90 | one tick per bar, keeping the bar's time and close, with that bar's value of `compute_rsi` over the session's closes, in [0,100] |
| Engine.Simulate | backtest_nvda_intraday.py:84-165 | `backtest_day` as a function: a summary exactly for a non-empty session, and no trades for an empty one |
| Engine.PnlPercents | backtest_nvda_intraday.py:155 | one rounded `PnL_%` per SELL of the ledger |
| Engine.RunInvariant | backtest_nvda_intraday.py:97-139 | after every bar: exclusivity as above; peak ≥ START_CASH; max drawdown ≤ 0; the ledger alternates BUY, SELL, … starting with BUY; every BUY was made under RSI 20 at a positive fill; every SELL closes the BUY before it with the right reason (STOP at or under the stop level; a signal only above it, with RSI over 65 and at least 300 seconds held) and the return measured from the entry fill; no EOD sale inside the loop; a position is open exactly when the ledger length is odd, and its BUY holds the entry price and time |
| Engine.HeldLongEnough | backtest_nvda_intraday.py:126-128 | floor((now−entry)/60) ≥ 5 exactly when at least 300 seconds have passed since the entry |
| Engine.ReplayBars | backtest_nvda_intraday.py:92-139 | the loop with its seven variables updated in place ends in exactly the state `Run` specifies |
| Engine.CloseSession | backtest_nvda_intraday.py:141-151 | the forced close computes exactly the end-of-day state `Finish` specifies |
| Engine.SummarizeSession | backtest_nvda_intraday.py:153-164 | the summary block computes exactly `Summarize` of the closed state |
| Engine.BacktestDay | backtest_nvda_intraday.py:84-165 | `backtest_day` returns exactly what `Simulate` specifies: `([], no summary)` for an empty session; otherwise the oscillator over the closes, the loop, the forced close and the summary |
| EngineProperties.RunStep | backtest_nvda_intraday.py:102-139 | the state after bar i is one step (mark to market, then decide) from the state before it |
| EngineProperties.EntryRule | backtest_nvda_intraday.py:115-123 | while flat, a BUY is appended exactly when RSI < 20, the fill price·(1+2/10⁴) is positive and cash exceeds the fee; it buys (cash−fee)/fill shares (positive), zeroes the cash and records the entry price and time; otherwise position, cash and ledger are unchanged |
| EngineProperties.ExitRule | backtest_nvda_intraday.py:124-139 | while long, a price at or under entry·0.98 sells with reason STOP whatever the holding time, even when the signal also holds; otherwise a SELL needs RSI > 65 and floor((now−entry)/60) ≥ 5; a SELL receives shares·fill − fee, zeroes the shares, clears the entry and records (fill−entry)/entry; without a SELL nothing but peak and drawdown changes |
| EngineProperties.PeakAndDrawdownMonotone | backtest_nvda_intraday.py:107-113 | from any bar to any later bar the peak never decreases and the maximum drawdown never increases |
| EngineProperties.PeakCoversEquity | backtest_nvda_intraday.py:107-113 | after each bar the peak is at least START_CASH and at least that bar's equity, and is either kept or replaced by it; the maximum drawdown is at most that bar's drawdown from the peak, and is either kept or replaced by it |
| EngineProperties.PositiveRunExclusive | backtest_nvda_intraday.py:115-139 | on positive prices exactly one of cash and shares is zero after every bar, and a flat engine holds positive cash |
| EngineProperties.FlatAlwaysBuys | backtest_nvda_intraday.py:115-123 | on positive prices the `buy_px > 0 and cash > FEE_PER_TRADE` guard always passes: a flat engine buys at every bar with RSI under 20, ending with positive shares and no cash |
| EngineProperties.PositiveDayEndsInCash | backtest_nvda_intraday.py:141-154 | on positive closes the day ends flat with positive final cash |
| EngineProperties.ParityCounts | backtest_nvda_intraday.py:115-139 | with BUYs at even and SELLs at odd positions, there is one BUY more than SELLs while a position is open, and as many otherwise |
| EngineProperties.BalancedLedger | backtest_nvda_intraday.py:141-151 | an alternating ledger of even length has as many BUYs as SELLs |
| EngineProperties.DayClosed | backtest_nvda_intraday.py:141-151 | after the end-of-day block, shares are 0 and the ledger alternates, has even length and equal BUY and SELL counts; EOD can only be the last SELL; a position open after the loop produces exactly one EOD SELL stamped with the last bar's time, priced from its close less slippage, with the return from the entry; otherwise the ledger is the loop's |
| EngineProperties.FinishCloses | backtest_nvda_intraday.py:141-151 | from any state the loop can leave, the forced close ends flat with an alternating, even-length ledger with equal BUY and SELL counts and EOD only as the last SELL; an open position produces exactly one EOD SELL at the last bar, otherwise the ledger is unchanged |
| EngineProperties.RoundedWins | backtest_nvda_intraday.py:155-156 | the number of positive rounded `PnL_%` values is the number of SELLs whose return exceeds 0.0005 percent |
| EngineProperties.RoundedGain | backtest_nvda_intraday.py:155-156 | one SELL's rounded `PnL_%` is positive exactly when its return exceeds 0.0005 percent |
| EngineProperties.SummaryFigures | backtest_nvda_intraday.py:153-164 | a non-empty session has a summary; its trade count is the SELL count and the BUY count; its final equity is the cash after the forced close; total return = final equity/START_CASH − 1, in percent; the win rate is absent exactly when there are no SELLs, and otherwise is the percentage of clear gains among the SELLs, in [0,100]; the drawdown figure is the non-negative size of the loop's maximum drawdown |
| EngineProperties.StepCompounds | backtest_nvda_intraday.py:115-139 | every bar keeps all money at work: while flat the cash, while long the shares times the entry fill, equal START_CASH times the product of 1 + return over the SELLs so far |
| EngineProperties.RunCompounds | backtest_nvda_intraday.py:102-139 | the compounding identity above holds after every bar of the loop |
| EngineProperties.FinishCompounds | backtest_nvda_intraday.py:141-151 | after the forced close the cash is START_CASH times the product of 1 + return over all SELLs |
| EngineProperties.FinalEquityCompounds | backtest_nvda_intraday.py:115-164 | with the fee at 0, final equity = START_CASH × Π(1 + pnl) over the day's SELLs, and the total return is that product less one, in percent |
| EngineProperties.QuietRun | backtest_nvda_intraday.py:115-123 | while the RSI never drops under 20, the loop leaves the engine in its starting state |
| EngineProperties.QuietDay | backtest_nvda_intraday.py:84-164 | a session whose RSI never drops under 20 has no trades, final equity equal to START_CASH, zero return, no win rate and zero drawdown |
| EngineProperties.RisingDayNoTrades | backtest_nvda_intraday.py:84-164 | a session whose closes never fall has the same empty result |
| EngineProperties.FallingDayBuysAtSecondBar | backtest_nvda_intraday.py:115-123 | on a strictly falling session with a positive second close, the only trade after two bars is a BUY at the second bar, at its slipped price, with RSI 0, all cash in shares |
| Sessions.Insert | backtest_nvda_intraday.py:79 | inserting into a strictly increasing sequence keeps it strictly increasing and adds exactly the new value |
| Sessions.SortedUnique | backtest_nvda_intraday.py:79 | `sorted(set(xs))`: strictly increasing, with exactly the values of xs |
| Sessions.AscendingIsUnique | backtest_nvda_intraday.py:79 | two strictly increasing sequences with the same members are equal, so the ascending distinct order is unique |
| Sessions.Days | backtest_nvda_intraday.py:176 | the days `groupby` visits: strictly ascending, exactly the days that occur |
| Sessions.Chunk | backtest_nvda_intraday.py:176-177 | a day's bars in their original order: non-empty exactly when the day occurs, and never longer than the series |
| Sessions.ChunkAppend | backtest_nvda_intraday.py:176-177 | grouping commutes with concatenation: the chunk of a joined series is the chunk of the first part followed by that of the second, so the order of the bars is kept |
| Sessions.ChunkHasBar | backtest_nvda_intraday.py:176-177 | every bar is in the chunk of its own day |
| Sessions.ChunkOnlyDay | backtest_nvda_intraday.py:176-177 | everything in a day's chunk is one of the series' bars of that day |
| Sessions.ChunkSizesCount | backtest_nvda_intraday.py:176-177 | over distinct days, the chunks together hold exactly as many bars as the series has on those days |
| Sessions.ChunksPartition | backtest_nvda_intraday.py:176-177 | the chunks of the days `groupby` visits partition the series: their sizes add up to its length and every bar is in its own day's chunk |
| Sessions.KeepLast | backtest_nvda_intraday.py:79 | Python's `days[-n:]`: a suffix of the days; the last min(n, len) for positive n; all of them for n = 0; all but the first −n for negative n |
| Sessions.KeepDays | backtest_nvda_intraday.py:80 | `isin(keep)`: the bars kept are those whose day occurs and is in keep |
| Sessions.SelectRecentDays | backtest_nvda_intraday.py:79-80 | the selected series has a bar of day d exactly when d is among the last n distinct days |
| Sessions.SelectionKeepsLastDays | backtest_nvda_intraday.py:78-80 | the selected series has exactly the last n distinct days, `sorted(unique)[-n:]` |
| Sessions.SelectionKeepsChunks | backtest_nvda_intraday.py:80 | the selection leaves a kept day's bars untouched and in order, and leaves no bars of a day not kept |
| Sessions.AppendDated | backtest_nvda_intraday.py:180-182 | the inner loop appends exactly the session's tagged trades, in order, to the ledger |
| Sessions.DatedLedger | backtest_nvda_intraday.py:180-182 | the consolidated ledger over the days carries only dates among those days |
| Sessions.SummaryRows | backtest_nvda_intraday.py:176-179 | one row per day |
| Sessions.RowsOfDays | backtest_nvda_intraday.py:176-179 | row k of the table is day k with the summary the per-session engine returns on that day's bars alone |
| Sessions.DatesOfRows | backtest_nvda_intraday.py:178-179 | the table's dates are the days, one row each, in the same order |
| Sessions.SessionStep | backtest_nvda_intraday.py:176-182 | one more day adds one row to the table and its tagged trades to the ledger |
| Sessions.RunSessions | backtest_nvda_intraday.py:173-184 | the loop of `run` builds exactly the table and ledger the recursive definitions specify, with `backtest_day` run on every day in ascending order |
| Sessions.SessionTable | backtest_nvda_intraday.py:176-184 | the table has one row per distinct day, strictly ascending by date (so `sort_values("date")` changes nothing); every row has a summary, and it is that of a fresh engine on that day's bars alone: nothing carries over between days |
| Sessions.RecentSessions | backtest_nvda_intraday.py:167-184 | after the day selection, the table has exactly the last n days, ascending, and each row is the fresh-engine summary of that day's bars in the full series |
| Sessions.TradesOnAppend | backtest_nvda_intraday.py:182 | reading trades back by date distributes over concatenation of ledgers |
| Sessions.TradesOnTag | backtest_nvda_intraday.py:180-181 | the trades of a session, tagged with its date, read back by date are that session's trades for its own date and nothing for any other |
| Sessions.TradesOnSession | backtest_nvda_intraday.py:180-182 | appending a session's tagged trades adds them to that date's trades only |
| Sessions.LedgerOfDay | backtest_nvda_intraday.py:176-182 | over distinct days, the ledger's trades dated d are exactly d's own backtest trades, or none when d is not among the days |
| Sessions.LedgerByDate | backtest_nvda_intraday.py:176-182 | the consolidated ledger of the whole run, read by date, gives each day exactly the trades of its own fresh backtest and no trade under a day that does not occur |

## Left out

- Data fetching in `fetch_recent_days` (lines 37-77) is network I/O and pandas plumbing, so it is not modelled:
  - the `yf.download` request;
  - time-zone localisation and conversion;
  - the `between_time` session filter;
  - the search for a Close column;
  - `to_numeric(...).dropna()`.

  The model starts from a list of bars that already carry a day number, a time in seconds and a close.
- Dates are day numbers, not `datetime.date` values or the `str(day)` strings `run` stores. ISO date strings sort in date order, so `sort_values("date")` on the strings and the numeric order agree.
- Printing in `run` and the CSV export (lines 185-190) are output only, so they are not modelled.
- `make_nvda_charts.py` is outside this model. It is chart rendering and file I/O, and its `compute_rsi` is a copy of the modelled one.
- `paper_test_nvda_yf.py` is outside this model. It is a polling loop driven by the clock, `sleep` and the network. Its per-bar rules differ from `backtest_day` in lacking the `buy_px > 0 and cash > FEE_PER_TRADE` guard.
- Engine.BacktestDay: the ledger keeps prices and RSI unrounded. The source stores `round(buy_px, 4)`, `round(sell_px, 4)` and `round(cur_rsi, 2)` in its trade rows.
- Engine.BacktestDay: a SELL of the ledger holds its return as the unrounded fraction `pnl`. The source's trade row holds `round(pnl * 100, 3)` instead (lines 136 and 149). The model applies that rounding, half to even as `round` does on exact values, in `Engine.PnlPercents`, where the summary reads the values; the win rate is therefore computed from the rounded values, as in the source.
- Engine.Summarize: the summary fields are kept unrounded. The source rounds final equity, total return and drawdown to 2 decimals and the win rate to 1.
- Engine.Run: arithmetic is on exact reals instead of IEEE doubles. Binary rounding of `cash + shares * price`, of the slippage factors and of the divisions is not modelled.
- Engine.BacktestDay: non-numeric closes, which `to_numeric(errors="coerce")` would turn into NaN, are excluded because the bars carry real closes.
- Engine.ReplayBars: the source's `float(...)` conversions do not appear, because every value is already a real.
- Timestamps are whole seconds, and `(ts - entry_time).total_seconds() // 60` is floor division. For the whole-second times in the model, Dafny's `/` on `int` with a positive divisor is the same floor division.
- A strictly rising series does not get RSI 100, as the textbook formula would give it. The model follows the code. A zero average loss becomes NaN through `replace(0, nan)`, and `fillna(50)` then gives 50. `Oscillator.RisingSeriesNeutral` proves the 50.
- pandas `ewm`, `diff`, `clip` and `fillna` are modelled only as the recurrence and the NaN rule `compute_rsi` uses. They are not modelled as general operations.
- Peak and drawdown are tracked only at the start of each bar, as in the source. The equity after the last decision and after the forced close is not reflected in the drawdown figure.
- The end-of-day block does not clear the entry price and time, as in the source. Nothing reads them afterwards.
