# Mirror-market trading bot: decision-and-exit engine in Dafny

This project models the decision-and-exit engine of a Binance futures bot
(`utils.py`). For each symbol quoted in USDT with status TRADING, other than
BTCUSDT, the bot:

1. sizes an order under the symbol's lot-size step;
2. skips the symbol when its last 50 fifteen-minute closes correlate with
   BTCUSDT's at less than 0.85, or when either history is not 50 candles
   long (a NaN correlation is not less than 0.85, so it is not skipped;
   see "## Findings");
3. picks a risk:reward profile from an ADX trend-strength reading and
   three-bar momentum;
4. buys at market and then runs a trailing stop-loss / take-profit loop until
   the position is sold or an exchange call fails.

The modules follow those parts:

- `Catalog` (catalog.dfy): the instrument catalog records, the symbol
  universe filter (`get_all_usdt_symbols`), and the first-match lookups the
  sizer does.
- `Sizing` (sizing.dfy): `calculate_order_quantity`. The quantity is
  usdt / price rounded down to the LOT_SIZE step, or 0 on any failure. The
  step is 10^-k, so the source's `round(-log10(step))` is k and the arithmetic
  is exact over the reals.
- `Correlation` (correlation.dfy): the mirror-market gate. The Pearson
  coefficient is a parameter. It is `NotANumber` when a series has zero
  variance, as in NumPy.
- `Regime` (regime.dfy): true range, ±DM, the 14-bar DI/DX/ADX columns,
  momentum, and the profile choice. Each indicator is a column with one entry
  per candle, like a pandas column. `None` stands for pandas' NaN: row 0 has no
  previous candle, a 14-row window is incomplete, a window contains a NaN, or
  a division is 0/0.
- `Trailing` (trailing.dfy): the trailing-exit loop. `Next` is one poll over
  the loop variables `highest`, `stop_price`, `target_price`, `closed` and
  `last_price`. `Replay` runs the loop over a sequence of polls, and the lemmas
  state what holds across any such sequence. The class `Trail` keeps the same
  variables as fields: `Poll` runs one pass of the loop body in place, and
  `Track` runs the `while not closed` loop. Both are proved against `Next` and
  `Replay`.
- `Engine` (engine.dfy): `place_order_with_trailing` end to end, as
  written: the gate `corr < 0.85` (`Correlation.AdmitAsWritten`), the profile
  choice, the entry fill, then the trailing loop. The fail-closed gate
  `Correlation.Admit` is the corrected gate of the finding.
- `Wrappers` and `Arith`: `Option`, and small facts about real division used
  by the sizing and indicator proofs.

Each poll of the loop is a `Tick`: either `Quote(price, sellAccepted)` or
`QuoteFailed`. `sellAccepted` says whether the exchange accepts a reduce-only
sell if one is placed on that poll. A rejected sell raises inside the loop's
`try`, just as a failed price request does. Either one ends the loop with the
position open.

Some behaviours of `utils.py` that are easy to misread:

- Momentum is `(close[-1] - close[-4]) / close[-4]`, a change over three bars,
  not four (utils.py:91).
- DX has no fallback for a zero `+DI + -DI`: DX is NaN there, and so is every
  ADX whose window includes it. `adx > 30` is then false (utils.py:88-92).
- Take entry 100, the "1:2" profile, and polls at 100, 105, 103, 98. The
  target is 102, so the poll at 105 takes profit there and the polls at 103
  and 98 are never made (`Trailing.ConservativeTakesProfit`).
- Take entry 100, the "1:3" profile, and polls at 100, 104, 130. The target
  103 is first reached at 104, which moves it to 107.12. The poll at 130 then
  moves it to 133.9 (`Trailing.AggressiveRebasesTarget`).
- `place_order_with_trailing` never reads its `entry_price` argument. The
  entry is always the fill price.

## Model

| member | source | states |
|---|---|---|
| `Catalog.Selected` | utils.py:19-22 | The selection is no longer than the catalog and never contains BTCUSDT. |
| `Catalog.UsdtSymbols` | utils.py:15-25 | A failed catalog fetch yields no symbols. Otherwise the result is the selection in catalog order, and a symbol is returned if and only if a catalog record with quote USDT and status TRADING that is not BTCUSDT carries it. |
| `Catalog.SelectedMembership` | utils.py:19-22 | A symbol is returned if and only if some record with quote USDT, status TRADING and symbol other than BTCUSDT carries it. |
| `Catalog.SelectedAppend` | utils.py:19-22 | Catalog order is kept: selecting from a + b is selecting from a followed by selecting from b. |
| `Catalog.SelectedSingle` | utils.py:20-21 | A single record contributes its symbol exactly when it passes all three conditions. |
| `Catalog.FirstIndexOf` | utils.py:30 | The index found is that of the first record with the symbol. None means no record has it. |
| `Catalog.Lookup` | utils.py:30-32 | The record found is the first catalog record carrying the symbol. None means no record carries it. |
| `Catalog.FirstLotSize` | utils.py:33-35 | The step is that of the first LOT_SIZE filter. None means the symbol has no LOT_SIZE filter, where `[0]` would raise. |
| `Sizing.RoundDown` | utils.py:37-38 | floor(q·10^k)/10^k is a whole number of steps, is at most q, and is less than one step below q. |
| `Sizing.RoundDownIdempotent` | utils.py:39 | Rounding a quantity already on the grid leaves it unchanged, so the final `round(quantity, precision)` changes nothing. |
| `Sizing.RoundDownMaximal` | utils.py:38 | No whole number of steps that fits under q is larger than the rounded-down quantity. |
| `Sizing.StepDecimals` | utils.py:29-35 | A step is known only when the catalog was fetched and holds the symbol. Then it is known exactly when the first record carrying the symbol has a LOT_SIZE filter, and it is that of the record's first LOT_SIZE filter. |
| `Sizing.OrderQuantity` | utils.py:27-42 | The result is 0 for a failed fetch, an unknown symbol, a missing LOT_SIZE filter or a zero price. Otherwise it is a multiple of 10^-k, at most usdt/price, and more than usdt/price − 10^-k. |
| `Sizing.OrderQuantityMaximal` | utils.py:36-39 | Every order on the step grid whose notional at the price fits the budget is at most the sized quantity. |
| `Correlation.GatedCorrelation` | utils.py:62-65 | The correlation is Pearson's coefficient when both series have exactly 50 closes, and 0 otherwise. |
| `Correlation.AdmitAsWritten` | utils.py:62-68 | The gate as written admits exactly when both series are full and the coefficient is NaN or at least 0.85. |
| `Correlation.Admit` | utils.py:62-68 | The corrected gate admits exactly when both series are full and the coefficient is a number of at least 0.85. Whatever it admits, the as-written gate admits too. |
| `Correlation.ShortHistoryRejected` | utils.py:62-68 | With either series not 50 long, no coefficient admits the candidate, under either gate. |
| `Correlation.Boundary` | utils.py:67-68 | Under both the gate as written and the corrected gate, a coefficient of exactly 0.85 admits and one below 0.85 rejects. |
| `Correlation.FlatCandidateAdmittedAsWritten` | utils.py:62-68 | Fifty equal candidate closes (NaN correlation) pass the as-written gate and fail the corrected one. |
| `Regime.TrueRange` | utils.py:72-76 | TR is NaN on row 0 only. Elsewhere it is the largest of high−low, \|high−prevClose\| and \|low−prevClose\|, so it is at least high−low and non-negative. |
| `Regime.PlusDM` | utils.py:77-80 | +DM is non-negative. It is positive exactly when the up-move beats the down-move and is positive, and then it equals the up-move. |
| `Regime.MinusDM` | utils.py:81-84 | −DM is non-negative. It is positive exactly when the down-move beats the up-move and is positive, and then it equals the down-move. |
| `Regime.DirectionalMovementExclusive` | utils.py:77-84 | On every bar, at most one of +DM and −DM is positive. |
| `Regime.Total` | utils.py:86-89 | A window sum is NaN exactly when some entry in the window is NaN. |
| `Regime.RollingSum` | utils.py:86-87 | The rolling 14-row sum at row i is NaN exactly when fewer than 14 rows are available or one of the 14 rows up to i is NaN. |
| `Regime.RollingSumBounds` | utils.py:86-89 | A 14-row rolling sum of entries in [lo, hi] lies in [14·lo, 14·hi]. |
| `Regime.DirectionalIndex` | utils.py:86-87 | A DI is defined exactly when both rolling sums are defined and the true-range sum is not zero. It is then the value with DI × Σtr = 100 × Σdm, which is non-negative. |
| `Regime.PlusDI` | utils.py:86 | +DI is non-negative wherever it is defined. |
| `Regime.MinusDI` | utils.py:87 | −DI is non-negative wherever it is defined. |
| `Regime.DX` | utils.py:88 | DX is defined exactly when both DIs are defined and their sum is not zero. It is then the value with DX × (+DI + −DI) = 100 × \|+DI − −DI\|, a percentage in [0, 100]. |
| `Regime.Adx` | utils.py:89 | ADX is defined exactly when 14 rows are available and all 14 DX values in its window are defined. It is then their mean (14 × ADX = the window's DX sum) and lies in [0, 100]. |
| `Regime.AdxWarmUp` | utils.py:72-89 | No ADX exists before row 27: row 0's NaN true range spreads through the DI and DX windows. |
| `Regime.LatestAdx` | utils.py:90 | The ADX read is in [0, 100], and it is NaN for fewer than 28 candles. |
| `Regime.Momentum` | utils.py:91 | Momentum is undefined exactly when close[-4] is 0. Otherwise momentum × close[-4] = close[-1] − close[-4]. |
| `Regime.AdxAbove` | utils.py:90-92 | `adx > 30` is false when the ADX is NaN, and so always before 28 candles. When it holds, the ADX is in (30, 100]. |
| `Regime.MomentumAbove` | utils.py:91-92 | `momentum > 0.03` holds, over a positive close[-4], exactly when close[-1] > 1.03 × close[-4]; over a negative one, exactly when close[-1] < 1.03 × close[-4]; over a zero one (IEEE ±inf or NaN), exactly when close[-1] > 0. |
| `Regime.Classify` | utils.py:92-99 | The profile is (1%, 3%, "1:3") exactly when ADX > 30 or momentum > 0.03, and (1%, 2%, "1:2") otherwise. The stop is 1% either way. With fewer than 28 candles, momentum alone decides. |
| `Trailing.Start` | utils.py:125-129 | After entry, the peak and last price are the entry, the target is entry × (1 + tpPct), the position is open, and the invariant holds. For a positive entry, the target lies above the peak. |
| `Trailing.Exit` | utils.py:141-163 | An accepted sell closes the position and records one sell of the given kind at the last price, with every other loop variable unchanged. A rejected sell breaks off the loop with the variables unchanged and the position open. |
| `Trailing.StopCheck` | utils.py:152-163 | Above the stop, nothing happens. At or below it, an accepted sell closes the position with a stop-loss at the last price, and a rejected one breaks off the loop with the position open. |
| `Trailing.Next` | utils.py:133-170 | A poll records a sell exactly when it closes the position, at the polled price and only with an accepted sell. A failed price request changes nothing and breaks off the loop. |
| `Trailing.NextKeepsInvariant` | utils.py:134-136 | Each poll keeps stop = peak × (1 − stopPct) and peak ≥ entry, last price. It never lowers the peak or the stop. |
| `Trailing.NextKeepsArmed` | utils.py:137-139 | After a poll that keeps the loop running, the target is still above the peak. |
| `Trailing.NextAtPrice` | utils.py:133-163 | For a positive entry, per poll, the peak becomes max(peak, price). At or above the target, "1:2" sells with take-profit, while "1:3" moves the target to price × (1 + tpPct) and cannot also be stopped out. Below the target, the position sells exactly when the price is at or below the raised stop. |
| `Trailing.Continue` | utils.py:131-170 | The `while not closed` loop from poll i: a stopped run stays as it is; otherwise the history and the sells only grow, by at most one state per remaining poll. A run still tracking at the end has used every poll; one that stops has made at least one more poll. |
| `Trailing.Replay` | utils.py:131-170 | The loop from the entry: at most one state per poll; a run still tracking has used every poll and is open; a run that stopped made at least one poll. |
| `Trailing.ContinueProgress` | utils.py:131-170 | The loop from any point keeps the progress invariant: peak and stop ratchet, at most one sell, the loop stops at the first close, and an abort leaves the position open. |
| `Trailing.ReplayProperties` | utils.py:125-179 | Over any sequence of polls: after every poll, stop = peak × (1 − stopPct); peak and stop never decrease; at most one sell, placed exactly when the loop ends closed; the loop ends only on a close, a failed call, or the end of the polls; after a failed price request, the state is that of the previous poll and the position is open. |
| `Trailing.ConservativeTakesProfit` | utils.py:125-163 | Entry 100, "1:2", polls 100, 105, 103, 98: closes at 105 by take-profit on the second poll, with peak 105 and stop 103.95. |
| `Trailing.AggressiveRebasesTarget` | utils.py:125-163 | Entry 100, "1:3", polls 100, 104, 130: the target moves to 107.12 and then 133.9, and the position stays open with peak 130 and stop 128.7. |
| `Trailing.PollFailureKeepsLastState` | utils.py:131-179 | A failed price request after a poll at 104 ends the loop open, with the state of that poll. |
| `Trailing.Trail.constructor` | utils.py:125-129 | The fields start as in `Start`, with no sells placed. |
| `Trailing.Trail.Poll` | utils.py:132-170 | One in-place pass of the loop body leaves the fields, the sells and the abort flag as `Next` prescribes, and keeps the invariant. |
| `Trailing.Trail.Track` | utils.py:131-179 | The `while not closed` loop leaves the fields and the sells as `Replay` prescribes. It reports entry, last price, peak, stop and closed. |
| `Engine.EntryFill` | utils.py:101-106 | The entry is the acknowledged fill price when there is one, else the order-status fill price. A rejected buy has none. |
| `Engine.Closes` | utils.py:60 | The close column, one entry per candle. |
| `Engine.TradeReport` | utils.py:125-179 | The loop's report from an entry has peak ≥ entry, peak ≥ exit price, and stop = peak × (1 − stopPct). |
| `Engine.PlaceOrderWithTrailing` | utils.py:44-179 | A failed kline fetch is an error. The candidate is skipped, before any buy, exactly when the gate as written rejects it, so a NaN correlation on two full series goes on to the buy. An unknown fill is an error. A trade uses `Classify`'s profile and reports `Replay`'s final state, with peak ≥ entry, peak ≥ exit, and stop = peak × (1 − stopPct). |

## Left out

- `send_telegram_message` and all message text. Delivery is best effort and
  its failures are swallowed, so no notification changes the engine's state.
- `app.py`: the Flask routes, `.env` loading, client construction, and the
  per-symbol driver loop, including its `quantity <= 0` skip.
- The Binance client calls are parameters: a fetched catalog or None, kline
  series or None, the buy acknowledgement, the order-status fill price, and
  the polls. Only the kline fields high, low and close are modelled.
- `np.corrcoef` is a parameter. The model does not compute Pearson's
  coefficient, only how the gate treats it.
- `Sizing.OrderQuantity`: step sizes other than a power of ten are not
  modelled, because the step is 10^-k by construction. `log10` and the
  binary floating-point error of `floor` and `round` are not modelled; all
  arithmetic is over the reals.
- Floating point in general: prices, percentages and indicators are exact
  reals. Infinite directional indices are not told apart from NaN (both
  `None`), because either makes DX NaN. Signed zero is not modelled.
- `Regime.Momentum` requires at least 4 candles; with fewer, `iloc[-4]` would
  raise. The engine calls it only after the gate has seen exactly 50 candles.
- Exceptions in `place_order_with_trailing` other than a failed kline request,
  a rejected buy or an unknown fill price (for example malformed responses)
  are not modelled. Neither are malformed catalog records in the filter and
  the sizer.
- The 15-second `time.sleep` between polls.
- `Trailing.Trail.Track` and `Trailing.Replay`: the source polls until it
  closes or fails, possibly forever. The model runs over a finite sequence of
  polls and may stop with the position still being tracked (`Tracking`) when
  that sequence runs out.

## Findings

| source | as written | input that shows it | evidently intended | confidence | as-written member | corrected member |
|---|---|---|---|---|---|---|
| utils.py:62-68 | The candidate is skipped only when `corr < 0.85`. NumPy's correlation of a zero-variance series is NaN, and `nan < 0.85` is false, so the trade goes ahead. | A candidate whose 50 closes are all equal, e.g. a halted contract (`Correlation.FlatCandidateAdmittedAsWritten`). | Fail closed: trade only on a defined correlation of at least 0.85, as the length guard does for short history. | high; not executed | `Correlation.AdmitAsWritten` | `Correlation.Admit` |
