# EchoNode RSI divergence indicator, in Dafny

EchoNode charts cryptocurrency candles. It can overlay an RSI-divergence
indicator on the chart. This project models that indicator: the module
`echonode/indicators/divergence.py`, with its two functions.

- `rsi(series, period=14)` takes the closing prices. It computes the first
  differences and splits them into gains and losses. It takes a trailing
  simple mean of each over `period` samples and returns
  `100 - 100 / (1 + avg_gain / avg_loss)`.
- `compute_divergence(df, lookback=20)` computes RSI over the closes. It then
  compares every position `i >= lookback` with position `i - lookback`:
  - a lower low while RSI rises is a bullish marker, placed at `low * 0.995`;
  - a higher high while RSI falls is a bearish marker, placed at `high * 1.005`.
  - Every other position holds NaN.

The model works on immutable sequences of exact `real` numbers. pandas NaN is
`Option.None`, and every comparison with a NaN operand is false. An exception
is the `Err` case of a `Result`. All members are pure functions of their
arguments. So recomputing on the same input gives the same columns, and the
input candles are never modified.

Modules:

- `Options` (options.dfy): `Option` and `Result`.
- `Rolling` (rolling.dfy): window sums and `rolling(window=p).mean()`. It has
  the definition by windows and a one-pass running-sum method proved equal to it.
- `RelativeStrength` (rsi.dfy): differences, gains and losses, the RSI formula
  and its floating-point special cases, `rsi`, and properties of RSI.
- `Divergence` (divergence.dfy): candles, the marker scan, `compute_divergence`,
  a loop-based method proved equal to it, and properties of the markers.

Three facts about the code shape the model:

- Gain and loss are 0 at position 0. There the difference is NaN, and `where`
  replaces it by 0, so gain and loss exist at every position. RSI is therefore
  first defined at position `period - 1`.
- A window with no movement at all gives NaN (0/0). RSI is 100 only when the
  average loss is 0 and the average gain is positive.
- The bullish test needs `rsi[i] > rsi[i-lookback]` and the bearish test needs
  `rsi[i] < rsi[i-lookback]`. These strict comparisons are opposite, so no
  position carries both markers (`Divergence.Scan`).

## Model

| member | source | states |
|---|---|---|
| `Rolling.WindowMean` | echonode/indicators/divergence.py:13-14 | The rolling mean at `i` is present exactly when `1 <= period <= i + 1`. It is then the window sum divided by `period`. It is non-negative when the input is. |
| `Rolling.RollingMean` | echonode/indicators/divergence.py:13-14 | The rolling mean has the input's length, and position `i` is the mean of the window ending at `i`. |
| `Rolling.RollingMeanScan` | echonode/indicators/divergence.py:13-14 | The one-pass running-sum computation gives, at every position, the mean of the trailing window. |
| `RelativeStrength.Gains` | echonode/indicators/divergence.py:10-11 | Gains have the closes' length, are never negative, and are 0 at position 0, where the difference is NaN. |
| `RelativeStrength.Losses` | echonode/indicators/divergence.py:10-12 | Losses have the closes' length, are never negative, and are 0 at position 0. |
| `RelativeStrength.GainLossSplit` | echonode/indicators/divergence.py:10-12 | At most one of gain and loss is non-zero at a position. From position 1 on, gain minus loss is the price change. |
| `RelativeStrength.FormulaIsGainShare` | echonode/indicators/divergence.py:15-16 | With a positive average loss, `100 - 100/(1 + g/l)` equals `100 * g / (g + l)`, the share of upward movement. |
| `RelativeStrength.RsiFromAverages` | echonode/indicators/divergence.py:15-16 | RSI from two averages is present exactly when one of them is positive. It equals `100 * g / (g + l)` and lies in [0, 100]. It is exactly 100 when the average loss is 0 and the average gain is positive. |
| `RelativeStrength.RsiAt` | echonode/indicators/divergence.py:8-16 | RSI at `i` is defined exactly when the window is full and saw some gain or loss. Its value is 100 times the window's total gain over its total movement, within [0, 100]. |
| `RelativeStrength.Rsi` | echonode/indicators/divergence.py:8-16 | A negative period is an error and any other period is not. The result has the closes' length, each position is defined exactly as stated for `RsiAt`, and every defined value lies in [0, 100]. |
| `RelativeStrength.ComputeRsi` | echonode/indicators/divergence.py:8-16 | RSI computed with running-sum rolling means equals the window definition. |
| `RelativeStrength.AllGainWindowIsHundred` | echonode/indicators/divergence.py:15-16 | A full window with zero total loss and positive total gain gives RSI exactly 100. |
| `RelativeStrength.RsiOfRisingCloses` | echonode/indicators/divergence.py:8-16 | For strictly rising closes, RSI at `i` is exactly 100 when `1 <= period <= i + 1` and `i >= 1`, and NaN otherwise. So with `period >= 1` it is 100 from position max(period - 1, 1) on, and with `period = 0` it is NaN everywhere. |
| `RelativeStrength.RsiIsCausal` | echonode/indicators/divergence.py:10-14 | RSI at `i` depends only on the closes up to `i`: a prefix of the closes gives the same RSI values. |
| `Divergence.Oscillator` | echonode/indicators/divergence.py:36 | The RSI column is aligned with the candles, and every defined value lies in [0, 100]. |
| `Divergence.Scan` | echonode/indicators/divergence.py:37-52 | Both marker columns have the input's length, and positions before `lookback` are empty. From `lookback` on, a bullish marker is present exactly when the low fell and both RSI values are defined with the current one higher; its value is `low * 0.995`. A bearish marker is present exactly when the high rose and both RSI values are defined with the current one lower; its value is `high * 1.005`. No position carries both. |
| `Divergence.ComputeDivergence` | echonode/indicators/divergence.py:19-52 | A negative lookback is an error and no other lookback is. The columns are aligned with the input. A series no longer than `lookback` has no markers at all. |
| `Divergence.ScanMarkers` | echonode/indicators/divergence.py:37-50 | The loop that starts from NaN columns and writes markers at `lookback..n-1` produces exactly the markers of `Scan`. |
| `Divergence.ScanDivergence` | echonode/indicators/divergence.py:35-52 | The running-sum RSI followed by the scan loop equals `ComputeDivergence`, including the error for a negative lookback. |
| `Divergence.NoMarkersOnRisingCloses` | echonode/indicators/divergence.py:36-50 | Under strictly rising closes, no bullish or bearish marker appears anywhere. |
| `Divergence.ScanIsCausal` | echonode/indicators/divergence.py:40-50 | On a prefix of candles and RSI, the scan yields the prefix of the markers. |
| `Divergence.OscillatorIsCausal` | echonode/indicators/divergence.py:36 | The RSI column of a prefix of candles is the prefix of the RSI column. |
| `Divergence.DivergenceIsCausal` | echonode/indicators/divergence.py:35-52 | There is no look-ahead: the markers of the first `m` candles are the first `m` markers of the whole series. |
| `Divergence.ScanReadsHighLow` | echonode/indicators/divergence.py:41-50 | The scan reads only each candle's high and low. |
| `Divergence.DivergenceReadsHighLowClose` | echonode/indicators/divergence.py:35-52 | Two candle series that agree on high, low and close get the same result. The model's `time`, open and volume fields do not affect it. |
| `Divergence.BullishExample` | echonode/indicators/divergence.py:45-46 | Lows falling from 100 to 80 over 21 bars, with a rising RSI and lookback 20, give a bullish marker at position 20 worth 79.6 and no bearish marker. |

## Left out

- IEEE-754 arithmetic: means, the RSI formula and the 0.995 / 1.005 offsets use exact reals. pandas' running sums can leave a tiny non-zero average loss where the exact value is 0. That would give a value just below 100 instead of 100 or NaN. Rounding is not modelled.
- NaN prices in the input frame: every candle field is a number here. Only the NaNs the indicator itself creates are modelled.
- Missing `Close`, `High` or `Low` columns (a pandas `KeyError`): candles are records, so the columns always exist.
- Repeated timestamps: the model writes each marker by position and assumes distinct timestamps. The frame is indexed by the exchange's candle timestamps (echonode/gui.py:151-152). The source writes markers by label through `data.at[data.index[i], ...]`. With a repeated label, pandas would put the marker on every row sharing that label. `Candle.time` is carried but not read.
- A zero-length rolling window (`period = 0`) is modelled as never defined, taking the mean of an empty window as NaN. `compute_divergence` always uses period 14.
- echonode/gui.py is not part of this model. It holds Qt widgets, chart rendering, a background refresh thread, a timer and CSV writes, which are UI, concurrency and I/O. The only call it makes into the indicator uses the default lookback.
- echonode/bitunix_api.py is not part of this model. It holds HTTP requests, HMAC signing with a secret from the environment, and clock-based nonces.
- echonode/trading.py is not part of this model. It is a thin dispatch to the exchange client and an environment check.
- main.py is not part of this model. It is an argument parser with placeholder modes.
