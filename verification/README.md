# Option simulator: a Dafny model of its arithmetic core

The repository is a small stock-option simulator with two front ends. One is a
browser page (`app.js`). The other is a Streamlit script (`app.py`). Both take a
history of daily closing prices, estimate volatility, and price a European call
or put with Black-Scholes. They then size a position for a given investment and
draw the profit-and-loss curve at expiry. The browser page can also replay the
history day by day, re-pricing the option on each revealed prefix.

This project models the parts of that which are plain real arithmetic or a
small state machine:

- `pricing.dfy` (`Pricing`): the option type, and the guard that returns the
  intrinsic value when no time or volatility is left. It also holds the year
  fraction of a day count, how each front end turns its option selection into
  a type, and contract sizing. The closed-form formula is an abstract function
  (`ClosedForm`). The volatility estimate and the closed form are bundled as an
  abstract `Engine`.
- `volatility.dfy` (`Volatility`): the mean and sample variance (Bessel's
  correction) of a sequence of returns. It has a functional definition and a
  loop method that follows the browser's `reduce`/`map` steps.
- `payoff.dfy` (`Payoff`): the net payoff at one price. It has the browser's
  grid, built by repeatedly adding a step, and numpy's `linspace` grid. It
  also has the loops that build the two curves and the curve's shape.
- `replay.dfy` (`Replay`): the replay cursor `(running, index)`, with pure
  `Start`, `Tick` and `Stop`. `Run` chains ticks, and lemmas say which
  snapshots a run shows.
- `simulator.dfy` (`Simulator`): the two single-shot pipelines end to end.
- `realarith.dfy` and `wrappers.dfy`: a product-sign lemma and `Option`.

All numbers are unbounded reals. No floating-point effect is modelled.

## Model

| member | source | states |
|---|---|---|
| `Pricing.Intrinsic` | app.js:37 | the intrinsic value is never negative. It is at least the moneyness (S−K for a call, K−S for a put) and equals either 0 or that moneyness, so it is exactly max(0, ±(S−K)) |
| `Pricing.IntrinsicParity` | app.js:37 | at exercise, call intrinsic minus put intrinsic is exactly S−K |
| `Pricing.BlackScholes` | app.js:36-41 | when T ≤ 0 or σ ≤ 0, the price is the intrinsic value, so it is ≥ 0 and is 0 or the moneyness. Otherwise it is whatever the closed form gives. `black_scholes` at app.py:29-37 has the same guard |
| `Pricing.DegenerateParity` | app.js:37 | on the guarded branch, the priced call minus the priced put is S−K, whatever the closed form is |
| `Pricing.YearFraction` | app.js:97 | T·365 equals the day count, and T ≤ 0 exactly when days ≤ 0. So the guard fires on a non-positive day count |
| `Pricing.OptionTypeOfValue` | app.js:37 | only the exact value "call" prices a call. Every other value prices a put |
| `Pricing.OptionTypeOfLabel` | app.py:69 | a caption prices a call exactly when it contains '콜' somewhere. A caption that starts with it is a call, so the two `startswith` tests add nothing |
| `Pricing.RadioCaptions` | app.py:41 | the page's two captions map to call and put respectively |
| `Pricing.Contracts` | app.js:99 | contracts are 0 when the option price is ≤ 0. Otherwise contracts·price·100 equals the investment. Contracts are ≥ 0 for a non-negative investment, and > 0 when both the investment and the price are positive. app.py:75-77 is the same |
| `Volatility.SquaredDeviations` | app.js:49 | one entry per return. Every entry is ≥ 0, and an entry is 0 exactly when its return equals the mean |
| `Volatility.SampleVariance` | app.js:48-50 | the variance is defined exactly when there are at least two returns. It is then ≥ 0, and 0 when all returns are equal |
| `Volatility.ZeroVarianceOnlyIfConstant` | app.js:48-50 | the converse: a zero sample variance means all returns are equal |
| `Volatility.SumOf` | app.js:48 | the left-to-right `reduce` from 0 computes the sum |
| `Volatility.ComputeSampleVariance` | app.js:48-50 | the three-pass loop computation agrees with `SampleVariance` on every input, including fewer than two returns |
| `Payoff.NetPayoff` | app.js:107-108 | the net payoff at expiry: the exercise value max(0, ±(p − strike)) times contracts times 100, less the investment. Its properties are stated by `NetPayoffBounds` and `NetPayoffMonotone` |
| `Payoff.NetPayoffBounds` | app.js:107-108 | with contracts ≥ 0, the net payoff is never below −investment. Out of the money it is exactly −investment. In the money it is moneyness·contracts·100 − investment |
| `Payoff.NetPayoffMonotone` | app.js:107-108 | with contracts ≥ 0, a call's net payoff does not decrease as the final price rises, and a put's does not increase |
| `Payoff.PayoffCurveShape` | app.py:88-93 | over a non-decreasing grid with contracts ≥ 0, every payoff is ≥ −investment, and every out-of-the-money point is exactly −investment. Call payoffs are non-decreasing and put payoffs non-increasing along the grid |
| `Payoff.JsGridPointFacts` | app.js:104-105 | for a positive current price the step is positive. Grid point k stays ≤ 1.5·current exactly when k ≤ 200, and point 200 is exactly 1.5·current |
| `Payoff.JsGridAscending` | app.js:105 | later grid points are strictly higher |
| `Payoff.JsPayoffCurve` | app.js:102-109 | the loop as written, for a non-zero price. Prices and payoffs have equal length, and each payoff is the net payoff at its price. The prices are exactly the index grid `JsGrid`. A positive current price gives 201 points, from 0.5·current up to exactly 1.5·current, strictly ascending and never above 1.5·current. Point k is 0.5·current + k·step. A negative current price gives no points |
| `Payoff.ZeroPriceLoopNeverEnds` | app.js:104-105 | at a zero current price the step is 0 and every grid point passes the loop test `p <= maxP`, so the loop as written never ends |
| `Payoff.JsPayoffCurveBounded` | app.js:102-109 | the same loop, also stopped after 201 points. Its prices are exactly `JsGrid(current)` for every price, so it agrees with the loop as written wherever that ends. There are 201 points for a price ≥ 0 (all 0 at a zero price), none for a negative price, and they are strictly ascending for a non-zero price, from 0.5·current to 1.5·current |
| `Payoff.Linspace` | app.py:86 | `linspace(a, b, n)` has n points. The first is a and the last is exactly b, consecutive points differ by (b−a)/(n−1), and the points are strictly ascending when a < b |
| `Payoff.PyGrid` | app.py:86 | the Python grid has 200 points. `PyGridFacts` gives its endpoints, spacing and ascent |
| `Payoff.PyGridFacts` | app.py:86 | the Python grid runs from 0.5·current to 1.5·current in steps of current/199, strictly ascending for a positive current price |
| `Payoff.PayoffsAt` | app.py:87-93 | the loop yields one payoff per grid price, each the net payoff at that price |
| `Payoff.PyPayoffCurve` | app.py:86-93 | the prices are the 200-point `linspace` grid: from 0.5·current to exactly 1.5·current, evenly spaced and ascending for a positive price, with one net payoff per price |
| `Replay.Prefix` | app.js:140 | the closes revealed at step i are the first i+1 closes, ending with close[i] |
| `Replay.SnapshotAt` | app.js:145-152 | the snapshot for step i carries i and close[i]. Its value is the intrinsic value at close[i] when days ≤ 0, or when the volatility of the prefix is ≤ 0. Otherwise it is the closed form at spot close[i], with days/365 years and the volatility of closes 0 … i |
| `Replay.Start` | app.js:126-130 | with data loaded, play sets the index to 0 and starts the timer. Without data nothing changes |
| `Replay.Stop` | app.js:161-166 | stop clears the running flag and leaves the index alone |
| `Replay.StopIdempotent` | app.js:161-166 | stopping twice is the same as stopping once |
| `Replay.Tick` | app.js:131-158 | with no timer, nothing happens. Past the last close, the replay stops, keeps its index and shows nothing. Otherwise it shows the snapshot for step `index` (close[index], priced on closes 0 … index) and advances the index by one |
| `Replay.Run` | app.js:131-158 | n timer callbacks in a row, each one `Tick`. What a run shows is stated by `RunShowsAtMostOnePerCallback`, `IdleRunShowsNothing`, `RunShowsNextSteps` and `RunSplit` |
| `Replay.RunShowsAtMostOnePerCallback` | app.js:131-158 | n callbacks show at most n snapshots, because each callback draws at most one |
| `Replay.IdleRunShowsNothing` | app.js:161-163 | once the timer is cleared, any number of later callbacks show nothing and change nothing |
| `Replay.RunShowsNextSteps` | app.js:131-158 | while steps remain, n callbacks from step i show exactly the snapshots for steps i … i+n−1, in order, and leave the replay running at step i+n |
| `Replay.RunSplit` | app.js:131-158 | m+n callbacks are m callbacks and then n more from the cursor they left |
| `Replay.ReplayShowsEveryStepOnce` | app.js:126-158 | after play, N+1 callbacks (or more) show exactly the N snapshots for steps 0 … N−1 in order, each once. The replay then stops at index N |
| `Replay.TickAsWritten` | app.js:131-157 | the callback as written: when pricing reaches the closed form, the undefined `Math.erfc` (app.js:33) throws, so the cursor stays and nothing is shown. On every other path it is `Tick` |
| `Replay.RunAsWritten` | app.js:131-158 | n callbacks as written show at most n snapshots, and on a stopped replay they show nothing and change nothing |
| `Replay.StuckReplayShowsNothing` | app.js:131-157 | as written, once a running replay reaches a step priced by the closed form, any number of callbacks leave it at that step and show nothing |
| `Replay.ErfcReplayExample` | app.js:32-37 | with closes [100, 101], 30 days, and a volatility that is 0 for one close and fails `sigma<=0` for two (NaN in the browser, 0.2 in the example), the replay as written shows step 0 and then sticks at step 1 for good. With a closed form that returns, both steps are shown and the replay stops |
| `Replay.StopHaltsReplay` | app.js:161-166 | stopping after k callbacks leaves exactly steps 0 … k−1 shown, and no further callback shows anything |
| `Simulator.JsSimulate` | app.js:90-109 | the current price is the last close. The option price is the guarded price on that close with the volatility of all closes, and the contracts satisfy the sizing relation. The curve holds the net payoff at each point of `JsGrid(current)`: 201 points for a price ≥ 0, strictly ascending for a positive price. With a non-negative investment it is never below −investment, and for a positive price a call's payoffs never fall along the grid and a put's never rise |
| `Simulator.CalcAndShow` | app.js:88-110 | without loaded data, there is no result. Otherwise the result satisfies every promise of `JsSimulate`: the current price, the option price, the sizing relation, the 201-point grid and its payoffs, the lower bound, and the monotone curve |
| `Simulator.CalcAndShowAsWritten` | app.js:88-109 | as written: without data there is no result. With data, pricing that reaches the closed form throws (app.js:33), so there is no result either. When pricing takes the intrinsic branch, the curve comes from the loop as written (`JsPayoffCurve`), and the result satisfies every promise of `JsSimulate`. Like that loop, it excludes a zero last close on the intrinsic branch, where the page hangs |
| `Simulator.PySimulate` | app.py:66-93 | the caption picks the type, the guarded price and sizing hold, and the grid is exactly the 200-point `linspace`: from 0.5·current to 1.5·current in steps of current/199, strictly ascending for a positive price. With a non-negative investment and a positive price, payoffs are ≥ −investment, non-decreasing for a call and non-increasing for a put |

## Left out

- The closed-form Black-Scholes branch and the normal CDF (app.js:32-41, app.py:32-37) are left out. They are transcendental floating-point maths, so they are the abstract `ClosedForm`. `Pricing.BlackScholes` returns the abstract closed form there. `Math.erfc` at app.js:33 is not part of ECMAScript, so the browser's closed-form branch throws. That throw is modelled by `Replay.TickAsWritten` and `Simulator.CalcAndShowAsWritten` (see Findings).
- Log returns, the square root and the √252 annualisation (app.js:46-47, 51) are left out. So are the pandas `std` wrapper and `dropna` (app.py:25-27). The volatility of a run of closes is the abstract `Engine.volatility`, and only the variance over given returns is modelled. pandas' `std` uses the same divisor, n−1.
- `Volatility.SampleVariance` returns `None` below two returns. The browser computes no usable number there: −0 for a single price (no returns) and NaN for two prices (one return) (app.js:48-50). On the first replay tick, −0 ≤ 0 sends pricing to the intrinsic branch. On the second, NaN fails `sigma<=0`, so with days > 0 pricing reaches the closed form and throws (see Findings). Reals cannot express −0 or NaN, and the model claims no fallback.
- Replay.ReplayShowsEveryStepOnce, Replay.StopHaltsReplay, Simulator.JsSimulate and Simulator.CalcAndShow describe the program with a closed form that returns. As written, every closed-form price throws (app.js:33). A replay then sticks at the first such step (`Replay.StuckReplayShowsNothing`). `calcAndShow` aborts at app.js:98 whenever days > 0 and σ fails `sigma<=0` (σ > 0, or NaN from two closes or from a zero close in the history), so it draws no curve and no summary.
- Simulator.JsSimulate, Simulator.CalcAndShow and Simulator.CalcAndShowAsWritten require at least one close. A header-only CSV loads as an empty `close` array (app.js:19-21, 60). `calcAndShow` then prices with an undefined current price: the price is NaN, the curve is empty, and `current.toLocaleString()` throws at app.js:116. The model does not describe that run.
- `Payoff.JsPayoffCurve` works over reals, where repeated `p += step` lands exactly on 1.5·current. In floating point the last point can be lost. Its `current != 0` precondition excludes a zero price, for which the loop as written never ends (see Findings). The simulation uses `Payoff.JsPayoffCurveBounded` instead.
- `Replay.Start` requires a stopped replay. The source does not refuse a second start itself. Only the disabled play button prevents one (app.js:128).
- `Replay.Tick` takes the option type, strike and days as arguments on each call, because each tick re-reads them from the page (app.js:146-148). It also takes the closes on each call, because each tick re-reads `historical`. Picking another ticker during a replay (app.js:169, 65) swaps the history under a running cursor. The run lemmas hold the inputs and the history fixed.
- `Replay.Snapshot` keeps step, close and option value. The redrawn candlestick prefix (app.js:135-142) is only rendering.
- The price history comes in as already-parsed closes. CSV loading, `toNumber` and the yfinance download with its cache (app.js:16-29, 54-74; app.py:19-23, 45-50) are left out.
- DOM reads and writes, Plotly and Streamlit rendering, and the summary tables are left out (app.js:76-86, 112-123, 155, 164-175; app.py:39-40, 42-51, 53-63, 79-85, 94-111). So are the strike bounds (app.js:69-71, app.py:53-55) and the warning on a non-positive price (app.py:72-73).
- `setInterval`/`clearInterval` timing (app.js:131, 158, 162) is left out. A call of `Tick` stands for one timer callback.
- The Python grid has 200 points (`linspace(…, 200)`, app.py:86). The browser grid has 201.
- Starting a replay is refused only when no file has loaded (app.js:127). A replay of an empty history starts, and its first tick stops it.
- All log returns are kept (app.js:47). None is dropped for a non-positive or non-finite price.
- The risk-free rate 0.035 (app.js:96, 150; app.py:66) only feeds the closed form, so it is folded into `ClosedForm`.

## Findings

| source | as written | input that shows it | evidently intended | confidence | as-written member | corrected member |
|---|---|---|---|---|---|---|
| app.js:104-105 | the grid loop adds (maxP − minP)/200 while `p <= maxP`. At a zero current price the step is 0 and p stays at 0 ≤ maxP, so the loop never ends and the page hangs | a last close of 0, or a blank one (`toNumber('')` is null and null·0.5 = 0), with days ≤ 0; or a one-row file whose close is 0. With days > 0 and more closes, log(0/x) makes σ NaN and `Math.erfc` throws first | a finite grid of 201 points | medium, not executed | `Payoff.JsPayoffCurve`, `Payoff.ZeroPriceLoopNeverEnds` | `Payoff.JsPayoffCurveBounded` (used by `Simulator.JsSimulate`) |
| app.js:33 | `normCDF` calls `Math.erfc`, which JavaScript does not define, so every closed-form price throws. In the replay the throw leaves the callback before `animIndex++` (app.js:157), so the same step is retried every 150 ms and the replay never advances. `calcAndShow` aborts at app.js:98 and draws no curve | closes [100, 101] and 30 days: step 0 has σ = −0 and takes the intrinsic branch. Step 1 has σ = NaN, which fails `sigma<=0`, and throws on every later callback | a normal CDF that returns, so the replay shows every step once and then stops | high, not executed | `Replay.TickAsWritten`, `Replay.StuckReplayShowsNothing`, `Replay.ErfcReplayExample`, `Simulator.CalcAndShowAsWritten` | `Replay.Tick`, `Replay.ReplayShowsEveryStepOnce`, `Simulator.CalcAndShow` |
