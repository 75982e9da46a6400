# Bitcoin price projection: a Dafny model of `script.js`

The web page draws a speculative Bitcoin price chart from the current year to
2045. `script.js` has three parts with logic in them:

- **Price source** (`fetchCurrentPrice`). It asks a quote service for the
  Bitcoin price in US dollars. When the request, the decoding or the read of
  `data.bitcoin.usd` throws, it returns the fixed price 27000. That read throws
  when the body is `null` or `bitcoin` is absent, `null` or `undefined`. When
  `bitcoin` is some other value without `usd`, such as `{}`, the function returns
  `undefined` (see "Findings").
- **Series builder** (`calculatePrices`). It picks an annual growth rate. A
  preset scenario (bear, base, bull) has a fixed 2045 target price, and for it
  the rate is the compound rate that reaches that target. The custom scenario
  uses the typed percentage, or 0 when `parseFloat` yields NaN (the text does not
  start with a number). The series
  builder then compounds the current price once per year: one year label and one
  price per year.
- **Chart handle** (`generateChart`). There is one global chart. Before a new
  chart is installed, the old one is destroyed.

The model is in four modules:

- `Wrappers` — `Option`.
- `PriceSource` — the price lookup and its fallback.
- `Projection` — the rate choice, the target table and the labels/prices loop.
- `Render` — the chart handle as a class, plus `GenerateChartAsWritten` and
  `GenerateChart`, which chain the three parts over the written and the
  corrected price lookup.

Numbers are exact `real`s. The whole-number power in the loop is modelled exactly
by `Power`. `Math.pow` with a fractional exponent, used for the preset rate, is
the function parameter `pow`. The current year, the quote service's response and
the parsed custom percentage are all inputs.

The price at the start year is the formula at exponent 0, which is exactly the
current price (`Projection.Projected`).

When the start year is 2045, the preset rate's exponent `1 / (years - 1)`
divides by zero. The model takes rate 0 in that case. The series then has one
entry, the current price, whatever the rate is
(`Projection.SingleYearIgnoresRate`). In the code, `Math.pow(x, 0)` is 1
whatever `x` is, so the series is the same as the model's.

## Model

| member | source | states |
|---|---|---|
| `PriceSource.FetchCurrentPriceAsWritten` | script.js:31-42 | As written, the result is `undefined` exactly when the decoded `bitcoin` value is not `null` or `undefined` but has no `usd`, such as `{}`. A present quote is returned as it is. A failed fetch, a failed decode, a null body or a missing or null `bitcoin` gives 27000. |
| `PriceSource.FetchCurrentPrice` | script.js:32-41 | Corrected price source: a present quote is returned as it is, and every other response gives the fallback 27000. Nothing reaches the caller as a failure. |
| `PriceSource.CorrectedAgreesWithWritten` | script.js:35-40 | Wherever the written lookup returns a number, the corrected one returns the same number. Where the written one returns `undefined`, the corrected one returns the fallback. |
| `PriceSource.MissingUsdEscapesFallback` | script.js:35-36 | For a decoded `{"bitcoin": {}}` the written lookup returns `undefined`, and the corrected one returns 27000. |
| `PriceSource.CurrentPricePositive` | script.js:37-41 | If the quote, when present, is positive, the current price is positive, because the fallback 27000 is positive. |
| `Projection.TargetPrice` | script.js:46-50 | The target table: bear 3,000,000, base 13,000,000, bull 49,000,000. |
| `Projection.GrowthRateChoice` | script.js:57-67 | What the rate choice `GrowthRate` yields. A custom percentage that does not parse gives rate 0. A parsed percentage `v` gives a rate whose hundredfold is `v`. For a preset, `1 + rate` is `pow(target / currentPrice, 1 / (years - 1))`, or the rate is 0 when `years` is 1. |
| `Projection.Projected` | script.js:71 | The price at offset `i` is `currentPrice * (1 + rate)^i`, and the price at offset 0 is the current price. |
| `Projection.CalculatePrices` | script.js:45-77 | Labels and prices have one entry per year from the start year to 2045: `2045 - startYear + 1` entries, or none when the start year is after 2045. Label `i` is `startYear + i`, and the last label is 2045. Price 0 is the current price. Price `i` is `currentPrice * (1 + rate)^i`, and each price is the previous one times `1 + rate`. The rate is the one picked for the scenario. |
| `Projection.ProjectedStep` | script.js:69-71 | Each year's price is the previous year's price times `1 + rate`. |
| `Projection.FlatAtZeroRate` | script.js:71 | At rate 0, every year's price equals the current price. |
| `Projection.UnparsedCustomIsFlat` | script.js:59-63 | A custom percentage that does not parse (NaN) gives rate 0, and then every price is the current price. |
| `Projection.CustomCompounds` | script.js:59-60 | A parsed custom percentage `v` compounds the current price at `v / 100` a year. |
| `Projection.TenPercentExample` | script.js:59-74 | A series from 2043 at a custom 10 % from 1000 has labels 2043, 2044, 2045 and prices 1000, 1100, 1210. |
| `Projection.ProjectedPositive` | script.js:71 | With a positive current price and a rate above -100 %, every price is positive. |
| `Projection.ProjectedNonDecreasing` | script.js:69-71 | With a non-negative current price and a non-negative rate, a later price is never below an earlier one. |
| `Projection.PresetReachesTarget` | script.js:64-67 | For a preset, if `pow` returns the exact `(years - 1)`-th root, the last price (2045) equals the scenario's target. |
| `Projection.PresetEndsOrdered` | script.js:46-50 | When `pow` gives exact roots, the 2045 price of the bear series is below that of the base series, which is below that of the bull series. |
| `Projection.SingleYearIgnoresRate` | script.js:53-71 | When the start year is 2045, the series is the single point (2045, current price), whatever the rate. |
| `Projection.SeriesDetermined` | script.js:45-77 | The inputs determine the labels and the prices. So two identical refreshes draw identical series. |
| `Render.Chart.constructor` | script.js:137 | A new chart holds the given labels and prices and is live. |
| `Render.Chart.Destroy` | script.js:135 | After `destroy()`, the chart is marked destroyed. |
| `Render.ChartSlot.constructor` | script.js:9 | The handle starts empty and has held no chart. |
| `Render.ChartSlot.Live` | script.js:9 | The charts the handle has held that are still live are exactly the current chart, or none. So at most one chart is live. |
| `Render.ChartSlot.Replace` | script.js:134-137 | The chart held before has been destroyed. The handle now holds a fresh chart over the given data, appended to the history. Exactly one chart, the new one, is live. |
| `Render.GenerateChartAsWritten` | script.js:80-137 | `generateChart` as written. It draws exactly when the written lookup yields a number. If it does not draw (`undefined`, which throws at `toLocaleString`), the handle and its history are unchanged and the old chart stays live. If it draws, the old chart is destroyed and the only live chart is a fresh one over the series built from the fetched price. |
| `Render.GenerateChart` | script.js:80-137 | `generateChart` over the corrected lookup. It always draws: the previous chart is destroyed, and the only live chart is a fresh one over the series built from the looked-up price or the fallback. |

## Left out

- The HTTP request, JSON decoding and `console.error` (script.js:33-38). These are network I/O. `Response` records only which step failed and what the decoded body held.
- A `usd` member that is present but not a number (a string, say) is not modelled. `UsdField` is either missing or a number.
- `Math.pow` with a fractional exponent (script.js:66). This is floating-point root extraction, so it is the parameter `pow`. Its correctness is a premise of `Projection.PresetReachesTarget`.
- `Projection.CalculatePrices`, `Render.GenerateChart`, `Render.GenerateChartAsWritten`: a preset scenario requires a positive current price. In JavaScript a non-positive price does not always break the series. For start years up to 2043, a zero or negative price gives a non-finite rate and NaN prices from the second entry on. For start year 2044, a zero price does the same. A negative price at 2044 gives the finite series `[price, target]`, because the exponent is exactly 1. For start year 2045 the series is `[price]`, and after 2045 it is empty. Exact reals cannot represent the NaN cases, so the model excludes them all. Real quotes and the fallback are positive.
- `Projection.GrowthRate`: for a preset when the start year is 2045, the model takes rate 0. JavaScript computes `Math.pow(x, Infinity) - 1` with `x = target / currentPrice`. That is Infinity when `x > 1`, NaN when `x == 1`, and -1 when `0 < x < 1`. `Projection.SingleYearIgnoresRate` shows that the series is the same whatever the rate.
- `Render.GenerateChart`: models the program with the corrected price lookup, which always draws. The program as written is `Render.GenerateChartAsWritten`.
- Custom input that `parseFloat` reads as `Infinity` is not modelled. `Custom` carries a finite real or NaN.
- Floating-point rounding, `toFixed(2)` and `toLocaleString` (script.js:73, 87, 117, 126). Prices are exact reals, not two-decimal strings.
- Selector values other than bear, base, bull and custom. The page's selector offers only these four.
- DOM access, `updateScenario`, the spinner and price text, and the event listeners (script.js:4-28, 82, 87). These are user interface.
- The Chart.js configuration and drawing (script.js:91-132, 137). `Chart` keeps only its data and whether it is destroyed.
- `new Date().getFullYear()` (script.js:51). The start year is an input.
- Overlapping `generateChart` calls racing on `priceChart` across the `await` (script.js:84). This is concurrency. Each call is modelled as running to completion.

## Findings

| source | as written | input that shows it | evidently intended | confidence | as-written member | corrected member |
|---|---|---|---|---|---|---|
| script.js:35-36 | `data.bitcoin.usd` throws, and so falls back, only when the body is `null` or `bitcoin` is absent, `null` or `undefined`. If `bitcoin` is some other value without `usd`, such as `{}`, the function returns `undefined` and skips the 27000 fallback. `generateChart` then fails at `currentPrice.toLocaleString()`, and no chart is drawn. | a response whose body decodes to `{"bitcoin": {}}` | any response without a numeric quote gives the fallback 27000 | medium; not executed | `PriceSource.FetchCurrentPriceAsWritten` (with `PriceSource.MissingUsdEscapesFallback` and `Render.GenerateChartAsWritten`) | `PriceSource.FetchCurrentPrice` (with `PriceSource.CorrectedAgreesWithWritten` and `Render.GenerateChart`) |
