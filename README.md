# DashboardF in Dafny

A model of the computing core of DashboardF, a stock dashboard. It has two parts.

The first is a small Express proxy, `GET /api/daily/:symbol?days=N`. It serves a cached
Alpha Vantage daily series from disk while the file is at most 24 hours old. Otherwise
it asks the provider, turns the provider's error replies into HTTP errors (400, 425, 500),
keeps the closing prices of the newest `days` dates, writes the payload to the cache and
returns it.

The second is the client's numerical side:
- the four indicators of `indicators.js`: simple moving average, exponential moving
  average, Wilder's RSI and Bollinger bands;
- the summary statistics that the KPI card and the comparison table compute (latest close,
  previous close, change in percent, extremes, mean, standard deviation, trend);
- how the KPI card, the comparison table and the comparison chart turn the fetched
  payloads into what they show.

Modules, one per source concern:

| module | file | models |
|---|---|---|
| `Wrappers` | `wrappers.dfy` | `Option` |
| `Numeric` | `numeric.dfy` | the `reduce` sums, mean, squared deviations, `Math.max`/`Math.min`, population standard deviation |
| `Indicators` | `indicators.dfy` | `client/src/utils/indicators.js` |
| `JsText` | `jstext.dfy` | the JavaScript built-ins the server relies on: `toUpperCase`, `parseInt`, number-to-string in a template, the default `sort()`, `slice(-days)` |
| `Server` | `server.dfy` | `server/index.js`: cache file names, cache reads and writes, the provider reply, the request handler; the class `CacheServer` holds the cache directory |
| `SummaryStats` | `stats.dfy` | the stats shared by `KpiCard.jsx` and `DataTable.jsx` |
| `Fetching` | `fetch.dfy` | a settled `fetchDailyFromBackend` call as the components see it |
| `KpiCard` | `kpicard.dfy` | `client/src/components/KpiCard.jsx` |
| `DataTable` | `datatable.dfy` | `client/src/components/DataTable.jsx` |
| `ComparativeChart` | `comparativechart.dfy` | `client/src/components/ComparativeChart.jsx` |

Form of the model:
- SMA is a `map` over the series, so it is a function.
- EMA, RSI and the Bollinger bands are loops that push onto arrays. They are methods
  (`CalculateEma`, `CalculateRsi` with its two loops `Differences` and `Smooth`,
  `CalculateBollingerBands`), each proved equal to a reference function (`Ema`, `Rsi`,
  `Bollinger`), and the properties are lemmas about those functions.
- The server's handler is the function `Respond`: from the cache directory, the query, the
  clock, the provider's answer and the outcome of the write, it gives the response, the new
  directory and whether the provider was asked.
- `CacheServer.GetDaily` is the handler as a method on an object whose `files` field is the
  directory. `ReadCache` and `WriteCache` are its two cache helpers.
- The table's `fetchAll` loop (`FetchAll`) and the chart's `forEach` (`MergeResults`) are
  methods too. Each is proved equal to a fold (`Table`, `Merge`) that the lemmas describe.

Parameters stand for what the model cannot see:
- `now` is `Date.now()` in milliseconds.
- `upstream` is the provider's parsed JSON, or a failed `fetch`.
- `writeOk` says whether `fsp.writeFile` succeeds.
- `sqrt` is `Math.sqrt`; lemmas that need its laws require `SqrtLaws(sqrt)` (its results
  are non-negative and `sqrt(0) == 0`).
- Each component gets its fetches already settled, in symbol order.

The model follows the code where it departs from the textbook definitions or from what it evidently means to do:
- RSI. With no losses the code gives `100 - 100/101`, not 100. Its values therefore lie in
  `[0, 100)`. The series has `n - 1` entries, not `n`, once `n > period`, because the `period`
  nulls are prepended to `gains.length - period` values.
- Change in percent. When the previous close used is 0, the code divides 0 by 0. The model
  says "undefined" (`None`); it does not say 0. The previous close falls back to the latest
  close when the one before the last is 0, not only when it is missing.
- A failed cache write is not swallowed. `writeCache` is awaited inside the handler's
  `try`, so the request ends in a 500.
- The cache is written under a name no read ever looks at (see "## Findings").

## Model

| member | source | states |
|---|---|---|
| Indicators.Window | client/src/utils/indicators.js:4 | the slice ending at `idx` holds exactly `period` closes |
| Indicators.Sma | client/src/utils/indicators.js:1-7 | one entry per close |
| Indicators.SmaWarmUp | client/src/utils/indicators.js:2-5 | entry `idx` is null if and only if `idx < period - 1`; otherwise it is the mean of the `period` closes ending at `idx` |
| Indicators.SmaShortSeries | client/src/utils/indicators.js:3 | a series shorter than the period is all nulls |
| Indicators.SmaWithinWindow | client/src/utils/indicators.js:4-5 | every average lies between the minimum and the maximum of its window |
| Indicators.SmaConstant | client/src/utils/indicators.js:1-7 | on a constant series every defined average is that constant |
| Indicators.SmaSlide | client/src/utils/indicators.js:4-5 | consecutive averages differ by the entering close minus the leaving close, over the period |
| Indicators.Alpha | client/src/utils/indicators.js:10 | the weight `k = 2 / (period + 1)`; its range is stated by `AlphaRange` |
| Indicators.AlphaRange | client/src/utils/indicators.js:10 | the weight `k = 2/(period+1)` lies in `(0, 1]` for a period of at least 1 |
| Indicators.EmaNext | client/src/utils/indicators.js:16 | one step `close * k + previous * (1 - k)`; `EmaNextWithin` keeps it within the bounds of its inputs |
| Indicators.Ema | client/src/utils/indicators.js:9-20 | one entry per close |
| Indicators.EmaStep | client/src/utils/indicators.js:16 | each entry after the first is `close*k + previous*(1-k)` |
| Indicators.EmaPrefix | client/src/utils/indicators.js:12-18 | the EMA of a prefix of the series is the same prefix of its EMA: no entry depends on later closes |
| Indicators.EmaRecurrence | client/src/utils/indicators.js:12-18 | the first entry is the first close (no warm-up) and every later one follows the recurrence |
| Indicators.EmaNextWithin | client/src/utils/indicators.js:16 | one step from a previous value and a close inside `[lo, hi]` stays inside `[lo, hi]` |
| Indicators.EmaWithinRange | client/src/utils/indicators.js:12-18 | the EMA never leaves any interval that holds all the closes |
| Indicators.EmaConstant | client/src/utils/indicators.js:12-18 | on a constant series the EMA is that constant throughout |
| Indicators.CalculateEma | client/src/utils/indicators.js:9-20 | the `forEach` loop builds exactly `Ema` |
| Indicators.Gain | client/src/utils/indicators.js:26 | `diff > 0 ? diff : 0`; `GainsLosses` states that it is non-negative and complements `Loss` |
| Indicators.Loss | client/src/utils/indicators.js:27 | `diff < 0 ? Math.abs(diff) : 0`; `GainsLosses` states that it is non-negative and that gain minus loss is the step |
| Indicators.Gains | client/src/utils/indicators.js:24-28 | `n - 1` gains for `n` closes, none for an empty series |
| Indicators.Losses | client/src/utils/indicators.js:24-28 | `n - 1` losses for `n` closes, none for an empty series |
| Indicators.GainsLosses | client/src/utils/indicators.js:25-27 | gains and losses are non-negative, at most one of them is non-zero per step, and gain minus loss is the step |
| Indicators.Seed | client/src/utils/indicators.js:29-30 | the average of the first `period` entries, of all of them when fewer exist, over `period`; `SeedNonNegative` bounds it |
| Indicators.WilderNext | client/src/utils/indicators.js:33-34 | one Wilder step `(avg * (period - 1) + x) / period`; `WilderNextNonNegative` bounds it |
| Indicators.WilderNextNonNegative | client/src/utils/indicators.js:33-34 | a smoothing step keeps a non-negative average non-negative |
| Indicators.SeedNonNegative | client/src/utils/indicators.js:29-30 | the seed average of non-negative steps is non-negative, also when fewer than `period` steps exist |
| Indicators.Average | client/src/utils/indicators.js:29-34 | the running average after `count` entries: the seed, then one Wilder step per entry; `AverageStep`, `AverageNonNegative` and `AverageZero` describe it |
| Indicators.AverageStep | client/src/utils/indicators.js:33-34 | each further step applies `(avg*(period-1) + x)/period` to the average so far |
| Indicators.AverageNonNegative | client/src/utils/indicators.js:29-34 | every smoothed average of non-negative steps is non-negative |
| Indicators.AverageZero | client/src/utils/indicators.js:29-34 | every smoothed average of all-zero steps is 0 |
| Indicators.RsiPoint | client/src/utils/indicators.js:35-36 | an RSI value lies in `[0, 100)`; with a zero average loss it is `100 - 100/101` |
| Indicators.RsiPointTextbook | client/src/utils/indicators.js:35-36 | with a positive average loss the value is `100*avgGain/(avgGain+avgLoss)` |
| Indicators.RsiAt | client/src/utils/indicators.js:32-36 | the RSI after step `i` lies in `[0, 100)` |
| Indicators.Rsi | client/src/utils/indicators.js:22-39 | `period` nulls followed by one `RsiAt` value per smoothing step; `CalculateRsi` is proved to compute it and `RsiLength`, `RsiWarmUp`, `RsiRange` and `RsiNeverFalling` describe it |
| Indicators.RsiLength | client/src/utils/indicators.js:38 | the RSI has `n - 1` entries when `n > period`, and `period` entries otherwise |
| Indicators.RsiWarmUp | client/src/utils/indicators.js:38 | an entry is null if and only if its index is below `period` |
| Indicators.RsiRange | client/src/utils/indicators.js:32-38 | every defined entry lies in `[0, 100)` |
| Indicators.NoLosses | client/src/utils/indicators.js:27 | a series that never falls has only zero losses |
| Indicators.RsiAtNoLoss | client/src/utils/indicators.js:35 | with all losses zero every RSI value is `100 - 100/101` |
| Indicators.RsiNeverFalling | client/src/utils/indicators.js:22-39 | on a series that never falls, constant ones included, every defined entry is `100 - 100/101` |
| Indicators.Differences | client/src/utils/indicators.js:23-28 | the first loop builds exactly `Gains` and `Losses` |
| Indicators.Smooth | client/src/utils/indicators.js:29-37 | the seeds and the second loop produce `gains.length - period` values, value `j` being the RSI after step `period + j` |
| Indicators.CalculateRsi | client/src/utils/indicators.js:22-39 | the whole function computes exactly `Rsi` |
| Indicators.UpperBand | client/src/utils/indicators.js:51-55 | `mean + multiplier * stdDev` of a window; `BollingerCentredOnSma`, `BollingerOrdered` and `BollingerFlatWindow` describe it |
| Indicators.LowerBand | client/src/utils/indicators.js:51-56 | `mean - multiplier * stdDev` of a window; described by the same lemmas as `UpperBand` |
| Indicators.Bollinger | client/src/utils/indicators.js:41-61 | both bands have one entry per close |
| Indicators.BollingerWarmUp | client/src/utils/indicators.js:42-48 | both bands are null exactly where the SMA of the same period is null, that is below index `period - 1` |
| Indicators.BollingerCentredOnSma | client/src/utils/indicators.js:50-56 | the two bands lie symmetrically around the SMA of the same window |
| Indicators.BollingerOrdered | client/src/utils/indicators.js:52-56 | with a non-negative multiplier the lower band never exceeds the upper band |
| Indicators.BollingerFlatWindow | client/src/utils/indicators.js:50-56 | over a constant window both bands equal that constant |
| Indicators.CalculateBollingerBands | client/src/utils/indicators.js:41-61 | the loop builds exactly `Bollinger` |
| Numeric.Sum | client/src/utils/indicators.js:5 | the `reduce((a, b) => a + b, 0)` left fold; `SumAppend`, `SumConstant`, `SumBounds` and `SumNonNegative` describe it |
| Numeric.SumAppend | client/src/utils/indicators.js:5 | the sum of a concatenation is the sum of the sums |
| Numeric.SumConstant | client/src/utils/indicators.js:5 | `n` copies of `c` sum to `n * c` |
| Numeric.SumBounds | client/src/utils/indicators.js:5 | bounds on every element bound the sum by `n` times those bounds |
| Numeric.SumNonNegative | client/src/utils/indicators.js:29-30 | non-negative elements have a non-negative sum |
| Numeric.Mean | client/src/components/KpiCard.jsx:56 | `values.reduce(+) / values.length`; `MeanWithinRange` and `MeanConstant` describe it |
| Numeric.MeanConstant | client/src/components/KpiCard.jsx:56 | the mean of a constant series is that constant |
| Numeric.SumSqDev | client/src/utils/indicators.js:53 | the `reduce` of squared deviations from the mean; `SumSqDevNonNegative` and `SumSqDevConstant` describe it |
| Numeric.SumSqDevNonNegative | client/src/utils/indicators.js:53 | a sum of squared deviations is never negative |
| Numeric.SumSqDevConstant | client/src/utils/indicators.js:53 | a series equal to `m` everywhere has no squared deviation from `m` |
| Numeric.MeanWithinRange | client/src/components/DataTable.jsx:20-22 | the mean of a non-empty series lies between its minimum and its maximum |
| Numeric.Max | client/src/components/DataTable.jsx:20 | `Math.max(...values)` is at least every value |
| Numeric.Min | client/src/components/DataTable.jsx:21 | `Math.min(...values)` is at most every value |
| Numeric.MaxMinAttained | client/src/components/DataTable.jsx:20-21 | `Math.max(...values)` and `Math.min(...values)` are values of the series |
| Numeric.StdDev | client/src/components/KpiCard.jsx:57-60 | `Math.sqrt` of the squared deviations over the length (also client/src/utils/indicators.js:52-54 on a window); `StdDevNonNegative` and `StdDevConstant` describe it |
| Numeric.StdDevNonNegative | client/src/components/KpiCard.jsx:57-60 | the population standard deviation is never negative |
| Numeric.StdDevConstant | client/src/components/KpiCard.jsx:56-60 | a constant series has that constant as its mean and no deviation |
| JsText.Upper | server/index.js:50 | upper-casing keeps the length |
| JsText.UpperIdempotent | server/index.js:24 | upper-casing the already upper-cased symbol again changes nothing |
| JsText.UpperChanges | server/index.js:50 | no lower-case letter is left, and exactly the lower-case letters change |
| JsText.UpperAppend | server/index.js:24 | upper-casing distributes over concatenation |
| JsText.NatToString | server/index.js:24 | a number spells as at least one decimal digit, with no leading zero |
| JsText.IntToString | server/index.js:24 | an integer's spelling ends in a digit and has no `_` |
| JsText.ParseInt | server/index.js:51 | `parseInt` without a radix: trim, one sign, then `ParseUnsigned`; `ParseIntPrefix`, `ParseIntRoundTrip` and `ParseIntSkipsWhiteSpace` describe it |
| JsText.ParseUnsigned | server/index.js:51 | a `0x`/`0X` prefix selects base 16, and the longest run of digits is read; no digit at all is `NaN`; `ParseUnsignedPrefix` describes it |
| JsText.TrimStart | server/index.js:51 | `parseInt` drops exactly the leading white space and line terminators |
| JsText.DigitPrefix | server/index.js:51 | `parseInt` reads the longest prefix of digits and stops at the first non-digit |
| JsText.DigitsOfNat | server/index.js:51 | reading a number's decimal spelling gives back the number |
| JsText.ParseUnsignedPrefix | server/index.js:51 | a non-negative number's spelling followed by a non-digit reads back as that number |
| JsText.ParseIntPrefix | server/index.js:51 | `parseInt` of an integer's spelling followed by any non-digit text gives that integer |
| JsText.ParseIntRoundTrip | server/index.js:51 | `parseInt` of an integer's spelling gives it back |
| JsText.ParseIntSkipsWhiteSpace | server/index.js:51 | leading white space does not change what `parseInt` reads |
| JsText.IntToStringInjective | server/index.js:24 | two integers with the same spelling are equal |
| JsText.StrLe | server/index.js:86 | the code-point lexicographic order of the default `sort()`, a prefix first; the next four lemmas prove it a total order |
| JsText.StrLeReflexive | server/index.js:86 | the default sort order relates every string to itself |
| JsText.StrLeTotal | server/index.js:86 | any two strings are comparable |
| JsText.StrLeAntisymmetric | server/index.js:86 | strings that each sort before the other are equal |
| JsText.StrLeTransitive | server/index.js:86 | the order is transitive |
| JsText.Insert | server/index.js:86 | inserting adds exactly the one string |
| JsText.SortStrings | server/index.js:86 | sorting is a permutation of its input |
| JsText.InsertAscending | server/index.js:86 | inserting into an ascending list keeps it ascending |
| JsText.SortAscending | server/index.js:86 | the sorted list is ascending |
| JsText.SortedDistinctStrict | server/index.js:86 | distinct keys sort into a strictly ascending list |
| JsText.SliceFrom | server/index.js:87 | `slice(start)` with a negative start counting from the end and both clamped to the length; `SliceLast` and `SliceDrop` describe it |
| JsText.SliceLast | server/index.js:87 | `slice(-k)` keeps the last `min(k, length)` entries |
| JsText.SliceDrop | server/index.js:87 | `slice(k)` with `k >= 0` drops the first `min(k, length)` entries |
| Server.DaysFromQuery | server/index.js:51 | the window is never 0 |
| Server.DaysFromQueryCases | server/index.js:51 | a missing, empty or zero `days` gives 30; any other integer in front of other text is taken as it is, negatives included |
| Server.DaysFromQueryNonNumeric | server/index.js:51 | a query with no digit after its optional sign (`abc`, `-`, a blank) is `NaN` for `parseInt` and gives 30 |
| Server.Truthy | server/index.js:66-71 | a string field of the reply is truthy when present and not empty |
| Server.CacheName | server/index.js:23-25 | the file name `<SYMBOL>_<days>.json`; `ReadKeyInjective` and `AsWrittenKeysNeverRead` describe the names it gives |
| Server.ReadKey | server/index.js:29 | the name `readCache` opens, from the symbol and the decimal spelling of `days` |
| Server.WriteKey | server/index.js:42 | the name `writeCache` writes: `<SYMBOL>_undefined.json` as written, the read key when corrected |
| Server.ReadKeyInjective | server/index.js:23-25 | two reads share a cache file if and only if their symbols agree once upper-cased and their windows are equal |
| Server.ReadKeyUpper | server/index.js:23-25 | the file name does not depend on whether the symbol was upper-cased before it was named, because `cachePath` upper-cases it again |
| Server.AsWrittenKeysNeverRead | server/index.js:40-46 | the name `writeCache` writes to is never the name of any read |
| Server.CachedPayload | server/index.js:27-38 | `readCache` with the handler's truthiness test: a missing, stale, unparsable or falsy file is a miss; `CachedPayloadHit` states when it hits |
| Server.CachedPayloadHit | server/index.js:27-38 | a payload is found exactly when the file exists, is at most `TTL_MS` old and parses to a payload, and then it is that payload |
| Server.CacheReadAfterWrite | server/index.js:27-38 | a file written at `t` reads back as its payload up to `t + TTL_MS` and as a miss after that; other names are unaffected |
| Server.MissStaysMiss | server/index.js:30-32 | without a new write, a miss stays a miss as time goes on |
| Server.CloseOn | server/index.js:88 | the close taken for a date is the close of that date in the series |
| Server.Labels | server/index.js:86-87 | `Object.keys(series).sort().slice(-days)`; `LabelsAscending` and `LabelsCount` describe it |
| Server.LabelsAscending | server/index.js:86-87 | the labels are dates of the series, strictly ascending |
| Server.LabelsCount | server/index.js:87 | a positive `days` keeps the newest `min(days, count)` dates; a negative one drops the oldest `-days` |
| Server.Closes | server/index.js:88 | one close per label |
| Server.MakePayload | server/index.js:90 | the payload carries the symbol, the fetch time, the labels and one close per label |
| Server.PayloadCloses | server/index.js:88-90 | every close in the payload is the close the series gives for its label |
| Server.Status | server/index.js:55-100 | the HTTP status of each response: 200, 400, 425 and 500 |
| Server.Classify | server/index.js:66-84 | the three error answers in the handler's order; `ClassifyPrecedence` states it case by case |
| Server.Respond | server/index.js:48-102 | one request from start to finish; `GetDaily` is proved to compute it and the lemmas from `CacheHitShortCircuits` to `CorrectedRepeatHits` describe it |
| Server.CacheHitShortCircuits | server/index.js:54-55 | a fresh cached payload is returned from the cache; the provider is not asked and nothing is written |
| Server.MissFetches | server/index.js:54-62 | on a miss the provider is always asked |
| Server.ClassifyPrecedence | server/index.js:66-84 | `Error Message` wins (400), then `Note` or `information` (425, the Note being the detail when truthy), then a missing series (500); only a reply with a series and none of the three goes on |
| Server.MissAnswers | server/index.js:54-95 | on a cache miss: an unreachable provider gives a 500, an error reply its own error answer, and a reply with a series a 200 with `MakePayload` written under `WriteKey`, or a 500 with nothing written when the write fails |
| Server.OnlySuccessWrites | server/index.js:66-95 | every answer other than a success from the provider leaves the cache as it was |
| Server.ApiAnswer | server/index.js:86-95 | a success from the provider means the write succeeded; its payload is built from the series, and the directory changes only at the written name |
| Server.AsWrittenNeverServesOwnWrites | server/index.js:93 | as written, a request never changes what any later read finds |
| Server.AsWrittenRepeatRefetches | server/index.js:40-46 | as written, repeating a request that went to the provider goes to the provider again, however soon |
| Server.CorrectedRepeatHits | server/index.js:23-25 | with the file named after symbol and window, a successful request repeated within the TTL is served from the cache with the same payload |
| Server.CacheServer.constructor | server/index.js:18-21 | the server starts with the given rule and cache directory |
| Server.CacheServer.ReadCache | server/index.js:27-38 | reading finds exactly `CachedPayload` for the read name |
| Server.CacheServer.WriteCache | server/index.js:40-46 | a successful write replaces the file under the write name and nothing else; a failed write changes nothing |
| Server.CacheServer.GetDaily | server/index.js:48-102 | the handler's response, provider call and new directory are exactly those of `Respond` |
| SummaryStats.Latest | client/src/components/KpiCard.jsx:54 | the last close `values[values.length - 1]` (also client/src/components/DataTable.jsx:17) |
| SummaryStats.Prev | client/src/components/KpiCard.jsx:55 | the close before the last, or `latest` when that one is falsy (also client/src/components/DataTable.jsx:18); `PrevFallback` states when it falls back |
| SummaryStats.Change | client/src/components/KpiCard.jsx:142 | `((latest - prev) / prev) * 100`, undefined when `prev` is 0 (also client/src/components/DataTable.jsx:19); `ChangeUndefined` and `ChangeMatchesTrend` describe it |
| SummaryStats.TrendOf | client/src/components/KpiCard.jsx:61 | `latest >= prev ? "up" : "down"`; `ChangeMatchesTrend` relates it to the change |
| SummaryStats.PrevFallback | client/src/components/KpiCard.jsx:55 | the previous close is the latest one exactly when there is one value, the one before is 0, or it equals the latest; it is 0 only when the latest is 0 |
| SummaryStats.ChangeUndefined | client/src/components/KpiCard.jsx:142 | the change is undefined exactly when the latest close is 0 and the one before is missing or 0 |
| SummaryStats.ChangeMatchesTrend | client/src/components/KpiCard.jsx:140-148 | the change is 0 exactly when the two closes agree; its sign matches the trend for a positive previous close and is reversed for a negative one |
| SummaryStats.SingleValue | client/src/components/KpiCard.jsx:54-61 | a single close trends up with no change, or an undefined change when it is 0 |
| SummaryStats.StatsWithinRange | client/src/components/DataTable.jsx:17-22 | the latest close and the mean lie between the minimum and the maximum |
| Fetching.HasLabels | client/src/components/KpiCard.jsx:47-48 | `realData?.labels?.length` is truthy: the fetch resolved, `data` is present and its labels are present and non-empty (also client/src/components/DataTable.jsx:14 and client/src/components/ComparativeChart.jsx:41) |
| Fetching.HasData | client/src/components/KpiCard.jsx:47-48 | `realData?.data?.length` is truthy: the fetch resolved and its closes are present and non-empty |
| KpiCard.Summarize | client/src/components/KpiCard.jsx:53-61 | the `kpiStats` block of a non-empty series; `CardStats` and `CardFlatSeries` describe it |
| KpiCard.CardOf | client/src/components/KpiCard.jsx:45-66 | what the card shows for a settled fetch; `CardValidity`, `CardIndicators` and `CardStats` describe it |
| KpiCard.CardValidity | client/src/components/KpiCard.jsx:45-51 | the card is ready exactly when labels and data are both non-empty; a rejection shows its message or "Error al obtener datos", a bad payload "Datos inválidos" |
| KpiCard.CardIndicators | client/src/components/KpiCard.jsx:63-66 | the card plots the closes as fetched: an SMA(7) with 6 nulls, an EMA(14) starting at the first close, an RSI(14) with 14 nulls and values in `[0, 100)`, and Bollinger(20) bands with 19 nulls |
| KpiCard.CardStats | client/src/components/KpiCard.jsx:53-61 | the latest close and the mean lie between the extremes, the deviation is non-negative, and the trend is up exactly when the latest close is at least the previous one |
| KpiCard.CardFlatSeries | client/src/components/KpiCard.jsx:53-61 | a constant series has every stat at that constant, no deviation and an upward trend |
| DataTable.RowOf | client/src/components/DataTable.jsx:11-33 | a symbol gets a row exactly when its payload has labels and non-empty data; the other cases are skipped or caught |
| DataTable.RowWithinRange | client/src/components/DataTable.jsx:16-22 | in a row the average and the latest close lie between the minimum and the maximum |
| DataTable.Table | client/src/components/DataTable.jsx:8-35 | `newData` after the symbols so far, each usable fetch setting its symbol's row; `FetchAll` is proved to build it and `TableRows` and `TableKeys` describe it |
| DataTable.FetchAll | client/src/components/DataTable.jsx:8-35 | the loop builds exactly `Table` |
| DataTable.TableRows | client/src/components/DataTable.jsx:10-34 | a symbol has a row if and only if one of its occurrences had a usable fetch; the row comes from the last such occurrence |
| DataTable.TableKeys | client/src/components/DataTable.jsx:24 | every key of the table is one of the symbols |
| ComparativeChart.ReplaceFirst | client/src/components/ComparativeChart.jsx:49 | `replace` with a one-character search string, which replaces only the first match; `ReplaceAtEnd` describes it |
| ComparativeChart.ReplaceAtEnd | client/src/components/ComparativeChart.jsx:49 | replacing the first `c` of a string whose only `c` is last replaces that last character |
| ComparativeChart.Background | client/src/components/ComparativeChart.jsx:49 | `color.replace(")", ",0.2)")`; `BackgroundOfRgb` and `PaletteBackgrounds` describe it |
| ComparativeChart.BackgroundOfRgb | client/src/components/ComparativeChart.jsx:49 | the background of `rgb(r,g,b)` is `rgb(r,g,b,0.2)` |
| ComparativeChart.PaletteBackgrounds | client/src/components/ComparativeChart.jsx:10-19 | the palette has 8 colours, each with a background that adds the alpha `0.2` |
| ComparativeChart.Usable | client/src/components/ComparativeChart.jsx:39-41 | the positions, never more than the results, each one holding labels |
| ComparativeChart.DatasetAt | client/src/components/ComparativeChart.jsx:44-53 | the dataset of result `idx`: its symbol, its data as given, colour `idx % 8` and that colour's background; `AllUsable` and `MergeOutcome` describe it |
| ComparativeChart.FirstLabels | client/src/components/ComparativeChart.jsx:42 | the labels of the first result with labels, or none; `FirstLabelsStep` describes it |
| ComparativeChart.Merge | client/src/components/ComparativeChart.jsx:36-60 | the error when no result has labels, otherwise the chart; `MergeResults` is proved to compute it and `MergeOutcome` and `AllUsable` describe it |
| ComparativeChart.FirstLabelsStep | client/src/components/ComparativeChart.jsx:42 | the chart's labels are set by the first result with labels and never change after |
| ComparativeChart.MergeStep | client/src/components/ComparativeChart.jsx:39-54 | one round of `forEach` keeps the labels and the datasets in step with the results seen so far |
| ComparativeChart.MergeDone | client/src/components/ComparativeChart.jsx:56-60 | after the last round, no dataset means the error and any dataset means the chart |
| ComparativeChart.MergeResults | client/src/components/ComparativeChart.jsx:36-60 | the loop and the final test compute exactly `Merge` |
| ComparativeChart.UsableExactly | client/src/components/ComparativeChart.jsx:41-44 | the usable positions are exactly the results with labels, strictly increasing, and the `k`-th is at least `k` |
| ComparativeChart.MergeOutcome | client/src/components/ComparativeChart.jsx:39-60 | the error "No hay datos válidos para mostrar." shows exactly when no result has labels; otherwise the labels and the first dataset come from the first result with labels, coloured by its position |
| ComparativeChart.UsableAll | client/src/components/ComparativeChart.jsx:41 | when every result has labels, every position is used, in order |
| ComparativeChart.AllUsable | client/src/components/ComparativeChart.jsx:44-47 | when every result has labels, dataset `k` is symbol `k` with its own data and colour `k mod 8`, whatever its data's length |

## Left out

- Floating point: closes and indicator values are exact reals. Rounding, `NaN`, `Infinity` and `toFixed(2)` are not modelled. A division 0/0 (a change over a previous close of 0) is `None`.
- `Math.sqrt` is the parameter `sqrt`; only its non-negativity and `sqrt(0) == 0` are used.
- `parseFloat` of the provider's `"4. close"` text: each bar carries its close as a number already.
- `toUpperCase` is modelled on ASCII letters only; other Unicode case mappings are not.
- `parseInt` reads into an unbounded integer; the loss of precision above 2^53 is not modelled. Number-to-string is modelled for integers, without the exponent spelling used from 1e21 on.
- The default `sort()` compares by code point; UTF-16 code-unit order, which differs only outside the Basic Multilingual Plane, is not modelled.
- `path.join` and `CACHE_DIR`: a cache file is known by its base name. Creating the directory at start-up is the initial directory of `CacheServer`.
- File contents are a payload, a falsy JSON value or unparsable text. A truthy JSON value that is not a payload, and a partially written file, are not modelled.
- Both clock reads of one request (`readCache`'s age and `fetchedAt`) use the same `now`.
- The provider's reply fields are strings or absent, and its series is a list of dated bars with distinct dates. Other JSON shapes are not modelled.
- The URL, the API key, `dotenv`, `cors`, `console.log` and the listening port are I/O and configuration.
- Concurrency: requests are handled one at a time, and the chart's `Promise.all` is given its settled results in symbol order.
- React state, the `mounted` flag, loading flags and rendering are not modelled. The card's chart colours and dataset options are presentation.
- `client/src/services/api.js` is not part of this model: the components are modelled on what `payload?.data` gives them.
- The chart's `catch` with "Error al cargar la comparativa." is not modelled: every fetch has its own `catch`, and with settled fetches nothing in the merge throws.
- `Indicators.Sma`, `Indicators.Rsi`, `Indicators.Bollinger`: a period of 0 or less is excluded by `requires period >= 1`. The code's results for such periods (negative slices, division by 0) are not modelled; every caller passes a fixed positive period.
- `Indicators.Bollinger`: the SMA computed first in `calculateBollingerBands` is unused by the code; `BollingerWarmUp` and `BollingerCentredOnSma` relate the bands to it instead.
- A `days` query given more than once (an array in Express) and a missing route parameter are not modelled; the query is a string or absent.
- `Server.CacheServer.GetDaily`: a failed `fetch` and a provider reply that is not JSON are both `Unreachable`, answered with a 500 like any other thrown error; the error text is not modelled.

## Findings

| source | as written | input that shows it | evidently intended | confidence | as-written member | corrected member |
|---|---|---|---|---|---|---|
| server/index.js:42 | `writeCache` names its file `cachePath(symbol)`, so the file is `<SYMBOL>_undefined.json`, while `readCache` looks for `<SYMBOL>_<days>.json` | `GET /api/daily/aapl?days=30` twice, a second apart: the first writes `AAPL_undefined.json`; the second reads `AAPL_30.json`, misses and asks the provider again | `cachePath(symbol, days)`, so that a successful answer is served from the cache for the next 24 hours | not executed | Server.AsWrittenRepeatRefetches | Server.CorrectedRepeatHits |
