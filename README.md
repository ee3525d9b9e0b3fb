# TradeSense dashboard core, modelled in Dafny

TradeSense is a browser dashboard that shows a live feed of market-strength
snapshots and, for a chosen stock, a price chart with two optional
indicators. This project models the two pieces of real logic in it:

- **The indicator memo** (`processedData` in the chart modal). It copies the
  price history and, when enabled, adds a 20-bar simple moving average
  (`sma`) and a 14-period Wilder RSI (`rsi`, with the carried `avgGain` and
  `avgLoss`). The model is imperative, as the source is. `ProcessedData`
  copies the bars into a fresh array. `AddSma` runs the running-sum window
  over it in place. `AddRsi` sums the first 14 gains and losses, then
  applies Wilder's recurrence, reading the previous entry's averages back
  from the array. Each pass is proved against a reference definition:
  `CloseSum` is a plain sum over the window, and `Smoothed` is the
  recurrence written as a recursive function. The model also holds the
  modal's timeframe preset table.
- **The dashboard ranking** (`App`). The typed query is upper-cased. The
  snapshot list is sorted on a copy with a two-key comparator: symbols that
  contain the query come first, then higher `strengthPercent`. A null or
  empty feed shows the "Connecting" placeholder. The history request drops
  the preset's day count when the timeframe changes. These are pure
  functions, as in the source.

`parseFloat(x.toFixed(2))` is `Round2`. It rounds to the nearest cent, with
halves rounded away from zero, on exact reals. Prices are `real`.

Modules: `Wrappers` (the `Option` type for null/undefined),
`StockChartModal` (src/components/StockChartModal.jsx) and `App`
(src/App.jsx).

Textbook RSI saturates at 100 when a series has no losses. This code does
not. When `avgLoss` is 0, the code divides by 1, so the RSI is
`100 - 100/(1 + avgGain)`. The model follows the code.
`RisingSeedRsiIsFifty` shows that closes 1, 2, …, 15 give an RSI of 50 at
bar 14.

## Model

| member | source | states |
|---|---|---|
| `StockChartModal.ProcessedData` | src/components/StockChartModal.jsx:12-68 | Null or empty data gives no rows. Otherwise every input bar is copied unchanged, in order. `sma` is present exactly when SMA is shown, there are at least 20 bars and the index is at least 19, and it equals the rounded mean of the 20-close window. `rsi`, `avgGain` and `avgLoss` are present exactly when RSI is shown, there are more than 14 bars and the index is at least 14. They equal the Wilder averages and their rounded RSI, which lies in [0, 100]. Each indicator depends only on its own flag. |
| `StockChartModal.AddSma` | src/components/StockChartModal.jsx:21-30 | The running-sum loop writes only `sma`, and only at indices ≥ 19, each the rounded mean of the window ending there. Its invariant is that the running sum is the window sum (`CloseSum`). |
| `StockChartModal.AddRsi` | src/components/StockChartModal.jsx:33-65 | The RSI loop writes only `rsi`/`avgGain`/`avgLoss`, at exactly the indices ≥ 14, with the averages of `Smoothed`. The `\|\| 0` fallback for the previous averages never applies, because the previous entry always carries them. |
| `StockChartModal.StoreRsi` | src/components/StockChartModal.jsx:49-52 | Writes the ratio with 1 replacing a zero `avgLoss`, the rounded RSI and the unrounded averages into one entry, and leaves every other entry unchanged. |
| `StockChartModal.Round2` | src/components/StockChartModal.jsx:26 | `toFixed(2)` gives a whole number of cents and never changes the sign of a value. |
| `StockChartModal.Round2Error` | src/components/StockChartModal.jsx:26 | `toFixed(2)` rounding moves a value by at most half a cent. |
| `StockChartModal.Round2Monotone` | src/components/StockChartModal.jsx:50 | Rounding to cents preserves order. |
| `StockChartModal.CloseSumFromLeft` | src/components/StockChartModal.jsx:27 | A window sum equals its oldest close plus the rest, so subtracting the leaving close is sound. |
| `StockChartModal.PrevClose` | src/components/StockChartModal.jsx:39 | The base of a step is the previous close or, as the `\|\|` fallback, the current one. It is 0 only when both closes are 0. |
| `StockChartModal.Change` | src/components/StockChartModal.jsx:39 | A step's change is the close minus the previous close, and 0 when the previous close is 0. |
| `StockChartModal.Gain` | src/components/StockChartModal.jsx:40 | The gain is non-negative, at least the change, and positive exactly when the change is. |
| `StockChartModal.Loss` | src/components/StockChartModal.jsx:41 | The loss is non-negative, at least the negated change, and positive exactly when the change is negative. |
| `StockChartModal.GainLossSplit` | src/components/StockChartModal.jsx:39-41 | A step's gain and loss are ≥ 0 and never both positive, and gain − loss is the change. A previous close of 0 makes both 0. |
| `StockChartModal.GainSum` | src/components/StockChartModal.jsx:44 | The accumulated gains are never negative. |
| `StockChartModal.LossSum` | src/components/StockChartModal.jsx:45 | The accumulated losses are never negative. |
| `StockChartModal.Smoothed` | src/components/StockChartModal.jsx:43-62 | The carried averages (the seed mean at bar 14, then Wilder's smoothing) are never negative. |
| `StockChartModal.SmoothedStep` | src/components/StockChartModal.jsx:55-58 | The averages at bar i > 14 are (previous × 13 + this step's gain or loss) / 14. |
| `StockChartModal.RsiRange` | src/components/StockChartModal.jsx:49-50 | The unrounded RSI lies in [0, 100). It is 0 exactly when the average gain is 0. |
| `StockChartModal.RoundedRsiRange` | src/components/StockChartModal.jsx:60 | The stored, rounded RSI lies in [0, 100]. |
| `StockChartModal.CountingSum` | src/components/StockChartModal.jsx:24 | For the closes 1, 2, 3, …, the first k closes sum to k(k+1)/2. |
| `StockChartModal.SmaOfOneToTwenty` | src/components/StockChartModal.jsx:25-26 | Closes 1..20 give no SMA on bars 0..18 and an SMA of 10.50 on bar 19. |
| `StockChartModal.RisingSums` | src/components/StockChartModal.jsx:43-45 | On a series rising by 1, the first k gains sum to k and the losses to 0. |
| `StockChartModal.RisingSeedRsiIsFifty` | src/components/StockChartModal.jsx:47-50 | Closes 1..15 seed averages (1, 0). Because of the divide-by-1 rule, the RSI at bar 14 is 50, not 100. |
| `StockChartModal.TimeframeTable` | src/components/StockChartModal.jsx:72-79 | The labels are distinct. The look-back grows from 1D to ALL. Only 1D and 5D use minute bars. |
| `StockChartModal.IntervalClick` | src/components/StockChartModal.jsx:81-85 | A preset click reports the preset's interval and days. For a preset of the table, that is at least one day, with daily bars exactly from 30 days on. |
| `App.ToUpper` | src/App.jsx:102 | Upper-casing keeps the length and maps each character on its own. |
| `App.SearchQuery` | src/App.jsx:102 | The stored query has the typed length and no lower-case letter. Each lower-case letter becomes its capital, and every other character is kept. |
| `App.SearchQueryNormalised` | src/App.jsx:102 | A stored query has no lower-case letter. Normalising it again changes nothing. |
| `App.Includes` | src/App.jsx:116-117 | The empty query is in every symbol, and a query longer than the symbol is in none. |
| `App.IncludesWitness` | src/App.jsx:116-117 | When `includes` holds, the query occurs at some offset of the symbol. |
| `App.OccursIncludes` | src/App.jsx:116-117 | An occurrence of the query at any offset makes `includes` hold. |
| `App.IncludesIff` | src/App.jsx:116-117 | `includes` holds exactly when the query occurs at some offset of the symbol. |
| `App.LowerCaseSymbolNeverMatches` | src/App.jsx:116-117 | Symbols are not upper-cased, so a symbol without capitals never matches a query that contains a letter. |
| `App.Compare` | src/App.jsx:114-123 | With a non-empty query, a matching symbol sorts before a non-matching one. Between two matches, two non-matches, or any two under an empty query, the stronger snapshot sorts first and equal strengths tie. |
| `App.CompareAntisymmetric` | src/App.jsx:114-123 | Swapping the comparator's arguments negates its result. |
| `App.CompareTransitive` | src/App.jsx:114-123 | "May precede", "strictly precedes" and "tied" are all transitive, so the comparator is a strict weak order. |
| `App.Insert` | src/App.jsx:113-123 | Inserting into a sorted list keeps it sorted and adds exactly one element. |
| `App.SortSnapshots` | src/App.jsx:113-123 | Sorting the copy gives a sorted permutation of the input. |
| `App.Rank` | src/App.jsx:113-123 | The ranking is a permutation of the snapshots. With a non-empty query, every match precedes every non-match. Within the matches, within the non-matches, and everywhere when the query is empty, `strengthPercent` never increases. |
| `App.RankExample` | src/App.jsx:113-123 | {A,5}, {B,9}, {AB,3} with the query "A" rank as A, AB, B. |
| `App.MarketBoard` | src/App.jsx:105-136 | A null or empty feed shows the "Connecting" placeholder. Otherwise the cards are the feed in `Rank` order: a non-empty permutation of it, matches first, then by strength. |
| `App.FetchStockHistory` | src/App.jsx:47 | A given interval or day count is used as passed. A missing interval defaults to ONE_DAY, and missing days to 30. |
| `App.StockClick` | src/App.jsx:65-70 | Clicking a card requests ONE_DAY bars for 30 days for that symbol. |
| `App.HistoryDefaults` | src/App.jsx:47-69 | A request without interval or days is for ONE_DAY and 30 days. Clicking a card requests exactly that. |
| `App.OnTimeframeChange` | src/App.jsx:146 | The modal's callback keeps the selected symbol and the chosen interval, but always asks for the default 30 days. |
| `App.TimeframeDaysDropped` | src/App.jsx:146 | After any preset click, the request keeps the preset's interval but asks for 30 days. Only the 1M preset gets the look-back it names. |

## Left out

- The WebSocket lifecycle and JSON parsing of stream messages (src/App.jsx:19-45) are left out: they are event-driven I/O. The feed is a parameter of `MarketBoard`.
- The HTTP call, URL building and loading flags of `fetchStockHistory` (src/App.jsx:47-63) are left out: they are network plumbing. Only the request parameters (`HistoryRequest`) are modelled.
- Login.jsx and SymbolSearch.jsx are not part of this model. They are a form, fetch calls and DOM listeners.
- JSX rendering, styling, charts and `formatDate` are left out: they are display code, and `formatDate` depends on the locale.
- The modal's `activeLabel`/`activeInterval` state and the static news list are left out: they are display state and hard-coded data.
- StockChartModal.Round2: IEEE-754 doubles are not modelled. Sums, divisions and `toFixed` are exact on reals, so binary rounding artefacts (such as `1.005.toFixed(2)` giving "1.00") are not captured.
- StockChartModal.PrevClose: only a previous close of exactly 0 triggers the `||` fallback. `undefined` or `NaN` closes are not modelled, because `close` is always a number here.
- StockChartModal.ProcessedData: input entries are immutable values, so "the input is not modified" holds by construction. The aliasing of JavaScript objects is not modelled.
- StockChartModal.ProcessedData: running the memo twice on the same inputs gives the same output. This holds because the result is fully determined by the ensures; no separate lemma states it.
- App.SortSnapshots: the engine's sort algorithm is not specified. The model uses a stable insertion sort. Stability itself is not stated as a lemma; sortedness and permutation are.
- App.ToUpper: only ASCII letters are upper-cased. Unicode case mapping (such as 'ß' becoming "SS") is not modelled.
- App.Snapshot: only `symbol` and `strengthPercent` are modelled. The other display fields pass through the sort unchanged and are omitted.
- App.Compare: NaN strengths are not modelled, because `real` has no NaN.
