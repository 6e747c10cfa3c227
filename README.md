# MarketView: a model of the mock market-data generator and the selection reducer

MarketView is a dashboard that compares the relative performance of the
three broad US indices and the eleven SPDR sector funds over a chosen period
at a chosen sampling interval. This project models its core:

- **The mock market-data generator** (`fetchMarketData`). For each requested
  symbol it starts at today's base price and walks backwards one step per
  chart point. Each step moves the price by a random amount plus a small
  upward trend. The walk is then reversed into an oldest-first path. The
  paths become `ceil(days / step) + 1` chart points of percent change since
  the first point, and one summary row per symbol. The random source is a
  parameter: one draw in `[0, 1)` per step and symbol (`ValidDraws`). The
  walk loop and the assembly loops are methods (`WalkPath`, `GeneratePaths`,
  `AssemblePoints`, `FetchFrom`, `FetchMarketData`). Each is proved equal to a
  specification function (`SymbolPath`, `PathsFor`, `ChartPoints`,
  `GenerateFrom`, `Generate`), and the lemmas state the properties of those functions.
  `GenerateFrom` states the request for any instrument table and any table
  of positive prices, and `Generate` applies it to `TICKERS` and the
  source's base prices. Most lemmas are stated for the general tables, and
  the scenario lemmas are stated for the source's own.
- **The selection reducer** of the application component. The ticker toggle
  and the period and interval setters are pure functions on an immutable
  `AppState`. The lemmas prove that the selection is never empty and never
  gains a duplicate. They also prove that every selection reachable from the
  initial state can be fetched.
- **The reference data**: the fourteen instruments, the eight periods and the
  three intervals, with the facts the generator relies on.

Modules: `Arrays` (the JavaScript array operations used: `reverse`,
`filter`, duplicate-freedom), `Types` (types.ts), `Constants`
(constants.ts), `MarketData` (services/marketDataService.ts), `App`
(App.tsx).

A request for a symbol that is not in `TICKERS` fails in the code. The base
price falls back to 100 (services/marketDataService.ts:42), which suggests
that such a request was meant to succeed. But the summary's
`TICKERS.find(...)!` then yields `undefined`, and reading its `name` at line
85 throws, so the returned promise rejects. The model follows the code:
`Summarize` and `Generate` return `Err(UnknownTicker(s))` for the first such
symbol `s`. The sidebar only offers listed symbols, so the error cannot be
reached from the dashboard (`ReachableSelectionsFetchable`).

The sidebar (components/Sidebar.tsx:5-8) only takes the selection and the
ticker toggle. The period and interval handlers that App.tsx:69-72 passes to
it are never called, so the dashboard always fetches six months at a daily
step. The model keeps both setters, and `Apply`/`Run` let any sequence of the
three handlers run. The lemmas about `Run` therefore cover every state the
dashboard can reach, and more.

## Model

| member | source | states |
|---|---|---|
| Arrays.Reversed | services/marketDataService.ts:53 | `reverse` keeps the length and puts element `k` at position `len-1-k` |
| Arrays.RemoveAll | App.tsx:51 | `filter(s => s !== x)` keeps exactly the elements other than `x` and never grows the list |
| Arrays.RemoveAllKeepsOrder | App.tsx:51 | removing the one occurrence of `x` leaves the elements before and after it, in order |
| Arrays.RemoveAllKeepsNoDuplicates | App.tsx:51 | filtering a duplicate-free list gives a duplicate-free list |
| Arrays.AppendKeepsNoDuplicates | App.tsx:53 | appending a value that is not present keeps a list duplicate-free |
| Constants.FindTicker | services/marketDataService.ts:78 | `find` returns the first instrument of the list with that symbol (one at some position `k`, with no instrument before `k` carrying the symbol), and returns nothing exactly when no instrument has it |
| Constants.FindFirst | services/marketDataService.ts:78 | when `k` is the first position with the symbol, `find` returns the instrument at `k` |
| Constants.FindDistinct | services/marketDataService.ts:78 | in a list with distinct symbols, `find` by an instrument's symbol returns that instrument |
| Constants.FindListed | services/marketDataService.ts:78 | `TICKERS.find` by a listed symbol returns the instrument listed under it, so a summary row's name and colour are that instrument's |
| Constants.ListedAt | constants.ts:4-21 | every instrument of `TICKERS` can be found under its own symbol |
| Constants.TickerSymbolsDistinct | constants.ts:4-21 | no two instruments of `TICKERS` share a symbol |
| Constants.TickerCategoryCounts | constants.ts:4-21 | fourteen instruments: three indices and eleven sector funds |
| Constants.PeriodsListEveryPeriodOnce | constants.ts:23 | `PERIODS` lists all eight periods once each, with labels 1d, 5d, 1mo, 2mo, 3mo, 6mo, 1y, 2y in that order |
| Constants.IntervalsListEveryIntervalOnce | constants.ts:24 | `INTERVALS` lists all three intervals once each, with labels 1d, 1wk, 1mo in that order |
| Constants.PeriodLabelsDistinct | types.ts:2 | distinct periods have distinct string labels |
| Constants.IntervalLabelsDistinct | types.ts:3 | distinct intervals have distinct string labels |
| MarketData.TotalDays | services/marketDataService.ts:17-19 | every period covers at least one day |
| MarketData.StepDays | services/marketDataService.ts:21-23 | every interval steps at least one day |
| MarketData.StartPrice | services/marketDataService.ts:42 | for a table of positive prices, `prices[sym] \|\| 100` is positive: the stored price when there is one, 100 otherwise |
| MarketData.BasePricesPositive | services/marketDataService.ts:33-37 | every stored base price is positive |
| MarketData.BasePrice | services/marketDataService.ts:42 | the starting price is positive, and it is the stored base price whenever the symbol has one |
| MarketData.PointsCount | services/marketDataService.ts:27 | the step count is at least 1 and is the ceiling of days / step: `n-1 < days/step <= n` |
| MarketData.CeilingDivision | services/marketDataService.ts:27 | integer division rounded up is the ceiling of the real quotient |
| MarketData.StepBack | services/marketDataService.ts:50-51 | one backward step multiplies the price by a factor in (0.987, 1.012] |
| MarketData.BackwardWalk | services/marketDataService.ts:48-52 | the walk visits one price per draw, starts at the current price, stays positive, and each price is one step from the previous |
| MarketData.SymbolPath | services/marketDataService.ts:42-53 | the path has one price per draw, all positive, ends exactly at the starting price, and neighbours are one step apart |
| MarketData.WalkPath | services/marketDataService.ts:42-53 | the push, step back and reverse loop yields `SymbolPath` from the symbol's starting price |
| MarketData.PathsFor | services/marketDataService.ts:40-54 | every requested symbol, and no other, has a path of `n+1` positive prices ending at its starting price |
| MarketData.PathsUpToFacts | services/marketDataService.ts:41-54 | after the first `k` symbols, each of them has a path, and every stored path is `n+1` positive prices ending at its symbol's starting price |
| MarketData.PathsUpToKeepsLast | services/marketDataService.ts:53 | a symbol not requested again after position `j` keeps the path assigned at `j` |
| MarketData.PathsForLastOccurrence | services/marketDataService.ts:53 | a symbol requested more than once keeps the path of its last occurrence |
| MarketData.GeneratePaths | services/marketDataService.ts:40-54 | the loop over the symbols yields `PathsFor` |
| MarketData.RelativePerformance | services/marketDataService.ts:69 | the percent change is 0 exactly when the price is unchanged, and positive exactly when the price rose |
| MarketData.ChartPoints | services/marketDataService.ts:57-74 | the chart has `n+1` points, and point `i` carries every symbol's change since point 0; with a step of at least one day, point `i` lies `(n-i)*step` days back, the dates strictly increase to today, every point has a value for every requested symbol and no other, and point 0 shows 0 for every symbol |
| MarketData.AssemblePoints | services/marketDataService.ts:57-74 | the nested assembly loops yield `ChartPoints` |
| MarketData.Summarize | services/marketDataService.ts:77-90 | succeeds exactly when every symbol is listed; then one row per symbol, in order, with its last price, percent change over the path, and the instrument's name and colour; otherwise it reports the first unlisted symbol |
| MarketData.FetchFrom | services/marketDataService.ts:17-92 | for any instrument table and any table of positive prices, the lookups, walks, assembly and summary yield `GenerateFrom` |
| MarketData.FetchMarketData | services/marketDataService.ts:9-93 | the whole request yields `Generate` |
| MarketData.EveryTickerHasBasePrice | services/marketDataService.ts:33-37 | every listed instrument has a stored base price, so the fallback is never used for one |
| MarketData.CaretMarksIndices | services/marketDataService.ts:45 | a leading '^' marks exactly the indices, which get volatility 0.015; sector funds get 0.025 |
| MarketData.PeriodDaysIncrease | services/marketDataService.ts:17-19 | in `PERIODS` order the day counts strictly increase |
| MarketData.PointsCountExamples | services/marketDataService.ts:27 | 5d at 1d gives 6 points, 2y at 1mo gives 26, 1d at 1mo gives 2, 1y at 1wk gives 54 |
| MarketData.GenerateFailsOnlyOnUnlisted | services/marketDataService.ts:78 | a request fails exactly when a requested symbol is not in `TICKERS`, and names the first such symbol |
| MarketData.GenerateOkIffListed | services/marketDataService.ts:77-90 | for any instrument table, success does not depend on the draws: it holds exactly when every symbol is in the table |
| MarketData.PointsHaveChartShape | services/marketDataService.ts:57-74 | any list of the points 0 to n has `n+1` entries; point `i` lies `(n-i)*step` days back, so dates strictly increase and the last point is today; every point has a value for every requested symbol and no other; point 0 shows 0 for every symbol |
| MarketData.SummaryMatchesLastPoint | services/marketDataService.ts:77-90 | each summary row's percent change equals the last chart point's value for its symbol, and its last price is the path's last price |
| MarketData.GeneratedChartShape | services/marketDataService.ts:27-74 | a successful request has `ceil(days/step)+1` points, the first one at least the whole period back and the last one today, all carrying every symbol, with point 0 at 0 |
| MarketData.GeneratedSummaryMatchesChart | services/marketDataService.ts:77-90 | a successful request has one summary row per symbol in request order, with the symbol's starting price from the table as last price and the last chart value as percent change |
| MarketData.ShapeIndependentOfDraws | services/marketDataService.ts:9-93 | two requests with the same arguments succeed or fail together and agree on point count, dates, symbols and summary length, whatever the draws |
| MarketData.IndexStartPrice | services/marketDataService.ts:34 | the S&P 500 starts its walk at 5000 |
| MarketData.SingleIndexScenario | services/marketDataService.ts:9-93 | the S&P 500 alone over 5d at 1d gives 6 points, 0 at point 0, and a last price of 5000 |
| App.ToggleTicker | App.tsx:48-59 | only the selection changes; it is never empty; an unselected symbol is appended; a selected one is filtered out (all occurrences, order kept), unless that would empty the selection, and then the state is returned unchanged |
| App.ChangePeriod | App.tsx:61 | the period is replaced and every other field is kept |
| App.ChangeInterval | App.tsx:62 | the interval is replaced and every other field is kept |
| App.Apply | App.tsx:48-62 | a call of any of the three handlers never touches the fetched data, the summary, the loading flag or the insight, and keeps a non-empty selection non-empty |
| App.Run | App.tsx:48-62 | any sequence of handler calls, a superset of what the sidebar can trigger, keeps those fields and a non-empty selection |
| App.ToggleKeepsNoDuplicates | App.tsx:50-53 | a toggle never introduces a duplicate into the selection |
| App.ToggleOffKeepsOrder | App.tsx:50-52 | toggling off a selected symbol leaves the other symbols in their order |
| App.ToggleTwiceRestores | App.tsx:50-56 | toggling an unselected symbol twice restores the state when something else was selected |
| App.SettersCommute | App.tsx:48-62 | the period and interval setters commute with a toggle and with each other |
| App.RunKeepsSelectionValid | App.tsx:48-59 | from a non-empty duplicate-free selection, every sequence of actions leaves it non-empty and duplicate-free |
| App.ToggleKeepsListed | App.tsx:48-59 | toggling a listed symbol keeps every selected symbol listed |
| App.InitialStateFacts | App.tsx:10-18 | the initial state selects five distinct listed tickers, 6mo at 1d, and starts loading with no data |
| App.RunKeepsListed | App.tsx:48-59 | toggling only listed symbols keeps a listed selection listed |
| App.ReachableSelectionsFetchable | App.tsx:20-27 | every state reachable from the initial one has a non-empty duplicate-free selection whose request succeeds for any draws |

## Left out

- The 800 ms simulated latency (services/marketDataService.ts:15) and the asynchronous `loadData`/`useEffect` wiring with its loading flag updates and the race between overlapping requests (App.tsx:20-46): these are timing and scheduling, not logic.
- `Math.random` is replaced by draws given as a parameter, one sequence of `pointsCount + 1` values in `[0, 1)` per symbol. The source takes them from one stream in the same order, symbol by symbol, so the split loses nothing.
- Dates: only the integer number of days before today is kept (`daysBeforeNow`). The `Date` arithmetic and the `toLocaleDateString` label (services/marketDataService.ts:58-63) need a clock and a locale.
- Rounding to two decimals with `toFixed`/`parseFloat` (services/marketDataService.ts:70, 86-87): values are exact reals. For the same reason, IEEE 754 floating point is not modelled.
- MarketData.RelativePerformance: states the sign of the change, not its exact value, which the chart and summary lemmas compare by equality.
- JavaScript object-key quirks: a symbol such as `constructor` picks up a prototype member from `basePrices`, and a symbol named `timestamp` would collide with a point's date key. The model treats symbols as plain map keys.
- The AI insight request (services/geminiService.ts) and the UI components (components/) are not part of this model.
