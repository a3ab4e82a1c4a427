# AutoInvestor portfolio replay, in Dafny

This project models the AutoInvestor web front end's day-by-day portfolio replay
and proves properties of the model. The replay compares two lines:

- the "autoinvested" line follows the automated strategy's BUY/SELL decisions;
- the "noAutoinvested" line is a baseline without them.

There are two replay engines, and each is modelled on its own.

- **The simulation page** (`src/pages/webapp/Simulation.tsx`):
  - `createChartData` walks the calendar days from `startOfDay(from)` to `startOfDay(to)`.
  - On each day it applies, in timestamp order, the decisions that fall strictly inside that day's window.
  - It writes one entry per day into a `ChartEntryCollection`, a `Map` keyed by date.
  - `fetchData` runs this once per selected asset. It then adds the per-asset collections, date key by date key, into an overview collection.
  - The date field's value is turned into a `Date` by `parseDateFromInput`.
- **The portfolio chart** (`src/components/PortfolioChart.tsx`):
  - `buildChart` builds one dense day axis, from the earliest decision or purchase date up to now.
  - It replays every holding over that axis, starting from `cash = amount*boughtPrice` and `shares = amount`.
  - It adds each holding's daily values into a shared `dataByDate` record.
  - The effect's guard only builds the chart when there are holdings, assets and decisions.

Modelling choices:

- **Shared trading rules** (module `Replay`):
  - BUY turns the cash into `Math.trunc(cash/price)` whole shares.
  - SELL liquidates the position.
  - Any other decision type is a no-op.
  - One day's decisions are ordered by a stable sort on their timestamp.
- **Time and prices:**
  - Timestamps are integer milliseconds and days are integer day numbers: day `d` covers `[d*86_400_000, (d+1)*86_400_000)`.
  - Local time is taken to be UTC.
  - Money is in integer minor units and shares are whole.
  - Prices come from a parameter function that returns a positive integer for an instant. The price service itself is not part of this model.
- **Mutation:**
  - `ChartEntryCollection` is a class with its insertion-ordered `keys` and its `values` map.
  - `createChartData`, the overview loop and `buildChart` are methods with loops.
  - Each method is proved equal to a specification function, and the properties are lemmas about those functions.
- **The `buildChart` axis runs as the code has it.**
  - The loop variable starts at the earliest time with that time's own time of day and moves one day at a time while it is not after now.
  - So the last day on the axis is today when the earliest time's time of day is not later than now's, and yesterday otherwise. `PortfolioChart.AxisEnds` and `PortfolioChart.ChartAxis` state this.
  - The axis does not always reach today, although that is what it is meant to do; the model follows the code here.
- **The `buildChart` baseline is modelled as written.** It is `initialNoAuto + sharesHeld*eodPx` with the *autoinvested* share count, not the originally bought shares.

## Model

| member | source | states |
|---|---|---|
| Replay.TruncDiv | src/pages/webapp/Simulation.tsx:198 | `Math.trunc(a/b)` for a positive price: the quotient rounds toward zero, so the remainder keeps the sign of `a` and is smaller than `b` |
| Replay.Buy | src/pages/webapp/Simulation.tsx:197-200 | BUY at `price` keeps the position's value; from non-negative cash it leaves `0 <= cash < price` and never fewer shares |
| Replay.Sell | src/pages/webapp/Simulation.tsx:201-203 | SELL leaves zero shares and keeps the position's value `cash + price*shares` |
| Replay.ApplyDecision | src/pages/webapp/Simulation.tsx:196-204 | a type other than BUY or SELL leaves cash and shares unchanged; every decision keeps the value at its own price and keeps cash and shares non-negative |
| Replay.NonNegativeValue | src/pages/webapp/Simulation.tsx:210-211 | a position with non-negative cash and shares has a non-negative value at any price |
| Replay.ApplyAll | src/pages/webapp/Simulation.tsx:195-205 | a day's decisions in order keep a non-negative position non-negative |
| Replay.NoTradesKeepPosition | src/pages/webapp/Simulation.tsx:195-205 | decisions none of which is BUY or SELL leave the position as it was |
| Replay.LastSellLiquidates | src/components/PortfolioChart.tsx:90-93 | when the last decision applied is a SELL, no shares are left |
| Replay.ApplyInOrder | src/pages/webapp/Simulation.tsx:195-205 | the loop over one day's decisions ends in the position `ApplyAll` specifies |
| Replay.InsertByTime | src/pages/webapp/Simulation.tsx:191 | inserting into a time-sorted list gives a time-sorted list, holding nothing but the inserted decision and the list's own |
| Replay.InsertByTimeCount | src/pages/webapp/Simulation.tsx:191 | the insertion adds exactly one occurrence of the decision and keeps every other one |
| Replay.SortByTime | src/pages/webapp/Simulation.tsx:191 | `sort((a, b) => a.date - b.date)` returns a time-sorted permutation of its input |
| Replay.AtTimeConcat | src/pages/webapp/Simulation.tsx:191 | the decisions with one timestamp in a concatenation are those of the first part followed by those of the second |
| Replay.SortByTimeStable | src/pages/webapp/Simulation.tsx:191 | the sort is stable: decisions with the same timestamp keep their input order |
| EntryCollection.Put | src/pages/webapp/Simulation.tsx:46 | `Map.set` stores the value under the key and leaves every other key alone; a new key is appended to the iteration order and an existing key keeps its place |
| EntryCollection.Entries | src/pages/webapp/Simulation.tsx:46 | iteration visits every key once, in insertion order, each with its stored value |
| EntryCollection.EntriesOfNewKey | src/pages/webapp/Simulation.tsx:209-212 | setting a key that is not yet present appends exactly that pair to the iteration |
| EntryCollection.ChartEntryCollection.constructor | src/pages/webapp/Simulation.tsx:179 | a new collection is empty |
| EntryCollection.ChartEntryCollection.Set | src/pages/webapp/Simulation.tsx:209-212 | the collection's new contents are `Put` of the old ones |
| EntryCollection.ChartEntryCollection.Get | src/pages/webapp/Simulation.tsx:257 | `get` returns the stored entry exactly when the key is present |
| Simulation.StartOfDay | src/pages/webapp/Simulation.tsx:158-162 | `startOfDay` is the midnight at or before the instant, on the same day |
| Simulation.AddDays | src/pages/webapp/Simulation.tsx:146-150 | `addDays` moves the instant `days` days on and keeps its time of day |
| Simulation.EndOfDay | src/pages/webapp/Simulation.tsx:152-156 | `endOfDay` is the last millisecond of the instant's day |
| Simulation.DayWindow | src/pages/webapp/Simulation.tsx:164-166 | for a midnight `current`, `dateBetween(t, current, addDays(current, 1))` holds iff `t` is on that day and is not the midnight itself |
| Simulation.DecisionsBetween | src/pages/webapp/Simulation.tsx:189-190 | the filter keeps exactly the decisions dated strictly inside the window |
| Simulation.DecisionsBetweenConcat | src/pages/webapp/Simulation.tsx:189-190 | the filter of a concatenation is the concatenation of the filters |
| Simulation.DecisionsAtDay | src/pages/webapp/Simulation.tsx:189-191 | a day's decisions are a time-sorted permutation of the decisions strictly inside its window; a decision is among them iff it is in the list and dated strictly inside the window |
| Simulation.RecordDay | src/pages/webapp/Simulation.tsx:189-212 | one pass of the day loop: the position after the day's decisions is the one `ApplyAll` specifies, and the collection gains that day's key with both values marked at the end-of-day price |
| Simulation.ChartSeries | src/pages/webapp/Simulation.tsx:183-213 | the loop from `day` to `lastDay` yields one entry per day, keyed by consecutive day numbers, and none when `lastDay < day` |
| Simulation.ChartData | src/pages/webapp/Simulation.tsx:181-187 | one key per day from `startOfDay(from)` to `startOfDay(to)`, ascending; `from` and `to` on the same day give one entry, and `startOfDay(to) < startOfDay(from)` gives none |
| Simulation.CreateChartData | src/pages/webapp/Simulation.tsx:168-216 | the method returns a fresh collection whose entries, in iteration order, are `ChartData` |
| Simulation.ChartSeriesNonNegative | src/pages/webapp/Simulation.tsx:176-212 | with non-negative starting cash and shares, both values are non-negative on every day |
| Simulation.BaselineIsOriginalPosition | src/pages/webapp/Simulation.tsx:211 | the noAutoinvested value of every day is the original `cash + shares*eodPrice`, whatever the decisions did |
| Simulation.NoTradesSameValues | src/pages/webapp/Simulation.tsx:189-212 | when no BUY or SELL is dated strictly inside the window of a day of the range, the two values are equal on every day; trades outside the range or exactly at a midnight do not matter |
| Simulation.AtTimeBetween | src/pages/webapp/Simulation.tsx:189-190 | the window filter keeps, in their order, all decisions with a given timestamp inside the window |
| Simulation.DecisionsAtDayStable | src/pages/webapp/Simulation.tsx:189-191 | decisions of a day with equal timestamps are applied in their stored order |
| Simulation.SameWindowsSameSeries | src/pages/webapp/Simulation.tsx:189-191 | two decision lists that select the same decisions on every day of the range give the same entries |
| Simulation.IgnoredDecision | src/pages/webapp/Simulation.tsx:164-166 | a decision exactly at a midnight, or outside the range, changes no entry, wherever it sits in the list |
| Overview.GetOrZero | src/pages/webapp/Simulation.tsx:257 | defines `map.get(key) \|\| {0, 0}`: the stored entry when the key is present, zero otherwise |
| Overview.AddOne | src/pages/webapp/Simulation.tsx:257-261 | defines one inner step, `map.set(key, current + value)`; the collection stays well formed (keys and values in step) |
| Overview.AddInto | src/pages/webapp/Simulation.tsx:256-262 | defines the inner `forEach` over one asset's entries, in iteration order; the result stays well formed |
| Overview.Aggregate | src/pages/webapp/Simulation.tsx:254-263 | defines the outer `forEach`: the assets' entries added, asset by asset, into an initially empty collection, which stays well formed |
| Overview.AddOneValue | src/pages/webapp/Simulation.tsx:257-261 | one step of the inner loop adds the pair's value under its own key and changes no other key's value |
| Overview.AddIntoKeys | src/pages/webapp/Simulation.tsx:256-262 | after adding one asset's entries, a key is present iff it was present before or the asset has it |
| Overview.AddIntoValue | src/pages/webapp/Simulation.tsx:256-262 | after adding one asset's entries, each key holds its old value (0 if absent) plus the sum of that asset's values under it |
| Overview.AddIntoKnownKeys | src/pages/webapp/Simulation.tsx:258 | adding entries whose keys are all present keeps the key order |
| Overview.AddIntoNewKeys | src/pages/webapp/Simulation.tsx:258 | adding entries with new, distinct keys appends them in entry order |
| Overview.AggregateKeys | src/pages/webapp/Simulation.tsx:254-263 | the overview's keys are the union of the assets' keys |
| Overview.AggregateValue | src/pages/webapp/Simulation.tsx:254-263 | each overview key holds the sum over all assets, and an asset without the key contributes 0 |
| Overview.SumOfAbsent | src/pages/webapp/Simulation.tsx:257 | a series without the key adds nothing under it |
| Overview.SumOfPresent | src/pages/webapp/Simulation.tsx:257-261 | in a series of distinct keys, the sum under a key is the one entry stored there |
| Overview.EntriesSum | src/pages/webapp/Simulation.tsx:256 | a collection read through `forEach` adds exactly its stored value under each key, and 0 under a key it lacks |
| Overview.SumAtPermutation | src/pages/webapp/Simulation.tsx:255 | the per-key sum over the assets does not depend on their order |
| Overview.AggregateOrderIndependent | src/pages/webapp/Simulation.tsx:254-263 | reordering the assets leaves every key's overview value unchanged |
| Overview.AggregateSameKeys | src/pages/webapp/Simulation.tsx:254-263 | when every asset has the same distinct keys in the same order, the overview lists exactly those keys in that order |
| Overview.AssetSeries | src/pages/webapp/Simulation.tsx:235-244 | one chart per selected asset, in selection order, each `createChartData(locatedMoney \|\| 0, amount \|\| 0, …)` |
| Overview.AddEntries | src/pages/webapp/Simulation.tsx:256-262 | the inner `forEach` leaves the overview equal to the specified addition of one asset's entries |
| Overview.AggregateOverview | src/pages/webapp/Simulation.tsx:254-263 | the overview loop yields a fresh collection equal to the specified aggregate of the assets' entries |
| Overview.AssetChartData | src/pages/webapp/Simulation.tsx:235-244 | one asset's callback returns a fresh collection holding the chart `AssetChart` specifies for that asset |
| Overview.ChartsPerAsset | src/pages/webapp/Simulation.tsx:235-251 | the per-asset collections are fresh, and their entries are the charts `AssetSeries` specifies |
| Overview.FetchData | src/pages/webapp/Simulation.tsx:234-264 | `fetchData` produces the per-asset charts and their overview as specified |
| Overview.AssetChartKeys | src/pages/webapp/Simulation.tsx:237-244 | each asset's chart is keyed by the consecutive days of the range |
| Overview.OverviewShape | src/pages/webapp/Simulation.tsx:254-263 | with at least one asset, the overview has one key per day of the range, ascending |
| DateInput.Split | src/pages/webapp/Simulation.tsx:63 | `split('-')` yields at least one piece and no piece contains a dash |
| DateInput.JoinSplit | src/pages/webapp/Simulation.tsx:63 | the pieces joined with dashes give back the input |
| DateInput.SplitJoin | src/pages/webapp/Simulation.tsx:63 | dash-free pieces joined with dashes split back into the same pieces |
| DateInput.Number | src/pages/webapp/Simulation.tsx:63 | `Number` gives a value exactly for digit strings, and that value is non-negative |
| DateInput.NumberOfDecimal | src/pages/webapp/Simulation.tsx:63 | `Number` reads back a zero-padded decimal numeral as its value |
| DateInput.DayFromYear | src/pages/webapp/Simulation.tsx:64 | defines the day number of 1 January of a year, day 0 being 1 January 1970 (see `DayFromYearStep`) |
| DateInput.MakeDay | src/pages/webapp/Simulation.tsx:64 | defines the day number `new Date` gives a year, an overflowing month index and an overflowing day (see `MakeDayInYear`, `MonthOverflow`) |
| DateInput.TimeClip | src/pages/webapp/Simulation.tsx:64 | a time gives a valid date, equal to itself, iff it is at most 8.64e15 ms from the epoch |
| DateInput.NewDate | src/pages/webapp/Simulation.tsx:64 | `new Date(year, monthIndex, day)`, with years 0 to 99 read as 1900 to 1999: a valid result is a midnight within the representable range |
| DateInput.ParseDateFromInput | src/pages/webapp/Simulation.tsx:62-65 | fewer than three pieces, or a non-numeric piece, give an Invalid Date; a valid result is a midnight, so `startOfDay` leaves it as it is |
| DateInput.ParseFieldValue | src/pages/webapp/Simulation.tsx:62-65 | the value "yyyy-mm-dd" parses to `new Date(yyyy, mm - 1, dd)` |
| DateInput.ParseFourDigitYear | src/pages/webapp/Simulation.tsx:62-65 | for a real calendar date in years 100 to 9999, the result is that date's day number times the day length |
| DateInput.TwoDigitYear | src/pages/webapp/Simulation.tsx:64 | years written 0000 to 0099 are read as 1900 to 1999 |
| DateInput.DayFromYearStep | src/pages/webapp/Simulation.tsx:64 | consecutive years start 365 or 366 days apart, as the leap-year rule says |
| DateInput.CalendarOrder | src/pages/webapp/Simulation.tsx:62-65 | real calendar dates in calendar order get strictly increasing day numbers |
| DateInput.MonthOverflow | src/pages/webapp/Simulation.tsx:64 | a month index 12 higher is the same month of the next year |
| PortfolioChart.BuyDate | src/components/PortfolioChart.tsx:47-49 | every holding's buy date falls seven days before today |
| PortfolioChart.ClosingTime | src/components/PortfolioChart.tsx:97-100 | the closing price is taken at 23:59:59 UTC of the axis day, one second before the next day |
| PortfolioChart.MinOf | src/components/PortfolioChart.tsx:53 | the reduce finds an element that is not larger than any other |
| PortfolioChart.Axis | src/components/PortfolioChart.tsx:61-65 | the loop visits `(end - start)/86_400_000 + 1` consecutive days from the day of `start`, or none when `start > end` |
| PortfolioChart.AxisEnds | src/components/PortfolioChart.tsx:53-65 | the axis ends on today's day when the start's time of day is not later than now's, and on yesterday's otherwise |
| PortfolioChart.OnDay | src/components/PortfolioChart.tsx:78-79 | the filter keeps exactly the decisions on the axis day's UTC date |
| PortfolioChart.DayDecisions | src/components/PortfolioChart.tsx:78-80 | a day's decisions are a time-sorted permutation of the decisions on that UTC date |
| PortfolioChart.DayDecisionsStable | src/components/PortfolioChart.tsx:78-80 | decisions of that day with equal timestamps are applied in their stored order |
| PortfolioChart.Contribution | src/components/PortfolioChart.tsx:69-103 | defines what one holding adds to the axis: zeros when its asset is missing, otherwise its replay from `cash = amount*boughtPrice` and `shares = amount`; one entry per axis day |
| PortfolioChart.Totals | src/components/PortfolioChart.tsx:68-104 | defines the accumulator after a run of holdings as the pointwise sum of their contributions; one entry per axis day |
| PortfolioChart.ChartDataSpec | src/components/PortfolioChart.tsx:114-122 | defines the guarded chart: `buildChart` when there are holdings, assets and decision keys, empty otherwise (see `ChartData`) |
| PortfolioChart.HoldingSeries | src/components/PortfolioChart.tsx:77-103 | one holding's replay yields one entry per axis day |
| PortfolioChart.AppendDates | src/components/PortfolioChart.tsx:45 | the inner `forEach` appends one asset's decision dates, in order, after what was collected before |
| PortfolioChart.CollectTimes | src/components/PortfolioChart.tsx:43-50 | `allTimes` holds exactly the decision dates of every asset, plus the buy date when there is a holding |
| PortfolioChart.Earliest | src/components/PortfolioChart.tsx:53 | the reduce returns the least of the collected times |
| PortfolioChart.DateRange | src/components/PortfolioChart.tsx:56-65 | the axis loop pushes the days of `Axis(minDate, now)` and initialises exactly those days to `{0, 0}` |
| PortfolioChart.SimulateHolding | src/components/PortfolioChart.tsx:72-103 | one holding, starting from `cash = amount*boughtPrice` and `shares = amount`, adds its replay pointwise into the accumulator |
| PortfolioChart.AccumulateHoldings | src/components/PortfolioChart.tsx:68-104 | after the holdings loop, each axis day holds the sum over the holdings of their contributions; a holding whose asset is missing adds nothing |
| PortfolioChart.BuildChart | src/components/PortfolioChart.tsx:41-112 | `buildChart` produces exactly `BuildChartSpec`: each axis day with its accumulated pair, in axis order |
| PortfolioChart.ChartData | src/components/PortfolioChart.tsx:114-122 | with no holdings, no assets or no decision keys the chart is empty; otherwise it is what `buildChart` builds |
| PortfolioChart.ChartEmpty | src/components/PortfolioChart.tsx:51-65 | the chart is empty iff no collected time is at or before now; in particular with no holdings and no decisions |
| PortfolioChart.ChartAxis | src/components/PortfolioChart.tsx:53-65 | a non-empty chart starts on the day of the earliest time, has one entry per consecutive day, and ends today or yesterday |
| PortfolioChart.GuardedChartSpansAWeek | src/components/PortfolioChart.tsx:47-65 | with a holding, the week-old buy date makes the chart at least eight days long |
| PortfolioChart.HoldingSeriesNonNegative | src/components/PortfolioChart.tsx:82-103 | from a non-negative position, a holding adds no negative value to either line |
| PortfolioChart.TotalsNonNegative | src/components/PortfolioChart.tsx:68-103 | holdings with non-negative amounts and prices accumulate only non-negative values |
| PortfolioChart.ChartNonNegative | src/components/PortfolioChart.tsx:41-112 | such holdings give a chart with no negative value |
| PortfolioChart.HoldingSeriesNoTrades | src/components/PortfolioChart.tsx:78-103 | when no BUY or SELL falls on an axis day, a holding adds the same amount to both lines every day |
| PortfolioChart.TotalsNoTrades | src/components/PortfolioChart.tsx:68-103 | when no asset has a BUY or SELL on an axis day, the accumulated lines agree on every day |
| PortfolioChart.ChartNoTrades | src/components/PortfolioChart.tsx:41-112 | when no asset has a BUY or SELL dated today or earlier, the two lines coincide on every day; later trades do not matter |
| PortfolioChart.BaselineAfterSell | src/components/PortfolioChart.tsx:102 | on a day whose last decision is a SELL, the holding's noAutoinvested value is exactly its initial amount, whatever the price: the baseline follows the autoinvested share count |
| PortfolioChart.TotalsWithoutContribution | src/components/PortfolioChart.tsx:69-70 | inserting a holding whose asset is missing from `assetsMap` changes no accumulated value |
| PortfolioChart.AbsentHoldingIgnored | src/components/PortfolioChart.tsx:69-70 | alongside other holdings, a holding whose asset is missing leaves the chart unchanged |
| PortfolioChart.TotalsConcat | src/components/PortfolioChart.tsx:68-103 | the accumulator over two runs of holdings is the pointwise sum of the two accumulators |
| PortfolioChart.TotalsPermutation | src/components/PortfolioChart.tsx:68-103 | the accumulated values do not depend on the order of the holdings |
| PortfolioChart.ChartOrderIndependent | src/components/PortfolioChart.tsx:41-112 | reordering the holdings leaves the chart unchanged |

## Left out

- Rendering, recharts, React state and effects, and `console.log`.
  - The guard is modelled as a method returning the chart.
  - `setChartData`, `setAssetsData` and `setOverviewData` are not modelled.
- The HTTP services:
  - `getDecisions` and `getPrice` become parameter functions;
  - `getAsset` (ticker and mic for the asset tabs) is not modelled, because it only labels the chart.
- `async`/`await` and `Promise.all`: the assets and holdings are processed one after another.
- Floating point:
  - all amounts are integers and prices positive integers;
  - the `/100` conversion and the "MM/dd" label of `buildChart`'s output are left out, so the output keeps the day number and the minor units.
- Time zones and daylight saving time. Local time is UTC, so `setHours`, `setDate`, `toISOString().split('T')[0]` and the ISO-date prefix test are exact day arithmetic on UTC day numbers.
- `Number` on syntaxes a date field never produces are NaN in the model, although JavaScript would accept them: surrounding white space, signs, decimal points, exponents, hexadecimal, "Infinity".
- Invalid Dates inside decisions or as `from`/`to` of `createChartData`; the model's times are always valid.
- `normalize` (Simulation.tsx:225-231) only reshapes entries for display.
- The `AssetChartEntryCollection` wrapper's `mic` and `ticker` fields.
- `buildChart` reads the clock twice (buy dates and `maxDate`); both reads are the single parameter `now`.
- src/model/Decision.ts is not part of this model; a decision's type is kept as a string compared with "BUY" and "SELL".
- Overview.AggregateOrderIndependent: it states that every key's value is independent of the asset order, not the key iteration order. A `Map` lists keys in first-insertion order, which in general depends on the asset order. `Overview.AggregateSameKeys` shows that the order is the days of the range when every asset covers the same days, as `fetchData`'s assets do.
- PortfolioChart.AbsentHoldingIgnored: it requires another holding. A lone holding of a missing asset still adds its buy date to `allTimes`, so it can lengthen the axis, though not change any value (`PortfolioChart.TotalsWithoutContribution`).
