# Market dashboard data pipeline, modelled in Dafny

This project models the client-side data pipeline of a small React web app
that shows Steam market data for one item. The app has two parts:

- the dashboard (`src/components/DataDashboard.jsx`);
- the charts page (`src/components/Charts.jsx`).

Both fetch an item's price history and its current snapshot. They turn the
raw records into the series their charts draw and publish the results into
component state.

The model covers:

- the history normaliser: timestamp cut to its day, then a stable sort by
  date;
- the two source-quote mappers;
- the recent-sales normaliser;
- the lowest and highest price;
- the 30-day projection `generatePredictions`;
- the period-to-date-range choice `getDateRange`;
- the description picker `getItemDescription`;
- the state updates of `fetchItemData` (dashboard) and `fetchAllData` (charts
  page), as classes whose fields are the components' state.

Modules, one per concern:

| file | module | what it holds |
|---|---|---|
| common.dfy | Common | Option; JavaScript `trim`, UTF-16 `length` and `includes` |
| records.dfy | Records | the API's records and the shapes the charts draw |
| sorting.dfy | Sorting | date order and the stable sort |
| normalize.dfy | Normalize | the `map`/`sort` chains |
| stats.dfy | Stats | `Math.min`/`Math.max` |
| projection.dfy | Projection | `generatePredictions` |
| daterange.dfy | DateRange | `getDateRange` |
| description.dfy | DescriptionPicker | `getItemDescription` |
| dashboard.dfy | Dashboard | the dashboard's state and `fetchItemData` |
| charts.dfy | ChartsPage | the charts page's state and `fetchAllData` |

The network, the clock and `Math.random` are parameters.

- A fetch cycle receives a `FetchOutcome`. That is either both parsed
  responses or a failure. A failure covers a rejected request, a body that
  is not JSON, or a body whose shape makes the processing chain throw.
- Days are integer day numbers, and today comes in as a parameter.
  `getDateRange` also receives the two calendar facts it takes from `Date`,
  through a `Clock`: the same day one month back, and January 1.
- The projection receives the 29 factors `0.95 + Math.random() * 0.1` it
  multiplies by.
- Prices are reals.

The class invariant of the dashboard (`DataDashboard.Valid`) concerns the
five datasets held in state (`Held`). Either nothing has been published yet, or all five are
exactly what one response publishes (`Publish`), so old and new data are
never mixed.

The charts page's invariant (`Charts.Valid`) has four parts. The lowest and
highest price are set together. Before they are set, no series is in state.
Once set, they are those of the history in state. That history is in date
order.

Three behaviours of the code the model keeps:

- `Math.min`/`Math.max` over an empty history give +Infinity and -Infinity.
  They are modelled by `ExtReal`, so nothing requires the history to be
  non-empty.
- A response is not checked for a success status. Whatever parses as JSON
  is processed.
- On failure, the datasets already published stay in component state. While
  the error is set, the page shows the error message in their place
  (DataDashboard.jsx:391-395, Charts.jsx:59).

## Model

| member | source | states |
|---|---|---|
| Common.IsJsWhitespace | src/components/DataDashboard.jsx:209 | the characters `trim` removes, here and at line 318: the ECMAScript WhiteSpace and LineTerminator code points (TAB, VT, FF, SP, NBSP, ZWNBSP, the Zs space separators, LF, CR, LS, PS) |
| Common.LeadingEnd | src/components/DataDashboard.jsx:209 | the first non-whitespace index at or after i; everything before it from i on is whitespace |
| Common.TrailingStart | src/components/DataDashboard.jsx:209 | the index after the last non-whitespace character before j; everything after it up to j is whitespace |
| Common.Trim | src/components/DataDashboard.jsx:209 | `String.prototype.trim`: the text between the first and the last character that is not ECMAScript whitespace (`TrimShape` proves that shape) |
| Common.IsBlank | src/components/DataDashboard.jsx:209 | `!s.trim()`, and equally `desc.value.trim() === ""` at line 318: the trimmed text is empty |
| Common.TrimShape | src/components/DataDashboard.jsx:209 | `trim()` leaves a contiguous part of the string that neither starts nor ends with whitespace; everything cut off on either side is whitespace |
| Common.BlankIffAllWhitespace | src/components/DataDashboard.jsx:209 | `s.trim()` is empty exactly when every character of s is JavaScript whitespace (both directions) |
| Common.Utf16Length | src/components/DataDashboard.jsx:321 | `.length` counts UTF-16 units: between one and two per character |
| Common.Contains | src/components/DataDashboard.jsx:324 | `includes(sub)`: sub occurs in the text at some start index from 0 to the text's length minus sub's length |
| Sorting.DateLe | src/components/DataDashboard.jsx:234-237 | the comparator `new Date(a) - new Date(b) <= 0` on `YYYY-MM-DD` days, as lexicographic order on the text; the same comparator sorts the sales (lines 249-251) and the charts page's history (Charts.jsx:30-33) |
| Sorting.DateLeReflexive | src/components/DataDashboard.jsx:234-237 | every date is not later than itself |
| Sorting.DateLeTotal | src/components/DataDashboard.jsx:234-237 | any two dates are comparable |
| Sorting.DateLeTransitive | src/components/DataDashboard.jsx:234-237 | the date order is transitive |
| Sorting.DateLeAntisymmetric | src/components/DataDashboard.jsx:234-237 | two dates each not later than the other are equal |
| Sorting.DateLeCommonPrefix | src/components/DataDashboard.jsx:234-237 | dates with a common prefix compare as their remainders do |
| Sorting.DateLeExample | src/components/DataDashboard.jsx:234-237 | 2024-01-01 sorts before 2024-01-03 and not the other way round |
| Sorting.SortedByDay | src/components/DataDashboard.jsx:234-237 | what the comparator's sort delivers: every entry's day is not later than the day of any entry after it |
| Sorting.Insert | src/components/DataDashboard.jsx:234-237 | inserting one entry makes the series one longer |
| Sorting.InsertPermutes | src/components/DataDashboard.jsx:234-237 | inserting adds exactly that entry to the multiset of entries |
| Sorting.InsertSorted | src/components/DataDashboard.jsx:234-237 | inserting into a sorted series keeps it sorted |
| Sorting.SortByDay | src/components/DataDashboard.jsx:234-237 | the sort keeps the length |
| Sorting.SortByDayPermutes | src/components/DataDashboard.jsx:234-237 | the sort is a permutation of its input |
| Sorting.SortByDaySorted | src/components/DataDashboard.jsx:234-237 | the sort's result is in non-decreasing date order |
| Sorting.SortByDayOfSorted | src/components/DataDashboard.jsx:234-237 | sorting an already sorted series leaves it unchanged |
| Sorting.SortByDayIdempotent | src/components/DataDashboard.jsx:234-237 | sorting twice equals sorting once |
| Sorting.OnDay | src/components/DataDashboard.jsx:234-237 | the filter of one day's entries, in the series' order, no longer than the series |
| Sorting.OnDayInsert | src/components/DataDashboard.jsx:234-237 | insertion adds the entry in front of that day's entries, or leaves them alone |
| Sorting.SortByDayStable | src/components/DataDashboard.jsx:234-237 | stability: entries of the same day keep their input order |
| Sorting.Prices | src/components/Charts.jsx:40 | `map(item => item.price)` keeps the length |
| Sorting.PricesCons | src/components/Charts.jsx:40 | the price column of x followed by s is x's price followed by the price column of s |
| Sorting.PricesInsert | src/components/Charts.jsx:40 | inserting an entry adds its price to the multiset of prices |
| Sorting.PricesInsertAfterHead | src/components/Charts.jsx:40 | an entry inserted after the first one adds only its own price |
| Sorting.PricesSortPermutation | src/components/Charts.jsx:27-40 | sorting leaves the multiset of prices unchanged |
| Normalize.DateOf | src/components/DataDashboard.jsx:233 | `split('T')[0]` is a prefix with no 'T', followed by a 'T' unless it is the whole string |
| Normalize.DateOfTimestamp | src/components/DataDashboard.jsx:233 | a timestamp `day + "T" + time` gives back its day |
| Normalize.DateOfExample | src/components/DataDashboard.jsx:233 | 2024-01-03T00:00:00Z gives 2024-01-03 |
| Normalize.ToPricePoint | src/components/DataDashboard.jsx:231-233 | the arrow `item => ({price: item.price, date: item.createdat.split('T')[0]})`: the record's price, dated by the day of its timestamp |
| Normalize.ToPricePoints | src/components/DataDashboard.jsx:231-234 | one point per record, in API order: same price, day of its timestamp |
| Normalize.RawPrices | src/components/Charts.jsx:27-43 | the reference for order independence: the raw records' prices in API order (not the sorted series' column that line 40 maps) |
| Normalize.NormalizeHistory | src/components/DataDashboard.jsx:231-237 | the history series has one point per record and is sorted by date |
| Normalize.NormalizeHistoryPermutes | src/components/DataDashboard.jsx:231-237 | the series is a permutation of the mapped records; each point carries the price and day of some record |
| Normalize.PricePointsMember | src/components/DataDashboard.jsx:231-234 | every mapped point is the price and day of some record |
| Normalize.NormalizeHistoryPrices | src/components/Charts.jsx:27-33 | the series carries exactly the records' prices, with multiplicity |
| Normalize.PricesOfPricePoints | src/components/Charts.jsx:27-29 | mapping to points keeps the price column |
| Normalize.NormalizeHistoryIdempotent | src/components/Charts.jsx:30-33 | re-sorting the normalised series is the identity |
| Normalize.NormalizeHistoryStable | src/components/DataDashboard.jsx:234-237 | points of one day keep the API's order |
| Normalize.SourceQuotes | src/components/DataDashboard.jsx:240-244 | the dashboard's quotes have the API's length and order, and copy price, source and latest10steamsales |
| Normalize.ChartQuotes | src/components/Charts.jsx:35-38 | the charts page's quotes have the API's length and order, and copy price and source |
| Normalize.ToSaleRecord | src/components/DataDashboard.jsx:246-248 | the arrow `item => ({sellDate: item[0], price3: item[1]})`: the pair's date and price, unchanged |
| Normalize.ToSaleRecords | src/components/DataDashboard.jsx:246-248 | each pair `[d, p]` becomes the record `{sellDate: d, price3: p}`, in order |
| Normalize.NormalizeSales | src/components/DataDashboard.jsx:246-251 | the recent sales have one record per pair and are sorted by sell date |
| Normalize.NormalizeSalesPermutes | src/components/DataDashboard.jsx:246-251 | the recent sales are a permutation of the mapped pairs; each record is one of the API's pairs |
| Normalize.SaleRecordsMember | src/components/DataDashboard.jsx:246-248 | every mapped record is one of the pairs |
| Stats.MinReal | src/components/Charts.jsx:40 | the minimum of a non-empty list occurs in it and is not above any element |
| Stats.MaxReal | src/components/Charts.jsx:42 | the maximum of a non-empty list occurs in it and is not below any element |
| Stats.Lowest | src/components/Charts.jsx:40 | `Math.min(...xs)` is +Infinity for no values, otherwise an element not above any other |
| Stats.Highest | src/components/Charts.jsx:42 | `Math.max(...xs)` is -Infinity for no values, otherwise an element not below any other |
| Stats.LowestNotAboveHighest | src/components/Charts.jsx:40-43 | for a non-empty history the lowest price is not above the highest |
| Stats.StatsPermutationInvariant | src/components/Charts.jsx:40-43 | min and max depend only on the multiset of values |
| Stats.SummaryOrderIndependent | src/components/Charts.jsx:27-43 | min and max of the sorted series equal those of the prices in API order |
| Projection.Factor | src/components/DataDashboard.jsx:194 | a draw in [0, 1) gives a factor in [0.95, 1.05) |
| Projection.ValidFactors | src/components/DataDashboard.jsx:194 | the 29 factors one call multiplies by, each in [0.95, 1.05), as `0.95 + Math.random() * 0.1` gives them |
| Projection.DrawsGiveValidFactors | src/components/DataDashboard.jsx:194 | 29 draws give 29 factors, each in [0.95, 1.05) |
| Projection.LastPrice | src/components/DataDashboard.jsx:175-178 | the seed is the last history price, or 0 when the history is missing or empty |
| Projection.WalkAt | src/components/DataDashboard.jsx:189-196 | the i-th projected price: the seed for i = 0, otherwise price i - 1 times factor i |
| Projection.Projected | src/components/DataDashboard.jsx:181-202 | the projection has 30 points |
| Projection.GeneratePredictions | src/components/DataDashboard.jsx:170-205 | 30 points, point i dated today + i, point 0 priced at the seed; the loop builds exactly the walk |
| Projection.ProjectedAt | src/components/DataDashboard.jsx:183-201 | point i is dated today + i and priced at the i-th step of the walk |
| Projection.ProjectionSteps | src/components/DataDashboard.jsx:193-196 | each projected price is the previous one times the next factor |
| Projection.WalkNonNegative | src/components/DataDashboard.jsx:193-196 | a walk from a non-negative seed with non-negative factors stays non-negative |
| Projection.WalkFromZero | src/components/DataDashboard.jsx:189-196 | a walk from 0 stays at 0 |
| Projection.WalkEnvelope | src/components/DataDashboard.jsx:193-196 | after i steps the price lies between seed×0.95^i and seed×1.05^i |
| Projection.StepBounds | src/components/DataDashboard.jsx:194-195 | one step moves a bracketed price into the bracket scaled by 0.95 and 1.05 |
| Projection.ProjectionNonNegative | src/components/DataDashboard.jsx:175-201 | a non-negative last price gives an all-non-negative projection |
| Projection.ProjectionFromZero | src/components/DataDashboard.jsx:175-201 | no history, or a last price of 0, gives an all-zero projection |
| Projection.ProjectionEnvelope | src/components/DataDashboard.jsx:175-201 | projected point i lies between seed×0.95^i and seed×1.05^i |
| DateRange.WellFormed | src/components/DataDashboard.jsx:141-165 | what the `Date` calls guarantee of a clock: January 1 is not after today, and `setMonth(getMonth() - 1)` lands 28 to 31 days back |
| DateRange.GetDateRange | src/components/DataDashboard.jsx:137-167 | the end is today; 7days and 14days go back 7 and 14 days; yearStart starts on January 1; any other period starts one month back |
| DateRange.UnknownPeriodIsMonth | src/components/DataDashboard.jsx:154-155 | an unrecognised period gives the same range as month |
| DateRange.RangeIsOrdered | src/components/DataDashboard.jsx:141-165 | on a real calendar the range starts no later than it ends, and never earlier than whichever of January 1 and 31 days back comes first |
| DescriptionPicker.Truthy | src/components/DataDashboard.jsx:318 | JavaScript truthiness of an optional string, as `!desc.value` and `!desc.color` test it: present and not empty |
| DescriptionPicker.IsMainDescription | src/components/DataDashboard.jsx:315-331 | an entry passes all five tests: type "html", a value that is truthy and not blank, at least 30 UTF-16 units, no "sticker_info", and no truthy colour |
| DescriptionPicker.FirstMainDescription | src/components/DataDashboard.jsx:313-333 | the first-match reference the loop is proved equal to: the value of the first entry that passes every test, or null |
| DescriptionPicker.FirstMainDescriptionIsFirstMatch | src/components/DataDashboard.jsx:313-333 | nothing is found exactly when no entry passes every test; otherwise the value of the first entry that does |
| DescriptionPicker.ColouredEntrySkipped | src/components/DataDashboard.jsx:326-331 | an entry with a colour is passed over and the scan goes on |
| DescriptionPicker.GetItemDescription | src/components/DataDashboard.jsx:304-334 | null without details or without a descriptions array; otherwise the loop returns the first match |
| Dashboard.Publish | src/components/DataDashboard.jsx:230-261 | the published item details are the snapshot itself |
| Dashboard.ProcessResponse | src/components/DataDashboard.jsx:230-254 | the processing chain's history has one point per record in date order, its quotes one per entry of `prices`, its recent sales one record per sale in date order; its projection has 30 points dated today + i and starts at the last history price, or 0 for an empty history; the item details are the snapshot |
| Dashboard.DataDashboard.Valid | src/components/DataDashboard.jsx:230-261 | the class invariant: either nothing has been published, or all five datasets held in state are what one response publishes |
| Dashboard.DataDashboard.constructor | src/components/DataDashboard.jsx:9-28 | no datasets, not loading, no error, empty search, period month |
| Dashboard.DataDashboard.HandleInputChange | src/components/DataDashboard.jsx:113-116 | the search text becomes the new value and nothing else in the model changes |
| Dashboard.DataDashboard.HandleTimePeriodChange | src/components/DataDashboard.jsx:127-129 | the selected period becomes the pressed one and nothing else changes |
| Dashboard.DataDashboard.BeginFetch | src/components/DataDashboard.jsx:208-218 | a blank search sets the input error and issues no request, loading unchanged; otherwise loading starts, the error is cleared and the request carries the name and the period's range |
| Dashboard.DataDashboard.PublishResponse | src/components/DataDashboard.jsx:230-262 | all five datasets become what the response publishes, together; loading ends; the invariant holds |
| Dashboard.DataDashboard.ReportFailure | src/components/DataDashboard.jsx:263-267 | the error becomes the fetch error, loading ends, every dataset stays as it was |
| Dashboard.DataDashboard.FetchItemData | src/components/DataDashboard.jsx:208-268 | the whole cycle: blank input changes only the error; success publishes all five datasets with no error; failure keeps them and sets the error; loading is cleared after every request that goes out |
| ChartsPage.Charts.Valid | src/components/Charts.jsx:27-43 | the class invariant: lowest and highest are set together; before they are set no series is in state; once set they are the min and max of the history in state; that history is sorted by day |
| ChartsPage.Charts.constructor | src/components/Charts.jsx:6-11 | nothing published, loading, no error |
| ChartsPage.Charts.ShowResponse | src/components/Charts.jsx:17-47 | history normalised, quotes mapped, lowest and highest price of that history, loading ended, invariant kept |
| ChartsPage.Charts.ReportFailure | src/components/Charts.jsx:48-51 | the error is set, loading ends, nothing else changes |
| ChartsPage.Charts.FetchAllData | src/components/Charts.jsx:14-53 | on success everything is published from the one response and the error is left as it was; on failure the error is set and no dataset or statistic changes; loading ends either way |
| ChartsPage.TwoRecordsSwapped | src/components/Charts.jsx:27-43 | two records delivered latest first come out earliest first, with the smaller and larger price as lowest and highest |

## Left out

- HTTP requests, URLs, the API key and `response.json()`: network I/O. A fetch is an input value (`FetchOutcome`).
- `encodeURIComponent` on the item name: the request is modelled by the raw name and the range only.
- The suggestion search: `fetchSuggestions`, its debounce timer, the mousedown listener, `showSuggestions` and `handleSelectSuggestion`. These are timer- and event-driven UI.
- Dashboard.DataDashboard.HandleInputChange: does not model `setShowSuggestions(true)`, because the suggestion dropdown is not part of this model.
- `Math.random`: its 29 draws per projection are a parameter.
- IEEE floating point, and the `toFixed` formatting of the tooltip: prices are exact reals.
- Real calendar arithmetic (`setDate`/`setMonth` overflow, month lengths, `toISOString` time zones): days are integers, and the `Clock` supplies the two calendar facts.
- Projection.GeneratePredictions: dates are day numbers rather than the `YYYY-MM-DD` strings the source formats.
- DateRange.GetDateRange: start and end are day numbers rather than formatted date strings.
- Sorting.SortByDay: compares date strings lexicographically. This agrees with the `new Date(a) - new Date(b)` comparator only for days in the one form `YYYY-MM-DD`. Mixed forms are not modelled: a day against a date-time at 00:00 UTC of that day compares equal in the source, while the model puts the day first; a date-time with no offset is read as local time; fractional seconds, time-zone offsets and local-time date-times do not order lexicographically. A malformed date, where the comparator returns NaN, is not modelled either.
- Normalize.NormalizeSales: assumes every `sellDate` is a plain `YYYY-MM-DD` day. The source sorts `item[0]` exactly as the API sends it, without cutting it at 'T', so for other forms its order can differ from the model's.
- Records.Dated: the history points `{price, date}` and the sale records `{sellDate, price3}` are two constructors of one datatype, so that one stable sort serves both series.
- The parts of the snapshot the pipeline does not read: only `prices`, `latest10steamsales` and `descriptions` are modelled.
- Response shapes that make the chain throw (missing `prices`, a `createdat` that is not a string, and so on) appear only as the failure outcome.
- The interleaving of user actions with an in-flight fetch: the model runs BeginFetch, then the response handling, with nothing in between.
- Rendering (JSX, recharts, the tooltip's `localStorage` read, `dangerouslySetInnerHTML`, `getButtonClass`) and the other source files (App.jsx, About.jsx, Home.jsx): UI only.
- Dashboard.DataDashboard.FetchItemData: strings are modelled as sequences of Unicode scalar values, so a search text holding a lone UTF-16 surrogate cannot be expressed. For such a text the source's `encodeURIComponent` throws before the `try`, after loading has been set, and `fetchItemData` rejects with loading left on. That path is not modelled. The same limit applies to `.trim()` and `.length` in the description picker.
- Description entries of other shapes, and `console.error`: a `descriptions` entry that is null, or whose `value` is truthy but not a string, makes `getItemDescription` throw during render (DataDashboard.jsx:315-318); the typed `Description` cannot express either. The `console.error` calls in both catch blocks (DataDashboard.jsx:264, Charts.jsx:49) are logging only and are left out.
