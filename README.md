# yyStock daily turnover snapshot, modelled in Dafny

yyStock pulls daily Korean stock-market tables from the KRX data provider (pykrx),
derives a daily turnover ratio per instrument (traded volume as a percentage of listed
shares), joins it with fundamentals and the day's change rate, and serves the result.

This project models two parts of yyStock:

- **The cache of `web_server.py`.** `StockDataCache` keeps one table per market (KOSPI,
  KOSDAQ) and per working day. The working days are the last four business days, newest
  first. The cache refreshes itself when strictly more than its interval has passed
  since the last stamp. `show_table` projects the cached tables into one page entry per
  working day: the formatted date, the columns shown, and the twenty rows with the
  largest volume.
- **The older single-day pipeline of `SimpleProj.py`.** It computes an unguarded
  turnover column in place on the whole market's cap table. It then joins that table
  with the fundamentals, adds the instrument names and sorts by turnover, largest first.

The pandas frames the code manipulates are values here. A `Frame` has an ordered list of
columns, an ordered index of tickers, and a map from ticker to row; a row maps column
names to cells, which are numbers (`real`) or text. A provider call that raises becomes
`None`, and an uncaught Python exception becomes a `Result` failure. So the state left
behind by a failed refresh is part of what is proved.

Modules, in dependency order:

| file | module | contents |
|---|---|---|
| `wrappers.dfy` | `Wrappers` | `Option`, `Result`, `Outcome` |
| `frames.dfy` | `Frames` | frames and the pandas operations the code uses: column assignment, selection, inner join, descending sort, `head`, `to_dict('records')` |
| `krx.dfy` | `Krx` | column names, markets, the provider interface |
| `turnover.dfy` | `Turnover` | the guarded turnover formula of `web_server.py:50` |
| `snapshot.dfy` | `DailySnapshot` | the day window and the per-(market, day) table pipeline |
| `cache.dfy` | `StockCache` | the cache: a class with the four fields of the source, and value-level specifications of its fetch and read |
| `display.dfy` | `Display` | the projection loop of `show_table` |
| `simple_proj.dfy` | `SimpleProj` | `calDailyStockTurnOverRatio` and `buildBasicStockData` |

The imperative parts take imperative form:

- **Cache class.** `StockCache.StockDataCache` holds `data`, `workingDays`, `lastUpdated`
  and `refreshInterval`. Its `FetchData` runs the nested market and day loops, writing
  `data[market][day]` one entry at a time.
- **Page loop.** `Display.DailyData` appends one entry per working day.
- **In-place turnover.** `SimpleProj.DataFrame` is the frame that
  `calDailyStockTurnOverRatio` changes in place.

Each method is proved equal to a function that specifies it: `Refresh`, `GetDataSpec`,
`DailyView` and `BasicStockData`. The lemmas then state what those functions promise.

## Model

| member | source | states |
|---|---|---|
| Frames.Filter | web_server.py:60 | the kept names are exactly the names of the list that are in the set, in list order (a subsequence), never more than the list, and free of duplicates when the list is |
| Frames.ExistingColumns | web_server.py:60 | the wished columns the frame has, in wish-list order: a subsequence of the wish list, membership iff wished and present, no duplicates when the wish list has none, all of them columns of the frame |
| Frames.WithColumn | web_server.py:49-50 | `df[c] = vals` keeps the index and row ids; an existing column stays in place and a new one is appended last; every row gets `vals` at `c` and keeps every other cell |
| Frames.WithColumnWellFormed | web_server.py:49-50 | assigning a column keeps a frame rectangular, with unique index and unique column names |
| Frames.Project | web_server.py:62 | `df[cols]` keeps index and row ids, has exactly `cols` as columns, copies the selected cells and drops every other; it stays well formed |
| Frames.ProjectRow | web_server.py:118 | in a well-formed frame a selected row holds exactly the selected columns, with the original cells |
| Frames.Join | web_server.py:55 | an inner join succeeds iff the column names are disjoint (pandas raises otherwise); the row ids are the intersection of both sides, the index keeps the left order, the columns are left then right, and every cell comes from the side that has it |
| Frames.JoinedCells | web_server.py:55 | each cell of the joined row is the right-hand cell when the right side has that column, the left-hand one otherwise |
| Frames.JoinedWellFormed | web_server.py:55 | joining two well-formed frames with disjoint columns gives a well-formed frame |
| Frames.InsertDesc | web_server.py:113 | inserting into a list sorted by key, largest first, keeps it sorted and adds exactly that element |
| Frames.SortIndexDesc | web_server.py:113 | the sorted index is a permutation of the index, non-increasing by key |
| Frames.SortDesc | web_server.py:113 | `sort_values(by=col, ascending=False)` keeps columns and rows, permutes the index, and orders it by the column's number, largest first |
| Frames.SortDescWellFormed | web_server.py:113 | sorting keeps a frame well formed: the permuted index is still free of duplicates and names every row |
| Frames.SortDescOrdered | SimpleProj.py:20 | the sorted frame's own column is non-increasing down its index |
| Frames.PermutationDistinct | web_server.py:113 | a permutation of a duplicate-free list is duplicate-free |
| Frames.Head | web_server.py:118 | `head(n)` keeps the first `min(n, len)` index entries and exactly their rows, unchanged |
| Frames.Records | web_server.py:121 | `to_dict('records')` gives one row per index entry, in index order |
| Krx.Call | web_server.py:48 | a provider answer succeeds iff the call returned a frame, and a raised call becomes the provider error |
| Turnover.GuardedTurnover | web_server.py:50 | the ratio is `volume / shares * 100` when the share count is positive and 0 when it is not; the share cell is read first, so a missing one raises a key error, and the volume is read only when shares are positive |
| Turnover.TurnoverRecoversVolume | web_server.py:50 | the ratio is a percentage of the listed shares: ratio × shares / 100 gives the volume back; it is non-negative for a non-negative volume, and at most 100 when volume does not exceed shares |
| Turnover.TurnoverValues | web_server.py:50 | the ratios of the given rows, one per row, each equal to the row formula; a failure exactly when some row's formula fails |
| Turnover.TurnoverValuesFirstError | web_server.py:50 | the error raised is that of the first row, in index order, whose formula fails, as pandas' `apply` does |
| Turnover.WithTurnover | web_server.py:50 | the turnover column is added to every row, with the row formula's value, and every other cell is kept; the whole assignment fails iff some row's formula fails |
| Turnover.GuardedTurnoverIgnores | web_server.py:49-50 | the formula reads only the share and volume cells, so adding the name column first does not change it |
| DailySnapshot.Reverse | web_server.py:41 | `[::-1]`: same length, element `i` is element `len-1-i` of the input |
| DailySnapshot.Window | web_server.py:41-42 | the working days are `min(4, len)` days of the business-day list, newest first, each one a business day |
| DailySnapshot.WindowIsReversedSuffix | web_server.py:41 | reversing the window gives back the last `len(window)` business days |
| DailySnapshot.WindowNewestFirst | web_server.py:41-42 | an ascending business-day list gives a window in descending order |
| DailySnapshot.Combine | web_server.py:55-57 | the ids are the intersection of the cap and fundamental ids, further intersected with the OHLCV ids exactly when that frame is non-empty and has the change rate; otherwise the result is the first join unchanged; index order is the cap table's; cap-table cells and the change rate reach the result |
| DailySnapshot.SelectDisplay | web_server.py:59-62 | the stored columns are the display columns the combined table has, in display order; ids and cells are kept |
| DailySnapshot.WithNames | web_server.py:49 | every row gets its looked-up name and keeps its other cells; the frame stays well formed |
| DailySnapshot.HasChangeRate | web_server.py:56 | `not ohlcv_df.empty and '등락률' in ohlcv_df.columns`: since the column being present means the frame has columns, it holds iff the frame has a row and the change-rate column |
| DailySnapshot.FetchDay | web_server.py:48-62 | the stored table of one (market, day) is well formed, and a failed cap-table call raises the provider error |
| DailySnapshot.FetchDayUnfold | web_server.py:48-62 | a stored table went through every stage: all three provider calls succeeded, the turnover was computed, both joins succeeded, and the display columns were selected |
| DailySnapshot.FetchDayIds | web_server.py:55-57 | the stored ids are the cap ∩ fundamental ids, ∩ OHLCV ids exactly when the change rate was joined, in cap-table order |
| DailySnapshot.FetchDayColumns | web_server.py:59-62 | the stored columns are a subsequence of the display columns and always include the name and the turnover |
| DailySnapshot.FetchDayKeepsVolume | web_server.py:48-62 | a volume column of the cap table reaches the stored table |
| DailySnapshot.FetchDayKeepsChangeRate | web_server.py:56-57 | the change rate of a non-empty OHLCV frame that has one reaches the stored table |
| DailySnapshot.FetchDayCells | web_server.py:48-62 | every stored row has the looked-up name, the guarded turnover of its cap-table row, the cap-table volume, and the OHLCV change rate when it was joined |
| StockCache.FillDays | web_server.py:46-62 | the inner loop as a value: the working days in order, each fetched table stored under its day, stopping at the first fetch that raises; its lemmas follow |
| StockCache.FillDaysSound | web_server.py:46-62 | every table the inner loop holds was already there or was fetched for its own day |
| StockCache.FillDaysComplete | web_server.py:46-62 | an inner loop that did not raise holds exactly the old days plus every working day, each with its fetched table |
| StockCache.FillDaysFailure | web_server.py:46-62 | an inner loop that raised stopped at the first working day whose fetch raised, reports that day's error, and holds the old days plus exactly the working days before it |
| StockCache.FillDaysStep | web_server.py:46-62 | one step of the inner loop: the first day's fetch either stops the loop with its error or is stored before the rest |
| StockCache.FillMarkets | web_server.py:44-62 | the outer loop never adds or drops a market and leaves markets outside its list untouched |
| StockCache.FillMarketsEntry | web_server.py:44-62 | the table held for one (market, day) was there before, or was fetched successfully for that day and market |
| StockCache.FillMarketsSound | web_server.py:44-62 | every table the outer loop holds was there before, or was fetched successfully for its own day and market |
| StockCache.FillMarketsComplete | web_server.py:44-62 | an outer loop that did not raise holds, for each market, the old days plus every working day with its fetched table |
| StockCache.FillBothMarkets | web_server.py:44-62 | the outer loop over the two markets, unrolled: KOSPI is filled first, and KOSDAQ only when KOSPI did not raise |
| StockCache.FillBothMarketsFailure | web_server.py:44-62 | an outer loop that raised stopped inside one market: KOSPI partly filled and KOSDAQ empty, or KOSPI complete and KOSDAQ partly filled, each partial fill ending just before its first failing day |
| StockCache.Refresh | web_server.py:30-64 | `_fetch_data` as a value: the data always has exactly KOSPI and KOSDAQ and the interval is kept; a refresh that raised nothing stamps the clock read after the fill, one that raised keeps the old stamp |
| StockCache.IsStale | web_server.py:70 | the staleness test `now - last_updated > refresh_interval`; with a non-negative interval a stale cache has a stamp strictly in the past |
| StockCache.GetDataSpec | web_server.py:67-75 | `get_data` as a value: a stale cache is refreshed and a fresh one is returned unchanged; the interval never changes; the stamp either stays or becomes the clock read after a refresh; a raised read was stale and keeps the old stamp |
| StockCache.RefreshShape | web_server.py:30-64 | after a refresh `data` has exactly KOSPI and KOSDAQ and the interval is unchanged; a failed business-day lookup leaves the freshly reset `data`; the working days are the window; only a refresh that raised nothing moves the stamp, to the clock read after the fill |
| StockCache.RefreshSound | web_server.py:32-62 | raised or not, a refresh holds only tables fetched for their own working day and market |
| StockCache.RefreshComplete | web_server.py:32-64 | a refresh that raised nothing maps every working day of both markets to its fetched table, and no other day |
| StockCache.RefreshReplacesData | web_server.py:32 | the old tables never survive a refresh: the resulting data and outcome do not depend on the previous state |
| StockCache.ReadWithinInterval | web_server.py:67-75 | after a successful refresh, every read until the interval has passed returns that state unchanged and never fetches |
| StockCache.RefreshFailure | web_server.py:30-62 | a refresh that raised either had its business-day lookup raise and left the reset `data`, or stopped inside one market after storing exactly the working days before the first one whose fetch raised, with the market before it complete and the one after it empty |
| StockCache.FailedRefreshStaysStale | web_server.py:64-72 | a refresh that raised keeps the old stamp, so every later read refreshes again |
| StockCache.StockDataCache.constructor | web_server.py:21-25 | the fields start as empty data, no working days, stamp 0, and the given interval, one day (86400 seconds) by default |
| StockCache.StockDataCache.FetchData | web_server.py:30-64 | the new fields and the outcome are exactly those of `Refresh` on the old fields |
| StockCache.StockDataCache.FetchMarket | web_server.py:46-62 | the inner loop stores each fetched table of the market in working-day order, stopping at the first that raises; only that market's entry of `data` changes |
| StockCache.StockDataCache.GetData | web_server.py:67-75 | the new fields and the outcome are those of `GetDataSpec`: a refresh iff `now - lastUpdated > refreshInterval`, strictly; otherwise nothing changes; a call that does not raise returns the current data and working days |
| StockCache.Create | web_server.py:21-28 | a new cache is the initial fields, with the one-day default interval unless another is given, followed by one refresh |
| Display.PySlice | web_server.py:109 | Python slicing on a string: its length is the clipped bounds' difference, and it is the plain slice when in range |
| Display.FormatDate | web_server.py:109 | an eight-or-more-character day gives `YYYY-MM-DD`: length 10, dashes at 4 and 7, the three parts copied; any day gives `min(8, len) + 2` characters |
| Display.FormatDateRoundTrip | web_server.py:109 | removing the two dashes from a formatted eight-character day gives the day back |
| Display.FormatDateInjective | web_server.py:109 | two different eight-character days never show as the same date |
| Display.DayTable | web_server.py:104-108 | `all_data.get(market, {}).get(day)`: a table exactly when the cache holds that market and day, and then the one it holds |
| Display.TopTickers | web_server.py:113-118 | the instruments shown: `min(20, rows)` entries of the volume-sorted index, each an instrument of the table |
| Display.Headers | web_server.py:114-117 | `existing_columns_to_show`: a column is a header iff it is a shown column the table has; no header repeats and there are at most five |
| Display.ShownRecords | web_server.py:118-121 | a shown day lists `min(20, rows)` records |
| Display.DayView | web_server.py:108-124 | a missing or empty table gives no records and no headers; otherwise the view fails iff the volume column is absent (key error) or not all numbers (type error); a shown day has `min(20, rows)` records and exactly the display columns the table has, in display order; the date is always the formatted day |
| Display.TopTickersDistinct | web_server.py:113-118 | the shown instruments are `min(20, rows)` distinct rows of the table |
| Display.TopTickersSorted | web_server.py:113-118 | the shown instruments are ordered by volume, largest first |
| Display.TopTickersAreTop | web_server.py:113-118 | no instrument left out has a larger volume than any shown one |
| Display.SortedIndexInRows | web_server.py:113 | every position of the sorted index names a row of the table |
| Display.ShownRecordAt | web_server.py:117-121 | record `i` is exactly the shown columns of the `i`-th top instrument's row |
| Display.ShownRecordsRows | web_server.py:117-121 | every record is exactly the shown columns of the matching top instrument's row |
| Display.DayViewShown | web_server.py:112-121 | a non-empty sortable table is shown with its formatted date, its headers and its top records |
| Display.DailyView | web_server.py:106-126 | the page loop as a value: the view of each working day in order, or the error of the first view that raises; its lemmas follow |
| Display.DailyViewSucceeds | web_server.py:106-126 | the page is built iff no working day's view raises |
| Display.DailyViewPerDay | web_server.py:106-126 | a built page has one entry per working day, in working-day order, each the view of that day |
| Display.DailyViewFirstError | web_server.py:106-126 | a page that raises reports the error of the first working day whose view raises |
| Display.UnknownMarketShowsNothing | web_server.py:104-124 | a market the cache does not hold shows every working day with its date and no records |
| Display.PrefixedStep | web_server.py:107-126 | one iteration of the page loop: the day's view either raises or is appended to the entries so far |
| Display.DailyData | web_server.py:106-126 | the loop computes exactly the page of `DailyView` |
| Display.ShowTable | web_server.py:103-126 | the cache moves as `GetDataSpec` says; the page is the refresh's error or `DailyView` of the data read |
| SimpleProj.DataFrame.constructor | SimpleProj.py:15 | a frame object holding the given table |
| SimpleProj.DataFrame.SetColumn | SimpleProj.py:19 | assigning a column in place changes the held table as `WithColumn` does |
| SimpleProj.UnguardedTurnover | SimpleProj.py:7 | without a guard: the ratio is computed iff volume and shares are both numbers; both cells are looked up, volume first, before dividing, so a missing volume raises its key error, a present volume with a missing share count raises the share count's key error whatever the volume holds, and with both cells present any failure is a type error |
| SimpleProj.UnguardedRecoversVolume | SimpleProj.py:7 | the unguarded ratio × shares / 100 gives the volume back |
| SimpleProj.UnguardedValues | SimpleProj.py:7 | the ratios of the given rows, one per row via the formula; a failure exactly when some row's formula fails |
| SimpleProj.UnguardedColumn | SimpleProj.py:7 | the column written: one numeric cell per computed ratio, for exactly the rows that have one |
| SimpleProj.WithUnguardedTurnover | SimpleProj.py:7 | the column is set iff every row has numeric volume and shares; the result is well formed with the same index, ids, and one added column |
| SimpleProj.UnguardedTurnoverValue | SimpleProj.py:7 | on a row with both numbers the ratio is `volume / shares * 100` |
| SimpleProj.UnguardedTurnoverCell | SimpleProj.py:7-10 | every row gets `volume / shares * 100` as its turnover and keeps every other cell |
| SimpleProj.UnguardedAgreesWithGuarded | SimpleProj.py:7 | where shares are positive the unguarded formula agrees with the guarded one of `web_server.py` |
| SimpleProj.CalDailyStockTurnOverRatio | SimpleProj.py:4-10 | the same object comes back with its table replaced by `WithUnguardedTurnover` of the old one; when a row raises, the table is unchanged and the error propagates |
| SimpleProj.BasicStockData | SimpleProj.py:12-21 | the result is well formed, and a failed cap-table call raises the provider error |
| SimpleProj.BuildBasicStockData | SimpleProj.py:12-21 | the straight-line pipeline with its in-place updates computes exactly `BasicStockData` |
| SimpleProj.BasicStockDataUnfold | SimpleProj.py:15-20 | a built result went through every stage: both provider calls, the turnover, the join, the names and the sort |
| SimpleProj.BasicStockDataIds | SimpleProj.py:18 | the result's ids are exactly the cap ids ∩ the fundamental ids |
| SimpleProj.BasicStockDataCells | SimpleProj.py:15-19 | every result row carries the turnover computed from its cap-table row before the join, and its looked-up name |
| SimpleProj.BasicStockDataSorted | SimpleProj.py:18-21 | the result's index is a permutation of the joined index, ordered by turnover, largest first |

## Left out

- The Flask application is not modelled: routing, `request.args`, the market default `'KOSPI'`, `render_template` and the `__main__` blocks. `ShowTable` takes the market as a parameter.
- pykrx is an abstract `Provider` whose calls return `Option` frames. `tickerName` is a total function, so a failing name lookup is not modelled.
- The nearest-business-day and previous-business-days calls are one `Option<seq<Day>>`. The `strptime`/`strftime`/`timedelta` arithmetic of `web_server.py:34-37,42` is not modelled, so days are opaque strings.
- In `SimpleProj.py` the working day is a parameter of `BuildBasicStockData`.
- `time.time()` is not read by the model. Its two readings are the parameters `now`, read when `get_data` starts, and `clock`, read when the fill ends.
- The `threading.Lock` of `get_data` is not modelled: the model is sequential.
- The `singleton` decorator is not modelled. `Create` is its first call. A first fetch that raises leaves the caller with no object, so later calls construct again.
- `get_color_for_rate` (floating-point colour interpolation for the template) is not modelled.
- `print` logging is not modelled.
- Floating point: ratios are exact `real` arithmetic, so rounding, `inf` and `nan` are not modelled.
- SimpleProj.UnguardedTurnover: it requires non-zero share counts (`NoZeroShares`, `Computable`). In pandas a zero divisor gives `inf` or `nan` rather than raising, and reals have neither.
- Frames.SortDesc: it states a permutation ordered by the key and nothing about the order of equal keys. pandas' default sort is not stable.
- Display.DayView: an all-text volume column raises a type error in the model. pandas would sort text lexicographically; the model treats only numeric volumes as sortable.
- SimpleProj.WithUnguardedTurnover: on a cap table with no rows that lacks the volume or the share column, the probe row of pandas' `apply` raises a key error, so `apply` returns the frame, and assigning it to the turnover column raises. The model succeeds with an empty column, because no row's formula fails. The same holds for `SimpleProj.CalDailyStockTurnOverRatio` and `SimpleProj.BasicStockData`.
- Turnover.WithTurnover: on a table with no rows and no share column, pandas' `apply` evaluates the lambda once on a probe row that has the table's columns and no values. The probe raises, so `apply` returns the frame instead of a column, and assigning that can raise. The model adds an empty column. When the share column is present, the probe gives 0, `apply` returns an empty series, and the column is added, as in the model.
- Pandas index mechanics beyond a duplicate-free ticker index are not modelled: a `MultiIndex`, dtypes, and duplicate index labels.

Points where the code behaves differently from what its purpose suggests, and the model follows the code:

- **Guard.** The guard of `web_server.py:50` is `> 0`, so a negative share count also gives 0, not only a zero one.
- **Missing cells.** The guarded formula of `web_server.py:50` reads the share count first. It raises when that cell is missing or not a number. The volume is read only when shares are positive. So a missing volume raises only when shares are positive; otherwise the ratio is 0. The formula does not fail on the frames pykrx returns, which always have both cells.
- **Non-atomic refresh.** `_fetch_data` resets `data` first (`web_server.py:32`) and fills it in place. It does not build a new snapshot and swap it in. A refresh that raises leaves one of two states behind, and the stamp is the old one in both:
  - A fetch inside the fill raised: partially filled `data` and the new working days. `RefreshFailure` pins down which days stay: those before the first failing fetch.
  - The business-day lookup of `web_server.py:34` or `:39` raised: the reset, empty `data` and the old working days, since line 42 is never reached.

  `RefreshShape`, `RefreshSound`, `RefreshFailure` and `FailedRefreshStaysStale` state exactly that. An empty business-day list is not a failure: its window is empty, and the refresh passes and moves the stamp.
