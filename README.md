# Bike-sharing dashboard: the filter-and-aggregate pipeline

This project models the data pipeline of a single-page Streamlit dashboard over a
bike-sharing usage log (`dashboard.py`). The script runs in this order:

1. It loads the log and sorts it by day.
2. It takes the earliest and latest day as the bounds of the date input.
3. It keeps the records between the two chosen dates, both ends included (`main_df`).
4. It builds the tables the page draws: daily totals, rentals by weather,
   working day, holiday and season, and two 30-row temperature samples.
5. It maps the category codes to display labels. Lines 98, 117 and 130 write the
   labels over the weather, working-day and holiday codes. Line 172 adds a
   `season_name` column and leaves the `season` code in place.

Modules, one per part of the pipeline:

- `UsageLog` (usage_log.dfy): the record, the sorting load step (`SortByDay`,
  `LoadLog`), `MinDay`/`MaxDay`, and the inclusive range filter `FilterRange`.
- `DailyRent` (daily_rent.dfy): `create_daily_rent_df` and the headline sum.
  The resample by calendar day is modelled with its gap-filling. There is one
  row for every day from the first to the last day of the input, and a day
  without records gets `order_count` 0 and `total_rent` 0.
- `GroupTotals` (group_totals.dfy): group-by-sum on a category code, with one
  row per code present, ascending by code.
- `Samples` (samples.dfy): `create_temp_cnt_df` and `create_atemp_cnt_df`.
- `Labels` (labels.dfy): the four code-to-label maps. `Series.map` gives a
  missing value (`None`) for a code that is not a key, and never raises.
- `Dashboard` (dashboard.dfy): one render as a function of the loaded log and
  the two dates, and the whole script as a method.

Days are already-parsed day numbers: days since 1970-01-01, so 2011-01-01 is 14975.
`temp` and `atemp` have the abstract type `UsageLog.Temperature`. They are carried
through and never inspected.

The source has one quirk, and the model keeps it. Only `create_daily_rent_df`
and `create_weathersit_cnt_df` use their `df` argument. The working-day,
holiday, season and the two temperature helpers read the global `all_df`, and
lines 113 and 124 recompute two of those tables from `all_df` again. In the
model, these functions take the full log, and their `df` parameter is unused.
`Dashboard.RenderRangeIndependent` states that their tables are the same for
every date range. As a result:

- their totals add up to the `cnt` sum of the whole log, not of the range;
- an empty range empties only the daily and weather tables;
- the temperature samples come from the whole log, not from the filtered frame.

The source never checks that the start date comes before the end date. A
reversed range selects nothing (`UsageLog.EmptyWhenReversed`).

## Model

| member | source | states |
|---|---|---|
| `UsageLog.InsertByDay` | dashboard.py:62 | inserting into a log sorted by day keeps it sorted and adds exactly that record to its multiset |
| `UsageLog.SortByDay` | dashboard.py:62 | the loaded log is non-decreasing in `dteday` and is a permutation of the raw table |
| `UsageLog.MinDay` | dashboard.py:68 | `min_date` is a day some record has, and no record is earlier |
| `UsageLog.MaxDay` | dashboard.py:69 | `max_date` is a day some record has, and no record is later |
| `UsageLog.SortedBounds` | dashboard.py:62-69 | in the sorted log the earliest day is the first record's and the latest the last record's |
| `UsageLog.LoadLog` | dashboard.py:59-69 | load: sorted permutation of the raw table; bounds are missing exactly for an empty table, else the least and greatest day of the whole table |
| `UsageLog.SumCntAppend` | dashboard.py:94 | the `cnt` sum of two logs joined is the sum of their sums |
| `UsageLog.SumCntRemove` | dashboard.py:94 | taking one record out of a log takes exactly its `cnt` out of the sum |
| `UsageLog.SumCntPermutation` | dashboard.py:94 | the `cnt` sum does not depend on record order |
| `UsageLog.FilterRange` | dashboard.py:81-82 | a record is kept exactly when it is in the log and `start <= dteday <= end`; never more rows than the log |
| `UsageLog.FilterRangeCounts` | dashboard.py:81-82 | each record in range is kept as many times as it occurs; records out of range are dropped |
| `UsageLog.FilterRangeAppend` | dashboard.py:81-82 | filtering distributes over concatenation, so the kept records keep their relative order |
| `UsageLog.FilterRangeSorted` | dashboard.py:81-82 | the filter of a log sorted by day is sorted by day |
| `UsageLog.FilterRangeNarrow` | dashboard.py:81-82 | filtering to a narrower range equals filtering the wider result again |
| `UsageLog.FilterRangeNone` | dashboard.py:81-82 | a range holding no record of the log selects nothing |
| `UsageLog.EmptyWhenReversed` | dashboard.py:81-82 | a start date after the end date selects nothing, without an error |
| `UsageLog.FilterRangeAll` | dashboard.py:81-82 | a range covering every record's day keeps the whole log |
| `UsageLog.FilterRangeSumBound` | dashboard.py:81-82 | filtering never raises the `cnt` sum |
| `UsageLog.FilterRangePermutation` | dashboard.py:81-94 | logs with the same records in any order give filters with equal `cnt` sums |
| `UsageLog.SumCntSplitFirstDay` | dashboard.py:9-11 | the `cnt` sum over [lo, hi] is the sum on day lo plus the sum over [lo+1, hi] |
| `DailyRent.DailyRentTable` | dashboard.py:8-19 | the table is empty exactly when the frame is; its rows are stated by `DailyRentDays`, `DailyRentHasDay`, `DailyRentRowIs`, `DailyRentRows`, `GapDayIsZero` and `DailyRentConservesCnt` |
| `DailyRent.TotalRent` | dashboard.py:94 | the headline sum is at least every row's `total_rent`; `TotalRentRowsFrom` and `DailyRentConservesCnt` state that it is the `cnt` sum of the frame |
| `DailyRent.InstantsMember` | dashboard.py:10 | an id is among a day's distinct ids exactly when some record has it |
| `DailyRent.RowsFrom` | dashboard.py:9-12 | n consecutive days, the k-th row being the row for day lo+k |
| `DailyRent.DailyRentEmpty` | dashboard.py:9-19 | an empty frame gives an empty daily table |
| `DailyRent.DailyRentDays` | dashboard.py:9-13 | days run without gaps, strictly ascending, from the earliest to the latest day; one row per calendar day of the span |
| `DailyRent.DailyRentHasDay` | dashboard.py:9-13 | each day of the span has its row at its offset from the earliest day |
| `DailyRent.DailyRentCoversLog` | dashboard.py:9-13 | every day with a record has a row |
| `DailyRent.DailyRentRowIs` | dashboard.py:9-12 | each row is the row computed for its own day |
| `DailyRent.DailyRentRows` | dashboard.py:9-17 | `order_count` is the number of distinct `instant` values of the day; `total_rent` is the day's `cnt` sum |
| `DailyRent.EmptyDayIsZero` | dashboard.py:9-12 | a day without records has zero order count and zero rentals |
| `DailyRent.GapDayIsZero` | dashboard.py:9-12 | a gap day inside the span gets a row of zeros |
| `DailyRent.InstantsBound` | dashboard.py:10 | the distinct-id count never exceeds the row count |
| `DailyRent.InstantsUnique` | dashboard.py:10 | with unique ids the distinct-id count equals the row count |
| `DailyRent.FilterRangeUnique` | dashboard.py:81-82 | filtering keeps ids unique |
| `DailyRent.OrderCountOfDay` | dashboard.py:10 | a day's order count is at most its row count, and equal to it when ids are unique |
| `DailyRent.OrderCountIsDistinct` | dashboard.py:10-16 | the same for every row of the daily table |
| `DailyRent.TotalRentRowsFrom` | dashboard.py:11 | the rentals of n consecutive day rows add up to the `cnt` sum of those days |
| `DailyRent.DailyRentConservesCnt` | dashboard.py:94 | the daily `total_rent` values add up to the input's `cnt` sum, gap days included |
| `GroupTotals.BelowHeadNotPresent` | dashboard.py:22 | in a table ascending by code, a code below the first row has no row and a total of 0 |
| `GroupTotals.AddCount` | dashboard.py:22 | adding a count keeps the table strictly ascending, adds the code to the codes present and adds the count to the grand total |
| `GroupTotals.AddCountTotal` | dashboard.py:22 | adding under code c raises c's total by the count and leaves every other code's total |
| `GroupTotals.GroupSum` | dashboard.py:22 | a group table is strictly ascending by code, so one row per code |
| `GroupTotals.GroupSumCodes` | dashboard.py:22 | the table has a row exactly for each code present in the frame, and none for absent codes |
| `GroupTotals.CodesInMember` | dashboard.py:22 | a code is present exactly when some record carries it |
| `GroupTotals.GroupSumTotal` | dashboard.py:22 | each code's total is the `cnt` sum of the records with that code |
| `GroupTotals.RowTotalIsTotalFor` | dashboard.py:22 | in a strictly ascending table a row's total is the table's total for its code |
| `GroupTotals.GroupSumRow` | dashboard.py:22-23 | every row's `total_cnt` is the `cnt` sum of exactly the records with its code |
| `GroupTotals.GroupSumConservesCnt` | dashboard.py:22 | the totals add up to the frame's `cnt` sum |
| `GroupTotals.WithCodeFilterRange` | dashboard.py:22 | selecting a code commutes with the date filter |
| `GroupTotals.CodesInFilterRange` | dashboard.py:22 | the date filter cannot add codes |
| `GroupTotals.GroupSumFilterRange` | dashboard.py:81-85 | filtering by date first only removes rows and lowers totals |
| `Samples.Project` | dashboard.py:41 | the column projection keeps every row, in order |
| `Samples.Head` | dashboard.py:43 | `iloc[:n]` gives the first min(n, length) rows, in order |
| `Samples.ProjectOnDay` | dashboard.py:41-42 | projecting and then selecting the day equals selecting the day and then projecting |
| `Samples.CreateSample` | dashboard.py:40-52 | min(30, #records on 2011-01-01 in the full log) rows; the k-th is the projection of the k-th such record, in log order; every row is dated 2011-01-01 |
| `Samples.CreateTempCnt` | dashboard.py:40-45 | at most 30 rows, and no more than the full log has records on 2011-01-01; the k-th row carries the `temp` and `cnt` of the k-th such record (exact count and dates: `CreateSample`) |
| `Samples.CreateAtempCnt` | dashboard.py:47-52 | the same with `atemp` |
| `Samples.SampleFromReferenceDay` | dashboard.py:42 | every sampled row comes from a record of the full log on 2011-01-01 |
| `Samples.SampleIsFull` | dashboard.py:43 | with at least 30 matching records the sample has exactly 30 rows |
| `Samples.SampleIgnoresDf` | dashboard.py:40-52 | the sample does not depend on the frame passed in |
| `Labels.MapCode` | dashboard.py:98 | a code gives its label when it is a key, and a missing value otherwise |
| `Labels.LabelMaps` | dashboard.py:97-171 | about the constants `WeatherLabels` (line 97), `WeekLabels` (116), `HolidayLabels` (129) and `SeasonLabels` (171): weather and season keys are 1..4, working-day and holiday keys are 0 and 1; no map gives two codes the same label |
| `Labels.Relabel` | dashboard.py:98 | relabelling keeps the row count and every total, and each row's label is its code's label or missing |
| `Labels.RelabelConserves` | dashboard.py:117 | relabelling never changes the sum of `total_cnt` |
| `Labels.RelabelDistinct` | dashboard.py:116-117 | an ascending table with every code mapped gets distinct labels, none missing |
| `Labels.NameSeasons` | dashboard.py:172 | the season table keeps its code and count and gains the season name, or a missing name |
| `Labels.NameSeasonsConserves` | dashboard.py:172 | naming the seasons never changes the count sum |
| `Dashboard.MainDf` | dashboard.py:81-82 | `main_df` holds exactly the records of the loaded log with `start <= dteday <= end`, and is sorted by day when the log is; `FilterRangeCounts`, `FilterRangeAppend` and `EmptyWhenReversed` give multiplicities, order and the reversed range |
| `Dashboard.CreateWeathersitCnt` | dashboard.py:21-25 | strictly ascending by code, a row for exactly the weather codes of the frame it is given, totals adding up to that frame's `cnt` sum; `GroupSumRow` gives each row's total |
| `Dashboard.CreateWeekdayWeekend` | dashboard.py:28-32 | the same over the full log for `workingday`, whatever frame is passed (also the recomputation at lines 113-114) |
| `Dashboard.CreateHoliday` | dashboard.py:34-38 | the same over the full log for `holiday` (also the recomputation at lines 124-125) |
| `Dashboard.CreateSeason` | dashboard.py:54-57 | the same over the full log for `season` |
| `Dashboard.Render` | dashboard.py:81-172 | the headline is the `cnt` sum of the chosen range; `RenderConservesCnt`, `RenderEmptyRange`, `RenderRangeIndependent`, `NarrowingWeather` and `NarrowingDaily` state the rest of the view |
| `Dashboard.RenderConservesCnt` | dashboard.py:84-94 | the headline and the weather totals equal the range's `cnt` sum; the working-day, holiday and season totals equal the whole log's |
| `Dashboard.RenderEmptyRange` | dashboard.py:81-94 | with no record in range, the daily and weather tables are empty and the headline is 0 |
| `Dashboard.RenderRangeIndependent` | dashboard.py:28-57 | the working-day, holiday, season and both temperature tables are identical for any two date ranges |
| `Dashboard.NarrowingWeather` | dashboard.py:81-85 | a narrower range gives a subset of the weather codes, no larger totals and no larger headline |
| `Dashboard.SpanWithin` | dashboard.py:9 | the day span of a log inside a range lies inside that range |
| `Dashboard.SpanOfPart` | dashboard.py:9 | the day span of a part of a log lies inside the log's span |
| `Dashboard.RowInTable` | dashboard.py:9-13 | every day of the span has its row in the daily table |
| `Dashboard.NarrowingDaily` | dashboard.py:81-84 | every daily row of a narrower range is also a row of the wider range's daily table |
| `Dashboard.ScenarioWeather` | dashboard.py:21-25 | codes 1, 1, 2 with counts 10, 20, 5 give clear 30 and cloudy 5 |
| `Dashboard.ScenarioDaily` | dashboard.py:8-19 | three distinct records on one day with counts 10, 20, 5 give one row (3, 35) |
| `Dashboard.ThreeRecordScenario` | dashboard.py:81-98 | the same example through the whole render, with headline 35 |
| `Dashboard.RunDashboard` | dashboard.py:59-94 | the whole script: sorted permutation, bounds, sorted `main_df`, the render, and a headline equal to the `cnt` sum of the raw records in range |

## Left out

- Reading the CSV file (line 59) and parsing `dteday` (the loop at lines 65-66): this is file I/O and library parsing. The model starts from records with day numbers.
- `reset_index(inplace=True)` (line 63): the extra `index` column it adds is never read.
- The order of records that share a day after `sort_values`: pandas' default sort is not stable. The model only promises "sorted by day and a permutation". `SortByDay` happens to insert stably.
- The sort works on a sequence that is returned. The in-place mutation of the global frame is not modelled.
- The Streamlit widgets (sidebar image, `date_input`, headers, `st.metric`, captions): they are UI. The dates the user picks are parameters of `Render` and `RunDashboard`. The failure when `date_input` returns a single date is not modelled.
- matplotlib and seaborn plotting (bar and pie charts, percentages, the regression line): these are presentation and floating point.
- The numeric content of `temp` and `atemp`: they are floats that are only carried through, so the model gives them an abstract type with equality only.
- The sort at line 62 runs before the parse at lines 65-66, so it compares the raw `dteday` strings. The model compares day numbers. That is the same order only for `YYYY-MM-DD` text, which the model assumes.
- The `cnt` sums are int64 in pandas. Every sum in the model is an unbounded `nat`, so an overflow of a 64-bit total is not modelled.
- `holiday_df.head()` (line 126) has no effect and is not modelled.
- The table at line 86 is replaced by the recomputation at line 113, and the one at line 87 by line 124. Both compute the same value from the full log, so the model computes each once.
