# Flowbee core, modelled in Dafny

Flowbee is a small analytics tool for agile teams. It reads a CSV export of
work items, where each row has a name, an optional `Cancelled` or `Status`
cell, and one date cell per workflow column ("entered this column on ..."). It
computes four things from that table:

* a **Monte Carlo forecast** (`SimulationCalcClass.py`):
  * the rows of a historical window give a distribution of items finished per
    day;
  * every iteration samples that distribution day by day and answers two
    questions: "how many items by the end date" and "on which day the target
    number is reached";
  * the answers are summarised as percentiles and run statistics;
* **flow metrics** for a date range (`FlowCalcClass.py`): average lead time,
  weekly throughput, average daily WIP, WIP-limit violations and per-category
  figures with the work mix;
* the **tables behind the charts** (`ChartBuilderClass.py`): the cleaned item
  table with back-filled dates, the cumulative-flow table and its vectors, the
  aging-WIP table, the run chart and the throughput histogram;
* **release names** (`ReleaseMetricCalcClass.py`): `Fix Version/s` names are
  stripped of their version, and each release is checked against the list of
  available deployment pipelines.

The model has one module per source file, plus `Common`, which holds shared
helpers: filtering (`Filter`, the Python `df.loc[mask]`), sums, day ranges
(`pd.date_range`) and `value_counts` (`CountsPerValue`).

How the model is built:

* The three classes whose methods update fields and globals step by step
  (`SimulationCalc`, `FlowCalc`, `Builder` for `ChartBuilderClass.py`) become
  Dafny `class`es with those fields. Each step method's `ensures` ties the new
  state to a pure function of the old state. `ReleaseMetricCalcClass.py` only
  computes new tables from its inputs, so `ReleaseMetrics` is functions.
* The properties the source promises are proved as lemmas about those
  functions.
* Dates are whole day numbers. "Today" and the first days of this year and of
  last year are inputs (`Simulation.Clock`, and `today` elsewhere).
* Errors are values. A message reported to the user is `Outcome.Reported`. A
  Python exception that escapes a step is `Outcome.Raised` or a `raised` field,
  holding a `Common.Exception` (KeyError, NaT date range, empty `min`, empty
  `argmin`, ...).
* The random draws of the simulation are an input: one sequence of sampled
  daily counts per iteration.

## Model

| member | source | states |
|---|---|---|
| Simulation.CleanRecordsSpec | SimulationCalcClass.py:90-102 | every kept row comes from the input, has both dates and is not cancelled "Yes" (when the column exists); every such input row is kept |
| Simulation.CleanRecordsKeepOrder | SimulationCalcClass.py:90-98 | the cleaned table is exactly the input rows at the kept positions, in their original order |
| Simulation.CleanRecords | SimulationCalcClass.py:90-102 | the cleaned table is never longer than the input, and every kept row has both dates (its exact content is `CleanRecordsSpec`) |
| Simulation.InProgressCount | SimulationCalcClass.py:206-215 | the in-progress count is at most the number of rows |
| Simulation.InProgressAndCleanedAreDisjoint | SimulationCalcClass.py:206-215 | items counted as in progress today and items kept as finished are disjoint among the non-cancelled rows |
| Simulation.HistWindow | SimulationCalcClass.py:107-138 | the window choice never raises, and its only reported error is the "Unexpected duration" message |
| Simulation.HistWindowSpec | SimulationCalcClass.py:107-138 | "LY" gives last calendar year clipped to the earliest end date; "YTD" gives 1 January to today, also clipped; N days gives [latest end − N, latest end], never before the earliest end date; any other value is reported, and these are the only reported cases |
| Simulation.TimeframeValuesAreRecognised | Globals.py:9-12 | every value of the timeframe table selects a window without an error |
| Simulation.SelectWindow | SimulationCalcClass.py:108-109 | a duration that is not a key of the timeframe table raises KeyError; otherwise the window comes from the table value and the min and max end dates |
| Simulation.RestrictToWindow | SimulationCalcClass.py:142-146 | an undated window keeps nothing, and the result is never longer than the input |
| Simulation.RestrictToWindowSpec | SimulationCalcClass.py:144-145 | the kept rows are exactly the input rows whose end date lies inside the window |
| Simulation.DatesTable | SimulationCalcClass.py:150-152 | the date table raises exactly when the window bounds are missing (NaT), and otherwise has one row per day of the inclusive window |
| Simulation.DatesTableDays | SimulationCalcClass.py:150-152 | row i is the window's first day + i, with frequency 0 |
| Simulation.DailyCountsSpec | SimulationCalcClass.py:159-169 | each day's count is the number of kept rows that ended on that day |
| Simulation.DailyCountsCoverWindow | SimulationCalcClass.py:157-169 | when every row ends inside the window, the daily counts add up to the number of rows |
| Simulation.DailyCounts | SimulationCalcClass.py:157-169 | one count per row of the date table (each count is given by `DailyCountsSpec`) |
| Simulation.BuildDistribution | SimulationCalcClass.py:170-183 | building the distribution raises only for an empty daily table; otherwise its span is the number of days and it has at least one count |
| Simulation.DistributionShape | SimulationCalcClass.py:175-183 | entry k counts the days on which exactly k items finished; it is 0 exactly for counts that never occurred; the largest count is the last entry |
| Simulation.Probabilities | SimulationCalcClass.py:170 | each probability is the share of days with that count (`normalize=True`) |
| Simulation.RealSumOfShares | SimulationCalcClass.py:170 | the shares of a table sum to its total divided by the denominator |
| Simulation.DistributionSumsToOne | SimulationCalcClass.py:170-183 | the frequencies sum to the number of days, so the probabilities given to the sampler sum to 1 |
| Simulation.SliceTo | SimulationCalcClass.py:228 | Python slicing `s[:n]`, including n past the end and negative n |
| Simulation.HowManyOf | SimulationCalcClass.py:228-229 | "how many" never exceeds the sum of the whole draw |
| Simulation.HowManyBounds | SimulationCalcClass.py:227-229 | "how many" is the sum of the first `days_of_simulation` draws, or of all of them when there are fewer; it is at most days × the largest daily count |
| Simulation.LeadingBelowSpec | SimulationCalcClass.py:232 | the leading run of the `cumsum < N` mask is exactly the prefixes whose sum stays below the target |
| Simulation.WhenOf | SimulationCalcClass.py:232 | `argmin` is undefined (numpy raises) exactly for an empty draw, and is otherwise a day index of the draw |
| Simulation.WhenCharacterisation | SimulationCalcClass.py:232-233 | `argmin` of the mask is positive exactly when the first day is below the target and the draw reaches it; it is then the 0-based day on which the running total first reaches the target |
| Simulation.Simulate | SimulationCalcClass.py:220-240 | a run records one "how many" per started iteration and one "when" per completed one; it finishes exactly when every iteration completed |
| Simulation.SimulateOutputs | SimulationCalcClass.py:225-237 | each recorded value is that iteration's how-many and when; an aborted run stopped on a "when" of 0; a crashed run met an empty draw |
| Simulation.SimulateIteration | SimulationCalcClass.py:225-237 | the j-th recorded outputs are those of the j-th draw |
| Simulation.SimulateStop | SimulationCalcClass.py:233-236 | why the loop stopped early: a 0 "when" (the `break`) or an empty draw (numpy raises) |
| Simulation.FirstDayCompletionAbortsRun | SimulationCalcClass.py:232-236 | when the first sampled day already meets the target, `argmin` is 0 and the run is aborted with no "when" recorded |
| Simulation.WellSampledRun | SimulationCalcClass.py:224-237 | when every draw holds `NUM_ITEMS_TO_SIMULATE * 20` days of counts no larger than `max_entries_per_day`: a run of at least one iteration crashes on the empty draw exactly when the target is 0, and every "how many" is at most target × 20 × that maximum and at most `days_of_simulation` × that maximum |
| Simulation.SimulateStep | SimulationCalcClass.py:225-237 | one loop iteration: crash, abort, or record both outputs and go on with the remaining draws |
| Simulation.ContinuedTwice | SimulationCalcClass.py:229-237 | appending outputs in two steps equals appending them at once |
| Simulation.Continued | SimulationCalcClass.py:229-237 | appending outputs in front of a run keeps its status and concatenates its outputs |
| Simulation.InsertSpec | SimulationCalcClass.py:244 | inserting into a sorted sequence keeps it sorted and adds exactly one occurrence of the element |
| Simulation.SortAscendingSpec | SimulationCalcClass.py:244 | sorting the outputs gives an ascending permutation of them |
| Simulation.Rank | SimulationCalcClass.py:244 | the rank of a percentile is a valid index; 0 % picks the smallest and 100 % the largest |
| Simulation.Quantile | SimulationCalcClass.py:244 | a quantile is missing exactly when there are no outputs |
| Simulation.QuantileIsAnOutput | SimulationCalcClass.py:244 | every quantile is one of the simulated outputs |
| Simulation.QuantileMonotone | SimulationCalcClass.py:244-249 | a higher percentile never gives a smaller quantile |
| Simulation.QuantileExtremes | SimulationCalcClass.py:244-249 | the 0 % and 100 % quantiles are the minimum and maximum output |
| Simulation.HowManyPercentiles | SimulationCalcClass.py:242-246 | one row per confidence level in `PERCENTILES_LIST`, holding the (100 − level) % quantile of the how-many outputs |
| Simulation.HowManyPercentilesNonIncreasing | SimulationCalcClass.py:242-246 | more confidence never promises more items |
| Simulation.WhenPercentiles | SimulationCalcClass.py:248-254 | with no "when" output, the NaN quantiles cannot become a `timedelta` and the table raises (exactly when there is a level to compute); otherwise one row per confidence level, holding that quantile of the when outputs and the end date `sim_start + days` |
| Simulation.WhenPercentilesNonDecreasing | SimulationCalcClass.py:248-254 | for non-empty outputs the table is built, and more confidence never promises an earlier day or end date |
| Simulation.RoundHalfEven | SimulationCalcClass.py:258 | Python `round(a / b, 0)`: the nearest integer to a/b, with ties going to the even one |
| Simulation.ModeAmongIsMostFrequent | SimulationCalcClass.py:262 | the chosen candidate occurs at least as often as any other, and is the smallest of the most frequent |
| Simulation.Mode | SimulationCalcClass.py:262 | `mode()[0]` exists exactly for non-empty outputs and is one of them |
| Simulation.ModeIsMostFrequent | SimulationCalcClass.py:262 | `mode()[0]` is the smallest most frequent output |
| Simulation.RunStatsOf | SimulationCalcClass.py:257-272 | the run statistics raise exactly when an output table is empty (division by a zero length) |
| Simulation.RunStatsOfSpec | SimulationCalcClass.py:258-266 | the average completed count is the floor of the mean; the average completion date is `sim_start` + the half-even rounded mean of the when outputs |
| Simulation.RunStatsModes | SimulationCalcClass.py:262-267 | the modal count and the modal completion day are most frequent outputs |
| Simulation.PrepareInWindow | SimulationCalcClass.py:142-202 | window preparation raises exactly for a missing or reversed window; on success it holds the rows in the window, one date row per day, the distribution and the derived fields (`max_entries_per_day`, `days_of_simulation` inclusive, finished items, number of days) |
| Simulation.PrepareInWindowNoDates | SimulationCalcClass.py:150-152 | a date table that raises makes the preparation raise |
| Simulation.PrepareInWindowNoDistribution | SimulationCalcClass.py:157-183 | a distribution that raises makes the preparation raise |
| Simulation.PrepareInWindowSucceeds | SimulationCalcClass.py:142-202 | the successful preparation is exactly the chain of the four table-building steps |
| Simulation.Prepare | SimulationCalcClass.py:34-46 | the only reported error is the unexpected duration; a prepared run has a window, a non-empty date table matching the distribution and the derived fields |
| Simulation.PreparedRowsAreCleanAndInWindow | SimulationCalcClass.py:90-146 | every row used for the distribution is an input row with both dates, not cancelled, ending inside the window |
| Simulation.PreparedDistributionIsProper | SimulationCalcClass.py:157-195 | the prepared distribution's frequencies sum to its days, its probabilities sum to 1, and its daily counts account for every finished item |
| Simulation.SimulationCalc.constructor | SimulationCalcClass.py:8-29 | a target of 0 means "finish all work in progress", and the target becomes today's in-progress count; all flags start good |
| Simulation.SimulationCalc.ReportError | SimulationCalcClass.py:278-280 | clears "good for go" and records the message |
| Simulation.SimulationCalc.PrepDataframeFormatting | SimulationCalcClass.py:90-102 | the clean table is the non-cancelled rows with both dates |
| Simulation.SimulationCalc.DetermineHistDateRange | SimulationCalcClass.py:107-138 | sets the window, or reports the unexpected duration and clears both flags, or records the KeyError; nothing else changes |
| Simulation.SimulationCalc.BuildCleanDataframe | SimulationCalcClass.py:142-146 | the clean table is restricted to the window |
| Simulation.SimulationCalc.BuildDatesDataframe | SimulationCalcClass.py:150-152 | the date table is built, or the NaT exception is recorded and the table is unchanged |
| Simulation.SimulationCalc.BuildDistDataframe | SimulationCalcClass.py:157-183 | the distribution is built from the daily counts, or the exception is recorded |
| Simulation.SimulationCalc.FinalFieldPreparation | SimulationCalcClass.py:187-202 | sets the derived fields from a proper distribution and window; otherwise an exception is recorded and the fields are unchanged |
| Simulation.SimulationCalc.PrepareInChosenWindow | SimulationCalcClass.py:37-44 | running the window steps in order gives exactly `PrepareInWindow`, and an exception is recorded exactly when it raises |
| Simulation.SimulationCalc.BuildWindowTables | SimulationCalcClass.py:38-40 | the clean table and the date table of the window, or the recorded exception |
| Simulation.SimulationCalc.PrepForSimulation | SimulationCalcClass.py:34-46 | the state after preparation is exactly `Prepare`; on success "good for go" is set; a reported error clears it and keeps the message; an exception is recorded exactly when `Prepare` raises |
| Simulation.SimulationCalc.RunMonteCarloSimulations | SimulationCalcClass.py:220-240 | the loop's outputs are exactly `Simulate` over the first `iterations` draws; an abort clears `sims_going_good`; an empty draw records the `argmin` exception. Given draws of `NUM_ITEMS_TO_SIMULATE * 20` days with counts up to `max_entries_per_day`, a run of at least one iteration records that exception exactly when the target is 0 (or one was already recorded), and each "how many" is bounded by target × 20 × the maximum and by days × the maximum |
| Simulation.SimulationCalc.BuildHowManyPercentileDataframe | SimulationCalcClass.py:242-246 | the how-many percentile table of the current outputs |
| Simulation.SimulationCalc.BuildWhenPercentileDataframe | SimulationCalcClass.py:248-254 | the when percentile table of the current outputs, or, for no outputs, the recorded `timedelta` exception |
| Simulation.SimulationCalc.LogRunStats | SimulationCalcClass.py:257-272 | the run statistics, or the division exception for empty outputs |
| Simulation.SimulationCalc.SummariseRun | SimulationCalcClass.py:52-59 | after a good run, the how-many percentiles are built; with no "when" output the when table raises and the statistics are not built; otherwise the when table is built, and the statistics too unless the how-many outputs are empty; the run is successful exactly when nothing raised and the run was good |
| Simulation.SimulationCalc.RunMcSimulations | SimulationCalcClass.py:49-59 | a run is successful exactly when every iteration completed (and there was at least one); then the outputs, percentiles and statistics are those of `Simulate`, and each "how many" is at most target × 20 × `max_entries_per_day`; with at least one iteration the `argmin` exception is raised exactly for a target of 0; zero iterations of a good run raise at the when table; an aborted run leaves the summaries untouched |
| FlowMetrics.RemoveCancelledRows | FlowCalcClass.py:185-195 | never adds rows; without a `Cancelled` or `Status` column the table is unchanged |
| FlowMetrics.RemoveCancelledRowsSpec | FlowCalcClass.py:185-195 | the result is the input rows, in order, whose `Cancelled` (or else `Status`) cell is neither "Yes" nor "Cancelled" |
| FlowMetrics.CleanItems | FlowCalcClass.py:139-169 | the clean table is never longer than the non-cancelled table (its rows are given by `CleanItemsAreOneMask`) |
| FlowMetrics.CleanItemsAreOneMask | FlowCalcClass.py:139-169 | the chain of filters in `build_clean_dataframe` equals one combined mask over the rows |
| FlowMetrics.CleanItemsEndInRange | FlowCalcClass.py:163-169 | every clean item has an end date inside [start date, end date] |
| FlowMetrics.FilterToItems | FlowCalcClass.py:163-164 | filtering after date conversion equals converting after filtering with the matching mask |
| FlowMetrics.CompletedAndInProgressAreDisjoint | FlowCalcClass.py:139-218 | the completed and the in-progress tables never hold the same row, so together they are no bigger than the non-cancelled table |
| FlowMetrics.WipItems | FlowCalcClass.py:206-218 | the in-progress table is never longer than the non-cancelled table, and every row started by the end date without an end date |
| FlowMetrics.DatesTableSpec | FlowCalcClass.py:221-224 | the date table has `number_of_days` rows, row i being start + i |
| FlowMetrics.PreparedRangeIsProper | FlowCalcClass.py:167-179 | a non-empty clean table implies a non-empty date range |
| FlowMetrics.NumberOfDays | FlowCalcClass.py:240-241 | the inclusive day count is positive exactly when the start date is not after the end date |
| FlowMetrics.WipOnDate | FlowCalcClass.py:339-345 | the WIP on a day counts completed items open that day plus in-progress items started by then, so it never exceeds both tables together |
| FlowMetrics.StartedCountMonotone | FlowCalcClass.py:342-343 | the in-progress part of the WIP never decreases from one day to a later one |
| FlowMetrics.WipOnLastDayIsWipTable | FlowCalcClass.py:206-218 | on the end date, the WIP is exactly the size of the in-progress table |
| FlowMetrics.WipColumn | FlowCalcClass.py:275 | one WIP value per date |
| FlowMetrics.Mean | FlowCalcClass.py:277 | the mean is undefined (division by zero) exactly for an empty column |
| FlowMetrics.MeanBounds | FlowCalcClass.py:277 | the mean lies between 0 and any bound on the column's values |
| FlowMetrics.AverageWipBounded | FlowCalcClass.py:274-277 | the average WIP is at most the number of completed plus in-progress items |
| FlowMetrics.WipViolations | FlowCalcClass.py:280-283 | the violations are a count of days |
| FlowMetrics.WipViolationsExtremes | FlowCalcClass.py:280-283 | every day is a violation exactly when all are above the limit, and none is exactly when all are at or below it |
| FlowMetrics.WipViolationsAntitone | FlowCalcClass.py:280-283 | raising the WIP limit never adds violations |
| FlowMetrics.ViolationPercent | FlowCalcClass.py:69 | the percentage is undefined exactly when there are no days |
| FlowMetrics.ViolationPercentBounds | FlowCalcClass.py:69 | the violation percentage lies in [0, 100] |
| FlowMetrics.TotalLeadTimeNonNegative | FlowCalcClass.py:260-264 | items that end no earlier than they start give a non-negative total lead time |
| FlowMetrics.TotalLeadTime | FlowCalcClass.py:260-264 | `sum()` skips missing lead times: when no item has one the total is 0 |
| FlowMetrics.AverageLeadTime | FlowCalcClass.py:260-264 | the average lead time is undefined exactly when no item finished |
| FlowMetrics.AverageLeadTimeAccountsForTotal | FlowCalcClass.py:260-264 | the average times the number of finished items gives back the total lead time |
| FlowMetrics.WeeklyThroughput | FlowCalcClass.py:268-270 | the weekly throughput is undefined exactly for zero days |
| FlowMetrics.WeeklyThroughputAccountsForItems | FlowCalcClass.py:268-270 | throughput × days = 7 × finished items |
| FlowMetrics.CategoryCountIsMultiplicity | FlowCalcClass.py:347-350 | a category's count is how often it occurs in the category column; a blank (NaN) category equals no cell, so its count is 0 |
| FlowMetrics.CategoryDetailsSpec | FlowCalcClass.py:347-357 | a category gets no row exactly when it has no items, so a blank category never gets one; otherwise its row holds its count, its weekly throughput and its average lead time |
| FlowMetrics.CategoryDetails | FlowCalcClass.py:347-357 | a row carries the category asked for and a positive count no larger than the clean table |
| FlowMetrics.CategoryRows | FlowCalcClass.py:294-297 | at most one row per category |
| FlowMetrics.CategoryRowsSpec | FlowCalcClass.py:294-297 | the table keeps, in order, exactly the categories that have items, each with its count |
| FlowMetrics.CategoryRowCounts | FlowCalcClass.py:294-297 | the counts column is the `value_counts` of the category column over the kept categories |
| FlowMetrics.CategoryCountsCoverCleanTable | FlowCalcClass.py:229-234 | over the unique categories of the clean table, the kept categories are exactly the non-blank ones, and their counts sum to the number of clean items that have a category |
| FlowMetrics.Categorised | FlowCalcClass.py:312-317 | the clean items whose category is not blank, the ones the work mix divides among; never more than the clean table |
| FlowMetrics.CategorisedCount | FlowCalcClass.py:229-234 | the non-blank cells of the category column are exactly as many as the clean items with a category |
| FlowMetrics.WithWorkMix | FlowCalcClass.py:312-317 | one work-mix row per category row |
| FlowMetrics.WorkMixSum | FlowCalcClass.py:312-317 | the work mixes sum to the share of the total held by the counts, in percent |
| FlowMetrics.CategoryTableRows | FlowCalcClass.py:287-318 | one row per non-blank category of the clean table, in order, holding its multiplicity |
| FlowMetrics.CategoryTableWorkMix | FlowCalcClass.py:312-317 | when some clean item has a category, the work mix adds up to 100 % |
| FlowMetrics.CategoryTable | FlowCalcClass.py:287-318 | at most one row per category, and every work mix is non-negative |
| FlowMetrics.CategoryTableEmptyIff | FlowCalcClass.py:287-318 | the category table is empty exactly when no clean item has a category |
| FlowMetrics.WholeIsHundredPercent | FlowCalcClass.py:312-317 | a positive count's share of itself is 100 % |
| FlowMetrics.CategoryMetrics | FlowCalcClass.py:287-318 | the loop over categories builds exactly the category table |
| FlowMetrics.FirstMatchingSprint | FlowCalcClass.py:124-133 | the index of the first sprint with that name, and none exactly when no sprint has it |
| FlowMetrics.FlowCalc.constructor | FlowCalcClass.py:8-36 | the category column name is kept, and the category toggle is on exactly when it is non-empty; flags start good, nothing has raised and every table starts empty |
| FlowMetrics.FlowCalc.FindMatchingSprintDate | FlowCalcClass.py:124-133 | the date of the first matching sprint; with none, the error is appended and preparation is no longer good |
| FlowMetrics.FlowCalc.BuildCleanDataframe | FlowCalcClass.py:139-183 | an empty category column name makes the column selection raise KeyError, with no table or error changed; otherwise the clean table, or for an empty one the "No data" error and a failed preparation |
| FlowMetrics.FlowCalc.BuildWipDataframe | FlowCalcClass.py:206-218 | an empty category column name raises KeyError; otherwise the in-progress table as of the end date |
| FlowMetrics.FlowCalc.BuildDatesDataframe | FlowCalcClass.py:221-224 | one row per day of the range, each with WIP 0 |
| FlowMetrics.FlowCalc.PrepCategories | FlowCalcClass.py:229-234 | the unique categories; the toggle is switched off when there are none |
| FlowMetrics.FlowCalc.FinalValuesPreparation | FlowCalcClass.py:237-249 | the number of finished items, the inclusive number of days, and the stats table built from them |
| FlowMetrics.FlowCalc.PrepAfterCleanTable | FlowCalcClass.py:46-54 | for a named category column (an unnamed one has already raised at the clean table): the WIP table, dates, categories (only under the toggle) and final values |
| FlowMetrics.FlowCalc.PrepForMetrics | FlowCalcClass.py:41-58 | an empty category column name raises KeyError at the clean table, and nothing after it runs; otherwise preparation succeeds exactly when it was good and the clean table is non-empty; on success every table is as specified and "good for go" is set; on failure the errors are published |
| FlowMetrics.FlowCalc.CalculateAverageWip | FlowCalcClass.py:274-277 | the daily WIP column and its mean |
| FlowMetrics.FlowCalc.RunFlowMetrics | FlowCalcClass.py:60-76 | the results hold the average lead time, the weekly throughput, the average WIP, the violations and their percentage; the category table is built only under the toggle |
| ChartBuilder.KeptRecordsSpec | ChartBuilderClass.py:125-131 | the kept rows are the input rows, in order, that are not cancelled "Yes" and have a start date |
| ChartBuilder.KeptRecords | ChartBuilderClass.py:125-131 | never more rows than the input, and every kept row has a start date |
| ChartBuilder.BackFillAt | ChartBuilderClass.py:297-299 | back-filling a row: each empty cell takes the value of the next filled cell to its right |
| ChartBuilder.BackFillNoneIff | ChartBuilderClass.py:297-299 | a cell stays empty exactly when every cell from it to the end is empty |
| ChartBuilder.BackFillGapsAreTrailing | ChartBuilderClass.py:297-299 | after back-filling, empty cells only form a tail |
| ChartBuilder.BackFillTakesNextDate | ChartBuilderClass.py:297-299 | a filled cell holds the first date found at or after it |
| ChartBuilder.BackFillIdempotent | ChartBuilderClass.py:297-299 | back-filling twice equals back-filling once |
| ChartBuilder.BackFill | ChartBuilderClass.py:297-299 | back-filling keeps the number of cells (each cell is given by `BackFillAt`) |
| ChartBuilder.Decimal | ChartBuilderClass.py:144-145 | the decimal text of the column number is non-empty and made of digits |
| ChartBuilder.DecimalInjective | ChartBuilderClass.py:144-145 | different numbers have different decimal texts |
| ChartBuilder.RenamedDistinct | ChartBuilderClass.py:144-145 | the renamed columns `1_x, 2_y, ...` are pairwise distinct, whatever the original names |
| ChartBuilder.RenamedNonEmpty | ChartBuilderClass.py:144-145 | no renamed column is the empty status text |
| ChartBuilder.Renamed | ChartBuilderClass.py:144-145 | one new name per workflow column |
| ChartBuilder.CleanItemsShaped | ChartBuilderClass.py:140-152 | every clean item has one date per workflow column |
| ChartBuilder.CleanItems | ChartBuilderClass.py:140-152 | one clean item per kept row |
| ChartBuilder.StartDateFilterSpec | ChartBuilderClass.py:157-161 | kept items are unfinished or finished on or after the chart start; all such items are kept; filtering again changes nothing |
| ChartBuilder.BuiltinMinSpec | ChartBuilderClass.py:164 | Python `min` over dates: NaT exactly when the first cell is NaT; otherwise the smallest date present |
| ChartBuilder.BuiltinMin | ChartBuilderClass.py:164 | `min` of a non-empty column is one of its cells |
| ChartBuilder.CompletedOnDate | ChartBuilderClass.py:282-284 | the cumulative count of a column never exceeds the number of items |
| ChartBuilder.CompletedOnDateMonotone | ChartBuilderClass.py:282-284 | a cumulative count never falls from one day to a later day |
| ChartBuilder.StartedSplit | ChartBuilderClass.py:286-290 | the items started by a day are those in progress that day plus those also done by it |
| ChartBuilder.InProgressOnDate | ChartBuilderClass.py:286-290 | the WIP of a day is at most the number of items |
| ChartBuilder.ThroughputOnDate | ChartBuilderClass.py:292-295 | the throughput of a day is at most the number of items |
| ChartBuilder.ThroughputIsCumulativeStep | ChartBuilderClass.py:282-295 | the done column's cumulative count rises from day d − 1 to day d by that day's throughput |
| ChartBuilder.CfdColumnNonDecreasing | ChartBuilderClass.py:197-202 | over ascending dates every cumulative-flow column is non-decreasing |
| ChartBuilder.CfdColumn | ChartBuilderClass.py:201 | one cumulative count per date |
| ChartBuilder.FirstPositive | ChartBuilderClass.py:207 | `idxmin` over the positive rows: the first row with a positive count, and none exactly when all are 0 |
| ChartBuilder.ColumnVectors | ChartBuilderClass.py:206-213 | a column has vectors exactly when some count is positive |
| ChartBuilder.ColumnVectorsRise | ChartBuilderClass.py:206-213 | the two vectors of a column carry its name, start at its first positive count and end no lower and no earlier; before the start every count is 0 |
| ChartBuilder.VectorsUpToSpec | ChartBuilderClass.py:204-215 | the vector table exists exactly when every column has a positive count, and then holds two vectors per column in column order |
| ChartBuilder.VectorsUpTo | ChartBuilderClass.py:204-215 | an existing vector table holds two vectors per column |
| ChartBuilder.StatusUpToSpec | ChartBuilderClass.py:226-229 | the status is empty exactly when no date is filled; otherwise it is the name of the last filled column |
| ChartBuilder.StatusUpTo | ChartBuilderClass.py:226-229 | the status is the empty text or one of the column names |
| ChartBuilder.AgeTelescopes | ChartBuilderClass.py:230-235 | the per-column day counts telescope to last filled date − first filled date |
| ChartBuilder.AgeFrom | ChartBuilderClass.py:230-235 | a row with no date from that column onward adds no age |
| ChartBuilder.ThroughputIsMultiplicity | ChartBuilderClass.py:292-295 | the throughput of a day is how many items have that day as end date |
| ChartBuilder.ThroughputCountsEachItemOnce | ChartBuilderClass.py:244-250 | over distinct dates the run chart's throughput sums to at most the number of finished items |
| ChartBuilder.RunTable | ChartBuilderClass.py:244-250 | one run-chart row per date |
| ChartBuilder.FilterMapDone | ChartBuilderClass.py:173-174 | the finished items are as many as the filled cells of the end column |
| ChartBuilder.HistogramBins | ChartBuilderClass.py:252-256 | one bin per distinct throughput value, holding its positive multiplicity; every value has a bin |
| ChartBuilder.HistogramTotal | ChartBuilderClass.py:252-256 | the bin counts add up to the number of days in the column |
| ChartBuilder.HistogramCoversRunTable | ChartBuilderClass.py:244-256 | the histogram of the run chart counts every date once |
| ChartBuilder.Histogram | ChartBuilderClass.py:252-256 | the histogram is empty exactly for an empty column, and every bin's value occurs in the column |
| ChartBuilder.DatesTableRaises | ChartBuilderClass.py:163-167 | building the dates raises for an empty table (`min` of nothing), and for a NaT first start when the chart start is not used |
| ChartBuilder.DatesTableDays | ChartBuilderClass.py:163-168 | the dates are ascending, distinct and never after today |
| ChartBuilder.DatesTableFirstDay | ChartBuilderClass.py:164-167 | the range starts at the chart start when it is used, otherwise at the earliest start date |
| ChartBuilder.DatesTable | ChartBuilderClass.py:163-168 | building the dates never reports a message: every failure is a raised exception |
| ChartBuilder.CfdTable | ChartBuilderClass.py:197-202 | one column per workflow column, one count per date |
| ChartBuilder.CountColumn | ChartBuilderClass.py:201 | the loop over dates computes the cumulative-flow column |
| ChartBuilder.StatusColumn | ChartBuilderClass.py:226-229 | the loop over columns gives every row the status of its last filled column |
| ChartBuilder.AgeColumns | ChartBuilderClass.py:230-235 | the reversed loop gives every row its age, and every column the days spent in it |
| ChartBuilder.PhaseDaysSum | ChartBuilderClass.py:232-234 | the age added up in the reversed loop is the sum of the per-column days |
| ChartBuilder.AgingAge | ChartBuilderClass.py:221-235 | a row's age is the sum of its column days, and equals its last filled date (today if none) minus its first |
| ChartBuilder.AgingStatusAndDone | ChartBuilderClass.py:223-238 | the status is the last filled column's name, and the done date is the end date exactly for finished items |
| ChartBuilder.AgingTable | ChartBuilderClass.py:218-242 | one aging row per clean item |
| ChartBuilder.ChartRows | ChartBuilderClass.py:41-43 | the rows charted are never more than the clean items (the cut is given by `StartDateFilterSpec`) |
| ChartBuilder.Builder.constructor | ChartBuilderClass.py:7-35 | `GOOD_FOR_GO` and `CHARTS_BUILT_SUCCESSFULLY` keep their values, flags start good and every table starts empty |
| ChartBuilder.Builder.BuildCleanDf | ChartBuilderClass.py:122-155 | the clean table with back-filled, renamed date columns; every row has one date per column |
| ChartBuilder.Builder.FilterCleanDfToStartDate | ChartBuilderClass.py:157-161 | keeps the unfinished items and those finished on or after the chart start |
| ChartBuilder.Builder.BuildDatesDf | ChartBuilderClass.py:163-170 | the dates from the first start (or the chart start) to today, or the exception raised |
| ChartBuilder.Builder.BuildCompletedDf | ChartBuilderClass.py:172-176 | the completed table is the items with an end date |
| ChartBuilder.Builder.BuildCfdDf | ChartBuilderClass.py:197-202 | the cumulative-flow table |
| ChartBuilder.Builder.BuildCfdVectors | ChartBuilderClass.py:204-215 | the vector table, or the exception for a column with no positive count, leaving the vectors as they were |
| ChartBuilder.Builder.BuildAgingWipDf | ChartBuilderClass.py:218-242 | the aging-WIP table |
| ChartBuilder.Builder.BuildRunDf | ChartBuilderClass.py:244-250 | the run chart: WIP and throughput per date |
| ChartBuilder.Builder.BuildThroughputHistogramDf | ChartBuilderClass.py:252-259 | the histogram of the run chart's throughput |
| ChartBuilder.Builder.PrepForCharting | ChartBuilderClass.py:40-53 | the clean table, cut to the chart start when that is used, with renamed columns; the dates step raises exactly when `DatesTable` raises, and then the dates, the completed table and `GOOD_FOR_GO` are unchanged; otherwise the dates, the completed table, and `GOOD_FOR_GO` set |
| ChartBuilder.Builder.BuildChartRows | ChartBuilderClass.py:41-43 | the clean table, cut to the chart start when that is used; every row has one date per column |
| ChartBuilder.Builder.BuildDatesAndCompleted | ChartBuilderClass.py:44-53 | the dates, or the exception with nothing changed; after the dates, the completed table and `GOOD_FOR_GO` set |
| ChartBuilder.Builder.BuildCharts | ChartBuilderClass.py:55-66 | the cumulative-flow table; the vectors step raises exactly when a column has no positive count, and then the later tables and `CHARTS_BUILT_SUCCESSFULLY` are unchanged; otherwise the vectors, the aging, run and histogram tables, and `CHARTS_BUILT_SUCCESSFULLY` set |
| ChartBuilder.Builder.BuildCfdTables | ChartBuilderClass.py:56-57 | the cumulative-flow table, then its vectors or the exception with the vectors unchanged |
| ChartBuilder.Builder.BuildTablesAfterVectors | ChartBuilderClass.py:58-66 | the aging, run and histogram tables, then `CHARTS_BUILT_SUCCESSFULLY` set |
| ReleaseMetrics.StripVersion | ReleaseMetricCalcClass.py:55-56 | the stripped name is a space-free prefix of the name, ends right before the first space, and a name without a space is unchanged |
| ReleaseMetrics.StripVersionIdempotent | ReleaseMetricCalcClass.py:55-56 | stripping twice equals stripping once |
| ReleaseMetrics.StripVersionIsFirstWord | ReleaseMetricCalcClass.py:55-56 | a name "word version" strips to "word" |
| ReleaseMetrics.StripReleaseNamesSpec | ReleaseMetricCalcClass.py:52-57 | only the `Fix Version/s` cells change, each into its first word; stripping the table again changes nothing |
| ReleaseMetrics.StripReleaseNames | ReleaseMetricCalcClass.py:52-57 | one row out per row in |
| ReleaseMetrics.PipelineEntryExistsFor | ReleaseMetricCalcClass.py:40-46 | the answer is the text "True" or "False" |
| ReleaseMetrics.PipelineEntryExistsForSpec | ReleaseMetricCalcClass.py:40-46 | "True" exactly when some pipeline has that slug and the status "Available"; "False" exactly when none does |
| ReleaseMetrics.PipelineEntryExistsForRow | ReleaseMetricCalcClass.py:48-50 | the row's answer is the lookup of its `Fix Version/s` |
| ReleaseMetrics.CheckDfForPipelinesSpec | ReleaseMetricCalcClass.py:59-62 | every row is kept unchanged and marked "True" exactly when an available pipeline has its release name as slug |
| ReleaseMetrics.CheckDfForPipelines | ReleaseMetricCalcClass.py:59-62 | one checked row per row |
| ReleaseMetrics.CheckStrippedNames | ReleaseMetricCalcClass.py:52-62 | on a stripped table, a release is on a pipeline exactly when an available pipeline's slug is its name up to the first space |

## Left out

- Reading the CSV and JSON inputs, the sprint table and the user interface (`apps/`, `ReaderClass.py`, `Flowbee.py`) are not part of this model. Tables are given as values.
- Parsing of date text (`strptime`, `pd.to_datetime`) is not modelled, and time of day is dropped. In `FlowMetrics` and `ChartBuilder`, which convert with `errors='coerce'`, a cell is a `DateCell`: a day number, or `Blank`/`Text` for blank or unparsable text, both of which become NaT. In `Simulation` a cell is already an `Option<int>`, absent for NaT.
- Simulation.CleanRecords: `prep_dataframe_formatting` converts without `errors='coerce'` (`SimulationCalcClass.py:101-102`), so a kept row holding text that is not a date raises `ValueError` there. The model has no such cell, so this exception is not modelled.
- `datetime.today()`, `date.today()` and the random generator are inputs: `Clock`, `today` and the per-iteration draws. Sampling itself is not modelled: the draws are any sequences of daily counts that have the length `NUM_ITEMS_TO_SIMULATE * 20` and values of at most `max_entries_per_day` that `generator.choice` gives them (`WellSampled`, required by the simulation methods), not that they follow the distribution.
- Floating point is not modelled. Averages, shares and percentages are exact reals or integer quotients, and `round(..., 2)` and string formatting are left out.
- Simulation.Quantile: uses the lower-rank element `floor(p·(n−1)/100)` of the sorted outputs, not the linear interpolation that pandas `quantile` applies between two neighbours. So a percentile is always an actual output.
- The names of the stats tables' rows are left out: `Globals.py` in this snapshot lacks several names the code uses (`MC_*` keys, `FLOW_METRIC_START_DATE_KEY`, `FLOW_METRIC_END_DATE_KEY`, `FLOW_METRIC_WEEKLY_THROUGHPUT_KEY`, `FLOW_METRIC_WIP_VIOLATIONS_PCT_KEY`, `FLOW_METRIC_WORK_MIX_KEY`). The tables are records with one field per row, and the names are assumed to exist.
- Simulation.HistWindow: the last-calendar-year branch is chosen by the value `LY`. `SimulationCalcClass.py:110` looks up the key `'Last Calendar Year'`, which the `Globals.py` snapshot names `'Last Year'`; as with the missing names above, the key is assumed to exist.
- Simulation.SimulationCalc.BuildWhenPercentileDataframe: when the table raises, pandas has already assigned the NaN quantile table to `WHEN_PERCENTILES` (`SimulationCalcClass.py:249`) before the `timedelta` conversion fails; the model leaves the field unchanged. Which exception pandas raises there depends on its version; the model names it `NaNTimedelta`.
- The "when" output follows the code (`argmin` of `cumsum < N`, 0-based, a 0 stops the run); a 1-based day count is not modelled.
- `get_monte_carlo_assumptions`, `get_assumptions`, the getters, `prep_errors_were_found` and `melt_cfd_df_for_charting` are left out. They only feed display text.
- ChartBuilder.Builder.PrepForCharting: `calc_completed_stats` (`ChartBuilderClass.py:178-195`, 85th/50th percentile and average cycle time and throughput) is not modelled, and the step is taken to succeed. Its divisions by a zero count go through numpy integer scalars, which give NaN or infinity with a warning rather than raising, so the step does not stop preparation.
- ChartBuilder.Builder.BuildCharts: `build_cycle_time_histogram_df` and `build_cycle_time_scatter_df` are not modelled.
- The constant display columns (`WIPLimit`, `CycleTime85/50/Avg`, `Throughput85/50/Avg`) are left out for the same reason, and so are the cycle-time histogram and scatter tables (`ChartBuilderClass.py:261-277`), which derive from those statistics.
- `calculate_average_cycle_time`, `calculate_average_parent_wip` and `calculate_aging_wip` have empty bodies in the source and are not modelled.
- `save_clean_completed_items_df` is not modelled: it only produces a display copy with dates as text.
- The `is None` checks after filtering (`FlowCalcClass.py:156-160`, `ChartBuilderClass.py:133-137`) can never succeed on a filtered table and are not modelled.
- ChartBuilder.Builder.BuildCleanDf: requires a table whose start column comes before its end column (`WellFormed`). A reversed pair selects no columns in pandas and is not modelled.
- ChartBuilder.Histogram: bins are in the order values first occur, not in the order of decreasing count that `value_counts` gives.
- Module-level globals (`GOOD_FOR_GO`, `GLOBAL_ERROR_MSG`, `NUM_ITEMS_TO_SIMULATE`, the simulation tables) are fields of the class that writes them.
- ReleaseMetrics: a missing (NaN) release name is not modelled, because names are always text here. The release test fixture uses a `System` column where the code reads `Fix Version/s`; the model follows the code.
- Which workflow columns lie between the start and end column is given by position, not by column name.
