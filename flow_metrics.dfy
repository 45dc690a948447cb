/** The flow-metric calculator (FlowCalcClass.py).

    Preparation drops cancelled rows, keeps the items that finished inside the
    chosen date range (the "clean" table) and those still in progress at its end
    (the "WIP" table), lays out one row per day of the range and counts the days.
    The metrics are the average lead time, the weekly throughput, the average
    daily work in progress, the days over the WIP limit, and per-category counts,
    lead times, throughputs and work mix. Dates are day numbers; averages are
    exact rationals (the source rounds them to two decimals for display). */
module FlowMetrics {
  import opened Common

  // ===========================================================================
  // Records
  // ===========================================================================

  /** One input row: the cells of the `Cancelled` and `Status` columns (None for
      an empty cell), the start and end date cells and the category cell (None
      for an empty cell, which pandas reads as NaN). */
  datatype FlowRecord = FlowRecord(cancelled: Option<string>, status: Option<string>,
                                   start: DateCell, end: DateCell, category: Option<string>)

  /** The input table: whether it has a `Cancelled` and a `Status` column, and
      its rows. */
  datatype FlowTable = FlowTable(hasCancelledColumn: bool, hasStatusColumn: bool, rows: seq<FlowRecord>)

  /** A row of the clean or the WIP table after date conversion: start and end
      date (None for NaT) and category. */
  datatype FlowItem = FlowItem(start: Option<int>, end: Option<int>, category: Option<string>)

  // ===========================================================================
  // Cancellation, clean table and WIP table
  // ===========================================================================

  /** A cell value that marks an item cancelled. */
  predicate MarksCancelled(v: Option<string>)
  {
    v == Some("Yes") || v == Some("Cancelled")
  }

  /** The row survives `remove_cancelled_rows`: the `Cancelled` column decides
      when the table has one, otherwise the `Status` column, otherwise every row
      survives. */
  predicate NotCancelled(t: FlowTable, r: FlowRecord)
  {
    if t.hasCancelledColumn then !MarksCancelled(r.cancelled)
    else if t.hasStatusColumn then !MarksCancelled(r.status)
    else true
  }

  function NotCancelledMask(t: FlowTable): FlowRecord -> bool
  {
    x => NotCancelled(t, x)
  }

  /** `remove_cancelled_rows`. */
  function RemoveCancelledRows(t: FlowTable): (r: seq<FlowRecord>)
    ensures |r| <= |t.rows|
    ensures !t.hasCancelledColumn && !t.hasStatusColumn ==> r == t.rows
  {
    if t.hasCancelledColumn then Filter(t.rows, (x: FlowRecord) => !MarksCancelled(x.cancelled))
    else if t.hasStatusColumn then Filter(t.rows, (x: FlowRecord) => !MarksCancelled(x.status))
    else t.rows
  }

  /** Whichever column decides, removing cancelled rows is the one mask
      `NotCancelled`: the survivors are the rows it accepts, in their original
      order (the k-th survivor is the row at the k-th ascending kept position). */
  lemma RemoveCancelledRowsSpec(t: FlowTable)
    ensures RemoveCancelledRows(t) == Filter(t.rows, NotCancelledMask(t))
    ensures var kept := KeptPositions(t.rows, NotCancelledMask(t));
      && |RemoveCancelledRows(t)| == |kept|
      && (forall k :: 0 <= k < |kept| ==> RemoveCancelledRows(t)[k] == t.rows[kept[k]])
  {
    if t.hasCancelledColumn {
      FilterExt(t.rows, (x: FlowRecord) => !MarksCancelled(x.cancelled), NotCancelledMask(t));
    } else if t.hasStatusColumn {
      FilterExt(t.rows, (x: FlowRecord) => !MarksCancelled(x.status), NotCancelledMask(t));
    } else {
      FilterAll(t.rows, NotCancelledMask(t));
    }
    FilterKeepsOrder(t.rows, NotCancelledMask(t));
  }

  /** `pd.to_datetime(..., errors='coerce')` on the two date columns. */
  function ToItem(r: FlowRecord): FlowItem
  {
    FlowItem(Coerce(r.start), Coerce(r.end), r.category)
  }

  function ToItems(rows: seq<FlowRecord>): (r: seq<FlowItem>)
    ensures |r| == |rows|
  {
    seq(|rows|, k requires 0 <= k < |rows| => ToItem(rows[k]))
  }

  /** The masks of `build_clean_dataframe` after cancellation, as one: the end
      cell is neither null nor empty, the start cell is neither null nor empty,
      and the converted end date lies in the inclusive range (text that is not a
      date converts to NaT, which fails the comparison). */
  predicate CompletedInRange(startDate: int, endDate: int, r: FlowRecord)
  {
    !r.start.Null? && !r.start.Blank? && r.end.At? && startDate <= r.end.day <= endDate
  }

  function CompletedMask(startDate: int, endDate: int): FlowRecord -> bool
  {
    x => CompletedInRange(startDate, endDate, x)
  }

  /** The clean table of `build_clean_dataframe`, before its emptiness check. */
  function CleanItems(t: FlowTable, startDate: int, endDate: int): (r: seq<FlowItem>)
    ensures |r| <= |RemoveCancelledRows(t)|
  {
    ToItems(Filter(RemoveCancelledRows(t), CompletedMask(startDate, endDate)))
  }

  /** Not cancelled, and finished inside the range. */
  function CleanMask(t: FlowTable, startDate: int, endDate: int): FlowRecord -> bool
  {
    x => NotCancelled(t, x) && CompletedInRange(startDate, endDate, x)
  }

  /** The clean table holds, in input order, the converted rows that are not
      cancelled and finished inside the range. */
  lemma CleanItemsAreOneMask(t: FlowTable, startDate: int, endDate: int)
    ensures CleanItems(t, startDate, endDate) == ToItems(Filter(t.rows, CleanMask(t, startDate, endDate)))
  {
    RemoveCancelledRowsSpec(t);
    FilterFilter(t.rows, NotCancelledMask(t), CompletedMask(startDate, endDate), CleanMask(t, startDate, endDate));
  }

  /** Every clean item has both dates and its end date inside the range. */
  lemma CleanItemsEndInRange(t: FlowTable, startDate: int, endDate: int)
    ensures var r := CleanItems(t, startDate, endDate);
      forall k :: 0 <= k < |r| ==> r[k].end.Some? && startDate <= r[k].end.value <= endDate
  {
    var kept := Filter(RemoveCancelledRows(t), CompletedMask(startDate, endDate));
    forall k | 0 <= k < |kept|
      ensures ToItems(kept)[k].end.Some? && startDate <= ToItems(kept)[k].end.value <= endDate
    {
      assert CompletedMask(startDate, endDate)(kept[k]);
    }
  }

  /** The mask of `build_wip_dataframe`: started on or before the end date and
      either without an end date or finished after it. */
  predicate InProgressAtEnd(endDate: int, x: FlowItem)
  {
    x.start.Some? && x.start.value <= endDate && (x.end.None? || x.end.value > endDate)
  }

  function InProgressMask(endDate: int): FlowItem -> bool
  {
    x => InProgressAtEnd(endDate, x)
  }

  /** `build_wip_dataframe`: the converted non-cancelled rows in progress at the
      end date. */
  function WipItems(t: FlowTable, endDate: int): (r: seq<FlowItem>)
    ensures |r| <= |RemoveCancelledRows(t)|
    ensures forall k :: 0 <= k < |r| ==> InProgressAtEnd(endDate, r[k])
  {
    Filter(ToItems(RemoveCancelledRows(t)), InProgressMask(endDate))
  }

  /** Converting then masking is masking by the converted value then converting. */
  lemma {:induction false} FilterToItems(rows: seq<FlowRecord>, p: FlowItem -> bool, q: FlowRecord -> bool)
    requires forall x :: q(x) == p(ToItem(x))
    ensures Filter(ToItems(rows), p) == ToItems(Filter(rows, q))
  {
    if rows != [] {
      var init, last := rows[..|rows| - 1], rows[|rows| - 1];
      FilterToItems(init, p, q);
      assert ToItems(rows)[..|rows| - 1] == ToItems(init);
      if q(last) {
        assert ToItems(Filter(init, q) + [last]) == ToItems(Filter(init, q)) + [ToItem(last)];
      }
    }
  }

  /** A non-cancelled row is counted at most once between the clean and the WIP
      table: no item both finished inside the range and is still in progress at
      its end, so the two tables together are no larger than the rows that
      survive cancellation. */
  lemma CompletedAndInProgressAreDisjoint(t: FlowTable, startDate: int, endDate: int)
    ensures |CleanItems(t, startDate, endDate)| + |WipItems(t, endDate)| <= |RemoveCancelledRows(t)|
  {
    var rows := RemoveCancelledRows(t);
    var done := CompletedMask(startDate, endDate);
    var open := (x: FlowRecord) => InProgressAtEnd(endDate, ToItem(x));
    var either := (x: FlowRecord) => done(x) || open(x);
    var all := (x: FlowRecord) => true;
    FilterToItems(rows, InProgressMask(endDate), open);
    FilterCountDisjointUnion(rows, done, open, either);
    FilterCountMonotone(rows, either, all);
    FilterAll(rows, all);
  }

  // ===========================================================================
  // Day table and day count
  // ===========================================================================

  /** `final_values_preparation`: the number of days of the inclusive range. */
  function NumberOfDays(startDate: int, endDate: int): (n: int)
    ensures n > 0 <==> startDate <= endDate
  {
    endDate - startDate + 1
  }

  /** The day table of `build_dates_dataframe` has one row per day of the
      inclusive range, in order, and as many rows as `NumberOfDays` counts
      whenever the range is not reversed. */
  lemma DatesTableSpec(startDate: int, endDate: int)
    requires startDate <= endDate
    ensures |DayRange(startDate, endDate)| == NumberOfDays(startDate, endDate) > 0
    ensures forall i :: 0 <= i < |DayRange(startDate, endDate)| ==> DayRange(startDate, endDate)[i] == startDate + i
  {
  }

  /** Whenever some item finished inside the range the range is not reversed,
      so after a successful preparation there are days to divide by. */
  lemma PreparedRangeIsProper(t: FlowTable, startDate: int, endDate: int)
    requires CleanItems(t, startDate, endDate) != []
    ensures startDate <= endDate
    ensures |DayRange(startDate, endDate)| == NumberOfDays(startDate, endDate) > 0
  {
    CleanItemsEndInRange(t, startDate, endDate);
    var c := CleanItems(t, startDate, endDate);
    assert startDate <= c[0].end.value <= endDate;
  }

  // ===========================================================================
  // Work in progress per day, WIP-limit violations
  // ===========================================================================

  /** Started on or before day `d` (a NaT start never compares true). */
  function StartedMask(d: int): FlowItem -> bool
  {
    (x: FlowItem) => x.start.Some? && x.start.value <= d
  }

  /** Started on or before day `d` and finished after it. */
  function OpenOnMask(d: int): FlowItem -> bool
  {
    (x: FlowItem) => x.start.Some? && x.start.value <= d && x.end.Some? && x.end.value > d
  }

  /** `calc_wip_on_date`: clean items that had started and not yet finished on
      day `d`, plus WIP items that had started by then. */
  function WipOnDate(d: int, clean: seq<FlowItem>, wip: seq<FlowItem>): (n: nat)
    ensures n <= |clean| + |wip|
  {
    |Filter(clean, OpenOnMask(d))| + |Filter(wip, StartedMask(d))|
  }

  /** The WIP items that had started never decrease from one day to a later one. */
  lemma StartedCountMonotone(wip: seq<FlowItem>, d1: int, d2: int)
    requires d1 <= d2
    ensures |Filter(wip, StartedMask(d1))| <= |Filter(wip, StartedMask(d2))|
  {
    FilterCountMonotone(wip, StartedMask(d1), StartedMask(d2));
  }

  /** On the last day of the range no clean item is still open (all finished by
      then), so the work in progress is exactly the WIP table. */
  lemma WipOnLastDayIsWipTable(t: FlowTable, startDate: int, endDate: int)
    ensures WipOnDate(endDate, CleanItems(t, startDate, endDate), WipItems(t, endDate)) == |WipItems(t, endDate)|
  {
    var clean := CleanItems(t, startDate, endDate);
    var wip := WipItems(t, endDate);
    CleanItemsEndInRange(t, startDate, endDate);
    FilterNone(clean, OpenOnMask(endDate));
    forall k | 0 <= k < |wip| ensures StartedMask(endDate)(wip[k]) {
      assert InProgressMask(endDate)(wip[k]);
    }
    FilterAll(wip, StartedMask(endDate));
  }

  /** The WIP column of the day table. */
  function WipColumn(dates: seq<int>, clean: seq<FlowItem>, wip: seq<FlowItem>): (r: seq<nat>)
    ensures |r| == |dates|
  {
    seq(|dates|, i requires 0 <= i < |dates| => WipOnDate(dates[i], clean, wip))
  }

  /** The mean of a column as an exact rational; None for an empty column
      (pandas yields NaN there). */
  function Mean(column: seq<nat>): (m: Option<real>)
    ensures m.None? <==> column == []
  {
    if column == [] then None else Some(Sum(column) as real / |column| as real)
  }

  /** The mean lies between 0 and the largest value. */
  lemma MeanBounds(column: seq<nat>, bound: nat)
    requires column != []
    requires forall k :: 0 <= k < |column| ==> column[k] <= bound
    ensures 0.0 <= Mean(column).value <= bound as real
  {
    SumNonNegative(column);
    SumBounded(column, bound);
    var n := |column| as real;
    assert Sum(column) as real <= n * bound as real;
  }

  /** The average daily WIP is at most the number of clean and WIP items. */
  lemma AverageWipBounded(dates: seq<int>, clean: seq<FlowItem>, wip: seq<FlowItem>)
    requires dates != []
    ensures 0.0 <= Mean(WipColumn(dates, clean, wip)).value <= (|clean| + |wip|) as real
  {
    MeanBounds(WipColumn(dates, clean, wip), |clean| + |wip|);
  }

  function OverLimitMask(limit: int): nat -> bool
  {
    w => w > limit
  }

  /** `calculate_wip_violations`: the days whose WIP is over the limit. */
  function WipViolations(wipPerDay: seq<nat>, limit: int): (v: nat)
    ensures v <= |wipPerDay|
  {
    |Filter(wipPerDay, OverLimitMask(limit))|
  }

  /** Every day is a violation exactly when every day is over the limit, and no
      day is one exactly when no day is over it. */
  lemma WipViolationsExtremes(wipPerDay: seq<nat>, limit: int)
    ensures WipViolations(wipPerDay, limit) == |wipPerDay| <==> forall k :: 0 <= k < |wipPerDay| ==> wipPerDay[k] > limit
    ensures WipViolations(wipPerDay, limit) == 0 <==> forall k :: 0 <= k < |wipPerDay| ==> wipPerDay[k] <= limit
  {
    FilterKeepsAllIff(wipPerDay, OverLimitMask(limit));
    FilterEmptyIff(wipPerDay, OverLimitMask(limit));
  }

  /** Raising the limit never adds violations. */
  lemma WipViolationsAntitone(wipPerDay: seq<nat>, lower: int, higher: int)
    requires lower <= higher
    ensures WipViolations(wipPerDay, higher) <= WipViolations(wipPerDay, lower)
  {
    FilterCountMonotone(wipPerDay, OverLimitMask(higher), OverLimitMask(lower));
  }

  /** The violation percentage of `run_flow_metrics`; None when the range has no
      days (the float division yields no finite value). */
  function ViolationPercent(violations: nat, days: int): (p: Option<real>)
    ensures p.None? <==> days == 0
  {
    if days == 0 then None else Some(violations as real / days as real * 100.0)
  }

  /** With at most one violation per day, the percentage lies in [0, 100]. */
  lemma ViolationPercentBounds(violations: nat, days: int)
    requires 0 < days && violations <= days
    ensures 0.0 <= ViolationPercent(violations, days).value <= 100.0
  {
    var f := violations as real / days as real;
    assert f * days as real == violations as real;
  }

  // ===========================================================================
  // Lead time and throughput
  // ===========================================================================

  /** `lead_time`: days from start to end; NaN when a date is NaT. */
  function LeadTime(x: FlowItem): Option<int>
  {
    if x.start.Some? && x.end.Some? then Some(x.end.value - x.start.value) else None
  }

  /** The `sum()` of the lead-time column, which skips NaN. */
  function TotalLeadTime(items: seq<FlowItem>): (total: int)
    ensures (forall k :: 0 <= k < |items| ==> LeadTime(items[k]).None?) ==> total == 0
  {
    if items == [] then 0
    else
      (match LeadTime(items[0]) case Some(l) => l case None => 0) + TotalLeadTime(items[1..])
  }

  /** Items that started no later than they finished have a non-negative total
      lead time. */
  lemma {:induction false} TotalLeadTimeNonNegative(items: seq<FlowItem>)
    requires forall k :: 0 <= k < |items| ==> LeadTime(items[k]).Some? ==> LeadTime(items[k]).value >= 0
    ensures TotalLeadTime(items) >= 0
  {
    if items != [] {
      TotalLeadTimeNonNegative(items[1..]);
    }
  }

  /** `calculate_average_lead_time`: the summed lead times over the number of
      finished items; None when there are none (no finite value). */
  function AverageLeadTime(items: seq<FlowItem>, finished: nat): (r: Option<real>)
    ensures r.None? <==> finished == 0
  {
    if finished == 0 then None else Some(TotalLeadTime(items) as real / finished as real)
  }

  /** The average recovers the total: over the finished items it accounts for
      exactly the summed lead time. */
  lemma AverageLeadTimeAccountsForTotal(items: seq<FlowItem>, finished: nat)
    requires finished != 0
    ensures AverageLeadTime(items, finished).value * finished as real == TotalLeadTime(items) as real
  {
    var f := TotalLeadTime(items) as real / finished as real;
    assert f * finished as real == TotalLeadTime(items) as real;
  }

  /** `calculate_average_throughput`: finished items per day times 7; None when
      the range has no days. */
  function WeeklyThroughput(finished: nat, days: int): (r: Option<real>)
    ensures r.None? <==> days == 0
  {
    if days == 0 then None else Some(finished as real / days as real * 7.0)
  }

  /** The weekly rate recovers the count: over `days` days it accounts for
      exactly the finished items, seven days at a time. */
  lemma WeeklyThroughputAccountsForItems(finished: nat, days: int)
    requires days != 0
    ensures WeeklyThroughput(finished, days).value * days as real == 7.0 * finished as real
  {
    var f := finished as real / days as real;
    assert f * days as real == finished as real;
  }

  // ===========================================================================
  // Categories
  // ===========================================================================

  function CategoryColumn(items: seq<FlowItem>): (r: seq<Option<string>>)
    ensures |r| == |items|
  {
    seq(|items|, k requires 0 <= k < |items| => items[k].category)
  }

  /** `prep_categories`: the values of the clean table's category column, each
      once, in order of first appearance; a blank cell contributes NaN (None). */
  function Categories(clean: seq<FlowItem>): seq<Option<string>>
  {
    Unique(CategoryColumn(clean))
  }

  /** The rows whose category equals `c`. NaN equals nothing, not even NaN, so
      the blank category matches no row. */
  function CategoryMask(c: Option<string>): FlowItem -> bool
  {
    (x: FlowItem) => c.Some? && x.category == c
  }

  /** The clean items of one category. */
  function ItemsOf(c: Option<string>, clean: seq<FlowItem>): seq<FlowItem>
  {
    Filter(clean, CategoryMask(c))
  }

  function NamedMask(): Option<string> -> bool
  {
    (c: Option<string>) => c.Some?
  }

  function CategorisedMask(): FlowItem -> bool
  {
    (x: FlowItem) => x.category.Some?
  }

  /** The clean items whose category cell is not blank. */
  function Categorised(clean: seq<FlowItem>): (r: seq<FlowItem>)
    ensures |r| <= |clean|
  {
    Filter(clean, CategorisedMask())
  }

  /** The number of clean items of a category is how often it occurs in the
      category column; the blank category has none. */
  lemma {:induction false} CategoryCountIsMultiplicity(c: Option<string>, clean: seq<FlowItem>)
    ensures |ItemsOf(c, clean)| == if c.None? then 0 else multiset(CategoryColumn(clean))[c]
  {
    if clean != [] {
      var init := clean[..|clean| - 1];
      CategoryCountIsMultiplicity(c, init);
      assert CategoryColumn(clean) == CategoryColumn(init) + [clean[|clean| - 1].category];
    }
  }

  /** The non-blank cells of the category column are as many as the clean items
      with a category. */
  lemma {:induction false} CategorisedCount(clean: seq<FlowItem>)
    ensures |Filter(CategoryColumn(clean), NamedMask())| == |Categorised(clean)|
  {
    if clean != [] {
      var init := clean[..|clean| - 1];
      CategorisedCount(init);
      var column := CategoryColumn(clean);
      assert column[..|column| - 1] == CategoryColumn(init);
    }
  }

  /** One row of the category table before the work mix is added. */
  datatype CategoryRow = CategoryRow(category: Option<string>, count: nat, avgLeadTime: real, weeklyThroughput: Option<real>)

  /** `calc_category_details`: nothing for a category without clean items,
      otherwise its count, its average lead time and its weekly throughput. */
  function CategoryDetails(c: Option<string>, clean: seq<FlowItem>, days: int): (r: Option<CategoryRow>)
    ensures r.Some? ==> r.value.category == c && 0 < r.value.count <= |clean|
  {
    var items := ItemsOf(c, clean);
    if |items| == 0 then None
    else Some(CategoryRow(c, |items|, TotalLeadTime(items) as real / |items| as real, WeeklyThroughput(|items|, days)))
  }

  /** A category's row, when it has one, carries the same metrics the whole
      table gets, computed over that category's items alone; the blank category
      never has one. */
  lemma CategoryDetailsSpec(c: Option<string>, clean: seq<FlowItem>, days: int)
    ensures var r := CategoryDetails(c, clean, days);
      && (r.None? <==> ItemsOf(c, clean) == [])
      && (c.None? ==> r.None?)
      && (r.Some? ==> && r.value.category == c && r.value.count == |ItemsOf(c, clean)| > 0
                      && r.value.weeklyThroughput == WeeklyThroughput(r.value.count, days)
                      && Some(r.value.avgLeadTime) == AverageLeadTime(ItemsOf(c, clean), r.value.count))
  {
    CategoryCountIsMultiplicity(c, clean);
  }

  /** The rows the loop of `calculate_category_metrics` collects. */
  function CategoryRows(categories: seq<Option<string>>, clean: seq<FlowItem>, days: int): (r: seq<CategoryRow>)
    ensures |r| <= |categories|
  {
    if categories == [] then []
    else
      var init := CategoryRows(categories[..|categories| - 1], clean, days);
      match CategoryDetails(categories[|categories| - 1], clean, days)
      case None => init
      case Some(row) => init + [row]
  }

  function HasItemsMask(clean: seq<FlowItem>): Option<string> -> bool
  {
    c => ItemsOf(c, clean) != []
  }

  function RowCategories(rows: seq<CategoryRow>): (r: seq<Option<string>>)
    ensures |r| == |rows|
  {
    seq(|rows|, k requires 0 <= k < |rows| => rows[k].category)
  }

  function RowCounts(rows: seq<CategoryRow>): (r: seq<nat>)
    ensures |r| == |rows|
  {
    seq(|rows|, k requires 0 <= k < |rows| => rows[k].count)
  }

  /** Categories without clean items are omitted and the others keep their
      order: the table's categories are the given ones that have items, and each
      row's count is the number of clean items of its category. */
  lemma {:induction false} CategoryRowsSpec(categories: seq<Option<string>>, clean: seq<FlowItem>, days: int)
    ensures var rows := CategoryRows(categories, clean, days);
      && RowCategories(rows) == Filter(categories, HasItemsMask(clean))
      && forall k :: 0 <= k < |rows| ==> rows[k].count == |ItemsOf(rows[k].category, clean)| > 0
  {
    if categories != [] {
      var init := categories[..|categories| - 1];
      var c := categories[|categories| - 1];
      CategoryRowsSpec(init, clean, days);
      CategoryDetailsSpec(c, clean, days);
      var before := CategoryRows(init, clean, days);
      if ItemsOf(c, clean) != [] {
        var row := CategoryDetails(c, clean, days).value;
        assert RowCategories(before + [row]) == RowCategories(before) + [c];
      }
    }
  }

  /** Each row's count is how often its category occurs in the category column. */
  lemma CategoryRowCounts(categories: seq<Option<string>>, clean: seq<FlowItem>, days: int)
    ensures var rows := CategoryRows(categories, clean, days);
      RowCounts(rows) == CountsPerValue(CategoryColumn(clean), RowCategories(rows))
  {
    var rows := CategoryRows(categories, clean, days);
    CategoryRowsSpec(categories, clean, days);
    forall k | 0 <= k < |rows| ensures RowCounts(rows)[k] == multiset(CategoryColumn(clean))[rows[k].category] {
      CategoryCountIsMultiplicity(rows[k].category, clean);
    }
  }

  /** With the categories of the clean table itself (as preparation computes
      them), exactly the blank category is omitted and the counts add up to the
      number of clean items with a category, which is the total the work mix
      divides by. */
  lemma CategoryCountsCoverCleanTable(clean: seq<FlowItem>, days: int)
    ensures var rows := CategoryRows(Categories(clean), clean, days);
      && RowCategories(rows) == Filter(Categories(clean), NamedMask())
      && Sum(RowCounts(rows)) == |Categorised(clean)|
  {
    var cats := Categories(clean);
    var column := CategoryColumn(clean);
    forall k | 0 <= k < |cats| ensures HasItemsMask(clean)(cats[k]) == NamedMask()(cats[k]) {
      CategoryCountIsMultiplicity(cats[k], clean);
      if cats[k].Some? {
        var i :| 0 <= i < |column| && column[i] == cats[k];
        assert column[i] in multiset(column);
      }
    }
    FilterExtOn(cats, HasItemsMask(clean), NamedMask());
    CategoryRowsSpec(cats, clean, days);
    CategoryRowCounts(cats, clean, days);
    var named := Filter(cats, NamedMask());
    FilterDistinct(cats, NamedMask());
    forall k | 0 <= k < |column| ensures column[k] in named <==> NamedMask()(column[k]) {
      if column[k].Some? {
        var i :| 0 <= i < |cats| && cats[i] == column[k];
      }
      if column[k] in named {
        var i :| 0 <= i < |named| && named[i] == column[k];
      }
    }
    CountsPerValueCoverSelected(column, named, NamedMask());
    CategorisedCount(clean);
  }

  /** One row of the category results: a collected row and its work mix, the
      percentage of all counted items that fall in its category. */
  datatype CategoryResult = CategoryResult(row: CategoryRow, workMix: real)

  /** The work-mix column; `total` is the sum of the counts. */
  function WithWorkMix(rows: seq<CategoryRow>, total: int): (r: seq<CategoryResult>)
    ensures |r| == |rows|
  {
    seq(|rows|, k requires 0 <= k < |rows| =>
      CategoryResult(rows[k], if total == 0 then 0.0 else rows[k].count as real / total as real * 100.0))
  }

  /** The category table `calculate_category_metrics` returns. */
  function CategoryTable(categories: seq<Option<string>>, clean: seq<FlowItem>, days: int): (r: seq<CategoryResult>)
    ensures |r| <= |categories|
    ensures forall k :: 0 <= k < |r| ==> r[k].workMix >= 0.0
  {
    var rows := CategoryRows(categories, clean, days);
    SumNonNegative(RowCounts(rows));
    WithWorkMix(rows, Sum(RowCounts(rows)))
  }

  function WorkMixes(results: seq<CategoryResult>): (r: seq<real>)
    ensures |r| == |results|
  {
    seq(|results|, k requires 0 <= k < |results| => results[k].workMix)
  }

  /** The work mixes are the counts scaled by 100 / total. */
  lemma {:induction false} WorkMixSum(rows: seq<CategoryRow>, total: int)
    requires total > 0
    ensures RealSum(WorkMixes(WithWorkMix(rows, total))) == Sum(RowCounts(rows)) as real / total as real * 100.0
  {
    if rows != [] {
      WorkMixSum(rows[1..], total);
      assert WorkMixes(WithWorkMix(rows, total))[1..] == WorkMixes(WithWorkMix(rows[1..], total));
      assert RowCounts(rows)[1..] == RowCounts(rows[1..]);
      var c, rest := rows[0].count as real, Sum(RowCounts(rows[1..])) as real;
      assert c / total as real * 100.0 + rest / total as real * 100.0 == (c + rest) / total as real * 100.0;
    }
  }

  /** The table built from the clean table's own categories has one row per
      non-blank category, in order of first appearance, each counting that
      category's occurrences. */
  lemma CategoryTableRows(clean: seq<FlowItem>, days: int)
    ensures var table, named := CategoryTable(Categories(clean), clean, days), Filter(Categories(clean), NamedMask());
      && |table| == |named|
      && forall k :: 0 <= k < |table| ==> table[k].row.category == named[k]
                                          && table[k].row.count == multiset(CategoryColumn(clean))[named[k]]
  {
    var rows := CategoryRows(Categories(clean), clean, days);
    CategoryCountsCoverCleanTable(clean, days);
    CategoryRowCounts(Categories(clean), clean, days);
    var named := Filter(Categories(clean), NamedMask());
    forall k | 0 <= k < |rows|
      ensures rows[k].category == named[k]
      ensures rows[k].count == multiset(CategoryColumn(clean))[named[k]]
    {
      assert rows[k].category == RowCategories(rows)[k];
      assert rows[k].count == RowCounts(rows)[k];
    }
  }

  /** Whenever some clean item has a category, the work mixes of the category
      table add up to 100 percent. */
  lemma CategoryTableWorkMix(clean: seq<FlowItem>, days: int)
    requires Categorised(clean) != []
    ensures RealSum(WorkMixes(CategoryTable(Categories(clean), clean, days))) == 100.0
  {
    var rows := CategoryRows(Categories(clean), clean, days);
    CategoryCountsCoverCleanTable(clean, days);
    assert CategoryTable(Categories(clean), clean, days) == WithWorkMix(rows, |Categorised(clean)|);
    WorkMixSum(rows, |Categorised(clean)|);
    WholeIsHundredPercent(|Categorised(clean)|);
  }

  /** The category table is empty exactly when no clean item has a category. */
  lemma CategoryTableEmptyIff(clean: seq<FlowItem>, days: int)
    ensures CategoryTable(Categories(clean), clean, days) == [] <==> Categorised(clean) == []
  {
    var rows := CategoryRows(Categories(clean), clean, days);
    CategoryCountsCoverCleanTable(clean, days);
    CategoryRowsSpec(Categories(clean), clean, days);
    if rows != [] {
      var counts := RowCounts(rows);
      SumNonNegative(counts[1..]);
      assert counts[0] == rows[0].count > 0;
    }
  }

  lemma WholeIsHundredPercent(n: int)
    requires n > 0
    ensures n as real / n as real * 100.0 == 100.0
  {
  }

  /** `calculate_category_metrics`: collect the details of every category that
      has clean items, in the given order, then add the work mix over the summed
      counts. */
  method CategoryMetrics(categories: seq<Option<string>>, clean: seq<FlowItem>, days: int) returns (results: seq<CategoryResult>)
    ensures results == CategoryTable(categories, clean, days)
  {
    var rows: seq<CategoryRow> := [];
    for i := 0 to |categories|
      invariant rows == CategoryRows(categories[..i], clean, days)
    {
      assert categories[..i + 1][..i] == categories[..i];
      var details := CategoryDetails(categories[i], clean, days);
      if details.Some? {
        rows := rows + [details.value];
      }
    }
    assert categories[..|categories|] == categories;
    results := WithWorkMix(rows, Sum(RowCounts(rows)));
  }

  // ===========================================================================
  // Sprint lookup
  // ===========================================================================

  /** One row of the sprint table. */
  datatype Sprint = Sprint(name: string, startDate: int, endDate: int)

  /** The sprint-table column to read a date from. */
  datatype SprintColumn = StartDateColumn | EndDateColumn

  function SprintDate(s: Sprint, c: SprintColumn): int
  {
    match c
    case StartDateColumn => s.startDate
    case EndDateColumn => s.endDate
  }

  /** The position of the first sprint with the given name. */
  function FirstMatchingSprint(sprints: seq<Sprint>, name: string): (r: Option<nat>)
    ensures r.None? <==> forall j :: 0 <= j < |sprints| ==> sprints[j].name != name
    ensures r.Some? ==> (r.value < |sprints| && sprints[r.value].name == name
                         && forall j :: 0 <= j < r.value ==> sprints[j].name != name)
  {
    if sprints == [] then None
    else if sprints[0].name == name then Some(0)
    else match FirstMatchingSprint(sprints[1..], name)
      case None => None
      case Some(i) => Some(i + 1)
  }

  /** The errors the calculator records; `Message` gives the text it shows. */
  datatype FlowError = NoData | NoMatchingDates(sprintName: string, column: SprintColumn)

  function Message(e: FlowError): string
  {
    match e
    case NoData => "No data to run flow metrics against. Select valid Sprint range"
    case NoMatchingDates(name, column) =>
      "No matching dates found for " + name + " in the "
      + (match column case StartDateColumn => "StartDate" case EndDateColumn => "EndDate") + " column"
  }

  /** The summary table of `final_values_preparation` (dates as day numbers). */
  datatype FlowStats = FlowStats(startDate: int, endDate: int, days: int, completedItems: nat, inProgressItems: nat)

  /** The table `run_flow_metrics` builds. */
  datatype FlowResults = FlowResults(avgLeadTime: Option<real>, weeklyThroughput: Option<real>,
                                     avgWip: Option<real>, wipViolations: nat, violationPercent: Option<real>)

  // ===========================================================================
  // The calculator object
  // ===========================================================================

  /** `FlowCalcClass`: the calculator's state. The input table, which the source
      reads from a module-level global, is a constructor argument; so are the two
      range dates, which the source parses from text. `raised` holds the
      exception a step lets escape, after which the caller runs nothing more
      (the source propagates it out of `prep_for_metrics`). `goodForGo` and
      `globalErrors` stand for the globals `GOOD_FOR_GO` and `GLOBAL_ERROR_MSG`,
      whose values when the calculator is made are also arguments. */
  class FlowCalc {
    const input: FlowTable
    const startDate: int
    const endDate: int
    const dailyWipLimit: int
    const categoriesColumn: string

    var prepGoingGood: bool
    var calcsGoingGood: bool
    var errors: seq<FlowError>
    var categoryCalcToggle: bool
    var cleanRows: seq<FlowItem>
    var wipRows: seq<FlowItem>
    var dates: seq<int>
    var wipPerDay: seq<nat>
    var categories: seq<Option<string>>
    var numberOfFinishedItems: nat
    var numberOfDays: int
    var stats: Option<FlowStats>
    var results: Option<FlowResults>
    var categoryResults: seq<CategoryResult>
    var goodForGo: bool
    var globalErrors: seq<FlowError>
    var raised: Option<Exception>

    /** `__init__`: the category metrics are on when a category column is named. */
    constructor (input: FlowTable, startDate: int, endDate: int, wipLimit: int, categoriesColumn: string,
                 goodForGo: bool, globalErrors: seq<FlowError>)
      ensures this.input == input && this.startDate == startDate && this.endDate == endDate
      ensures dailyWipLimit == wipLimit && this.categoriesColumn == categoriesColumn
      ensures categoryCalcToggle <==> categoriesColumn != ""
      ensures prepGoingGood && calcsGoingGood && errors == []
      ensures cleanRows == [] && wipRows == [] && dates == [] && wipPerDay == [] && categories == []
      ensures numberOfFinishedItems == 0 && numberOfDays == 0
      ensures stats == None && results == None && categoryResults == []
      ensures this.goodForGo == goodForGo && this.globalErrors == globalErrors && raised == None
    {
      this.input := input;
      this.startDate := startDate;
      this.endDate := endDate;
      dailyWipLimit := wipLimit;
      this.categoriesColumn := categoriesColumn;
      prepGoingGood := true;
      calcsGoingGood := true;
      errors := [];
      categoryCalcToggle := categoriesColumn != "";
      cleanRows := [];
      wipRows := [];
      dates := [];
      wipPerDay := [];
      categories := [];
      numberOfFinishedItems := 0;
      numberOfDays := 0;
      stats := None;
      results := None;
      categoryResults := [];
      this.goodForGo := goodForGo;
      this.globalErrors := globalErrors;
      raised := None;
    }

    /** `find_matching_sprint_date`: the date of the first sprint with that name;
        without one, the error is recorded and preparation stops. */
    method FindMatchingSprintDate(sprints: seq<Sprint>, name: string, column: SprintColumn) returns (date: Option<int>)
      modifies this`errors, this`prepGoingGood
      ensures var i := FirstMatchingSprint(sprints, name);
        && (i.Some? ==> date == Some(SprintDate(sprints[i.value], column))
                        && errors == old(errors) && prepGoingGood == old(prepGoingGood))
        && (i.None? ==> date == None && errors == old(errors) + [NoMatchingDates(name, column)] && !prepGoingGood)
    {
      match FirstMatchingSprint(sprints, name)
      case Some(i) =>
        date := Some(SprintDate(sprints[i], column));
      case None =>
        errors := errors + [NoMatchingDates(name, column)];
        prepGoingGood := false;
        date := None;
    }

    /** `build_clean_dataframe`: selecting the start, end and category columns
        raises `KeyError` when no category column is named, whatever the rows;
        otherwise an empty result records the error and stops preparation and a
        non-empty one marks preparation as going well. */
    method BuildCleanDataframe()
      modifies this`cleanRows, this`errors, this`prepGoingGood, this`raised
      ensures categoriesColumn == "" ==>
        && raised == Some(KeyError(""))
        && cleanRows == old(cleanRows) && errors == old(errors) && prepGoingGood == old(prepGoingGood)
      ensures var clean := CleanItems(input, startDate, endDate);
        categoriesColumn != "" ==>
          && raised == old(raised)
          && (clean == [] ==> cleanRows == [] && errors == old(errors) + [NoData] && !prepGoingGood)
          && (clean != [] ==> cleanRows == clean && errors == old(errors) && prepGoingGood)
    {
      if categoriesColumn == "" {
        raised := Some(KeyError(""));
        return;
      }
      var clean := CleanItems(input, startDate, endDate);
      if |clean| == 0 {
        errors := errors + [NoData];
        prepGoingGood := false;
        cleanRows := [];
      } else {
        prepGoingGood := true;
        cleanRows := clean;
      }
    }

    /** `build_wip_dataframe`: the same column selection raises `KeyError` when
        no category column is named. */
    method BuildWipDataframe()
      modifies this`wipRows, this`raised
      ensures categoriesColumn == "" ==> raised == Some(KeyError("")) && wipRows == old(wipRows)
      ensures categoriesColumn != "" ==> raised == old(raised) && wipRows == WipItems(input, endDate)
    {
      if categoriesColumn == "" {
        raised := Some(KeyError(""));
        return;
      }
      wipRows := WipItems(input, endDate);
    }

    /** `build_dates_dataframe`: one row per day of the range with WIP 0. */
    method BuildDatesDataframe()
      modifies this`dates, this`wipPerDay, this`prepGoingGood
      ensures dates == DayRange(startDate, endDate) && wipPerDay == seq(|dates|, i => 0) && prepGoingGood
    {
      dates := DayRange(startDate, endDate);
      wipPerDay := seq(|dates|, i => 0);
      prepGoingGood := true;
    }

    /** `prep_categories`: no categories switch the category metrics off. */
    method PrepCategories()
      modifies this`categories, this`categoryCalcToggle, this`prepGoingGood
      ensures categories == Categories(cleanRows) && prepGoingGood
      ensures categoryCalcToggle == (old(categoryCalcToggle) && categories != [])
    {
      categories := Categories(cleanRows);
      if |categories| == 0 {
        categoryCalcToggle := false;
      }
      prepGoingGood := true;
    }

    /** `final_values_preparation`. */
    method FinalValuesPreparation()
      modifies this`numberOfFinishedItems, this`numberOfDays, this`stats
      ensures numberOfFinishedItems == |cleanRows| && numberOfDays == NumberOfDays(startDate, endDate)
      ensures stats == Some(FlowStats(startDate, endDate, numberOfDays, numberOfFinishedItems, |wipRows|))
    {
      numberOfFinishedItems := |cleanRows|;
      numberOfDays := NumberOfDays(startDate, endDate);
      stats := Some(FlowStats(startDate, endDate, numberOfDays, numberOfFinishedItems, |wipRows|));
    }

    /** The steps of `prep_for_metrics` after a non-empty clean table: the WIP
        table, the day table, the categories (when category metrics are on) and
        the summary values; none of them clears the flag. They are reached only
        when the clean-table step did not raise, so a category column is named. */
    method PrepAfterCleanTable()
      requires categoriesColumn != ""
      modifies this`raised, this`prepGoingGood, this`wipRows, this`dates, this`wipPerDay, this`categories,
               this`categoryCalcToggle, this`numberOfFinishedItems, this`numberOfDays, this`stats
      ensures prepGoingGood && wipRows == WipItems(input, endDate) && raised == old(raised)
      ensures dates == DayRange(startDate, endDate) && wipPerDay == seq(|dates|, i => 0)
      ensures old(categoryCalcToggle) ==> categories == Categories(cleanRows)
      ensures !old(categoryCalcToggle) ==> categories == old(categories)
      ensures categoryCalcToggle <==> old(categoryCalcToggle) && Categories(cleanRows) != []
      ensures numberOfFinishedItems == |cleanRows| && numberOfDays == NumberOfDays(startDate, endDate)
      ensures stats == Some(FlowStats(startDate, endDate, numberOfDays, |cleanRows|, |wipRows|))
    {
      BuildWipDataframe();
      BuildDatesDataframe();
      if categoryCalcToggle {
        PrepCategories();
      }
      FinalValuesPreparation();
    }

    /** `prep_for_metrics`: the preparation steps, each run only while
        preparation is going well; success sets `GOOD_FOR_GO`, failure publishes
        the errors. Only the clean-table step can clear the flag, so the later
        steps run exactly when that one succeeded. Without a category column the
        clean-table step raises `KeyError`, which escapes before either global is
        touched. */
    method PrepForMetrics()
      modifies this`cleanRows, this`errors, this`prepGoingGood, this`wipRows, this`dates, this`wipPerDay,
               this`categories, this`categoryCalcToggle, this`numberOfFinishedItems, this`numberOfDays,
               this`stats, this`goodForGo, this`globalErrors, this`raised
      ensures old(prepGoingGood) && categoriesColumn == "" ==>
        && raised == Some(KeyError("")) && prepGoingGood && errors == old(errors) && cleanRows == old(cleanRows)
        && goodForGo == old(goodForGo) && globalErrors == old(globalErrors)
      ensures var clean := CleanItems(input, startDate, endDate);
        !(old(prepGoingGood) && categoriesColumn == "") ==>
          && raised == old(raised)
          && (prepGoingGood <==> old(prepGoingGood) && clean != [])
          && (old(prepGoingGood) && clean == [] ==> errors == old(errors) + [NoData])
          && (!prepGoingGood ==> globalErrors == errors && goodForGo == old(goodForGo))
          && (prepGoingGood ==>
                && cleanRows == clean && wipRows == WipItems(input, endDate)
                && dates == DayRange(startDate, endDate) && wipPerDay == seq(|dates|, i => 0)
                && (old(categoryCalcToggle) ==> categories == Categories(clean))
                && (categoryCalcToggle <==> old(categoryCalcToggle) && Categories(clean) != [])
                && numberOfFinishedItems == |clean| && numberOfDays == NumberOfDays(startDate, endDate)
                && stats == Some(FlowStats(startDate, endDate, numberOfDays, |clean|, |wipRows|))
                && errors == old(errors) && goodForGo && globalErrors == old(globalErrors))
    {
      ghost var published := globalErrors;
      if prepGoingGood {
        BuildCleanDataframe();
        if categoriesColumn == "" {
          return;
        }
      }
      if prepGoingGood {
        PrepAfterCleanTable();
        assert globalErrors == published;
        goodForGo := true;
      } else {
        globalErrors := errors;
      }
    }

    /** `calculate_average_wip`: fill the WIP column day by day and average it. */
    method CalculateAverageWip() returns (avg: Option<real>)
      modifies this`wipPerDay, this`calcsGoingGood
      ensures wipPerDay == WipColumn(dates, cleanRows, wipRows) && calcsGoingGood
      ensures avg == Mean(wipPerDay)
    {
      var column: seq<nat> := [];
      for i := 0 to |dates|
        invariant |column| == i
        invariant forall k :: 0 <= k < i ==> column[k] == WipOnDate(dates[k], cleanRows, wipRows)
      {
        column := column + [WipOnDate(dates[i], cleanRows, wipRows)];
      }
      wipPerDay := column;
      calcsGoingGood := true;
      avg := Mean(wipPerDay);
    }

    /** `run_flow_metrics`, which the application calls only while
        `GOOD_FOR_GO` is set: the four metrics and the violation percentage,
        then the category table when category metrics are on. */
    method RunFlowMetrics()
      requires goodForGo
      modifies this`wipPerDay, this`calcsGoingGood, this`results, this`categoryResults
      ensures wipPerDay == WipColumn(dates, cleanRows, wipRows) && calcsGoingGood
      ensures var violations := WipViolations(wipPerDay, dailyWipLimit);
        results == Some(FlowResults(AverageLeadTime(cleanRows, numberOfFinishedItems),
                                    WeeklyThroughput(numberOfFinishedItems, numberOfDays),
                                    Mean(wipPerDay), violations, ViolationPercent(violations, numberOfDays)))
      ensures categoryResults == if categoryCalcToggle then CategoryTable(categories, cleanRows, numberOfDays)
                                 else old(categoryResults)
    {
      var leadTime := AverageLeadTime(cleanRows, numberOfFinishedItems);
      var throughput := WeeklyThroughput(numberOfFinishedItems, numberOfDays);
      calcsGoingGood := true;
      var avgWip := CalculateAverageWip();
      var violations := WipViolations(wipPerDay, dailyWipLimit);
      results := Some(FlowResults(leadTime, throughput, avgWip, violations, ViolationPercent(violations, numberOfDays)));
      if calcsGoingGood && categoryCalcToggle {
        categoryResults := CategoryMetrics(categories, cleanRows, numberOfDays);
      }
    }
  }
}
