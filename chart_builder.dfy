/** The chart builder (ChartBuilderClass.py).

    Preparation keeps the items that are not cancelled and have reached the start
    phase, converts the phase columns between the chosen start and end column to
    dates, back-fills each item's missing phase dates from the right, renames the
    phase columns `<1-based position>_<name>`, optionally drops items finished
    before the chart's start date, and lays out one row per day up to today. The
    chart tables are the cumulative flow (per phase, per day, how many items had
    reached it), its start/end vectors, the aging-WIP table (each item's current
    phase, its days per phase and its age), the run table (work in progress and
    throughput per day) and the throughput histogram. Dates are day numbers and
    "today" is a parameter. */
module ChartBuilder {
  import opened Common

  // ===========================================================================
  // Input and clean rows
  // ===========================================================================

  /** One input row: its `Cancelled` cell, its name and the cells of the phase
      columns from the start column to the end column, in column order. */
  datatype ChartRecord = ChartRecord(cancelled: Option<string>, name: string, phases: seq<DateCell>)

  /** The input table: whether it has a `Cancelled` column, the names of the
      phase columns from start to end, and its rows. */
  datatype ChartTable = ChartTable(hasCancelledColumn: bool, phaseNames: seq<string>, rows: seq<ChartRecord>)

  /** A table whose start column does not lie right of its end column, so there
      is at least one phase, and in which every row has a cell per phase. */
  predicate WellFormed(t: ChartTable)
  {
    |t.phaseNames| > 0 && forall i :: 0 <= i < |t.rows| ==> |t.rows[i].phases| == |t.phaseNames|
  }

  /** A clean row: the item's name and its (back-filled) phase dates. */
  datatype ChartItem = ChartItem(name: string, dates: seq<Option<int>>)

  predicate NotCancelled(t: ChartTable, r: ChartRecord)
  {
    !t.hasCancelledColumn || r.cancelled != Some("Yes")
  }

  /** The start cell is not null (an empty or non-date cell passes here and
      becomes NaT on conversion). */
  predicate StartPresent(r: ChartRecord)
  {
    |r.phases| > 0 && !r.phases[0].Null?
  }

  function StartPresentMask(): ChartRecord -> bool
  {
    r => StartPresent(r)
  }

  function KeepMask(t: ChartTable): ChartRecord -> bool
  {
    r => NotCancelled(t, r) && StartPresent(r)
  }

  /** The cancel mask: the `Cancelled` cell is not `Yes`. */
  function CancelMask(): ChartRecord -> bool
  {
    (r: ChartRecord) => r.cancelled != Some("Yes")
  }

  /** The two masks of `build_clean_df`: not cancelled (when the column
      exists), then a non-null start cell. */
  function KeptRecords(t: ChartTable): (r: seq<ChartRecord>)
    ensures |r| <= |t.rows|
    ensures forall k :: 0 <= k < |r| ==> StartPresent(r[k])
  {
    var notCancelled := if t.hasCancelledColumn then Filter(t.rows, CancelMask()) else t.rows;
    Filter(notCancelled, StartPresentMask())
  }

  /** The kept rows are those that pass both masks, in their input order. */
  lemma KeptRecordsSpec(t: ChartTable)
    ensures KeptRecords(t) == Filter(t.rows, KeepMask(t))
    ensures var kept := KeptPositions(t.rows, KeepMask(t));
      && |KeptRecords(t)| == |kept|
      && forall k :: 0 <= k < |kept| ==> KeptRecords(t)[k] == t.rows[kept[k]]
  {
    if t.hasCancelledColumn {
      FilterFilter(t.rows, CancelMask(), StartPresentMask(), KeepMask(t));
    } else {
      FilterExt(t.rows, StartPresentMask(), KeepMask(t));
    }
    FilterKeepsOrder(t.rows, KeepMask(t));
  }

  // ===========================================================================
  // Back-filling phase dates
  // ===========================================================================

  /** `fillna_dates`: `fillna(axis=1, method='bfill')`, each missing date takes
      the next date to its right. */
  function BackFill(cells: seq<Option<int>>): (r: seq<Option<int>>)
    ensures |r| == |cells|
  {
    if cells == [] then []
    else
      var rest := BackFill(cells[1..]);
      [if cells[0].Some? || rest == [] then cells[0] else rest[0]] + rest
  }

  /** Position by position: a date stays, a gap takes the filled value of the
      next position, and a gap in the last position stays a gap. */
  lemma {:induction false} BackFillAt(cells: seq<Option<int>>, i: nat)
    requires i < |cells|
    ensures BackFill(cells)[i]
      == if cells[i].Some? then cells[i] else if i + 1 < |cells| then BackFill(cells)[i + 1] else None
  {
    if i > 0 {
      BackFillAt(cells[1..], i - 1);
    }
  }

  /** After back-filling a phase has no date exactly when neither it nor any
      later phase had one. */
  lemma {:induction false} BackFillNoneIff(cells: seq<Option<int>>, i: nat)
    requires i < |cells|
    ensures BackFill(cells)[i].None? <==> forall j :: i <= j < |cells| ==> cells[j].None?
    decreases |cells| - i
  {
    BackFillAt(cells, i);
    if i + 1 < |cells| {
      BackFillNoneIff(cells, i + 1);
    }
  }

  /** A gap left after back-filling is followed only by gaps. */
  lemma BackFillGapsAreTrailing(cells: seq<Option<int>>, i: nat, j: nat)
    requires i <= j < |cells|
    requires BackFill(cells)[i].None?
    ensures BackFill(cells)[j].None?
  {
    BackFillNoneIff(cells, i);
    BackFillNoneIff(cells, j);
  }

  /** A filled date is the first date at or right of its position. */
  lemma {:induction false} BackFillTakesNextDate(cells: seq<Option<int>>, i: nat)
    requires i < |cells| && BackFill(cells)[i].Some?
    ensures exists j :: i <= j < |cells| && cells[j] == BackFill(cells)[i]
                        && forall k :: i <= k < j ==> cells[k].None?
    decreases |cells| - i
  {
    BackFillAt(cells, i);
    if cells[i].None? {
      BackFillTakesNextDate(cells, i + 1);
      var j :| i + 1 <= j < |cells| && cells[j] == BackFill(cells)[i + 1]
               && forall k :: i + 1 <= k < j ==> cells[k].None?;
      assert forall k :: i <= k < j ==> cells[k].None?;
    }
  }

  /** Back-filling twice changes nothing. */
  lemma BackFillIdempotent(cells: seq<Option<int>>)
    ensures BackFill(BackFill(cells)) == BackFill(cells)
  {
    var once := BackFill(cells);
    forall i | 0 <= i < |once| ensures BackFill(once)[i] == once[i] {
      if once[i].None? {
        BackFillNoneIff(once, i);
        forall j | i <= j < |once| ensures once[j].None? {
          BackFillGapsAreTrailing(cells, i, j);
        }
      } else {
        BackFillAt(once, i);
      }
    }
  }

  // ===========================================================================
  // Column renaming
  // ===========================================================================

  function Digit(d: nat): char
    requires d < 10
  {
    ('0' as int + d) as char
  }

  /** The decimal numeral of `n`, as an f-string writes it. */
  function Decimal(n: nat): (s: string)
    ensures |s| > 0 && forall k :: 0 <= k < |s| ==> '0' <= s[k] <= '9'
    ensures n >= 10 ==> |s| >= 2
  {
    if n < 10 then [Digit(n)] else Decimal(n / 10) + [Digit(n % 10)]
  }

  /** Different numbers have different numerals. */
  lemma {:induction false} DecimalInjective(a: nat, b: nat)
    ensures Decimal(a) == Decimal(b) ==> a == b
  {
    if a >= 10 && b >= 10 {
      var da, db := Decimal(a), Decimal(b);
      assert da[..|da| - 1] == Decimal(a / 10) && db[..|db| - 1] == Decimal(b / 10);
      assert da[|da| - 1] == Digit(a % 10) && db[|db| - 1] == Digit(b % 10);
      DecimalInjective(a / 10, b / 10);
    }
  }

  /** The column names after `build_clean_df` renames the phases
      `<1-based position>_<name>`. */
  function Renamed(names: seq<string>): (r: seq<string>)
    ensures |r| == |names|
  {
    seq(|names|, i requires 0 <= i < |names| => Decimal(i + 1) + "_" + names[i])
  }

  /** Renamed columns are pairwise different even where the original names
      repeat, so selecting the phase columns by label is unambiguous. */
  lemma RenamedDistinct(names: seq<string>)
    ensures Distinct(Renamed(names))
  {
    var r := Renamed(names);
    forall i, j | 0 <= i < j < |r| ensures r[i] != r[j] {
      var a, b := Decimal(i + 1), Decimal(j + 1);
      assert r[i] == a + "_" + names[i] && r[j] == b + "_" + names[j];
      if |a| == |b| {
        DecimalInjective(i + 1, j + 1);
        assert r[i][..|a|] == a && r[j][..|a|] == b;
      } else if |a| < |b| {
        assert r[i][|a|] == '_' && r[j][|a|] == b[|a|];
      } else {
        assert r[j][|b|] == '_' && r[i][|b|] == a[|b|];
      }
    }
  }

  // ===========================================================================
  // The clean table
  // ===========================================================================

  /** A kept row after date conversion and back-filling. */
  function ToItem(r: ChartRecord): (x: ChartItem)
    ensures |x.dates| == |r.phases|
  {
    ChartItem(r.name, BackFill(seq(|r.phases|, k requires 0 <= k < |r.phases| => Coerce(r.phases[k]))))
  }

  /** The clean table of `build_clean_df`. */
  function CleanItems(t: ChartTable): (r: seq<ChartItem>)
    ensures |r| == |KeptRecords(t)|
  {
    var kept := KeptRecords(t);
    seq(|kept|, k requires 0 <= k < |kept| => ToItem(kept[k]))
  }

  /** Every row of a table has one date per phase. */
  predicate Shaped(items: seq<ChartItem>, phases: nat)
  {
    forall i :: 0 <= i < |items| ==> |items[i].dates| == phases
  }

  lemma CleanItemsShaped(t: ChartTable)
    requires WellFormed(t)
    ensures Shaped(CleanItems(t), |t.phaseNames|)
  {
    var kept := KeptRecords(t);
    forall k | 0 <= k < |kept| ensures |kept[k].phases| == |t.phaseNames| {
      KeptRecordsSpec(t);
    }
  }

  /** The start date: the first phase date. */
  function Start(x: ChartItem): Option<int>
  {
    if x.dates == [] then None else x.dates[0]
  }

  /** The end date: the last phase date. */
  function End(x: ChartItem): Option<int>
  {
    if x.dates == [] then None else x.dates[|x.dates| - 1]
  }

  /** The mask of `filter_clean_df_to_start_date`: no end date, or an end date on
      or after the chart's start date. */
  function OnOrAfterMask(chartStart: int): ChartItem -> bool
  {
    (x: ChartItem) => End(x).None? || End(x).value >= chartStart
  }

  /** The start-date filter keeps exactly the rows without an end date or
      finished on or after the chart's start, in their order, and applying it
      again changes nothing. */
  lemma StartDateFilterSpec(items: seq<ChartItem>, chartStart: int)
    ensures var r := Filter(items, OnOrAfterMask(chartStart));
      && (forall k :: 0 <= k < |r| ==> End(r[k]).None? || End(r[k]).value >= chartStart)
      && (forall i :: 0 <= i < |items| && (End(items[i]).None? || End(items[i]).value >= chartStart) ==> items[i] in r)
      && Filter(r, OnOrAfterMask(chartStart)) == r
  {
    var r := Filter(items, OnOrAfterMask(chartStart));
    FilterAll(r, OnOrAfterMask(chartStart));
  }

  /** The mask of `build_completed_df`: the item has an end date. */
  function DoneMask(): ChartItem -> bool
  {
    (x: ChartItem) => End(x).Some?
  }

  // ===========================================================================
  // The builtin min() of the start column
  // ===========================================================================

  /** Python's `<` on dates: a comparison with NaT is false. */
  predicate Before(a: Option<int>, b: Option<int>)
  {
    a.Some? && b.Some? && a.value < b.value
  }

  /** Python's builtin `min()` over a column: it keeps the first value and
      replaces it by each later value that compares below it. */
  function BuiltinMin(s: seq<Option<int>>): (m: Option<int>)
    requires s != []
    ensures m in s
  {
    if |s| == 1 then s[0]
    else
      var m := BuiltinMin(s[..|s| - 1]);
      if Before(s[|s| - 1], m) then s[|s| - 1] else m
  }

  /** A NaT in first place is never replaced: the minimum is NaT exactly when
      the first value is. Otherwise it is the least date of the column. */
  lemma {:induction false} BuiltinMinSpec(s: seq<Option<int>>)
    requires s != []
    ensures BuiltinMin(s).None? <==> s[0].None?
    ensures BuiltinMin(s).Some? ==> (BuiltinMin(s) in s
      && forall k :: 0 <= k < |s| && s[k].Some? ==> BuiltinMin(s).value <= s[k].value)
  {
    if |s| > 1 {
      var init := s[..|s| - 1];
      BuiltinMinSpec(init);
      assert init[0] == s[0];
    }
  }

  // ===========================================================================
  // Daily counts: cumulative flow, work in progress, throughput
  // ===========================================================================

  /** Phase `c` holds a date on or before day `d`. */
  function ReachedMask(c: nat, d: int): ChartItem -> bool
  {
    (x: ChartItem) => c < |x.dates| && x.dates[c].Some? && x.dates[c].value <= d
  }

  /** `calc_completed_on_date`: the items that had reached phase `c` by day `d`. */
  function CompletedOnDate(items: seq<ChartItem>, c: nat, d: int): (n: nat)
    ensures n <= |items|
  {
    |Filter(items, ReachedMask(c, d))|
  }

  /** The cumulative flow never falls: a later day counts at least as many
      items in every phase. */
  lemma CompletedOnDateMonotone(items: seq<ChartItem>, c: nat, d1: int, d2: int)
    requires d1 <= d2
    ensures CompletedOnDate(items, c, d1) <= CompletedOnDate(items, c, d2)
  {
    FilterCountMonotone(items, ReachedMask(c, d1), ReachedMask(c, d2));
  }

  /** `calc_in_progress_on_date`: started on or before `d`, and either not
      finished or finished after `d`. */
  function InProgressMask(d: int): ChartItem -> bool
  {
    (x: ChartItem) => Start(x).Some? && Start(x).value <= d && (End(x).None? || End(x).value > d)
  }

  function InProgressOnDate(items: seq<ChartItem>, d: int): (n: nat)
    ensures n <= |items|
  {
    |Filter(items, InProgressMask(d))|
  }

  /** `calc_throughput_on_date`: finished on day `d`. */
  function FinishedOnMask(d: int): ChartItem -> bool
  {
    (x: ChartItem) => End(x) == Some(d)
  }

  function ThroughputOnDate(items: seq<ChartItem>, d: int): (n: nat)
    ensures n <= |items|
  {
    |Filter(items, FinishedOnMask(d))|
  }

  function StartedByMask(d: int): ChartItem -> bool
  {
    (x: ChartItem) => Start(x).Some? && Start(x).value <= d
  }

  function StartedAndDoneByMask(d: int): ChartItem -> bool
  {
    (x: ChartItem) => Start(x).Some? && Start(x).value <= d && End(x).Some? && End(x).value <= d
  }

  /** The items started by day `d` split into those in progress on `d` and
      those also finished by then. */
  lemma StartedSplit(items: seq<ChartItem>, d: int)
    ensures |Filter(items, StartedByMask(d))|
      == InProgressOnDate(items, d) + |Filter(items, StartedAndDoneByMask(d))|
  {
    FilterCountDisjointUnion(items, InProgressMask(d), StartedAndDoneByMask(d), StartedByMask(d));
  }

  /** In the end phase, the cumulative count grows from one day to the next by
      exactly that day's throughput. */
  lemma ThroughputIsCumulativeStep(items: seq<ChartItem>, phases: nat, d: int)
    requires phases > 0 && Shaped(items, phases)
    ensures CompletedOnDate(items, phases - 1, d) == CompletedOnDate(items, phases - 1, d - 1) + ThroughputOnDate(items, d)
  {
    forall k | 0 <= k < |items|
      ensures End(items[k]) == items[k].dates[phases - 1]
    {
    }
    FilterCountDisjointUnion(items, ReachedMask(phases - 1, d - 1), FinishedOnMask(d), ReachedMask(phases - 1, d));
  }

  // ===========================================================================
  // Cumulative-flow table and vectors
  // ===========================================================================

  /** One column of the cumulative-flow table: per day, the items that had
      reached phase `c`. */
  function CfdColumn(items: seq<ChartItem>, c: nat, dates: seq<int>): (r: seq<nat>)
    ensures |r| == |dates|
  {
    seq(|dates|, i requires 0 <= i < |dates| => CompletedOnDate(items, c, dates[i]))
  }

  predicate Ascending(dates: seq<int>)
  {
    forall i, j :: 0 <= i <= j < |dates| ==> dates[i] <= dates[j]
  }

  /** Over ascending days a cumulative-flow column is non-decreasing. */
  lemma CfdColumnNonDecreasing(items: seq<ChartItem>, c: nat, dates: seq<int>)
    requires Ascending(dates)
    ensures var col := CfdColumn(items, c, dates);
      forall i, j :: 0 <= i <= j < |col| ==> col[i] <= col[j]
  {
    forall i, j | 0 <= i <= j < |dates| ensures CompletedOnDate(items, c, dates[i]) <= CompletedOnDate(items, c, dates[j]) {
      CompletedOnDateMonotone(items, c, dates[i], dates[j]);
    }
  }

  /** The position of the first positive count. */
  function FirstPositive(col: seq<nat>): (r: Option<nat>)
    ensures r.None? <==> forall i :: 0 <= i < |col| ==> col[i] == 0
    ensures r.Some? ==> (r.value < |col| && col[r.value] > 0 && forall i :: 0 <= i < r.value ==> col[i] == 0)
  {
    if col == [] then None
    else if col[0] > 0 then Some(0)
    else match FirstPositive(col[1..])
      case None => None
      case Some(i) => Some(i + 1)
  }

  /** One row of the cumulative-flow vectors. */
  datatype CfdVector = CfdVector(status: string, date: int, count: nat)

  /** The two vectors of one column: from its first day with a positive count to
      its last day; None when no day has one. */
  function ColumnVectors(name: string, col: seq<nat>, dates: seq<int>): (r: Option<seq<CfdVector>>)
    requires |col| == |dates|
    ensures r.None? <==> forall i :: 0 <= i < |col| ==> col[i] == 0
  {
    match FirstPositive(col)
    case None => None
    case Some(i) => Some([CfdVector(name, dates[i], col[i]), CfdVector(name, dates[|dates| - 1], col[|col| - 1])])
  }

  /** The vector of a non-decreasing column rises: it starts at the first
      positive count, on or before its end date, and ends no lower. */
  lemma ColumnVectorsRise(name: string, col: seq<nat>, dates: seq<int>)
    requires |col| == |dates|
    requires Ascending(dates)
    requires forall i, j :: 0 <= i <= j < |col| ==> col[i] <= col[j]
    requires ColumnVectors(name, col, dates).Some?
    ensures var v := ColumnVectors(name, col, dates).value;
      && v[0].status == name && v[1].status == name
      && 0 < v[0].count <= v[1].count && v[0].date <= v[1].date
      && forall i :: 0 <= i < |dates| && dates[i] < v[0].date ==> col[i] == 0
  {
    var i := FirstPositive(col).value;
    forall k | 0 <= k < |dates| && dates[k] < dates[i] ensures col[k] == 0 {
      assert k < i;
    }
  }

  /** The vectors of the first `n` columns, two per column; None as soon as a
      column has no positive count. */
  function VectorsUpTo(names: seq<string>, cfd: seq<seq<nat>>, dates: seq<int>, n: nat): (r: Option<seq<CfdVector>>)
    requires n <= |names| == |cfd|
    requires forall c :: 0 <= c < |cfd| ==> |cfd[c]| == |dates|
    ensures r.Some? ==> |r.value| == 2 * n
  {
    if n == 0 then Some([])
    else match VectorsUpTo(names, cfd, dates, n - 1)
      case None => None
      case Some(v) =>
        match ColumnVectors(names[n - 1], cfd[n - 1], dates)
        case None => None
        case Some(w) => Some(v + w)
  }

  /** Succeeding, the vectors are two per column, in column order. */
  lemma {:induction false} VectorsUpToSpec(names: seq<string>, cfd: seq<seq<nat>>, dates: seq<int>, n: nat)
    requires n <= |names| == |cfd|
    requires forall c :: 0 <= c < |cfd| ==> |cfd[c]| == |dates|
    ensures VectorsUpTo(names, cfd, dates, n).Some? <==> forall c :: 0 <= c < n ==> ColumnVectors(names[c], cfd[c], dates).Some?
    ensures VectorsUpTo(names, cfd, dates, n).Some? ==>
      var v := VectorsUpTo(names, cfd, dates, n).value;
      |v| == 2 * n && forall c :: 0 <= c < n ==> v[2 * c..2 * c + 2] == ColumnVectors(names[c], cfd[c], dates).value
  {
    if n > 0 {
      VectorsUpToSpec(names, cfd, dates, n - 1);
    }
  }

  // ===========================================================================
  // Aging WIP
  // ===========================================================================

  /** The dates `build_aging_wip_df` computes with: each missing date replaced
      by today. */
  function TodayFilled(x: ChartItem, today: int): (r: seq<int>)
    ensures |r| == |x.dates|
  {
    seq(|x.dates|, k requires 0 <= k < |x.dates| => if x.dates[k].Some? then x.dates[k].value else today)
  }

  /** The days an item spent in phase `c`: until the next phase's date, or none
      for the last phase. */
  function PhaseDays(x: ChartItem, c: nat, today: int): int
    requires c < |x.dates|
  {
    var f := TodayFilled(x, today);
    if c + 1 < |f| then f[c + 1] - f[c] else 0
  }

  /** The status after the status loop has seen the first `n` phase columns:
      the last of them that holds a date, or the empty string. */
  function StatusUpTo(x: ChartItem, names: seq<string>, n: nat): (r: string)
    requires n <= |x.dates| && n <= |names|
    ensures r == "" || r in names
  {
    if n == 0 then ""
    else if x.dates[n - 1].Some? then names[n - 1]
    else StatusUpTo(x, names, n - 1)
  }

  /** The status is the name of the last phase that holds a date; it is empty
      exactly when no phase does. */
  lemma {:induction false} StatusUpToSpec(x: ChartItem, names: seq<string>, n: nat)
    requires n <= |x.dates| && n <= |names|
    requires forall c :: 0 <= c < |names| ==> names[c] != ""
    ensures StatusUpTo(x, names, n) == "" <==> forall c :: 0 <= c < n ==> x.dates[c].None?
    ensures StatusUpTo(x, names, n) != "" ==>
      exists c :: 0 <= c < n && x.dates[c].Some? && StatusUpTo(x, names, n) == names[c]
                  && forall k :: c < k < n ==> x.dates[k].None?
  {
    if n > 0 {
      if x.dates[n - 1].Some? {
        assert StatusUpTo(x, names, n) == names[n - 1];
      } else {
        StatusUpToSpec(x, names, n - 1);
        if StatusUpTo(x, names, n - 1) != "" {
          var c :| 0 <= c < n - 1 && x.dates[c].Some? && StatusUpTo(x, names, n - 1) == names[c]
                   && forall k :: c < k < n - 1 ==> x.dates[k].None?;
          assert forall k :: c < k < n ==> x.dates[k].None?;
        }
      }
    }
  }

  /** Renamed columns are never empty. */
  lemma RenamedNonEmpty(names: seq<string>)
    ensures forall c :: 0 <= c < |Renamed(names)| ==> Renamed(names)[c] != ""
  {
  }

  /** The age column, as the reversed loop accumulates it: the days of phases
      `from` onwards. */
  function AgeFrom(x: ChartItem, from: nat, today: int): (age: int)
    requires from <= |x.dates|
    ensures (forall c :: from <= c < |x.dates| ==> x.dates[c].None?) ==> age == 0
    decreases |x.dates| - from
  {
    if from == |x.dates| then 0 else PhaseDays(x, from, today) + AgeFrom(x, from + 1, today)
  }

  /** The per-phase days telescope: the age is the end date (today when the
      item is not finished) minus the start date (today when NaT). */
  lemma {:induction false} AgeTelescopes(x: ChartItem, from: nat, today: int)
    requires from < |x.dates|
    ensures AgeFrom(x, from, today) == TodayFilled(x, today)[|x.dates| - 1] - TodayFilled(x, today)[from]
    decreases |x.dates| - from
  {
    if from + 1 < |x.dates| {
      AgeTelescopes(x, from + 1, today);
    }
  }

  // ===========================================================================
  // Run table and throughput histogram
  // ===========================================================================

  /** One row of the run table. */
  datatype RunRow = RunRow(date: int, wip: nat, throughput: nat)

  function RunTable(items: seq<ChartItem>, dates: seq<int>): (r: seq<RunRow>)
    ensures |r| == |dates|
  {
    seq(|dates|, i requires 0 <= i < |dates| => RunRow(dates[i], InProgressOnDate(items, dates[i]), ThroughputOnDate(items, dates[i])))
  }

  function ThroughputColumn(run: seq<RunRow>): (r: seq<nat>)
    ensures |r| == |run|
  {
    seq(|run|, i requires 0 <= i < |run| => run[i].throughput)
  }

  function EndColumn(items: seq<ChartItem>): (r: seq<Option<int>>)
    ensures |r| == |items|
  {
    seq(|items|, i requires 0 <= i < |items| => End(items[i]))
  }

  function SomeDays(dates: seq<int>): (r: seq<Option<int>>)
    ensures |r| == |dates|
  {
    seq(|dates|, i requires 0 <= i < |dates| => Some(dates[i]))
  }

  /** A day's throughput is how often it occurs as an end date. */
  lemma {:induction false} ThroughputIsMultiplicity(items: seq<ChartItem>, d: int)
    ensures ThroughputOnDate(items, d) == multiset(EndColumn(items))[Some(d)]
  {
    if items != [] {
      var init := items[..|items| - 1];
      ThroughputIsMultiplicity(init, d);
      assert EndColumn(items) == EndColumn(init) + [End(items[|items| - 1])];
    }
  }

  /** Over distinct days no finished item is counted twice: the throughputs add
      up to at most the number of finished items. */
  lemma ThroughputCountsEachItemOnce(items: seq<ChartItem>, dates: seq<int>)
    requires Distinct(dates)
    ensures Sum(ThroughputColumn(RunTable(items, dates))) <= |Filter(items, DoneMask())|
  {
    var ends := EndColumn(items);
    var keys := SomeDays(dates);
    assert Distinct(keys) by {
      forall i, j | 0 <= i < j < |keys| ensures keys[i] != keys[j] {
        assert dates[i] != dates[j];
      }
    }
    forall i | 0 <= i < |dates| ensures ThroughputColumn(RunTable(items, dates))[i] == CountsPerValue(ends, keys)[i] {
      ThroughputIsMultiplicity(items, dates[i]);
    }
    assert ThroughputColumn(RunTable(items, dates)) == CountsPerValue(ends, keys);
    SumOfCountsPerValue(ends, keys);
    var inKeys := (x: Option<int>) => x in keys;
    FilterCountMonotone(ends, inKeys, (x: Option<int>) => x.Some?);
    FilterMapDone(items);
  }

  lemma {:induction false} FilterMapDone(items: seq<ChartItem>)
    ensures |Filter(items, DoneMask())| == |Filter(EndColumn(items), (x: Option<int>) => x.Some?)|
  {
    if items != [] {
      var init := items[..|items| - 1];
      FilterMapDone(init);
      assert EndColumn(items)[..|items| - 1] == EndColumn(init);
    }
  }

  /** One bar of the throughput histogram: a daily throughput and the number of
      days with it. */
  datatype HistBin = HistBin(throughput: nat, count: nat)

  /** `value_counts()` of the throughput column. */
  function Histogram(column: seq<nat>): (r: seq<HistBin>)
    ensures r == [] <==> column == []
    ensures forall k :: 0 <= k < |r| ==> r[k].throughput in column
  {
    var values := Unique(column);
    seq(|values|, k requires 0 <= k < |values| => HistBin(values[k], multiset(column)[values[k]]))
  }

  function BinCounts(bins: seq<HistBin>): (r: seq<nat>)
    ensures |r| == |bins|
  {
    seq(|bins|, k requires 0 <= k < |bins| => bins[k].count)
  }

  /** Every throughput value gets exactly one bar, and every bar counts the
      days with its throughput, at least one. */
  lemma HistogramBins(column: seq<nat>)
    ensures var h := Histogram(column);
      && (forall k :: 0 <= k < |h| ==> h[k].count > 0 && h[k].count == multiset(column)[h[k].throughput])
      && (forall i :: 0 <= i < |column| ==> exists k :: 0 <= k < |h| && h[k].throughput == column[i])
      && (forall k, l :: 0 <= k < l < |h| ==> h[k].throughput != h[l].throughput)
  {
    var values := Unique(column);
    var h := Histogram(column);
    forall i | 0 <= i < |column| ensures exists k :: 0 <= k < |h| && h[k].throughput == column[i] {
      var k :| 0 <= k < |values| && values[k] == column[i];
      assert h[k].throughput == column[i];
    }
    forall k | 0 <= k < |h| ensures h[k].count > 0 {
      assert values[k] in multiset(column);
    }
  }

  /** Every throughput value of the run table is counted in exactly one bar. */
  lemma HistogramTotal(column: seq<nat>)
    ensures Sum(BinCounts(Histogram(column))) == |column|
  {
    var values := Unique(column);
    assert BinCounts(Histogram(column)) == CountsPerValue(column, values);
    CountsPerValueCoverAll(column, values);
  }

  /** The throughput histogram of a run table counts each of its days once. */
  lemma HistogramCoversRunTable(items: seq<ChartItem>, dates: seq<int>)
    ensures Sum(BinCounts(Histogram(ThroughputColumn(RunTable(items, dates))))) == |dates|
  {
    HistogramTotal(ThroughputColumn(RunTable(items, dates)));
  }

  // ===========================================================================
  // The dates table
  // ===========================================================================

  function StartColumn(items: seq<ChartItem>): (r: seq<Option<int>>)
    ensures |r| == |items|
  {
    seq(|items|, i requires 0 <= i < |items| => Start(items[i]))
  }

  /** `build_dates_df`: one row per day from the builtin min() of the start
      column, or from the chart's start date when that is used, up to today.
      The min() is taken in either case, so an empty table raises; a NaT first
      day makes the date range raise. */
  function DatesTable(items: seq<ChartItem>, useStartDate: bool, chartStart: int, today: int): (r: Outcome<seq<int>>)
    ensures !r.Reported?
  {
    if items == [] then Raised(EmptyMin)
    else
      var first := if useStartDate then Some(chartStart) else BuiltinMin(StartColumn(items));
      if first.None? then Raised(NaTDateRange) else Ok(DayRange(first.value, today))
  }

  /** The two ways `build_dates_df` raises: on an empty table, and on a first
      row whose start is NaT when the chart's start date is not used. */
  lemma DatesTableRaises(items: seq<ChartItem>, useStartDate: bool, chartStart: int, today: int)
    ensures DatesTable(items, useStartDate, chartStart, today) == Raised(EmptyMin) <==> items == []
    ensures DatesTable(items, useStartDate, chartStart, today) == Raised(NaTDateRange)
      <==> items != [] && !useStartDate && Start(items[0]).None?
  {
    if items != [] && !useStartDate {
      BuiltinMinSpec(StartColumn(items));
    }
  }

  /** The days run one by one, without repeats, up to today. */
  lemma DatesTableDays(items: seq<ChartItem>, useStartDate: bool, chartStart: int, today: int)
    requires DatesTable(items, useStartDate, chartStart, today).Ok?
    ensures var days := DatesTable(items, useStartDate, chartStart, today).value;
      && Ascending(days) && Distinct(days)
      && forall i :: 0 <= i < |days| ==> days[i] <= today
  {
    var first := if useStartDate then chartStart else BuiltinMin(StartColumn(items)).value;
    assert DatesTable(items, useStartDate, chartStart, today).value == DayRange(first, today);
    DayRangeDistinct(first, today);
  }

  /** The first day is the chart's start date when it is used, and otherwise
      the earliest start date of the table. */
  lemma DatesTableFirstDay(items: seq<ChartItem>, useStartDate: bool, chartStart: int, today: int)
    requires DatesTable(items, useStartDate, chartStart, today).Ok?
    ensures useStartDate ==> DatesTable(items, useStartDate, chartStart, today).value == DayRange(chartStart, today)
    ensures !useStartDate ==> exists k :: (0 <= k < |items| && Start(items[k]).Some?
      && DatesTable(items, useStartDate, chartStart, today).value == DayRange(Start(items[k]).value, today)
      && forall j :: 0 <= j < |items| && Start(items[j]).Some? ==> Start(items[k]).value <= Start(items[j]).value)
  {
    if !useStartDate {
      var starts := StartColumn(items);
      BuiltinMinSpec(starts);
      var k :| 0 <= k < |starts| && starts[k] == BuiltinMin(starts);
      var first := BuiltinMin(starts).value;
      assert Start(items[k]) == Some(first);
      assert DatesTable(items, useStartDate, chartStart, today).value == DayRange(first, today);
      assert forall j :: 0 <= j < |items| && Start(items[j]).Some? ==> first <= Start(items[j]).value by {
        assert forall j :: 0 <= j < |items| ==> starts[j] == Start(items[j]);
      }
    }
  }

  // ===========================================================================
  // Table builders with loops
  // ===========================================================================

  /** The cumulative-flow table, one column per phase. */
  function CfdTable(items: seq<ChartItem>, phases: nat, dates: seq<int>): (r: seq<seq<nat>>)
    ensures |r| == phases && forall c :: 0 <= c < phases ==> |r[c]| == |dates|
  {
    seq(phases, c requires 0 <= c < phases => CfdColumn(items, c, dates))
  }

  /** The `apply` of `calc_completed_on_date` down the days of one phase. */
  method CountColumn(items: seq<ChartItem>, c: nat, dates: seq<int>) returns (column: seq<nat>)
    ensures column == CfdColumn(items, c, dates)
  {
    column := [];
    for i := 0 to |dates|
      invariant column == CfdColumn(items, c, dates[..i])
    {
      column := column + [CompletedOnDate(items, c, dates[i])];
    }
    assert dates[..|dates|] == dates;
  }

  /** The status loop of `build_aging_wip_df`: column by column, every row
      with a date in the column takes that column's name. */
  method StatusColumn(items: seq<ChartItem>, names: seq<string>) returns (status: seq<string>)
    requires Shaped(items, |names|)
    ensures |status| == |items|
    ensures forall r :: 0 <= r < |items| ==> status[r] == StatusUpTo(items[r], names, |names|)
  {
    status := seq(|items|, r => "");
    for c := 0 to |names|
      invariant |status| == |items|
      invariant forall r :: 0 <= r < |items| ==> status[r] == StatusUpTo(items[r], names, c)
    {
      status := seq(|items|, r requires 0 <= r < |items| => if items[r].dates[c].Some? then names[c] else status[r]);
    }
  }

  /** The days of phase `c` for every row. */
  function PhaseColumn(items: seq<ChartItem>, c: nat, today: int): (r: seq<int>)
    requires forall i :: 0 <= i < |items| ==> c < |items[i].dates|
    ensures |r| == |items|
  {
    seq(|items|, i requires 0 <= i < |items| => PhaseDays(items[i], c, today))
  }

  /** The reversed loop of `build_aging_wip_df`: from the end column back to the
      start column, each column's days are the previous column's date minus its
      own (missing dates read as today), and are added to the age. */
  method AgeColumns(items: seq<ChartItem>, phases: nat, today: int) returns (age: seq<int>, days: seq<seq<int>>)
    requires Shaped(items, phases)
    ensures |age| == |items| && forall r :: 0 <= r < |items| ==> age[r] == AgeFrom(items[r], 0, today)
    ensures |days| == phases && forall c :: 0 <= c < phases ==> days[c] == PhaseColumn(items, c, today)
  {
    age := seq(|items|, r => 0);
    days := [];
    var prev: int := phases - 1;
    var j := phases;
    while j > 0
      invariant 0 <= j <= phases
      invariant prev == if j == phases then phases - 1 else j
      invariant |age| == |items| && forall r :: 0 <= r < |items| ==> age[r] == AgeFrom(items[r], j, today)
      invariant |days| == phases - j && forall k :: 0 <= k < |days| ==> days[k] == PhaseColumn(items, j + k, today)
    {
      j := j - 1;
      var column := seq(|items|, r requires 0 <= r < |items| => TodayFilled(items[r], today)[prev] - TodayFilled(items[r], today)[j]);
      assert column == PhaseColumn(items, j, today);
      age := seq(|items|, r requires 0 <= r < |items| => age[r] + column[r]);
      days := [column] + days;
      prev := j;
    }
  }

  // ===========================================================================
  // The aging-WIP table
  // ===========================================================================

  /** One row of the aging-WIP table: the item's name, its age, its status (the
      name of its current phase), its start and done dates and its days in each
      phase. */
  datatype AgingRow = AgingRow(name: string, age: int, status: string, startDate: Option<int>,
                               doneDate: Option<int>, phaseDays: seq<int>)

  function AgingRowOf(x: ChartItem, names: seq<string>, today: int): AgingRow
    requires |x.dates| == |names|
  {
    AgingRow(x.name, AgeFrom(x, 0, today), StatusUpTo(x, names, |names|), Start(x), End(x),
             seq(|names|, c requires 0 <= c < |names| => PhaseDays(x, c, today)))
  }

  function AgingTable(items: seq<ChartItem>, names: seq<string>, today: int): (r: seq<AgingRow>)
    requires Shaped(items, |names|)
    ensures |r| == |items|
  {
    seq(|items|, i requires 0 <= i < |items| => AgingRowOf(items[i], names, today))
  }

  /** The phase days from phase `from` on add up to the age accumulated from
      there. */
  lemma {:induction false} PhaseDaysSum(x: ChartItem, from: nat, today: int)
    requires from <= |x.dates|
    ensures Sum(seq(|x.dates| - from, k requires 0 <= k < |x.dates| - from => PhaseDays(x, from + k, today)))
      == AgeFrom(x, from, today)
    decreases |x.dates| - from
  {
    var s := seq(|x.dates| - from, k requires 0 <= k < |x.dates| - from => PhaseDays(x, from + k, today));
    if from < |x.dates| {
      PhaseDaysSum(x, from + 1, today);
      assert s[1..] == seq(|x.dates| - (from + 1), k requires 0 <= k < |x.dates| - (from + 1) => PhaseDays(x, from + 1 + k, today));
    }
  }

  /** An item's age is the sum of its phase days and runs from its start date
      to its end date, reading a missing date as today. */
  lemma AgingAge(x: ChartItem, names: seq<string>, today: int)
    requires |x.dates| == |names| > 0
    ensures var row := AgingRowOf(x, names, today);
      && row.age == Sum(row.phaseDays)
      && row.age == TodayFilled(x, today)[|x.dates| - 1] - TodayFilled(x, today)[0]
  {
    PhaseDaysSum(x, 0, today);
    assert AgingRowOf(x, names, today).phaseDays
      == seq(|x.dates| - 0, k requires 0 <= k < |x.dates| - 0 => PhaseDays(x, 0 + k, today));
    AgeTelescopes(x, 0, today);
  }

  /** The status is the last phase that holds a date, and the done date is set
      exactly for finished items. */
  lemma AgingStatusAndDone(x: ChartItem, names: seq<string>, today: int)
    requires |x.dates| == |names|
    requires forall c :: 0 <= c < |names| ==> names[c] != ""
    ensures var row := AgingRowOf(x, names, today);
      && (row.status == "" <==> forall c :: 0 <= c < |names| ==> x.dates[c].None?)
      && (row.status != "" ==> exists c :: 0 <= c < |names| && x.dates[c].Some? && row.status == names[c]
                                         && forall k :: c < k < |names| ==> x.dates[k].None?)
      && (row.doneDate.Some? <==> End(x).Some?)
      && (row.doneDate.Some? ==> row.doneDate == x.dates[|x.dates| - 1])
  {
    StatusUpToSpec(x, names, |names|);
  }

  // ===========================================================================
  // The chart builder object
  // ===========================================================================

  /** The clean table `prep_for_charting` works on: the clean rows, cut to the
      chart start when the chart starts from a chosen date. */
  function ChartRows(t: ChartTable, useStartDate: bool, chartStart: int): (r: seq<ChartItem>)
    ensures |r| <= |CleanItems(t)|
  {
    if useStartDate then Filter(CleanItems(t), OnOrAfterMask(chartStart)) else CleanItems(t)
  }

  /** `ChartBuilderClass`: the prep steps replace the clean table, the phase
      column names and the dates table; the chart steps fill in the chart
      tables. Phase columns are addressed by position: the start column is the
      first, the end column the last. A step that raises reports its exception
      and changes nothing further. `goodForGo` and `chartsBuilt` stand for the
      globals `GOOD_FOR_GO` and `CHARTS_BUILT_SUCCESSFULLY`, whose values when
      the builder is made are constructor arguments. */
  class Builder {
    const input: ChartTable
    const chartStart: int
    const useStartDate: bool
    const today: int

    var prepGoingGood: bool
    var chartsGoingGood: bool
    var cleanRows: seq<ChartItem>
    var dateColNames: seq<string>
    var dates: seq<int>
    var completedRows: seq<ChartItem>
    var cfd: seq<seq<nat>>
    var cfdVectors: seq<CfdVector>
    var aging: seq<AgingRow>
    var run: seq<RunRow>
    var throughputHist: seq<HistBin>
    var goodForGo: bool
    var chartsBuilt: bool

    /** `__init__`: every table is still empty and both flags are set. */
    constructor (input: ChartTable, chartStart: int, useStartDate: bool, today: int, goodForGo: bool, chartsBuilt: bool)
      ensures this.goodForGo == goodForGo && this.chartsBuilt == chartsBuilt
      ensures this.input == input && this.chartStart == chartStart
      ensures this.useStartDate == useStartDate && this.today == today
      ensures prepGoingGood && chartsGoingGood
      ensures cleanRows == [] && dateColNames == [] && dates == [] && completedRows == []
      ensures cfd == [] && cfdVectors == [] && aging == [] && run == [] && throughputHist == []
    {
      this.input := input;
      this.chartStart := chartStart;
      this.useStartDate := useStartDate;
      this.today := today;
      prepGoingGood := true;
      chartsGoingGood := true;
      cleanRows := [];
      dateColNames := [];
      dates := [];
      completedRows := [];
      cfd := [];
      cfdVectors := [];
      aging := [];
      run := [];
      throughputHist := [];
      this.goodForGo := goodForGo;
      this.chartsBuilt := chartsBuilt;
    }

    /** `build_clean_df`: drop cancelled rows and rows without a start cell,
        convert and back-fill the phase dates, and rename the phase columns. */
    method BuildCleanDf()
      requires WellFormed(input)
      modifies this`cleanRows, this`dateColNames, this`prepGoingGood
      ensures cleanRows == CleanItems(input) && dateColNames == Renamed(input.phaseNames)
      ensures Shaped(cleanRows, |dateColNames|) && prepGoingGood
    {
      var rows := input.rows;
      if input.hasCancelledColumn {
        rows := Filter(rows, CancelMask());
      }
      rows := Filter(rows, StartPresentMask());
      cleanRows := seq(|rows|, k requires 0 <= k < |rows| => ToItem(rows[k]));
      dateColNames := Renamed(input.phaseNames);
      prepGoingGood := true;
      CleanItemsShaped(input);
    }

    /** `filter_clean_df_to_start_date`. */
    method FilterCleanDfToStartDate()
      requires Shaped(cleanRows, |dateColNames|)
      modifies this`cleanRows
      ensures cleanRows == Filter(old(cleanRows), OnOrAfterMask(chartStart))
      ensures Shaped(cleanRows, |dateColNames|)
    {
      cleanRows := Filter(cleanRows, OnOrAfterMask(chartStart));
    }

    /** `build_dates_df`: on success the days from the first day to today. */
    method BuildDatesDf() returns (raised: Option<Exception>)
      modifies this`dates, this`prepGoingGood
      ensures raised.None? <==> DatesTable(cleanRows, useStartDate, chartStart, today).Ok?
      ensures raised.None? ==> dates == DatesTable(cleanRows, useStartDate, chartStart, today).value && prepGoingGood
      ensures raised.Some? ==> DatesTable(cleanRows, useStartDate, chartStart, today) == Raised(raised.value)
                               && dates == old(dates) && prepGoingGood == old(prepGoingGood)
    {
      if cleanRows == [] {
        return Some(EmptyMin);
      }
      var first := BuiltinMin(StartColumn(cleanRows));
      if useStartDate {
        first := Some(chartStart);
      }
      if first.None? {
        return Some(NaTDateRange);
      }
      dates := DayRange(first.value, today);
      prepGoingGood := true;
      raised := None;
    }

    /** `build_completed_df`: the rows with an end date. */
    method BuildCompletedDf()
      modifies this`completedRows, this`prepGoingGood
      ensures completedRows == Filter(cleanRows, DoneMask()) && prepGoingGood
    {
      completedRows := Filter(cleanRows, DoneMask());
      prepGoingGood := true;
    }

    /** `build_cfd_df`: one column per phase, filled by `calc_completed_on_date`
        for every day. */
    method BuildCfdDf()
      modifies this`cfd, this`chartsGoingGood
      ensures cfd == CfdTable(cleanRows, |dateColNames|, dates) && chartsGoingGood
    {
      var table: seq<seq<nat>> := [];
      for c := 0 to |dateColNames|
        invariant table == CfdTable(cleanRows, c, dates)
      {
        var column := CountColumn(cleanRows, c, dates);
        table := table + [column];
      }
      cfd := table;
      chartsGoingGood := true;
    }

    /** `build_cfd_vectors`: two vectors per phase column; a column without a
        positive count raises and leaves the vectors as they were. */
    method BuildCfdVectors() returns (raised: Option<Exception>)
      requires |cfd| == |dateColNames| && forall c :: 0 <= c < |cfd| ==> |cfd[c]| == |dates|
      modifies this`cfdVectors
      ensures raised.None? <==> VectorsUpTo(dateColNames, cfd, dates, |cfd|).Some?
      ensures raised.None? ==> cfdVectors == VectorsUpTo(dateColNames, cfd, dates, |cfd|).value
      ensures raised.Some? ==> raised == Some(NoPositiveCount) && cfdVectors == old(cfdVectors)
    {
      var vectors: seq<CfdVector> := [];
      for c := 0 to |cfd|
        invariant VectorsUpTo(dateColNames, cfd, dates, c) == Some(vectors)
      {
        var pair := ColumnVectors(dateColNames[c], cfd[c], dates);
        if pair.None? {
          VectorsUpToSpec(dateColNames, cfd, dates, |cfd|);
          return Some(NoPositiveCount);
        }
        vectors := vectors + pair.value;
      }
      cfdVectors := vectors;
      raised := None;
    }

    /** `build_aging_wip_df`: the status loop, then the reversed loop over the
        phase columns, then the done dates. */
    method BuildAgingWipDf()
      requires Shaped(cleanRows, |dateColNames|)
      modifies this`aging, this`chartsGoingGood
      ensures aging == AgingTable(cleanRows, dateColNames, today) && chartsGoingGood
    {
      var items, names := cleanRows, dateColNames;
      var status := StatusColumn(items, names);
      var age, days := AgeColumns(items, |names|, today);
      var n := |names|;
      var rows := seq(|items|, r requires 0 <= r < |items| =>
        AgingRow(items[r].name, age[r], status[r], Start(items[r]), End(items[r]),
                 seq(n, c requires 0 <= c < n => days[c][r])));
      forall r | 0 <= r < |items| ensures rows[r] == AgingRowOf(items[r], names, today) {
        assert rows[r].phaseDays == AgingRowOf(items[r], names, today).phaseDays;
      }
      aging := rows;
      chartsGoingGood := true;
    }

    /** `build_run_df`: work in progress and throughput for every day. */
    method BuildRunDf()
      modifies this`run, this`chartsGoingGood
      ensures run == RunTable(cleanRows, dates) && chartsGoingGood
    {
      var rows: seq<RunRow> := [];
      for i := 0 to |dates|
        invariant rows == RunTable(cleanRows, dates[..i])
      {
        rows := rows + [RunRow(dates[i], InProgressOnDate(cleanRows, dates[i]), ThroughputOnDate(cleanRows, dates[i]))];
      }
      assert dates[..|dates|] == dates;
      run := rows;
      chartsGoingGood := true;
    }

    /** `build_throughput_histogram_df`: `value_counts()` of the run table's
        throughput column. */
    method BuildThroughputHistogramDf()
      modifies this`throughputHist
      ensures throughputHist == Histogram(ThroughputColumn(run))
    {
      throughputHist := Histogram(ThroughputColumn(run));
    }

    /** `prep_for_charting`: the prep steps in order, each while preparation is
        going well (no step clears the flag); success sets `GOOD_FOR_GO`. An
        exception from the dates step escapes and the later steps do not run.
        The statistics of `calc_completed_stats` are not part of this model. */
    method PrepForCharting() returns (raised: Option<Exception>)
      requires WellFormed(input)
      modifies this`cleanRows, this`dateColNames, this`prepGoingGood, this`dates, this`completedRows, this`goodForGo
      ensures cleanRows == ChartRows(input, useStartDate, chartStart) && dateColNames == Renamed(input.phaseNames)
      ensures Shaped(cleanRows, |dateColNames|) && prepGoingGood
      ensures var d := DatesTable(cleanRows, useStartDate, chartStart, today);
        && (raised.None? <==> d.Ok?)
        && (d.Ok? ==> dates == d.value && completedRows == Filter(cleanRows, DoneMask()) && goodForGo)
        && (d.Raised? ==> raised == Some(d.exception) && dates == old(dates)
                          && completedRows == old(completedRows) && goodForGo == old(goodForGo))
    {
      BuildChartRows();
      raised := BuildDatesAndCompleted();
    }

    /** The last steps of `prep_for_charting`: the dates, which may raise and
        stop the steps, then the completed rows while preparation is going
        well, then `GOOD_FOR_GO` from the flag. */
    method BuildDatesAndCompleted() returns (raised: Option<Exception>)
      modifies this`prepGoingGood, this`dates, this`completedRows, this`goodForGo
      ensures var d := DatesTable(cleanRows, useStartDate, chartStart, today);
        && (raised.None? <==> d.Ok?)
        && (d.Ok? ==> dates == d.value && completedRows == Filter(cleanRows, DoneMask())
                      && prepGoingGood && goodForGo)
        && (d.Raised? ==> raised == Some(d.exception) && dates == old(dates) && prepGoingGood == old(prepGoingGood)
                          && completedRows == old(completedRows) && goodForGo == old(goodForGo))
    {
      raised := BuildDatesDf();
      if raised.Some? {
        return;
      }
      if prepGoingGood {
        BuildCompletedDf();
      }
      goodForGo := prepGoingGood;
    }

    /** The first steps of `prep_for_charting`: the clean table, cut to the
        chart start when that is used. */
    method BuildChartRows()
      requires WellFormed(input)
      modifies this`cleanRows, this`dateColNames, this`prepGoingGood
      ensures cleanRows == ChartRows(input, useStartDate, chartStart) && dateColNames == Renamed(input.phaseNames)
      ensures Shaped(cleanRows, |dateColNames|) && prepGoingGood
    {
      BuildCleanDf();
      if prepGoingGood && useStartDate {
        FilterCleanDfToStartDate();
      }
    }

    /** `build_charts`: the chart steps in order, then `CHARTS_BUILT_SUCCESSFULLY`
        from the flag (no step clears it). A column without a positive count
        makes the vectors step raise, and the later steps do not run. The
        cycle-time histogram and scatter tables are not part of this model. */
    method BuildCharts() returns (raised: Option<Exception>)
      requires Shaped(cleanRows, |dateColNames|)
      modifies this`cfd, this`chartsGoingGood, this`cfdVectors, this`aging, this`run, this`throughputHist,
               this`chartsBuilt
      ensures cfd == CfdTable(cleanRows, |dateColNames|, dates) && chartsGoingGood
      ensures var v := VectorsUpTo(dateColNames, cfd, dates, |cfd|);
        && (raised.None? <==> v.Some?)
        && (v.Some? ==>
              && cfdVectors == v.value && aging == AgingTable(cleanRows, dateColNames, today)
              && run == RunTable(cleanRows, dates) && throughputHist == Histogram(ThroughputColumn(run))
              && chartsBuilt)
        && (v.None? ==>
              && raised == Some(NoPositiveCount) && cfdVectors == old(cfdVectors) && aging == old(aging)
              && run == old(run) && throughputHist == old(throughputHist) && chartsBuilt == old(chartsBuilt))
    {
      raised := BuildCfdTables();
      if raised.Some? {
        return;
      }
      BuildTablesAfterVectors();
    }

    /** The first steps of `build_charts`: the cumulative-flow table, then its
        vectors, which raise when a column has no positive count. */
    method BuildCfdTables() returns (raised: Option<Exception>)
      modifies this`cfd, this`chartsGoingGood, this`cfdVectors
      ensures cfd == CfdTable(cleanRows, |dateColNames|, dates) && chartsGoingGood
      ensures var v := VectorsUpTo(dateColNames, cfd, dates, |cfd|);
        && (raised.None? <==> v.Some?)
        && (v.Some? ==> cfdVectors == v.value)
        && (v.None? ==> raised == Some(NoPositiveCount) && cfdVectors == old(cfdVectors))
    {
      BuildCfdDf();
      raised := BuildCfdVectors();
    }

    /** The steps of `build_charts` after the vectors: the aging, run and
        throughput-histogram tables, then `CHARTS_BUILT_SUCCESSFULLY` from the
        flag. */
    method BuildTablesAfterVectors()
      requires Shaped(cleanRows, |dateColNames|)
      modifies this`aging, this`run, this`throughputHist, this`chartsGoingGood, this`chartsBuilt
      ensures aging == AgingTable(cleanRows, dateColNames, today) && run == RunTable(cleanRows, dates)
      ensures throughputHist == Histogram(ThroughputColumn(run)) && chartsGoingGood && chartsBuilt
    {
      BuildAgingWipDf();
      BuildRunDf();
      BuildThroughputHistogramDf();
      chartsBuilt := chartsGoingGood;
    }
  }
}
