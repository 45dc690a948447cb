/** The Monte Carlo throughput forecaster (SimulationCalcClass.py).

    Preparation cleans the input rows, picks a historical window from a duration
    policy, keeps the items that finished inside it, counts completions per day of
    the window (zero-filled) and turns the counts into an empirical distribution of
    "items finished in one day". The simulation then replays one injected sample
    sequence per iteration (the model's stand-in for numpy's random generator) and
    records "how many items by the end of the simulation window" and "after how
    many days the target is reached"; aggregation reduces both series to
    percentiles, means and modes. Dates are day numbers; probabilities are exact. */
module Simulation {
  import opened Common

  // ===========================================================================
  // Records and their cleaning
  // ===========================================================================

  /** One input row as the forecaster reads it: the value in the `Cancelled`
      column (None when the cell is empty) and the start and end dates (None when
      the cell is empty). */
  datatype WorkItem = WorkItem(cancelled: Option<string>, start: Option<int>, end: Option<int>)

  /** A row survives cleaning when it is not marked cancelled and has both dates. */
  predicate KeptForSimulation(hasCancelledColumn: bool, w: WorkItem)
  {
    !(hasCancelledColumn && w.cancelled == Some("Yes")) && w.end.Some? && w.start.Some?
  }

  /** `prep_dataframe_formatting`: drop the rows whose `Cancelled` value is
      "Yes" (when that column exists) and those with an empty end or start. */
  function CleanRecords(hasCancelledColumn: bool, rows: seq<WorkItem>): (r: seq<WorkItem>)
    ensures |r| <= |rows| && Dated(r)
  {
    Filter(rows, w => KeptForSimulation(hasCancelledColumn, w))
  }

  /** Every survivor is an input row that is not marked cancelled and has both
      dates, and every such input row survives. */
  lemma CleanRecordsSpec(hasCancelledColumn: bool, rows: seq<WorkItem>)
    ensures var r := CleanRecords(hasCancelledColumn, rows);
      && (forall k :: 0 <= k < |r| ==>
            && r[k] in rows
            && r[k].start.Some? && r[k].end.Some?
            && !(hasCancelledColumn && r[k].cancelled == Some("Yes")))
      && (forall i :: 0 <= i < |rows| && KeptForSimulation(hasCancelledColumn, rows[i]) ==> rows[i] in r)
  {
  }

  ghost predicate Dated(items: seq<WorkItem>)
  {
    forall k :: 0 <= k < |items| ==> items[k].start.Some? && items[k].end.Some?
  }

  /** Cleaning keeps the surviving rows in their original relative order: the
      k-th survivor is the row at the k-th (strictly increasing) kept position. */
  lemma CleanRecordsKeepOrder(hasCancelledColumn: bool, rows: seq<WorkItem>)
    ensures var kept := KeptPositions(rows, w => KeptForSimulation(hasCancelledColumn, w));
      && |CleanRecords(hasCancelledColumn, rows)| == |kept|
      && (forall k :: 0 <= k < |kept| ==> CleanRecords(hasCancelledColumn, rows)[k] == rows[kept[k]])
      && (forall k, l :: 0 <= k < l < |kept| ==> kept[k] < kept[l])
  {
    FilterKeepsOrder(rows, w => KeptForSimulation(hasCancelledColumn, w));
  }

  /** The end-date column of cleaned rows. */
  function Ends(items: seq<WorkItem>): (r: seq<int>)
    requires Dated(items)
    ensures |r| == |items|
    ensures forall k :: 0 <= k < |r| ==> Some(r[k]) == items[k].end
  {
    seq(|items|, k requires 0 <= k < |items| && Dated(items) => items[k].end.value)
  }

  /** `calc_current_num_items_in_progress`: rows not marked cancelled that
      started on or before today and have no end date. */
  predicate InProgressOn(hasCancelledColumn: bool, today: int, w: WorkItem)
  {
    !(hasCancelledColumn && w.cancelled == Some("Yes"))
    && w.start.Some? && w.start.value <= today && w.end.None?
  }

  function InProgressCount(hasCancelledColumn: bool, rows: seq<WorkItem>, today: int): (n: nat)
    ensures n <= |rows|
  {
    |Filter(rows, w => InProgressOn(hasCancelledColumn, today, w))|
  }

  /** An item counted as in progress never survives cleaning (it has no end
      date), so the two together never exceed the rows not marked cancelled. */
  lemma InProgressAndCleanedAreDisjoint(hasCancelledColumn: bool, rows: seq<WorkItem>, today: int)
    ensures |CleanRecords(hasCancelledColumn, rows)| + InProgressCount(hasCancelledColumn, rows, today)
         <= |Filter(rows, (w: WorkItem) => !(hasCancelledColumn && w.cancelled == Some("Yes")))|
  {
    var p := w => KeptForSimulation(hasCancelledColumn, w);
    var q := w => InProgressOn(hasCancelledColumn, today, w);
    var either := w => p(w) || q(w);
    FilterCountDisjointUnion(rows, p, q, either);
    FilterCountMonotone(rows, either, (w: WorkItem) => !(hasCancelledColumn && w.cancelled == Some("Yes")));
  }

  // ===========================================================================
  // Historical window
  // ===========================================================================

  /** The calendar facts the window policies need: today's day number and the
      day numbers of 1 January of this year and of the previous year (31
      December of the previous year is the day before 1 January of this year). */
  datatype Clock = Clock(today: int, yearStart: int, previousYearStart: int)

  /** The window `[start_date, end_date]`, or `Undated` when both bounds are
      NaT (a day-count policy over rows without end dates). */
  datatype HistRange = Undated | Window(start: int, end: int)

  const UnexpectedDuration: string := "Unexpected duration of simulation received"

  /** The duration policies offered to the user and the value each stands for
      (`Globals.HIST_TIMEFRAME`): a number of days back from the last end date,
      "LY" for last calendar year, or "YTD". */
  const HistTimeframe: map<string, string> :=
    map["All" := "9999", "Last Month" := "30",
        "Last 10 Weeks" := "70", "Last 20 Weeks" := "140",
        "Last 30 Weeks" := "210", "Last 6 Months" := "182",
        "Last Year" := "LY", "YTD" := "YTD"]

  /** `str.isnumeric()` over ASCII digits. */
  predicate IsNumeric(s: string)
  {
    |s| > 0 && forall i :: 0 <= i < |s| ==> '0' <= s[i] <= '9'
  }

  /** `int(s)` for a string of decimal digits. */
  function DigitsValue(s: string): nat
    requires IsNumeric(s)
  {
    var d := (s[|s| - 1] as int - '0' as int) as nat;
    if |s| == 1 then d else DigitsValue(s[..|s| - 1]) * 10 + d
  }

  /** Python's `max(bound, first_file_date)` where a NaT first date (no rows)
      never wins a comparison. */
  function NotBefore(bound: int, earliest: Option<int>): int
  {
    if earliest.Some? && bound < earliest.value then earliest.value else bound
  }

  /** `determine_hist_date_range`, given the earliest and latest end dates of
      the cleaned rows (None when there are none). */
  function HistWindow(durationValue: string, earliest: Option<int>, latest: Option<int>, clock: Clock): (r: Outcome<HistRange>)
    ensures !r.Raised?
    ensures r.Reported? ==> r.message == UnexpectedDuration
  {
    if durationValue == "LY" then
      Ok(Window(NotBefore(clock.previousYearStart, earliest), clock.yearStart - 1))
    else if durationValue == "YTD" then
      Ok(Window(NotBefore(clock.yearStart, earliest), clock.today))
    else if IsNumeric(durationValue) then
      if latest.None? then Ok(Undated)
      else Ok(Window(NotBefore(latest.value - DigitsValue(durationValue), earliest), latest.value))
    else
      Reported(UnexpectedDuration)
  }

  /** The window each policy selects: last calendar year, year to date, or a
      number of days back from the latest end date, never starting before the
      earliest end date; any other policy value is reported. */
  lemma HistWindowSpec(durationValue: string, earliest: Option<int>, latest: Option<int>, clock: Clock)
    ensures var r := HistWindow(durationValue, earliest, latest, clock);
      // last calendar year: [max(1 Jan of last year, earliest), 31 Dec of last year]
      && (durationValue == "LY" ==>
          && r.Ok? && r.value.Window?
          && r.value.end == clock.yearStart - 1
          && clock.previousYearStart <= r.value.start
          && (earliest.Some? ==> earliest.value <= r.value.start)
          && (r.value.start == clock.previousYearStart || Some(r.value.start) == earliest))
      // year to date: [max(1 Jan of this year, earliest), today]
      && (durationValue == "YTD" ==>
          && r.Ok? && r.value.Window?
          && r.value.end == clock.today
          && clock.yearStart <= r.value.start
          && (earliest.Some? ==> earliest.value <= r.value.start)
          && (r.value.start == clock.yearStart || Some(r.value.start) == earliest))
      // N days back from the latest end date, never before the earliest one
      && (IsNumeric(durationValue) && earliest.Some? && latest.Some? && earliest.value <= latest.value ==>
          && r.Ok? && r.value.Window?
          && r.value.end == latest.value
          && earliest.value <= r.value.start <= r.value.end
          && latest.value - DigitsValue(durationValue) <= r.value.start
          && (r.value.start == earliest.value || r.value.start == latest.value - DigitsValue(durationValue)))
      && (IsNumeric(durationValue) && latest.None? ==> r == Ok(Undated))
      && (r.Reported? <==> !(durationValue == "LY" || durationValue == "YTD" || IsNumeric(durationValue)))
  {
    assert !IsNumeric("LY") && !IsNumeric("YTD") by {
      assert "LY"[0] == 'L' && "YTD"[0] == 'Y';
    }
  }

  /** Every policy offered to the user selects a window: the "unexpected
      duration" error needs a value outside the table. */
  lemma TimeframeValuesAreRecognised(key: string, earliest: Option<int>, latest: Option<int>, clock: Clock)
    requires key in HistTimeframe
    ensures HistWindow(HistTimeframe[key], earliest, latest, clock).Ok?
  {
    var v := HistTimeframe[key];
    assert v in {"9999", "30", "70", "140", "210", "182", "LY", "YTD"};
    if v != "LY" && v != "YTD" {
      assert IsNumeric(v);
    }
  }

  predicate InRange(range: HistRange, w: WorkItem)
  {
    range.Window? && w.end.Some? && range.start <= w.end.value <= range.end
  }

  /** `build_clean_dataframe` of the forecaster: the items whose end date lies
      in the window (comparisons with NaT bounds are false, so none for an
      undated range). */
  function RestrictToWindow(items: seq<WorkItem>, range: HistRange): (r: seq<WorkItem>)
    ensures |r| <= |items|
    ensures range.Undated? ==> r == []
  {
    if range.Undated? then
      FilterExt(items, w => InRange(range, w), w => false);
      NothingSelected(items);
      Filter(items, w => InRange(range, w))
    else
      Filter(items, w => InRange(range, w))
  }

  /** Restriction keeps exactly the items whose end date lies in the window. */
  lemma RestrictToWindowSpec(items: seq<WorkItem>, range: HistRange)
    ensures var r := RestrictToWindow(items, range);
      && (forall k :: 0 <= k < |r| ==>
            r[k] in items && range.Window? && r[k].end.Some? && range.start <= r[k].end.value <= range.end)
      && (forall i :: 0 <= i < |items| && InRange(range, items[i]) ==> items[i] in r)
  {
  }

  // ===========================================================================
  // Day table and empirical distribution
  // ===========================================================================

  /** One row of the day table: a date and its completion count. */
  datatype DateFrequency = DateFrequency(date: int, frequency: nat)

  /** `build_dates_dataframe`: one zero-count row per day of the inclusive window;
      `pd.date_range` raises on NaT bounds. */
  function DatesTable(range: HistRange): (r: Outcome<seq<DateFrequency>>)
    ensures r.Raised? <==> range.Undated?
    ensures !r.Reported?
    ensures range.Window? ==> |r.value| == (if range.end < range.start then 0 else range.end - range.start + 1)
  {
    if range.Undated? then Raised(NaTDateRange)
    else
      var days := DayRange(range.start, range.end);
      Ok(seq(|days|, i requires 0 <= i < |days| => DateFrequency(days[i], 0)))
  }

  /** The end-date column of the kept items, as `value_counts` reads it. */
  function EndColumn(items: seq<WorkItem>): (r: seq<Option<int>>)
    ensures |r| == |items| && forall k :: 0 <= k < |items| ==> r[k] == items[k].end
  {
    seq(|items|, k requires 0 <= k < |items| => items[k].end)
  }

  /** Row i of the day table is day i of the window, with frequency 0. */
  lemma DatesTableDays(first: int, last: int)
    ensures var t := DatesTable(Window(first, last)).value;
      forall i :: 0 <= i < |t| ==> t[i] == DateFrequency(first + i, 0)
  {
  }

  /** The zero-filled completion count of every day of the table: the table's
      own frequency plus the number of kept items that finished on that day. */
  function DailyCounts(items: seq<WorkItem>, dates: seq<DateFrequency>): (r: seq<nat>)
    ensures |r| == |dates|
  {
    var counts := CountsPerValue(EndColumn(items), seq(|dates|, i requires 0 <= i < |dates| => Some(dates[i].date)));
    seq(|dates|, i requires 0 <= i < |dates| => dates[i].frequency + counts[i])
  }

  /** The count of a day is the table's frequency plus the number of items
      that ended that day. */
  lemma DailyCountsSpec(items: seq<WorkItem>, dates: seq<DateFrequency>)
    ensures forall i :: 0 <= i < |dates| ==>
      DailyCounts(items, dates)[i] == dates[i].frequency + multiset(EndColumn(items))[Some(dates[i].date)]
  {
  }

  /** Every item that finished inside the window is counted on exactly one day
      of the day table. */
  lemma DailyCountsCoverWindow(items: seq<WorkItem>, first: int, last: int)
    requires forall k :: 0 <= k < |items| ==> items[k].end.Some? && first <= items[k].end.value <= last
    ensures DatesTable(Window(first, last)).Ok?
    ensures Sum(DailyCounts(items, DatesTable(Window(first, last)).value)) == |items|
  {
    var dates := DatesTable(Window(first, last)).value;
    var keys := seq(|dates|, i requires 0 <= i < |dates| => Some(dates[i].date));
    var column := EndColumn(items);
    forall k | 0 <= k < |column| ensures column[k] in keys {
      assert keys[column[k].value - first] == column[k];
    }
    CountsPerValueCoverAll(column, keys);
    assert DailyCounts(items, dates) == CountsPerValue(column, keys);
  }

  /** The empirical distribution: on `freq[k]` of the `days` days of the window
      exactly `k` items finished, so the probability of `k` is `freq[k] / days`.
      The keys run from 0 to the largest daily count without gaps. */
  datatype Distribution = Distribution(days: nat, freq: seq<nat>)

  /** The sample values 0..n-1, as `np.arange(0, n)`. */
  function Counts(n: nat): (r: seq<nat>)
    ensures |r| == n && forall k :: 0 <= k < n ==> r[k] == k
  {
    seq(n, k => k)
  }

  /** `build_dist_dataframe`: how many days saw each daily count from 0 to the
      maximum; numpy raises when the day table is empty (its maximum is NaN). */
  function BuildDistribution(daily: seq<nat>): (r: Outcome<Distribution>)
    ensures r.Raised? <==> daily == []
    ensures !r.Reported?
    ensures r.Ok? ==> r.value.days == |daily| && |r.value.freq| > 0
  {
    match MaxOf(daily)
    case None => Raised(EmptyArange)
    case Some(m) => Ok(Distribution(|daily|, CountsPerValue(daily, Counts(m as nat + 1))))
  }

  /** The keys run from 0 to the largest daily count: every observed count
      has a key, the largest key was observed, and the frequency of key k is
      the number of days on which exactly k items finished (0 for a count
      never observed). */
  lemma DistributionShape(daily: seq<nat>)
    requires daily != []
    ensures var d := BuildDistribution(daily).value;
      && (forall k :: 0 <= k < |daily| ==> daily[k] < |d.freq|)
      && (forall k :: 0 <= k < |d.freq| ==> d.freq[k] == multiset(daily)[k])
      && (forall k :: 0 <= k < |d.freq| ==> (d.freq[k] == 0 <==> k !in daily))
      && d.freq[|d.freq| - 1] > 0
  {
    var m := MaxOf(daily).value;
    assert m in multiset(daily);
  }

  /** Each count divided by the same positive denominator. */
  function Shares(a: seq<nat>, den: nat): (r: seq<real>)
    requires den > 0
    ensures |r| == |a|
    ensures forall k :: 0 <= k < |a| ==> r[k] * den as real == a[k] as real
  {
    seq(|a|, k requires 0 <= k < |a| => a[k] as real / den as real)
  }

  /** The probability of each daily count, `value_counts(normalize=True)`. */
  function Probabilities(d: Distribution): (p: seq<real>)
    requires d.days > 0
    ensures |p| == |d.freq|
    ensures forall k :: 0 <= k < |p| ==> 0.0 <= p[k] && p[k] * d.days as real == d.freq[k] as real
  {
    Shares(d.freq, d.days)
  }

  lemma {:induction false} RealSumOfShares(a: seq<nat>, den: nat)
    requires den > 0
    ensures RealSum(Shares(a, den)) == Sum(a) as real / den as real
  {
    if a != [] {
      assert Shares(a, den)[1..] == Shares(a[1..], den);
      RealSumOfShares(a[1..], den);
      assert RealSum(Shares(a, den)) == a[0] as real / den as real + Sum(a[1..]) as real / den as real;
    }
  }

  /** Every day of the window falls under exactly one count, so the
      frequencies add up to the number of days and the probabilities to
      exactly 1. */
  lemma DistributionSumsToOne(daily: seq<nat>)
    requires daily != []
    ensures BuildDistribution(daily).Ok?
    ensures Sum(BuildDistribution(daily).value.freq) == BuildDistribution(daily).value.days
    ensures RealSum(Probabilities(BuildDistribution(daily).value)) == 1.0
  {
    var d := BuildDistribution(daily).value;
    var keys := Counts(|d.freq|);
    assert d.freq == CountsPerValue(daily, keys);
    forall k | 0 <= k < |daily| ensures daily[k] in keys {
      assert keys[daily[k]] == daily[k];
    }
    CountsPerValueCoverAll(daily, keys);
    RealSumOfShares(d.freq, d.days);
    var total := d.days as real;
    assert Sum(d.freq) as real == total;
    SelfRatio(total);
  }

  lemma SelfRatio(x: real)
    requires x > 0.0
    ensures x / x == 1.0
  {
  }

  // ===========================================================================
  // One simulated iteration
  // ===========================================================================

  /** `(sim_end - sim_start).days + 1`, the inclusive length of a date range
      (zero or negative when the end is before the start). */
  function DaysInclusive(first: int, last: int): int
  {
    last - first + 1
  }

  /** `s[:n]` with Python's slicing: a negative `n` drops `-n` items from the end. */
  function SliceTo(s: seq<nat>, n: int): (r: seq<nat>)
    ensures 0 <= n <= |s| ==> r == s[..n]
    ensures n > |s| ==> r == s
    ensures n < 0 ==> r == s[..if |s| + n < 0 then 0 else |s| + n]
  {
    if n > |s| then s
    else if n >= 0 then s[..n]
    else if |s| + n < 0 then []
    else s[..|s| + n]
  }

  /** The "how many" outcome: the items finished over the first
      `daysOfSimulation` sampled days. */
  function HowManyOf(draw: seq<nat>, daysOfSimulation: int): (n: nat)
    ensures n <= Sum(draw)
  {
    var taken := SliceTo(draw, daysOfSimulation);
    SumNonNegative(taken);
    assert draw[..|draw|] == draw;
    assert taken == draw[..|taken|];
    PrefixSumMonotone(draw, |taken|, |draw|);
    Sum(taken)
  }

  /** With every sample at most `maxPerDay`, the "how many" outcome of a window
      of `n` days is at most `n * maxPerDay`, and it is exactly the total of
      the first `n` days, or of all days when fewer were drawn. */
  lemma HowManyBounds(draw: seq<nat>, daysOfSimulation: nat, maxPerDay: nat)
    requires forall k :: 0 <= k < |draw| ==> draw[k] <= maxPerDay
    ensures HowManyOf(draw, daysOfSimulation) <= daysOfSimulation * maxPerDay
    ensures daysOfSimulation <= |draw| ==> HowManyOf(draw, daysOfSimulation) == Sum(draw[..daysOfSimulation])
    ensures daysOfSimulation >= |draw| ==> HowManyOf(draw, daysOfSimulation) == Sum(draw)
  {
    var taken := SliceTo(draw, daysOfSimulation);
    assert draw[..|draw|] == draw;
    SumBounded(taken, maxPerDay);
    MulMonotone(|taken|, daysOfSimulation, maxPerDay);
  }

  /** The number of leading days whose running total is still below `target`. */
  function LeadingBelow(s: seq<nat>, target: int): (k: nat)
    ensures k <= |s|
  {
    if s == [] || target <= s[0] then 0 else 1 + LeadingBelow(s[1..], target - s[0])
  }

  lemma {:induction false} LeadingBelowSpec(s: seq<nat>, target: int)
    ensures forall j :: 0 < j <= LeadingBelow(s, target) ==> Sum(s[..j]) < target
    ensures LeadingBelow(s, target) < |s| ==> target <= Sum(s[..LeadingBelow(s, target) + 1])
  {
    if s != [] && target > s[0] {
      var t := s[1..];
      LeadingBelowSpec(t, target - s[0]);
      forall j | 0 < j <= |s| ensures Sum(s[..j]) == s[0] + Sum(t[..j - 1]) {
        assert s[..j] == [s[0]] + t[..j - 1];
        assert ([s[0]] + t[..j - 1])[1..] == t[..j - 1];
      }
    } else if s != [] {
      assert s[..1] == [s[0]];
    }
  }

  /** The "when" outcome as the source computes it,
      `(np.cumsum(draw) < target).argmin()`: the position of the first day on
      which the running total reaches the target, and 0 when no day does
      (argmin of an all-true mask); None for an empty draw, where numpy raises. */
  function WhenOf(draw: seq<nat>, target: nat): (r: Option<nat>)
    ensures r.None? <==> draw == []
    ensures r.Some? ==> r.value < |draw|
  {
    if draw == [] then None
    else
      var k := LeadingBelow(draw, target);
      Some(if k < |draw| then k else 0)
  }

  /** The result is positive exactly when the first day alone stays below the
      target and the whole draw reaches it; it is then the number of days before
      the day that reaches the target. A result of 0 therefore stands both for
      "reached on the first day" and for "never reached". */
  lemma WhenCharacterisation(draw: seq<nat>, target: nat)
    requires draw != []
    ensures WhenOf(draw, target).Some?
    ensures WhenOf(draw, target).value > 0 <==> draw[0] < target <= Sum(draw)
    ensures WhenOf(draw, target).value > 0 ==>
      var w := WhenOf(draw, target).value;
      w < |draw| && Sum(draw[..w]) < target <= Sum(draw[..w + 1])
  {
    var k := LeadingBelow(draw, target);
    LeadingBelowSpec(draw, target);
    assert draw[..|draw|] == draw;
    assert draw[..1] == [draw[0]];
    if k == |draw| {
      assert Sum(draw[..k]) < target;
    } else if k > 0 {
      assert Sum(draw[..k]) < target;
      PrefixSumMonotone(draw, k + 1, |draw|);
    } else {
      assert target <= Sum(draw[..1]);
    }
  }

  // ===========================================================================
  // The simulation loop
  // ===========================================================================

  /** How a run of iterations ends: all done, stopped because an iteration's
      "when" was 0, or interrupted by numpy raising on an empty draw. */
  datatype RunStatus = Finished | Aborted | Crashed

  datatype SimOutput = SimOutput(howMany: seq<nat>, when: seq<nat>, status: RunStatus)

  /** The outputs of `run_monte_carlo_simulations` over the given draws, one
      draw per iteration. */
  function Simulate(draws: seq<seq<nat>>, daysOfSimulation: int, target: nat): (r: SimOutput)
    ensures |r.howMany| <= |draws|
    ensures |r.howMany| == |r.when| + (if r.status == Finished then 0 else 1)
    ensures r.status == Finished <==> |r.when| == |draws|
  {
    if draws == [] then SimOutput([], [], Finished)
    else
      var h := HowManyOf(draws[0], daysOfSimulation);
      match WhenOf(draws[0], target)
      case None => SimOutput([h], [], Crashed)
      case Some(w) =>
        if w == 0 then SimOutput([h], [], Aborted)
        else
          var rest := Simulate(draws[1..], daysOfSimulation, target);
          SimOutput([h] + rest.howMany, [w] + rest.when, rest.status)
  }

  /** Iteration j of a run records the "how many" and "when" outcomes of draw
      j; a run stops at the first draw whose "when" outcome is 0 (aborted) or
      that is empty (crashed), after recording its "how many" outcome. */
  lemma {:induction false} SimulateOutputs(draws: seq<seq<nat>>, daysOfSimulation: int, target: nat)
    ensures var r := Simulate(draws, daysOfSimulation, target);
      && (forall j :: 0 <= j < |r.howMany| ==> r.howMany[j] == HowManyOf(draws[j], daysOfSimulation))
      && (forall j :: 0 <= j < |r.when| ==> Some(r.when[j]) == WhenOf(draws[j], target) && r.when[j] > 0)
      && (r.status == Aborted ==> WhenOf(draws[|r.when|], target) == Some(0))
      && (r.status == Crashed ==> draws[|r.when|] == [])
  {
    var r := Simulate(draws, daysOfSimulation, target);
    forall j | 0 <= j < |r.howMany|
      ensures r.howMany[j] == HowManyOf(draws[j], daysOfSimulation)
      ensures j < |r.when| ==> Some(r.when[j]) == WhenOf(draws[j], target) && r.when[j] > 0
    {
      SimulateIteration(draws, daysOfSimulation, target, j);
    }
    SimulateStop(draws, daysOfSimulation, target);
  }

  /** Iteration j of a run, for j before the run stops. */
  lemma {:induction false} SimulateIteration(draws: seq<seq<nat>>, daysOfSimulation: int, target: nat, j: nat)
    requires j < |Simulate(draws, daysOfSimulation, target).howMany|
    ensures var r := Simulate(draws, daysOfSimulation, target);
      && r.howMany[j] == HowManyOf(draws[j], daysOfSimulation)
      && (j < |r.when| ==> Some(r.when[j]) == WhenOf(draws[j], target) && r.when[j] > 0)
  {
    if j > 0 {
      SimulateIteration(draws[1..], daysOfSimulation, target, j - 1);
      assert draws[1..][j - 1] == draws[j];
    }
  }

  /** The draw a stopped run stopped at. */
  lemma {:induction false} SimulateStop(draws: seq<seq<nat>>, daysOfSimulation: int, target: nat)
    ensures var r := Simulate(draws, daysOfSimulation, target);
      && (r.status == Aborted ==> WhenOf(draws[|r.when|], target) == Some(0))
      && (r.status == Crashed ==> draws[|r.when|] == [])
  {
    if draws != [] && WhenOf(draws[0], target).Some? && WhenOf(draws[0], target).value != 0 {
      SimulateStop(draws[1..], daysOfSimulation, target);
      assert Simulate(draws, daysOfSimulation, target).status != Finished ==>
        draws[1..][|Simulate(draws[1..], daysOfSimulation, target).when|]
          == draws[|Simulate(draws, daysOfSimulation, target).when|];
    }
  }

  /** A run over a positive target whose first draw reaches the target on its
      first day is aborted after one iteration, without a "when" value. */
  lemma FirstDayCompletionAbortsRun(draws: seq<seq<nat>>, daysOfSimulation: int, target: nat)
    requires draws != [] && draws[0] != [] && target <= draws[0][0]
    ensures Simulate(draws, daysOfSimulation, target).status == Aborted
    ensures Simulate(draws, daysOfSimulation, target).when == []
  {
    WhenCharacterisation(draws[0], target);
  }

  /** `simulation_days`: each iteration draws this many days per item to finish. */
  const DrawDaysPerItem: nat := 20

  /** The draws the generator produces for a run: `target * 20` days each, every
      day a sample of `0..maxPerDay` (numpy's `choice(maxPerDay + 1, ...)`). */
  ghost predicate WellSampled(draws: seq<seq<nat>>, target: nat, maxPerDay: nat)
  {
    forall j :: 0 <= j < |draws| ==>
      |draws[j]| == target * DrawDaysPerItem && forall k :: 0 <= k < |draws[j]| ==> draws[j][k] <= maxPerDay
  }

  /** Over draws as the generator makes them, a non-empty run crashes exactly
      when the target is 0 (every draw is then empty), and every "how many"
      outcome is at most the drawn days, or the simulated days, times the
      largest daily sample. */
  lemma WellSampledRun(draws: seq<seq<nat>>, daysOfSimulation: int, target: nat, maxPerDay: nat)
    requires WellSampled(draws, target, maxPerDay)
    ensures var r := Simulate(draws, daysOfSimulation, target);
      && (draws != [] ==> (r.status == Crashed <==> target == 0))
      && forall j :: 0 <= j < |r.howMany| ==>
           && r.howMany[j] <= target * DrawDaysPerItem * maxPerDay
           && (daysOfSimulation >= 0 ==> r.howMany[j] <= daysOfSimulation * maxPerDay)
  {
    var r := Simulate(draws, daysOfSimulation, target);
    SimulateOutputs(draws, daysOfSimulation, target);
    if draws != [] && target == 0 {
      assert draws[0] == [];
    }
    forall j | 0 <= j < |r.howMany|
      ensures r.howMany[j] <= target * DrawDaysPerItem * maxPerDay
      ensures daysOfSimulation >= 0 ==> r.howMany[j] <= daysOfSimulation * maxPerDay
    {
      SumBounded(draws[j], maxPerDay);
      if daysOfSimulation >= 0 {
        HowManyBounds(draws[j], daysOfSimulation, maxPerDay);
      }
    }
  }

  // ===========================================================================
  // Aggregation
  // ===========================================================================

  /** `Globals.PERCENTILES_LIST`, in hundredths. */
  const PercentileLevels: seq<nat> := [95, 85, 70, 50]

  ghost predicate SortedAscending(s: seq<int>)
  {
    forall i, j :: 0 <= i < j < |s| ==> s[i] <= s[j]
  }

  /** `x` placed before the first element of `s` that is not smaller. */
  function Insert(x: int, s: seq<int>): (r: seq<int>)
    ensures |r| == |s| + 1
  {
    if s == [] || x <= s[0] then [x] + s
    else [s[0]] + Insert(x, s[1..])
  }

  /** Inserting into a sorted sequence keeps it sorted and adds exactly `x`. */
  lemma {:induction false} InsertSpec(x: int, s: seq<int>)
    requires SortedAscending(s)
    ensures SortedAscending(Insert(x, s))
    ensures multiset(Insert(x, s)) == multiset(s) + multiset{x}
    ensures Insert(x, s)[0] == x || (s != [] && Insert(x, s)[0] == s[0])
  {
    if s != [] && x > s[0] {
      var t := Insert(x, s[1..]);
      InsertSpec(x, s[1..]);
      assert s == [s[0]] + s[1..];
      assert t[0] == x || t[0] == s[1];
      SortedCons(s[0], t);
    } else {
      SortedCons(x, s);
    }
  }

  /** An element no larger than the head of an ascending sequence extends it. */
  lemma SortedCons(a: int, t: seq<int>)
    requires SortedAscending(t)
    requires t != [] ==> a <= t[0]
    ensures SortedAscending([a] + t)
  {
    var r := [a] + t;
    forall i, j | 0 <= i < j < |r| ensures r[i] <= r[j] {
      if i == 0 && j > 1 {
        assert r[1] == t[0] && r[j] == t[j - 1];
      }
    }
  }

  /** The outputs in ascending order (the order pandas ranks them in). */
  function SortAscending(s: seq<int>): (r: seq<int>)
    ensures |r| == |s|
  {
    if s == [] then [] else Insert(s[0], SortAscending(s[1..]))
  }

  /** Sorting yields an ascending rearrangement of the outputs. */
  lemma {:induction false} SortAscendingSpec(s: seq<int>)
    ensures SortedAscending(SortAscending(s))
    ensures multiset(SortAscending(s)) == multiset(s)
  {
    if s != [] {
      SortAscendingSpec(s[1..]);
      InsertSpec(s[0], SortAscending(s[1..]));
      assert s == [s[0]] + s[1..];
    }
  }

  /** The position `floor(pct * (n - 1) / 100)` among `n` sorted outputs that
      the `pct`-hundredths quantile is read from. */
  function Rank(pct: nat, n: nat): (i: nat)
    requires pct <= 100 && n > 0
    ensures i < n
    ensures pct == 0 ==> i == 0
    ensures pct == 100 ==> i == n - 1
  {
    RankMonotone(pct, 100, n - 1);
    pct * (n - 1) / 100
  }

  /** The `pct`-hundredths quantile of the outputs, read at its rank in the
      sorted outputs; None (NaN) for no outputs. */
  function Quantile(s: seq<int>, pct: nat): (q: Option<int>)
    requires pct <= 100
    ensures q.None? <==> s == []
  {
    if s == [] then None else Some(SortAscending(s)[Rank(pct, |s|)])
  }

  /** Every quantile of a non-empty column is one of its values. */
  lemma QuantileIsAnOutput(s: seq<int>, pct: nat)
    requires s != [] && pct <= 100
    ensures Quantile(s, pct).value in s
  {
    var sorted := SortAscending(s);
    SortAscendingSpec(s);
    assert sorted[Rank(pct, |s|)] in multiset(sorted);
  }

  lemma MulMonotone(x: nat, y: nat, d: nat)
    requires x <= y
    ensures x * d <= y * d
  {
    assert y * d == x * d + (y - x) * d;
  }

  lemma DivMonotone(a: nat, b: nat, d: nat)
    requires a <= b && d > 0
    ensures a / d <= b / d
  {
    var qa, qb := a / d, b / d;
    assert qa * d + a % d == a;
    assert qb * d + b % d == b;
    assert (qb + 1) * d == qb * d + d;
    if qa > qb {
      MulMonotone(qb + 1, qa, d);
    }
  }

  lemma RankMonotone(p1: nat, p2: nat, n: nat)
    requires p1 <= p2 <= 100
    ensures p1 * n / 100 <= p2 * n / 100 <= n
  {
    MulMonotone(p1, p2, n);
    MulMonotone(p2, 100, n);
    DivMonotone(p1 * n, p2 * n, 100);
    DivMonotone(p2 * n, 100 * n, 100);
  }

  /** A higher level never gives a lower quantile. */
  lemma QuantileMonotone(s: seq<int>, p1: nat, p2: nat)
    requires s != [] && p1 <= p2 <= 100
    ensures Quantile(s, p1).value <= Quantile(s, p2).value
  {
    RankMonotone(p1, p2, |s| - 1);
    SortAscendingSpec(s);
    assert Rank(p1, |s|) <= Rank(p2, |s|);
  }

  /** The quantiles at 0 and 100 are the smallest and the largest output. */
  lemma QuantileExtremes(s: seq<int>)
    requires s != []
    ensures forall k :: 0 <= k < |s| ==> Quantile(s, 0).value <= s[k] <= Quantile(s, 100).value
  {
    var sorted := SortAscending(s);
    SortAscendingSpec(s);
    forall k | 0 <= k < |s| ensures sorted[0] <= s[k] <= sorted[|s| - 1] {
      assert s[k] in multiset(sorted);
      var i :| 0 <= i < |sorted| && sorted[i] == s[k];
      assert sorted[0] <= sorted[i] <= sorted[|s| - 1];
    }
  }

  datatype HowManyPercentile = HowManyPercentile(level: nat, count: Option<int>)

  /** `build_how_many_percentile_dataframe`: the row for level p holds the
      (1 - p) quantile of the "how many" outputs. */
  function HowManyPercentiles(output: seq<nat>, levels: seq<nat>): (r: seq<HowManyPercentile>)
    requires forall i :: 0 <= i < |levels| ==> levels[i] <= 100
    ensures |r| == |levels|
    ensures forall i :: 0 <= i < |r| ==> r[i].level == levels[i] && r[i].count == Quantile(output, 100 - levels[i])
  {
    seq(|levels|, i requires 0 <= i < |levels| && levels[i] <= 100 =>
      HowManyPercentile(levels[i], Quantile(output, 100 - levels[i])))
  }

  /** More confidence means a smaller guaranteed count. */
  lemma HowManyPercentilesNonIncreasing(output: seq<nat>, levels: seq<nat>, i: nat, j: nat)
    requires output != []
    requires forall k :: 0 <= k < |levels| ==> levels[k] <= 100
    requires i < |levels| && j < |levels| && levels[i] <= levels[j]
    ensures HowManyPercentiles(output, levels)[j].count.value <= HowManyPercentiles(output, levels)[i].count.value
  {
    var lo: nat, hi: nat := 100 - levels[j], 100 - levels[i];
    var rows := HowManyPercentiles(output, levels);
    assert rows[i].count == Quantile(output, hi) && rows[j].count == Quantile(output, lo);
    QuantileMonotone(output, lo, hi);
  }

  datatype WhenPercentile = WhenPercentile(level: nat, days: int, endDate: int)

  /** `build_when_percentile_dataframe`: the row for level p holds the p
      quantile of the "when" outputs and the date that many days after the
      simulation start. The quantiles of no outputs are NaN, and turning NaN
      into a number of days raises. */
  function WhenPercentiles(output: seq<nat>, levels: seq<nat>, simStart: int): (r: Outcome<seq<WhenPercentile>>)
    requires forall i :: 0 <= i < |levels| ==> levels[i] <= 100
    ensures !r.Reported?
    ensures r.Raised? <==> output == [] && levels != []
    ensures r.Raised? ==> r.exception == NaNTimedelta
    ensures r.Ok? ==> |r.value| == |levels|
    ensures r.Ok? ==> forall i :: 0 <= i < |levels| ==>
      && r.value[i].level == levels[i]
      && Quantile(output, levels[i]) == Some(r.value[i].days)
      && r.value[i].endDate == simStart + r.value[i].days
  {
    if output == [] && levels != [] then Raised(NaNTimedelta)
    else
      Ok(seq(|levels|, i requires 0 <= i < |levels| && levels[i] <= 100 && output != [] =>
        var q := Quantile(output, levels[i]).value;
        WhenPercentile(levels[i], q, simStart + q)))
  }

  /** More confidence means a later (or the same) completion date. */
  lemma WhenPercentilesNonDecreasing(output: seq<nat>, levels: seq<nat>, simStart: int, i: nat, j: nat)
    requires output != []
    requires forall k :: 0 <= k < |levels| ==> levels[k] <= 100
    requires i < |levels| && j < |levels| && levels[i] <= levels[j]
    ensures WhenPercentiles(output, levels, simStart).Ok?
    ensures WhenPercentiles(output, levels, simStart).value[i].days <= WhenPercentiles(output, levels, simStart).value[j].days
    ensures WhenPercentiles(output, levels, simStart).value[i].endDate <= WhenPercentiles(output, levels, simStart).value[j].endDate
  {
    QuantileMonotone(output, levels[i], levels[j]);
  }

  /** Python's `round(a / b)`: the nearest integer, ties to the even one. */
  function RoundHalfEven(a: nat, b: nat): (r: nat)
    requires b > 0
    ensures -(b as int) <= 2 * (a - r * b) <= b
    ensures (2 * (a - r * b) == b || 2 * (a - r * b) == -(b as int)) ==> r % 2 == 0
  {
    RoundQuotient(a, b, a / b, a % b)
  }

  /** Rounding `a / b` given its quotient and remainder. */
  function RoundQuotient(a: nat, b: nat, q: nat, rem: nat): (r: nat)
    requires b > 0 && a == q * b + rem && rem < b
    ensures -(b as int) <= 2 * (a - r * b) <= b
    ensures (2 * (a - r * b) == b || 2 * (a - r * b) == -(b as int)) ==> r % 2 == 0
  {
    if 2 * rem < b || (2 * rem == b && q % 2 == 0) then
      q
    else
      assert (q + 1) * b == q * b + b;
      q + 1
  }

  /** The most frequent value among `candidates`, the smallest one on a tie
      (`Series.mode()[0]`). */
  function ModeAmong(s: seq<int>, candidates: seq<int>): (m: int)
    requires candidates != []
    ensures m in candidates
  {
    if |candidates| == 1 then candidates[0]
    else
      var m := ModeAmong(s, candidates[1..]);
      var c := candidates[0];
      if multiset(s)[c] > multiset(s)[m] || (multiset(s)[c] == multiset(s)[m] && c < m) then c else m
  }

  /** No candidate occurs more often than the chosen one, and none that occurs
      as often is smaller. */
  lemma {:induction false} ModeAmongIsMostFrequent(s: seq<int>, candidates: seq<int>)
    requires candidates != []
    ensures forall x :: x in candidates ==> multiset(s)[x] <= multiset(s)[ModeAmong(s, candidates)]
    ensures forall x :: x in candidates && multiset(s)[x] == multiset(s)[ModeAmong(s, candidates)] ==>
      ModeAmong(s, candidates) <= x
  {
    if |candidates| > 1 {
      ModeAmongIsMostFrequent(s, candidates[1..]);
      assert forall x :: x in candidates ==> x == candidates[0] || x in candidates[1..];
    }
  }

  function Mode(s: seq<int>): (m: Option<int>)
    ensures m.None? <==> s == []
    ensures m.Some? ==> m.value in s
  {
    if s == [] then None else Some(ModeAmong(s, s))
  }

  /** The mode of a non-empty column is a most frequent value, the smallest of
      those on a tie. */
  lemma ModeIsMostFrequent(s: seq<int>)
    requires s != []
    ensures forall x :: x in s ==> multiset(s)[x] <= multiset(s)[Mode(s).value]
    ensures forall x :: x in s && multiset(s)[x] == multiset(s)[Mode(s).value] ==> Mode(s).value <= x
  {
    ModeAmongIsMostFrequent(s, s);
  }

  /** The run statistics: average and most frequent "how many" outcome, and the
      dates reached after the rounded average and the most frequent "when"
      outcome. */
  datatype RunStats = RunStats(avgCompleted: nat, modeCompleted: int, avgCompletionDate: int, modeCompletionDate: int)

  /** `log_run_stats`; the average divides by the number of outputs, which
      raises ZeroDivisionError for a run without outputs. */
  function RunStatsOf(howMany: seq<nat>, when: seq<nat>, simStart: int): (r: Outcome<RunStats>)
    ensures !r.Reported?
    ensures r.Raised? <==> howMany == [] || when == []
  {
    if when == [] || howMany == [] then Raised(ZeroDivision)
    else
      SumNonNegative(howMany);
      SumNonNegative(when);
      Ok(RunStats(Sum(howMany) / |howMany|, Mode(howMany).value,
                  simStart + RoundHalfEven(Sum(when), |when|), simStart + Mode(when).value))
  }

  /** The floor of `a / b` times `b` is at most `a`, and one more is above it. */
  lemma FloorDivBounds(a: nat, b: nat)
    requires b > 0
    ensures (a / b) * b <= a < (a / b + 1) * b
  {
    assert a == (a / b) * b + a % b;
    assert (a / b + 1) * b == (a / b) * b + b;
  }

  /** The statistics of a run with outputs: the floor of the mean "how many"
      outcome, a most frequent "how many" outcome, the start date plus the mean
      "when" outcome rounded to the nearest day, and the start date plus a most
      frequent "when" outcome. */
  lemma RunStatsOfSpec(howMany: seq<nat>, when: seq<nat>, simStart: int)
    requires howMany != [] && when != []
    ensures var r := RunStatsOf(howMany, when, simStart);
      && r.Ok?
      && r.value.avgCompleted * |howMany| <= Sum(howMany) < (r.value.avgCompleted + 1) * |howMany|
      && Sum(when) >= 0
      && r.value.avgCompletionDate == simStart + RoundHalfEven(Sum(when), |when|)
  {
    SumNonNegative(howMany);
    SumNonNegative(when);
    var avg := Sum(howMany) / |howMany|;
    assert RunStatsOf(howMany, when, simStart).value
      == RunStats(avg, Mode(howMany).value, simStart + RoundHalfEven(Sum(when), |when|), simStart + Mode(when).value);
    FloorDivBounds(Sum(howMany), |howMany|);
  }

  /** The most frequent outcomes a run with outputs reports: a "how many"
      outcome and a "when" outcome (as a date) that no other outcome of the
      run occurs more often than. */
  lemma RunStatsModes(howMany: seq<nat>, when: seq<nat>, simStart: int)
    requires howMany != [] && when != []
    ensures var r := RunStatsOf(howMany, when, simStart);
      && r.Ok?
      && r.value.modeCompleted in howMany
      && (forall x :: x in howMany ==> multiset(howMany)[x] <= multiset(howMany)[r.value.modeCompleted])
      && r.value.modeCompletionDate - simStart in when
      && (forall x :: x in when ==> multiset(when)[x] <= multiset(when)[r.value.modeCompletionDate - simStart])
  {
    ModeIsMostFrequent(howMany);
    ModeIsMostFrequent(when);

  }

  // ===========================================================================
  // The preparation pipeline as one function of its inputs
  // ===========================================================================

  /** The calculator's fields after a successful preparation. */
  datatype Prepared = Prepared(
    range: HistRange, clean: seq<WorkItem>, dates: seq<DateFrequency>, dist: Distribution,
    maxEntriesPerDay: nat, daysOfSimulation: int, numberOfFinishedItems: nat, numberOfDays: int)

  /** `determine_hist_date_range` including its lookup of the policy name, which
      raises KeyError for a name outside the table. */
  function SelectWindow(duration: string, clean: seq<WorkItem>, clock: Clock): (r: Outcome<HistRange>)
    requires Dated(clean)
    ensures r.Raised? <==> duration !in HistTimeframe
    ensures !r.Raised? ==> r == HistWindow(HistTimeframe[duration], MinOf(Ends(clean)), MaxOf(Ends(clean)), clock)
  {
    if duration !in HistTimeframe then Raised(KeyError(duration))
    else HistWindow(HistTimeframe[duration], MinOf(Ends(clean)), MaxOf(Ends(clean)), clock)
  }

  /** The preparation steps after the window is known: restriction, day table,
      distribution and the final fields, stopping at the first exception. */
  function PrepareInWindow(range: HistRange, clean: seq<WorkItem>, simStart: int, simEnd: int): (r: Outcome<Prepared>)
    ensures !r.Reported?
    ensures r.Raised? <==> range.Undated? || (range.Window? && range.end < range.start)
    ensures r.Ok? ==>
      && r.value.range == range && range.Window?
      && r.value.clean == RestrictToWindow(clean, range)
      && r.value.dist.days == |r.value.dates| == range.end - range.start + 1
      && r.value.maxEntriesPerDay == |r.value.dist.freq| - 1
      && r.value.daysOfSimulation == DaysInclusive(simStart, simEnd)
      && r.value.numberOfFinishedItems == |r.value.clean|
      && r.value.numberOfDays == r.value.dist.days
  {
    var kept := RestrictToWindow(clean, range);
    match DatesTable(range)
    case Reported(m) => Reported(m)
    case Raised(e) => Raised(e)
    case Ok(dates) =>
      match BuildDistribution(DailyCounts(kept, dates))
      case Reported(m) => Reported(m)
      case Raised(e) => Raised(e)
      case Ok(dist) =>
        Ok(Prepared(range, kept, dates, dist, |dist.freq| - 1, DaysInclusive(simStart, simEnd),
                    |kept|, DaysInclusive(range.start, range.end)))
  }

  /** An exception building the day table is the outcome of the steps inside
      the window. */
  lemma PrepareInWindowNoDates(range: HistRange, clean: seq<WorkItem>, simStart: int, simEnd: int)
    requires DatesTable(range).Raised?
    ensures PrepareInWindow(range, clean, simStart, simEnd).Raised?
  {
  }

  /** An exception building the distribution is the outcome of the steps. */
  lemma PrepareInWindowNoDistribution(range: HistRange, clean: seq<WorkItem>, simStart: int, simEnd: int)
    requires DatesTable(range).Ok?
    requires BuildDistribution(DailyCounts(RestrictToWindow(clean, range), DatesTable(range).value)).Raised?
    ensures PrepareInWindow(range, clean, simStart, simEnd).Raised?
  {
  }

  /** When the day table and the distribution are built, the steps succeed with
      the fields those two steps and the window determine. */
  lemma PrepareInWindowSucceeds(range: HistRange, clean: seq<WorkItem>, simStart: int, simEnd: int)
    requires DatesTable(range).Ok?
    requires BuildDistribution(DailyCounts(RestrictToWindow(clean, range), DatesTable(range).value)).Ok?
    ensures var kept := RestrictToWindow(clean, range);
      var dates := DatesTable(range).value;
      var d := BuildDistribution(DailyCounts(kept, dates)).value;
      PrepareInWindow(range, clean, simStart, simEnd)
        == Ok(Prepared(range, kept, dates, d, |d.freq| - 1, DaysInclusive(simStart, simEnd),
                       |kept|, DaysInclusive(range.start, range.end)))
  {
  }

  /** `prep_for_simulation`: cleaning, window selection, then the steps inside
      the window, stopping at the first error. */
  function Prepare(duration: string, hasCancelledColumn: bool, input: seq<WorkItem>, clock: Clock,
                   simStart: int, simEnd: int): (r: Outcome<Prepared>)
    ensures r.Reported? ==> r.message == UnexpectedDuration
    ensures r.Ok? ==>
      && r.value.range.Window?
      && r.value.dist.days == |r.value.dates| > 0
      && r.value.maxEntriesPerDay == |r.value.dist.freq| - 1
      && r.value.daysOfSimulation == DaysInclusive(simStart, simEnd)
      && r.value.numberOfFinishedItems == |r.value.clean|
      && r.value.numberOfDays == r.value.dist.days
  {
    var clean := CleanRecords(hasCancelledColumn, input);
    match SelectWindow(duration, clean, clock)
    case Reported(m) => Reported(m)
    case Raised(e) => Raised(e)
    case Ok(range) => PrepareInWindow(range, clean, simStart, simEnd)
  }

  /** Every row a successful preparation keeps is an input row that survives
      cleaning and ended inside the chosen window. */
  lemma PreparedRowsAreCleanAndInWindow(duration: string, hasCancelledColumn: bool, input: seq<WorkItem>,
                                        clock: Clock, simStart: int, simEnd: int)
    requires Prepare(duration, hasCancelledColumn, input, clock, simStart, simEnd).Ok?
    ensures var p := Prepare(duration, hasCancelledColumn, input, clock, simStart, simEnd).value;
      forall k :: 0 <= k < |p.clean| ==>
        && p.clean[k] in input
        && KeptForSimulation(hasCancelledColumn, p.clean[k])
        && InRange(p.range, p.clean[k])
  {
    var clean := CleanRecords(hasCancelledColumn, input);
    var p := Prepare(duration, hasCancelledColumn, input, clock, simStart, simEnd).value;
    CleanRecordsSpec(hasCancelledColumn, input);
    RestrictToWindowSpec(clean, p.range);
    assert p.clean == RestrictToWindow(clean, p.range);
  }

  /** The result of a successful preparation is a proper distribution: the
      day counts add up to the window length, the probabilities to 1, and every
      kept item is counted on one day of the window. */
  lemma PreparedDistributionIsProper(duration: string, hasCancelledColumn: bool, input: seq<WorkItem>,
                                     clock: Clock, simStart: int, simEnd: int)
    requires Prepare(duration, hasCancelledColumn, input, clock, simStart, simEnd).Ok?
    ensures var p := Prepare(duration, hasCancelledColumn, input, clock, simStart, simEnd).value;
      && Sum(p.dist.freq) == p.dist.days
      && RealSum(Probabilities(p.dist)) == 1.0
      && Sum(DailyCounts(p.clean, p.dates)) == p.numberOfFinishedItems
  {
    var p := Prepare(duration, hasCancelledColumn, input, clock, simStart, simEnd).value;
    var daily := DailyCounts(p.clean, p.dates);
    assert BuildDistribution(daily) == Ok(p.dist);
    DistributionSumsToOne(daily);
    DailyCountsCoverWindow(p.clean, p.range.start, p.range.end);
  }

  // ===========================================================================
  // The calculator object
  // ===========================================================================

  /** `SimulationCalcClass`: the forecaster's state. The module-level globals the
      source writes (`NUM_ITEMS_TO_SIMULATE`, `GOOD_FOR_GO`, `GLOBAL_ERROR_MSG`,
      the simulation outputs and tables, `SIMULATIONS_SUCCESSFUL`) are fields
      here; `raised` records a Python exception that escaped a step. */
  class SimulationCalc {
    const duration: string
    const hasCancelledColumn: bool
    const input: seq<WorkItem>
    const clock: Clock
    const simStart: int
    const simEnd: int
    const finishingAllIpItems: bool
    const numItemsToSimulate: nat

    var histRange: HistRange
    var cleanRows: seq<WorkItem>
    var datesTable: seq<DateFrequency>
    var dist: Distribution
    var maxEntriesPerDay: nat
    var daysOfSimulation: int
    var numberOfFinishedItems: nat
    var numberOfDays: int
    var prepGoingGood: bool
    var simsGoingGood: bool
    var goodForGo: bool
    var errorMessage: string
    var raised: Option<Exception>
    var howManyOutput: seq<nat>
    var whenOutput: seq<nat>
    var howManyPercentiles: seq<HowManyPercentile>
    var whenPercentiles: seq<WhenPercentile>
    var runStats: Option<RunStats>
    var simulationsSuccessful: bool

    /** `__init__`: a target of 0 means "finish everything now in progress",
        and the target becomes the current in-progress count. */
    constructor (duration: string, hasCancelledColumn: bool, input: seq<WorkItem>, clock: Clock,
                 simStart: int, simEnd: int, numToComplete: nat)
      ensures this.duration == duration && this.hasCancelledColumn == hasCancelledColumn
      ensures this.input == input && this.clock == clock
      ensures this.simStart == simStart && this.simEnd == simEnd
      ensures finishingAllIpItems <==> numToComplete == 0
      ensures numItemsToSimulate == if numToComplete == 0 then InProgressCount(hasCancelledColumn, input, clock.today) else numToComplete
      ensures histRange == Window(clock.today, clock.today)
      ensures cleanRows == [] && datesTable == [] && dist == Distribution(0, [])
      ensures maxEntriesPerDay == 0 && daysOfSimulation == 0 && numberOfFinishedItems == 0 && numberOfDays == 0
      ensures prepGoingGood && simsGoingGood && !goodForGo && !simulationsSuccessful
      ensures errorMessage == "" && raised == None
      ensures howManyOutput == [] && whenOutput == [] && howManyPercentiles == [] && whenPercentiles == []
      ensures runStats == None
    {
      this.duration := duration;
      this.hasCancelledColumn := hasCancelledColumn;
      this.input := input;
      this.clock := clock;
      this.simStart := simStart;
      this.simEnd := simEnd;
      finishingAllIpItems := numToComplete == 0;
      numItemsToSimulate := if numToComplete == 0 then InProgressCount(hasCancelledColumn, input, clock.today) else numToComplete;
      histRange := Window(clock.today, clock.today);
      cleanRows := [];
      datesTable := [];
      dist := Distribution(0, []);
      maxEntriesPerDay := 0;
      daysOfSimulation := 0;
      numberOfFinishedItems := 0;
      numberOfDays := 0;
      prepGoingGood := true;
      simsGoingGood := true;
      goodForGo := false;
      errorMessage := "";
      raised := None;
      howManyOutput := [];
      whenOutput := [];
      howManyPercentiles := [];
      whenPercentiles := [];
      runStats := None;
      simulationsSuccessful := false;
    }

    /** `report_error`. */
    method ReportError(message: string)
      modifies this`goodForGo, this`errorMessage
      ensures !goodForGo && errorMessage == message
    {
      goodForGo := false;
      errorMessage := message;
    }

    method PrepDataframeFormatting()
      modifies this`cleanRows
      ensures cleanRows == CleanRecords(hasCancelledColumn, input)
    {
      cleanRows := CleanRecords(hasCancelledColumn, input);
    }

    /** `determine_hist_date_range` over the cleaned rows. */
    method DetermineHistDateRange()
      requires Dated(cleanRows)
      modifies this`histRange, this`prepGoingGood, this`goodForGo, this`errorMessage, this`raised
      ensures var r := SelectWindow(duration, cleanRows, clock);
        && (r.Ok? ==> histRange == r.value && prepGoingGood == old(prepGoingGood)
                      && goodForGo == old(goodForGo) && errorMessage == old(errorMessage) && raised == old(raised))
        && (r.Reported? ==> histRange == old(histRange) && !prepGoingGood && !goodForGo
                            && errorMessage == r.message && raised == old(raised))
        && (r.Raised? ==> histRange == old(histRange) && prepGoingGood == old(prepGoingGood)
                          && goodForGo == old(goodForGo) && errorMessage == old(errorMessage) && raised == Some(r.exception))
    {
      var r := SelectWindow(duration, cleanRows, clock);
      match r
      case Ok(range) =>
        histRange := range;
      case Reported(message) =>
        prepGoingGood := false;
        ReportError(message);
      case Raised(e) =>
        raised := Some(e);
    }

    method BuildCleanDataframe()
      modifies this`cleanRows
      ensures cleanRows == RestrictToWindow(old(cleanRows), histRange)
    {
      cleanRows := RestrictToWindow(cleanRows, histRange);
    }

    method BuildDatesDataframe()
      modifies this`datesTable, this`raised
      ensures DatesTable(histRange).Ok? ==> datesTable == DatesTable(histRange).value && raised == old(raised)
      ensures DatesTable(histRange).Raised? ==> datesTable == old(datesTable) && raised == Some(DatesTable(histRange).exception)
    {
      match DatesTable(histRange)
      case Ok(table) =>
        datesTable := table;
      case Raised(e) =>
        raised := Some(e);
    }

    method BuildDistDataframe()
      modifies this`dist, this`raised
      ensures var r := BuildDistribution(DailyCounts(cleanRows, datesTable));
        && (r.Ok? ==> dist == r.value && raised == old(raised))
        && (r.Raised? ==> dist == old(dist) && raised == Some(r.exception))
    {
      match BuildDistribution(DailyCounts(cleanRows, datesTable))
      case Ok(d) =>
        dist := d;
      case Raised(e) =>
        raised := Some(e);
    }

    /** `final_field_preparation`; formatting the window bounds raises for an
        undated window, and there is no count column before a distribution. */
    method FinalFieldPreparation()
      modifies this`maxEntriesPerDay, this`daysOfSimulation, this`numberOfFinishedItems, this`numberOfDays, this`raised
      ensures |dist.freq| > 0 && histRange.Window? ==>
        && maxEntriesPerDay == |dist.freq| - 1
        && daysOfSimulation == DaysInclusive(simStart, simEnd)
        && numberOfFinishedItems == |cleanRows|
        && numberOfDays == DaysInclusive(histRange.start, histRange.end)
        && raised == old(raised)
      ensures !(|dist.freq| > 0 && histRange.Window?) ==>
        && raised.Some?
        && maxEntriesPerDay == old(maxEntriesPerDay) && daysOfSimulation == old(daysOfSimulation)
        && numberOfFinishedItems == old(numberOfFinishedItems) && numberOfDays == old(numberOfDays)
    {
      if |dist.freq| == 0 {
        raised := Some(NoCountColumn);
      } else if histRange.Undated? {
        raised := Some(NaTStrftime);
      } else {
        maxEntriesPerDay := |dist.freq| - 1;
        daysOfSimulation := DaysInclusive(simStart, simEnd);
        numberOfFinishedItems := |cleanRows|;
        numberOfDays := DaysInclusive(histRange.start, histRange.end);
      }
    }

    /** The steps of `prep_for_simulation` that run once a window is chosen;
        an exception in one of them skips the rest. */
    method PrepareInChosenWindow()
      requires raised.None?
      modifies this`cleanRows, this`datesTable, this`dist, this`maxEntriesPerDay,
               this`daysOfSimulation, this`numberOfFinishedItems, this`numberOfDays, this`raised
      ensures var r := PrepareInWindow(histRange, old(cleanRows), simStart, simEnd);
        && (r.Ok? ==>
              && cleanRows == r.value.clean && datesTable == r.value.dates && dist == r.value.dist
              && maxEntriesPerDay == r.value.maxEntriesPerDay && daysOfSimulation == r.value.daysOfSimulation
              && numberOfFinishedItems == r.value.numberOfFinishedItems && numberOfDays == r.value.numberOfDays
              && raised == None)
        && (r.Raised? <==> raised.Some?)
    {
      ghost var clean := cleanRows;
      BuildWindowTables();
      if raised.Some? {
        PrepareInWindowNoDates(histRange, clean, simStart, simEnd);
        return;
      }
      BuildDistDataframe();
      if raised.Some? {
        PrepareInWindowNoDistribution(histRange, clean, simStart, simEnd);
        return;
      }
      PrepareInWindowSucceeds(histRange, clean, simStart, simEnd);
      FinalFieldPreparation();
    }

    /** `build_clean_dataframe` then `build_dates_dataframe`: the rows of the
        window and its day table. */
    method BuildWindowTables()
      modifies this`cleanRows, this`datesTable, this`raised
      ensures cleanRows == RestrictToWindow(old(cleanRows), histRange)
      ensures DatesTable(histRange).Ok? ==> datesTable == DatesTable(histRange).value && raised == old(raised)
      ensures DatesTable(histRange).Raised? ==> raised == Some(DatesTable(histRange).exception)
    {
      BuildCleanDataframe();
      BuildDatesDataframe();
    }

    /** `prep_for_simulation`: the steps in order, each after the previous one
        succeeded; on success the calculator is good to go. */
    method PrepForSimulation()
      requires prepGoingGood && raised.None?
      modifies this`cleanRows, this`histRange, this`datesTable, this`dist, this`maxEntriesPerDay,
               this`daysOfSimulation, this`numberOfFinishedItems, this`numberOfDays,
               this`prepGoingGood, this`goodForGo, this`errorMessage, this`raised
      ensures var r := Prepare(duration, hasCancelledColumn, input, clock, simStart, simEnd);
        && (r.Ok? ==>
              && histRange == r.value.range && cleanRows == r.value.clean && datesTable == r.value.dates
              && dist == r.value.dist && maxEntriesPerDay == r.value.maxEntriesPerDay
              && daysOfSimulation == r.value.daysOfSimulation
              && numberOfFinishedItems == r.value.numberOfFinishedItems
              && numberOfDays == r.value.numberOfDays
              && raised == None && prepGoingGood && goodForGo)
        && (r.Reported? ==> !prepGoingGood && !goodForGo && errorMessage == r.message && raised == None)
        && (r.Raised? <==> raised.Some?)
    {
      PrepDataframeFormatting();
      ghost var clean := cleanRows;
      ghost var window := SelectWindow(duration, clean, clock);
      DetermineHistDateRange();
      if prepGoingGood && raised.None? {
        assert window == Ok(histRange);
        PrepareInChosenWindow();
        ghost var r := PrepareInWindow(histRange, clean, simStart, simEnd);
        assert Prepare(duration, hasCancelledColumn, input, clock, simStart, simEnd) == r;
      } else {
        assert !window.Ok?;
        assert Prepare(duration, hasCancelledColumn, input, clock, simStart, simEnd)
          == if window.Reported? then Reported(window.message) else Raised(window.exception);
      }
      if prepGoingGood && raised.None? {
        goodForGo := true;
      }
    }

    /** `run_monte_carlo_simulations` with the draws the generator produced,
        one per iteration. An empty draw makes numpy raise before any output is
        published. */
    method RunMonteCarloSimulations(iterations: nat, draws: seq<seq<nat>>)
      requires iterations <= |draws| && WellSampled(draws[..iterations], numItemsToSimulate, maxEntriesPerDay)
      modifies this`howManyOutput, this`whenOutput, this`simsGoingGood, this`raised
      ensures var out := Simulate(draws[..iterations], old(daysOfSimulation), numItemsToSimulate);
        && (out.status == Crashed ==>
              && raised == Some(EmptyArgmin)
              && howManyOutput == old(howManyOutput) && whenOutput == old(whenOutput)
              && simsGoingGood == old(simsGoingGood))
        && (out.status != Crashed ==>
              && raised == old(raised)
              && howManyOutput == out.howMany && whenOutput == out.when
              && simsGoingGood == (old(simsGoingGood) && out.status == Finished))
      ensures iterations > 0 ==> (raised == Some(EmptyArgmin) <==> numItemsToSimulate == 0 || old(raised) == Some(EmptyArgmin))
      ensures raised != Some(EmptyArgmin) ==> forall j :: 0 <= j < |howManyOutput| ==>
        && howManyOutput[j] <= numItemsToSimulate * DrawDaysPerItem * maxEntriesPerDay
        && (daysOfSimulation >= 0 ==> howManyOutput[j] <= daysOfSimulation * maxEntriesPerDay)
    {
      var howMany: seq<nat> := [];
      var when: seq<nat> := [];
      var status := Finished;
      var i := 0;
      while i < iterations && status == Finished
        invariant i <= iterations
        invariant unchanged(this)
        invariant status == Finished ==>
          Simulate(draws[..iterations], daysOfSimulation, numItemsToSimulate)
            == Continued(howMany, when, Simulate(draws[i..iterations], daysOfSimulation, numItemsToSimulate))
        invariant status != Finished ==>
          Simulate(draws[..iterations], daysOfSimulation, numItemsToSimulate) == SimOutput(howMany, when, status)
        decreases iterations - i
      {
        ghost var rest := draws[i..iterations];
        assert rest[0] == draws[i] && rest[1..] == draws[i + 1..iterations];
        SimulateStep(rest, daysOfSimulation, numItemsToSimulate);
        var draw := draws[i];
        var h := HowManyOf(draw, daysOfSimulation);
        var w := WhenOf(draw, numItemsToSimulate);
        if w.None? {
          status := Crashed;
          howMany := howMany + [h];
        } else if w.value == 0 {
          status := Aborted;
          howMany := howMany + [h];
        } else {
          ContinuedTwice(howMany, when, [h], [w.value], Simulate(draws[i + 1..iterations], daysOfSimulation, numItemsToSimulate));
          howMany := howMany + [h];
          when := when + [w.value];
        }
        i := i + 1;
      }
      ghost var out := Simulate(draws[..iterations], daysOfSimulation, numItemsToSimulate);
      if status == Finished {
        assert draws[i..iterations] == [];
        assert howMany + [] == howMany && when + [] == when;
      }
      assert out == SimOutput(howMany, when, status);
      WellSampledRun(draws[..iterations], daysOfSimulation, numItemsToSimulate, maxEntriesPerDay);
      if status == Crashed {
        raised := Some(EmptyArgmin);
      } else {
        howManyOutput := howMany;
        whenOutput := when;
        if status == Aborted {
          simsGoingGood := false;
        }
      }
    }

    method BuildHowManyPercentileDataframe()
      modifies this`howManyPercentiles
      ensures howManyPercentiles == HowManyPercentiles(howManyOutput, PercentileLevels)
    {
      howManyPercentiles := HowManyPercentiles(howManyOutput, PercentileLevels);
    }

    /** `build_when_percentile_dataframe`: no "when" outputs make it raise. */
    method BuildWhenPercentileDataframe()
      modifies this`whenPercentiles, this`raised
      ensures var r := WhenPercentiles(whenOutput, PercentileLevels, simStart);
        && (r.Ok? ==> whenPercentiles == r.value && raised == old(raised))
        && (r.Raised? ==> whenPercentiles == old(whenPercentiles) && raised == Some(r.exception))
    {
      match WhenPercentiles(whenOutput, PercentileLevels, simStart)
      case Ok(rows) =>
        whenPercentiles := rows;
      case Raised(e) =>
        raised := Some(e);
    }

    method LogRunStats()
      modifies this`runStats, this`raised
      ensures var r := RunStatsOf(howManyOutput, whenOutput, simStart);
        && (r.Ok? ==> runStats == Some(r.value) && raised == old(raised))
        && (r.Raised? ==> runStats == old(runStats) && raised == Some(r.exception))
    {
      match RunStatsOf(howManyOutput, whenOutput, simStart)
      case Ok(stats) =>
        runStats := Some(stats);
      case Raised(e) =>
        raised := Some(e);
    }

    /** The steps of `run_mc_simulations` after the run itself: the two
        percentile tables and the statistics, each only while the run is going
        well, and the success flag; an exception stops the remaining steps. */
    method SummariseRun()
      modifies this`howManyPercentiles, this`whenPercentiles, this`runStats, this`raised, this`simulationsSuccessful
      ensures old(raised.None? && simsGoingGood) ==>
        && howManyPercentiles == HowManyPercentiles(howManyOutput, PercentileLevels)
        && (whenOutput == [] ==> raised == Some(NaNTimedelta) && whenPercentiles == old(whenPercentiles)
                                 && runStats == old(runStats))
        && (whenOutput != [] ==>
              && whenPercentiles == WhenPercentiles(whenOutput, PercentileLevels, simStart).value
              && (raised.None? <==> howManyOutput != [])
              && (raised.None? ==> runStats == Some(RunStatsOf(howManyOutput, whenOutput, simStart).value)))
      ensures !old(raised.None? && simsGoingGood) ==>
        && howManyPercentiles == old(howManyPercentiles) && whenPercentiles == old(whenPercentiles)
        && runStats == old(runStats) && raised == old(raised)
      ensures simulationsSuccessful <==> raised.None? && simsGoingGood
    {
      if raised.None? && simsGoingGood {
        BuildHowManyPercentileDataframe();
        BuildWhenPercentileDataframe();
        if raised.None? {
          LogRunStats();
        }
      }
      simulationsSuccessful := raised.None? && simsGoingGood;
    }

    /** `run_mc_simulations`: the simulation, then the percentile tables and
        statistics only while the run is going well. The success flag is
        cleared on entry and set at the end; nothing in between reads it, so
        the model writes it once. */
    method RunMcSimulations(iterations: nat, draws: seq<seq<nat>>)
      requires iterations <= |draws| && WellSampled(draws[..iterations], numItemsToSimulate, maxEntriesPerDay)
      requires raised.None?
      modifies this`howManyOutput, this`whenOutput, this`simsGoingGood, this`raised,
               this`howManyPercentiles, this`whenPercentiles, this`runStats, this`simulationsSuccessful
      ensures var out := Simulate(draws[..iterations], old(daysOfSimulation), numItemsToSimulate);
        && (simulationsSuccessful <==> old(simsGoingGood) && out.status == Finished && iterations > 0)
        && (iterations > 0 ==> (raised == Some(EmptyArgmin) <==> numItemsToSimulate == 0))
        && (iterations == 0 && old(simsGoingGood) ==> raised == Some(NaNTimedelta))
        && (out.status == Aborted ==> !simsGoingGood && howManyPercentiles == old(howManyPercentiles)
                                      && whenPercentiles == old(whenPercentiles) && runStats == old(runStats))
        && (simulationsSuccessful ==>
              && howManyOutput == out.howMany && whenOutput == out.when
              && (forall j :: 0 <= j < |howManyOutput| ==>
                    howManyOutput[j] <= numItemsToSimulate * DrawDaysPerItem * maxEntriesPerDay)
              && howManyPercentiles == HowManyPercentiles(out.howMany, PercentileLevels)
              && whenPercentiles == WhenPercentiles(out.when, PercentileLevels, simStart).value
              && runStats == Some(RunStatsOf(out.howMany, out.when, simStart).value))
    {
      RunMonteCarloSimulations(iterations, draws);
      ghost var out := Simulate(draws[..iterations], old(daysOfSimulation), numItemsToSimulate);
      assert raised.None? && simsGoingGood <==> old(simsGoingGood) && out.status == Finished;
      assert raised.None? && simsGoingGood ==>
        howManyOutput == out.howMany && whenOutput == out.when && |out.when| == iterations;
      SummariseRun();
    }
  }

  /** One iteration of a run: the first draw's outcomes followed, when the run
      goes on, by the outcomes of the remaining draws. */
  lemma SimulateStep(draws: seq<seq<nat>>, daysOfSimulation: int, target: nat)
    requires draws != []
    ensures var h := HowManyOf(draws[0], daysOfSimulation);
      var w := WhenOf(draws[0], target);
      && (w.None? ==> Simulate(draws, daysOfSimulation, target) == SimOutput([h], [], Crashed))
      && (w == Some(0) ==> Simulate(draws, daysOfSimulation, target) == SimOutput([h], [], Aborted))
      && (w.Some? && w.value != 0 ==>
            Simulate(draws, daysOfSimulation, target)
              == Continued([h], [w.value], Simulate(draws[1..], daysOfSimulation, target)))
  {
  }

  lemma ContinuedTwice(howMany: seq<nat>, when: seq<nat>, h: seq<nat>, w: seq<nat>, rest: SimOutput)
    ensures Continued(howMany, when, Continued(h, w, rest)) == Continued(howMany + h, when + w, rest)
  {
    assert howMany + (h + rest.howMany) == (howMany + h) + rest.howMany;
    assert when + (w + rest.when) == (when + w) + rest.when;
  }

  /** A run's outputs so far followed by the outputs of the remaining draws. */
  function Continued(howMany: seq<nat>, when: seq<nat>, rest: SimOutput): (r: SimOutput)
    ensures r.howMany == howMany + rest.howMany && r.when == when + rest.when && r.status == rest.status
  {
    SimOutput(howMany + rest.howMany, when + rest.when, rest.status)
  }
}
