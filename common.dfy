/** Vocabulary shared by the forecaster, the flow-metric calculator and the chart
    builder: nullable values, date cells as the input tables hold them, boolean-mask
    row filters, sums, inclusive day ranges and per-value counts. Dates are day
    numbers (days since some fixed epoch); calendar arithmetic on them is plain
    integer arithmetic. */
module Common {

  datatype Option<T> = None | Some(value: T)

  /** How one step of a calculation ends: with a value, with an error the
      calculator reports to the user (its "going good" flag turns false), or with
      a Python exception that escapes to the caller. */
  datatype Outcome<T> = Ok(value: T) | Reported(message: string) | Raised(exception: Exception)

  /** The Python exceptions the modelled steps can raise, one constructor per
      place that raises. */
  datatype Exception =
    | KeyError(key: string)       // a dictionary lookup of a missing key
    | NaTDateRange                // ValueError: a date range with a NaT bound
    | EmptyArange                 // ValueError: the maximum of an empty column is NaN
    | NoCountColumn               // TypeError: the distribution table was never built
    | NaTStrftime                 // ValueError: formatting a NaT window bound
    | EmptyArgmin                 // ValueError: the argmin of an empty sequence
    | ZeroDivision                // ZeroDivisionError: a mean over no values
    | EmptyMin                    // ValueError: the builtin min() of an empty column
    | NoPositiveCount             // the first row with a positive count is looked up in a column that has none
    | NaNTimedelta                // ValueError: a timedelta of NaN days (a quantile of an empty column)

  /** One date cell of an input table before conversion: a missing value (NaN),
      the empty string, text that is not a date, or a calendar day. */
  datatype DateCell = Null | Blank | Text(text: string) | At(day: int)

  /** `pd.to_datetime(cell, errors='coerce')`: everything that is not a date
      becomes NaT (None). */
  function Coerce(c: DateCell): Option<int>
  {
    if c.At? then Some(c.day) else None
  }

  // ---------------------------------------------------------------------------
  // Row filters (a pandas boolean mask followed by `.loc[mask]`)
  // ---------------------------------------------------------------------------

  /** The elements of `s` that satisfy `p`, in their original order. */
  function Filter<T>(s: seq<T>, p: T -> bool): (r: seq<T>)
    ensures |r| <= |s|
    ensures forall k :: 0 <= k < |r| ==> r[k] in s && p(r[k])
    ensures forall i :: 0 <= i < |s| && p(s[i]) ==> s[i] in r
  {
    if s == [] then []
    else Filter(s[..|s| - 1], p) + (if p(s[|s| - 1]) then [s[|s| - 1]] else [])
  }

  /** The positions of the elements of `s` that satisfy `p`, ascending. */
  function KeptPositions<T>(s: seq<T>, p: T -> bool): (idx: seq<nat>)
    ensures forall k :: 0 <= k < |idx| ==> idx[k] < |s| && p(s[idx[k]])
    ensures forall k, l :: 0 <= k < l < |idx| ==> idx[k] < idx[l]
    ensures forall i :: 0 <= i < |s| && p(s[i]) ==> i in idx
  {
    if s == [] then []
    else
      var rest := KeptPositions(s[..|s| - 1], p);
      if p(s[|s| - 1]) then rest + [|s| - 1] else rest
  }

  /** A filter keeps the surviving rows in their original relative order: the
      k-th survivor is the row at the k-th ascending position that satisfies `p`. */
  lemma {:induction false} FilterKeepsOrder<T>(s: seq<T>, p: T -> bool)
    ensures |Filter(s, p)| == |KeptPositions(s, p)|
    ensures forall k :: 0 <= k < |Filter(s, p)| ==> Filter(s, p)[k] == s[KeptPositions(s, p)[k]]
  {
    if s != [] {
      FilterKeepsOrder(s[..|s| - 1], p);
    }
  }

  lemma {:induction false} FilterAppend<T>(s: seq<T>, t: seq<T>, p: T -> bool)
    ensures Filter(s + t, p) == Filter(s, p) + Filter(t, p)
  {
    if t == [] {
      assert s + t == s;
    } else {
      assert (s + t)[..|s + t| - 1] == s + t[..|t| - 1];
      FilterAppend(s, t[..|t| - 1], p);
    }
  }

  /** Two masks that agree on every row select the same rows. */
  lemma {:induction false} FilterExt<T>(s: seq<T>, p: T -> bool, q: T -> bool)
    requires forall x :: p(x) == q(x)
    ensures Filter(s, p) == Filter(s, q)
  {
    if s != [] {
      FilterExt(s[..|s| - 1], p, q);
    }
  }

  /** Two masks that agree on every row of `s` keep the same rows. */
  lemma {:induction false} FilterExtOn<T>(s: seq<T>, p: T -> bool, q: T -> bool)
    requires forall k :: 0 <= k < |s| ==> p(s[k]) == q(s[k])
    ensures Filter(s, p) == Filter(s, q)
  {
    if s != [] {
      FilterExtOn(s[..|s| - 1], p, q);
    }
  }

  /** Filtering distinct values leaves distinct values. */
  lemma {:induction false} FilterDistinct<T>(s: seq<T>, p: T -> bool)
    requires Distinct(s)
    ensures Distinct(Filter(s, p))
  {
    if s != [] {
      var init, last := s[..|s| - 1], s[|s| - 1];
      assert Distinct(init) by {
        forall i, j | 0 <= i < j < |init| ensures init[i] != init[j] {
          assert init[i] == s[i] && init[j] == s[j];
        }
      }
      FilterDistinct(init, p);
      if p(last) {
        var before := Filter(init, p);
        forall k | 0 <= k < |before| ensures before[k] != last {
          var i :| 0 <= i < |init| && init[i] == before[k];
          assert s[i] == init[i];
        }
      }
    }
  }

  /** A weaker mask selects at least as many rows. */
  lemma {:induction false} FilterCountMonotone<T>(s: seq<T>, p: T -> bool, q: T -> bool)
    requires forall x :: p(x) ==> q(x)
    ensures |Filter(s, p)| <= |Filter(s, q)|
  {
    if s != [] {
      FilterCountMonotone(s[..|s| - 1], p, q);
    }
  }

  /** Rows selected by either of two disjoint masks are counted once, by one of them. */
  lemma {:induction false} FilterCountDisjointUnion<T>(s: seq<T>, p: T -> bool, q: T -> bool, either: T -> bool)
    requires forall k :: 0 <= k < |s| ==> !(p(s[k]) && q(s[k]))
    requires forall k :: 0 <= k < |s| ==> either(s[k]) == (p(s[k]) || q(s[k]))
    ensures |Filter(s, either)| == |Filter(s, p)| + |Filter(s, q)|
  {
    if s != [] {
      var init := s[..|s| - 1];
      assert forall k :: 0 <= k < |init| ==> init[k] == s[k];
      FilterCountDisjointUnion(init, p, q, either);
    }
  }

  /** A mask that every row satisfies keeps the whole table. */
  lemma {:induction false} FilterAll<T>(s: seq<T>, p: T -> bool)
    requires forall k :: 0 <= k < |s| ==> p(s[k])
    ensures Filter(s, p) == s
  {
    if s != [] {
      FilterAll(s[..|s| - 1], p);
      assert s[..|s| - 1] + [s[|s| - 1]] == s;
    }
  }

  /** A mask that no row satisfies keeps nothing. */
  lemma {:induction false} FilterNone<T>(s: seq<T>, p: T -> bool)
    requires forall k :: 0 <= k < |s| ==> !p(s[k])
    ensures Filter(s, p) == []
  {
    if s != [] {
      FilterNone(s[..|s| - 1], p);
    }
  }

  /** A mask keeps every row exactly when every row satisfies it. */
  lemma {:induction false} FilterKeepsAllIff<T>(s: seq<T>, p: T -> bool)
    ensures |Filter(s, p)| == |s| <==> forall k :: 0 <= k < |s| ==> p(s[k])
  {
    if s != [] {
      var init := s[..|s| - 1];
      FilterKeepsAllIff(init, p);
      assert forall k :: 0 <= k < |init| ==> init[k] == s[k];
      if forall k :: 0 <= k < |s| ==> p(s[k]) {
        FilterAll(s, p);
      }
    }
  }

  /** A mask keeps nothing exactly when no row satisfies it. */
  lemma FilterEmptyIff<T>(s: seq<T>, p: T -> bool)
    ensures Filter(s, p) == [] <==> forall k :: 0 <= k < |s| ==> !p(s[k])
  {
    if forall k :: 0 <= k < |s| ==> !p(s[k]) {
      FilterNone(s, p);
    } else {
      var i :| 0 <= i < |s| && p(s[i]);
      assert s[i] in Filter(s, p);
    }
  }

  /** Two masks applied one after the other keep what their conjunction keeps. */
  lemma {:induction false} FilterFilter<T>(s: seq<T>, p: T -> bool, q: T -> bool, both: T -> bool)
    requires forall x :: both(x) == (p(x) && q(x))
    ensures Filter(Filter(s, p), q) == Filter(s, both)
  {
    if s != [] {
      var init, last := s[..|s| - 1], s[|s| - 1];
      FilterFilter(init, p, q, both);
      var tail := if p(last) then [last] else [];
      FilterAppend(Filter(init, p), tail, q);
      if p(last) {
        assert tail[..0] == [];
      }
    }
  }

  // ---------------------------------------------------------------------------
  // Sums
  // ---------------------------------------------------------------------------

  function Sum(s: seq<int>): int
  {
    if s == [] then 0 else s[0] + Sum(s[1..])
  }

  function RealSum(s: seq<real>): real
  {
    if s == [] then 0.0 else s[0] + RealSum(s[1..])
  }

  lemma {:induction false} SumAppend(a: seq<int>, b: seq<int>)
    ensures Sum(a + b) == Sum(a) + Sum(b)
  {
    if a == [] {
      assert a + b == b;
    } else {
      assert (a + b)[1..] == a[1..] + b;
      SumAppend(a[1..], b);
    }
  }

  lemma SumNonNegative(s: seq<nat>)
    ensures Sum(s) >= 0
  {
  }

  /** The running total after `k + 1` days is the running total after `k` days
      plus day `k`. */
  lemma PrefixSumStep(s: seq<int>, k: nat)
    requires k < |s|
    ensures Sum(s[..k + 1]) == Sum(s[..k]) + s[k]
  {
    assert s[..k + 1] == s[..k] + [s[k]];
    SumAppend(s[..k], [s[k]]);
  }

  /** Running totals of non-negative daily counts never decrease. */
  lemma {:induction false} PrefixSumMonotone(s: seq<nat>, j: nat, k: nat)
    requires j <= k <= |s|
    ensures Sum(s[..j]) <= Sum(s[..k])
  {
    if j < k {
      PrefixSumMonotone(s, j, k - 1);
      PrefixSumStep(s, k - 1);
    }
  }

  /** `Series.max()` over a column without missing values; None for an empty column. */
  function MaxOf(s: seq<int>): (r: Option<int>)
    ensures r.None? <==> s == []
    ensures r.Some? ==> r.value in s && forall k :: 0 <= k < |s| ==> s[k] <= r.value
  {
    if s == [] then None
    else
      match MaxOf(s[1..])
      case None => Some(s[0])
      case Some(m) => Some(if s[0] < m then m else s[0])
  }

  /** `Series.min()` over a column without missing values; None for an empty column. */
  function MinOf(s: seq<int>): (r: Option<int>)
    ensures r.None? <==> s == []
    ensures r.Some? ==> r.value in s && forall k :: 0 <= k < |s| ==> r.value <= s[k]
  {
    if s == [] then None
    else
      match MinOf(s[1..])
      case None => Some(s[0])
      case Some(m) => Some(if m < s[0] then m else s[0])
  }

  /** The sum of `|s|` values that are each at most `m` is at most `|s| * m`. */
  lemma {:induction false} SumBounded(s: seq<nat>, m: nat)
    requires forall k :: 0 <= k < |s| ==> s[k] <= m
    ensures Sum(s) <= |s| * m
  {
    if s != [] {
      SumBounded(s[1..], m);
      assert Sum(s) <= m + (|s| - 1) * m;
    }
  }

  // ---------------------------------------------------------------------------
  // Day ranges and per-value counts
  // ---------------------------------------------------------------------------

  /** `pd.date_range(first, last)`: every day from `first` to `last` inclusive,
      empty when `last` is before `first`. */
  function DayRange(first: int, last: int): (r: seq<int>)
    ensures |r| == if last < first then 0 else last - first + 1
    ensures forall i :: 0 <= i < |r| ==> r[i] == first + i
  {
    if last < first then [] else seq(last - first + 1, i => first + i)
  }

  ghost predicate Distinct<T>(s: seq<T>)
  {
    forall i, j :: 0 <= i < j < |s| ==> s[i] != s[j]
  }

  /** `Series.unique()`: each value once, in order of first appearance. */
  function Unique<T(==)>(s: seq<T>): (r: seq<T>)
    ensures forall k :: 0 <= k < |r| ==> r[k] in s
    ensures forall i :: 0 <= i < |s| ==> s[i] in r
    ensures Distinct(r)
  {
    if s == [] then []
    else
      var rest := Unique(s[..|s| - 1]);
      if s[|s| - 1] in rest then rest else rest + [s[|s| - 1]]
  }

  /** `Series.value_counts()` read at each of `keys`: how often each key occurs
      in the column (0 for a key that does not occur). */
  function CountsPerValue<K(==)>(s: seq<K>, keys: seq<K>): (r: seq<nat>)
    ensures |r| == |keys|
    ensures forall i :: 0 <= i < |keys| ==> r[i] == multiset(s)[keys[i]]
  {
    seq(|keys|, i requires 0 <= i < |keys| => multiset(s)[keys[i]])
  }

  /** The multiplicity of a value is the number of rows an equality mask keeps. */
  lemma {:induction false} MultiplicityIsFilterCount<K>(s: seq<K>, v: K)
    ensures multiset(s)[v] == |Filter(s, x => x == v)|
  {
    if s != [] {
      MultiplicityIsFilterCount(s[..|s| - 1], v);
      assert s == s[..|s| - 1] + [s[|s| - 1]];
    }
  }

  /** Counting the rows per value over a list of distinct keys counts every row
      whose value is in the list exactly once. */
  lemma {:induction false} SumOfCountsPerValue<K>(s: seq<K>, keys: seq<K>)
    requires Distinct(keys)
    ensures Sum(CountsPerValue(s, keys)) == |Filter(s, x => x in keys)|
  {
    if keys == [] {
      FilterExt(s, x => x in keys, x => false);
      NothingSelected(s);
    } else {
      var init := keys[..|keys| - 1];
      var last := keys[|keys| - 1];
      SumOfCountsPerValue(s, init);
      assert CountsPerValue(s, keys) == CountsPerValue(s, init) + [multiset(s)[last]];
      SumAppend(CountsPerValue(s, init), [multiset(s)[last]]);
      MultiplicityIsFilterCount(s, last);
      SplitLastKey(keys, init, last);
      FilterCountDisjointUnion(s, x => x in init, x => x == last, x => x in keys);
    }
  }

  /** The last of distinct keys is not among the others, and a value is a key
      exactly when it is one of the others or the last. */
  lemma SplitLastKey<K>(keys: seq<K>, init: seq<K>, last: K)
    requires Distinct(keys) && keys == init + [last]
    ensures forall x :: x in init ==> x != last
    ensures forall x :: (x in keys) == (x in init || x == last)
  {
    forall x | x in init ensures x != last {
      var j :| 0 <= j < |init| && init[j] == x;
      assert keys[j] == x && keys[|init|] == last;
    }
  }

  lemma {:induction false} NothingSelected<T>(s: seq<T>)
    ensures Filter(s, x => false) == []
  {
    if s != [] {
      NothingSelected(s[..|s| - 1]);
    }
  }

  /** When every row's value is among the distinct keys, the per-value counts
      add up to the number of rows. */
  lemma CountsPerValueCoverAll<K>(s: seq<K>, keys: seq<K>)
    requires Distinct(keys)
    requires forall k :: 0 <= k < |s| ==> s[k] in keys
    ensures Sum(CountsPerValue(s, keys)) == |s|
  {
    SumOfCountsPerValue(s, keys);
    FilterAll(s, x => x in keys);
  }

  /** Counting the rows per value over distinct keys counts exactly the rows a
      mask keeps, when the mask keeps a row just when its value is a key. */
  lemma CountsPerValueCoverSelected<K>(s: seq<K>, keys: seq<K>, p: K -> bool)
    requires Distinct(keys)
    requires forall k :: 0 <= k < |s| ==> (s[k] in keys <==> p(s[k]))
    ensures Sum(CountsPerValue(s, keys)) == |Filter(s, p)|
  {
    SumOfCountsPerValue(s, keys);
    FilterExtOn(s, x => x in keys, p);
  }

  /** The days of a range are distinct. */
  lemma DayRangeDistinct(first: int, last: int)
    ensures Distinct(DayRange(first, last))
  {
  }
}
