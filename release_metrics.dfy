/** Release-name handling (ReleaseMetricCalcClass.py).

    A release table has a `Fix Version/s` column holding names such as
    `pipeline_num_1 1.0.56`. Stripping keeps each name up to its first space;
    the pipeline check looks a name up in the list of deployment pipelines
    (loaded from JSON) and adds an `On Pipeline` column holding the text
    `True` or `False`. Both work on a copy of the table; as values here, the
    input table is never changed. */
module ReleaseMetrics {
  import opened Common

  /** One row of a release table: its `Fix Version/s` cell and the cells of its
      other columns, in column order. */
  datatype ReleaseRow = ReleaseRow(fixVersion: string, otherColumns: seq<string>)

  /** One row of the pipeline list: its `slug` and its `statusMessage`. */
  datatype PipelineEntry = PipelineEntry(slug: string, statusMessage: string)

  /** A release row with the `On Pipeline` column added. */
  datatype CheckedRow = CheckedRow(row: ReleaseRow, onPipeline: string)

  const Available := "Available"
  const TrueText := "True"
  const FalseText := "False"

  // ===========================================================================
  // Stripping the version from a release name
  // ===========================================================================

  /** `str.split(pat=' ', n=1)[0]`: the text before the first space, or the
      whole text when it has none. */
  function StripVersion(name: string): (r: string)
    ensures ' ' !in r
    ensures r <= name
    ensures |r| < |name| ==> name[|r|] == ' '
    ensures ' ' !in name ==> r == name
  {
    if name == [] || name[0] == ' ' then []
    else [name[0]] + StripVersion(name[1..])
  }

  /** Stripping is idempotent. */
  lemma StripVersionIdempotent(name: string)
    ensures StripVersion(StripVersion(name)) == StripVersion(name)
  {
  }

  /** The stripped name is exactly the text before the first space. */
  lemma StripVersionIsFirstWord(prefix: string, rest: string)
    requires ' ' !in prefix
    ensures StripVersion(prefix + [' '] + rest) == prefix
  {
    var name := prefix + [' '] + rest;
    var r := StripVersion(name);
    assert name[|prefix|] == ' ';
    assert forall k :: 0 <= k < |prefix| ==> name[k] == prefix[k];
    assert r == name[..|r|];
  }

  /** `strip_release_name_of_version`: every `Fix Version/s` value replaced by
      its stripped form, on a copy of the table. */
  function StripReleaseNames(rows: seq<ReleaseRow>): (r: seq<ReleaseRow>)
    ensures |r| == |rows|
  {
    seq(|rows|, i requires 0 <= i < |rows| => rows[i].(fixVersion := StripVersion(rows[i].fixVersion)))
  }

  /** Row by row, only the `Fix Version/s` cell changes; it becomes a prefix of
      the original with no space in it, and stripping the table again changes
      nothing. */
  lemma StripReleaseNamesSpec(rows: seq<ReleaseRow>)
    ensures var r := StripReleaseNames(rows);
      && (forall i :: 0 <= i < |rows| ==> r[i].otherColumns == rows[i].otherColumns)
      && (forall i :: 0 <= i < |rows| ==> ' ' !in r[i].fixVersion && r[i].fixVersion <= rows[i].fixVersion)
      && (forall i :: 0 <= i < |rows| && ' ' !in rows[i].fixVersion ==> r[i] == rows[i])
      && StripReleaseNames(r) == r
  {
    var r := StripReleaseNames(rows);
    forall i | 0 <= i < |r| ensures StripReleaseNames(r)[i] == r[i] {
      StripVersionIdempotent(rows[i].fixVersion);
    }
  }

  // ===========================================================================
  // Looking up pipelines
  // ===========================================================================

  /** The filter of `pipeline_entry_exists_for`. */
  function AvailableMask(name: string): PipelineEntry -> bool
  {
    (e: PipelineEntry) => e.slug == name && e.statusMessage == Available
  }

  /** `pipeline_entry_exists_for`: `True` unless no pipeline entry with that slug
      is available. */
  function PipelineEntryExistsFor(pipelines: seq<PipelineEntry>, name: string): (r: string)
    ensures r == TrueText || r == FalseText
  {
    if |Filter(pipelines, AvailableMask(name))| == 0 then FalseText else TrueText
  }

  /** `True` exactly when some entry has the name as its slug and the status
      `Available`; `False` otherwise. */
  lemma PipelineEntryExistsForSpec(pipelines: seq<PipelineEntry>, name: string)
    ensures PipelineEntryExistsFor(pipelines, name) == TrueText
      <==> exists i :: 0 <= i < |pipelines| && pipelines[i].slug == name && pipelines[i].statusMessage == Available
    ensures PipelineEntryExistsFor(pipelines, name) == FalseText
      <==> forall i :: 0 <= i < |pipelines| ==> pipelines[i].slug != name || pipelines[i].statusMessage != Available
  {
    FilterEmptyIff(pipelines, AvailableMask(name));
  }

  /** `pipeline_entry_exists_for_row`: the lookup of the row's `Fix Version/s`. */
  function PipelineEntryExistsForRow(pipelines: seq<PipelineEntry>, row: ReleaseRow): (r: string)
    ensures r == TrueText || r == FalseText
  {
    PipelineEntryExistsFor(pipelines, row.fixVersion)
  }

  /** `check_df_for_pipelines`: a copy of the table with the `On Pipeline`
      column added. */
  function CheckDfForPipelines(pipelines: seq<PipelineEntry>, rows: seq<ReleaseRow>): (r: seq<CheckedRow>)
    ensures |r| == |rows|
  {
    seq(|rows|, i requires 0 <= i < |rows| => CheckedRow(rows[i], PipelineEntryExistsForRow(pipelines, rows[i])))
  }

  /** Every row is kept as it was, and is marked `True` exactly when an
      available pipeline has its `Fix Version/s` as slug. */
  lemma CheckDfForPipelinesSpec(pipelines: seq<PipelineEntry>, rows: seq<ReleaseRow>)
    ensures var r := CheckDfForPipelines(pipelines, rows);
      && (forall i :: 0 <= i < |rows| ==> r[i].row == rows[i])
      && (forall i :: 0 <= i < |rows| ==> (r[i].onPipeline == TrueText
            <==> exists k :: 0 <= k < |pipelines| && pipelines[k].slug == rows[i].fixVersion
                             && pipelines[k].statusMessage == Available))
  {
    forall i | 0 <= i < |rows| {
      PipelineEntryExistsForSpec(pipelines, rows[i].fixVersion);
    }
  }

  /** Checking a stripped table: a release is on a pipeline exactly when an
      available pipeline's slug is the release name up to its first space. */
  lemma CheckStrippedNames(pipelines: seq<PipelineEntry>, rows: seq<ReleaseRow>)
    ensures var r := CheckDfForPipelines(pipelines, StripReleaseNames(rows));
      forall i :: 0 <= i < |rows| ==> (r[i].onPipeline == TrueText
        <==> exists k :: 0 <= k < |pipelines| && pipelines[k].slug == StripVersion(rows[i].fixVersion)
                         && pipelines[k].statusMessage == Available)
  {
    CheckDfForPipelinesSpec(pipelines, StripReleaseNames(rows));
  }
}
