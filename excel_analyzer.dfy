// The workbook audit: how many summaries look like processing errors, the
// text samples shown per column, and the categories flattened and counted.
// Everything the audit prints is gathered into a report value.

module ExcelAnalyzer {
  import opened Wrappers
  import opened Text
  import opened Sheet

  /** The substrings that mark a summary as a processing error, matched
      without regard to case. */
  const ErrorIndicators: seq<string> := ["Error", "Failed", "processing failed", "JSON parsing failed"]

  /** At most this many samples per text column, each cut at 100 characters. */
  const SampleCount := 3
  const SampleLimit := 100

  // ---------------------------------------------------------------- error tally

  /** `str.contains(indicator, case=False, na=False)` on one summary cell: a
      missing cell never matches. */
  predicate Flagged(summary: Cell, indicator: string) {
    summary.Str? && Contains(Lower(summary.text), Lower(indicator))
  }

  /** The `.sum()` of one indicator: how many rows it flags. */
  function Matching(rows: seq<SheetRow>, indicator: string): (k: nat)
    ensures k <= |rows|
  {
    if rows == [] then 0
    else Matching(rows[..|rows| - 1], indicator) + (if Flagged(rows[|rows| - 1].summary, indicator) then 1 else 0)
  }

  /** `error_count` after the indicators loop. */
  function ErrorTally(rows: seq<SheetRow>, indicators: seq<string>): nat
  {
    if indicators == [] then 0
    else ErrorTally(rows, indicators[..|indicators| - 1]) + Matching(rows, indicators[|indicators| - 1])
  }

  /** How many of the indicators flag one row. */
  function RowHits(row: SheetRow, indicators: seq<string>): (k: nat)
    ensures k <= |indicators|
  {
    if indicators == [] then 0
    else RowHits(row, indicators[..|indicators| - 1]) + (if Flagged(row.summary, indicators[|indicators| - 1]) then 1 else 0)
  }

  /** Sum over the rows of the indicators each one matches. */
  function TotalRowHits(rows: seq<SheetRow>, indicators: seq<string>): nat
  {
    if rows == [] then 0
    else TotalRowHits(rows[..|rows| - 1], indicators) + RowHits(rows[|rows| - 1], indicators)
  }

  /** The indicators loop. */
  method CountErrors(rows: seq<SheetRow>, indicators: seq<string>) returns (errorCount: nat)
    ensures errorCount == ErrorTally(rows, indicators)
  {
    errorCount := 0;
    var i := 0;
    while i < |indicators|
      invariant 0 <= i <= |indicators|
      invariant errorCount == ErrorTally(rows, indicators[..i])
    {
      assert indicators[..i + 1][..i] == indicators[..i];
      errorCount := errorCount + Matching(rows, indicators[i]);
      i := i + 1;
    }
    assert indicators[..i] == indicators;
  }

  lemma {:induction false} ErrorTallyNoRows(indicators: seq<string>)
    ensures ErrorTally([], indicators) == 0
  {
    if indicators != [] {
      ErrorTallyNoRows(indicators[..|indicators| - 1]);
    }
  }

  /** Adding a row adds the number of indicators it matches. */
  lemma {:induction false} ErrorTallyAddRow(rows: seq<SheetRow>, indicators: seq<string>)
    requires rows != []
    ensures ErrorTally(rows, indicators)
         == ErrorTally(rows[..|rows| - 1], indicators) + RowHits(rows[|rows| - 1], indicators)
  {
    if indicators != [] {
      ErrorTallyAddRow(rows, indicators[..|indicators| - 1]);
    }
  }

  /** The tally counts each row once per indicator it matches, so a row
      can be counted several times. */
  lemma {:induction false} ErrorTallyByRow(rows: seq<SheetRow>, indicators: seq<string>)
    ensures ErrorTally(rows, indicators) == TotalRowHits(rows, indicators)
  {
    if rows == [] {
      ErrorTallyNoRows(indicators);
    } else {
      ErrorTallyByRow(rows[..|rows| - 1], indicators);
      ErrorTallyAddRow(rows, indicators);
    }
  }

  /** Hence the tally is at most the rows times the indicators. */
  lemma {:induction false} ErrorTallyAtMost(rows: seq<SheetRow>, indicators: seq<string>)
    ensures ErrorTally(rows, indicators) <= |rows| * |indicators|
  {
    if indicators != [] {
      var n := |indicators| - 1;
      ErrorTallyAtMost(rows, indicators[..n]);
      assert |rows| * n + |rows| == |rows| * (n + 1);
    }
  }

  /** And at least what the first indicator flags. */
  lemma {:induction false} ErrorTallyAtLeast(rows: seq<SheetRow>, indicators: seq<string>)
    requires indicators != []
    ensures ErrorTally(rows, indicators) >= Matching(rows, indicators[0])
  {
    var n := |indicators| - 1;
    if n > 0 {
      assert indicators[..n][0] == indicators[0];
      ErrorTallyAtLeast(rows, indicators[..n]);
    } else {
      assert indicators[..n] == [];
    }
  }

  /** The printed success count, `len(df) - error_count`. */
  function SuccessCount(rows: seq<SheetRow>, errorCount: nat): (k: int)
    ensures k < 0 <==> errorCount > |rows|
  {
    |rows| - errorCount
  }

  const JsonFailure := "JSON parsing failed: Error"

  lemma LowerJsonFailure()
    ensures Lower(JsonFailure) == "json parsing failed: error"
  {
  }

  /** "Error" is found at the end of the lowered summary. */
  lemma JsonFailureHasError()
    ensures Contains(Lower(JsonFailure), Lower("Error"))
  {
    LowerJsonFailure();
    assert Lower("Error") == "error";
    assert OccursAt(Lower(JsonFailure), "error", 21);
  }

  /** "Failed" is found inside "parsing failed". */
  lemma JsonFailureHasFailed()
    ensures Contains(Lower(JsonFailure), Lower("Failed"))
  {
    LowerJsonFailure();
    assert Lower("Failed") == "failed";
    assert OccursAt(Lower(JsonFailure), "failed", 13);
  }

  /** "processing failed" is not found: no "pr" occurs. */
  lemma JsonFailureLacksProcessing()
    ensures !Contains(Lower(JsonFailure), Lower("processing failed"))
  {
    LowerJsonFailure();
    assert Lower("processing failed") == "processing failed";
    NoPairNoContains(Lower(JsonFailure), "processing failed");
  }

  /** "JSON parsing failed" is found at the start. */
  lemma JsonFailureHasJson()
    ensures Contains(Lower(JsonFailure), Lower("JSON parsing failed"))
  {
    LowerJsonFailure();
    assert Lower("JSON parsing failed") == "json parsing failed";
    assert OccursAt(Lower(JsonFailure), "json parsing failed", 0);
  }

  /** The hits of four indicators, one by one. */
  lemma RowHitsOfFour(row: SheetRow, indicators: seq<string>)
    requires |indicators| == 4
    ensures RowHits(row, indicators)
         == (if Flagged(row.summary, indicators[0]) then 1 else 0)
          + (if Flagged(row.summary, indicators[1]) then 1 else 0)
          + (if Flagged(row.summary, indicators[2]) then 1 else 0)
          + (if Flagged(row.summary, indicators[3]) then 1 else 0)
  {
    var c := row.summary;
    var i1, i2, i3 := indicators[..1], indicators[..2], indicators[..3];
    assert i1[..0] == [] && i2[..1] == i1 && i3[..2] == i2 && indicators[..3] == i3;
    assert RowHits(row, i1) == (if Flagged(c, indicators[0]) then 1 else 0);
    assert RowHits(row, i2) == RowHits(row, i1) + (if Flagged(c, indicators[1]) then 1 else 0);
    assert RowHits(row, i3) == RowHits(row, i2) + (if Flagged(c, indicators[2]) then 1 else 0);
  }

  /** A summary of `"JSON parsing failed: Error"` matches three of the four
      indicators: "Error", "Failed" and "JSON parsing failed". */
  lemma JsonFailureHitsThree(row: SheetRow)
    requires row.summary == Str(JsonFailure)
    ensures RowHits(row, ErrorIndicators) == 3
  {
    var e, f, p, j := "Error", "Failed", "processing failed", "JSON parsing failed";
    assert ErrorIndicators == [e, f, p, j];
    JsonFailureHasError();
    JsonFailureHasFailed();
    JsonFailureLacksProcessing();
    JsonFailureHasJson();
    RowHitsOfFour(row, [e, f, p, j]);
  }

  /** So a table of that one row reports one error-free paper fewer than
      none: the success count is 1 - 3. */
  lemma NegativeSuccessCount(row: SheetRow)
    requires row.summary == Str(JsonFailure)
    ensures ErrorTally([row], ErrorIndicators) == 3
    ensures SuccessCount([row], ErrorTally([row], ErrorIndicators)) == -2
  {
    JsonFailureHitsThree(row);
    ErrorTallyByRow([row], ErrorIndicators);
    assert [row][..0] == [];
  }

  // ---------------------------------------------------------------- samples

  /** The text columns the audit samples. */
  datatype TextColumn = Title | Abstract | Method | Objectives | Summary

  function CellOf(row: SheetRow, col: TextColumn): Cell
  {
    match col
    case Title => row.title
    case Abstract => row.abstractText
    case Method => row.methodText
    case Objectives => row.objectives
    case Summary => row.summary
  }

  /** `df[col].dropna()`: the present values, in row order. */
  function Present(rows: seq<SheetRow>, col: TextColumn): (vs: seq<string>)
    ensures |vs| <= |rows|
  {
    if rows == [] then []
    else
      var c := CellOf(rows[|rows| - 1], col);
      Present(rows[..|rows| - 1], col) + (if c.Str? then [c.text] else [])
  }

  /** With no missing cell, every value is present, in place. */
  lemma {:induction false} PresentAll(rows: seq<SheetRow>, col: TextColumn)
    requires forall i :: 0 <= i < |rows| ==> CellOf(rows[i], col).Str?
    ensures |Present(rows, col)| == |rows|
    ensures forall i :: 0 <= i < |rows| ==> Present(rows, col)[i] == CellOf(rows[i], col).text
  {
    if rows != [] {
      var n := |rows| - 1;
      PresentAll(rows[..n], col);
      assert forall i :: 0 <= i < n ==> rows[..n][i] == rows[i];
    }
  }

  /** Every present value comes from some row. */
  lemma {:induction false} PresentFromRows(rows: seq<SheetRow>, col: TextColumn, v: string)
    requires v in Present(rows, col)
    ensures exists i :: 0 <= i < |rows| && CellOf(rows[i], col) == Str(v)
  {
    var n := |rows| - 1;
    if v in Present(rows[..n], col) {
      PresentFromRows(rows[..n], col, v);
      var i :| 0 <= i < n && CellOf(rows[..n][i], col) == Str(v);
      assert rows[i] == rows[..n][i];
    } else {
      assert CellOf(rows[n], col) == Str(v);
    }
  }

  /** The sample loop: the first three present values, each cut to 100
      characters plus `"..."` when longer. */
  method SampleColumn(rows: seq<SheetRow>, col: TextColumn) returns (samples: seq<string>)
    ensures var vs := Present(rows, col);
      && |samples| == (if |vs| < SampleCount then |vs| else SampleCount)
      && forall k :: 0 <= k < |samples| ==> samples[k] == Truncate(vs[k], SampleLimit)
  {
    var values := Present(rows, col);
    var sampleValues := if |values| < SampleCount then values else values[..SampleCount];
    samples := [];
    var i := 0;
    while i < |sampleValues|
      invariant 0 <= i <= |sampleValues|
      invariant |samples| == i
      invariant forall k :: 0 <= k < i ==> samples[k] == Truncate(values[k], SampleLimit)
    {
      var sample := sampleValues[i];
      var sampleText := if |sample| > SampleLimit then sample[..SampleLimit] + "..." else sample;
      samples := samples + [sampleText];
      i := i + 1;
    }
  }

  // ---------------------------------------------------------------- the audit

  /** What the audit reports. */
  datatype Audit = Audit(
    totalPapers: nat,
    uniqueCategories: nat,
    categoryCounts: seq<(string, nat)>,
    samples: seq<seq<string>>,
    errorCount: nat,
    successCount: int)

  const SampledColumns: seq<TextColumn> := [Title, Abstract, Method, Objectives, Summary]

  /** `df["summary"].str.contains(...)` raises `AttributeError` when the
      column holds no text at all: pandas then reads it as a column of
      numbers (all `NaN`). */
  predicate NoSummaryText(rows: seq<SheetRow>) {
    forall i :: 0 <= i < |rows| ==> rows[i].summary.NaN?
  }

  /** The figures `a` are those the audit prints for `rows`. */
  predicate Describes(a: Audit, rows: seq<SheetRow>, parse: ListParser, indicators: seq<string>) {
    && a.totalPapers == |rows|
    && a.categoryCounts == CounterOf(AllMentions(rows, parse))
    && a.uniqueCategories == |Distinct(AllMentions(rows, parse))|
    && |a.samples| == |SampledColumns|
    && (forall c :: 0 <= c < |SampledColumns| ==>
          var vs := Present(rows, SampledColumns[c]);
          && |a.samples[c]| == (if |vs| < SampleCount then |vs| else SampleCount)
          && forall k :: 0 <= k < |a.samples[c]| ==> a.samples[c][k] == Truncate(vs[k], SampleLimit))
    && a.errorCount == TotalRowHits(rows, indicators)
    && a.successCount == |rows| - a.errorCount
  }

  /** `analyze_excel_data` against a list of indicators. `None` when the
      workbook cannot be read or when its rows hold no summary text (the
      `.str` accessor raises); both are caught by the `except`. A workbook
      with no rows keeps text columns and is audited: its error count is a
      numpy integer, so the success rate's `0 / 0` is `nan`, not an error. */
  method AnalyzeWith(table: Option<seq<SheetRow>>, parse: ListParser, indicators: seq<string>)
    returns (audit: Option<Audit>)
    ensures table.None? || (table.value != [] && NoSummaryText(table.value)) ==> audit.None?
    ensures table.Some? && (table.value == [] || !NoSummaryText(table.value)) ==> audit.Some?
    ensures audit.Some? ==> Describes(audit.value, table.value, parse, indicators)
  {
    if table.None? {
      return None;
    }
    var rows := table.value;
    var allCategories := FlattenCategories(rows, parse);
    var categoryCounts := CounterOf(allCategories);
    var samples: seq<seq<string>> := [];
    var c := 0;
    while c < |SampledColumns|
      invariant 0 <= c <= |SampledColumns|
      invariant |samples| == c
      invariant forall j :: 0 <= j < c ==>
        var vs := Present(rows, SampledColumns[j]);
        && |samples[j]| == (if |vs| < SampleCount then |vs| else SampleCount)
        && forall k :: 0 <= k < |samples[j]| ==> samples[j][k] == Truncate(vs[k], SampleLimit)
    {
      var s := SampleColumn(rows, SampledColumns[c]);
      samples := samples + [s];
      c := c + 1;
    }
    // An empty table keeps its text columns, so only a non-empty one can
    // lack summary text.
    if rows != [] && NoSummaryText(rows) {
      return None;
    }
    var errorCount := CountErrors(rows, indicators);
    ErrorTallyByRow(rows, indicators);
    audit := Some(Audit(|rows|, |categoryCounts|, categoryCounts, samples, errorCount, |rows| - errorCount));
  }

  /** A workbook with a header and no data rows is audited as all zeros:
      no mention, no sample and no error. */
  lemma EmptyWorkbookAudit(a: Audit, parse: ListParser, indicators: seq<string>)
    requires Describes(a, [], parse, indicators)
    ensures a == Audit(0, 0, [], [[], [], [], [], []], 0, 0)
  {
    assert AllMentions([], parse) == [];
    forall c | 0 <= c < |SampledColumns|
      ensures a.samples[c] == []
    {
      assert Present([], SampledColumns[c]) == [];
    }
    assert a.samples == [[], [], [], [], []];
  }

  /** The audit with the four indicators of the source. */
  method AnalyzeExcelData(table: Option<seq<SheetRow>>, parse: ListParser) returns (audit: Option<Audit>)
    ensures (table.None? || (table.value != [] && NoSummaryText(table.value))) <==> audit.None?
    ensures audit.Some? ==> Describes(audit.value, table.value, parse, ErrorIndicators)
    ensures audit.Some? ==> audit.value.errorCount <= 4 * |table.value|
    ensures table == Some([]) ==> audit == Some(Audit(0, 0, [], [[], [], [], [], []], 0, 0))
  {
    audit := AnalyzeWith(table, parse, ErrorIndicators);
    if audit.Some? {
      ErrorTallyAtMost(table.value, ErrorIndicators);
      ErrorTallyByRow(table.value, ErrorIndicators);
      if table.value == [] {
        EmptyWorkbookAudit(audit.value, parse, ErrorIndicators);
      }
    }
  }
}
