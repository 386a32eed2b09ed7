/**
 * The statistics block the training and evaluation scripts write below the
 * result table of the spreadsheet: a `낙찰` count and a `낙찰` rate for each of
 * `결과1` and `결과2`, and (in the two training scripts) a summary. Only the
 * cell addresses and the cell texts are modelled; writing the workbook is not.
 *
 * The result frame is written with one header row on row 2, its index in
 * column B and frame column `i` in sheet column `SheetColumn(i)`, so data rows
 * run from row 3 to row `n + 2`.
 */
module ResultStatistics {

  import opened Wrappers
  import opened Text
  import opened Frames
  import opened ExcelLayout
  import TrainSetup
  import ResultFrame

  /** One written cell: column letters, row number, text. */
  datatype Cell = Cell(col: string, row: nat, content: string)

  const StartRow: nat := 3

  /** The last data row of a frame of `n` rows. */
  function EndRow(n: nat): nat
  {
    StartRow + n - 1
  }

  /** The title row of the statistics: one blank row below the data. */
  function StatsRow(n: nat): nat
  {
    EndRow(n) + 2
  }

  const Title1 := "=== 결과1 통계 ==="
  const Title2 := "=== 결과2 통계 ==="

  /** The `낙찰` count over the data rows of `dataCol`. */
  function CountFormula(dataCol: string, n: nat): string
  {
    "=COUNTIF(" + dataCol + NatToString(StartRow) + ":" + dataCol + NatToString(EndRow(n)) + ",\"낙찰\")"
  }

  /** The rate in percent of the count held in cell `valueCol countRow`, 0 when the count is 0. */
  function RateFormula(valueCol: string, countRow: nat, n: nat): string
  {
    var cell := valueCol + NatToString(countRow);
    "=IF(" + cell + ">0," + cell + "/" + NatToString(n) + "*100,0)"
  }

  /** Title, count label and formula, rate label and formula of one verdict column. */
  function Block(title: string, labelCol: string, valueCol: string, dataCol: string, n: nat): (b: seq<Cell>)
    ensures |b| == 5
    ensures b[2].col == valueCol && b[2].content == CountFormula(dataCol, n)
    ensures b[4].content == RateFormula(b[2].col, b[2].row, n)
    ensures forall k :: 0 <= k < 5 ==> StatsRow(n) <= b[k].row <= StatsRow(n) + 2
  {
    var s := StatsRow(n);
    [Cell(labelCol, s, title),
     Cell(labelCol, s + 1, "낙찰 개수:"), Cell(valueCol, s + 1, CountFormula(dataCol, n)),
     Cell(labelCol, s + 2, "낙찰 비율:"), Cell(valueCol, s + 2, RateFormula(valueCol, s + 1, n))]
  }

  /** The data range of a verdict column, as the summary line spells it. */
  function DataRange(dataCol: string, n: nat): string
  {
    dataCol + NatToString(StartRow) + ":" + dataCol + NatToString(EndRow(n))
  }

  /** The three summary lines in column A: title, row count and the two data ranges. */
  function Summary(col1: string, col2: string, n: nat): (b: seq<Cell>)
    ensures |b| == 3 && b[2].content == "데이터 범위: " + DataRange(col1, n) + ", " + DataRange(col2, n)
    ensures forall k :: 0 <= k < 3 ==> b[k].row == StatsRow(n) + 4 + k && b[k].col == "A"
  {
    var s := StatsRow(n);
    [Cell("A", s + 4, "=== 요약 정보 ==="),
     Cell("A", s + 5, "총 데이터 개수: " + NatToString(n) + "개"),
     Cell("A", s + 6, "데이터 범위: " + DataRange(col1, n) + ", " + DataRange(col2, n))]
  }

  /** What `addResultStatistics` writes once the two verdict columns are spelled `col1` and `col2`. */
  function TrainSheet(col1: string, col2: string, n: nat, bidTypeName: string): (cells: seq<Cell>)
    ensures |cells| == 14
  {
    Block(Title1, "AA", "AB", col1, n) + Block(Title2, "AD", "AE", col2, n) + Summary(col1, col2, n)
    + [Cell("A", StatsRow(n) + 7, "입찰 유형: " + bidTypeName)]
  }

  /** The position of the last column named `x`, as the enumerate loop without a break leaves it. */
  function LastIndex(names: seq<string>, x: string): (r: Option<nat>)
    ensures r.None? <==> forall j :: 0 <= j < |names| ==> names[j] != x
    ensures r.Some? ==> r.value < |names| && names[r.value] == x
                        && forall j :: r.value < j < |names| ==> names[j] != x
    decreases |names|
  {
    if |names| == 0 then None
    else if names[|names| - 1] == x then Some(|names| - 1)
    else LastIndex(names[..|names| - 1], x)
  }

  /** The loop over `enumerate(result_columns)` with its `if`/`elif`. */
  method FindVerdictColumns(names: seq<string>) returns (result1: Option<nat>, result2: Option<nat>)
    ensures result1 == LastIndex(names, "결과1") && result2 == LastIndex(names, "결과2")
  {
    result1, result2 := None, None;
    for i := 0 to |names|
      invariant result1 == LastIndex(names[..i], "결과1")
      invariant result2 == LastIndex(names[..i], "결과2")
    {
      assert names[..i + 1][..i] == names[..i];
      if names[i] == "결과1" {
        result1 := Some(i);
      } else if names[i] == "결과2" {
        result2 := Some(i);
      }
    }
    assert names[..|names|] == names;
  }

  /** `addResultStatistics` as written: nothing when a verdict column is missing, otherwise the converter's letters. */
  function TrainStatistics(names: seq<string>, n: nat, bidTypeName: string): Option<seq<Cell>>
  {
    var i1 := LastIndex(names, "결과1");
    var i2 := LastIndex(names, "결과2");
    if i1.None? || i2.None? then None
    else Some(TrainSheet(ConverterColumn(i1.value), ConverterColumn(i2.value), n, bidTypeName))
  }

  /** The statistics pass over the result frame `u`. */
  method AddResultStatistics(u: Table, bidTypeName: string) returns (cells: Option<seq<Cell>>)
    ensures cells == TrainStatistics(u.names, u.rows, bidTypeName)
  {
    var result1, result2 := FindVerdictColumns(u.names);
    if result1.None? || result2.None? {
      return None;
    }
    var col1 := IndexToExcelColumn(result1.value);
    var col2 := IndexToExcelColumn(result2.value);
    cells := Some(TrainSheet(col1, col2, u.rows, bidTypeName));
  }

  /** The same pass with each verdict column spelled where the frame actually puts it. */
  function CorrectedTrainStatistics(names: seq<string>, n: nat, bidTypeName: string): Option<seq<Cell>>
  {
    var i1 := LastIndex(names, "결과1");
    var i2 := LastIndex(names, "결과2");
    if i1.None? || i2.None? then None
    else Some(TrainSheet(SheetColumn(i1.value), SheetColumn(i2.value), n, bidTypeName))
  }

  /** `add_result_statistics` of the gradient-boosting script: fixed columns AD and AG, with the summary. */
  function GbStatistics(n: nat): (cells: seq<Cell>)
    ensures |cells| == 13
  {
    Block(Title1, "AC", "AD", "AD", n) + Block(Title2, "AF", "AG", "AG", n) + Summary("AD", "AG", n)
  }

  /** `add_result_statistics` of the evaluation script: fixed columns AD and AG, no summary. */
  function ImprovedStatistics(n: nat): (cells: seq<Cell>)
    ensures |cells| == 10
  {
    Block(Title1, "AC", "AD", "AD", n) + Block(Title2, "AF", "AG", "AG", n)
  }

  /** The two scripts with fixed columns count `낙찰` in AD and AG. */
  lemma FixedCountColumns(n: nat)
    ensures GbStatistics(n)[2].content == ImprovedStatistics(n)[2].content == CountFormula("AD", n)
    ensures GbStatistics(n)[7].content == ImprovedStatistics(n)[7].content == CountFormula("AG", n)
  {
    var g1 := Block(Title1, "AC", "AD", "AD", n);
    var g2 := Block(Title2, "AF", "AG", "AG", n);
    assert GbStatistics(n)[2] == g1[2] && GbStatistics(n)[7] == g2[2];
    assert ImprovedStatistics(n)[2] == g1[2] && ImprovedStatistics(n)[7] == g2[2];
  }

  /** Every statistics cell lies below the last data row, so no data cell is overwritten. */
  lemma StatisticsBelowData(names: seq<string>, n: nat, bidTypeName: string)
    ensures var cs := TrainStatistics(names, n, bidTypeName);
            cs.Some? ==> forall k :: 0 <= k < |cs.value| ==> cs.value[k].row > EndRow(n) + 1
    ensures var cs := CorrectedTrainStatistics(names, n, bidTypeName);
            cs.Some? ==> forall k :: 0 <= k < |cs.value| ==> cs.value[k].row > EndRow(n) + 1
    ensures forall k :: 0 <= k < |GbStatistics(n)| ==> GbStatistics(n)[k].row > EndRow(n) + 1
    ensures forall k :: 0 <= k < |ImprovedStatistics(n)| ==> ImprovedStatistics(n)[k].row > EndRow(n) + 1
  {
    forall c1: string, c2: string
      ensures forall k :: 0 <= k < 14 ==> TrainSheet(c1, c2, n, bidTypeName)[k].row > EndRow(n) + 1
    {
      var b1 := Block(Title1, "AA", "AB", c1, n);
      var b2 := Block(Title2, "AD", "AE", c2, n);
      var s := Summary(c1, c2, n);
      assert TrainSheet(c1, c2, n, bidTypeName) == b1 + b2 + s + [Cell("A", StatsRow(n) + 7, "입찰 유형: " + bidTypeName)];
    }
    var g1 := Block(Title1, "AC", "AD", "AD", n);
    var g2 := Block(Title2, "AF", "AG", "AG", n);
    assert GbStatistics(n) == g1 + g2 + Summary("AD", "AG", n);
    assert ImprovedStatistics(n) == g1 + g2;
  }

  /** A result frame whose names start with the result columns of `bidType`: the verdicts sit where that layout puts them. */
  lemma VerdictIndices(names: seq<string>, bidType: string)
    requires var rc := TrainSetup.ResultColumns(bidType); |rc| <= |names| && names[..|rc|] == rc
    requires forall i, j :: 0 <= i < j < |names| ==> names[i] != names[j]
    ensures var (p1, p2) := if bidType == "cst" then (27, 30) else (25, 28);
            LastIndex(names, "결과1") == Some(p1) && LastIndex(names, "결과2") == Some(p2)
  {
    TrainSetup.VerdictPositions(bidType);
    var rc := TrainSetup.ResultColumns(bidType);
    var (p1, p2) := if bidType == "cst" then (27, 30) else (25, 28);
    assert names[p1] == rc[p1] && names[p2] == rc[p2];
  }

  /** In every layout the converter spells the verdicts `AB` and `AE`. */
  lemma ConverterSpellsAbAe(names: seq<string>, bidType: string, n: nat, bidTypeName: string)
    requires var rc := TrainSetup.ResultColumns(bidType); |rc| <= |names| && names[..|rc|] == rc
    requires forall i, j :: 0 <= i < j < |names| ==> names[i] != names[j]
    ensures TrainStatistics(names, n, bidTypeName) == Some(TrainSheet("AB", "AE", n, bidTypeName))
  {
    VerdictIndices(names, bidType);
    SpellExamples();
  }

  /** The count formula differs as soon as the column letters differ in their second letter. */
  lemma CountFormulasDiffer(n: nat)
    ensures CountFormula("AB", n) != CountFormula("AD", n)
    ensures CountFormula("AE", n) != CountFormula("AG", n)
  {
    assert CountFormula("AB", n)[10] == 'B' && CountFormula("AD", n)[10] == 'D';
    assert CountFormula("AE", n)[10] == 'E' && CountFormula("AG", n)[10] == 'G';
  }

  /**
   * With the explicit `cst` layout the verdicts lie in AD and AG, but the as-written
   * pass counts `낙찰` in AB and AE instead, and its summary names those columns.
   */
  lemma ConstructionStatisticsMiscounted(names: seq<string>, n: nat, bidTypeName: string)
    requires var rc := TrainSetup.ResultColumns("cst"); |rc| <= |names| && names[..|rc|] == rc
    requires forall i, j :: 0 <= i < j < |names| ==> names[i] != names[j]
    ensures names[27] == "결과1" && SheetColumn(27) == "AD"
    ensures names[30] == "결과2" && SheetColumn(30) == "AG"
    ensures var cs := TrainStatistics(names, n, bidTypeName).value;
            cs[2].content == CountFormula("AB", n) != CountFormula(SheetColumn(27), n)
            && cs[7].content == CountFormula("AE", n) != CountFormula(SheetColumn(30), n)
  {
    TrainSetup.VerdictPositions("cst");
    var rc := TrainSetup.ResultColumns("cst");
    assert names[27] == rc[27] && names[30] == rc[30];
    ConverterSpellsAbAe(names, "cst", n, bidTypeName);
    SpellExamples();
    CountFormulasDiffer(n);
    TrainSheetCounts("AB", "AE", n, bidTypeName);
  }

  /** The two counts of the sheet read the two columns it is given. */
  lemma TrainSheetCounts(col1: string, col2: string, n: nat, bidTypeName: string)
    ensures TrainSheet(col1, col2, n, bidTypeName)[2].content == CountFormula(col1, n)
    ensures TrainSheet(col1, col2, n, bidTypeName)[7].content == CountFormula(col2, n)
  {
    var b1 := Block(Title1, "AA", "AB", col1, n);
    var b2 := Block(Title2, "AD", "AE", col2, n);
    assert TrainSheet(col1, col2, n, bidTypeName)[2] == b1[2];
    assert TrainSheet(col1, col2, n, bidTypeName)[7] == b2[2];
  }

  /** The corrected pass counts and reports the same columns as the two scripts that fix AD and AG for this layout. */
  lemma CorrectedMatchesFixedColumns(names: seq<string>, n: nat, bidTypeName: string)
    requires var rc := TrainSetup.ResultColumns("cst"); |rc| <= |names| && names[..|rc|] == rc
    requires forall i, j :: 0 <= i < j < |names| ==> names[i] != names[j]
    ensures CorrectedTrainStatistics(names, n, bidTypeName).Some?
    ensures var cs := CorrectedTrainStatistics(names, n, bidTypeName).value;
            cs[2].content == GbStatistics(n)[2].content == ImprovedStatistics(n)[2].content
            && cs[7].content == GbStatistics(n)[7].content == ImprovedStatistics(n)[7].content
            && cs[12].content == GbStatistics(n)[12].content
  {
    VerdictIndices(names, "cst");
    SpellExamples();
    var t1 := Block(Title1, "AA", "AB", "AD", n);
    var t2 := Block(Title2, "AD", "AE", "AG", n);
    var g1 := Block(Title1, "AC", "AD", "AD", n);
    var g2 := Block(Title2, "AF", "AG", "AG", n);
    var s := Summary("AD", "AG", n);
    var cs := TrainSheet("AD", "AG", n, bidTypeName);
    assert cs[2] == t1[2] && cs[7] == t2[2] && cs[12] == s[2];
    assert GbStatistics(n)[2] == g1[2] && GbStatistics(n)[7] == g2[2] && GbStatistics(n)[12] == s[2];
    assert ImprovedStatistics(n)[2] == g1[2] && ImprovedStatistics(n)[7] == g2[2];
  }

  /** Outside the explicit `cst` layout the overrides land on the right columns: the correction changes nothing. */
  lemma CorrectionKeepsOtherLayouts(names: seq<string>, bidType: string, n: nat, bidTypeName: string)
    requires bidType != "cst"
    requires var rc := TrainSetup.ResultColumns(bidType); |rc| <= |names| && names[..|rc|] == rc
    requires forall i, j :: 0 <= i < j < |names| ==> names[i] != names[j]
    ensures CorrectedTrainStatistics(names, n, bidTypeName) == TrainStatistics(names, n, bidTypeName)
  {
    VerdictIndices(names, bidType);
    SpellExamples();
  }

  /** The frame `make_result_dataframe2` builds for the explicit `cst` layout is one the as-written pass miscounts. */
  lemma ConstructionResultMiscounted(test: Table, selected: seq<string>,
                                     r1: seq<Floats.Float>, r2: seq<Floats.Float>, r3: seq<Floats.Float>,
                                     bidTypeName: string)
    requires ResultFrame.Accepts(TrainSetup.ResultColumns("cst"), test, selected, r1, r2, r3)
    ensures ResultFrame.Fits(ResultFrame.Copied(TrainSetup.ResultColumns("cst"), test, selected), r1, r2, r3)
    ensures var u := ResultFrame.Result(TrainSetup.ResultColumns("cst"), test, selected, r1, r2, r3);
            TrainStatistics(u.names, u.rows, bidTypeName).Some?
    ensures var u := ResultFrame.Result(TrainSetup.ResultColumns("cst"), test, selected, r1, r2, r3);
            var cs := TrainStatistics(u.names, u.rows, bidTypeName).value;
            LastIndex(u.names, "결과1") == Some(27) && cs[2].content != CountFormula(SheetColumn(27), u.rows)
  {
    ResultFrame.ResultKeepsLayout(TrainSetup.ResultColumns("cst"), test, selected, r1, r2, r3);
    var u := ResultFrame.Result(TrainSetup.ResultColumns("cst"), test, selected, r1, r2, r3);
    VerdictIndices(u.names, "cst");
    ConstructionStatisticsMiscounted(u.names, u.rows, bidTypeName);
  }
}
