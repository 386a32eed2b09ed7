/**
 * The gradient-boosting training script: its fixed 22-column input order, the
 * hard-coded feature indices it selects, and its 31-column result table with
 * the statistics columns it fixes at AD and AG. The split buckets and the file
 * name are the ones of the MLP training script and are modelled there.
 */
module GbScript {

  import opened Wrappers
  import opened Floats
  import opened Frames
  import TrainSetup
  import ResultFrame
  import ExcelLayout
  import ResultStatistics

  /** `cvs_columns`: the 22 input columns in file order. */
  const GbCvsColumns: seq<string> :=
    ["기초금액", "낙찰하한률", "참여업체수",
     "낙찰금액", "업체투찰률", "예가투찰률", "투찰률오차",
     "간접비", "순공사원가", "입찰번호", "입찰차수",
     "예정금액", "낙찰하한가",
     "면허제한코드", "공고기관코드", "주공종명",
     "공고기관명", "공고기관점수",
     "공사지역", "공사지역점수",
     "키워드", "키워드점수"]

  /** `result_columns`: the 31 result columns. */
  const GbResultColumns: seq<string> :=
    ["입찰번호", "입찰차수", "기초금액",
     "낙찰하한률", "참여업체수", "간접비", "순공사원가",
     "면허제한코드", "공고기관코드",
     "공고기관명", "공고기관점수",
     "공사지역", "공사지역점수",
     "키워드", "키워드점수",
     "업체투찰률", "예가투찰률", "투찰률오차",
     "예정금액", "낙찰하한가", "낙찰금액",
     "업체투찰률예측", "예가투찰률예측", "참여업체수예측", "예정금액예측",
     "낙찰금액(업체투찰률) 예측", "A값여부", "결과1",
     "예정금액(예가투찰률) 예측", "예정금액*낙찰하한율", "결과2"]

  /** `selected_cols` of `make_result_dataframe2`: the 21 input columns copied into the result. */
  const GbSelected: seq<string> :=
    ["입찰번호", "입찰차수",
     "기초금액", "낙찰하한률", "참여업체수", "간접비", "순공사원가",
     "면허제한코드", "공고기관코드",
     "키워드", "키워드점수",
     "공고기관명", "공고기관점수",
     "공사지역", "공사지역점수",
     "업체투찰률", "예가투찰률", "투찰률오차",
     "예정금액", "낙찰하한가", "낙찰금액"]

  /** The feature indices `loadTrainsetFromFile` passes to `arrayToDataFrame`. */
  const FixedIndices: seq<nat> := [0, 1, 2, 7, 8, 13, 17, 19, 21]

  /** `arrayToDataFrame(row, idx)` on one row: the listed positions in the listed order; a position past the row is a missing value. */
  function Pick(row: seq<Float>, idx: seq<nat>): (r: seq<Float>)
    ensures |r| == |idx|
    ensures forall k :: 0 <= k < |idx| && idx[k] < |row| ==> r[k] == row[idx[k]]
    ensures forall k :: 0 <= k < |idx| && |row| <= idx[k] ==> r[k] == NaN
  {
    seq(|idx|, k requires 0 <= k < |idx| => if idx[k] < |row| then row[idx[k]] else NaN)
  }

  lemma GbCvsColumnsDistinct()
    ensures |GbCvsColumns| == 22
    ensures forall i, j :: 0 <= i < j < |GbCvsColumns| ==> GbCvsColumns[i] != GbCvsColumns[j]
  {
  }

  lemma FixedIndexFacts()
    ensures var c := GbCvsColumns;
      c[0] == "기초금액" && c[1] == "낙찰하한률" && c[2] == "참여업체수" && c[7] == "간접비" && c[8] == "순공사원가"
      && c[13] == "면허제한코드" && c[17] == "공고기관점수" && c[19] == "공사지역점수" && c[21] == "키워드점수"
  {
  }

  /** The fixed indices pick exactly the construction features, in the order the name-based selection lists them. */
  lemma FixedIndicesNameFeatures()
    ensures |FixedIndices| == |TrainSetup.FeatureColumns("cst")|
    ensures forall k :: 0 <= k < |FixedIndices| ==>
              FixedIndices[k] < |GbCvsColumns| && GbCvsColumns[FixedIndices[k]] == TrainSetup.FeatureColumns("cst")[k]
  {
    TrainSetup.CstFeatureColumns();
    FixedIndexFacts();
  }

  /** The hard-coded list is what the name-to-index selection computes over this script's column order. */
  lemma FixedIndicesAreSelected()
    ensures TrainSetup.Positions(GbCvsColumns, TrainSetup.FeatureColumns("cst")) == FixedIndices
  {
    GbCvsColumnsDistinct();
    FixedIndicesNameFeatures();
    TrainSetup.CstFeatureColumns();
    FixedIndexFacts();
    TrainSetup.PositionsOfDistinct(GbCvsColumns, TrainSetup.FeatureColumns("cst"), FixedIndices);
  }

  /**
   * On a full 22-cell row the fixed indices read each construction feature from
   * the cell of the column with that name; on a shorter row the trailing
   * `키워드점수` is missing.
   */
  lemma PickByName(row: seq<Float>)
    ensures |row| == |GbCvsColumns| ==>
              forall k, j :: 0 <= k < |FixedIndices| && 0 <= j < |GbCvsColumns| && GbCvsColumns[j] == TrainSetup.FeatureColumns("cst")[k] ==>
                Pick(row, FixedIndices)[k] == row[j]
    ensures |row| < |GbCvsColumns| ==> Pick(row, FixedIndices)[8].NaN?
  {
    FixedIndicesNameFeatures();
    GbCvsColumnsDistinct();
  }

  lemma GbResultFacts()
    ensures |GbResultColumns| == 31
    ensures forall i, j :: 0 <= i < j < |GbResultColumns| ==> GbResultColumns[i] != GbResultColumns[j]
    ensures GbResultColumns[27] == "결과1" && GbResultColumns[30] == "결과2"
  {
  }

  lemma GbResultSlices()
    ensures GbResultColumns[..5] == TrainSetup.BaseResultColumns[..5]
    ensures GbResultColumns[5..7] == TrainSetup.ConstructionResultColumns
    ensures GbResultColumns[7..] == TrainSetup.BaseResultColumns[5..]
  {
    GbResultHead();
    assert GbResultColumns[5] == "간접비" && GbResultColumns[6] == "순공사원가";
    assert GbResultColumns[5..7] == ["간접비", "순공사원가"];
    GbResultTail();
  }

  lemma GbResultHead()
    ensures GbResultColumns[..5] == TrainSetup.BaseResultColumns[..5]
  {
  }

  lemma GbResultTail()
    ensures GbResultColumns[7..] == TrainSetup.BaseResultColumns[5..]
  {
  }

  /** The script's result columns are the construction layout of the MLP script. */
  lemma GbResultIsConstructionLayout()
    ensures GbResultColumns == TrainSetup.ResultColumns("cst")
  {
    TrainSetup.CstResultColumns();
    GbResultSlices();
    var g := GbResultColumns;
    assert g == g[..5] + g[5..7] + g[7..];
  }

  /** Its copy list is the construction copy list of the MLP script. */
  lemma GbSelectedIsConstructionCopyList()
    ensures GbSelected == TrainSetup.ResultCopyList("cst")
  {
    var base := ["입찰번호", "입찰차수",
                 "기초금액", "낙찰하한률", "참여업체수",
                 "면허제한코드", "공고기관코드",
                 "키워드", "키워드점수",
                 "공고기관명", "공고기관점수",
                 "공사지역", "공사지역점수",
                 "업체투찰률", "예가투찰률", "투찰률오차",
                 "예정금액", "낙찰하한가", "낙찰금액"];
    assert TrainSetup.ResultCopyList("cst") == base[..5] + TrainSetup.ConstructionResultColumns + base[5..];
    TrainSetup.SpliceAt(base, 5, TrainSetup.ConstructionResultColumns);
  }

  /** Every copied column is an input column and a result column, and none is a derived one. */
  lemma GbSelectedFacts()
    ensures forall v :: v in GbSelected ==> v in GbCvsColumns && v in GbResultColumns && v !in ResultFrame.Computed
  {
    GbSelectedAreInputs();
    GbSelectedAreResults();
    GbSelectedNotComputed();
  }

  lemma GbSelectedAreInputs()
    ensures forall v :: v in GbSelected ==> v in GbCvsColumns
  {
  }

  lemma GbSelectedAreResults()
    ensures forall v :: v in GbSelected ==> v in GbResultColumns
  {
  }

  lemma GbSelectedNotComputed()
    ensures forall v :: v in GbSelected ==> v !in ResultFrame.Computed
  {
  }

  lemma GbComputedFacts()
    ensures forall k :: 0 <= k < |ResultFrame.Computed| ==> ResultFrame.Computed[k] in GbResultColumns
  {
  }

  /** What the script's caller hands over: the test rows in input-column order, the four amounts numeric, one prediction per row. */
  ghost predicate GbAccepts(test: Table, r1: seq<Float>, r2: seq<Float>, r3: seq<Float>)
  {
    test.Valid() && test.names == GbCvsColumns
    && test.IsNumeric(ResultFrame.Base) && test.IsNumeric(ResultFrame.LowerRate)
    && test.IsNumeric(ResultFrame.MinBid) && test.IsNumeric(ResultFrame.Actual)
    && |r1| == test.rows && |r2| == test.rows && |r3| == test.rows
  }

  lemma GbAcceptsResult(test: Table, r1: seq<Float>, r2: seq<Float>, r3: seq<Float>)
    requires GbAccepts(test, r1, r2, r3)
    ensures ResultFrame.Accepts(GbResultColumns, test, GbSelected, r1, r2, r3)
  {
    GbResultFacts();
  }

  /** `make_result_dataframe2`: the 31 result columns in order, the 21 copied columns unchanged, one row per test row. */
  lemma GbResultLayout(test: Table, r1: seq<Float>, r2: seq<Float>, r3: seq<Float>)
    requires GbAccepts(test, r1, r2, r3)
    ensures ResultFrame.Fits(ResultFrame.Copied(GbResultColumns, test, GbSelected), r1, r2, r3)
    ensures var u := ResultFrame.Result(GbResultColumns, test, GbSelected, r1, r2, r3);
            u.Valid() && u.names == GbResultColumns && u.rows == test.rows
            && forall v :: v in GbSelected ==> v in u.cols && u.cols[v] == test.cols[v]
  {
    GbAcceptsResult(test, r1, r2, r3);
    GbSelectedFacts();
    GbComputedFacts();
    ResultFrame.ResultColumnsInOrder(GbResultColumns, test, GbSelected, r1, r2, r3);
    ResultFrame.ResultKeepsLayout(GbResultColumns, test, GbSelected, r1, r2, r3);
    forall v | v in GbSelected
      ensures var u := ResultFrame.Result(GbResultColumns, test, GbSelected, r1, r2, r3);
              v in u.cols && u.cols[v] == test.cols[v]
    {
      ResultFrame.ResultKeepsCopied(GbResultColumns, test, GbSelected, r1, r2, r3, v);
    }
  }

  /** `make_result_dataframe2` filling the result frame column by column. */
  method GbMakeResultDataFrame(test: Table, r1: seq<Float>, r2: seq<Float>, r3: seq<Float>) returns (df: DataFrame)
    requires GbAccepts(test, r1, r2, r3)
    ensures ResultFrame.Fits(ResultFrame.Copied(GbResultColumns, test, GbSelected), r1, r2, r3)
    ensures df.Valid() && df.Value() == ResultFrame.Result(GbResultColumns, test, GbSelected, r1, r2, r3)
    ensures df.Value().names == GbResultColumns
  {
    GbAcceptsResult(test, r1, r2, r3);
    GbResultLayout(test, r1, r2, r3);
    df := ResultFrame.MakeResultDataFrame(GbResultColumns, test, GbSelected, r1, r2, r3);
  }

  lemma GbVerdictIndices(names: seq<string>)
    requires names == GbResultColumns
    ensures ResultStatistics.LastIndex(names, "결과1") == Some(27)
    ensures ResultStatistics.LastIndex(names, "결과2") == Some(30)
  {
    GbResultFacts();
  }

  /** The fixed AD and AG of the statistics block are the sheet columns of `결과1` and `결과2` in this script's result frame. */
  lemma GbStatisticsCountVerdicts(test: Table, r1: seq<Float>, r2: seq<Float>, r3: seq<Float>)
    requires GbAccepts(test, r1, r2, r3)
    ensures ResultFrame.Fits(ResultFrame.Copied(GbResultColumns, test, GbSelected), r1, r2, r3)
    ensures var u := ResultFrame.Result(GbResultColumns, test, GbSelected, r1, r2, r3);
            var cs := ResultStatistics.GbStatistics(u.rows);
            ResultStatistics.LastIndex(u.names, "결과1") == Some(27)
            && ResultStatistics.LastIndex(u.names, "결과2") == Some(30)
            && cs[2].content == ResultStatistics.CountFormula(ExcelLayout.SheetColumn(27), u.rows)
            && cs[7].content == ResultStatistics.CountFormula(ExcelLayout.SheetColumn(30), u.rows)
  {
    GbResultLayout(test, r1, r2, r3);
    var u := ResultFrame.Result(GbResultColumns, test, GbSelected, r1, r2, r3);
    GbVerdictIndices(u.names);
    ExcelLayout.SpellExamples();
    ResultStatistics.FixedCountColumns(u.rows);
  }
}
