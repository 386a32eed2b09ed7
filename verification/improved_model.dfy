/**
 * The evaluation script that replays trained models on a data file: the
 * feature selection it feeds the scaler, the result table it builds from the
 * original rows, the averaged scores it reports and the statistics it writes.
 * It uses the same 31 result columns and 21 copied columns as the
 * gradient-boosting script.
 */
module ImprovedModel {

  import opened Wrappers
  import opened Floats
  import opened Frames
  import TrainSetup
  import ResultFrame
  import GbScript
  import ExcelLayout
  import ResultStatistics

  /** `original_features`: the nine features the models were trained on. */
  const OriginalFeatures: seq<string> :=
    ["기초금액", "낙찰하한률", "참여업체수", "간접비", "순공사원가",
     "면허제한코드", "공고기관점수", "공사지역점수", "키워드점수"]

  /** They are the construction features of the training scripts. */
  lemma OriginalAreConstructionFeatures()
    ensures OriginalFeatures == TrainSetup.FeatureColumns("cst")
  {
    TrainSetup.CstFeatureColumns();
  }

  /** `available_features`: the original features the frame has, in their listed order. */
  function AvailableFeatures(x: Table): seq<string>
  {
    TrainSetup.Present(OriginalFeatures, x.names)
  }

  /** `dataset_x[available_features].fillna(0)`. */
  function SelectedFeatures(x: Table): Table
    requires x.Valid()
  {
    FillNa(Project(x, AvailableFeatures(x)))
  }

  /**
   * The scaler input holds exactly the available original features, each at most
   * once, numeric ones with their missing cells set to 0 and the rest of their cells kept.
   */
  lemma SelectedFeaturesShape(x: Table)
    requires x.Valid()
    ensures var u := SelectedFeatures(x);
      u.Valid() && u.rows == x.rows && u.names == AvailableFeatures(x)
      && (forall n :: n in u.names <==> n in OriginalFeatures && n in x.cols)
      && (forall n :: n in u.names && x.IsNumeric(n) ==>
            u.IsNumeric(n) && |u.cols[n].xs| == |x.cols[n].xs|
            && forall i :: 0 <= i < |x.cols[n].xs| ==>
                 !u.cols[n].xs[i].NaN? && (x.cols[n].xs[i].NaN? || u.cols[n].xs[i] == x.cols[n].xs[i]))
  {
    var ns := AvailableFeatures(x);
    assert forall i, j :: 0 <= i < j < |OriginalFeatures| ==> OriginalFeatures[i] != OriginalFeatures[j];
    TrainSetup.PresentDistinct(OriginalFeatures, x.names);
    ProjectValid(x, ns);
    var p := Project(x, ns);
    var u := SelectedFeatures(x);
    assert forall n :: n in u.cols ==> u.cols[n].Len() == p.cols[n].Len();
  }

  /** A frame with all nine features feeds them in the training order. */
  lemma AllFeaturesInOrder(x: Table)
    requires x.Valid()
    requires forall n :: n in OriginalFeatures ==> n in x.names
    ensures SelectedFeatures(x).names == OriginalFeatures
  {
    TrainSetup.PresentAll(OriginalFeatures, x.names);
  }

  /** `original_data[selected_cols]` raises `KeyError` naming the missing columns. */
  datatype EvalError = KeyError(missing: seq<string>)

  /** The copied columns the original data lacks, in listed order. */
  function MissingColumns(original: Table): (m: seq<string>)
    ensures forall v :: v in m <==> v in GbScript.GbSelected && v !in original.cols
  {
    MissingFrom(GbScript.GbSelected, original)
  }

  function MissingFrom(names: seq<string>, t: Table): (m: seq<string>)
    ensures forall v :: v in m <==> v in names && v !in t.cols
    decreases |names|
  {
    if |names| == 0 then []
    else
      var x := names[|names| - 1];
      MissingFrom(names[..|names| - 1], t) + (if x in t.cols then [] else [x])
  }

  /** What the script hands over: valid original rows, the four amounts numeric where present, one prediction per row. */
  ghost predicate EvalAccepts(original: Table, r1: seq<Float>, r2: seq<Float>, r3: seq<Float>)
  {
    original.Valid()
    && NumericIfPresent(original, ResultFrame.Inputs)
    && |r1| == original.rows && |r2| == original.rows && |r3| == original.rows
  }

  lemma GbSelectedDistinct()
    ensures forall i, j :: 0 <= i < j < |GbScript.GbSelected| ==> GbScript.GbSelected[i] != GbScript.GbSelected[j]
    ensures ResultFrame.Base in GbScript.GbSelected && ResultFrame.LowerRate in GbScript.GbSelected
    ensures ResultFrame.MinBid in GbScript.GbSelected && ResultFrame.Actual in GbScript.GbSelected
  {
  }

  /** `df_test`: the copied columns of the original rows, once all of them exist. */
  function TestFrame(original: Table): (t: Table)
    requires |MissingColumns(original)| == 0
  {
    Project(original, GbScript.GbSelected)
  }

  lemma TestFrameAccepted(original: Table, r1: seq<Float>, r2: seq<Float>, r3: seq<Float>)
    requires EvalAccepts(original, r1, r2, r3) && |MissingColumns(original)| == 0
    ensures ResultFrame.Accepts(GbScript.GbResultColumns, TestFrame(original), GbScript.GbSelected, r1, r2, r3)
  {
    GbSelectedDistinct();
    GbScript.GbResultFacts();
    ProjectValid(original, GbScript.GbSelected);
    var t := TestFrame(original);
    assert NumericIfPresent(original, ResultFrame.Inputs);
    assert ResultFrame.Inputs == [ResultFrame.Base, ResultFrame.LowerRate, ResultFrame.MinBid, ResultFrame.Actual];
    assert original.IsNumeric(ResultFrame.Inputs[0]) && original.IsNumeric(ResultFrame.Inputs[1]);
    assert original.IsNumeric(ResultFrame.Inputs[2]) && original.IsNumeric(ResultFrame.Inputs[3]);
  }

  /** `make_result_dataframe`: the `KeyError` of a missing column, otherwise the result table. */
  function ResultTable(original: Table, r1: seq<Float>, r2: seq<Float>, r3: seq<Float>): Result<Table, EvalError>
    requires EvalAccepts(original, r1, r2, r3)
  {
    var m := MissingColumns(original);
    if |m| > 0 then Err(KeyError(m))
    else
      TestFrameAccepted(original, r1, r2, r3);
      ResultFrame.AcceptedFits(GbScript.GbResultColumns, TestFrame(original), GbScript.GbSelected, r1, r2, r3);
      Ok(ResultFrame.Result(GbScript.GbResultColumns, TestFrame(original), GbScript.GbSelected, r1, r2, r3))
  }

  /**
   * The table is refused exactly when a copied column is missing, and the error
   * names every missing one; otherwise it has the 31 result columns in order,
   * one row per original row, and the 21 copied columns as the original has them.
   */
  lemma ResultTableOutcome(original: Table, r1: seq<Float>, r2: seq<Float>, r3: seq<Float>)
    requires EvalAccepts(original, r1, r2, r3)
    ensures ResultTable(original, r1, r2, r3).Err? <==> exists v :: v in GbScript.GbSelected && v !in original.cols
    ensures ResultTable(original, r1, r2, r3).Err? ==>
              forall v :: v in ResultTable(original, r1, r2, r3).error.missing <==> v in GbScript.GbSelected && v !in original.cols
    ensures ResultTable(original, r1, r2, r3).Ok? ==>
              var u := ResultTable(original, r1, r2, r3).value;
              u.Valid() && u.names == GbScript.GbResultColumns && u.rows == original.rows
              && forall v :: v in GbScript.GbSelected ==> v in u.cols && u.cols[v] == original.cols[v]
  {
    var m := MissingColumns(original);
    if |m| > 0 {
      assert m[0] in m;
    } else {
      var t := TestFrame(original);
      TestFrameAccepted(original, r1, r2, r3);
      GbSelectedDistinct();
      ProjectValid(original, GbScript.GbSelected);
      assert t.names == GbScript.GbSelected;
      ResultFrame.ResultKeepsLayout(GbScript.GbResultColumns, t, GbScript.GbSelected, r1, r2, r3);
      GbScript.GbSelectedFacts();
      GbScript.GbComputedFacts();
      ResultFrame.ResultColumnsInOrder(GbScript.GbResultColumns, t, GbScript.GbSelected, r1, r2, r3);
      forall v | v in GbScript.GbSelected
        ensures var u := ResultFrame.Result(GbScript.GbResultColumns, t, GbScript.GbSelected, r1, r2, r3);
                v in u.cols && u.cols[v] == original.cols[v]
      {
        ResultFrame.ResultKeepsCopied(GbScript.GbResultColumns, t, GbScript.GbSelected, r1, r2, r3, v);
      }
    }
  }

  /** The statistics written after the table count `낙찰` in the sheet columns of `결과1` and `결과2`. */
  lemma StatisticsCountVerdicts(original: Table, r1: seq<Float>, r2: seq<Float>, r3: seq<Float>)
    requires EvalAccepts(original, r1, r2, r3)
    requires ResultTable(original, r1, r2, r3).Ok?
    ensures var u := ResultTable(original, r1, r2, r3).value;
            var cs := ResultStatistics.ImprovedStatistics(u.rows);
            ResultStatistics.LastIndex(u.names, "결과1") == Some(27)
            && ResultStatistics.LastIndex(u.names, "결과2") == Some(30)
            && cs[2].content == ResultStatistics.CountFormula(ExcelLayout.SheetColumn(27), u.rows)
            && cs[7].content == ResultStatistics.CountFormula(ExcelLayout.SheetColumn(30), u.rows)
  {
    ResultTableOutcome(original, r1, r2, r3);
    var u := ResultTable(original, r1, r2, r3).value;
    GbScript.GbVerdictIndices(u.names);
    ExcelLayout.SpellExamples();
    ResultStatistics.FixedCountColumns(u.rows);
  }

  /** `avg_r2` and `avg_rmse`: the mean of the three models' scores. */
  function Mean3(a: real, b: real, c: real): (m: real)
    ensures (a <= m || b <= m || c <= m) && (m <= a || m <= b || m <= c)
    ensures a == b == c ==> m == a
    ensures 3.0 * m == a + b + c
  {
    (a + b + c) / 3.0
  }

  /** The mean lies between the smallest and the largest score. */
  lemma MeanBetween(a: real, b: real, c: real)
    ensures var lo := if a <= b && a <= c then a else if b <= c then b else c;
            var hi := if a >= b && a >= c then a else if b >= c then b else c;
            lo <= Mean3(a, b, c) <= hi
  {
  }
}
