/**
 * `BidPricePredict`: the five-point price sampling, the text-score
 * conversion, the feature assembly in front of the scaler and the amount
 * arithmetic of the `/api/predict` endpoint. The tokenizer, the vectorizer,
 * `np.log1p`, the pandas reductions, the scaler and the three regressors are
 * parameters.
 */
module BidPredict {

  import opened Floats
  import opened Frames
  import opened Wrappers
  import TextScorer
  import KiwiTokens
  import IF = InteractionFeatures
  import RF = RatioFeatures
  import TF = TextFeatures
  import SF = StatisticalFeatures

  // ---------------------------------------------------------------------
  // round(x, 0)
  // ---------------------------------------------------------------------

  /** `round(x, 0)` on the exact value: the nearest integer, a tie going to the even one. */
  function Round(x: real): (n: int)
    ensures x - 0.5 <= n as real <= x + 0.5
    ensures (n as real == x - 0.5 || n as real == x + 0.5) ==> n % 2 == 0
  {
    var f := x.Floor;
    var d := x - f as real;
    if d < 0.5 then f
    else if d > 0.5 then f + 1
    else if f % 2 == 0 then f
    else f + 1
  }

  /** Rounding never reverses the order of two values. */
  lemma RoundMonotone(x: real, y: real)
    requires x <= y
    ensures Round(x) <= Round(y)
  {
    if x < y {
      assert Round(x) as real - Round(y) as real < 1.0;
    }
  }

  /** Whole numbers round to themselves. */
  lemma RoundWhole(n: int)
    ensures Round(n as real) == n
  {
    assert (n as real).Floor == n;
  }

  // ---------------------------------------------------------------------
  // WinningPriceSamples
  // ---------------------------------------------------------------------

  /** The coefficients applied to the difference rate, from the upper bound to the lower one. */
  const Coefficients: seq<real> := [1.0, 0.5, 0.0, -0.5, -1.0]

  /** One sample: `round(int(bssamt) * (a + diffrt * v), 0)`. */
  function Sample(bssamt: int, diffrt: real, a: real, v: real): int
  {
    Round(bssamt as real * (a + diffrt * v))
  }

  /** The five samples, in coefficient order. */
  function Samples(bssamt: int, diffrt: real, a: real): (s: seq<int>)
    ensures |s| == |Coefficients|
  {
    seq(|Coefficients|, k requires 0 <= k < |Coefficients| => Sample(bssamt, diffrt, a, Coefficients[k]))
  }

  method WinningPriceSamples(bssamt: int, diffrt: real, a: real) returns (prices: seq<int>)
    ensures |prices| == 5
    ensures forall k :: 0 <= k < 5 ==> prices[k] == Round(bssamt as real * (a + diffrt * Coefficients[k]))
    ensures prices == Samples(bssamt, diffrt, a)
  {
    prices := [];
    for k := 0 to |Coefficients|
      invariant prices == Samples(bssamt, diffrt, a)[..k]
    {
      var price := Round(bssamt as real * (a + diffrt * Coefficients[k]));
      assert Samples(bssamt, diffrt, a)[k] == Sample(bssamt, diffrt, a, Coefficients[k]);
      assert Samples(bssamt, diffrt, a)[..k + 1] == Samples(bssamt, diffrt, a)[..k] + [price];
      prices := prices + [price];
    }
    assert Samples(bssamt, diffrt, a)[..5] == Samples(bssamt, diffrt, a);
  }

  lemma CoefficientsDescend()
    ensures forall i, j :: 0 <= i < j < |Coefficients| ==> Coefficients[i] > Coefficients[j]
  {
  }

  /** Scaling by a non-negative factor keeps the order. */
  lemma ScaleMonotone(c: real, x: real, y: real)
    requires c >= 0.0 && x <= y
    ensures c * x <= c * y
  {
    assert c * y - c * x == c * (y - x);
  }

  /** A larger coefficient never gives a smaller sample. */
  lemma SampleMonotone(bssamt: int, diffrt: real, a: real, v: real, w: real)
    requires bssamt >= 0 && diffrt >= 0.0 && w <= v
    ensures Sample(bssamt, diffrt, a, w) <= Sample(bssamt, diffrt, a, v)
  {
    ScaleMonotone(diffrt, w, v);
    ScaleMonotone(bssamt as real, a + diffrt * w, a + diffrt * v);
    RoundMonotone(bssamt as real * (a + diffrt * w), bssamt as real * (a + diffrt * v));
  }

  /** With a non-negative amount and difference rate the samples never increase, and the middle one is the plain prediction. */
  lemma SamplesDescend(bssamt: int, diffrt: real, a: real)
    requires bssamt >= 0 && diffrt >= 0.0
    ensures var s := Samples(bssamt, diffrt, a);
            (forall i, j :: 0 <= i < j < 5 ==> s[i] >= s[j]) && s[2] == Round(bssamt as real * a)
  {
    var s := Samples(bssamt, diffrt, a);
    CoefficientsDescend();
    forall i, j | 0 <= i < j < 5 ensures s[i] >= s[j] {
      SampleMonotone(bssamt, diffrt, a, Coefficients[i], Coefficients[j]);
    }
    assert a + diffrt * Coefficients[2] == a;
  }

  /** A zero difference rate makes all five samples the plain prediction. */
  lemma SamplesCollapse(bssamt: int, a: real)
    ensures forall k :: 0 <= k < 5 ==> Samples(bssamt, 0.0, a)[k] == Round(bssamt as real * a)
  {
  }

  // ---------------------------------------------------------------------
  // convertScore
  // ---------------------------------------------------------------------

  /** The vectorizer yields a well-formed matrix with at least one row for the cleaned line of `line`. */
  predicate Scorable(tokenize: string -> seq<KiwiTokens.Token>, transform: seq<string> -> TextScorer.Csr, line: Option<string>)
  {
    var m := transform([KiwiTokens.CleanLine(tokenize, line)]);
    m.WellFormed() && m.Rows() >= 1
  }

  /** `convertScore`: clean the line, vectorise it and take the first row's score. */
  method ConvertScore(tokenize: string -> seq<KiwiTokens.Token>, transform: seq<string> -> TextScorer.Csr, line: Option<string>)
    returns (pt: real)
    requires Scorable(tokenize, transform, line)
    ensures pt == TextScorer.RowScore(transform([KiwiTokens.CleanLine(tokenize, line)]), 0)
  {
    var nns := KiwiTokens.NnOnly(tokenize, [line]);
    assert nns == [KiwiTokens.CleanLine(tokenize, line)];
    var scores := TextScorer.Scores(transform, nns);
    pt := scores[0];
  }

  // ---------------------------------------------------------------------
  // PredictWinningPriceOfBidding: feature assembly
  // ---------------------------------------------------------------------

  /** The nine parameters after `int(...)` / `float(...)`. */
  datatype Params = Params(bssamt: int, lowerrt: Float, companycnt: int, a: int, orgamt: int,
                           limitlic: int, insttpt: Float, areapt: Float, keywordpt: Float)

  /** `required_columns`, the order the scaler expects, which is also the order of the parameters. */
  const Required: seq<string> :=
    ["기초금액", "낙찰하한률", "참여업체수", "A계산여부", "순공사원가적용여부", "면허제한코드", "공고기관점수", "공사지역점수", "키워드점수"]

  /** The parameters as the cells of the one-row frame. */
  function Converted(p: Params): (xs: seq<Float>)
    ensures |xs| == |Required|
  {
    [Fin(p.bssamt as real), p.lowerrt, Fin(p.companycnt as real), Fin(p.a as real), Fin(p.orgamt as real),
     Fin(p.limitlic as real), p.insttpt, p.areapt, p.keywordpt]
  }

  /** `pd.DataFrame({...})` of the nine parameters. */
  function BasicFrame(p: Params): Table
  {
    RequiredDistinct();
    Table(Required, map k | 0 <= k < |Required| :: Required[k] := Nums([Converted(p)[k]]), 1)
  }

  /** Every parameter column is present and holds its parameter. */
  ghost predicate Carries(p: Params, t: Table)
  {
    forall k :: 0 <= k < |Required| ==> Required[k] in t.cols && t.cols[Required[k]] == Nums([Converted(p)[k]])
  }

  /** None of the three text columns is present. */
  ghost predicate NoText(t: Table)
  {
    forall j :: 0 <= j < |TF.TextColumns| ==> TF.TextColumns[j] !in t.cols
  }

  lemma RequiredDistinct()
    ensures forall i, j :: 0 <= i < j < |Required| ==> Required[i] != Required[j]
  {
  }

  lemma BasicFrameCarries(p: Params)
    ensures Carries(p, BasicFrame(p))
  {
    var t := BasicFrame(p);
    RequiredDistinct();
    forall k | 0 <= k < |Required| ensures t.cols[Required[k]] == Nums([Converted(p)[k]]) {
      assert Required[k] in t.cols;
    }
  }

  lemma BasicFrameValid(p: Params)
    ensures var t := BasicFrame(p);
            t.Valid() && t.rows == 1 && forall n :: n in t.cols ==> t.cols[n].Nums?
  {
    RequiredDistinct();
  }

  lemma BasicFrameNoText(p: Params)
    ensures NoText(BasicFrame(p))
  {
    NoUnderscoreInInputs();
  }

  lemma BasicFrameFacts(p: Params)
    ensures var t := BasicFrame(p);
            t.Valid() && t.rows == 1 && Carries(p, t) && NoText(t)
            && (forall n :: n in t.cols ==> t.cols[n].Nums?)
  {
    BasicFrameValid(p);
    BasicFrameCarries(p);
    BasicFrameNoText(p);
  }

  /** No parameter name and no text-column name contains an underscore, and every derived name does. */
  lemma NoUnderscoreInInputs()
    ensures forall k :: 0 <= k < |Required| ==> '_' !in Required[k]
    ensures forall j :: 0 <= j < |TF.TextColumns| ==> '_' !in TF.TextColumns[j]
  {
  }

  lemma UnderscoreInDerived()
    ensures forall o :: o in IF.Outputs ==> '_' in o
    ensures forall o :: o in RF.Outputs ==> '_' in o
  {
    forall i, j | 0 <= i < 3 && 0 <= j < 3 ensures '_' in IF.PairName(i, j) {
      assert IF.PairName(i, j)[|IF.ScoreColumns[i]|] == '_';
    }
  }

  lemma TextNamesHaveUnderscore(j: nat, s: nat)
    requires j < 3 && s < 5
    ensures '_' in TF.DerivedName(j, s)
  {
    assert TF.DerivedName(j, s)[|TF.TextColumns[j]|] == TF.Suffixes[s][0];
  }

  lemma StatNamesHaveUnderscore(n: string, c: string)
    requires SF.DerivedFrom(n, c)
    ensures '_' in n
  {
    assert n[|c|] == '_';
  }

  lemma InteractionCarries(p: Params, t: Table)
    requires IF.Readable(t) && Carries(p, t) && NoText(t)
    ensures Carries(p, IF.Interaction(t)) && NoText(IF.Interaction(t))
  {
    NoUnderscoreInInputs();
    UnderscoreInDerived();
    forall k | 0 <= k < |Required| ensures Keeps(t, IF.Interaction(t), Required[k]) {
      IF.InteractionKeepsOtherColumns(t, Required[k]);
    }
    forall j | 0 <= j < |TF.TextColumns| ensures Keeps(t, IF.Interaction(t), TF.TextColumns[j]) {
      IF.InteractionKeepsOtherColumns(t, TF.TextColumns[j]);
    }
  }

  lemma RatioCarries(p: Params, t: Table, log1p: Float -> Float)
    requires RF.Readable(t) && Carries(p, t) && NoText(t)
    ensures Carries(p, RF.Ratio(t, log1p)) && NoText(RF.Ratio(t, log1p))
  {
    NoUnderscoreInInputs();
    UnderscoreInDerived();
    forall k | 0 <= k < |Required| ensures Keeps(t, RF.Ratio(t, log1p), Required[k]) {
      RF.RatioKeepsOtherColumns(t, log1p, Required[k]);
    }
    forall j | 0 <= j < |TF.TextColumns| ensures Keeps(t, RF.Ratio(t, log1p), TF.TextColumns[j]) {
      RF.RatioKeepsOtherColumns(t, log1p, TF.TextColumns[j]);
    }
  }

  lemma CategoricalCarries(p: Params, t: Table)
    requires TF.Readable(t) && Carries(p, t)
    ensures Carries(p, TF.Categorical(t))
  {
    NoUnderscoreInInputs();
    forall k | 0 <= k < |Required| ensures Keeps(t, TF.Categorical(t), Required[k]) {
      forall j, s | 0 <= j < 3 && 0 <= s < 5 ensures Required[k] != TF.DerivedName(j, s) {
        TextNamesHaveUnderscore(j, s);
      }
      TF.CategoricalKeeps(t, 3, Required[k]);
    }
  }

  lemma StatisticalCarries(p: Params, t: Table, ops: SF.Reductions)
    requires Carries(p, t)
    ensures Carries(p, SF.Statistical(t, ops))
  {
    NoUnderscoreInInputs();
    forall k | 0 <= k < |Required| ensures Keeps(t, SF.Statistical(t, ops), Required[k]) {
      forall c | c in t.cols ensures !SF.DerivedFrom(Required[k], c) {
        if SF.DerivedFrom(Required[k], c) {
          StatNamesHaveUnderscore(Required[k], c);
        }
      }
      SF.StatisticalKeepsOtherColumns(t, ops, Required[k]);
    }
  }

  /** The frame after `create_interaction_features`. */
  function AfterInteraction(p: Params): (u: Table)
    ensures RF.Readable(u) && Carries(p, u) && NoText(u)
  {
    BasicFrameFacts(p);
    InteractionCarries(p, BasicFrame(p));
    IF.Interaction(BasicFrame(p))
  }

  /** The frame after `create_ratio_features`. */
  function AfterRatio(p: Params, log1p: Float -> Float): (u: Table)
    ensures TF.Readable(u) && Carries(p, u)
  {
    RatioCarries(p, AfterInteraction(p), log1p);
    RF.Ratio(AfterInteraction(p), log1p)
  }

  /** The frame after `create_categorical_features`. */
  function AfterCategorical(p: Params, log1p: Float -> Float): (u: Table)
    ensures Carries(p, u)
  {
    CategoricalCarries(p, AfterRatio(p, log1p));
    TF.Categorical(AfterRatio(p, log1p))
  }

  /** The frame after the interaction, ratio, categorical and statistical transforms. */
  function Enhanced(p: Params, log1p: Float -> Float, ops: SF.Reductions): (u: Table)
    ensures Carries(p, u)
  {
    StatisticalCarries(p, AfterCategorical(p, log1p), ops);
    SF.Statistical(AfterCategorical(p, log1p), ops)
  }

  /** Row `i` of `df[ns].values.tolist()`. */
  function RowOf(t: Table, ns: seq<string>, i: nat): (r: seq<Float>)
    requires forall k :: 0 <= k < |ns| ==> ns[k] in t.cols && t.cols[ns[k]].Nums? && i < |t.cols[ns[k]].xs|
    ensures |r| == |ns|
  {
    seq(|ns|, k requires 0 <= k < |ns| => t.cols[ns[k]].xs[i])
  }

  /** After `fillna(0)` every parameter column holds its parameter, a NaN replaced by 0. */
  lemma FilledCarries(p: Params, e: Table)
    requires Carries(p, e)
    ensures forall k :: 0 <= k < |Required| ==>
              Required[k] in FillNa(e).cols && FillNa(e).cols[Required[k]].Nums?
              && FillNa(e).cols[Required[k]].xs == FillNaZero([Converted(p)[k]])
  {
    forall k | 0 <= k < |Required| ensures e.IsNumeric(Required[k]) {
    }
  }

  /**
   * `x_test_data`: the required columns of the filled frame. The transforms
   * only add columns, so the scaler sees exactly the nine parameters in
   * `required_columns` order, a NaN parameter having been filled with 0.
   */
  function ScalerInput(p: Params, log1p: Float -> Float, ops: SF.Reductions): (x: seq<Float>)
    ensures |x| == |Required|
    ensures forall k :: 0 <= k < |Required| ==> x[k] == if Converted(p)[k].NaN? then Fin(0.0) else Converted(p)[k]
  {
    FilledRow(p, Enhanced(p, log1p, ops))
  }

  /** `df.fillna(0)[required_columns].values.tolist()[0]` of a frame that carries the parameters. */
  function FilledRow(p: Params, e: Table): (x: seq<Float>)
    requires Carries(p, e)
    ensures |x| == |Required|
    ensures forall k :: 0 <= k < |Required| ==> x[k] == if Converted(p)[k].NaN? then Fin(0.0) else Converted(p)[k]
  {
    var t := FillNa(e);
    FilledCarries(p, e);
    ProjectedSingleRow(t, Required);
    RowOf(Project(t, Required), Required, 0)
  }

  /** Selecting listed one-row numeric columns keeps each of them. */
  lemma ProjectedSingleRow(t: Table, ns: seq<string>)
    requires forall k :: 0 <= k < |ns| ==> ns[k] in t.cols && t.cols[ns[k]].Nums? && |t.cols[ns[k]].xs| == 1
    ensures forall n :: n in ns ==> n in t.cols
    ensures forall k :: 0 <= k < |ns| ==>
              ns[k] in Project(t, ns).cols && Project(t, ns).cols[ns[k]] == t.cols[ns[k]]
  {
  }

  /** With no NaN among the parameters the scaler input is the parameters themselves. */
  lemma ScalerInputOfNumbers(p: Params, log1p: Float -> Float, ops: SF.Reductions)
    requires forall k :: 0 <= k < |Required| ==> !Converted(p)[k].NaN?
    ensures ScalerInput(p, log1p, ops) == Converted(p)
  {
  }

  /** The trained scaler and the three regressors (bidder rate, reference rate, bidder count). */
  datatype Models = Models(scaler: seq<Float> -> seq<real>,
                           model1: seq<real> -> real, model2: seq<real> -> real, model3: seq<real> -> real)

  /** `PredictWinningPriceOfBidding`: build the one-row frame, run the four transforms in place, fill, select, scale, predict. */
  method PredictWinningPriceOfBidding(p: Params, log1p: Float -> Float, ops: SF.Reductions, ms: Models)
    returns (predrts: seq<real>)
    ensures var x := ms.scaler(ScalerInput(p, log1p, ops));
            predrts == [ms.model1(x), ms.model2(x), ms.model3(x)]
  {
    BasicFrameFacts(p);
    var df := new DataFrame(BasicFrame(p));
    IF.CreateInteractionFeatures(df);
    assert df.Value() == AfterInteraction(p);
    RF.CreateRatioFeatures(df, log1p);
    assert df.Value() == AfterRatio(p, log1p);
    TF.CreateCategoricalFeatures(df);
    assert df.Value() == AfterCategorical(p, log1p);
    SF.CreateStatisticalFeatures(df, ops);
    assert df.Value() == Enhanced(p, log1p, ops);
    var filled := FillNa(df.Value());
    var xTestData := RowOf(Project(filled, Required), Required, 0);
    var xTest := ms.scaler(xTestData);
    predrts := [ms.model1(xTest), ms.model2(xTest), ms.model3(xTest)];
  }

  // ---------------------------------------------------------------------
  // The /api/predict amounts
  // ---------------------------------------------------------------------

  /** The JSON body of `/api/predict`. */
  datatype Response = Response(planLowerRatio: real, comLowerRatio: real, avgDiffRatio: real,
                               planPredictedAmt: int, comPredictedAmt: int,
                               predictedAmountsInScope: seq<int>, companyCount: real)

  /** The endpoint arithmetic on the three predictions. */
  function Answer(bssamt: int, diffrt: real, predrts: seq<real>): (r: Response)
    requires |predrts| == 3
    ensures r.comLowerRatio == predrts[0] && r.planLowerRatio == predrts[1] && r.companyCount == predrts[2]
    ensures r.avgDiffRatio == diffrt
    ensures |r.predictedAmountsInScope| == 10
    ensures r.predictedAmountsInScope[..5] == Samples(bssamt, diffrt, predrts[0])
    ensures r.predictedAmountsInScope[5..] == Samples(bssamt, diffrt, predrts[1])
    ensures r.comPredictedAmt == r.predictedAmountsInScope[2]
    ensures r.planPredictedAmt == r.predictedAmountsInScope[7]
  {
    var comlowrt, planlowrt := predrts[0], predrts[1];
    assert comlowrt + diffrt * Coefficients[2] == comlowrt;
    assert planlowrt + diffrt * Coefficients[2] == planlowrt;
    assert Samples(bssamt, diffrt, comlowrt)[2] == Sample(bssamt, diffrt, comlowrt, Coefficients[2]);
    assert Samples(bssamt, diffrt, planlowrt)[2] == Sample(bssamt, diffrt, planlowrt, Coefficients[2]);
    Response(planlowrt, comlowrt, diffrt,
             Round(bssamt as real * planlowrt), Round(bssamt as real * comlowrt),
             Samples(bssamt, diffrt, comlowrt) + Samples(bssamt, diffrt, planlowrt), predrts[2])
  }

  /** What the predictor was loaded with. */
  datatype Predictor = Predictor(tokenize: string -> seq<KiwiTokens.Token>, transform: seq<string> -> TextScorer.Csr,
                                 log1p: Float -> Float, ops: SF.Reductions, ms: Models, avgDiffrt: real)

  /** `Predict`: score the three texts, predict the three rates, and derive the amounts. */
  method Predict(pr: Predictor, bssamt: int, lowerrt: Float, companycnt: int, a: int, orgamt: int, limitlic: int,
                 instt: Option<string>, area: Option<string>, keyword: Option<string>)
    returns (r: Response)
    requires Scorable(pr.tokenize, pr.transform, instt)
    requires Scorable(pr.tokenize, pr.transform, area)
    requires Scorable(pr.tokenize, pr.transform, keyword)
    ensures var score := (line: Option<string>) requires Scorable(pr.tokenize, pr.transform, line) =>
                           TextScorer.RowScore(pr.transform([KiwiTokens.CleanLine(pr.tokenize, line)]), 0);
            var p := Params(bssamt, lowerrt, companycnt, a, orgamt, limitlic,
                            Fin(score(instt)), Fin(score(area)), Fin(score(keyword)));
            var x := pr.ms.scaler(ScalerInput(p, pr.log1p, pr.ops));
            r == Answer(bssamt, pr.avgDiffrt, [pr.ms.model1(x), pr.ms.model2(x), pr.ms.model3(x)])
  {
    var insttpt := ConvertScore(pr.tokenize, pr.transform, instt);
    var areapt := ConvertScore(pr.tokenize, pr.transform, area);
    var keywordpt := ConvertScore(pr.tokenize, pr.transform, keyword);
    var p := Params(bssamt, lowerrt, companycnt, a, orgamt, limitlic, Fin(insttpt), Fin(areapt), Fin(keywordpt));
    var predrts := PredictWinningPriceOfBidding(p, pr.log1p, pr.ops, pr.ms);
    r := Answer(bssamt, pr.avgDiffrt, predrts);
  }
}
