/**
 * `create_interaction_features`: products and squares of the amount, rate,
 * bidder-count and licence columns, and the pairwise products of the three
 * text-score columns, each added only when its inputs are present.
 */
module InteractionFeatures {

  import opened Floats
  import opened Frames
  import opened ColumnMath

  const Base := "기초금액"
  const LowerRate := "낙찰하한률"
  const Bidders := "참여업체수"
  const License := "면허제한코드"

  /** The three text-score columns, in the order the pair loop visits them. */
  const ScoreColumns: seq<string> := ["공고기관점수", "공사지역점수", "키워드점수"]

  /** The columns the transform reads. */
  const Inputs: seq<string> := [Base, LowerRate, Bidders, License] + ScoreColumns

  /** `f'{col1}_{col2}'` for score columns `i` and `j`. */
  function PairName(i: nat, j: nat): string
    requires i < 3 && j < 3
  {
    ScoreColumns[i] + "_" + ScoreColumns[j]
  }

  /** Every column name the transform can write. */
  const Outputs: seq<string> :=
    ["기초금액_낙찰하한률", "기초금액_제곱", "낙찰하한률_제곱", "참여업체수_기초금액", "참여업체수_제곱", "면허제한코드_기초금액",
     PairName(0, 1), PairName(0, 2), PairName(1, 2)]

  function Col(t: Table, n: string): (xs: seq<Float>)
    requires t.Valid() && t.IsNumeric(n)
    ensures |xs| == t.rows
  {
    t.cols[n].xs
  }

  /** The frame is well formed and every input column that is present is numeric. */
  ghost predicate Readable(t: Table)
  {
    t.Valid() && NumericIfPresent(t, Inputs)
  }

  /** Assigning a numeric column of the right length keeps the frame readable. */
  lemma SetNumsReadable(t: Table, name: string, xs: seq<Float>)
    requires Readable(t) && |xs| == t.rows
    ensures Readable(t.Set(name, Nums(xs))) && t.Set(name, Nums(xs)).rows == t.rows
  {
    SetValid(t, name, Nums(xs));
  }

  /** Step 1: amount times rate and both squares, when both are present. */
  function AddAmountTerms(t: Table): (u: Table)
    requires Readable(t)
    ensures Readable(u) && u.rows == t.rows
  {
    if t.Has(Base) && t.Has(LowerRate) then
      var b, r := Col(t, Base), Col(t, LowerRate);
      SetNumsReadable(t, "기초금액_낙찰하한률", Product(b, r));
      var t1 := t.Set("기초금액_낙찰하한률", Nums(Product(b, r)));
      SetNumsReadable(t1, "기초금액_제곱", Product(b, b));
      var t2 := t1.Set("기초금액_제곱", Nums(Product(b, b)));
      SetNumsReadable(t2, "낙찰하한률_제곱", Product(r, r));
      t2.Set("낙찰하한률_제곱", Nums(Product(r, r)))
    else t
  }

  /** Step 2: bidder count times amount and its square, when both are present. */
  function AddBidderTerms(t: Table): (u: Table)
    requires Readable(t)
    ensures Readable(u) && u.rows == t.rows
  {
    if t.Has(Bidders) && t.Has(Base) then
      var c, b := Col(t, Bidders), Col(t, Base);
      SetNumsReadable(t, "참여업체수_기초금액", Product(c, b));
      var t1 := t.Set("참여업체수_기초금액", Nums(Product(c, b)));
      SetNumsReadable(t1, "참여업체수_제곱", Product(c, c));
      t1.Set("참여업체수_제곱", Nums(Product(c, c)))
    else t
  }

  /** Step 3: licence code times amount, when both are present. */
  function AddLicenseTerm(t: Table): (u: Table)
    requires Readable(t)
    ensures Readable(u) && u.rows == t.rows
  {
    if t.Has(License) && t.Has(Base) then
      var p := Product(Col(t, License), Col(t, Base));
      SetNumsReadable(t, "면허제한코드_기초금액", p);
      t.Set("면허제한코드_기초금액", Nums(p))
    else t
  }

  /** One iteration of the pair loop: the product of score columns `i` and `j`, when both are present. */
  function AddPair(t: Table, i: nat, j: nat): (u: Table)
    requires Readable(t) && i < 3 && j < 3
    ensures Readable(u) && u.rows == t.rows
  {
    var c1, c2 := ScoreColumns[i], ScoreColumns[j];
    if t.Has(c1) && t.Has(c2) then
      var p := Product(Col(t, c1), Col(t, c2));
      SetValid(t, PairName(i, j), Nums(p));
      t.Set(PairName(i, j), Nums(p))
    else t
  }

  /** The pair loop stopped before inner index `j` of outer index `i`. */
  function PairsUpTo(t: Table, i: nat, j: nat): (u: Table)
    requires Readable(t) && i <= 3
    ensures Readable(u) && u.rows == t.rows
  {
    if i == 0 then
      (if j <= 1 then t else if j == 2 then AddPair(t, 0, 1) else AddPair(AddPair(t, 0, 1), 0, 2))
    else if i == 1 then
      var t1 := AddPair(AddPair(t, 0, 1), 0, 2);
      if j <= 2 then t1 else AddPair(t1, 1, 2)
    else AddPair(AddPair(AddPair(t, 0, 1), 0, 2), 1, 2)
  }

  /** The frame after `create_interaction_features`. */
  function Interaction(t: Table): (u: Table)
    requires Readable(t)
    ensures Readable(u) && u.rows == t.rows
  {
    PairsUpTo(AddLicenseTerm(AddBidderTerms(AddAmountTerms(t))), 3, 3)
  }

  /** `create_interaction_features(df)`, which adds its columns to `df` itself. */
  method CreateInteractionFeatures(df: DataFrame)
    requires df.Valid() && Readable(df.Value())
    modifies df
    ensures df.Valid() && df.Value() == Interaction(old(df.Value()))
  {
    AddAmountColumns(df);
    AddBidderColumns(df);
    AddLicenseColumn(df);
    AddScorePairs(df);
  }

  lemma PairStep(t: Table, i: nat, j: nat)
    requires Readable(t) && i < j < 3
    ensures PairsUpTo(t, i, j + 1) == AddPair(PairsUpTo(t, i, j), i, j)
  {
  }

  lemma RowStep(t: Table, i: nat)
    requires Readable(t) && i < 3
    ensures PairsUpTo(t, i, 3) == PairsUpTo(t, i + 1, i + 2)
  {
  }

  /** The pair loop over the three score columns. */
  method AddScorePairs(df: DataFrame)
    requires df.Valid() && Readable(df.Value())
    modifies df
    ensures df.Valid() && df.Value() == PairsUpTo(old(df.Value()), 3, 3)
  {
    ghost var t := df.Value();
    var textColumns := ScoreColumns;
    for i := 0 to 3
      invariant df.Valid() && df.Value() == PairsUpTo(t, i, i + 1)
    {
      for j := i + 1 to 3
        invariant df.Valid() && df.Value() == PairsUpTo(t, i, j)
      {
        PairStep(t, i, j);
        var col1, col2 := textColumns[i], textColumns[j];
        if col1 in df.cols && col2 in df.cols {
          df.Assign(col1 + "_" + col2, Nums(Product(df.cols[col1].xs, df.cols[col2].xs)));
        }
      }
      RowStep(t, i);
    }
  }

  method AddAmountColumns(df: DataFrame)
    requires df.Valid() && Readable(df.Value())
    modifies df
    ensures df.Valid() && df.Value() == AddAmountTerms(old(df.Value()))
  {
    if Base in df.cols && LowerRate in df.cols {
      var b, r := df.cols[Base].xs, df.cols[LowerRate].xs;
      df.Assign("기초금액_낙찰하한률", Nums(Product(b, r)));
      df.Assign("기초금액_제곱", Nums(Product(b, b)));
      df.Assign("낙찰하한률_제곱", Nums(Product(r, r)));
    }
  }

  method AddBidderColumns(df: DataFrame)
    requires df.Valid() && Readable(df.Value())
    modifies df
    ensures df.Valid() && df.Value() == AddBidderTerms(old(df.Value()))
  {
    if Bidders in df.cols && Base in df.cols {
      var c, b := df.cols[Bidders].xs, df.cols[Base].xs;
      df.Assign("참여업체수_기초금액", Nums(Product(c, b)));
      df.Assign("참여업체수_제곱", Nums(Product(c, c)));
    }
  }

  method AddLicenseColumn(df: DataFrame)
    requires df.Valid() && Readable(df.Value())
    modifies df
    ensures df.Valid() && df.Value() == AddLicenseTerm(old(df.Value()))
  {
    if License in df.cols && Base in df.cols {
      df.Assign("면허제한코드_기초금액", Nums(Product(df.cols[License].xs, df.cols[Base].xs)));
    }
  }

  const AmountOutputs: seq<string> := ["기초금액_낙찰하한률", "기초금액_제곱", "낙찰하한률_제곱"]
  const BidderOutputs: seq<string> := ["참여업체수_기초금액", "참여업체수_제곱"]
  const LicenseOutput := "면허제한코드_기초금액"

  lemma AmountKeeps(t: Table, n: string)
    requires Readable(t) && n !in AmountOutputs
    ensures Keeps(t, AddAmountTerms(t), n) && Extends(t, AddAmountTerms(t))
  {
  }

  lemma BidderKeeps(t: Table, n: string)
    requires Readable(t) && n !in BidderOutputs
    ensures Keeps(t, AddBidderTerms(t), n) && Extends(t, AddBidderTerms(t))
  {
  }

  lemma LicenseKeeps(t: Table, n: string)
    requires Readable(t) && n != LicenseOutput
    ensures Keeps(t, AddLicenseTerm(t), n) && Extends(t, AddLicenseTerm(t))
  {
  }

  lemma PairKeeps(t: Table, i: nat, j: nat, n: string)
    requires Readable(t) && i < 3 && j < 3 && n != PairName(i, j)
    ensures Keeps(t, AddPair(t, i, j), n) && Extends(t, AddPair(t, i, j))
  {
  }

  /** The pair loop changes nothing but the three pair columns. */
  lemma PairsKeep(t: Table, n: string)
    requires Readable(t) && n != PairName(0, 1) && n != PairName(0, 2) && n != PairName(1, 2)
    ensures Keeps(t, PairsUpTo(t, 3, 3), n) && Extends(t, PairsUpTo(t, 3, 3))
  {
    var t1 := AddPair(t, 0, 1);
    var t2 := AddPair(t1, 0, 2);
    PairKeeps(t, 0, 1, n);
    PairKeeps(t1, 0, 2, n);
    PairKeeps(t2, 1, 2, n);
    ExtendsTransitive(t, t1, t2);
    ExtendsTransitive(t, t2, AddPair(t2, 1, 2));
  }

  /**
   * Every column outside the derived names, the inputs included, keeps its
   * presence and content, and the original columns stay first in their order.
   */
  lemma InteractionKeepsOtherColumns(t: Table, n: string)
    requires Readable(t) && n !in Outputs
    ensures n in Interaction(t).cols <==> n in t.cols
    ensures n in t.cols ==> Interaction(t).cols[n] == t.cols[n]
    ensures |t.names| <= |Interaction(t).names| && Interaction(t).names[..|t.names|] == t.names
  {
    var t1 := AddAmountTerms(t);
    var t2 := AddBidderTerms(t1);
    var t3 := AddLicenseTerm(t2);
    AmountKeeps(t, n);
    BidderKeeps(t1, n);
    LicenseKeeps(t2, n);
    PairsKeep(t3, n);
    ExtendsTransitive(t, t1, t2);
    ExtendsTransitive(t, t2, t3);
    ExtendsTransitive(t, t3, Interaction(t));
  }

  lemma InputsAreNotOutputs()
    ensures forall n :: n in Inputs ==> n !in Outputs
  {
  }

  /**
   * The amount terms are added exactly when both the amount and the rate are
   * present, and then hold the product and the squares of those columns.
   */
  lemma AmountTermsGuarded(t: Table)
    requires Readable(t)
    requires forall o :: o in Outputs ==> o !in t.cols
    ensures var u := Interaction(t);
            var both := t.Has(Base) && t.Has(LowerRate);
            ("기초금액_낙찰하한률" in u.cols <==> both)
            && ("기초금액_제곱" in u.cols <==> both)
            && ("낙찰하한률_제곱" in u.cols <==> both)
            && (both ==>
                  u.cols["기초금액_낙찰하한률"] == Nums(Product(Col(t, Base), Col(t, LowerRate)))
                  && u.cols["기초금액_제곱"] == Nums(Product(Col(t, Base), Col(t, Base)))
                  && u.cols["낙찰하한률_제곱"] == Nums(Product(Col(t, LowerRate), Col(t, LowerRate))))
  {
    var t1 := AddAmountTerms(t);
    var t2 := AddBidderTerms(t1);
    var t3 := AddLicenseTerm(t2);
    LaterStepsKeep(t, "기초금액_낙찰하한률");
    LaterStepsKeep(t, "기초금액_제곱");
    LaterStepsKeep(t, "낙찰하한률_제곱");
  }

  /** Columns that none of steps 2 to 4 targets come out as step 1 left them. */
  lemma LaterStepsKeep(t: Table, n: string)
    requires Readable(t) && n !in BidderOutputs && n != LicenseOutput
    requires n != PairName(0, 1) && n != PairName(0, 2) && n != PairName(1, 2)
    ensures Keeps(AddAmountTerms(t), Interaction(t), n)
  {
    var t1 := AddAmountTerms(t);
    var t2 := AddBidderTerms(t1);
    var t3 := AddLicenseTerm(t2);
    BidderKeeps(t1, n);
    LicenseKeeps(t2, n);
    PairsKeep(t3, n);
  }

  /** The bidder terms are added exactly when both the bidder count and the amount are present. */
  lemma BidderTermsGuarded(t: Table)
    requires Readable(t)
    requires forall o :: o in Outputs ==> o !in t.cols
    ensures var u := Interaction(t);
            var both := t.Has(Bidders) && t.Has(Base);
            ("참여업체수_기초금액" in u.cols <==> both)
            && ("참여업체수_제곱" in u.cols <==> both)
            && (both ==>
                  u.cols["참여업체수_기초금액"] == Nums(Product(Col(t, Bidders), Col(t, Base)))
                  && u.cols["참여업체수_제곱"] == Nums(Product(Col(t, Bidders), Col(t, Bidders))))
  {
    var t1 := AddAmountTerms(t);
    var t2 := AddBidderTerms(t1);
    var t3 := AddLicenseTerm(t2);
    BidderStepGuarded(t);
    LicenseKeeps(t2, "참여업체수_기초금액");
    LicenseKeeps(t2, "참여업체수_제곱");
    PairsKeep(t3, "참여업체수_기초금액");
    PairsKeep(t3, "참여업체수_제곱");
  }

  /** Right after step 2 the bidder terms are there exactly when their inputs are. */
  lemma BidderStepGuarded(t: Table)
    requires Readable(t)
    requires forall o :: o in Outputs ==> o !in t.cols
    ensures var u := AddBidderTerms(AddAmountTerms(t));
            var both := t.Has(Bidders) && t.Has(Base);
            ("참여업체수_기초금액" in u.cols <==> both)
            && ("참여업체수_제곱" in u.cols <==> both)
            && (both ==>
                  u.cols["참여업체수_기초금액"] == Nums(Product(Col(t, Bidders), Col(t, Base)))
                  && u.cols["참여업체수_제곱"] == Nums(Product(Col(t, Bidders), Col(t, Bidders))))
  {
    AmountKeeps(t, Bidders);
    AmountKeeps(t, Base);
    AmountKeeps(t, "참여업체수_기초금액");
    AmountKeeps(t, "참여업체수_제곱");
  }

  lemma PairNamesDistinct()
    ensures PairName(0, 1) != PairName(0, 2) && PairName(0, 1) != PairName(1, 2) && PairName(0, 2) != PairName(1, 2)
  {
    assert PairName(0, 1)[|PairName(0, 1)| - 1] == '수';
    assert PairName(0, 2)[..7] == "공고기관점수_";
    assert PairName(1, 2)[..7] == "공사지역점수_";
    assert PairName(0, 1)[..7] == "공고기관점수_";
    assert PairName(0, 1)[7..] == "공사지역점수";
    assert PairName(0, 2)[7..] == "키워드점수";
  }

  /** The product of score columns `i < j` is added exactly when both are present. */
  lemma ScorePairGuarded(t: Table, i: nat, j: nat)
    requires Readable(t) && i < j < 3
    requires forall o :: o in Outputs ==> o !in t.cols
    ensures var u := Interaction(t);
            var c1, c2 := ScoreColumns[i], ScoreColumns[j];
            (PairName(i, j) in u.cols <==> t.Has(c1) && t.Has(c2))
            && (t.Has(c1) && t.Has(c2) ==> u.cols[PairName(i, j)] == Nums(Product(Col(t, c1), Col(t, c2))))
  {
    var t1 := AddAmountTerms(t);
    var t2 := AddBidderTerms(t1);
    var t3 := AddLicenseTerm(t2);
    EarlyStepsKeep(t, ScoreColumns[i]);
    EarlyStepsKeep(t, ScoreColumns[j]);
    EarlyStepsKeep(t, PairName(i, j));
    PairLoopGuarded(t3, i, j);
  }

  /** Columns that none of steps 1 to 3 targets reach the pair loop unchanged. */
  lemma EarlyStepsKeep(t: Table, n: string)
    requires Readable(t) && n !in AmountOutputs && n !in BidderOutputs && n != LicenseOutput
    ensures Keeps(t, AddLicenseTerm(AddBidderTerms(AddAmountTerms(t))), n)
  {
    var t1 := AddAmountTerms(t);
    var t2 := AddBidderTerms(t1);
    AmountKeeps(t, n);
    BidderKeeps(t1, n);
    LicenseKeeps(t2, n);
  }

  lemma PairLoopGuarded(s: Table, i: nat, j: nat)
    requires Readable(s) && i < j < 3 && PairName(i, j) !in s.cols
    ensures var u := PairsUpTo(s, 3, 3);
            var c1, c2 := ScoreColumns[i], ScoreColumns[j];
            (PairName(i, j) in u.cols <==> s.Has(c1) && s.Has(c2))
            && (s.Has(c1) && s.Has(c2) ==> u.cols[PairName(i, j)] == Nums(Product(Col(s, c1), Col(s, c2))))
  {
    var p1 := AddPair(s, 0, 1);
    var p2 := AddPair(p1, 0, 2);
    var p3 := AddPair(p2, 1, 2);
    assert PairsUpTo(s, 3, 3) == p3;
    var c1, c2 := ScoreColumns[i], ScoreColumns[j];
    PairKeeps(s, 0, 1, c1);
    PairKeeps(s, 0, 1, c2);
    PairKeeps(p1, 0, 2, c1);
    PairKeeps(p1, 0, 2, c2);
    PairNamesDistinct();
    if i == 0 && j == 1 {
      AddPairGuarded(s, 0, 1);
      PairKeeps(p1, 0, 2, PairName(0, 1));
      PairKeeps(p2, 1, 2, PairName(0, 1));
    } else if i == 0 {
      PairKeeps(s, 0, 1, PairName(0, 2));
      AddPairGuarded(p1, 0, 2);
      PairKeeps(p2, 1, 2, PairName(0, 2));
    } else {
      PairKeeps(s, 0, 1, PairName(1, 2));
      PairKeeps(p1, 0, 2, PairName(1, 2));
      AddPairGuarded(p2, 1, 2);
    }
  }

  lemma AddPairGuarded(s: Table, i: nat, j: nat)
    requires Readable(s) && i < j < 3 && PairName(i, j) !in s.cols
    ensures var u := AddPair(s, i, j);
            var c1, c2 := ScoreColumns[i], ScoreColumns[j];
            (PairName(i, j) in u.cols <==> s.Has(c1) && s.Has(c2))
            && (s.Has(c1) && s.Has(c2) ==> u.cols[PairName(i, j)] == Nums(Product(Col(s, c1), Col(s, c2))))
  {
  }
}
