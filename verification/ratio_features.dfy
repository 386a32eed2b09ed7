/**
 * `create_ratio_features`: the amount-rate ratio and the `log1p` of the
 * bidder count and of the amount. `np.log1p` is a parameter.
 */
module RatioFeatures {

  import opened Floats
  import opened Frames
  import opened ColumnMath

  const Base := "기초금액"
  const LowerRate := "낙찰하한률"
  const Bidders := "참여업체수"

  const Outputs: seq<string> := ["낙찰하한가_비율", "참여업체수_로그", "기초금액_로그"]

  ghost predicate Readable(t: Table)
  {
    t.Valid() && NumericIfPresent(t, [Base, LowerRate, Bidders])
  }

  function Col(t: Table, n: string): (xs: seq<Float>)
    requires t.Valid() && t.IsNumeric(n)
    ensures |xs| == t.rows
  {
    t.cols[n].xs
  }

  /** `기초금액 * 낙찰하한률 / 기초금액`, when both are present. */
  function AddRateRatio(t: Table): (u: Table)
    requires Readable(t)
    ensures Readable(u) && u.rows == t.rows
  {
    if t.Has(Base) && t.Has(LowerRate) then
      var q := Quotient(Product(Col(t, Base), Col(t, LowerRate)), Col(t, Base));
      SetValid(t, "낙찰하한가_비율", Nums(q));
      t.Set("낙찰하한가_비율", Nums(q))
    else t
  }

  function AddBidderLog(t: Table, log1p: Float -> Float): (u: Table)
    requires Readable(t)
    ensures Readable(u) && u.rows == t.rows
  {
    if t.Has(Bidders) then
      SetValid(t, "참여업체수_로그", Nums(Apply(log1p, Col(t, Bidders))));
      t.Set("참여업체수_로그", Nums(Apply(log1p, Col(t, Bidders))))
    else t
  }

  function AddBaseLog(t: Table, log1p: Float -> Float): (u: Table)
    requires Readable(t)
    ensures Readable(u) && u.rows == t.rows
  {
    if t.Has(Base) then
      SetValid(t, "기초금액_로그", Nums(Apply(log1p, Col(t, Base))));
      t.Set("기초금액_로그", Nums(Apply(log1p, Col(t, Base))))
    else t
  }

  /** The frame after `create_ratio_features`. */
  function Ratio(t: Table, log1p: Float -> Float): (u: Table)
    requires Readable(t)
    ensures Readable(u) && u.rows == t.rows
  {
    AddBaseLog(AddBidderLog(AddRateRatio(t), log1p), log1p)
  }

  /** `create_ratio_features(df)`, which adds its columns to `df` itself. */
  method CreateRatioFeatures(df: DataFrame, log1p: Float -> Float)
    requires df.Valid() && Readable(df.Value())
    modifies df
    ensures df.Valid() && df.Value() == Ratio(old(df.Value()), log1p)
  {
    if Base in df.cols && LowerRate in df.cols {
      var b := df.cols[Base].xs;
      df.Assign("낙찰하한가_비율", Nums(Quotient(Product(b, df.cols[LowerRate].xs), b)));
    }
    if Bidders in df.cols {
      df.Assign("참여업체수_로그", Nums(Apply(log1p, df.cols[Bidders].xs)));
    }
    if Base in df.cols {
      df.Assign("기초금액_로그", Nums(Apply(log1p, df.cols[Base].xs)));
    }
  }

  /** Columns other than the three derived ones keep their presence and content, and their order. */
  lemma RatioKeepsOtherColumns(t: Table, log1p: Float -> Float, n: string)
    requires Readable(t) && n !in Outputs
    ensures Keeps(t, Ratio(t, log1p), n) && Extends(t, Ratio(t, log1p))
  {
    var t1 := AddRateRatio(t);
    var t2 := AddBidderLog(t1, log1p);
    var t3 := AddBaseLog(t2, log1p);
    assert n != Outputs[0] && n != Outputs[1] && n != Outputs[2];
    StepKeeps(t, t1, n, Outputs[0], t.Has(Base) && t.Has(LowerRate));
    StepKeeps(t1, t2, n, Outputs[1], t1.Has(Bidders));
    StepKeeps(t2, t3, n, Outputs[2], t2.Has(Base));
    ExtendsTransitive(t, t1, t2);
    ExtendsTransitive(t, t2, t3);
  }

  /** One guarded assignment of `name` keeps every other column and the order. */
  lemma StepKeeps(t: Table, u: Table, n: string, name: string, guard: bool)
    requires n != name
    requires guard ==> exists c :: u == t.Set(name, c)
    requires !guard ==> u == t
    ensures Keeps(t, u, n) && Extends(t, u)
  {
    if guard {
      var c :| u == t.Set(name, c);
      SetExtends(t, name, c);
    }
  }

  /** The guards: each derived column appears exactly when its inputs are present. */
  lemma RatioGuards(t: Table, log1p: Float -> Float)
    requires Readable(t)
    requires forall o :: o in Outputs ==> o !in t.cols
    ensures var u := Ratio(t, log1p);
            ("낙찰하한가_비율" in u.cols <==> t.Has(Base) && t.Has(LowerRate))
            && ("참여업체수_로그" in u.cols <==> t.Has(Bidders))
            && ("기초금액_로그" in u.cols <==> t.Has(Base))
            && (t.Has(Bidders) ==> u.cols["참여업체수_로그"] == Nums(Apply(log1p, Col(t, Bidders))))
            && (t.Has(Base) ==> u.cols["기초금액_로그"] == Nums(Apply(log1p, Col(t, Base))))
  {
  }

  /** The ratio column reproduces the rate on every row with a finite non-zero amount and a finite rate. */
  lemma RatioIsRedundant(t: Table, log1p: Float -> Float, i: int)
    requires Readable(t) && t.Has(Base) && t.Has(LowerRate) && 0 <= i < t.rows
    ensures var u := Ratio(t, log1p);
            var b, r := Col(t, Base)[i], Col(t, LowerRate)[i];
            "낙찰하한가_비율" in u.cols && u.cols["낙찰하한가_비율"].Nums?
            && |u.cols["낙찰하한가_비율"].xs| == t.rows
            && (b.Fin? && b.v != 0.0 && r.Fin? ==> u.cols["낙찰하한가_비율"].xs[i] == r)
            && (b == Fin(0.0) ==> u.cols["낙찰하한가_비율"].xs[i].NaN?)
  {
    var q := Quotient(Product(Col(t, Base), Col(t, LowerRate)), Col(t, Base));
    var t1 := AddRateRatio(t);
    var t2 := AddBidderLog(t1, log1p);
    assert t1.cols["낙찰하한가_비율"] == Nums(q);
    assert Keeps(t1, t2, "낙찰하한가_비율");
    assert Keeps(t2, Ratio(t, log1p), "낙찰하한가_비율");
    var b, r := Col(t, Base)[i], Col(t, LowerRate)[i];
    assert q[i] == Div(Mul(b, r), b);
    MulDivCancel(b, r);
  }
}
