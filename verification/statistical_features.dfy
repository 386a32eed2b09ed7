/**
 * `create_statistical_features`: for every column that is numeric when the
 * transform starts, its distance to the mean, its z-score, its distance to
 * the median and its position inside the interquartile range.
 */
module StatisticalFeatures {

  import opened Floats
  import opened Frames
  import opened ColumnMath

  /** The pandas reductions other than the mean; their float algorithms are not modelled. */
  datatype Reductions = Reductions(std: seq<Float> -> Float, median: seq<Float> -> Float, quantile: (seq<Float>, real) -> Float)

  /** `n` is one of the four names the step for column `c` writes. */
  predicate DerivedFrom(n: string, c: string)
  {
    n == c + "_평균차이" || n == c + "_zscore" || n == c + "_중앙값차이" || n == c + "_iqr_위치"
  }

  /** Sum of the non-NaN cells, as `Series.sum(skipna=True)`. */
  function SumSkipNa(xs: seq<Float>): Float
  {
    if |xs| == 0 then Fin(0.0)
    else if xs[|xs| - 1].NaN? then SumSkipNa(xs[..|xs| - 1])
    else Add(SumSkipNa(xs[..|xs| - 1]), xs[|xs| - 1])
  }

  /** Number of non-NaN cells. */
  function CountNonNa(xs: seq<Float>): (n: nat)
    ensures n <= |xs|
  {
    if |xs| == 0 then 0
    else CountNonNa(xs[..|xs| - 1]) + (if xs[|xs| - 1].NaN? then 0 else 1)
  }

  /** `Series.mean()`: NaN cells are skipped, and a column with none left has mean NaN. */
  function Mean(xs: seq<Float>): Float
  {
    var n := CountNonNa(xs);
    if n == 0 then NaN else Div(SumSkipNa(xs), Fin(n as real))
  }

  predicate AllFinite(xs: seq<Float>)
  {
    forall i :: 0 <= i < |xs| ==> xs[i].Fin?
  }

  /** The names of the numeric columns, in column order: `select_dtypes(include=[np.number]).columns`. */
  function NumericNames(t: Table): (ns: seq<string>)
    ensures forall n :: n in ns <==> n in t.names && t.IsNumeric(n)
  {
    NumericAmong(t, t.names)
  }

  function NumericAmong(t: Table, names: seq<string>): (ns: seq<string>)
    ensures forall n :: n in ns <==> n in names && t.IsNumeric(n)
  {
    if |names| == 0 then []
    else
      var rest := NumericAmong(t, names[..|names| - 1]);
      var n := names[|names| - 1];
      assert names == names[..|names| - 1] + [n];
      if t.IsNumeric(n) then rest + [n] else rest
  }

  /** `n` is none of the names the steps for `ns[..k]` write. */
  predicate NotDerivedBefore(n: string, ns: seq<string>, k: nat)
    requires k <= |ns|
  {
    k == 0 || (NotDerivedBefore(n, ns, k - 1) && !DerivedFrom(n, ns[k - 1]))
  }

  /** The row count is the same, no column disappears, and every column numeric in `t` is still numeric in `u`. */
  ghost predicate Grows(t: Table, u: Table)
  {
    u.rows == t.rows
    && (forall n :: n in t.cols ==> n in u.cols)
    && (forall n :: t.IsNumeric(n) ==> u.IsNumeric(n))
  }

  function Cells(t: Table, c: string): seq<Float>
    requires t.IsNumeric(c)
  {
    t.cols[c].xs
  }

  /** `df[f'{col}_평균차이'] = df[col] - df[col].mean()`. */
  function AddMeanDistance(t: Table, c: string): (u: Table)
    requires t.IsNumeric(c)
    ensures Grows(t, u)
  {
    var xs := Cells(t, c);
    t.Set(c + "_평균차이", Nums(MinusScalar(xs, Mean(xs))))
  }

  /** The z-score, only when the standard deviation is positive. */
  function AddZScore(t: Table, c: string, ops: Reductions): (u: Table)
    requires t.IsNumeric(c)
    ensures Grows(t, u)
  {
    var xs := Cells(t, c);
    var sd := ops.std(xs);
    if Gt(sd, Fin(0.0)) then t.Set(c + "_zscore", Nums(OverScalar(MinusScalar(xs, Mean(xs)), sd))) else t
  }

  /** `df[f'{col}_중앙값차이'] = df[col] - df[col].median()`. */
  function AddMedianDistance(t: Table, c: string, ops: Reductions): (u: Table)
    requires t.IsNumeric(c)
    ensures Grows(t, u)
  {
    var xs := Cells(t, c);
    t.Set(c + "_중앙값차이", Nums(MinusScalar(xs, ops.median(xs))))
  }

  /** The position inside the interquartile range, only when q3 > q1. */
  function AddIqrPosition(t: Table, c: string, ops: Reductions): (u: Table)
    requires t.IsNumeric(c)
    ensures Grows(t, u)
  {
    var xs := Cells(t, c);
    var q1, q3 := ops.quantile(xs, 0.25), ops.quantile(xs, 0.75);
    if Gt(q3, q1) then t.Set(c + "_iqr_위치", Nums(OverScalar(MinusScalar(xs, q1), Sub(q3, q1)))) else t
  }

  /** The four statistics of numeric column `c`, each read from `df[c]` as it is at that moment. */
  function StatStep(t: Table, c: string, ops: Reductions): (u: Table)
    requires t.IsNumeric(c)
    ensures Grows(t, u)
  {
    var t1 := AddMeanDistance(t, c);
    var t2 := AddZScore(t1, c, ops);
    var t3 := AddMedianDistance(t2, c, ops);
    AddIqrPosition(t3, c, ops)
  }

  /** The loop over the snapshot `ns` stopped before position `k`. */
  function StatsUpTo(t: Table, ns: seq<string>, k: nat, ops: Reductions): (u: Table)
    requires k <= |ns| && forall n :: n in ns ==> t.IsNumeric(n)
    ensures Grows(t, u)
  {
    if k == 0 then t else StatStep(StatsUpTo(t, ns, k - 1, ops), ns[k - 1], ops)
  }

  /** The frame after `create_statistical_features`. */
  function Statistical(t: Table, ops: Reductions): (u: Table)
    ensures Grows(t, u)
  {
    var ns := NumericNames(t);
    StatsUpTo(t, ns, |ns|, ops)
  }

  /** Each step assigns columns of the frame's length, so the frame stays well formed. */
  lemma StatStepValid(t: Table, c: string, ops: Reductions)
    requires t.Valid() && t.IsNumeric(c)
    ensures StatStep(t, c, ops).Valid()
  {
    var xs := Cells(t, c);
    SetValid(t, c + "_평균차이", Nums(MinusScalar(xs, Mean(xs))));
    var t1 := AddMeanDistance(t, c);
    assert Cells(t1, c) == xs by { DerivedNamesDistinct(c); }
    var t2 := AddZScore(t1, c, ops);
    if t2 != t1 {
      SetValid(t1, c + "_zscore", t2.cols[c + "_zscore"]);
    }
    var t3 := AddMedianDistance(t2, c, ops);
    SetValid(t2, c + "_중앙값차이", t3.cols[c + "_중앙값차이"]);
    var t4 := AddIqrPosition(t3, c, ops);
    if t4 != t3 {
      SetValid(t3, c + "_iqr_위치", t4.cols[c + "_iqr_위치"]);
    }
  }

  lemma StatsUpToValid(t: Table, ns: seq<string>, k: nat, ops: Reductions)
    requires t.Valid() && k <= |ns| && forall n :: n in ns ==> t.IsNumeric(n)
    ensures StatsUpTo(t, ns, k, ops).Valid()
  {
    for j := 0 to k
      invariant StatsUpTo(t, ns, j, ops).Valid()
    {
      NextStepValid(t, ns, j + 1, ops);
    }
  }

  lemma NextStepValid(t: Table, ns: seq<string>, k: nat, ops: Reductions)
    requires 0 < k <= |ns| && forall n :: n in ns ==> t.IsNumeric(n)
    requires StatsUpTo(t, ns, k - 1, ops).Valid()
    ensures StatsUpTo(t, ns, k, ops).Valid()
  {
    assert ns[k - 1] in ns;
    StatStepValid(StatsUpTo(t, ns, k - 1, ops), ns[k - 1], ops);
  }

  /** The statistics of column `c`, assigned into `df`. */
  method AddStatColumns(df: DataFrame, c: string, ops: Reductions)
    requires df.Valid() && df.Value().IsNumeric(c)
    modifies df
    ensures df.Valid() && df.Value() == StatStep(old(df.Value()), c, ops)
  {
    ghost var t := df.Value();
    SuffixesDiffer(c);
    var xs := df.cols[c].xs;
    var m := Mean(xs);
    df.Assign(c + "_평균차이", Nums(MinusScalar(xs, m)));
    ghost var t1 := df.Value();
    assert t1 == AddMeanDistance(t, c);
    var sd := ops.std(xs);
    if Gt(sd, Fin(0.0)) {
      df.Assign(c + "_zscore", Nums(OverScalar(MinusScalar(xs, m), sd)));
    }
    ghost var t2 := df.Value();
    assert t2 == AddZScore(t1, c, ops) && t2.cols[c].xs == xs;
    df.Assign(c + "_중앙값차이", Nums(MinusScalar(xs, ops.median(xs))));
    assert df.Value() == AddMedianDistance(t2, c, ops) && df.cols[c].xs == xs;
    var q1, q3 := ops.quantile(xs, 0.25), ops.quantile(xs, 0.75);
    if Gt(q3, q1) {
      df.Assign(c + "_iqr_위치", Nums(OverScalar(MinusScalar(xs, q1), Sub(q3, q1))));
    }
  }

  /** None of the derived names is the column itself. */
  lemma SuffixesDiffer(c: string)
    ensures c + "_평균차이" != c && c + "_zscore" != c && c + "_중앙값차이" != c && c + "_iqr_위치" != c
  {
    assert |c + "_평균차이"| > |c| && |c + "_zscore"| > |c| && |c + "_중앙값차이"| > |c| && |c + "_iqr_위치"| > |c|;
  }

  /** `create_statistical_features(df)`: the numeric columns are listed once, before any is added. */
  method CreateStatisticalFeatures(df: DataFrame, ops: Reductions)
    requires df.Valid()
    modifies df
    ensures df.Valid() && df.Value() == Statistical(old(df.Value()), ops)
  {
    ghost var t := df.Value();
    var ns := NumericNames(df.Value());
    for k := 0 to |ns|
      invariant df.Valid() && df.Value() == StatsUpTo(t, ns, k, ops)
    {
      var col := ns[k];
      if col in df.cols {
        AddStatColumns(df, col, ops);
      }
    }
  }

  /** The four derived names of `c` differ from `c` and from each other. */
  lemma DerivedNamesDistinct(c: string)
    ensures c + "_평균차이" != c && c + "_zscore" != c && c + "_중앙값차이" != c && c + "_iqr_위치" != c
    ensures c + "_평균차이" != c + "_zscore" && c + "_평균차이" != c + "_중앙값차이" && c + "_평균차이" != c + "_iqr_위치"
    ensures c + "_zscore" != c + "_중앙값차이" && c + "_zscore" != c + "_iqr_위치" && c + "_중앙값차이" != c + "_iqr_위치"
  {
    var s0, s1, s2, s3 := c + "_평균차이", c + "_zscore", c + "_중앙값차이", c + "_iqr_위치";
    assert |s0| > |c| && |s1| > |c| && |s2| > |c| && |s3| > |c|;
    assert s0[|c|..] == "_평균차이" && s1[|c|..] == "_zscore";
    assert s2[|c|..] == "_중앙값차이" && s3[|c|..] == "_iqr_위치";
  }

  lemma MeanDistanceKeeps(t: Table, c: string, n: string)
    requires t.IsNumeric(c) && n != c + "_평균차이"
    ensures Keeps(t, AddMeanDistance(t, c), n)
  {
  }

  lemma ZScoreKeeps(t: Table, c: string, ops: Reductions, n: string)
    requires t.IsNumeric(c) && n != c + "_zscore"
    ensures Keeps(t, AddZScore(t, c, ops), n)
  {
  }

  lemma MedianDistanceKeeps(t: Table, c: string, ops: Reductions, n: string)
    requires t.IsNumeric(c) && n != c + "_중앙값차이"
    ensures Keeps(t, AddMedianDistance(t, c, ops), n)
  {
  }

  lemma IqrPositionKeeps(t: Table, c: string, ops: Reductions, n: string)
    requires t.IsNumeric(c) && n != c + "_iqr_위치"
    ensures Keeps(t, AddIqrPosition(t, c, ops), n)
  {
  }

  /** A column that is not one of `c`'s four derived names is left alone by `c`'s step. */
  lemma StatStepKeeps(t: Table, c: string, ops: Reductions, n: string)
    requires t.IsNumeric(c)
    requires !DerivedFrom(n, c)
    ensures Keeps(t, StatStep(t, c, ops), n)
  {
    var t1 := AddMeanDistance(t, c);
    MeanDistanceKeeps(t, c, n);
    var t2 := AddZScore(t1, c, ops);
    ZScoreKeeps(t1, c, ops, n);
    var t3 := AddMedianDistance(t2, c, ops);
    MedianDistanceKeeps(t2, c, ops, n);
    IqrPositionKeeps(t3, c, ops, n);
  }

  /** The step for `c` adds the mean and median distances always, the z-score exactly when the
      standard deviation is positive, and the IQR position exactly when q3 > q1; all four are
      computed from `c`'s cells as they were before the step, and `c` itself is not touched. */
  lemma StatStepGuards(t: Table, c: string, ops: Reductions)
    requires t.IsNumeric(c)
    requires forall n :: DerivedFrom(n, c) ==> n !in t.cols
    ensures var u, xs := StatStep(t, c, ops), t.cols[c].xs;
      && u.IsNumeric(c + "_평균차이") && u.cols[c + "_평균차이"].xs == MinusScalar(xs, Mean(xs))
      && u.IsNumeric(c + "_중앙값차이") && u.cols[c + "_중앙값차이"].xs == MinusScalar(xs, ops.median(xs))
      && (c + "_zscore" in u.cols <==> Gt(ops.std(xs), Fin(0.0)))
      && (c + "_iqr_위치" in u.cols <==> Gt(ops.quantile(xs, 0.75), ops.quantile(xs, 0.25)))
      && u.cols[c] == t.cols[c]
  {
    DerivedNamesDistinct(c);
    var s0, s1, s2, s3 := c + "_평균차이", c + "_zscore", c + "_중앙값차이", c + "_iqr_위치";
    assert DerivedFrom(s0, c) && DerivedFrom(s1, c) && DerivedFrom(s2, c) && DerivedFrom(s3, c);
    var xs := t.cols[c].xs;
    var t1 := AddMeanDistance(t, c);
    assert t1.cols[c] == t.cols[c] && t1.cols[s0].xs == MinusScalar(xs, Mean(xs));
    assert s1 !in t1.cols && s2 !in t1.cols && s3 !in t1.cols;
    var t2 := AddZScore(t1, c, ops);
    assert t2.cols[c] == t.cols[c] && t2.cols[s0] == t1.cols[s0];
    assert s1 in t2.cols <==> Gt(ops.std(xs), Fin(0.0));
    assert s2 !in t2.cols && s3 !in t2.cols;
    var t3 := AddMedianDistance(t2, c, ops);
    assert t3.cols[c] == t.cols[c] && t3.cols[s0] == t1.cols[s0];
    assert t3.cols[s2].xs == MinusScalar(xs, ops.median(xs));
    assert s1 in t3.cols <==> s1 in t2.cols;
    assert s3 !in t3.cols;
    var t4 := AddIqrPosition(t3, c, ops);
    assert t4.cols[c] == t.cols[c] && t4.cols[s0] == t1.cols[s0] && t4.cols[s2] == t3.cols[s2];
    assert s1 in t4.cols <==> s1 in t2.cols;
  }

  /** The step for `c` always leaves the mean and median distance columns in place. */
  lemma StatStepAddsDistances(t: Table, c: string, ops: Reductions)
    requires t.IsNumeric(c)
    ensures c + "_평균차이" in StatStep(t, c, ops).cols
    ensures c + "_중앙값차이" in StatStep(t, c, ops).cols
  {
    var t1 := AddMeanDistance(t, c);
    var t2 := AddZScore(t1, c, ops);
    var t3 := AddMedianDistance(t2, c, ops);
    assert c + "_평균차이" in t2.cols && c + "_중앙값차이" in t3.cols;
  }

  lemma NextStepKeeps(t: Table, ns: seq<string>, k: nat, ops: Reductions, n: string)
    requires 0 < k <= |ns| && forall m :: m in ns ==> t.IsNumeric(m)
    requires Keeps(t, StatsUpTo(t, ns, k - 1, ops), n) && !DerivedFrom(n, ns[k - 1])
    ensures Keeps(t, StatsUpTo(t, ns, k, ops), n)
  {
    var u := StatsUpTo(t, ns, k - 1, ops);
    assert t.IsNumeric(ns[k - 1]);
    StatStepKeeps(u, ns[k - 1], ops, n);
  }

  /** A column that no snapshot column derives its name to keeps its presence and content. */
  lemma StatsUpToKeeps(t: Table, ns: seq<string>, k: nat, ops: Reductions, n: string)
    requires k <= |ns| && forall m :: m in ns ==> t.IsNumeric(m)
    requires NotDerivedBefore(n, ns, k)
    ensures Keeps(t, StatsUpTo(t, ns, k, ops), n)
  {
    for j := 0 to k
      invariant Keeps(t, StatsUpTo(t, ns, j, ops), n)
    {
      NotDerivedBeforePrefix(n, ns, k, j + 1);
      NextStepKeeps(t, ns, j + 1, ops, n);
    }
  }

  lemma {:induction false} NotDerivedBeforePrefix(n: string, ns: seq<string>, k: nat, j: nat)
    requires j <= k <= |ns| && NotDerivedBefore(n, ns, k)
    ensures NotDerivedBefore(n, ns, j) && (j > 0 ==> !DerivedFrom(n, ns[j - 1]))
    decreases k
  {
    if j < k {
      NotDerivedBeforePrefix(n, ns, k - 1, j);
    }
  }

  lemma {:induction false} NotDerivedBeforeAll(n: string, ns: seq<string>, k: nat)
    requires k <= |ns| && forall i :: 0 <= i < |ns| ==> !DerivedFrom(n, ns[i])
    ensures NotDerivedBefore(n, ns, k)
  {
    if k > 0 {
      NotDerivedBeforeAll(n, ns, k - 1);
      assert !DerivedFrom(n, ns[k - 1]);
    }
  }

  /** The transform writes only derived names: every other column, the source columns among them,
      comes out unchanged. */
  lemma StatisticalKeepsOtherColumns(t: Table, ops: Reductions, n: string)
    requires forall c :: c in t.cols ==> !DerivedFrom(n, c)
    ensures Keeps(t, Statistical(t, ops), n)
  {
    var ns := NumericNames(t);
    forall i | 0 <= i < |ns| ensures !DerivedFrom(n, ns[i]) {
      assert ns[i] in ns;
    }
    NotDerivedBeforeAll(n, ns, |ns|);
    StatsUpToKeeps(t, ns, |ns|, ops, n);
  }

  /** Every numeric column of the input gets its mean and median distances. */
  lemma StatsUpToAddsDistances(t: Table, ns: seq<string>, k: nat, ops: Reductions, i: nat)
    requires k <= |ns| && forall m :: m in ns ==> t.IsNumeric(m)
    requires i < k
    ensures ns[i] + "_평균차이" in StatsUpTo(t, ns, k, ops).cols
    ensures ns[i] + "_중앙값차이" in StatsUpTo(t, ns, k, ops).cols
  {
    var mean, median := ns[i] + "_평균차이", ns[i] + "_중앙값차이";
    NextStepAddsDistances(t, ns, i + 1, ops);
    for j := i + 1 to k
      invariant mean in StatsUpTo(t, ns, j, ops).cols && median in StatsUpTo(t, ns, j, ops).cols
    {
      NextStepGrows(t, ns, j + 1, ops);
      KeptByGrowth(StatsUpTo(t, ns, j, ops), StatsUpTo(t, ns, j + 1, ops), mean, median);
    }
  }

  lemma KeptByGrowth(t: Table, u: Table, a: string, b: string)
    requires Grows(t, u) && a in t.cols && b in t.cols
    ensures a in u.cols && b in u.cols
  {
  }

  lemma NextStepGrows(t: Table, ns: seq<string>, k: nat, ops: Reductions)
    requires 0 < k <= |ns| && forall m :: m in ns ==> t.IsNumeric(m)
    ensures Grows(StatsUpTo(t, ns, k - 1, ops), StatsUpTo(t, ns, k, ops))
  {
    assert t.IsNumeric(ns[k - 1]);
  }

  lemma NextStepAddsDistances(t: Table, ns: seq<string>, k: nat, ops: Reductions)
    requires 0 < k <= |ns| && forall m :: m in ns ==> t.IsNumeric(m)
    ensures ns[k - 1] + "_평균차이" in StatsUpTo(t, ns, k, ops).cols
    ensures ns[k - 1] + "_중앙값차이" in StatsUpTo(t, ns, k, ops).cols
  {
    assert t.IsNumeric(ns[k - 1]);
    StatStepAddsDistances(StatsUpTo(t, ns, k - 1, ops), ns[k - 1], ops);
  }

  lemma StatisticalAddsDistances(t: Table, ops: Reductions, c: string)
    requires c in t.names && t.IsNumeric(c)
    ensures c + "_평균차이" in Statistical(t, ops).cols
    ensures c + "_중앙값차이" in Statistical(t, ops).cols
  {
    var ns := NumericNames(t);
    assert c in ns;
    var i :| 0 <= i < |ns| && ns[i] == c;
    StatsUpToAddsDistances(t, ns, |ns|, ops, i);
  }

  /** On finite cells the skip-NaN sum is the real sum, and every cell is counted. */
  lemma {:induction false} FiniteSum(xs: seq<Float>)
    requires AllFinite(xs)
    ensures SumSkipNa(xs).Fin? && CountNonNa(xs) == |xs|
  {
    if |xs| > 0 {
      FiniteSum(xs[..|xs| - 1]);
    }
  }

  /** Subtracting `m` from every finite cell lowers the sum by `|xs|·m`. */
  lemma {:induction false} ShiftedSum(xs: seq<Float>, m: real)
    requires AllFinite(xs)
    ensures SumSkipNa(xs).Fin?
    ensures SumSkipNa(MinusScalar(xs, Fin(m))) == Fin(SumSkipNa(xs).v - |xs| as real * m)
  {
    FiniteSum(xs);
    if |xs| > 0 {
      var init := xs[..|xs| - 1];
      ShiftedSum(init, m);
      var d := MinusScalar(xs, Fin(m));
      assert d[..|d| - 1] == MinusScalar(init, Fin(m));
      assert d[|d| - 1] == Fin(xs[|xs| - 1].v - m);
      FiniteSum(init);
    }
  }

  /** The `_평균차이` cells of a non-empty finite column sum to zero. */
  lemma MeanDeviationsSumToZero(xs: seq<Float>)
    requires |xs| > 0 && AllFinite(xs)
    ensures SumSkipNa(MinusScalar(xs, Mean(xs))) == Fin(0.0)
  {
    FiniteSum(xs);
    var s := SumSkipNa(xs).v;
    var n := |xs| as real;
    assert Mean(xs) == Fin(s / n);
    ShiftedSum(xs, s / n);
    assert s - n * (s / n) == 0.0;
  }
}
