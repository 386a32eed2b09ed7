/**
 * `create_categorical_features` and `create_text_advanced_features`, which
 * are the same transform: five statistics of the text of each present text
 * column.
 */
module TextFeatures {

  import opened Floats
  import opened Frames
  import opened ColumnMath
  import opened Text

  const TextColumns: seq<string> := ["키워드", "공고기관명", "공사지역"]

  /** The suffixes of the five derived columns, in the order they are written. */
  const Suffixes: seq<string> := ["_길이", "_단어수", "_특수문자수", "_숫자수", "_대문자비율"]

  /** Every present text column is an object column. */
  ghost predicate Readable(t: Table)
  {
    t.Valid() && forall k :: 0 <= k < |TextColumns| && TextColumns[k] in t.cols ==> t.cols[TextColumns[k]].Objs?
  }

  /** A character outside `[가-힣a-zA-Z0-9\s]`. */
  predicate IsSpecial(c: char)
  {
    !(IsHangulSyllable(c) || IsAsciiUpper(c) || IsAsciiLower(c) || IsAsciiDigit(c) || IsSpace(c))
  }

  function CountColumn(os: seq<Obj>, p: char -> bool): (r: seq<Float>)
    ensures |r| == |os|
  {
    seq(|os|, i requires 0 <= i < |os| => Fin(Count(CellText(os[i]), p) as real))
  }

  function LengthColumn(os: seq<Obj>): (r: seq<Float>)
    ensures |r| == |os|
    ensures forall i :: 0 <= i < |os| ==> r[i] == Fin(|CellText(os[i])| as real)
  {
    seq(|os|, i requires 0 <= i < |os| => Fin(|CellText(os[i])| as real))
  }

  function WordCountColumn(os: seq<Obj>): (r: seq<Float>)
    ensures |r| == |os|
  {
    seq(|os|, i requires 0 <= i < |os| => Fin(WordCount(CellText(os[i])) as real))
  }

  /** `replace(0, 1)` on a numeric column. */
  function ZeroToOne(xs: seq<Float>): (r: seq<Float>)
    ensures |r| == |xs|
    ensures forall i :: 0 <= i < |xs| ==> r[i] == if xs[i] == Fin(0.0) then Fin(1.0) else xs[i]
  {
    seq(|xs|, i requires 0 <= i < |xs| => if xs[i] == Fin(0.0) then Fin(1.0) else xs[i])
  }

  function DerivedName(k: nat, s: nat): string
    requires k < 3 && s < 5
  {
    TextColumns[k] + Suffixes[s]
  }

  /** Statistic `s` of an object column, in the order of `Suffixes`; the ratio reads back the length column. */
  function StatColumn(os: seq<Obj>, s: nat): (r: seq<Float>)
    requires s < 5
    ensures |r| == |os|
  {
    if s == 0 then LengthColumn(os)
    else if s == 1 then WordCountColumn(os)
    else if s == 2 then CountColumn(os, IsSpecial)
    else if s == 3 then CountColumn(os, IsAsciiDigit)
    else Quotient(CountColumn(os, IsAsciiUpper), ZeroToOne(LengthColumn(os)))
  }

  /** `df[col + suffix] = xs`, which never touches a text column. */
  function SetDerived(t: Table, k: nat, s: nat, xs: seq<Float>): (u: Table)
    requires Readable(t) && k < 3 && s < 5 && |xs| == t.rows
    ensures Readable(u) && u.rows == t.rows
    ensures u == t.Set(DerivedName(k, s), Nums(xs))
  {
    SetValid(t, DerivedName(k, s), Nums(xs));
    DerivedNotText(k, s);
    t.Set(DerivedName(k, s), Nums(xs))
  }

  /** The five statistics of text column `k`, when it is present. */
  function AddTextStats(t: Table, k: nat): (u: Table)
    requires Readable(t) && k < 3
    ensures Readable(u) && u.rows == t.rows
  {
    var col := TextColumns[k];
    if col in t.cols then
      var os := t.cols[col].os;
      var t1 := SetDerived(t, k, 0, StatColumn(os, 0));
      var t2 := SetDerived(t1, k, 1, StatColumn(os, 1));
      var t3 := SetDerived(t2, k, 2, StatColumn(os, 2));
      var t4 := SetDerived(t3, k, 3, StatColumn(os, 3));
      SetDerived(t4, k, 4, StatColumn(os, 4))
    else t
  }

  /** The loop over the text columns stopped before column `k`. */
  function StatsUpTo(t: Table, k: nat): (u: Table)
    requires Readable(t) && k <= 3
    ensures Readable(u) && u.rows == t.rows
  {
    if k == 0 then t else AddTextStats(StatsUpTo(t, k - 1), k - 1)
  }

  /** The frame after `create_categorical_features`. */
  function Categorical(t: Table): (u: Table)
    requires Readable(t)
    ensures Readable(u) && u.rows == t.rows
  {
    StatsUpTo(t, 3)
  }

  /** `df[col + suffix] = xs` for statistic `s` of text column `k`. */
  method AssignStat(df: DataFrame, k: nat, s: nat, xs: seq<Float>)
    requires df.Valid() && Readable(df.Value()) && k < 3 && s < 5 && |xs| == df.rows
    modifies df
    ensures df.Valid() && Readable(df.Value()) && df.Value() == SetDerived(old(df.Value()), k, s, xs)
  {
    df.Assign(TextColumns[k] + Suffixes[s], Nums(xs));
  }

  /** The length column written first is still in place when the ratio reads it back. */
  lemma LengthReadBack(t: Table, k: nat, os: seq<Obj>)
    requires Readable(t) && k < 3 && |os| == t.rows
    ensures var t1 := SetDerived(t, k, 0, StatColumn(os, 0));
            var t2 := SetDerived(t1, k, 1, StatColumn(os, 1));
            var t3 := SetDerived(t2, k, 2, StatColumn(os, 2));
            var t4 := SetDerived(t3, k, 3, StatColumn(os, 3));
            DerivedName(k, 0) in t4.cols && t4.cols[DerivedName(k, 0)] == Nums(LengthColumn(os))
  {
    var t1 := SetDerived(t, k, 0, StatColumn(os, 0));
    var t2 := SetDerived(t1, k, 1, StatColumn(os, 1));
    var t3 := SetDerived(t2, k, 2, StatColumn(os, 2));
    SuffixesDistinct(k);
    SetKeeps(t1, DerivedName(k, 1), Nums(StatColumn(os, 1)), DerivedName(k, 0));
    SetKeeps(t2, DerivedName(k, 2), Nums(StatColumn(os, 2)), DerivedName(k, 0));
    SetKeeps(t3, DerivedName(k, 3), Nums(StatColumn(os, 3)), DerivedName(k, 0));
  }

  /** The statistics of text column `k`, assigned into `df`. */
  method AddTextStatsColumns(df: DataFrame, k: nat)
    requires df.Valid() && Readable(df.Value()) && k < 3
    modifies df
    ensures df.Valid() && df.Value() == AddTextStats(old(df.Value()), k)
  {
    var col := TextColumns[k];
    if col in df.cols {
      ghost var t := df.Value();
      var os := df.cols[col].os;
      LengthReadBack(t, k, os);
      AssignStat(df, k, 0, LengthColumn(os));
      AssignStat(df, k, 1, WordCountColumn(os));
      AssignStat(df, k, 2, CountColumn(os, IsSpecial));
      AssignStat(df, k, 3, CountColumn(os, IsAsciiDigit));
      var len := df.cols[DerivedName(k, 0)].xs;
      AssignStat(df, k, 4, Quotient(CountColumn(os, IsAsciiUpper), ZeroToOne(len)));
    }
  }

  /** `create_categorical_features(df)`, which adds its columns to `df` itself. */
  method CreateCategoricalFeatures(df: DataFrame)
    requires df.Valid() && Readable(df.Value())
    modifies df
    ensures df.Valid() && df.Value() == Categorical(old(df.Value()))
  {
    ghost var t := df.Value();
    for k := 0 to 3
      invariant df.Valid() && Readable(df.Value()) && df.Value() == StatsUpTo(t, k)
    {
      AddTextStatsColumns(df, k);
      assert df.Value() == StatsUpTo(t, k + 1);
    }
  }

  /** `create_text_advanced_features(df)`: the same statistics under another name. */
  method CreateTextAdvancedFeatures(df: DataFrame)
    requires df.Valid() && Readable(df.Value())
    modifies df
    ensures df.Valid() && df.Value() == Categorical(old(df.Value()))
  {
    CreateCategoricalFeatures(df);
  }

  /** A derived name is never one of the text columns. */
  lemma DerivedNotText(k: nat, s: nat)
    requires k < 3 && s < 5
    ensures forall j :: 0 <= j < 3 ==> DerivedName(k, s) != TextColumns[j]
  {
    forall j | 0 <= j < 3 ensures DerivedName(k, s) != TextColumns[j] {
      assert |DerivedName(k, s)| > |TextColumns[j]|;
    }
  }

  lemma AddTextStatsKeeps(t: Table, k: nat, n: string)
    requires Readable(t) && k < 3
    requires forall s :: 0 <= s < 5 ==> n != DerivedName(k, s)
    ensures Keeps(t, AddTextStats(t, k), n) && Extends(t, AddTextStats(t, k))
  {
    if TextColumns[k] in t.cols {
      var os := t.cols[TextColumns[k]].os;
      var t1 := SetDerived(t, k, 0, StatColumn(os, 0));
      var t2 := SetDerived(t1, k, 1, StatColumn(os, 1));
      var t3 := SetDerived(t2, k, 2, StatColumn(os, 2));
      var t4 := SetDerived(t3, k, 3, StatColumn(os, 3));
      var t5 := SetDerived(t4, k, 4, StatColumn(os, 4));
      SetKeeps(t, DerivedName(k, 0), Nums(StatColumn(os, 0)), n);
      SetKeeps(t1, DerivedName(k, 1), Nums(StatColumn(os, 1)), n);
      SetKeeps(t2, DerivedName(k, 2), Nums(StatColumn(os, 2)), n);
      SetKeeps(t3, DerivedName(k, 3), Nums(StatColumn(os, 3)), n);
      SetKeeps(t4, DerivedName(k, 4), Nums(StatColumn(os, 4)), n);
      ExtendsTransitive(t, t1, t2);
      ExtendsTransitive(t, t2, t3);
      ExtendsTransitive(t, t3, t4);
      ExtendsTransitive(t, t4, t5);
    }
  }

  /** Columns outside the derived names, the text columns included, keep their presence, content and order. */
  lemma {:induction false} CategoricalKeeps(t: Table, k: nat, n: string)
    requires Readable(t) && k <= 3
    requires forall j, s :: 0 <= j < 3 && 0 <= s < 5 ==> n != DerivedName(j, s)
    ensures Keeps(t, StatsUpTo(t, k), n) && Extends(t, StatsUpTo(t, k))
  {
    if k > 0 {
      CategoricalKeeps(t, k - 1, n);
      AddTextStatsKeeps(StatsUpTo(t, k - 1), k - 1, n);
      ExtendsTransitive(t, StatsUpTo(t, k - 1), StatsUpTo(t, k));
    }
  }

  /** The upper-case ratio of a text: capitals over the length, with an empty text counting length 1. */
  function UpperRatio(s: string): real
  {
    Count(s, IsAsciiUpper) as real / (if |s| == 0 then 1 else |s|) as real
  }

  /** The ratio lies in [0, 1], and an empty text gives 0. */
  lemma UpperRatioBounds(s: string)
    ensures 0.0 <= UpperRatio(s) <= 1.0
    ensures s == "" ==> UpperRatio(s) == 0.0
  {
    var d := (if |s| == 0 then 1 else |s|) as real;
    var c := Count(s, IsAsciiUpper) as real;
    assert c <= d;
    assert c / d <= 1.0 by {
      assert c / d * d == c;
    }
  }

  /** Each cell of the ratio column is the upper-case ratio of its text. */
  lemma RatioColumnCells(os: seq<Obj>, i: int)
    requires 0 <= i < |os|
    ensures Quotient(CountColumn(os, IsAsciiUpper), ZeroToOne(LengthColumn(os)))[i] == Fin(UpperRatio(CellText(os[i])))
  {
    var s := CellText(os[i]);
    if |s| == 0 {
      assert Count(s, IsAsciiUpper) == 0;
    }
  }

  /**
   * For a present text column each of the five statistics is added: length,
   * word count, special characters, digits, and the upper-case ratio.
   */
  lemma TextStatAdded(t: Table, k: nat, s: nat)
    requires Readable(t) && k < 3 && s < 5 && TextColumns[k] in t.cols
    ensures var u := AddTextStats(t, k);
            DerivedName(k, s) in u.cols && u.cols[DerivedName(k, s)] == Nums(StatColumn(t.cols[TextColumns[k]].os, s))
  {
    var os := t.cols[TextColumns[k]].os;
    var t1 := SetDerived(t, k, 0, StatColumn(os, 0));
    var t2 := SetDerived(t1, k, 1, StatColumn(os, 1));
    var t3 := SetDerived(t2, k, 2, StatColumn(os, 2));
    var t4 := SetDerived(t3, k, 3, StatColumn(os, 3));
    SuffixesDistinct(k);
    var n := DerivedName(k, s);
    if s < 1 { SetKeeps(t1, DerivedName(k, 1), Nums(StatColumn(os, 1)), n); }
    if s < 2 { SetKeeps(t2, DerivedName(k, 2), Nums(StatColumn(os, 2)), n); }
    if s < 3 { SetKeeps(t3, DerivedName(k, 3), Nums(StatColumn(os, 3)), n); }
    if s < 4 { SetKeeps(t4, DerivedName(k, 4), Nums(StatColumn(os, 4)), n); }
  }

  /** Every cell of the upper-case ratio column is a finite value in [0, 1], and 0 for an empty text. */
  lemma UpperRatioColumnInRange(os: seq<Obj>, i: int)
    requires 0 <= i < |os|
    ensures var r := StatColumn(os, 4)[i];
            r.Fin? && 0.0 <= r.v <= 1.0 && (CellText(os[i]) == "" ==> r.v == 0.0)
  {
    RatioColumnCells(os, i);
    UpperRatioBounds(CellText(os[i]));
  }

  lemma SuffixesDistinct(k: nat)
    requires k < 3
    ensures forall s, s' :: 0 <= s < s' < 5 ==> DerivedName(k, s) != DerivedName(k, s')
  {
    var c := TextColumns[k];
    forall s, s' | 0 <= s < s' < 5 ensures DerivedName(k, s) != DerivedName(k, s') {
      if |Suffixes[s]| == |Suffixes[s']| {
        assert (c + Suffixes[s])[|c| + 1] == Suffixes[s][1];
        assert (c + Suffixes[s'])[|c| + 1] == Suffixes[s'][1];
      }
    }
  }
}
