/**
 * The bookkeeping of the MLP training script: which columns a bid type
 * reads and reports, the automatic bid-type detection, the filling of
 * missing input columns, the name-to-index feature selection, the
 * train/test split sizes and the result file name.
 */
module TrainSetup {

  import opened Floats
  import opened Frames
  import opened Text

  /** The columns every bid type reads, in file order. */
  const BaseColumns: seq<string> :=
    ["기초금액", "낙찰하한률", "참여업체수",
     "낙찰금액", "업체투찰률", "예가투찰률", "투찰률오차",
     "입찰번호", "입찰차수",
     "예정금액", "낙찰하한가",
     "면허제한코드", "공고기관코드",
     "공고기관명", "공고기관점수",
     "공사지역", "공사지역점수",
     "키워드", "키워드점수"]

  /** The columns only construction bids carry. */
  const ConstructionColumns: seq<string> := ["간접비", "순공사원가", "주공종명"]

  /** The input columns of a bid type. */
  function CvsColumns(bidType: string): (cs: seq<string>)
    ensures bidType == "cst" ==> cs == BaseColumns + ConstructionColumns
    ensures bidType != "cst" ==> cs == BaseColumns
  {
    if bidType == "cst" then BaseColumns + ConstructionColumns else BaseColumns
  }

  function BidTypeName(bidType: string): string
  {
    if bidType == "cst" then "공사입찰"
    else if bidType == "mtrl" then "구매입찰"
    else if bidType == "gdns" then "용역입찰"
    else "자동감지"
  }

  lemma CvsColumnsDistinct(bidType: string)
    ensures forall i, j :: 0 <= i < j < |CvsColumns(bidType)| ==> CvsColumns(bidType)[i] != CvsColumns(bidType)[j]
  {
  }

  /** A construction bid reads the 19 shared columns followed by the three construction columns; every other type the 19 alone. */
  lemma CvsColumnsLayout(bidType: string)
    ensures |CvsColumns(bidType)| == (if bidType == "cst" then 22 else 19)
    ensures CvsColumns(bidType)[..19] == BaseColumns
    ensures bidType == "cst" ==> CvsColumns(bidType)[19..] == ConstructionColumns
  {
  }

  /** The declared pandas dtype of each known input column. */
  const TypeMapping: map<string, string> :=
    map["기초금액" := "float64", "낙찰하한률" := "float64", "참여업체수" := "float64",
        "낙찰금액" := "int64", "업체투찰률" := "float64", "예가투찰률" := "float64",
        "투찰률오차" := "float64", "간접비" := "int64", "순공사원가" := "int64",
        "입찰차수" := "int64", "예정금액" := "int64", "낙찰하한가" := "int64",
        "공고기관점수" := "float64", "공사지역점수" := "float64", "키워드점수" := "float64",
        "입찰번호" := "str", "면허제한코드" := "str", "공고기관코드" := "str",
        "주공종명" := "str", "공고기관명" := "str", "공사지역" := "str", "키워드" := "str"]

  /** `{col: type_mapping.get(col, 'str') for col in cvs_columns}`. */
  function ColumnTypes(cols: seq<string>): (types: map<string, string>)
    ensures forall c :: c in types <==> c in cols
    ensures forall c :: c in cols && c in TypeMapping ==> types[c] == TypeMapping[c]
    ensures forall c :: c in cols && c !in TypeMapping ==> types[c] == "str"
  {
    map c | c in cols :: if c in TypeMapping then TypeMapping[c] else "str"
  }

  /** Every input column of every bid type has a declared type, so the `'str'` fallback is never taken. */
  lemma EveryColumnTyped(bidType: string, c: string)
    requires c in CvsColumns(bidType)
    ensures c in TypeMapping
  {
  }

  /** The result columns shared by all bid types. */
  const BaseResultColumns: seq<string> :=
    ["입찰번호", "입찰차수", "기초금액",
     "낙찰하한률", "참여업체수",
     "면허제한코드", "공고기관코드",
     "공고기관명", "공고기관점수",
     "공사지역", "공사지역점수",
     "키워드", "키워드점수",
     "업체투찰률", "예가투찰률", "투찰률오차",
     "예정금액", "낙찰하한가", "낙찰금액",
     "업체투찰률예측", "예가투찰률예측", "참여업체수예측", "예정금액예측",
     "낙찰금액(업체투찰률) 예측", "A값여부", "결과1",
     "예정금액(예가투찰률) 예측", "예정금액*낙찰하한율", "결과2"]

  const ConstructionResultColumns: seq<string> := ["간접비", "순공사원가"]

  /** `list.index(x)`: the first position of `x`. */
  function IndexOf(s: seq<string>, x: string): (i: nat)
    requires x in s
    ensures i < |s| && s[i] == x
    ensures forall j :: 0 <= j < i ==> s[j] != x
  {
    IndexFrom(s, x, 0)
  }

  /** The first position of `x` at or after `i`. */
  function IndexFrom(s: seq<string>, x: string, i: nat): (k: nat)
    requires i <= |s| && x in s[i..]
    ensures i <= k < |s| && s[k] == x
    ensures forall j :: i <= j < k ==> s[j] != x
    decreases |s| - i
  {
    if s[i] == x then i else IndexFrom(s, x, i + 1)
  }

  /** In a list without repeats, the first position of an element is its only position. */
  lemma IndexOfDistinct(s: seq<string>, x: string, p: nat)
    requires forall i, j :: 0 <= i < j < |s| ==> s[i] != s[j]
    requires p < |s| && s[p] == x
    ensures IndexOf(s, x) == p
  {
  }

  /** `s[k:k] = ins`: the elements before `k`, then `ins`, then the rest shifted. */
  lemma SpliceAt(s: seq<string>, k: nat, ins: seq<string>)
    requires k <= |s|
    ensures var r := s[..k] + ins + s[k..];
      |r| == |s| + |ins|
      && (forall i :: 0 <= i < k ==> r[i] == s[i])
      && (forall i :: 0 <= i < |ins| ==> r[k + i] == ins[i])
      && (forall i :: k + |ins| <= i < |r| ==> r[i] == s[i - |ins|])
  {
  }

  lemma BaseResultColumnsDistinct()
    ensures forall i, j :: 0 <= i < j < |BaseResultColumns| ==> BaseResultColumns[i] != BaseResultColumns[j]
  {
  }

  lemma BaseResultFacts()
    ensures |BaseResultColumns| == 29 && BaseResultColumns[4] == "참여업체수"
    ensures BaseResultColumns[25] == "결과1" && BaseResultColumns[28] == "결과2"
    ensures forall j :: 0 <= j < |BaseResultColumns| && j != 25 ==> BaseResultColumns[j] != "결과1"
    ensures forall j :: 0 <= j < |BaseResultColumns| && j != 28 ==> BaseResultColumns[j] != "결과2"
    ensures "간접비" !in BaseResultColumns && "순공사원가" !in BaseResultColumns
  {
    var b := BaseResultColumns;
    assert |b| == 29 && b[25] == "결과1" && b[28] == "결과2";
    BaseResultColumnsDistinct();
    assert forall j :: 0 <= j < |b| && j != 25 ==> b[j] != b[25];
    assert forall j :: 0 <= j < |b| && j != 28 ==> b[j] != b[28];
    BaseWithoutCosts();
  }

  lemma BaseWithoutCosts()
    ensures "간접비" !in BaseResultColumns && "순공사원가" !in BaseResultColumns
  {
  }

  /** The result columns of a bid type: construction bids splice the two cost columns in right after `참여업체수`. */
  function ResultColumns(bidType: string): seq<string>
  {
    if bidType == "cst" then
      var k := IndexOf(BaseResultColumns, "참여업체수") + 1;
      BaseResultColumns[..k] + ConstructionResultColumns + BaseResultColumns[k..]
    else BaseResultColumns
  }

  lemma CstResultColumns()
    ensures ResultColumns("cst") == BaseResultColumns[..5] + ConstructionResultColumns + BaseResultColumns[5..]
  {
    BaseResultColumnsDistinct();
    BaseResultFacts();
    IndexOfDistinct(BaseResultColumns, "참여업체수", 4);
  }

  /** 29 result columns, or 31 with the two cost columns at positions 5 and 6 and everything from position 5 on shifted by two. */
  lemma ResultColumnsLayout(bidType: string)
    ensures bidType != "cst" ==> ResultColumns(bidType) == BaseResultColumns && |BaseResultColumns| == 29
    ensures bidType == "cst" ==>
      && |ResultColumns(bidType)| == 31
      && (forall i :: 0 <= i < 5 ==> ResultColumns(bidType)[i] == BaseResultColumns[i])
      && ResultColumns(bidType)[4] == "참여업체수"
      && ResultColumns(bidType)[5] == "간접비" && ResultColumns(bidType)[6] == "순공사원가"
      && (forall i :: 7 <= i < 31 ==> ResultColumns(bidType)[i] == BaseResultColumns[i - 2])
  {
    BaseResultFacts();
    if bidType == "cst" {
      CstResultColumns();
      SpliceAt(BaseResultColumns, 5, ConstructionResultColumns);
    }
  }

  lemma ResultColumnsDistinct(bidType: string)
    ensures forall i, j :: 0 <= i < j < |ResultColumns(bidType)| ==> ResultColumns(bidType)[i] != ResultColumns(bidType)[j]
  {
    ResultColumnsLayout(bidType);
    BaseResultColumnsDistinct();
    BaseResultFacts();
  }

  /** Where `결과1` and `결과2` sit: 25 and 28, or 27 and 30 in the construction layout; nowhere else. */
  lemma VerdictPositions(bidType: string)
    ensures var rc := ResultColumns(bidType);
            var (p1, p2) := if bidType == "cst" then (27, 30) else (25, 28);
            |rc| > p2 && rc[p1] == "결과1" && rc[p2] == "결과2"
            && (forall j :: 0 <= j < |rc| && j != p1 ==> rc[j] != "결과1")
            && (forall j :: 0 <= j < |rc| && j != p2 ==> rc[j] != "결과2")
  {
    ResultColumnsLayout(bidType);
    BaseResultFacts();
    var rc := ResultColumns(bidType);
    if bidType == "cst" {
      assert rc[27] == BaseResultColumns[25] && rc[30] == BaseResultColumns[28];
      forall j | 0 <= j < |rc|
        ensures (j != 27 ==> rc[j] != "결과1") && (j != 30 ==> rc[j] != "결과2")
      {
        if j >= 7 {
          assert rc[j] == BaseResultColumns[j - 2];
        } else if j < 5 {
          assert rc[j] == BaseResultColumns[j];
        }
      }
    }
  }

  /** `[x for x in names if x in avail]`. */
  function Present(names: seq<string>, avail: seq<string>): (r: seq<string>)
    ensures |r| <= |names|
    ensures forall x :: x in r <==> x in names && x in avail
    decreases |names|
  {
    if |names| == 0 then []
    else
      var x := names[|names| - 1];
      Present(names[..|names| - 1], avail) + (if x in avail then [x] else [])
  }

  /** Filtering a list whose names are all available keeps the whole list, in order. */
  lemma {:induction false} PresentAll(names: seq<string>, avail: seq<string>)
    requires forall x :: x in names ==> x in avail
    ensures Present(names, avail) == names
    decreases |names|
  {
    if |names| > 0 {
      var init, x := names[..|names| - 1], names[|names| - 1];
      assert forall y :: y in init ==> y in names;
      PresentAll(init, avail);
      assert x in names;
      assert names == init + [x];
    }
  }

  /** Filtering distinct names gives distinct names. */
  lemma {:induction false} PresentDistinct(names: seq<string>, avail: seq<string>)
    requires forall i, j :: 0 <= i < j < |names| ==> names[i] != names[j]
    ensures forall i, j :: 0 <= i < j < |Present(names, avail)| ==> Present(names, avail)[i] != Present(names, avail)[j]
    decreases |names|
  {
    if |names| > 0 {
      var init := names[..|names| - 1];
      var x := names[|names| - 1];
      PresentDistinct(init, avail);
      assert x !in init;
      var p := Present(init, avail);
      assert x !in p;
      var r := Present(names, avail);
      assert r == p + (if x in avail then [x] else []);
      forall i, j | 0 <= i < j < |r|
        ensures r[i] != r[j]
      {
        if j >= |p| {
          assert r[j] == x && r[i] == p[i];
          assert p[i] in p;
        } else {
          assert r[i] == p[i] && r[j] == p[j];
        }
      }
    }
  }

  /** The bid type a data file's columns indicate: construction when at least two of the three construction columns are there. */
  function DetectedType(dataColumns: seq<string>): (t: string)
    ensures t == "cst" <==> |Present(ConstructionColumns, dataColumns)| >= 2
    ensures t == "cst" || t == "mtrl"
  {
    if |Present(ConstructionColumns, dataColumns)| >= 2 then "cst" else "mtrl"
  }

  /** Two construction columns are enough, one is not; detection never yields `gdns`. */
  lemma DetectionExamples()
    ensures DetectedType(["기초금액", "간접비", "주공종명"]) == "cst"
    ensures DetectedType(["기초금액", "간접비"]) == "mtrl"
    ensures forall cs :: DetectedType(cs) != "gdns"
  {
    assert Present(ConstructionColumns, ["기초금액", "간접비", "주공종명"]) == ["간접비", "주공종명"] by {
      assert ConstructionColumns[..2][..1] == ["간접비"];
      assert ConstructionColumns[..1][..0] == [];
    }
    assert Present(ConstructionColumns, ["기초금액", "간접비"]) == ["간접비"] by {
      assert ConstructionColumns[..2][..1] == ["간접비"];
      assert ConstructionColumns[..1][..0] == [];
    }
  }

  /** The fill value of a missing input column: 0 for the cost and score columns, `''` for everything else. */
  function MissingDefault(col: string, rows: nat): (c: Column)
    ensures c.Len() == rows
    ensures col in ["간접비", "순공사원가", "공고기관점수", "공사지역점수", "키워드점수"] <==> c == Nums(seq(rows, _ => Fin(0.0)))
    ensures col !in ["간접비", "순공사원가", "공고기관점수", "공사지역점수", "키워드점수"] <==> c == Objs(seq(rows, _ => Str("")))
  {
    if col in ["간접비", "순공사원가"] then Nums(seq(rows, _ => Fin(0.0)))
    else if col == "주공종명" then Objs(seq(rows, _ => Str("")))
    else if col in ["공고기관점수", "공사지역점수", "키워드점수"] then Nums(seq(rows, _ => Fin(0.0)))
    else Objs(seq(rows, _ => Str("")))
  }

  /** `_prepare_dataset_x`: exactly the input columns in their order, present ones as read and missing ones filled. */
  function PrepareDatasetX(cvs: seq<string>, data: Table): (x: Table)
    ensures x.names == cvs && x.rows == data.rows
    ensures forall c :: c in x.cols <==> c in cvs
    ensures forall c :: c in cvs && c in data.cols ==> x.cols[c] == data.cols[c]
    ensures forall c :: c in cvs && c !in data.cols ==> x.cols[c] == MissingDefault(c, data.rows)
  {
    Table(cvs, map c | c in cvs :: if c in data.cols then data.cols[c] else MissingDefault(c, data.rows), data.rows)
  }

  lemma PrepareDatasetXValid(cvs: seq<string>, data: Table)
    requires data.Valid()
    requires forall i, j :: 0 <= i < j < |cvs| ==> cvs[i] != cvs[j]
    ensures PrepareDatasetX(cvs, data).Valid()
  {
  }

  /** The model features, in input order: the cost columns follow `참여업체수` for construction bids. */
  function FeatureColumns(bidType: string): seq<string>
  {
    var base := ["기초금액", "낙찰하한률", "참여업체수", "면허제한코드", "공고기관점수", "공사지역점수", "키워드점수"];
    if bidType == "cst" then base[..3] + ["간접비", "순공사원가"] + base[3..] else base
  }

  /** The position of each name the list has, in the order of the names; unknown names are skipped. */
  function Positions(cvs: seq<string>, names: seq<string>): (idx: seq<nat>)
    ensures |idx| == |Present(names, cvs)|
    ensures forall k :: 0 <= k < |idx| ==> idx[k] < |cvs| && cvs[idx[k]] == Present(names, cvs)[k]
    ensures forall k, j :: 0 <= k < |idx| && 0 <= j < idx[k] ==> cvs[j] != cvs[idx[k]]
    decreases |names|
  {
    if |names| == 0 then []
    else
      var x := names[|names| - 1];
      Positions(cvs, names[..|names| - 1]) + (if x in cvs then [IndexOf(cvs, x)] else [])
  }

  /** `_get_selected_column_indices`: the loop over the names, appending `cvs_columns.index(col)` when the name is known. */
  method SelectedColumnIndices(cvs: seq<string>, names: seq<string>) returns (idx: seq<nat>)
    ensures idx == Positions(cvs, names)
  {
    idx := [];
    for k := 0 to |names|
      invariant idx == Positions(cvs, names[..k])
    {
      assert names[..k + 1][..k] == names[..k];
      var col := names[k];
      if col in cvs {
        idx := idx + [IndexOf(cvs, col)];
      }
    }
    assert names[..|names|] == names;
  }

  /** Positions are determined by the names when the list has no repeats and holds them all. */
  lemma PositionsOfDistinct(cvs: seq<string>, names: seq<string>, ps: seq<nat>)
    requires forall i, j :: 0 <= i < j < |cvs| ==> cvs[i] != cvs[j]
    requires forall x :: x in names ==> x in cvs
    requires |ps| == |names| && forall k :: 0 <= k < |ps| ==> ps[k] < |cvs| && cvs[ps[k]] == names[k]
    ensures Positions(cvs, names) == ps
  {
    PresentAll(names, cvs);
  }

  lemma CstFeatureColumns()
    ensures FeatureColumns("cst") ==
      ["기초금액", "낙찰하한률", "참여업체수", "간접비", "순공사원가", "면허제한코드", "공고기관점수", "공사지역점수", "키워드점수"]
  {
  }

  lemma OtherFeatureColumns(bidType: string)
    requires bidType != "cst"
    ensures FeatureColumns(bidType) ==
      ["기초금액", "낙찰하한률", "참여업체수", "면허제한코드", "공고기관점수", "공사지역점수", "키워드점수"]
  {
  }

  lemma InputColumnFacts()
    ensures var c := CvsColumns("cst");
      |c| == 22 && c[0] == "기초금액" && c[1] == "낙찰하한률" && c[2] == "참여업체수"
      && c[11] == "면허제한코드" && c[14] == "공고기관점수" && c[16] == "공사지역점수" && c[18] == "키워드점수"
      && c[19] == "간접비" && c[20] == "순공사원가"
    ensures var c := CvsColumns("mtrl");
      |c| == 19 && c[0] == "기초금액" && c[1] == "낙찰하한률" && c[2] == "참여업체수"
      && c[11] == "면허제한코드" && c[14] == "공고기관점수" && c[16] == "공사지역점수" && c[18] == "키워드점수"
  {
  }

  /** The construction features sit at 0, 1, 2, 19, 20, 11, 14, 16, 18 of the 22 input columns. */
  lemma ConstructionFeaturePositions()
    ensures Positions(CvsColumns("cst"), FeatureColumns("cst")) == [0, 1, 2, 19, 20, 11, 14, 16, 18]
  {
    CvsColumnsDistinct("cst");
    CstFeatureColumns();
    InputColumnFacts();
    PositionsOfDistinct(CvsColumns("cst"), FeatureColumns("cst"), [0, 1, 2, 19, 20, 11, 14, 16, 18]);
  }

  lemma OtherFeatureIndices(bidType: string)
    requires bidType != "cst"
    ensures var cvs, names, ps := CvsColumns(bidType), FeatureColumns(bidType), [0, 1, 2, 11, 14, 16, 18];
      |ps| == |names| && forall k :: 0 <= k < |ps| ==> ps[k] < |cvs| && cvs[ps[k]] == names[k]
  {
    OtherFeatureColumns(bidType);
    InputColumnFacts();
  }

  lemma OtherFeaturesPresent(bidType: string)
    requires bidType != "cst"
    ensures forall x :: x in FeatureColumns(bidType) ==> x in CvsColumns(bidType)
  {
    var cvs, names := CvsColumns(bidType), FeatureColumns(bidType);
    OtherFeatureIndices(bidType);
    forall x | x in names ensures x in cvs {
      var k :| 0 <= k < |names| && names[k] == x;
      assert cvs[[0, 1, 2, 11, 14, 16, 18][k]] == x;
    }
  }

  /** The other bid types' features sit at 0, 1, 2, 11, 14, 16, 18 of the 19 input columns. */
  lemma OtherFeaturePositions(bidType: string)
    requires bidType != "cst"
    ensures Positions(CvsColumns(bidType), FeatureColumns(bidType)) == [0, 1, 2, 11, 14, 16, 18]
  {
    CvsColumnsDistinct(bidType);
    OtherFeatureIndices(bidType);
    OtherFeaturesPresent(bidType);
    PositionsOfDistinct(CvsColumns(bidType), FeatureColumns(bidType), [0, 1, 2, 11, 14, 16, 18]);
  }

  /** The result columns copied from the test rows, before filtering: construction bids add the two cost columns after `참여업체수`. */
  function ResultCopyList(bidType: string): seq<string>
  {
    var base := ["입찰번호", "입찰차수",
                 "기초금액", "낙찰하한률", "참여업체수",
                 "면허제한코드", "공고기관코드",
                 "키워드", "키워드점수",
                 "공고기관명", "공고기관점수",
                 "공사지역", "공사지역점수",
                 "업체투찰률", "예가투찰률", "투찰률오차",
                 "예정금액", "낙찰하한가", "낙찰금액"];
    if bidType == "cst" then base[..5] + ConstructionResultColumns + base[5..] else base
  }

  /** `_get_result_selected_columns`: the copy list filtered by the input columns. */
  function ResultSelectedColumns(bidType: string, cvs: seq<string>): seq<string>
  {
    Present(ResultCopyList(bidType), cvs)
  }

  lemma ResultCopyListFacts(bidType: string)
    ensures var l := ResultCopyList(bidType);
      var d := if bidType == "cst" then 2 else 0;
      |l| == 19 + d && l[2] == "기초금액" && l[3] == "낙찰하한률" && l[17 + d] == "낙찰하한가" && l[18 + d] == "낙찰금액"
      && (bidType == "cst" ==> l[5] == "간접비" && l[6] == "순공사원가")
      && (bidType != "cst" ==> "간접비" !in l && "순공사원가" !in l)
  {
    var base := ["입찰번호", "입찰차수",
                 "기초금액", "낙찰하한률", "참여업체수",
                 "면허제한코드", "공고기관코드",
                 "키워드", "키워드점수",
                 "공고기관명", "공고기관점수",
                 "공사지역", "공사지역점수",
                 "업체투찰률", "예가투찰률", "투찰률오차",
                 "예정금액", "낙찰하한가", "낙찰금액"];
    if bidType == "cst" {
      assert ResultCopyList(bidType) == base[..5] + ConstructionResultColumns + base[5..];
      SpliceAt(base, 5, ConstructionResultColumns);
    } else {
      assert ResultCopyList(bidType) == base;
      BaseCopyListFacts(base);
    }
  }

  lemma BaseCopyListFacts(base: seq<string>)
    requires base == ["입찰번호", "입찰차수",
                      "기초금액", "낙찰하한률", "참여업체수",
                      "면허제한코드", "공고기관코드",
                      "키워드", "키워드점수",
                      "공고기관명", "공고기관점수",
                      "공사지역", "공사지역점수",
                      "업체투찰률", "예가투찰률", "투찰률오차",
                      "예정금액", "낙찰하한가", "낙찰금액"]
    ensures "간접비" !in base && "순공사원가" !in base
  {
  }

  /** The copy list carries the four amounts the verdicts read, and the two cost columns exactly for construction bids. */
  lemma ResultSelectedCarries(bidType: string)
    ensures var sel := ResultSelectedColumns(bidType, CvsColumns(bidType));
      "기초금액" in sel && "낙찰하한률" in sel && "낙찰하한가" in sel && "낙찰금액" in sel
      && ("간접비" in sel <==> bidType == "cst") && ("순공사원가" in sel <==> bidType == "cst")
  {
    ResultCopyListFacts(bidType);
    InputColumnFacts();
    var l := ResultCopyList(bidType);
    assert "기초금액" in l && "낙찰하한률" in l && "낙찰하한가" in l && "낙찰금액" in l;
    assert bidType == "cst" ==> "간접비" in l && "순공사원가" in l;
    assert "기초금액" in CvsColumns(bidType) && "낙찰하한률" in CvsColumns(bidType);
    assert "낙찰하한가" in CvsColumns(bidType) && "낙찰금액" in CvsColumns(bidType);
    assert bidType == "cst" ==> "간접비" in CvsColumns(bidType) && "순공사원가" in CvsColumns(bidType);
  }

  /** The test share in percent by data size. */
  function TestPercent(n: nat): (p: nat)
    ensures p == 20 <==> n < 20000
    ensures p == 15 <==> 20000 <= n < 50000
    ensures p == 10 <==> 50000 <= n < 100000
    ensures p == 5 <==> 100000 <= n
  {
    if n < 20000 then 20 else if n < 50000 then 15 else if n < 100000 then 10 else 5
  }

  /** `int(data_size * (1 - test_ratio))`. */
  function TrainCount(n: nat): nat
  {
    n * (100 - TestPercent(n)) / 100
  }

  function TestCount(n: nat): int
  {
    n - TrainCount(n)
  }

  /** The two parts cover the data, and the test part is the test share rounded up. */
  lemma SplitCounts(n: nat)
    ensures TrainCount(n) + TestCount(n) == n
    ensures 0 <= TestCount(n) <= n
    ensures TestCount(n) * 100 >= n * TestPercent(n)
    ensures (TestCount(n) - 1) * 100 < n * TestPercent(n)
  {
  }

  /** The size unit of the file name. */
  function DataUnit(n: nat): (u: nat)
    ensures u == 1 <==> n < 50000
    ensures u == 5 <==> 50000 <= n < 100000
    ensures u == 10 <==> 100000 <= n < 300000
    ensures u == 30 <==> 300000 <= n
  {
    if n < 50000 then 1 else if n < 100000 then 5 else if n < 300000 then 10 else 30
  }

  /** `f"{train_ratio}{test_ratio_int:02d}"`. */
  function RatioString(testPercent: nat): string
    requires testPercent <= 100
  {
    NatToString(100 - testPercent) + ZeroPad2(testPercent)
  }

  /** `result-{time}-{unit}-{ratio}.xlsx`; the clock reading is a parameter. */
  function ExcelFileName(time: string, n: nat, testPercent: nat): string
    requires testPercent <= 100
  {
    "result-" + time + "-" + NatToString(DataUnit(n)) + "-" + RatioString(testPercent) + ".xlsx"
  }

  /** The four ratio strings. */
  lemma RatioStrings()
    ensures RatioString(20) == "8020" && RatioString(15) == "8515"
    ensures RatioString(10) == "9010" && RatioString(5) == "9505"
  {
    RatioOfTwoDigits(20);
    RatioOfTwoDigits(15);
    RatioOfTwoDigits(10);
    assert ZeroPad2(5) == "05";
    TwoDigitString(95);
  }

  /** A two-digit number is written as its two digits. */
  lemma TwoDigitString(n: nat)
    requires 10 <= n < 100
    ensures NatToString(n) == [DigitChar(n / 10), DigitChar(n % 10)]
  {
    assert NatToString(n / 10) == [DigitChar(n / 10)];
  }

  /** The ratio string of a two-digit share is the two digits of the rest and then its own two. */
  lemma RatioOfTwoDigits(p: nat)
    requires 10 <= p <= 90
    ensures RatioString(p) == [DigitChar((100 - p) / 10), DigitChar((100 - p) % 10), DigitChar(p / 10), DigitChar(p % 10)]
  {
    TwoDigitString(100 - p);
    TwoDigitString(p);
    assert ZeroPad2(p) == NatToString(p);
  }

  /** A 60000-row file gives unit 5 and ratio 9010. */
  lemma FileNameExample(time: string)
    ensures ExcelFileName(time, 60000, TestPercent(60000)) == "result-" + time + "-5-9010.xlsx"
  {
    RatioStrings();
    assert NatToString(5) == "5";
  }

  /** The training script's column state: the bid type, its input columns and their types, and the result columns fixed at construction. */
  class Trainer {
    var bidType: string
    var bidTypeName: string
    var cvsColumns: seq<string>
    var cvsColumnsType: map<string, string>
    var resultColumns: seq<string>

    /** The input columns always follow the current bid type. */
    ghost predicate Valid()
      reads this
    {
      cvsColumns == CvsColumns(bidType) && bidTypeName == BidTypeName(bidType)
      && cvsColumnsType == ColumnTypes(cvsColumns)
    }

    constructor (bidType: string)
      ensures Valid() && this.bidType == bidType && resultColumns == ResultColumns(bidType)
    {
      this.bidType := bidType;
      cvsColumns := [];
      resultColumns := [];
      new;
      DefineBidTypeColumns();
      resultColumns := ResultColumns(bidType);
    }

    /** `_define_bid_type_columns`: the input columns, the type name and the types of the current bid type. */
    method DefineBidTypeColumns()
      modifies this
      ensures Valid() && bidType == old(bidType) && resultColumns == old(resultColumns)
    {
      if bidType == "cst" {
        cvsColumns := BaseColumns + ConstructionColumns;
        bidTypeName := "공사입찰";
      } else if bidType == "mtrl" || bidType == "gdns" {
        cvsColumns := BaseColumns;
        if bidType == "mtrl" {
          bidTypeName := "구매입찰";
        } else {
          bidTypeName := "용역입찰";
        }
      } else {
        cvsColumns := BaseColumns;
        bidTypeName := "자동감지";
      }
      cvsColumnsType := ColumnTypes(cvsColumns);
    }

    /** `_detect_bid_type`: the detected type replaces the bid type and the input columns follow; the result columns do not. */
    method DetectBidType(dataColumns: seq<string>)
      modifies this
      ensures Valid() && bidType == DetectedType(dataColumns) && resultColumns == old(resultColumns)
    {
      var available := Present(ConstructionColumns, dataColumns);
      var detected: string;
      if |available| >= 2 {
        detected := "cst";
        bidTypeName := "공사입찰";
      } else {
        detected := "mtrl";
        bidTypeName := "구매입찰";
      }
      bidType := detected;
      DefineBidTypeColumns();
    }

    /** The start of `loadTrainsetFromFile`: an `auto` trainer detects its type from the file. */
    method ResolveBidType(dataColumns: seq<string>)
      requires Valid()
      modifies this
      ensures Valid() && resultColumns == old(resultColumns)
      ensures bidType == (if old(bidType) == "auto" then DetectedType(dataColumns) else old(bidType))
    {
      if bidType == "auto" {
        DetectBidType(dataColumns);
      }
    }
  }

  lemma BothCostColumnsDetected()
    ensures DetectedType(["간접비", "순공사원가"]) == "cst"
  {
    assert Present(ConstructionColumns, ["간접비", "순공사원가"]) == ["간접비", "순공사원가"] by {
      assert ConstructionColumns[..2][..1] == ["간접비"];
      assert ConstructionColumns[..1][..0] == [];
    }
  }

  /** An `auto` trainer that detects a construction file keeps the 29 shared result columns, which lack a cost column it copies. */
  lemma AutoConstructionKeepsSharedLayout()
    ensures DetectedType(["간접비", "순공사원가"]) == "cst"
    ensures ResultColumns("auto") == BaseResultColumns
    ensures "간접비" in ResultSelectedColumns("cst", CvsColumns("cst")) && "간접비" !in ResultColumns("auto")
  {
    BothCostColumnsDetected();
    ResultSelectedCarries("cst");
    BaseResultFacts();
  }
}
