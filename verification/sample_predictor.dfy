/**
 * The sample-data predictor: `preprocess_data` turns a loaded file into the
 * thirteen required columns (defaults for missing ones, cleaned text, hashed
 * codes, text scores), and `predict_data` sanitises the nine features, runs
 * the scaler and the three models with their zero fallback, and builds the
 * result frame with the identifiers in front and the derived columns last.
 */
module SamplePredictor {

  import opened Wrappers
  import opened Floats
  import opened Frames
  import KiwiTokens
  import TextScorer
  import ColumnMath
  import Outcome
  import TrainSetup
  import ImprovedModel

  /** `required_columns`, in the order the frame ends up with. */
  const Required: seq<string> :=
    ["기초금액", "낙찰하한률", "참여업체수",
     "간접비", "순공사원가",
     "면허제한코드", "공고기관코드",
     "공고기관명", "공고기관점수",
     "공사지역", "공사지역점수",
     "키워드", "키워드점수"]

  /** `text_columns`: the columns the text cleanup rewrites, in the order it visits them. */
  const TextColumns: seq<string> := ["키워드", "공고기관명", "공사지역"]

  /** The literals the text cleanup blanks out. */
  const NullTexts: seq<string> := ["nan", "NaN", "None", "null"]

  /** Codes are reduced modulo this. */
  const CodeModulus: nat := 1000000

  const Bidders := "참여업체수"
  const Base := "기초금액"
  const LowerRate := "낙찰하한률"
  const IndirectCost := "간접비"

  /** How a column is treated: a code, a score computed from a text column, a text, the bidder count, or an amount. */
  datatype Role = Code | Score(text: string) | Text | Count | Amount

  function RoleOf(n: string): Role
  {
    if n == "면허제한코드" || n == "공고기관코드" then Code
    else if n == "키워드점수" then Score("키워드")
    else if n == "공고기관점수" then Score("공고기관명")
    else if n == "공사지역점수" then Score("공사지역")
    else if n == "키워드" || n == "공고기관명" || n == "공사지역" then Text
    else if n == Bidders then Count
    else Amount
  }

  lemma RequiredFacts()
    ensures |Required| == 13
    ensures forall i, j :: 0 <= i < j < |Required| ==> Required[i] != Required[j]
    ensures forall i, j :: 0 <= i < j < |TextColumns| ==> TextColumns[i] != TextColumns[j]
  {
  }

  /** The required amounts, which keep the file's values or default to 0, are the base amount, the rate floor, the indirect cost and the net cost. */
  lemma RolesOfRequired()
    ensures forall n :: RoleOf(n).Amount? && n in Required <==> n in [Base, LowerRate, IndirectCost, "순공사원가"]
  {
  }

  // ---------------------------------------------------------------------------
  // preprocess_data
  // ---------------------------------------------------------------------------

  function Fill(n: nat, x: Float): (r: seq<Float>)
    ensures |r| == n && forall i :: 0 <= i < n ==> r[i] == x
  {
    seq(n, _ => x)
  }

  /** The column `dataset_x[col] = v` creates for a required column of role `r` the file lacks. */
  function Default(r: Role, rows: nat): (c: Column)
    ensures c.Len() == rows && !c.Dates?
    ensures r.Count? ==> c == Nums(Fill(rows, Fin(5.0)))
    ensures r.Text? ==> c.Objs? && forall i :: 0 <= i < rows ==> c.os[i] == Str("")
    ensures !r.Count? && !r.Text? ==> c == Nums(Fill(rows, Fin(0.0)))
  {
    match r
    case Code => Nums(Fill(rows, Fin(0.0)))
    case Score(_) => Nums(Fill(rows, Fin(0.0)))
    case Text => Objs(seq(rows, _ => Str("")))
    case Count => Nums(Fill(rows, Fin(5.0)))
    case Amount => Nums(Fill(rows, Fin(0.0)))
  }

  /** The loaded file holds numbers and text, no parsed dates. */
  ghost predicate NoDates(t: Table)
  {
    forall n :: n in t.cols ==> !t.cols[n].Dates?
  }

  /** Required column `name` of role `r` as it stands after the defaults: the file's own, or the default. */
  function Source(data: Table, name: string, r: Role): (c: Column)
    requires NoDates(data)
    ensures !c.Dates?
    ensures data.Valid() ==> c.Len() == data.rows
  {
    if name in data.cols then data.cols[name] else Default(r, data.rows)
  }

  function CleanText(s: string): string
  {
    if s in NullTexts then "" else s
  }

  function CleanObj(o: Obj): string
  {
    match o
    case Str(s) => CleanText(s)
    case NoneCell => ""
    case NaNCell => ""
    case ZeroCell => "0"
  }

  /**
   * `fillna('').astype(str).replace(['nan', 'NaN', 'None', 'null'], '')`:
   * `numText` is `str` of a number.
   */
  function CleanColumn(numText: Float -> string, c: Column): (r: Column)
    requires !c.Dates?
    ensures r.Objs? && r.Len() == c.Len()
  {
    match c
    case Nums(xs) =>
      Objs(seq(|xs|, i requires 0 <= i < |xs| => Str(if xs[i].NaN? then "" else CleanText(numText(xs[i])))))
    case Objs(os) =>
      Objs(seq(|os|, i requires 0 <= i < |os| => Str(CleanObj(os[i]))))
  }

  /** `hash(x) % 1000000 if x != 'nan' else 0`; `hash` is the process's string hash. */
  function CodeOf(hash: string -> int, s: string): (r: nat)
    ensures r < CodeModulus
    ensures s == "nan" ==> r == 0
  {
    if s == "nan" then 0 else hash(s) % CodeModulus
  }

  /** `str` of a cell as `astype(str)` writes it. */
  function CodeText(numText: Float -> string, c: Column, i: nat): string
    requires !c.Dates? && i < c.Len()
  {
    match c
    case Nums(xs) => if xs[i].NaN? then "nan" else numText(xs[i])
    case Objs(os) => CellText(os[i])
  }

  /** `astype(str).apply(...)` on a code column. */
  function Encode(numText: Float -> string, hash: string -> int, c: Column): (r: Column)
    requires !c.Dates?
    ensures r.Nums? && r.Len() == c.Len()
  {
    Nums(seq(c.Len(), i requires 0 <= i < c.Len() => Fin(CodeOf(hash, CodeText(numText, c, i)) as real)))
  }

  /** The vectorizer's `transform` yields one well-formed row per line. */
  ghost predicate Vectorizer(transform: seq<string> -> TextScorer.Csr)
  {
    forall lines :: transform(lines).WellFormed() && transform(lines).Rows() == |lines|
  }

  /** `column.tolist()` of a text column. */
  function Lines(c: Column): (r: seq<Option<string>>)
    requires c.Objs?
    ensures |r| == |c.os|
  {
    seq(|c.os|, i requires 0 <= i < |c.os| => Some(CellText(c.os[i])))
  }

  /** `nn_only` on one cell, as a function of the cell. */
  function Cleaner(tokenize: string -> seq<KiwiTokens.Token>): Option<string> -> string
  {
    k => KiwiTokens.CleanLine(tokenize, k)
  }

  /** `nn_only` of a text column; `clean` cleans one line. */
  function Cleaned(clean: Option<string> -> string, c: Column): (r: seq<string>)
    requires c.Objs?
    ensures |r| == |c.os|
  {
    seq(|c.os|, i requires 0 <= i < |c.os| => clean(Lines(c)[i]))
  }

  /** `vectorizer.scores(nn_only(column))` as a numeric column. */
  function ScoreColumn(clean: Option<string> -> string, transform: seq<string> -> TextScorer.Csr, c: Column): (r: Column)
    requires c.Objs? && Vectorizer(transform)
    ensures r.Nums? && r.Len() == c.Len()
  {
    var lines := Cleaned(clean, c);
    Nums(seq(|lines|, i requires 0 <= i < |lines| => Fin(TextScorer.RowScore(transform(lines), i))))
  }

  /** What `preprocess_data` leaves in required column `n` of role `r`. */
  function FinalColumn(numText: Float -> string, hash: string -> int, clean: Option<string> -> string,
                       transform: seq<string> -> TextScorer.Csr, data: Table, n: string, r: Role): (c: Column)
    requires NoDates(data) && Vectorizer(transform)
    ensures data.Valid() ==> c.Len() == data.rows
  {
    match r
    case Text => CleanColumn(numText, Source(data, n, Text))
    case Code => Encode(numText, hash, Source(data, n, Code))
    case Score(text) => ScoreColumn(clean, transform, CleanColumn(numText, Source(data, text, Text)))
    case Count => Source(data, n, Count)
    case Amount => Source(data, n, Amount)
  }

  /** The frame `preprocess_data` returns. */
  function Preprocessed(numText: Float -> string, hash: string -> int, clean: Option<string> -> string,
                        transform: seq<string> -> TextScorer.Csr, data: Table): Table
    requires NoDates(data) && Vectorizer(transform)
  {
    Table(Required, map n | n in Required :: FinalColumn(numText, hash, clean, transform, data, n, RoleOf(n)), data.rows)
  }

  function AsNums(rs: seq<real>): (c: Column)
    ensures c.Nums? && c.Len() == |rs|
  {
    Nums(seq(|rs|, i requires 0 <= i < |rs| => Fin(rs[i])))
  }

  /** `pd.DataFrame(data, columns=available_columns)` and the defaults for the missing columns, one assignment each. */
  method FillMissing(data: Table, required: seq<string>) returns (df: DataFrame)
    requires data.Valid() && NoDates(data)
    requires forall i, j :: 0 <= i < j < |required| ==> required[i] != required[j]
    ensures fresh(df) && df.Valid() && df.rows == data.rows
    ensures forall n :: n in required ==> n in df.cols && df.cols[n] == Source(data, n, RoleOf(n))
  {
    var available := TrainSetup.Present(required, data.names);
    var missing := ImprovedModel.MissingFrom(required, data);
    TrainSetup.PresentDistinct(required, data.names);
    ProjectValid(data, available);
    df := new DataFrame(Project(data, available));
    assert forall n :: n in df.cols ==> n in data.cols && df.cols[n] == data.cols[n];
    for k := 0 to |missing|
      invariant df.Valid() && df.rows == data.rows
      invariant forall n :: n in available ==> n in df.cols
      invariant forall j :: 0 <= j < k ==> missing[j] in df.cols
      invariant Defaulted(data, df.cols)
    {
      var col := missing[k];
      ghost var m := df.cols;
      df.Assign(col, Default(RoleOf(col), data.rows));
      FillStep(data, available, missing, k, m, df.cols);
    }
  }

  /** One default assignment keeps the present columns and adds the next missing one. */
  lemma FillStep(data: Table, available: seq<string>, missing: seq<string>, k: nat, m: map<string, Column>, m': map<string, Column>)
    requires NoDates(data) && k < |missing| && missing[k] !in data.cols
    requires m' == m[missing[k] := Default(RoleOf(missing[k]), data.rows)]
    requires forall n :: n in available ==> n in m
    requires forall j :: 0 <= j < k ==> missing[j] in m
    requires Defaulted(data, m)
    ensures forall n :: n in available ==> n in m'
    ensures forall j :: 0 <= j < k + 1 ==> missing[j] in m'
    ensures Defaulted(data, m')
  {
    DefaultedStep(data, m, missing[k]);
  }

  /** Every column holds the file's column or the default of its role. */
  ghost predicate Defaulted(data: Table, m: map<string, Column>)
    requires NoDates(data)
  {
    forall n :: n in m ==> m[n] == Source(data, n, RoleOf(n))
  }

  /** Adding the default of a column the file lacks keeps that. */
  lemma DefaultedStep(data: Table, m: map<string, Column>, col: string)
    requires NoDates(data) && Defaulted(data, m) && col !in data.cols
    ensures Defaulted(data, m[col := Default(RoleOf(col), data.rows)])
  {
  }

  /** The text cleanup loop, rewriting each listed column in place. */
  method CleanTexts(df: DataFrame, numText: Float -> string, texts: seq<string>)
    requires forall i, j :: 0 <= i < j < |texts| ==> texts[i] != texts[j]
    requires df.Valid() && forall n :: n in df.cols ==> !df.cols[n].Dates?
    modifies df
    ensures df.Valid() && df.names == old(df.names) && df.rows == old(df.rows)
    ensures forall n :: n in df.cols <==> n in old(df.cols)
    ensures forall n :: n in df.cols ==>
              df.cols[n] == if n in texts then CleanColumn(numText, old(df.cols)[n]) else old(df.cols)[n]
  {
    ghost var start := df.cols;
    for k := 0 to |texts|
      invariant df.Valid() && df.names == old(df.names) && df.rows == old(df.rows)
      invariant forall n :: n in df.cols <==> n in start
      invariant forall n :: n in df.cols ==>
                  df.cols[n] == if n in texts[..k] then CleanColumn(numText, start[n]) else start[n]
    {
      var col := texts[k];
      if col in df.cols {
        df.Assign(col, CleanColumn(numText, df.cols[col]));
      }
      assert texts[..k + 1] == texts[..k] + [col];
    }
    assert texts[..|texts|] == texts;
  }

  /** Scores one cleaned text column. */
  method ScoreText(df: DataFrame, tokenize: string -> seq<KiwiTokens.Token>, transform: seq<string> -> TextScorer.Csr, text: string)
      returns (c: Column)
    requires df.Valid() && text in df.cols && df.cols[text].Objs? && Vectorizer(transform)
    ensures c == ScoreColumn(Cleaner(tokenize), transform, df.cols[text])
  {
    var lines := KiwiTokens.NnOnly(tokenize, Lines(df.cols[text]));
    assert lines == Cleaned(Cleaner(tokenize), df.cols[text]);
    var pts := TextScorer.Scores(transform, lines);
    c := AsNums(pts);
  }

  /** The role of required column `k`: a score column takes its text from the column one position before. */
  function RoleAt(k: nat): Role
  {
    if k == 5 || k == 6 then Code
    else if k == 8 || k == 10 || k == 12 then Score(if k == 8 then Required[7] else if k == 10 then Required[9] else Required[11])
    else if k == 7 || k == 9 || k == 11 then Text
    else if k == 2 then Count
    else Amount
  }

  /** The roles by position are the ones the default assignment and the cleanup pick by name. */
  lemma RoleTable()
    ensures forall k :: 0 <= k < |Required| ==> RoleOf(Required[k]) == RoleAt(k)
    ensures forall k :: 0 <= k < |Required| ==> (Required[k] in TextColumns <==> RoleAt(k).Text?)
  {
  }

  /** Required column `k` after the defaults and the text cleanup. */
  function Cleanup(numText: Float -> string, data: Table, k: nat): (c: Column)
    requires NoDates(data) && k < |Required|
    ensures !c.Dates? && (RoleAt(k).Text? ==> c.Objs?)
  {
    var n := Required[k];
    if RoleAt(k).Text? then CleanColumn(numText, Source(data, n, RoleAt(k))) else Source(data, n, RoleAt(k))
  }

  /** The columns after the text cleanup: the three texts cleaned, the others as the defaults left them. */
  ghost predicate AfterCleanup(numText: Float -> string, data: Table, m0: map<string, Column>)
    requires NoDates(data)
  {
    forall k :: 0 <= k < |Required| ==> Required[k] in m0 && m0[Required[k]] == Cleanup(numText, data, k)
  }

  /** The columns the five assignments read are there, the codes as numbers or text, the texts cleaned. */
  ghost predicate Ready(m0: map<string, Column>)
  {
    var r := Required;
    r[5] in m0 && r[6] in m0 && r[7] in m0 && r[9] in m0 && r[11] in m0
    && r[8] in m0 && r[10] in m0 && r[12] in m0
    && !m0[r[5]].Dates? && !m0[r[6]].Dates? && m0[r[7]].Objs? && m0[r[9]].Objs? && m0[r[11]].Objs?
  }

  /** The frame of the thirteen required columns in order, with the defaults filled in and the texts cleaned. */
  method Collect(numText: Float -> string, data: Table) returns (df: DataFrame)
    requires data.Valid() && NoDates(data)
    ensures fresh(df) && df.Valid() && df.names == Required && df.rows == data.rows
    ensures AfterCleanup(numText, data, df.cols)
  {
    RequiredFacts();
    var filled := FillMissing(data, Required);
    var t := Project(filled.Value(), Required);
    ProjectValid(filled.Value(), Required);
    df := new DataFrame(t);
    ghost var m := df.cols;
    assert forall n :: n in Required ==> n in m && m[n] == Source(data, n, RoleOf(n));
    CleanTexts(df, numText, TextColumns);
    CleanupByPosition(numText, data, m, df.cols);
  }

  /** The cleanup stated by name is the cleanup stated by position. */
  lemma CleanupByPosition(numText: Float -> string, data: Table, m: map<string, Column>, m0: map<string, Column>)
    requires NoDates(data)
    requires forall n :: n in Required ==> n in m && m[n] == Source(data, n, RoleOf(n))
    requires forall n :: n in m0 <==> n in m
    requires forall n :: n in m0 ==> !m[n].Dates? && m0[n] == if n in TextColumns then CleanColumn(numText, m[n]) else m[n]
    ensures AfterCleanup(numText, data, m0)
  {
    RoleTable();
    forall k | 0 <= k < |Required|
      ensures Required[k] in m0 && m0[Required[k]] == Cleanup(numText, data, k)
    {
      assert Required[k] in Required;
    }
  }

  /** After the cleanup the columns the assignments read are in place. */
  lemma CleanupReady(numText: Float -> string, data: Table, m0: map<string, Column>)
    requires NoDates(data) && AfterCleanup(numText, data, m0)
    ensures Ready(m0)
  {
  }

  /** Hashes the code column `code` in place. */
  method EncodeColumn(df: DataFrame, numText: Float -> string, hash: string -> int, code: string)
    requires df.Valid() && code in df.cols && !df.cols[code].Dates?
    modifies df
    ensures df.Valid() && df.names == old(df.names) && df.rows == old(df.rows)
    ensures df.cols == old(df.cols)[code := Encode(numText, hash, old(df.cols)[code])]
  {
    df.Assign(code, Encode(numText, hash, df.cols[code]));
  }

  /** Stores a computed score column under `score`, which the frame already has. */
  method StoreScore(df: DataFrame, score: string, c: Column)
    requires df.Valid() && score in df.cols && c.Len() == df.rows
    modifies df
    ensures df.Valid() && df.names == old(df.names) && df.rows == old(df.rows)
    ensures df.cols == old(df.cols)[score := c]
  {
    df.Assign(score, c);
  }

  /** The two code columns hashed in place, `면허제한코드` first. */
  method HashCodes(df: DataFrame, numText: Float -> string, hash: string -> int)
    requires df.Valid() && Required[5] in df.cols && Required[6] in df.cols
    requires !df.cols[Required[5]].Dates? && !df.cols[Required[6]].Dates?
    modifies df
    ensures df.Valid() && df.names == old(df.names) && df.rows == old(df.rows)
    ensures var r, m0 := Required, old(df.cols);
            df.cols == m0[r[5] := Encode(numText, hash, m0[r[5]])][r[6] := Encode(numText, hash, m0[r[6]])]
  {
    assert Required[5] == "면허제한코드" && Required[6] == "공고기관코드";
    EncodeColumn(df, numText, hash, "면허제한코드");
    EncodeColumn(df, numText, hash, "공고기관코드");
  }

  /** The three texts scored, all three before any score is stored. */
  method AddScores(df: DataFrame, tokenize: string -> seq<KiwiTokens.Token>, transform: seq<string> -> TextScorer.Csr)
    requires df.Valid() && Vectorizer(transform)
    requires var r := Required;
             r[7] in df.cols && r[9] in df.cols && r[11] in df.cols && r[8] in df.cols && r[10] in df.cols && r[12] in df.cols
             && df.cols[r[7]].Objs? && df.cols[r[9]].Objs? && df.cols[r[11]].Objs?
    modifies df
    ensures df.Valid() && df.names == old(df.names) && df.rows == old(df.rows)
    ensures var r, m1, clean := Required, old(df.cols), Cleaner(tokenize);
            df.cols == m1[r[12] := ScoreColumn(clean, transform, m1[r[11]])]
                         [r[8] := ScoreColumn(clean, transform, m1[r[7]])]
                         [r[10] := ScoreColumn(clean, transform, m1[r[9]])]
  {
    assert Required[12] == "키워드점수" && Required[8] == "공고기관점수" && Required[10] == "공사지역점수";
    assert Required[11] == "키워드" && Required[7] == "공고기관명" && Required[9] == "공사지역";
    var s1 := ScoreText(df, tokenize, transform, "키워드");
    var s2 := ScoreText(df, tokenize, transform, "공고기관명");
    var s3 := ScoreText(df, tokenize, transform, "공사지역");
    StoreScore(df, "키워드점수", s1);
    StoreScore(df, "공고기관점수", s2);
    StoreScore(df, "공사지역점수", s3);
  }

  /** `preprocess_data` after the file is read: the frame of the thirteen required columns. */
  method PreprocessData(numText: Float -> string, hash: string -> int, tokenize: string -> seq<KiwiTokens.Token>,
                        transform: seq<string> -> TextScorer.Csr, data: Table) returns (x: Table)
    requires data.Valid() && NoDates(data) && Vectorizer(transform)
    ensures x == Preprocessed(numText, hash, Cleaner(tokenize), transform, data)
  {
    var df := Collect(numText, data);
    ghost var m0 := df.cols;
    CleanupReady(numText, data, m0);
    HashCodes(df, numText, hash);
    ghost var m1 := df.cols;
    HashKeepsTexts(numText, hash, m0, m1);
    AddScores(df, tokenize, transform);
    x := df.Value();
    Assigned(numText, hash, Cleaner(tokenize), transform, m0, m1, x.cols);
    FinalAll(numText, hash, Cleaner(tokenize), transform, data, m0, x.cols);
    FinalIsPreprocessed(numText, hash, Cleaner(tokenize), transform, data, x.cols);
  }

  /** The columns after the five assignments: two codes hashed, three scores computed from the cleaned texts. */
  ghost predicate AfterAssignments(numText: Float -> string, hash: string -> int, clean: Option<string> -> string,
                                   transform: seq<string> -> TextScorer.Csr, m0: map<string, Column>, m: map<string, Column>)
    requires Vectorizer(transform)
  {
    var r := Required;
    Ready(m0)
    && m == m0[r[5] := Encode(numText, hash, m0[r[5]])]
              [r[6] := Encode(numText, hash, m0[r[6]])]
              [r[12] := ScoreColumn(clean, transform, m0[r[11]])]
              [r[8] := ScoreColumn(clean, transform, m0[r[7]])]
              [r[10] := ScoreColumn(clean, transform, m0[r[9]])]
  }

  /** Hashing the codes leaves the three text columns as they were. */
  lemma HashKeepsTexts(numText: Float -> string, hash: string -> int, m0: map<string, Column>, m1: map<string, Column>)
    requires Ready(m0)
    requires var r := Required;
             m1 == m0[r[5] := Encode(numText, hash, m0[r[5]])][r[6] := Encode(numText, hash, m0[r[6]])]
    ensures var r := Required;
            r[7] in m1 && r[9] in m1 && r[11] in m1 && r[8] in m1 && r[10] in m1 && r[12] in m1
            && m1[r[7]] == m0[r[7]] && m1[r[9]] == m0[r[9]] && m1[r[11]] == m0[r[11]]
  {
    RequiredFacts();
  }

  /** The hashing and the scoring together are the five assignments. */
  lemma Assigned(numText: Float -> string, hash: string -> int, clean: Option<string> -> string,
                 transform: seq<string> -> TextScorer.Csr, m0: map<string, Column>, m1: map<string, Column>, m: map<string, Column>)
    requires Vectorizer(transform) && Ready(m0)
    requires var r := Required;
             m1 == m0[r[5] := Encode(numText, hash, m0[r[5]])][r[6] := Encode(numText, hash, m0[r[6]])]
    requires var r := Required;
             r[7] in m1 && r[9] in m1 && r[11] in m1
             && m1[r[7]] == m0[r[7]] && m1[r[9]] == m0[r[9]] && m1[r[11]] == m0[r[11]]
    requires var r := Required;
             m == m1[r[12] := ScoreColumn(clean, transform, m1[r[11]])]
                    [r[8] := ScoreColumn(clean, transform, m1[r[7]])]
                    [r[10] := ScoreColumn(clean, transform, m1[r[9]])]
    ensures AfterAssignments(numText, hash, clean, transform, m0, m)
  {
  }

  /** The five assignments after the text cleanup give every required column its final value. */
  lemma FinalAll(numText: Float -> string, hash: string -> int, clean: Option<string> -> string,
                 transform: seq<string> -> TextScorer.Csr, data: Table, m0: map<string, Column>, m: map<string, Column>)
    requires NoDates(data) && Vectorizer(transform)
    requires AfterCleanup(numText, data, m0) && AfterAssignments(numText, hash, clean, transform, m0, m)
    ensures forall k :: 0 <= k < |Required| ==>
              Required[k] in m && m[Required[k]] == FinalColumn(numText, hash, clean, transform, data, Required[k], RoleAt(k))
  {
    var r := Required;
    UpdatedAt(m0, m, Encode(numText, hash, m0[r[5]]), Encode(numText, hash, m0[r[6]]),
              ScoreColumn(clean, transform, m0[r[11]]), ScoreColumn(clean, transform, m0[r[7]]),
              ScoreColumn(clean, transform, m0[r[9]]));
    forall k | 0 <= k < |Required|
      ensures Required[k] in m && m[Required[k]] == FinalColumn(numText, hash, clean, transform, data, Required[k], RoleAt(k))
    {
      if k == 5 || k == 6 {
        FinalCode(numText, hash, clean, transform, data, m0[r[k]], k);
      } else if k == 12 || k == 8 || k == 10 {
        FinalScore(numText, hash, clean, transform, data, m0[r[k - 1]], k);
      } else {
        assert m0[r[k]] == Cleanup(numText, data, k);
        FinalUntouched(numText, hash, clean, transform, data, r[k], RoleAt(k), m0[r[k]]);
      }
    }
  }

  /** Five updates of a map at five of the required names: those five hold the new values, the other required names what they held. */
  lemma UpdatedAt(m0: map<string, Column>, m: map<string, Column>, v5: Column, v6: Column, v12: Column, v8: Column, v10: Column)
    requires m == m0[Required[5] := v5][Required[6] := v6][Required[12] := v12][Required[8] := v8][Required[10] := v10]
    ensures m[Required[5]] == v5 && m[Required[6]] == v6 && m[Required[12]] == v12
    ensures m[Required[8]] == v8 && m[Required[10]] == v10
    ensures forall k :: 0 <= k < |Required| && k != 5 && k != 6 && k != 8 && k != 10 && k != 12 && Required[k] in m0 ==>
              Required[k] in m && m[Required[k]] == m0[Required[k]]
  {
    RequiredFacts();
  }

  /** A cleaned-up code column ends up hashed. */
  lemma FinalCode(numText: Float -> string, hash: string -> int, clean: Option<string> -> string,
                  transform: seq<string> -> TextScorer.Csr, data: Table, c0: Column, k: nat)
    requires NoDates(data) && Vectorizer(transform)
    requires k == 5 || k == 6
    requires c0 == Cleanup(numText, data, k)
    ensures Encode(numText, hash, c0) == FinalColumn(numText, hash, clean, transform, data, Required[k], RoleAt(k))
  {
  }

  /** A score column ends up scored from its cleaned-up text column, one position before. */
  lemma FinalScore(numText: Float -> string, hash: string -> int, clean: Option<string> -> string,
                   transform: seq<string> -> TextScorer.Csr, data: Table, c0: Column, k: nat)
    requires NoDates(data) && Vectorizer(transform)
    requires k == 12 || k == 8 || k == 10
    requires c0 == Cleanup(numText, data, k - 1)
    ensures c0.Objs?
    ensures ScoreColumn(clean, transform, c0) == FinalColumn(numText, hash, clean, transform, data, Required[k], RoleAt(k))
  {
    assert RoleAt(k) == Score(Required[k - 1]);
  }

  /** The other columns keep what the defaults and the text cleanup left. */
  lemma FinalUntouched(numText: Float -> string, hash: string -> int, clean: Option<string> -> string,
                       transform: seq<string> -> TextScorer.Csr, data: Table, n: string, r: Role, c0: Column)
    requires NoDates(data) && Vectorizer(transform)
    requires r.Text? || r.Count? || r.Amount?
    requires c0 == if r.Text? then CleanColumn(numText, Source(data, n, r)) else Source(data, n, r)
    ensures c0 == FinalColumn(numText, hash, clean, transform, data, n, r)
  {
  }

  /** A map over the required columns holding each one's final value is the frame's. */
  lemma FinalIsPreprocessed(numText: Float -> string, hash: string -> int, clean: Option<string> -> string,
                            transform: seq<string> -> TextScorer.Csr, data: Table, m: map<string, Column>)
    requires NoDates(data) && Vectorizer(transform)
    requires forall n :: n in m <==> n in Required
    requires forall k :: 0 <= k < |Required| ==>
               Required[k] in m && m[Required[k]] == FinalColumn(numText, hash, clean, transform, data, Required[k], RoleAt(k))
    ensures m == Preprocessed(numText, hash, clean, transform, data).cols
  {
    var p := Preprocessed(numText, hash, clean, transform, data).cols;
    PreprocessedCols(numText, hash, clean, transform, data);
    RoleTable();
    SameColumns(numText, hash, clean, transform, data, Required, m, p);
  }

  /** The frame's columns are the required ones, each with the final value of its role. */
  lemma PreprocessedCols(numText: Float -> string, hash: string -> int, clean: Option<string> -> string,
                         transform: seq<string> -> TextScorer.Csr, data: Table)
    requires NoDates(data) && Vectorizer(transform)
    ensures var p := Preprocessed(numText, hash, clean, transform, data).cols;
            (forall n :: n in p <==> n in Required)
            && forall n :: n in Required ==> p[n] == FinalColumn(numText, hash, clean, transform, data, n, RoleOf(n))
  {
  }

  /** Two maps over the same columns that agree position by position are equal. */
  lemma SameColumns(numText: Float -> string, hash: string -> int, clean: Option<string> -> string,
                    transform: seq<string> -> TextScorer.Csr, data: Table, names: seq<string>,
                    m: map<string, Column>, p: map<string, Column>)
    requires NoDates(data) && Vectorizer(transform)
    requires forall k :: 0 <= k < |names| ==> RoleOf(names[k]) == RoleAt(k)
    requires forall n :: n in m <==> n in names
    requires forall n :: n in p <==> n in names
    requires forall k :: 0 <= k < |names| ==>
               names[k] in m && m[names[k]] == FinalColumn(numText, hash, clean, transform, data, names[k], RoleAt(k))
    requires forall n :: n in names ==> p[n] == FinalColumn(numText, hash, clean, transform, data, n, RoleOf(n))
    ensures m == p
  {
    forall n | n in names
      ensures m[n] == p[n]
    {
      var k :| 0 <= k < |names| && names[k] == n;
    }
  }


  /** The role by position is the role by name. */
  lemma RoleAtAgrees(k: nat)
    requires k < |Required|
    ensures RoleOf(Required[k]) == RoleAt(k)
  {
    RoleTable();
  }

  /** The frame has exactly the thirteen required columns, in order, one cell per row of the file. */
  lemma PreprocessedShape(numText: Float -> string, hash: string -> int, clean: Option<string> -> string,
                          transform: seq<string> -> TextScorer.Csr, data: Table)
    requires data.Valid() && NoDates(data) && Vectorizer(transform)
    ensures var x := Preprocessed(numText, hash, clean, transform, data);
            x.Valid() && x.names == Required && x.rows == data.rows
  {
    RequiredFacts();
  }

  /** Required column `n`, whose role is `r`, as the frame holds it. */
  lemma PreprocessedAt(numText: Float -> string, hash: string -> int, clean: Option<string> -> string,
                       transform: seq<string> -> TextScorer.Csr, data: Table, n: string, r: Role)
    requires NoDates(data) && Vectorizer(transform)
    requires n in Required && r == RoleOf(n)
    ensures Preprocessed(numText, hash, clean, transform, data).cols[n] == FinalColumn(numText, hash, clean, transform, data, n, r)
  {
  }

  /** A required amount or bidder count the file has passes through unchanged. */
  lemma PresentColumnsKept(numText: Float -> string, hash: string -> int, clean: Option<string> -> string,
                           transform: seq<string> -> TextScorer.Csr, data: Table, n: string, r: Role)
    requires NoDates(data) && Vectorizer(transform)
    requires n in Required && r == RoleOf(n) && n in data.cols && (r.Amount? || r.Count?)
    ensures Preprocessed(numText, hash, clean, transform, data).cols[n] == data.cols[n]
  {
    PreprocessedAt(numText, hash, clean, transform, data, n, r);
  }

  /** The default column of a missing role, after its final step. */
  lemma MissingFinal(numText: Float -> string, hash: string -> int, clean: Option<string> -> string,
                     transform: seq<string> -> TextScorer.Csr, data: Table, n: string, r: Role, i: nat)
    requires NoDates(data) && Vectorizer(transform)
    requires n !in data.cols && i < data.rows && !r.Score?
    ensures var c := FinalColumn(numText, hash, clean, transform, data, n, r);
            c.Len() == data.rows
            && (r.Count? ==> c.Nums? && c.xs[i] == Fin(5.0))
            && (r.Amount? ==> c.Nums? && c.xs[i] == Fin(0.0))
            && (r.Text? ==> c.Objs? && c.os[i] == Str(""))
            && (r.Code? ==> c.Nums? && c.xs[i] == Fin(CodeOf(hash, numText(Fin(0.0))) as real))
  {
    assert "" !in NullTexts;
  }

  /**
   * A missing bidder count is 5 in every row, a missing amount 0, a missing
   * text column empty, and a missing code column holds the hash of the text
   * of 0 in every row, since the default is hashed like any other code.
   */
  lemma MissingDefaults(numText: Float -> string, hash: string -> int, clean: Option<string> -> string,
                        transform: seq<string> -> TextScorer.Csr, data: Table, n: string, r: Role, i: nat)
    requires NoDates(data) && Vectorizer(transform)
    requires n in Required && r == RoleOf(n) && n !in data.cols && i < data.rows && !r.Score?
    ensures var c := Preprocessed(numText, hash, clean, transform, data).cols[n];
            c.Len() == data.rows
            && (r.Count? ==> c.Nums? && c.xs[i] == Fin(5.0))
            && (r.Amount? ==> c.Nums? && c.xs[i] == Fin(0.0))
            && (r.Text? ==> c.Objs? && c.os[i] == Str(""))
            && (r.Code? ==> c.Nums? && c.xs[i] == Fin(CodeOf(hash, numText(Fin(0.0))) as real))
  {
    PreprocessedAt(numText, hash, clean, transform, data, n, r);
    MissingFinal(numText, hash, clean, transform, data, n, r, i);
  }

  /** Every text cell is a string other than the four null literals; other strings are kept and missing cells become empty. */
  lemma TextCleaned(numText: Float -> string, hash: string -> int, clean: Option<string> -> string,
                    transform: seq<string> -> TextScorer.Csr, data: Table, n: string, r: Role, i: nat)
    requires data.Valid() && NoDates(data) && Vectorizer(transform)
    requires n in Required && r == RoleOf(n) && r.Text? && i < data.rows
    ensures var c := Preprocessed(numText, hash, clean, transform, data).cols[n];
            c.Objs? && |c.os| == data.rows && c.os[i].Str? && c.os[i].s !in NullTexts
            && (n in data.cols && data.cols[n].Objs? ==>
                  match data.cols[n].os[i]
                  case Str(s) => c.os[i].s == if s in NullTexts then "" else s
                  case NoneCell => c.os[i].s == ""
                  case NaNCell => c.os[i].s == ""
                  case ZeroCell => c.os[i].s == "0")
            && (n in data.cols && data.cols[n].Nums? && data.cols[n].xs[i].NaN? ==> c.os[i].s == "")
  {
    PreprocessedAt(numText, hash, clean, transform, data, n, r);
    var c := CleanColumn(numText, Source(data, n, Text));
    assert "" !in NullTexts && "0" !in NullTexts;
    if n in data.cols && data.cols[n].Objs? {
      assert c.os[i] == Str(CleanObj(data.cols[n].os[i]));
    }
  }

  /** Every code is a whole number in [0, 999999], and a `nan` cell is code 0. */
  lemma CodesInRange(numText: Float -> string, hash: string -> int, clean: Option<string> -> string,
                     transform: seq<string> -> TextScorer.Csr, data: Table, n: string, r: Role, i: nat)
    requires data.Valid() && NoDates(data) && Vectorizer(transform)
    requires n in Required && r == RoleOf(n) && r.Code? && i < data.rows
    ensures var c := Preprocessed(numText, hash, clean, transform, data).cols[n];
            c.Nums? && |c.xs| == data.rows && c.xs[i].Fin?
            && 0.0 <= c.xs[i].v < CodeModulus as real && c.xs[i].v == c.xs[i].v.Floor as real
            && (n in data.cols && data.cols[n].Nums? && data.cols[n].xs[i].NaN? ==> c.xs[i] == Fin(0.0))
            && (n in data.cols && data.cols[n].Objs? && data.cols[n].os[i] in [NaNCell, Str("nan")] ==> c.xs[i] == Fin(0.0))
  {
    PreprocessedAt(numText, hash, clean, transform, data, n, r);
    EncodedCell(numText, hash, Source(data, n, Code), i);
  }

  /** One hashed cell: a whole number in [0, 999999], 0 for a missing or `nan` cell. */
  lemma EncodedCell(numText: Float -> string, hash: string -> int, c: Column, i: nat)
    requires !c.Dates? && i < c.Len()
    ensures var e := Encode(numText, hash, c);
            e.Nums? && |e.xs| == c.Len() && e.xs[i].Fin?
            && 0.0 <= e.xs[i].v < CodeModulus as real && e.xs[i].v == e.xs[i].v.Floor as real
            && (c.Nums? && c.xs[i].NaN? ==> e.xs[i] == Fin(0.0))
            && (c.Objs? && c.os[i] in [NaNCell, Str("nan")] ==> e.xs[i] == Fin(0.0))
  {
    var k := CodeOf(hash, CodeText(numText, c, i));
    assert (k as real).Floor == k;
  }

  /** Each score is computed from the cleaned text column of the same frame, whatever the file's score column held. */
  lemma ScoresFromCleanedText(numText: Float -> string, hash: string -> int, clean: Option<string> -> string,
                              transform: seq<string> -> TextScorer.Csr, data: Table, n: string, r: Role)
    requires NoDates(data) && Vectorizer(transform)
    requires n in Required && r == RoleOf(n) && r.Score?
    ensures var x := Preprocessed(numText, hash, clean, transform, data);
            r.text in Required && RoleOf(r.text).Text? && x.cols[r.text].Objs?
            && x.cols[n] == ScoreColumn(clean, transform, x.cols[r.text])
            && x.cols[n] == Preprocessed(numText, hash, clean, transform, data.(cols := data.cols - {n})).cols[n]
  {
    ScoreSource(n, r);
    var d2 := data.(cols := data.cols - {n});
    PreprocessedAt(numText, hash, clean, transform, data, n, r);
    PreprocessedAt(numText, hash, clean, transform, d2, n, r);
    PreprocessedAt(numText, hash, clean, transform, data, r.text, Text);
    assert Source(d2, r.text, Text) == Source(data, r.text, Text);
  }

  /** The text a score is computed from is a required text column other than the score. */
  lemma ScoreSource(n: string, r: Role)
    requires r == RoleOf(n) && r.Score?
    ensures r.text in Required && r.text != n && RoleOf(r.text) == Text
  {
  }

  // ---------------------------------------------------------------------------
  // predict_data
  // ---------------------------------------------------------------------------

  const BidNo := "입찰번호"
  const BidRound := "입찰차수"
  const PredBidRate := "업체투찰률예측"
  const PredPriceRate := "예가투찰률예측"
  const PredBidders := "참여업체수예측"
  const PredPlan := "예정금액예측"
  const PredAmount := "낙찰금액(업체투찰률)예측"
  const AFlag := "A값여부"

  /** The six columns `predict_data` appends, in order. */
  const Outputs: seq<string> := [PredBidRate, PredPriceRate, PredBidders, PredPlan, PredAmount, AFlag]

  /** The scaler's output: one row of reals per input row. */
  type Matrix = seq<seq<real>>

  /** `pd.isnull` of cell `i` of a column: NaN, `None` or NaT. */
  predicate MissingAt(c: Column, i: nat)
    requires i < c.Len()
  {
    match c
    case Nums(xs) => xs[i].NaN?
    case Objs(os) => os[i].Missing()
    case Dates(ds) => ds[i].None?
  }

  /** `selected_columns.isnull().any().any()`. */
  predicate HasNaN(t: Table)
  {
    exists n | n in t.cols :: exists i | 0 <= i < t.cols[n].Len() :: MissingAt(t.cols[n], i)
  }

  /** `selected_columns.isin([inf, -inf]).any().any()`. */
  predicate HasInf(t: Table)
  {
    exists n | n in t.cols :: t.cols[n].Nums? && exists i | 0 <= i < |t.cols[n].xs| :: t.cols[n].xs[i].Inf?
  }

  /** `replace([inf, -inf], 0)` on a numeric column. */
  function ZeroInf(xs: seq<Float>): (r: seq<Float>)
    ensures |r| == |xs|
    ensures forall i :: 0 <= i < |xs| ==> !r[i].Inf? && (xs[i].Inf? || r[i] == xs[i])
    ensures forall i :: 0 <= i < |xs| && xs[i].Inf? ==> r[i] == Fin(0.0)
  {
    seq(|xs|, i requires 0 <= i < |xs| => if xs[i].Inf? then Fin(0.0) else xs[i])
  }

  /** `replace([inf, -inf], 0)`. */
  function ReplaceInf(t: Table): (u: Table)
    ensures u.names == t.names && u.rows == t.rows
    ensures forall n :: n in u.cols <==> n in t.cols
    ensures forall n :: t.IsNumeric(n) ==> u.IsNumeric(n) && u.cols[n].xs == ZeroInf(t.cols[n].xs)
  {
    Table(t.names, map n | n in t.cols :: if t.cols[n].Nums? then Nums(ZeroInf(t.cols[n].xs)) else t.cols[n], t.rows)
  }

  /** What the scaler is given: the available features, with NaN and then infinities set to 0. */
  function ScalerInput(x: Table): Table
    requires x.Valid()
  {
    var selected := Project(x, ImprovedModel.AvailableFeatures(x));
    var a := if HasNaN(selected) then FillNa(selected) else selected;
    if HasInf(a) then ReplaceInf(a) else a
  }

  /** The scaler sees no NaN, no infinity and no `None`: every numeric cell is finite and no object cell is missing. */
  lemma ScalerInputClean(x: Table)
    requires x.Valid()
    ensures var u := ScalerInput(x);
            (forall n, i :: n in u.cols && u.cols[n].Nums? && 0 <= i < |u.cols[n].xs| ==> u.cols[n].xs[i].Fin?)
            && (forall n, i :: n in u.cols && u.cols[n].Objs? && 0 <= i < |u.cols[n].os| ==> !u.cols[n].os[i].Missing())
  {
    var selected := Project(x, ImprovedModel.AvailableFeatures(x));
    var a := if HasNaN(selected) then FillNa(selected) else selected;
    NaNCheckFills(selected);
    InfCheckReplaces(a);
    assert ScalerInput(x) == if HasInf(a) then ReplaceInf(a) else a;
  }

  /** After the NaN check no numeric or object cell is missing. */
  lemma NaNCheckFills(t: Table)
    ensures var a := if HasNaN(t) then FillNa(t) else t;
            forall n, i :: n in a.cols && !a.cols[n].Dates? && 0 <= i < a.cols[n].Len() ==> !MissingAt(a.cols[n], i)
  {
    var a := if HasNaN(t) then FillNa(t) else t;
    forall n, i | n in a.cols && !a.cols[n].Dates? && 0 <= i < a.cols[n].Len()
      ensures !MissingAt(a.cols[n], i)
    {
      if HasNaN(t) {
        assert n in t.cols;
      } else {
        assert a.cols[n] == t.cols[n];
      }
    }
  }

  /** After the infinity check every numeric cell is finite, given none is NaN; object columns are untouched. */
  lemma InfCheckReplaces(a: Table)
    requires forall n, i :: n in a.cols && !a.cols[n].Dates? && 0 <= i < a.cols[n].Len() ==> !MissingAt(a.cols[n], i)
    ensures var u := if HasInf(a) then ReplaceInf(a) else a;
            (forall n, i :: n in u.cols && u.cols[n].Nums? && 0 <= i < |u.cols[n].xs| ==> u.cols[n].xs[i].Fin?)
            && (forall n, i :: n in u.cols && u.cols[n].Objs? && 0 <= i < |u.cols[n].os| ==> !u.cols[n].os[i].Missing())
  {
    var u := if HasInf(a) then ReplaceInf(a) else a;
    forall n, i | n in u.cols && u.cols[n].Nums? && 0 <= i < |u.cols[n].xs|
      ensures u.cols[n].xs[i].Fin?
    {
      assert n in a.cols && a.cols[n].Nums?;
      assert !MissingAt(a.cols[n], i);
      if !HasInf(a) {
        assert !a.cols[n].xs[i].Inf?;
      }
    }
    forall n, i | n in u.cols && u.cols[n].Objs? && 0 <= i < |u.cols[n].os|
      ensures !u.cols[n].os[i].Missing()
    {
      assert n in a.cols && a.cols[n] == u.cols[n];
      assert !MissingAt(a.cols[n], i);
    }
  }

  /** `np.zeros(n)`. */
  function Zeros(n: nat): (r: seq<Float>)
    ensures |r| == n && forall i :: 0 <= i < n ==> r[i] == Fin(0.0)
  {
    seq(n, _ => Fin(0.0))
  }

  /** A model's prediction, or one zero per scaled row when the model raises. */
  function Prediction(model: Matrix -> Option<seq<Float>>, m: Matrix): (p: seq<Float>)
    ensures model(m).None? ==> |p| == |m| && forall i :: 0 <= i < |p| ==> p[i] == Fin(0.0)
    ensures model(m).Some? ==> p == model(m).value
  {
    match model(m)
    case Some(p) => p
    case None => Zeros(|m|)
  }

  /** `result_df.insert(0, '입찰번호', ...)` and `insert(1, '입찰차수', ...)` when the original file has them. */
  function WithIds(x: Table, original: Table): Result<Table, FrameError>
  {
    var r := if BidNo in original.cols then TryInsert(x, 0, BidNo, original.cols[BidNo]) else Ok(x);
    if r.Err? || BidRound !in original.cols then r
    else TryInsert(r.value, 1, BidRound, original.cols[BidRound])
  }

  /** The amounts the derived columns read. */
  ghost predicate Amounts(t: Table)
  {
    t.Valid() && t.IsNumeric(Base) && t.IsNumeric(LowerRate) && t.IsNumeric(IndirectCost)
  }

  /** `u` still has the amounts, and every column of `x` as `x` has it. */
  ghost predicate KeptIn(x: Table, u: Table)
  {
    Amounts(u) && forall n :: n in x.cols ==> n in u.cols && u.cols[n] == x.cols[n]
  }

  /** The identifiers go in front of a frame with the amounts and keep it well formed. */
  lemma WithIdsKeeps(x: Table, original: Table)
    requires Amounts(x)
    ensures WithIds(x, original).Ok? ==> Amounts(WithIds(x, original).value)
    ensures WithIds(x, original).Ok? ==>
              forall n :: n in x.cols ==> n in WithIds(x, original).value.cols && WithIds(x, original).value.cols[n] == x.cols[n]
  {
    var r := if BidNo in original.cols then TryInsert(x, 0, BidNo, original.cols[BidNo]) else Ok(x);
    if r.Err? {
      assert WithIds(x, original) == r;
    } else {
      if BidNo in original.cols {
        InsertKeeps(x, 0, BidNo, original.cols[BidNo]);
      }
      assert KeptIn(x, r.value);
      if BidRound !in original.cols {
        assert WithIds(x, original) == r;
      } else {
        var s := TryInsert(r.value, 1, BidRound, original.cols[BidRound]);
        assert WithIds(x, original) == s;
        if s.Ok? {
          InsertKeeps(r.value, 1, BidRound, original.cols[BidRound]);
          assert KeptIn(r.value, s.value);
          assert KeptIn(x, s.value);
        }
      }
    }
  }

  /** An accepted insertion keeps the amounts and every column already there. */
  lemma InsertKeeps(x: Table, loc: int, name: string, c: Column)
    requires Amounts(x) && TryInsert(x, loc, name, c).Ok?
    ensures KeptIn(x, TryInsert(x, loc, name, c).value)
  {
    TryInsertValid(x, loc, name, c);
  }

  /**
   * Where the identifiers land in a frame that lacks them: `입찰번호` first and
   * `입찰차수` second; without `입찰번호`, `입찰차수` still goes to position 1,
   * behind the frame's first column.
   */
  lemma WithIdsLayout(x: Table, original: Table)
    requires x.Valid() && |x.names| >= 1 && BidNo !in x.cols && BidRound !in x.cols
    requires BidNo in original.cols ==> original.cols[BidNo].Len() == x.rows
    requires BidRound in original.cols ==> original.cols[BidRound].Len() == x.rows
    ensures WithIds(x, original).Ok?
    ensures var names := WithIds(x, original).value.names;
            if BidNo in original.cols && BidRound in original.cols then names == [BidNo, BidRound] + x.names
            else if BidNo in original.cols then names == [BidNo] + x.names
            else if BidRound in original.cols then names == x.names[..1] + [BidRound] + x.names[1..]
            else names == x.names
  {
    if BidNo in original.cols {
      var r := IdFront(x, original.cols[BidNo]);
      if BidRound in original.cols {
        TryInsertValid(r, 1, BidRound, original.cols[BidRound]);
        assert r.names[..1] == [BidNo] && r.names[1..] == x.names;
      }
    } else if BidRound in original.cols {
      TryInsertValid(x, 1, BidRound, original.cols[BidRound]);
    }
  }

  /** The bid number goes in front, and the frame is ready for the bid round. */
  lemma IdFront(x: Table, c: Column) returns (r: Table)
    requires x.Valid() && BidNo !in x.cols && BidRound !in x.cols && c.Len() == x.rows
    ensures TryInsert(x, 0, BidNo, c) == Ok(r)
    ensures r.Valid() && r.rows == x.rows && r.names == [BidNo] + x.names && BidRound !in r.cols
  {
    TryInsertValid(x, 0, BidNo, c);
    r := TryInsert(x, 0, BidNo, c).value;
  }

  /** `A값여부` of every row. */
  function Flags(xs: seq<Float>): (c: Column)
    ensures c.Objs? && c.Len() == |xs|
    ensures forall i :: 0 <= i < |xs| ==> c.os[i] == Str(if xs[i] == Fin(0.0) then "X" else "O")
  {
    Objs(seq(|xs|, i requires 0 <= i < |xs| => Str(Outcome.IndirectCostFlag(xs[i]))))
  }

  datatype PredictError =
    | ScalerFailed                  // `scaler.transform` raised and the error is re-raised
    | InsertFailed(cause: FrameError)
    | PredictionLength(column: string)  // a prediction of the wrong length cannot be assigned

  /** The prediction columns and the derived ones, appended to the frame with the identifiers. */
  function WithPredictions(t: Table, p1: seq<Float>, p2: seq<Float>, p3: seq<Float>): Result<Table, PredictError>
    requires Amounts(t)
  {
    if |p1| != t.rows then Err(PredictionLength(PredBidRate))
    else if |p2| != t.rows then Err(PredictionLength(PredPriceRate))
    else if |p3| != t.rows then Err(PredictionLength(PredBidders))
    else
      var base := t.cols[Base].xs;
      var plan := ColumnMath.Quotient(ColumnMath.Product(p2, base), t.cols[LowerRate].xs);
      var amount := ColumnMath.Product(p1, base);
      Ok(t.Set(PredBidRate, Nums(p1)).Set(PredPriceRate, Nums(p2)).Set(PredBidders, Nums(p3))
          .Set(PredPlan, Nums(plan)).Set(PredAmount, Nums(amount)).Set(AFlag, Flags(t.cols[IndirectCost].xs)))
  }

  /** The frame `predict_data` returns, or the error it raises. */
  function Predicted(x: Table, original: Table, scaler: Table -> Option<Matrix>,
                     m1: Matrix -> Option<seq<Float>>, m2: Matrix -> Option<seq<Float>>, m3: Matrix -> Option<seq<Float>>)
    : Result<Table, PredictError>
    requires Amounts(x)
  {
    match scaler(ScalerInput(x))
    case None => Err(ScalerFailed)
    case Some(m) =>
      match WithIds(x, original)
      case Err(e) => Err(InsertFailed(e))
      case Ok(t) =>
        WithIdsKeeps(x, original);
        WithPredictions(t, Prediction(m1, m), Prediction(m2, m), Prediction(m3, m))
  }

  /**
   * What a successful `predict_data` returns: one row per input row, every input
   * column as it was, the three predictions (zeros for a model that raised), the
   * bidder-rate amount, and the flag of the indirect cost.
   */
  lemma PredictedColumns(x: Table, original: Table, scaler: Table -> Option<Matrix>,
                         m1: Matrix -> Option<seq<Float>>, m2: Matrix -> Option<seq<Float>>, m3: Matrix -> Option<seq<Float>>)
    requires Amounts(x) && Predicted(x, original, scaler, m1, m2, m3).Ok?
    ensures scaler(ScalerInput(x)).Some?
    ensures var u, m := Predicted(x, original, scaler, m1, m2, m3).value, scaler(ScalerInput(x)).value;
            u.rows == x.rows
            && (forall n :: n in x.cols && n !in Outputs ==> n in u.cols && u.cols[n] == x.cols[n])
            && PredBidRate in u.cols && u.cols[PredBidRate] == Nums(Prediction(m1, m))
            && PredPriceRate in u.cols && u.cols[PredPriceRate] == Nums(Prediction(m2, m))
            && PredBidders in u.cols && u.cols[PredBidders] == Nums(Prediction(m3, m))
            && PredAmount in u.cols && u.cols[PredAmount] == Nums(ColumnMath.Product(Prediction(m1, m), x.cols[Base].xs))
            && AFlag in u.cols && u.cols[AFlag] == Flags(x.cols[IndirectCost].xs)
  {
    var m := scaler(ScalerInput(x)).value;
    WithIdsKeeps(x, original);
    var t := WithIds(x, original).value;
    var p1, p2, p3 := Prediction(m1, m), Prediction(m2, m), Prediction(m3, m);
    assert Predicted(x, original, scaler, m1, m2, m3) == WithPredictions(t, p1, p2, p3);
    PredictionSteps(t, p1, p2, p3);
    TryInsertRows(x, original);
  }

  /**
   * A model that raises never makes `predict_data` fail: once the scaler gives
   * one row per input row and the identifiers fit, the run succeeds exactly when
   * every model that answers gives one value per row, and a model that raises
   * contributes a column of zeros.
   */
  lemma RaisingModelIsNotFatal(x: Table, original: Table, scaler: Table -> Option<Matrix>,
                               m1: Matrix -> Option<seq<Float>>, m2: Matrix -> Option<seq<Float>>, m3: Matrix -> Option<seq<Float>>)
    requires Amounts(x) && WithIds(x, original).Ok?
    requires scaler(ScalerInput(x)).Some? && |scaler(ScalerInput(x)).value| == x.rows
    ensures var m := scaler(ScalerInput(x)).value;
            Predicted(x, original, scaler, m1, m2, m3).Ok? <==>
              (m1(m).None? || |m1(m).value| == x.rows)
              && (m2(m).None? || |m2(m).value| == x.rows)
              && (m3(m).None? || |m3(m).value| == x.rows)
    ensures var m := scaler(ScalerInput(x)).value;
            m1(m).None? && Predicted(x, original, scaler, m1, m2, m3).Ok? ==>
              Predicted(x, original, scaler, m1, m2, m3).value.cols[PredBidRate] == Nums(Zeros(x.rows))
  {
    var m := scaler(ScalerInput(x)).value;
    TryInsertRows(x, original);
    WithIdsKeeps(x, original);
    var t := WithIds(x, original).value;
    var p1, p2, p3 := Prediction(m1, m), Prediction(m2, m), Prediction(m3, m);
    assert Predicted(x, original, scaler, m1, m2, m3) == WithPredictions(t, p1, p2, p3);
    if Predicted(x, original, scaler, m1, m2, m3).Ok? {
      PredictedColumns(x, original, scaler, m1, m2, m3);
      if m1(m).None? {
        assert p1 == Zeros(x.rows);
      }
    }
  }

  /** Inserting the identifiers keeps the row count. */
  lemma TryInsertRows(x: Table, original: Table)
    requires Amounts(x) && WithIds(x, original).Ok?
    ensures WithIds(x, original).value.rows == x.rows
  {
    var r := if BidNo in original.cols then TryInsert(x, 0, BidNo, original.cols[BidNo]) else Ok(x);
    if r.Ok? && BidRound in original.cols {
      assert WithIds(x, original) == TryInsert(r.value, 1, BidRound, original.cols[BidRound]);
    }
  }

  /** Sanitises the selected features as the two checks do. */
  method Sanitize(x: Table) returns (selected: Table)
    requires x.Valid()
    ensures selected == ScalerInput(x)
  {
    var available := TrainSetup.Present(ImprovedModel.OriginalFeatures, x.names);
    selected := Project(x, available);
    if HasNaN(selected) {
      selected := FillNa(selected);
    }
    if HasInf(selected) {
      selected := ReplaceInf(selected);
    }
  }

  /** After the three predictions the amounts are still in place, and the derived columns read them and the predictions. */
  lemma PredictionSteps(t: Table, p1: seq<Float>, p2: seq<Float>, p3: seq<Float>)
    requires Amounts(t) && |p1| == t.rows && |p2| == t.rows && |p3| == t.rows
    ensures var t3 := t.Set(PredBidRate, Nums(p1)).Set(PredPriceRate, Nums(p2)).Set(PredBidders, Nums(p3));
            t3.Valid() && t3.rows == t.rows
            && t3.cols[Base] == t.cols[Base] && t3.cols[LowerRate] == t.cols[LowerRate]
            && t3.cols[IndirectCost] == t.cols[IndirectCost]
            && t3.cols[PredBidRate] == Nums(p1) && t3.cols[PredPriceRate] == Nums(p2)
            && WithPredictions(t, p1, p2, p3) == Ok(t3
                 .Set(PredPlan, Nums(ColumnMath.Quotient(ColumnMath.Product(p2, t.cols[Base].xs), t.cols[LowerRate].xs)))
                 .Set(PredAmount, Nums(ColumnMath.Product(p1, t.cols[Base].xs)))
                 .Set(AFlag, Flags(t.cols[IndirectCost].xs)))
  {
    var t1 := t.Set(PredBidRate, Nums(p1));
    SetValid(t, PredBidRate, Nums(p1));
    var t2 := t1.Set(PredPriceRate, Nums(p2));
    SetValid(t1, PredPriceRate, Nums(p2));
    SetValid(t2, PredBidders, Nums(p3));
  }

  /** Appends the three predictions and the three derived columns in place. */
  method AddPredictions(df: DataFrame, p1: seq<Float>, p2: seq<Float>, p3: seq<Float>) returns (r: Result<Table, PredictError>)
    requires df.Valid() && Amounts(df.Value())
    modifies df
    ensures r == WithPredictions(old(df.Value()), p1, p2, p3)
  {
    ghost var t := df.Value();
    if |p1| != df.rows {
      return Err(PredictionLength(PredBidRate));
    }
    df.Assign(PredBidRate, Nums(p1));
    if |p2| != df.rows {
      return Err(PredictionLength(PredPriceRate));
    }
    df.Assign(PredPriceRate, Nums(p2));
    if |p3| != df.rows {
      return Err(PredictionLength(PredBidders));
    }
    df.Assign(PredBidders, Nums(p3));
    PredictionSteps(t, p1, p2, p3);
    var base := df.cols[Base].xs;
    df.Assign(PredPlan, Nums(ColumnMath.Quotient(ColumnMath.Product(df.cols[PredPriceRate].xs, base), df.cols[LowerRate].xs)));
    df.Assign(PredAmount, Nums(ColumnMath.Product(df.cols[PredBidRate].xs, base)));
    df.Assign(AFlag, Flags(df.cols[IndirectCost].xs));
    r := Ok(df.Value());
  }

  /** Inserts the identifiers the original file has in front of the frame, stopping at the first refusal. */
  method InsertIds(df: DataFrame, original: Table) returns (err: Option<FrameError>)
    requires df.Valid()
    modifies df
    ensures df.Valid()
    ensures match WithIds(old(df.Value()), original)
            case Ok(u) => err.None? && df.Value() == u
            case Err(e) => err == Some(e)
  {
    err := None;
    if BidNo in original.cols {
      err := df.Insert(0, BidNo, original.cols[BidNo]);
      if err.Some? {
        return;
      }
    }
    if BidRound in original.cols {
      err := df.Insert(1, BidRound, original.cols[BidRound]);
    }
  }

  /** `predict_data`, with the original file's columns passed in. */
  method PredictData(x: Table, original: Table, scaler: Table -> Option<Matrix>,
                     m1: Matrix -> Option<seq<Float>>, m2: Matrix -> Option<seq<Float>>, m3: Matrix -> Option<seq<Float>>)
      returns (r: Result<Table, PredictError>)
    requires Amounts(x)
    ensures r == Predicted(x, original, scaler, m1, m2, m3)
  {
    var selected := Sanitize(x);
    var scaled := scaler(selected);
    if scaled.None? {
      return Err(ScalerFailed);
    }
    var m := scaled.value;
    var pred1 := Prediction(m1, m);
    var pred2 := Prediction(m2, m);
    var pred3 := Prediction(m3, m);
    var df := new DataFrame(x);
    var err := InsertIds(df, original);
    if err.Some? {
      return Err(InsertFailed(err.value));
    }
    WithIdsKeeps(x, original);
    r := AddPredictions(df, pred1, pred2, pred3);
  }
}
