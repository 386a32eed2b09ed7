/**
 * `make_result_dataframe2` (and `make_result_dataframe` of the evaluation
 * script): an empty frame with the result columns receives the selected
 * test columns one by one, then the three predictions and the columns
 * derived from them, `A값여부`, `결과1` and `결과2`.
 */
module ResultFrame {

  import opened Floats
  import opened Frames
  import opened ColumnMath
  import opened Outcome

  const Base := "기초금액"
  const LowerRate := "낙찰하한률"
  const MinBid := "낙찰하한가"
  const Actual := "낙찰금액"

  /** The copied columns the derived columns read. */
  const Inputs: seq<string> := [Base, LowerRate, MinBid, Actual]

  /** The columns written after the copy, in the order they are written. */
  const Computed: seq<string> :=
    ["업체투찰률예측", "예가투찰률예측", "참여업체수예측", "예정금액예측", "낙찰금액(업체투찰률) 예측",
     "A값여부", "결과1", "예정금액(예가투찰률) 예측", "예정금액*낙찰하한율", "결과2"]

  /**
   * `pd.DataFrame(columns=result_columns)` as it stands once the first
   * assignment has given it the test rows: every cell missing.
   */
  function Blank(resultColumns: seq<string>, n: nat): Table
  {
    Table(resultColumns, map c | c in resultColumns :: Nums(seq(n, _ => NaN)), n)
  }

  lemma BlankValid(resultColumns: seq<string>, n: nat)
    requires forall i, j :: 0 <= i < j < |resultColumns| ==> resultColumns[i] != resultColumns[j]
    ensures Blank(resultColumns, n).Valid()
  {
  }

  /** `df_rst[v] = df_test[v]` for each selected `v` the test frame has. */
  function Copies(test: Table, selected: seq<string>): (ws: seq<Write>)
    ensures forall k :: 0 <= k < |ws| ==> ws[k].0 in selected && ws[k].0 in test.cols && ws[k].1 == test.cols[ws[k].0]
    decreases |selected|
  {
    if |selected| == 0 then []
    else
      var v := selected[|selected| - 1];
      Copies(test, selected[..|selected| - 1]) + (if v in test.cols then [(v, test.cols[v])] else [])
  }

  lemma {:induction false} CopiesCover(test: Table, selected: seq<string>, v: string)
    requires v in selected && v in test.cols
    ensures exists k :: 0 <= k < |Copies(test, selected)| && Copies(test, selected)[k].0 == v
    decreases |selected|
  {
    var init := selected[..|selected| - 1];
    var ws := Copies(test, selected);
    if selected[|selected| - 1] == v {
      assert ws[|ws| - 1].0 == v;
    } else {
      assert v in init;
      CopiesCover(test, init, v);
      var k :| 0 <= k < |Copies(test, init)| && Copies(test, init)[k].0 == v;
      assert ws[k] == Copies(test, init)[k];
    }
  }

  /** The frame after the copy loop. */
  function Copied(resultColumns: seq<string>, test: Table, selected: seq<string>): Table
  {
    ApplyAll(Blank(resultColumns, test.rows), Copies(test, selected))
  }

  /** Every selected column the test frame has is copied unchanged. */
  lemma CopiedColumn(resultColumns: seq<string>, test: Table, selected: seq<string>, v: string)
    requires v in selected && v in test.cols
    ensures v in Copied(resultColumns, test, selected).cols
    ensures Copied(resultColumns, test, selected).cols[v] == test.cols[v]
  {
    CopiesCover(test, selected, v);
    ApplyAllSameValue(Blank(resultColumns, test.rows), Copies(test, selected), v, test.cols[v]);
  }

  lemma CopiedValid(resultColumns: seq<string>, test: Table, selected: seq<string>)
    requires test.Valid()
    requires forall i, j :: 0 <= i < j < |resultColumns| ==> resultColumns[i] != resultColumns[j]
    ensures Copied(resultColumns, test, selected).Valid() && Copied(resultColumns, test, selected).rows == test.rows
  {
    BlankValid(resultColumns, test.rows);
    ApplyAllValid(Blank(resultColumns, test.rows), Copies(test, selected));
  }

  /** The four input columns are numeric and every prediction has one value per row. */
  ghost predicate Fits(c: Table, r1: seq<Float>, r2: seq<Float>, r3: seq<Float>)
  {
    c.Valid() && c.IsNumeric(Base) && c.IsNumeric(LowerRate) && c.IsNumeric(MinBid) && c.IsNumeric(Actual)
    && |r1| == c.rows && |r2| == c.rows && |r3| == c.rows
  }

  /** `calculate_result*` applied row by row. */
  function Verdicts(predicted: seq<Float>, minBid: seq<Float>, actual: seq<Float>): (os: seq<Obj>)
    requires |minBid| == |predicted| && |actual| == |predicted|
    ensures |os| == |predicted|
    ensures forall i :: 0 <= i < |predicted| ==> os[i] == Str(Label(Classify(predicted[i], minBid[i], actual[i])))
    ensures forall i :: 0 <= i < |predicted| && predicted[i].Fin? && minBid[i].Fin? && actual[i].Fin? ==>
              (os[i] == Str("낙찰") <==> minBid[i].v <= predicted[i].v < actual[i].v)
              && (os[i] == Str("낙찰하한선미달") <==> predicted[i].v < minBid[i].v)
    ensures forall i :: 0 <= i < |predicted| && predicted[i].NaN? ==> os[i] == Str("-")
  {
    seq(|predicted|, i requires 0 <= i < |predicted| => Str(Label(Classify(predicted[i], minBid[i], actual[i]))))
  }

  /** `.apply(lambda x: 'O' if x >= 0.8 else '')`. */
  function RateFlags(xs: seq<Float>): (os: seq<Obj>)
    ensures |os| == |xs|
    ensures forall i :: 0 <= i < |xs| ==> os[i] == Str(RateFlag(xs[i]))
    ensures forall i :: 0 <= i < |xs| ==> (os[i] == Str("O") <==> Ge(xs[i], Fin(0.8))) && (os[i] == Str("") <==> !Ge(xs[i], Fin(0.8)))
  {
    seq(|xs|, i requires 0 <= i < |xs| => Str(RateFlag(xs[i])))
  }

  /** The three predictions. */
  function RateWrites(r1: seq<Float>, r2: seq<Float>, r3: seq<Float>): seq<Write>
  {
    [("업체투찰률예측", Nums(r1)), ("예가투찰률예측", Nums(r2)), ("참여업체수예측", Nums(r3))]
  }

  /** The planned price, the bidder-rate amount, its flag and `결과1`. */
  function FirstResultWrites(r1: seq<Float>, r2: seq<Float>, base: seq<Float>, lower: seq<Float>,
                             minBid: seq<Float>, actual: seq<Float>): seq<Write>
    requires |r2| == |r1| && |base| == |r1| && |lower| == |r1| && |minBid| == |r1| && |actual| == |r1|
  {
    var bidderAmount := Product(r1, base);
    [("예정금액예측", Nums(Quotient(Product(r2, base), lower))),
     ("낙찰금액(업체투찰률) 예측", Nums(bidderAmount)),
     ("A값여부", Objs(RateFlags(r1))),
     ("결과1", Objs(Verdicts(bidderAmount, minBid, actual)))]
  }

  /** The planned price by rate, its floor amount and `결과2`. */
  function SecondResultWrites(r2: seq<Float>, base: seq<Float>, lower: seq<Float>,
                              minBid: seq<Float>, actual: seq<Float>): seq<Write>
    requires |base| == |r2| && |lower| == |r2| && |minBid| == |r2| && |actual| == |r2|
  {
    var planned := Product(Quotient(r2, lower), base);
    var atFloor := Product(planned, lower);
    [("예정금액(예가투찰률) 예측", Nums(planned)),
     ("예정금액*낙찰하한율", Nums(atFloor)),
     ("결과2", Objs(Verdicts(atFloor, minBid, actual)))]
  }

  /** The ten assignments after the copy, each reading the copied columns. */
  function Derived(c: Table, r1: seq<Float>, r2: seq<Float>, r3: seq<Float>): (ws: seq<Write>)
    requires Fits(c, r1, r2, r3)
    ensures |ws| == |Computed| && forall k :: 0 <= k < |ws| ==> ws[k].0 == Computed[k] && ws[k].1.Len() == c.rows
  {
    var base, lower := c.cols[Base].xs, c.cols[LowerRate].xs;
    var minBid, actual := c.cols[MinBid].xs, c.cols[Actual].xs;
    RateWrites(r1, r2, r3) + FirstResultWrites(r1, r2, base, lower, minBid, actual)
    + SecondResultWrites(r2, base, lower, minBid, actual)
  }

  /** The result table. */
  function Result(resultColumns: seq<string>, test: Table, selected: seq<string>,
                  r1: seq<Float>, r2: seq<Float>, r3: seq<Float>): Table
    requires Fits(Copied(resultColumns, test, selected), r1, r2, r3)
  {
    var c := Copied(resultColumns, test, selected);
    ApplyAll(c, Derived(c, r1, r2, r3))
  }

  /** What the caller provides: distinct result columns, a test frame holding the numeric inputs, one prediction per row. */
  ghost predicate Accepts(resultColumns: seq<string>, test: Table, selected: seq<string>,
                          r1: seq<Float>, r2: seq<Float>, r3: seq<Float>)
  {
    test.Valid()
    && (forall i, j :: 0 <= i < j < |resultColumns| ==> resultColumns[i] != resultColumns[j])
    && Base in selected && LowerRate in selected && MinBid in selected && Actual in selected
    && test.IsNumeric(Base) && test.IsNumeric(LowerRate) && test.IsNumeric(MinBid) && test.IsNumeric(Actual)
    && |r1| == test.rows && |r2| == test.rows && |r3| == test.rows
  }

  lemma AcceptedFits(resultColumns: seq<string>, test: Table, selected: seq<string>,
                     r1: seq<Float>, r2: seq<Float>, r3: seq<Float>)
    requires Accepts(resultColumns, test, selected, r1, r2, r3)
    ensures Fits(Copied(resultColumns, test, selected), r1, r2, r3)
    ensures forall v :: v in Inputs ==> Copied(resultColumns, test, selected).cols[v] == test.cols[v]
  {
    CopiedValid(resultColumns, test, selected);
    CopiedColumn(resultColumns, test, selected, Base);
    CopiedColumn(resultColumns, test, selected, LowerRate);
    CopiedColumn(resultColumns, test, selected, MinBid);
    CopiedColumn(resultColumns, test, selected, Actual);
  }

  lemma WriteStep(c: Table, ws: seq<Write>, j: nat)
    requires j < |ws|
    ensures ApplyAll(c, ws[..j + 1]) == ApplyAll(c, ws[..j]).Set(ws[j].0, ws[j].1)
  {
    assert ws[..j + 1] == ws[..j] + [ws[j]];
    ApplyAllStep(c, ws[..j], ws[j]);
  }

  method MakeResultDataFrame(resultColumns: seq<string>, test: Table, selected: seq<string>,
                             r1: seq<Float>, r2: seq<Float>, r3: seq<Float>)
    returns (df: DataFrame)
    requires Accepts(resultColumns, test, selected, r1, r2, r3)
    ensures Fits(Copied(resultColumns, test, selected), r1, r2, r3)
    ensures df.Valid() && df.Value() == Result(resultColumns, test, selected, r1, r2, r3)
  {
    var blank := Blank(resultColumns, test.rows);
    BlankValid(resultColumns, test.rows);
    df := new DataFrame(blank);
    CopySelected(df, test, selected);
    AcceptedFits(resultColumns, test, selected, r1, r2, r3);
    AddPredictions(df, r1, r2, r3);
  }

  /** The copy loop: each selected column the test frame has is assigned in turn. */
  method CopySelected(df: DataFrame, test: Table, selected: seq<string>)
    requires df.Valid() && test.Valid() && df.rows == test.rows
    modifies df
    ensures df.Valid() && df.Value() == ApplyAll(old(df.Value()), Copies(test, selected))
  {
    ghost var start := df.Value();
    for k := 0 to |selected|
      invariant df.Valid() && df.Value() == ApplyAll(start, Copies(test, selected[..k]))
      invariant df.rows == test.rows
    {
      var v := selected[k];
      CopiesStep(test, selected, k);
      if v in test.cols {
        ApplyAllStep(start, Copies(test, selected[..k]), (v, test.cols[v]));
        df.Assign(v, test.cols[v]);
      }
    }
    assert selected[..|selected|] == selected;
  }

  lemma CopiesStep(test: Table, selected: seq<string>, k: nat)
    requires k < |selected|
    ensures selected[k] in test.cols ==>
      Copies(test, selected[..k + 1]) == Copies(test, selected[..k]) + [(selected[k], test.cols[selected[k]])]
    ensures selected[k] !in test.cols ==> Copies(test, selected[..k + 1]) == Copies(test, selected[..k])
  {
    assert selected[..k + 1][..k] == selected[..k];
    assert Copies(test, selected[..k]) + [] == Copies(test, selected[..k]);
  }

  /** The ten assignments after the copy. */
  method AddPredictions(df: DataFrame, r1: seq<Float>, r2: seq<Float>, r3: seq<Float>)
    requires Fits(df.Value(), r1, r2, r3)
    modifies df
    ensures df.Valid() && df.Value() == ApplyAll(old(df.Value()), Derived(old(df.Value()), r1, r2, r3))
  {
    ghost var c := df.Value();
    var base, lower := df.cols[Base].xs, df.cols[LowerRate].xs;
    var minBid, actual := df.cols[MinBid].xs, df.cols[Actual].xs;
    AddRates(df, r1, r2, r3);
    ghost var rates := RateWrites(r1, r2, r3);
    AddFirstResult(df, r1, r2, base, lower, minBid, actual);
    ghost var first := FirstResultWrites(r1, r2, base, lower, minBid, actual);
    ApplyAllAppend(c, rates, first);
    AddSecondResult(df, r2, base, lower, minBid, actual);
    ApplyAllAppend(c, rates + first, SecondResultWrites(r2, base, lower, minBid, actual));
  }

  method AddRates(df: DataFrame, r1: seq<Float>, r2: seq<Float>, r3: seq<Float>)
    requires df.Valid() && |r1| == df.rows && |r2| == df.rows && |r3| == df.rows
    modifies df
    ensures df.Valid() && df.rows == old(df.rows)
    ensures df.Value() == ApplyAll(old(df.Value()), RateWrites(r1, r2, r3))
  {
    ghost var t, ws := df.Value(), RateWrites(r1, r2, r3);
    assert ws[..0] == [];
    df.Assign("업체투찰률예측", Nums(r1));
    WriteStep(t, ws, 0);
    df.Assign("예가투찰률예측", Nums(r2));
    WriteStep(t, ws, 1);
    df.Assign("참여업체수예측", Nums(r3));
    WriteStep(t, ws, 2);
    assert ws[..3] == ws;
  }

  method AddFirstResult(df: DataFrame, r1: seq<Float>, r2: seq<Float>, base: seq<Float>, lower: seq<Float>,
                        minBid: seq<Float>, actual: seq<Float>)
    requires df.Valid() && |r1| == df.rows && |r2| == df.rows
    requires |base| == df.rows && |lower| == df.rows && |minBid| == df.rows && |actual| == df.rows
    modifies df
    ensures df.Valid() && df.rows == old(df.rows)
    ensures df.Value() == ApplyAll(old(df.Value()), FirstResultWrites(r1, r2, base, lower, minBid, actual))
  {
    ghost var t, ws := df.Value(), FirstResultWrites(r1, r2, base, lower, minBid, actual);
    assert ws[..0] == [];
    df.Assign("예정금액예측", Nums(Quotient(Product(r2, base), lower)));
    WriteStep(t, ws, 0);
    var bidderAmount := Product(r1, base);
    df.Assign("낙찰금액(업체투찰률) 예측", Nums(bidderAmount));
    WriteStep(t, ws, 1);
    df.Assign("A값여부", Objs(RateFlags(r1)));
    WriteStep(t, ws, 2);
    df.Assign("결과1", Objs(Verdicts(bidderAmount, minBid, actual)));
    WriteStep(t, ws, 3);
    assert ws[..4] == ws;
  }

  method AddSecondResult(df: DataFrame, r2: seq<Float>, base: seq<Float>, lower: seq<Float>,
                         minBid: seq<Float>, actual: seq<Float>)
    requires df.Valid() && |r2| == df.rows
    requires |base| == df.rows && |lower| == df.rows && |minBid| == df.rows && |actual| == df.rows
    modifies df
    ensures df.Valid() && df.rows == old(df.rows)
    ensures df.Value() == ApplyAll(old(df.Value()), SecondResultWrites(r2, base, lower, minBid, actual))
  {
    ghost var t, ws := df.Value(), SecondResultWrites(r2, base, lower, minBid, actual);
    assert ws[..0] == [];
    var planned := Product(Quotient(r2, lower), base);
    df.Assign("예정금액(예가투찰률) 예측", Nums(planned));
    WriteStep(t, ws, 0);
    var atFloor := Product(planned, lower);
    df.Assign("예정금액*낙찰하한율", Nums(atFloor));
    WriteStep(t, ws, 1);
    df.Assign("결과2", Objs(Verdicts(atFloor, minBid, actual)));
    WriteStep(t, ws, 2);
    assert ws[..3] == ws;
  }

  /** The derived columns of row `i` exist with one cell per row. */
  ghost predicate HasDerived(u: Table, i: int)
  {
    && "A값여부" in u.cols && u.cols["A값여부"].Objs? && 0 <= i < |u.cols["A값여부"].os|
    && "예정금액예측" in u.cols && u.cols["예정금액예측"].Nums? && 0 <= i < |u.cols["예정금액예측"].xs|
    && "결과1" in u.cols && u.cols["결과1"].Objs? && 0 <= i < |u.cols["결과1"].os|
    && "결과2" in u.cols && u.cols["결과2"].Objs? && 0 <= i < |u.cols["결과2"].os|
  }

  lemma ComputedDistinct()
    ensures forall i, j :: 0 <= i < j < |Computed| ==> Computed[i] != Computed[j]
  {
  }

  /** Row `i` of the derived columns: the flag, both verdicts and the planned price follow the per-row rules. */
  lemma ResultRow(resultColumns: seq<string>, test: Table, selected: seq<string>,
                  r1: seq<Float>, r2: seq<Float>, r3: seq<Float>, i: int)
    requires Accepts(resultColumns, test, selected, r1, r2, r3) && 0 <= i < test.rows
    ensures Fits(Copied(resultColumns, test, selected), r1, r2, r3)
    ensures HasDerived(Result(resultColumns, test, selected, r1, r2, r3), i)
    ensures var u := Result(resultColumns, test, selected, r1, r2, r3);
            var base, lower := test.cols[Base].xs[i], test.cols[LowerRate].xs[i];
            var minBid, actual := test.cols[MinBid].xs[i], test.cols[Actual].xs[i];
            && u.cols["A값여부"].os[i] == Str(RateFlag(r1[i]))
            && u.cols["예정금액예측"].xs[i] == PlannedPrice(r2[i], base, lower)
            && u.cols["결과1"].os[i] == Str(Label(Classify(BidderAmount(r1[i], base), minBid, actual)))
            && u.cols["결과2"].os[i] == Str(Label(Classify(PlannedAtFloor(r2[i], lower, base), minBid, actual)))
  {
    AcceptedFits(resultColumns, test, selected, r1, r2, r3);
    var c := Copied(resultColumns, test, selected);
    var ws := Derived(c, r1, r2, r3);
    ComputedDistinct();
    ApplyAllWritten(c, ws, 3);
    ApplyAllWritten(c, ws, 5);
    ApplyAllWritten(c, ws, 6);
    ApplyAllWritten(c, ws, 9);
  }

  /** A selected column the test frame has, and that is not a derived name, is the test column unchanged. */
  lemma ResultKeepsCopied(resultColumns: seq<string>, test: Table, selected: seq<string>,
                          r1: seq<Float>, r2: seq<Float>, r3: seq<Float>, v: string)
    requires Accepts(resultColumns, test, selected, r1, r2, r3)
    requires v in selected && v in test.cols && v !in Computed
    ensures Fits(Copied(resultColumns, test, selected), r1, r2, r3)
    ensures var u := Result(resultColumns, test, selected, r1, r2, r3);
            v in u.cols && u.cols[v] == test.cols[v]
  {
    AcceptedFits(resultColumns, test, selected, r1, r2, r3);
    var c := Copied(resultColumns, test, selected);
    CopiedColumn(resultColumns, test, selected, v);
    ApplyAllKeeps(c, Derived(c, r1, r2, r3), v);
  }

  /** When every copied and derived column is a result column, the result has exactly the result columns, in their order. */
  lemma ResultColumnsInOrder(resultColumns: seq<string>, test: Table, selected: seq<string>,
                             r1: seq<Float>, r2: seq<Float>, r3: seq<Float>)
    requires Accepts(resultColumns, test, selected, r1, r2, r3)
    requires forall v :: v in selected ==> v in resultColumns
    requires forall k :: 0 <= k < |Computed| ==> Computed[k] in resultColumns
    ensures Fits(Copied(resultColumns, test, selected), r1, r2, r3)
    ensures Result(resultColumns, test, selected, r1, r2, r3).names == resultColumns
  {
    AcceptedFits(resultColumns, test, selected, r1, r2, r3);
    var blank := Blank(resultColumns, test.rows);
    var c := Copied(resultColumns, test, selected);
    ApplyAllSameNames(blank, Copies(test, selected));
    forall k | 0 <= k < |Derived(c, r1, r2, r3)| ensures Derived(c, r1, r2, r3)[k].0 in c.cols {
      ApplyAllHas(blank, Copies(test, selected), Computed[k]);
    }
    ApplyAllSameNames(c, Derived(c, r1, r2, r3));
  }

  /** A result column that is neither copied nor derived keeps only missing cells. */
  lemma UnfilledColumnsMissing(resultColumns: seq<string>, test: Table, selected: seq<string>,
                               r1: seq<Float>, r2: seq<Float>, r3: seq<Float>, v: string)
    requires Accepts(resultColumns, test, selected, r1, r2, r3)
    requires v in resultColumns && !(v in selected && v in test.cols) && v !in Computed
    ensures Fits(Copied(resultColumns, test, selected), r1, r2, r3)
    ensures var u := Result(resultColumns, test, selected, r1, r2, r3);
            v in u.cols && u.cols[v].Nums? && forall i :: 0 <= i < |u.cols[v].xs| ==> u.cols[v].xs[i].NaN?
  {
    AcceptedFits(resultColumns, test, selected, r1, r2, r3);
    var blank := Blank(resultColumns, test.rows);
    var c := Copied(resultColumns, test, selected);
    ApplyAllKeeps(blank, Copies(test, selected), v);
    ApplyAllKeeps(c, Derived(c, r1, r2, r3), v);
  }

  /** The result keeps the result columns, in order, at its front; copied columns it lacked are appended after them. */
  lemma ResultKeepsLayout(resultColumns: seq<string>, test: Table, selected: seq<string>,
                          r1: seq<Float>, r2: seq<Float>, r3: seq<Float>)
    requires Accepts(resultColumns, test, selected, r1, r2, r3)
    ensures Fits(Copied(resultColumns, test, selected), r1, r2, r3)
    ensures var u := Result(resultColumns, test, selected, r1, r2, r3);
            u.Valid() && u.rows == test.rows
            && |resultColumns| <= |u.names| && u.names[..|resultColumns|] == resultColumns
  {
    AcceptedFits(resultColumns, test, selected, r1, r2, r3);
    var blank := Blank(resultColumns, test.rows);
    var c := Copied(resultColumns, test, selected);
    var ws := Derived(c, r1, r2, r3);
    ApplyAllExtendsNames(blank, Copies(test, selected));
    ApplyAllExtendsNames(c, ws);
    ApplyAllValid(c, ws);
    var u := ApplyAll(c, ws);
    assert u.names[..|resultColumns|] == u.names[..|c.names|][..|resultColumns|];
  }
}
