/**
 * The slice of a pandas DataFrame the pipeline uses: named columns in a
 * fixed order, all of the same length. A numeric column holds floats, an
 * object column holds strings or missing markers, a datetime column holds
 * dates or NaT.
 */
module Frames {

  import opened Wrappers
  import opened Floats

  /**
   * A cell of an object column: a string, `None`, a float NaN, or the
   * integer 0 that `fillna(0)` writes over a missing cell.
   */
  datatype Obj = Str(s: string) | NoneCell | NaNCell | ZeroCell
  {
    /** `pd.isnull` of the cell. */
    predicate Missing()
    {
      NoneCell? || NaNCell?
    }
  }

  /** `str(o)` of an object cell. */
  function CellText(o: Obj): string
  {
    match o
    case Str(s) => s
    case NoneCell => "None"
    case NaNCell => "nan"
    case ZeroCell => "0"
  }

  datatype Date = Date(year: int, month: int, day: int)

  datatype Column = Nums(xs: seq<Float>) | Objs(os: seq<Obj>) | Dates(ds: seq<Option<Date>>)
  {
    function Len(): nat
    {
      match this
      case Nums(xs) => |xs|
      case Objs(os) => |os|
      case Dates(ds) => |ds|
    }
  }

  /** One column assignment `df[name] = column`. */
  type Write = (string, Column)

  datatype Table = Table(names: seq<string>, cols: map<string, Column>, rows: nat)
  {
    /** Column names are distinct, name exactly the stored columns, and every column has `rows` cells. */
    ghost predicate Valid()
    {
      (forall i, j :: 0 <= i < j < |names| ==> names[i] != names[j])
      && (forall n :: n in cols ==> n in names)
      && (forall n :: n in names ==> n in cols)
      && (forall n :: n in cols ==> cols[n].Len() == rows)
    }

    predicate Has(name: string) { name in cols }

    predicate IsNumeric(name: string) { name in cols && cols[name].Nums? }

    /** `df[name] = c`: an existing column is replaced in place, a new one is appended last. */
    function Set(name: string, c: Column): Table
    {
      Table(if name in cols then names else names + [name], cols[name := c], rows)
    }
  }

  /** Every listed column that is present is numeric. */
  ghost predicate NumericIfPresent(t: Table, ns: seq<string>)
  {
    forall n :: n in ns && n in t.cols ==> t.cols[n].Nums?
  }

  /** Every column is numeric. */
  ghost predicate AllNumeric(t: Table)
  {
    forall n :: n in t.cols ==> t.cols[n].Nums?
  }

  /** Column `n` has the same presence and content in `u` as in `t`. */
  ghost predicate Keeps(t: Table, u: Table, n: string)
  {
    (n in u.cols <==> n in t.cols) && (n in t.cols ==> u.cols[n] == t.cols[n])
  }

  /** The columns of `t` come first in `u`, in their order. */
  ghost predicate Extends(t: Table, u: Table)
  {
    |t.names| <= |u.names| && u.names[..|t.names|] == t.names
  }

  lemma ExtendsTransitive(t: Table, u: Table, v: Table)
    requires Extends(t, u) && Extends(u, v)
    ensures Extends(t, v)
  {
    assert v.names[..|t.names|] == v.names[..|u.names|][..|t.names|];
  }

  lemma SetExtends(t: Table, name: string, c: Column)
    ensures Extends(t, t.Set(name, c))
  {
  }

  lemma SetKeeps(t: Table, name: string, c: Column, n: string)
    requires n != name
    ensures Keeps(t, t.Set(name, c), n) && Extends(t, t.Set(name, c))
  {
  }

  /** The assignments `ws`, performed in order. */
  function ApplyAll(t: Table, ws: seq<Write>): Table
  {
    if |ws| == 0 then t else ApplyAll(t, ws[..|ws| - 1]).Set(ws[|ws| - 1].0, ws[|ws| - 1].1)
  }

  /** Every assignment has a column of the frame's length. */
  ghost predicate FitRows(t: Table, ws: seq<Write>)
  {
    forall k :: 0 <= k < |ws| ==> ws[k].1.Len() == t.rows
  }

  lemma SetValid(t: Table, name: string, c: Column)
    requires t.Valid() && c.Len() == t.rows
    ensures t.Set(name, c).Valid()
    ensures t.Set(name, c).rows == t.rows
  {
    var u := t.Set(name, c);
    if name !in t.cols {
      forall i, j | 0 <= i < j < |u.names| ensures u.names[i] != u.names[j] {
        if j == |t.names| {
          assert u.names[j] == name;
          assert u.names[i] == t.names[i];
        }
      }
    }
  }

  lemma ApplyAllStep(t: Table, ws: seq<Write>, w: Write)
    ensures ApplyAll(t, ws + [w]) == ApplyAll(t, ws).Set(w.0, w.1)
  {
    assert (ws + [w])[..|ws|] == ws;
  }

  lemma {:induction false} ApplyAllAppend(t: Table, a: seq<Write>, b: seq<Write>)
    ensures ApplyAll(t, a + b) == ApplyAll(ApplyAll(t, a), b)
    decreases |b|
  {
    if |b| == 0 {
      assert a + b == a;
    } else {
      var b0 := b[..|b| - 1];
      assert (a + b)[..|a + b| - 1] == a + b0;
      ApplyAllAppend(t, a, b0);
    }
  }

  /** A sequence of assignments of the right length keeps the frame well formed. */
  lemma {:induction false} ApplyAllValid(t: Table, ws: seq<Write>)
    requires t.Valid() && FitRows(t, ws)
    ensures ApplyAll(t, ws).Valid() && ApplyAll(t, ws).rows == t.rows
  {
    if |ws| > 0 {
      ApplyAllValid(t, ws[..|ws| - 1]);
      SetValid(ApplyAll(t, ws[..|ws| - 1]), ws[|ws| - 1].0, ws[|ws| - 1].1);
    }
  }

  /** A column no assignment targets keeps its presence and its content. */
  lemma {:induction false} ApplyAllKeeps(t: Table, ws: seq<Write>, n: string)
    requires forall k :: 0 <= k < |ws| ==> ws[k].0 != n
    ensures n in ApplyAll(t, ws).cols <==> n in t.cols
    ensures n in t.cols ==> ApplyAll(t, ws).cols[n] == t.cols[n]
  {
    if |ws| > 0 {
      ApplyAllKeeps(t, ws[..|ws| - 1], n);
    }
  }

  /** The old columns stay first, in their old order; new columns follow. */
  lemma {:induction false} ApplyAllExtendsNames(t: Table, ws: seq<Write>)
    ensures |t.names| <= |ApplyAll(t, ws).names|
    ensures ApplyAll(t, ws).names[..|t.names|] == t.names
  {
    if |ws| > 0 {
      ApplyAllExtendsNames(t, ws[..|ws| - 1]);
      var u := ApplyAll(t, ws[..|ws| - 1]);
      assert (u.names + [ws[|ws| - 1].0])[..|t.names|] == u.names[..|t.names|];
    }
  }

  /** A column assigned by the last assignment to its name holds that assignment's value. */
  lemma {:induction false} ApplyAllWritten(t: Table, ws: seq<Write>, k: int)
    requires 0 <= k < |ws|
    requires forall j :: k < j < |ws| ==> ws[j].0 != ws[k].0
    ensures ws[k].0 in ApplyAll(t, ws).cols && ApplyAll(t, ws).cols[ws[k].0] == ws[k].1
  {
    if k < |ws| - 1 {
      ApplyAllWritten(t, ws[..|ws| - 1], k);
    }
  }

  /** A column that every assignment to it gives the same value ends with that value. */
  lemma {:induction false} ApplyAllSameValue(t: Table, ws: seq<Write>, n: string, c: Column)
    requires exists k :: 0 <= k < |ws| && ws[k].0 == n
    requires forall k :: 0 <= k < |ws| && ws[k].0 == n ==> ws[k].1 == c
    ensures n in ApplyAll(t, ws).cols && ApplyAll(t, ws).cols[n] == c
  {
    var init := ws[..|ws| - 1];
    if ws[|ws| - 1].0 != n {
      var k :| 0 <= k < |ws| && ws[k].0 == n;
      assert init[k].0 == n;
      ApplyAllSameValue(t, init, n, c);
    }
  }

  /** Assignments that only replace existing columns leave the column order as it was. */
  lemma {:induction false} ApplyAllSameNames(t: Table, ws: seq<Write>)
    requires forall k :: 0 <= k < |ws| ==> ws[k].0 in t.cols
    ensures ApplyAll(t, ws).names == t.names
  {
    if |ws| > 0 {
      var init := ws[..|ws| - 1];
      ApplyAllSameNames(t, init);
      ApplyAllHas(t, init, ws[|ws| - 1].0);
    }
  }

  /** After the assignments, a column exists exactly when it existed before or some assignment targets it. */
  lemma {:induction false} ApplyAllHas(t: Table, ws: seq<Write>, n: string)
    ensures n in ApplyAll(t, ws).cols <==> n in t.cols || exists k :: 0 <= k < |ws| && ws[k].0 == n
  {
    if |ws| > 0 {
      var init := ws[..|ws| - 1];
      ApplyAllHas(t, init, n);
      if exists k :: 0 <= k < |ws| && ws[k].0 == n {
        var k :| 0 <= k < |ws| && ws[k].0 == n;
        if k < |ws| - 1 {
          assert init[k].0 == n;
        }
      }
      if exists k :: 0 <= k < |init| && init[k].0 == n {
        var k :| 0 <= k < |init| && init[k].0 == n;
        assert ws[k].0 == n;
      }
    }
  }

  /** `df.insert(loc, name, c)`, once its checks have passed. */
  function InsertAt(t: Table, loc: nat, name: string, c: Column): Table
    requires loc <= |t.names|
  {
    Table(t.names[..loc] + [name] + t.names[loc..], t.cols[name := c], t.rows)
  }

  lemma InsertAtValid(t: Table, loc: nat, name: string, c: Column)
    requires t.Valid() && loc <= |t.names| && name !in t.cols && c.Len() == t.rows
    ensures InsertAt(t, loc, name, c).Valid()
  {
    var u := InsertAt(t, loc, name, c);
    SpliceIndices(t.names, loc, name);
    forall i, j | 0 <= i < j < |u.names| ensures u.names[i] != u.names[j] {
      if i < loc && j > loc {
        assert u.names[j] == t.names[j - 1];
      } else if j > loc && i > loc {
        assert u.names[j] == t.names[j - 1] && u.names[i] == t.names[i - 1];
      }
    }
    forall n | n in u.names ensures n in u.cols {
      var i :| 0 <= i < |u.names| && u.names[i] == n;
      if i < loc {
        assert n == t.names[i];
      } else if i > loc {
        assert n == t.names[i - 1];
      }
    }
    forall n | n in u.cols ensures n in u.names {
      if n != name {
        var i :| 0 <= i < |t.names| && t.names[i] == n;
        if i < loc {
          assert u.names[i] == n;
        } else {
          assert u.names[i + 1] == n;
        }
      } else {
        assert u.names[loc] == name;
      }
    }
  }

  /** Where each element of a list lands once `x` is put in at `loc`. */
  lemma SpliceIndices(s: seq<string>, loc: nat, x: string)
    requires loc <= |s|
    ensures var r := s[..loc] + [x] + s[loc..];
            |r| == |s| + 1 && r[loc] == x
            && (forall i :: 0 <= i < loc ==> r[i] == s[i])
            && (forall i :: loc < i < |r| ==> r[i] == s[i - 1])
  {
  }

  /** `df[ns]`: a new frame with exactly the listed columns, in the listed order. */
  function Project(t: Table, ns: seq<string>): Table
    requires forall n :: n in ns ==> n in t.cols
  {
    Table(ns, map n | n in ns :: t.cols[n], t.rows)
  }

  lemma ProjectValid(t: Table, ns: seq<string>)
    requires t.Valid() && (forall n :: n in ns ==> n in t.cols)
    requires forall i, j :: 0 <= i < j < |ns| ==> ns[i] != ns[j]
    ensures Project(t, ns).Valid()
  {
  }

  /** `fillna(0)` on a numeric column. */
  function FillNaZero(xs: seq<Float>): (r: seq<Float>)
    ensures |r| == |xs|
    ensures forall i :: 0 <= i < |xs| ==> !r[i].NaN? && (xs[i].NaN? || r[i] == xs[i])
    ensures forall i :: 0 <= i < |xs| && xs[i].NaN? ==> r[i] == Fin(0.0)
  {
    seq(|xs|, i requires 0 <= i < |xs| => if xs[i].NaN? then Fin(0.0) else xs[i])
  }

  /** `fillna(0)` on an object column: `None` and NaN become the integer 0. */
  function FillObjsZero(os: seq<Obj>): (r: seq<Obj>)
    ensures |r| == |os|
    ensures forall i :: 0 <= i < |os| ==> !r[i].Missing() && (os[i].Missing() <==> r[i] != os[i])
    ensures forall i :: 0 <= i < |os| && os[i].Missing() ==> r[i] == ZeroCell
  {
    seq(|os|, i requires 0 <= i < |os| => if os[i].Missing() then ZeroCell else os[i])
  }

  /**
   * `df.fillna(0)` on a frame: the missing cells of numeric and object
   * columns become 0; datetime columns are left as they are.
   */
  function FillNa(t: Table): (u: Table)
    ensures u.names == t.names && u.rows == t.rows
    ensures forall n :: n in u.cols <==> n in t.cols
    ensures forall n :: t.IsNumeric(n) ==> u.IsNumeric(n) && u.cols[n].xs == FillNaZero(t.cols[n].xs)
    ensures forall n :: n in t.cols && t.cols[n].Objs? ==> n in u.cols && u.cols[n] == Objs(FillObjsZero(t.cols[n].os))
    ensures forall n :: n in t.cols && t.cols[n].Dates? ==> n in u.cols && u.cols[n] == t.cols[n]
  {
    Table(t.names, map n | n in t.cols ::
      match t.cols[n]
      case Nums(xs) => Nums(FillNaZero(xs))
      case Objs(os) => Objs(FillObjsZero(os))
      case Dates(_) => t.cols[n], t.rows)
  }

  /** `df.insert(loc, name, c)` on a value: the refusal, or the frame with the new column at `loc`. */
  function TryInsert(t: Table, loc: int, name: string, c: Column): (r: Result<Table, FrameError>)
    ensures r.Err? <==> name in t.cols || loc < 0 || loc > |t.names| || c.Len() != t.rows
    ensures r.Ok? ==> r.value.rows == t.rows && r.value.cols == t.cols[name := c]
  {
    if name in t.cols then Err(DuplicateColumn)
    else if loc < 0 || loc > |t.names| then Err(BadLocation)
    else if c.Len() != t.rows then Err(LengthMismatch)
    else Ok(InsertAt(t, loc, name, c))
  }

  /** An accepted insertion keeps a frame well formed and puts the name at `loc`, the others in their order around it. */
  lemma TryInsertValid(t: Table, loc: int, name: string, c: Column)
    requires t.Valid() && TryInsert(t, loc, name, c).Ok?
    ensures TryInsert(t, loc, name, c).value.Valid()
    ensures 0 <= loc <= |t.names|
    ensures TryInsert(t, loc, name, c).value.names == t.names[..loc] + [name] + t.names[loc..]
  {
    InsertAtValid(t, loc, name, c);
  }

  /** The ways `df.insert` refuses its arguments. */
  datatype FrameError = DuplicateColumn | BadLocation | LengthMismatch

  /** A DataFrame whose column set is changed in place. */
  class DataFrame {
    var names: seq<string>
    var cols: map<string, Column>
    var rows: nat

    function Value(): Table
      reads this
    {
      Table(names, cols, rows)
    }

    ghost predicate Valid()
      reads this
    {
      Value().Valid()
    }

    constructor (t: Table)
      requires t.Valid()
      ensures Valid() && Value() == t
    {
      names, cols, rows := t.names, t.cols, t.rows;
    }

    /** `df[name] = c`. */
    method Assign(name: string, c: Column)
      requires Valid() && c.Len() == rows
      modifies this
      ensures Valid() && Value() == old(Value()).Set(name, c)
    {
      SetValid(Value(), name, c);
      if name !in cols {
        names := names + [name];
      }
      cols := cols[name := c];
    }

    /** `df.insert(loc, name, c)`: refuses a duplicate name, a position past the end, or a column of the wrong length. */
    method Insert(loc: int, name: string, c: Column) returns (err: Option<FrameError>)
      requires Valid()
      modifies this
      ensures Valid()
      ensures match TryInsert(old(Value()), loc, name, c)
              case Ok(u) => err.None? && Value() == u
              case Err(e) => err == Some(e) && Value() == old(Value())
    {
      if name in cols {
        return Some(DuplicateColumn);
      }
      if loc < 0 || loc > |names| {
        return Some(BadLocation);
      }
      if c.Len() != rows {
        return Some(LengthMismatch);
      }
      InsertAtValid(Value(), loc, name, c);
      names := names[..loc] + [name] + names[loc..];
      cols := cols[name := c];
      err := None;
    }
  }
}
