/**
 * The conversions the prediction store applies before a row is written to
 * SQL Server: `safe_decimal`, which turns a cell into a number that fits a
 * DECIMAL(p, s) column (or the DECIMAL(15, 15) of a TF-IDF score), `safe_int`,
 * which fits a cell into an INT column, and the 25 fields
 * `_prepare_row_data` hands to the INSERT, in column order.
 */
module DbSanitize {

  import opened Wrappers
  import opened Floats

  /** A cell of a result row as `float()` sees it. */
  datatype Cell =
    | NoneCell            // Python `None`
    | Number(x: Float)    // an int or a float
    | Text(s: string)     // a string, which `float()` parses
    | Other               // anything else, on which `float()` raises `TypeError`

  /** Why `float()` or `int()` gave up, or what escaped the conversion. */
  datatype ConvError = ValueError | TypeError | OverflowError

  /**
   * `float(value) if value is not None else 0.0`. `parse` stands for `float()` on
   * a string: `None` where Python raises `ValueError`.
   */
  function ToFloat(parse: string -> Option<Float>, v: Cell): (r: Result<Float, ConvError>)
    ensures v.NoneCell? ==> r == Ok(Fin(0.0))
    ensures v.Number? ==> r == Ok(v.x)
    ensures r.Err? <==> v.Other? || (v.Text? && parse(v.s).None?)
  {
    match v
    case NoneCell => Ok(Fin(0.0))
    case Number(x) => Ok(x)
    case Text(s) => if parse(s).Some? then Ok(parse(s).value) else Err(ValueError)
    case Other => Err(TypeError)
  }

  /** The largest DECIMAL(15, 15) value, the ceiling of a TF-IDF score. */
  const TfidfMax: real := 0.999999999999999

  /** `10 ** e` for an integer exponent. */
  function Pow10(e: int): (r: real)
    ensures r > 0.0
    ensures e >= 0 ==> r >= 1.0
    decreases if e < 0 then -e else e
  {
    if e == 0 then 1.0 else if e > 0 then 10.0 * Pow10(e - 1) else Pow10(e + 1) / 10.0
  }

  /** `max_value`: `10 ** (max_digits - decimal_places) - 1`, the largest magnitude the integer digits allow. */
  function DecimalBound(maxDigits: int, places: int): real
  {
    Pow10(maxDigits - places) - 1.0
  }

  /** `max(lo, min(hi, v))`. */
  function Clamp(lo: real, hi: real, v: real): (r: real)
    ensures lo <= hi ==> lo <= r <= hi
    ensures lo <= v <= hi ==> r == v
    ensures hi < lo ==> r == lo
  {
    var m := if hi <= v then hi else v;
    if lo >= m then lo else m
  }

  /** `safe_decimal(value, max_digits, decimal_places, is_tfidf)`. */
  function SafeDecimal(parse: string -> Option<Float>, v: Cell, maxDigits: int, places: int, tfidf: bool): real
  {
    match ToFloat(parse, v)
    case Err(_) => 0.0
    case Ok(f) =>
      match f
      case NaN => 0.0
      case Inf(_) => 0.0
      case Fin(x) =>
        if tfidf then (if x < 0.0 then 0.0 else if x > TfidfMax then TfidfMax else x)
        else Clamp(-DecimalBound(maxDigits, places), DecimalBound(maxDigits, places), x)
  }

  /** Unparseable input, NaN and the infinities become 0, whatever the column. */
  lemma SafeDecimalFallbacks(parse: string -> Option<Float>, v: Cell, maxDigits: int, places: int, tfidf: bool)
    requires ToFloat(parse, v).Err? || ToFloat(parse, v) == Ok(NaN) || ToFloat(parse, v).value.Inf?
    ensures SafeDecimal(parse, v, maxDigits, places, tfidf) == 0.0
  {
  }

  /** A missing value becomes 0 in a TF-IDF column and in any column with at least one integer digit. */
  lemma SafeDecimalOfNone(parse: string -> Option<Float>, maxDigits: int, places: int, tfidf: bool)
    requires tfidf || places <= maxDigits
    ensures SafeDecimal(parse, NoneCell, maxDigits, places, tfidf) == 0.0
  {
  }

  /** A TF-IDF score is stored in [0, 0.999999999999999], and a score already there is stored as it is. */
  lemma SafeDecimalTfidfRange(parse: string -> Option<Float>, v: Cell, maxDigits: int, places: int)
    ensures 0.0 <= SafeDecimal(parse, v, maxDigits, places, true) <= TfidfMax
    ensures v.Number? && v.x.Fin? && 0.0 <= v.x.v <= TfidfMax ==> SafeDecimal(parse, v, maxDigits, places, true) == v.x.v
  {
  }

  /**
   * Any other value is stored within the integer digits of its column, and a
   * value already within them is stored as it is.
   */
  lemma SafeDecimalGeneralRange(parse: string -> Option<Float>, v: Cell, maxDigits: int, places: int)
    requires places <= maxDigits
    ensures var b := DecimalBound(maxDigits, places);
            -b <= SafeDecimal(parse, v, maxDigits, places, false) <= b
    ensures var b := DecimalBound(maxDigits, places);
            v.Number? && v.x.Fin? && -b <= v.x.v <= b ==> SafeDecimal(parse, v, maxDigits, places, false) == v.x.v
  {
  }

  /** The bounds of the columns the row writes. */
  lemma DecimalBounds()
    ensures DecimalBound(18, 9) == 999999999.0
    ensures DecimalBound(10, 7) == 999.0
    ensures DecimalBound(20, 2) == 999999999999999999.0
  {
    assert Pow10(3) == 1000.0;
    assert Pow10(9) == 1000000000.0 by {
      assert Pow10(6) == 1000000.0;
    }
    assert Pow10(18) == 1000000000000000000.0 by {
      assert Pow10(9) == 1000000000.0 by {
        assert Pow10(6) == 1000000.0;
      }
      assert Pow10(12) == 1000000000000.0;
      assert Pow10(15) == 1000000000000000.0;
    }
  }

  /** Converting a stored value again stores the same value. */
  lemma SafeDecimalIdempotent(parse: string -> Option<Float>, v: Cell, maxDigits: int, places: int, tfidf: bool)
    requires tfidf || places <= maxDigits
    ensures var once := SafeDecimal(parse, v, maxDigits, places, tfidf);
            SafeDecimal(parse, Number(Fin(once)), maxDigits, places, tfidf) == once
  {
    if tfidf {
      SafeDecimalTfidfRange(parse, v, maxDigits, places);
    } else {
      SafeDecimalGeneralRange(parse, v, maxDigits, places);
    }
  }

  /**
   * With fewer digits than decimal places the bounds cross, every finite value
   * is stored as 1 - 10 ** (digits - places), and a NaN stored as 0 comes back
   * as that value: the conversion is idempotent only where the integer digits
   * are not negative in number.
   */
  lemma SafeDecimalCrossedBounds(parse: string -> Option<Float>)
    ensures SafeDecimal(parse, Number(Fin(5.0)), 1, 2, false) == 0.9
    ensures SafeDecimal(parse, Number(NaN), 1, 2, false) == 0.0
    ensures SafeDecimal(parse, Number(Fin(0.0)), 1, 2, false) == 0.9
  {
    assert Pow10(-1) == 0.1;
  }

  const IntMin: int := -2147483648
  const IntMax: int := 2147483647

  /** `int()` of a finite float: the integer part, towards zero. */
  function Truncate(x: real): (n: int)
    ensures n as real <= x < n as real + 1.0 || n as real - 1.0 < x <= n as real
    ensures 0.0 <= x ==> 0 <= n && n as real <= x
    ensures x <= 0.0 ==> n <= 0 && x <= n as real
  {
    if x >= 0.0 then x.Floor else -((-x).Floor)
  }

  /**
   * `safe_int(value)`: `int(float(value))` clamped to INT. `int()` of NaN raises
   * `ValueError`, which is caught; of an infinity it raises `OverflowError`,
   * which is not, and which the row preparation passes on.
   */
  function SafeInt(parse: string -> Option<Float>, v: Cell): (r: Result<int, ConvError>)
  {
    match ToFloat(parse, v)
    case Err(_) => Ok(0)
    case Ok(f) =>
      match f
      case NaN => Ok(0)
      case Inf(_) => Err(OverflowError)
      case Fin(x) =>
        var n := Truncate(x);
        Ok(if n < IntMin then IntMin else if n > IntMax then IntMax else n)
  }

  /**
   * The conversion fails exactly on an infinity, with `OverflowError`; otherwise
   * it is in INT, 0 for what `float()` or `int()` refuses, and the integer part
   * of a finite value when that is in INT.
   */
  lemma SafeIntOutcome(parse: string -> Option<Float>, v: Cell)
    ensures SafeInt(parse, v).Err? <==> ToFloat(parse, v).Ok? && ToFloat(parse, v).value.Inf?
    ensures SafeInt(parse, v).Err? ==> SafeInt(parse, v).error == OverflowError
    ensures SafeInt(parse, v).Ok? ==> IntMin <= SafeInt(parse, v).value <= IntMax
    ensures ToFloat(parse, v).Err? || ToFloat(parse, v) == Ok(NaN) ==> SafeInt(parse, v) == Ok(0)
    ensures ToFloat(parse, v).Ok? && ToFloat(parse, v).value.Fin? && IntMin <= Truncate(ToFloat(parse, v).value.v) <= IntMax ==>
              SafeInt(parse, v) == Ok(Truncate(ToFloat(parse, v).value.v))
  {
  }

  /** Converting a stored integer again stores the same integer. */
  lemma SafeIntIdempotent(parse: string -> Option<Float>, v: Cell)
    requires SafeInt(parse, v).Ok?
    ensures SafeInt(parse, Number(Fin(SafeInt(parse, v).value as real))) == SafeInt(parse, v)
  {
    SafeIntOutcome(parse, v);
    var n := SafeInt(parse, v).value;
    TruncateInteger(n);
  }

  lemma TruncateInteger(n: int)
    ensures Truncate(n as real) == n
  {
    if n >= 0 {
      assert (n as real).Floor == n;
    } else {
      assert (-(n as real)) == (-n) as real;
      assert ((-n) as real).Floor == -n;
    }
  }

  // ---------------------------------------------------------------------------
  // _prepare_row_data
  // ---------------------------------------------------------------------------

  /** A reading of the clock, `datetime.now()`. */
  datatype Moment = Moment(ticks: int)

  /** A value bound to one column of the INSERT. */
  datatype Field =
    | StrField(s: string)
    | DecField(d: real)
    | IntField(n: int)
    | RawField(raw: Option<Cell>)   // a date cell handed over as it is, `None` when absent
    | NowField(at: Moment)

  /** How `_prepare_row_data` fills one column from the row. */
  datatype Slot =
    | StrSlot(key: string, absent: string)                        // `str(row.get(key, absent))`
    | DecSlot(key: string, maxDigits: int, places: int, tfidf: bool)  // `safe_decimal(row.get(key, 0), ...)`
    | IntSlot(key: string)                                        // `safe_int(row.get(key, 0))`
    | RawSlot(key: string)                                        // `row.get(key, None)`
    | NowSlot                                                     // `now`

  /** Column `i` of the INSERT, in the order the tuple lists them. */
  function RowSlot(i: nat): Slot
  {
    if i == 0 then StrSlot("입찰번호", "")
    else if i == 1 then StrSlot("입찰차수", "")
    else if i == 2 then DecSlot("기초금액률", 18, 9, false)
    else if i == 3 then DecSlot("낙찰하한률", 10, 7, false)
    else if i == 4 then DecSlot("기초금액", 20, 2, false)
    else if i == 5 then DecSlot("순공사원가", 20, 2, false)
    else if i == 6 then DecSlot("간접비", 20, 2, false)
    else if i == 7 then StrSlot("A계산여부", "0")
    else if i == 8 then StrSlot("순공사원가적용여부", "0")
    else if i == 9 then StrSlot("면허제한코드", "")
    else if i == 10 then StrSlot("공고기관코드", "")
    else if i == 11 then StrSlot("주공종명", "")
    else if i == 12 then StrSlot("공고기관명", "")
    else if i == 13 then DecSlot("공고기관점수", 15, 15, true)
    else if i == 14 then StrSlot("공사지역", "")
    else if i == 15 then DecSlot("공사지역점수", 15, 15, true)
    else if i == 16 then StrSlot("키워드", "")
    else if i == 17 then DecSlot("키워드점수", 15, 15, true)
    else if i == 18 then RawSlot("공고일자")
    else if i == 19 then RawSlot("개찰일시")
    else if i == 20 then StrSlot("예측_URL", "")
    else if i == 21 then DecSlot("업체투찰률_예측", 18, 9, false)
    else if i == 22 then DecSlot("예가투찰률_예측", 18, 9, false)
    else if i == 23 then IntSlot("참여업체수_예측")
    else NowSlot
  }

  /** The 25 columns of the INSERT. */
  function RowSlots(): (slots: seq<Slot>)
    ensures |slots| == 25 && forall i :: 0 <= i < 25 ==> slots[i] == RowSlot(i)
  {
    seq(25, i requires 0 <= i => RowSlot(i))
  }

  /** `row.get(key, 0)`. */
  function NumberAt(row: map<string, Cell>, key: string): Cell
  {
    if key in row then row[key] else Number(Fin(0.0))
  }

  /**
   * One column's value. `show` stands for `str()` of a present cell; an absent
   * key gives the default string itself.
   */
  function Convert(show: Cell -> string, parse: string -> Option<Float>, row: map<string, Cell>, now: Moment, slot: Slot)
    : (r: Result<Field, ConvError>)
    ensures r.Err? <==> slot.IntSlot? && SafeInt(parse, NumberAt(row, slot.key)).Err?
  {
    match slot
    case StrSlot(key, absent) => Ok(StrField(if key in row then show(row[key]) else absent))
    case DecSlot(key, p, s, tfidf) => Ok(DecField(SafeDecimal(parse, NumberAt(row, key), p, s, tfidf)))
    case IntSlot(key) =>
      (match SafeInt(parse, NumberAt(row, key))
       case Ok(n) => Ok(IntField(n))
       case Err(e) => Err(e))
    case RawSlot(key) => Ok(RawField(if key in row then Some(row[key]) else None))
    case NowSlot => Ok(NowField(now))
  }

  /** The tuple elements evaluated left to right: the first conversion that raises ends the row. */
  function Fields(show: Cell -> string, parse: string -> Option<Float>, row: map<string, Cell>, now: Moment, slots: seq<Slot>)
    : (r: Result<seq<Field>, ConvError>)
    ensures r.Ok? <==> forall i :: 0 <= i < |slots| ==> Convert(show, parse, row, now, slots[i]).Ok?
    ensures r.Ok? ==> |r.value| == |slots|
                      && forall i :: 0 <= i < |slots| ==> Convert(show, parse, row, now, slots[i]) == Ok(r.value[i])
    ensures r.Err? ==> exists i :: 0 <= i < |slots| && Convert(show, parse, row, now, slots[i]) == Err(r.error)
    decreases |slots|
  {
    if |slots| == 0 then Ok([])
    else
      match Convert(show, parse, row, now, slots[0])
      case Err(e) => Err(e)
      case Ok(f) =>
        match Fields(show, parse, row, now, slots[1..])
        case Err(e) =>
          Err(e)
        case Ok(fs) =>
          Ok([f] + fs)
  }

  /** `_prepare_row_data(row, ...)`: the 25 fields, or the `OverflowError` it raises. */
  function PrepareRow(show: Cell -> string, parse: string -> Option<Float>, row: map<string, Cell>, now: Moment)
    : Result<seq<Field>, ConvError>
  {
    Fields(show, parse, row, now, RowSlots())
  }

  /** The positions of the scores, the counts, the amounts and the clock in the column list. */
  lemma SlotFacts()
    ensures RowSlot(13) == DecSlot("공고기관점수", 15, 15, true)
    ensures RowSlot(15) == DecSlot("공사지역점수", 15, 15, true)
    ensures RowSlot(17) == DecSlot("키워드점수", 15, 15, true)
    ensures RowSlot(23) == IntSlot("참여업체수_예측") && RowSlot(24) == NowSlot
    ensures RowSlot(2) == DecSlot("기초금액률", 18, 9, false) && RowSlot(3) == DecSlot("낙찰하한률", 10, 7, false)
    ensures RowSlot(4) == DecSlot("기초금액", 20, 2, false) && RowSlot(5) == DecSlot("순공사원가", 20, 2, false)
    ensures RowSlot(6) == DecSlot("간접비", 20, 2, false)
    ensures RowSlot(21) == DecSlot("업체투찰률_예측", 18, 9, false) && RowSlot(22) == DecSlot("예가투찰률_예측", 18, 9, false)
  {
  }

  /**
   * The INSERT reads each row key at most once; the clock is read only for the
   * last column, the three TF-IDF scores are the only score-clamped decimals,
   * and every decimal keeps no more places than digits.
   */
  lemma RowSlotsFacts()
    ensures var slots := RowSlots();
      (forall i, j :: 0 <= i < j < 25 && !slots[i].NowSlot? && !slots[j].NowSlot? ==> slots[i].key != slots[j].key)
      && (forall i :: 0 <= i < 25 ==> (slots[i].NowSlot? <==> i == 24))
      && (forall i :: 0 <= i < 25 ==> (slots[i].DecSlot? && slots[i].tfidf <==> i == 13 || i == 15 || i == 17))
      && (forall i :: 0 <= i < 25 && slots[i].DecSlot? ==> 0 <= slots[i].places <= slots[i].maxDigits)
  {
    var slots := RowSlots();
    var keys := seq(24, i requires 0 <= i < 24 => slots[i].key);
    assert keys == ["입찰번호", "입찰차수", "기초금액률", "낙찰하한률", "기초금액", "순공사원가", "간접비",
                    "A계산여부", "순공사원가적용여부", "면허제한코드", "공고기관코드", "주공종명", "공고기관명",
                    "공고기관점수", "공사지역", "공사지역점수", "키워드", "키워드점수", "공고일자", "개찰일시",
                    "예측_URL", "업체투찰률_예측", "예가투찰률_예측", "참여업체수_예측"];
    assert forall i, j :: 0 <= i < j < 24 ==> keys[i] != keys[j];
  }

  /** The predicted bidder count is the only integer column. */
  lemma OnlyIntSlot()
    ensures forall i :: 0 <= i < |RowSlots()| && RowSlots()[i].IntSlot? ==> i == 23
  {
  }

  /** What a conversion of a score slot gives. */
  lemma ScoreField(show: Cell -> string, parse: string -> Option<Float>, row: map<string, Cell>, now: Moment, slot: Slot, f: Field)
    requires slot.DecSlot? && slot.tfidf && Convert(show, parse, row, now, slot) == Ok(f)
    ensures f.DecField? && 0.0 <= f.d <= TfidfMax
  {
    SafeDecimalTfidfRange(parse, NumberAt(row, slot.key), slot.maxDigits, slot.places);
  }

  /** What a conversion of an amount slot gives. */
  lemma AmountField(show: Cell -> string, parse: string -> Option<Float>, row: map<string, Cell>, now: Moment, slot: Slot, f: Field)
    requires slot.DecSlot? && !slot.tfidf && slot.places <= slot.maxDigits && Convert(show, parse, row, now, slot) == Ok(f)
    ensures f.DecField? && -DecimalBound(slot.maxDigits, slot.places) <= f.d <= DecimalBound(slot.maxDigits, slot.places)
  {
    SafeDecimalGeneralRange(parse, NumberAt(row, slot.key), slot.maxDigits, slot.places);
  }

  /**
   * The row is refused exactly when the predicted bidder count is infinite;
   * otherwise it has 25 fields, the three scores at 13, 15 and 17 in the TF-IDF
   * range, the predicted count at 23 in INT, and the clock reading last.
   */
  lemma PrepareRowLayout(show: Cell -> string, parse: string -> Option<Float>, row: map<string, Cell>, now: Moment)
    ensures var r := PrepareRow(show, parse, row, now);
            r.Err? <==> SafeInt(parse, NumberAt(row, "참여업체수_예측")).Err?
    ensures var r := PrepareRow(show, parse, row, now);
            r.Ok? ==>
              |r.value| == 25
              && r.value[13].DecField? && 0.0 <= r.value[13].d <= TfidfMax
              && r.value[15].DecField? && 0.0 <= r.value[15].d <= TfidfMax
              && r.value[17].DecField? && 0.0 <= r.value[17].d <= TfidfMax
              && r.value[23].IntField? && IntMin <= r.value[23].n <= IntMax
              && r.value[24] == NowField(now)
  {
    SlotFacts();
    OnlyIntSlot();
    LayoutOf(show, parse, row, now, RowSlots());
  }

  lemma LayoutOf(show: Cell -> string, parse: string -> Option<Float>, row: map<string, Cell>, now: Moment, slots: seq<Slot>)
    requires |slots| == 25
    requires slots[13].DecSlot? && slots[13].tfidf && slots[15].DecSlot? && slots[15].tfidf
    requires slots[17].DecSlot? && slots[17].tfidf
    requires slots[23] == IntSlot("참여업체수_예측") && slots[24] == NowSlot
    requires forall i :: 0 <= i < |slots| && slots[i].IntSlot? ==> i == 23
    ensures var r := Fields(show, parse, row, now, slots);
            r.Err? <==> SafeInt(parse, NumberAt(row, "참여업체수_예측")).Err?
    ensures var r := Fields(show, parse, row, now, slots);
            r.Ok? ==>
              |r.value| == 25
              && r.value[13].DecField? && 0.0 <= r.value[13].d <= TfidfMax
              && r.value[15].DecField? && 0.0 <= r.value[15].d <= TfidfMax
              && r.value[17].DecField? && 0.0 <= r.value[17].d <= TfidfMax
              && r.value[23].IntField? && IntMin <= r.value[23].n <= IntMax
              && r.value[24] == NowField(now)
  {
    var r := Fields(show, parse, row, now, slots);
    if r.Ok? {
      var fs := r.value;
      ScoreField(show, parse, row, now, slots[13], fs[13]);
      ScoreField(show, parse, row, now, slots[15], fs[15]);
      ScoreField(show, parse, row, now, slots[17], fs[17]);
      assert Convert(show, parse, row, now, slots[23]) == Ok(fs[23]);
      SafeIntOutcome(parse, NumberAt(row, "참여업체수_예측"));
      assert Convert(show, parse, row, now, slots[24]) == Ok(fs[24]);
    } else if SafeInt(parse, NumberAt(row, "참여업체수_예측")).Ok? {
      assert false;
    } else {
      assert Convert(show, parse, row, now, slots[23]).Err?;
    }
  }

  /** The amounts at 2 to 6 and the predicted rates at 21 and 22 fit their DECIMAL columns. */
  lemma PrepareRowAmounts(show: Cell -> string, parse: string -> Option<Float>, row: map<string, Cell>, now: Moment)
    requires PrepareRow(show, parse, row, now).Ok?
    ensures var fs := PrepareRow(show, parse, row, now).value;
            |fs| == 25
            && fs[2].DecField? && -999999999.0 <= fs[2].d <= 999999999.0
            && fs[3].DecField? && -999.0 <= fs[3].d <= 999.0
            && fs[4].DecField? && -999999999999999999.0 <= fs[4].d <= 999999999999999999.0
            && fs[5].DecField? && -999999999999999999.0 <= fs[5].d <= 999999999999999999.0
            && fs[6].DecField? && -999999999999999999.0 <= fs[6].d <= 999999999999999999.0
            && fs[21].DecField? && -999999999.0 <= fs[21].d <= 999999999.0
            && fs[22].DecField? && -999999999.0 <= fs[22].d <= 999999999.0
  {
    SlotFacts();
    DecimalBounds();
    AmountsOf(show, parse, row, now, RowSlots());
  }

  lemma AmountsOf(show: Cell -> string, parse: string -> Option<Float>, row: map<string, Cell>, now: Moment, slots: seq<Slot>)
    requires |slots| == 25 && Fields(show, parse, row, now, slots).Ok?
    requires forall i :: i in {2, 3, 4, 5, 6, 21, 22} ==> slots[i].DecSlot? && !slots[i].tfidf && slots[i].places <= slots[i].maxDigits
    ensures var fs := Fields(show, parse, row, now, slots).value;
            |fs| == 25
            && forall i :: i in {2, 3, 4, 5, 6, 21, 22} ==>
                 fs[i].DecField? && -DecimalBound(slots[i].maxDigits, slots[i].places) <= fs[i].d <= DecimalBound(slots[i].maxDigits, slots[i].places)
  {
    var fs := Fields(show, parse, row, now, slots).value;
    forall i | i in {2, 3, 4, 5, 6, 21, 22}
      ensures fs[i].DecField? && -DecimalBound(slots[i].maxDigits, slots[i].places) <= fs[i].d <= DecimalBound(slots[i].maxDigits, slots[i].places)
    {
      AmountField(show, parse, row, now, slots[i], fs[i]);
    }
  }
}
