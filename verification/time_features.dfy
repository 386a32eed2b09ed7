/**
 * `create_time_features`: the date hidden in a bid number, and the calendar
 * columns derived from it when at least one bid number carries a date.
 */
module TimeFeatures {

  import opened Wrappers
  import opened Floats
  import opened Frames
  import opened Text

  const BidNumber := "입찰번호"
  const BidDate := "입찰날짜"

  /** The columns written after the date column, in the order they are written. */
  const CalendarColumns: seq<string> := ["입찰년도", "입찰월", "입찰일", "입찰요일", "입찰분기", "계절", "계절_숫자"]

  predicate IsLeapYear(y: int)
  {
    y % 4 == 0 && (y % 100 != 0 || y % 400 == 0)
  }

  function DaysInMonth(y: int, m: int): int
    requires 1 <= m <= 12
  {
    if m == 2 then (if IsLeapYear(y) then 29 else 28)
    else if m == 4 || m == 6 || m == 9 || m == 11 then 30
    else 31
  }

  /** The arguments `datetime(year, month, day)` accepts without raising `ValueError`. */
  predicate IsCalendarDate(y: int, m: int, d: int)
  {
    1 <= y <= 9999 && 1 <= m <= 12 && 1 <= d <= DaysInMonth(y, m)
  }

  ghost predicate AllDigits(runs: seq<string>)
  {
    forall k, j :: 0 <= k < |runs| && 0 <= j < |runs[k]| ==> IsAsciiDigit(runs[k][j])
  }

  /** `(int(num[:4]), int(num[4:6]), int(num[6:8]))` of a run of at least 8 digits. */
  function RunDate(num: string): Date
    requires |num| >= 8 && forall j :: 0 <= j < |num| ==> IsAsciiDigit(num[j])
  {
    Date(DecimalValue(num[..4]), DecimalValue(num[4..6]), DecimalValue(num[6..8]))
  }

  /** A run the extractor stops at: at least 8 digits whose fields pass the range test. */
  predicate Candidate(num: string)
    requires forall j :: 0 <= j < |num| ==> IsAsciiDigit(num[j])
  {
    |num| >= 8 &&
    var d := RunDate(num);
    2020 <= d.year <= 2030 && 1 <= d.month <= 12 && 1 <= d.day <= 31
  }

  /** The loop over the digit runs: the first candidate decides; an impossible date ends the scan with `None`. */
  function Scan(runs: seq<string>): Option<Date>
    requires AllDigits(runs)
  {
    if |runs| == 0 then None
    else
      assert forall j :: 0 <= j < |runs[0]| ==> IsAsciiDigit(runs[0][j]);
      if Candidate(runs[0]) then
        var d := RunDate(runs[0]);
        if IsCalendarDate(d.year, d.month, d.day) then Some(d) else None
      else Scan(runs[1..])
  }

  /** `extract_date_from_bid_number(bid_number)`. */
  function ExtractDate(bid: Obj): Option<Date>
  {
    Scan(DigitRuns(CellText(bid)))
  }

  /** The nested function as the source writes it: a loop over the digit runs with early returns. */
  method ExtractDateFromBidNumber(bid: Obj) returns (d: Option<Date>)
    ensures d == ExtractDate(bid)
  {
    var numbers := DigitRuns(CellText(bid));
    var i := 0;
    while i < |numbers|
      invariant 0 <= i <= |numbers|
      invariant Scan(numbers) == Scan(numbers[i..])
    {
      var num := numbers[i];
      assert numbers[i..][0] == num && numbers[i..][1..] == numbers[i + 1..];
      if |num| >= 8 {
        var year := DecimalValue(num[..4]);
        var month := DecimalValue(num[4..6]);
        var day := DecimalValue(num[6..8]);
        if 2020 <= year <= 2030 && 1 <= month <= 12 && 1 <= day <= 31 {
          if IsCalendarDate(year, month, day) {
            return Some(Date(year, month, day));
          }
          // `datetime` raises `ValueError`; the bare `except` swallows it and the function returns `None`.
          return None;
        }
      }
      i := i + 1;
    }
    return None;
  }

  /** `df['입찰번호'].apply(extract_date_from_bid_number)`. */
  method ExtractDates(os: seq<Obj>) returns (ds: seq<Option<Date>>)
    ensures |ds| == |os|
    ensures forall i :: 0 <= i < |os| ==> ds[i] == ExtractDate(os[i])
  {
    ds := [];
    for i := 0 to |os|
      invariant |ds| == i
      invariant forall j :: 0 <= j < i ==> ds[j] == ExtractDate(os[j])
    {
      var d := ExtractDateFromBidNumber(os[i]);
      DatesStep(os, ds, d);
      ds := ds + [d];
    }
  }

  /** Appending the date of the next bid number keeps the dates of the earlier ones. */
  lemma DatesStep(os: seq<Obj>, ds: seq<Option<Date>>, d: Option<Date>)
    requires |ds| < |os| && d == ExtractDate(os[|ds|])
    requires forall j :: 0 <= j < |ds| ==> ds[j] == ExtractDate(os[j])
    ensures forall j :: 0 <= j < |ds| + 1 ==> (ds + [d])[j] == ExtractDate(os[j])
  {
  }

  /** Day of the week as `dt.dayofweek` numbers it: Monday is 0 and Sunday is 6. */
  function DayOfWeek(d: Date): (w: int)
    requires 1 <= d.month <= 12
    ensures 0 <= w < 7
  {
    var offsets: seq<int> := [0, 3, 2, 5, 0, 3, 5, 1, 4, 6, 2, 4];
    var y := if d.month < 3 then d.year - 1 else d.year;
    var sundayBased := (y + y / 4 - y / 100 + y / 400 + offsets[d.month - 1] + d.day) % 7;
    (sundayBased + 6) % 7
  }

  function Quarter(m: int): int
    requires 1 <= m <= 12
  {
    (m - 1) / 3 + 1
  }

  /** The month test of the season lambda; a missing month (NaN) is in no list, so it is winter. */
  function Season(month: Float): string
  {
    if month == Fin(3.0) || month == Fin(4.0) || month == Fin(5.0) then "봄"
    else if month == Fin(6.0) || month == Fin(7.0) || month == Fin(8.0) then "여름"
    else if month == Fin(9.0) || month == Fin(10.0) || month == Fin(11.0) then "가을"
    else "겨울"
  }

  /** `season_map`; a name outside it maps to NaN. */
  function SeasonNumber(name: string): Float
  {
    if name == "봄" then Fin(1.0)
    else if name == "여름" then Fin(2.0)
    else if name == "가을" then Fin(3.0)
    else if name == "겨울" then Fin(4.0)
    else NaN
  }

  /** A `dt` accessor: the field of each date, NaN for NaT. */
  function DatePart(ds: seq<Option<Date>>, part: Date -> int): (r: seq<Float>)
    ensures |r| == |ds|
    ensures forall i :: 0 <= i < |ds| ==> r[i] == if ds[i].Some? then Fin(part(ds[i].value) as real) else NaN
  {
    seq(|ds|, i requires 0 <= i < |ds| => if ds[i].Some? then Fin(part(ds[i].value) as real) else NaN)
  }

  function Year(d: Date): int { d.year }
  function Month(d: Date): int { d.month }
  function Day(d: Date): int { d.day }

  /** A date that `ExtractDate` produced is a real calendar date. */
  ghost predicate Extracted(ds: seq<Option<Date>>)
  {
    forall i :: 0 <= i < |ds| && ds[i].Some? ==> IsCalendarDate(ds[i].value.year, ds[i].value.month, ds[i].value.day)
  }

  function Weekday(d: Date): int
  {
    if 1 <= d.month <= 12 then DayOfWeek(d) else 0
  }

  function QuarterOf(d: Date): int
  {
    if 1 <= d.month <= 12 then Quarter(d.month) else 0
  }

  function SeasonColumn(months: seq<Float>): (r: seq<Obj>)
    ensures |r| == |months|
    ensures forall i :: 0 <= i < |months| ==> r[i] == Str(Season(months[i]))
  {
    seq(|months|, i requires 0 <= i < |months| => Str(Season(months[i])))
  }

  function SeasonNumberColumn(names: seq<Obj>): (r: seq<Float>)
    ensures |r| == |names|
  {
    seq(|names|, i requires 0 <= i < |names| => if names[i].Str? then SeasonNumber(names[i].s) else NaN)
  }

  /** The bid-number column, when present, holds objects. */
  ghost predicate Readable(t: Table)
  {
    t.Valid() && (BidNumber in t.cols ==> t.cols[BidNumber].Objs?)
  }

  /** Whether `df['입찰날짜'].notna().any()`. */
  predicate AnyDate(ds: seq<Option<Date>>)
  {
    exists i :: 0 <= i < |ds| && ds[i].Some?
  }

  function SetColumn(t: Table, name: string, c: Column): (u: Table)
    requires t.Valid() && c.Len() == t.rows
    ensures u.Valid() && u.rows == t.rows && u == t.Set(name, c)
  {
    SetValid(t, name, c);
    t.Set(name, c)
  }

  /** The seven calendar columns, the last two read back from the month and season columns. */
  function AddCalendar(t: Table, ds: seq<Option<Date>>): (u: Table)
    requires t.Valid() && |ds| == t.rows
    ensures u.Valid() && u.rows == t.rows
    ensures forall n :: n in u.cols <==> n in t.cols || n in CalendarColumns
    ensures forall n :: n in t.cols && n !in CalendarColumns ==> u.cols[n] == t.cols[n]
  {
    var t1 := SetColumn(t, "입찰년도", Nums(DatePart(ds, Year)));
    var t2 := SetColumn(t1, "입찰월", Nums(DatePart(ds, Month)));
    var t3 := SetColumn(t2, "입찰일", Nums(DatePart(ds, Day)));
    var t4 := SetColumn(t3, "입찰요일", Nums(DatePart(ds, Weekday)));
    var t5 := SetColumn(t4, "입찰분기", Nums(DatePart(ds, QuarterOf)));
    var seasons := SeasonColumn(DatePart(ds, Month));
    var t6 := SetColumn(t5, "계절", Objs(seasons));
    SetColumn(t6, "계절_숫자", Nums(SeasonNumberColumn(seasons)))
  }

  /** The date of every bid number, in row order. */
  function BidDates(os: seq<Obj>): (ds: seq<Option<Date>>)
    ensures |ds| == |os| && forall i :: 0 <= i < |os| ==> ds[i] == ExtractDate(os[i])
  {
    seq(|os|, i requires 0 <= i < |os| => ExtractDate(os[i]))
  }

  /** The frame after `create_time_features`. */
  function TimeFeatures(t: Table): (u: Table)
    requires Readable(t)
    ensures u.Valid() && u.rows == t.rows
  {
    if BidNumber in t.cols then
      var os := t.cols[BidNumber].os;
      var ds := BidDates(os);
      var t1 := SetColumn(t, BidDate, Dates(ds));
      if AnyDate(ds) then AddCalendar(t1, ds) else t1
    else t
  }

  /** `create_time_features(df)`. */
  method CreateTimeFeatures(df: DataFrame)
    requires df.Valid() && Readable(df.Value())
    modifies df
    ensures df.Valid() && df.Value() == TimeFeatures(old(df.Value()))
  {
    if BidNumber in df.cols {
      var os := df.cols[BidNumber].os;
      var ds := ExtractDates(os);
      assert ds == BidDates(os);
      df.Assign(BidDate, Dates(ds));
      if exists i :: 0 <= i < |ds| && ds[i].Some? {
        AddCalendarColumns(df, ds);
      }
    }
  }

  method AddCalendarColumns(df: DataFrame, ds: seq<Option<Date>>)
    requires df.Valid() && |ds| == df.rows
    modifies df
    ensures df.Valid() && df.Value() == AddCalendar(old(df.Value()), ds)
  {
    ghost var t := df.Value();
    df.Assign("입찰년도", Nums(DatePart(ds, Year)));
    ghost var t1 := df.Value();
    assert t1 == SetColumn(t, "입찰년도", Nums(DatePart(ds, Year)));
    df.Assign("입찰월", Nums(DatePart(ds, Month)));
    ghost var t2 := df.Value();
    assert t2 == SetColumn(t1, "입찰월", Nums(DatePart(ds, Month)));
    df.Assign("입찰일", Nums(DatePart(ds, Day)));
    df.Assign("입찰요일", Nums(DatePart(ds, Weekday)));
    df.Assign("입찰분기", Nums(DatePart(ds, QuarterOf)));
    var months := df.cols["입찰월"].xs;
    assert months == DatePart(ds, Month);
    df.Assign("계절", Objs(SeasonColumn(months)));
    var seasons := df.cols["계절"].os;
    df.Assign("계절_숫자", Nums(SeasonNumberColumn(seasons)));
  }

  /** `Scan` returns exactly what the first candidate run dictates. */
  lemma {:induction false} ScanStopsAtFirstCandidate(runs: seq<string>, i: nat)
    requires AllDigits(runs) && i < |runs|
    requires forall j :: 0 <= j <= i ==> forall k :: 0 <= k < |runs[j]| ==> IsAsciiDigit(runs[j][k])
    requires Candidate(runs[i]) && forall j :: 0 <= j < i ==> !Candidate(runs[j])
    ensures var d := RunDate(runs[i]);
            Scan(runs) == if IsCalendarDate(d.year, d.month, d.day) then Some(d) else None
  {
    if i > 0 {
      assert !Candidate(runs[0]);
      var rest := runs[1..];
      forall j | 0 <= j < i - 1 ensures !Candidate(rest[j]) {
        assert rest[j] == runs[j + 1];
      }
      ScanStopsAtFirstCandidate(rest, i - 1);
    }
  }

  /** With no candidate run the scan finds nothing. */
  lemma {:induction false} ScanWithoutCandidate(runs: seq<string>)
    requires AllDigits(runs)
    requires forall j :: 0 <= j < |runs| ==> !Candidate(runs[j])
    ensures Scan(runs) == None
  {
    if |runs| > 0 {
      assert !Candidate(runs[0]);
      var rest := runs[1..];
      forall j | 0 <= j < |rest| ensures !Candidate(rest[j]) {
        assert rest[j] == runs[j + 1];
      }
      ScanWithoutCandidate(rest);
    }
  }

  /** A date the scan returns comes from the first candidate run and is a calendar date of 2020 to 2030. */
  lemma {:induction false} ScanFound(runs: seq<string>)
    requires AllDigits(runs) && Scan(runs).Some?
    ensures exists i :: 0 <= i < |runs| && Candidate(runs[i]) && (forall j :: 0 <= j < i ==> !Candidate(runs[j]))
                        && Scan(runs) == Some(RunDate(runs[i]))
    ensures var d := Scan(runs).value;
            2020 <= d.year <= 2030 && IsCalendarDate(d.year, d.month, d.day)
  {
    if !Candidate(runs[0]) {
      var rest := runs[1..];
      ScanFound(rest);
      var i :| 0 <= i < |rest| && Candidate(rest[i]) && (forall j :: 0 <= j < i ==> !Candidate(rest[j]))
               && Scan(rest) == Some(RunDate(rest[i]));
      assert rest[i] == runs[i + 1];
      forall j | 0 <= j < i + 1 ensures !Candidate(runs[j]) {
        if j > 0 {
          assert runs[j] == rest[j - 1];
        }
      }
    }
  }

  /** The three fields of a run, digit by digit. */
  lemma RunDateDigits(num: string)
    requires |num| >= 8 && forall j :: 0 <= j < |num| ==> IsAsciiDigit(num[j])
    ensures RunDate(num) == Date(1000 * DigitOf(num[0]) + 100 * DigitOf(num[1]) + 10 * DigitOf(num[2]) + DigitOf(num[3]),
                                 10 * DigitOf(num[4]) + DigitOf(num[5]),
                                 10 * DigitOf(num[6]) + DigitOf(num[7]))
  {
    DecimalValueOfFour(num[..4]);
    DecimalValueOfTwo(num[4..6]);
    DecimalValueOfTwo(num[6..8]);
  }

  /** The example of the source's comment: `20241201001` holds 2024-12-01. */
  lemma ExtractDateExample(s: string)
    requires s == "20241201001"
    ensures ExtractDate(Str(s)) == Some(Date(2024, 12, 1))
  {
    DigitRunsFront(s, "");
    assert s + "" == s;
    RunDateDigits(s);
    ScanStopsAtFirstCandidate([s], 0);
  }

  /** 2024-12-01 was a Sunday. */
  lemma DayOfWeekExample()
    ensures DayOfWeek(Date(2024, 12, 1)) == 6
  {
  }

  /** A run that passes the range test but is no calendar date ends the scan: the later valid run is never reached. */
  lemma ExtractDateAborts(a: string, b: string)
    requires a == "20230230" && b == "-20241201"
    ensures ExtractDate(Str(a + b)) == None
  {
    DigitRunsFront(a, b);
    RunDateDigits(a);
    ScanStopsAtFirstCandidate(DigitRuns(a + b), 0);
  }

  /** Quarters run from 1 to 4. */
  lemma QuarterRange(m: int)
    requires 1 <= m <= 12
    ensures 1 <= Quarter(m) <= 4
    ensures Quarter(m) == 1 <==> m <= 3
  {
  }

  /** The season numbers of the twelve months: spring 3–5, summer 6–8, autumn 9–11, winter otherwise. */
  lemma SeasonOfMonth(m: int)
    requires 1 <= m <= 12
    ensures SeasonNumber(Season(Fin(m as real))) == Fin(1.0) <==> 3 <= m <= 5
    ensures SeasonNumber(Season(Fin(m as real))) == Fin(2.0) <==> 6 <= m <= 8
    ensures SeasonNumber(Season(Fin(m as real))) == Fin(3.0) <==> 9 <= m <= 11
    ensures SeasonNumber(Season(Fin(m as real))) == Fin(4.0) <==> m <= 2 || m == 12
  {
  }

  /** A row without a date has month NaN, which the lambda sends to winter. */
  lemma MissingMonthIsWinter()
    ensures Season(NaN) == "겨울" && SeasonNumber(Season(NaN)) == Fin(4.0)
  {
  }

  /** Without `입찰번호` the frame is returned unchanged. */
  lemma NoBidNumberNoChange(t: Table)
    requires Readable(t) && BidNumber !in t.cols
    ensures TimeFeatures(t) == t
  {
  }

  /** With `입찰번호`, the date column holds the extracted dates, and the calendar columns are there
      exactly when some date was extracted. */
  lemma CalendarColumnsGuard(t: Table, n: string)
    requires Readable(t) && BidNumber in t.cols && n in CalendarColumns && n !in t.cols
    ensures var os := t.cols[BidNumber].os; var u := TimeFeatures(t);
            && BidDate in u.cols
            && u.cols[BidDate] == Dates(BidDates(os))
            && (n in u.cols <==> exists i :: 0 <= i < |os| && ExtractDate(os[i]).Some?)
  {
    var os := t.cols[BidNumber].os;
    var ds := BidDates(os);
    var t1 := SetColumn(t, BidDate, Dates(ds));
    assert TimeFeatures(t) == if AnyDate(ds) then AddCalendar(t1, ds) else t1;
    DateNotCalendar();
    assert n != BidDate && n !in t1.cols && t1.cols[BidDate] == Dates(ds);
    CalendarGuard(t1, ds, n);
    AnyDateOfBids(os, ds);
  }

  /** The calendar step keeps the date column and adds a calendar column exactly when some date is there. */
  lemma CalendarGuard(t1: Table, ds: seq<Option<Date>>, n: string)
    requires t1.Valid() && |ds| == t1.rows && BidDate in t1.cols && n in CalendarColumns && n !in t1.cols
    ensures var u := if AnyDate(ds) then AddCalendar(t1, ds) else t1;
            BidDate in u.cols && u.cols[BidDate] == t1.cols[BidDate] && (n in u.cols <==> AnyDate(ds))
  {
    DateNotCalendar();
  }

  /** The date column is not one of the calendar columns. */
  lemma DateNotCalendar()
    ensures BidDate !in CalendarColumns
  {
    var c := CalendarColumns;
    assert BidDate[2] == '날';
    assert c[0][2] == '년' && c[3][2] == '요' && c[4][2] == '분';
    assert |c[1]| == 3 && |c[2]| == 3 && |c[5]| == 2 && |c[6]| == 5;
  }

  /** Some date was extracted exactly when some bid number yields one. */
  lemma AnyDateOfBids(os: seq<Obj>, ds: seq<Option<Date>>)
    requires |ds| == |os| && forall i :: 0 <= i < |os| ==> ds[i] == ExtractDate(os[i])
    ensures AnyDate(ds) <==> exists i :: 0 <= i < |os| && ExtractDate(os[i]).Some?
  {
    if AnyDate(ds) {
      var i :| 0 <= i < |ds| && ds[i].Some?;
      assert ExtractDate(os[i]).Some?;
    }
  }

  lemma AddCalendarAdds(t: Table, ds: seq<Option<Date>>, n: string)
    requires t.Valid() && |ds| == t.rows && n in CalendarColumns
    ensures n in AddCalendar(t, ds).cols
  {
  }

  lemma AddCalendarKeeps(t: Table, ds: seq<Option<Date>>, n: string)
    requires t.Valid() && |ds| == t.rows && n !in CalendarColumns
    ensures Keeps(t, AddCalendar(t, ds), n)
  {
  }

  /** The transform writes only the date column and the seven calendar columns. */
  lemma TimeFeaturesKeeps(t: Table, n: string)
    requires Readable(t) && n != BidDate && n !in CalendarColumns
    ensures Keeps(t, TimeFeatures(t), n)
  {
  }
}
