/**
 * The Python string operations the pipeline relies on, written out on
 * `seq<char>` (one element per Unicode code point, as Python's `str`).
 */
module Text {

  /** `sep.join(words)`. */
  function Join(words: seq<string>, sep: string): string
  {
    if |words| == 0 then ""
    else if |words| == 1 then words[0]
    else words[0] + sep + Join(words[1..], sep)
  }

  /** `s.replace(pat, rep)`: one left-to-right pass over non-overlapping occurrences. */
  function Replace(s: string, pat: string, rep: string): string
    requires |pat| > 0
    decreases |s|
  {
    if |s| < |pat| then s
    else if s[..|pat|] == pat then rep + Replace(s[|pat|..], pat, rep)
    else [s[0]] + Replace(s[1..], pat, rep)
  }

  /** Every character of a replacement result comes from the input or from the replacement text. */
  lemma {:induction false} ReplaceDrawsFrom(s: string, pat: string, rep: string, c: char)
    requires |pat| > 0
    requires c in Replace(s, pat, rep)
    ensures c in s || c in rep
    decreases |s|
  {
    if |s| < |pat| {
    } else if s[..|pat|] == pat {
      if c !in rep {
        ReplaceDrawsFrom(s[|pat|..], pat, rep, c);
      }
    } else if c != s[0] {
      ReplaceDrawsFrom(s[1..], pat, rep, c);
    }
  }

  /** Replacing a one-character pattern by text without it removes that character entirely. */
  lemma {:induction false} ReplaceRemovesChar(s: string, pat: string, rep: string)
    requires |pat| == 1 && pat[0] !in rep
    ensures pat[0] !in Replace(s, pat, rep)
    decreases |s|
  {
    if |s| >= |pat| {
      if s[..1] == pat {
        ReplaceRemovesChar(s[1..], pat, rep);
      } else {
        assert s[0] != pat[0] by { assert s[..1] == [s[0]]; }
        ReplaceRemovesChar(s[1..], pat, rep);
      }
    }
  }

  /** Python's replace is single-pass: a match assembled by the removal is left in place. */
  lemma ReplaceIsSinglePass()
    ensures Replace("nn/a/a", "n/a", "") == "n/a"
  {
    assert "nn/a/a"[..3] == "nn/" != "n/a";
    assert "nn/a/a"[1..][..3] == "n/a";
    assert "nn/a/a"[1..][3..] == "/a";
  }

  predicate IsAsciiUpper(c: char) { 'A' <= c <= 'Z' }

  predicate IsAsciiLower(c: char) { 'a' <= c <= 'z' }

  predicate IsAsciiDigit(c: char) { '0' <= c <= '9' }

  /** The Hangul syllable block `가-힣` (U+AC00 to U+D7A3). */
  predicate IsHangulSyllable(c: char) { '가' <= c <= '힣' }

  /** Python's `str.isspace`, which is also what `\s` matches in a `str` pattern. */
  predicate IsSpace(c: char)
  {
    var n := c as int;
    (0x09 <= n <= 0x0d) || (0x1c <= n <= 0x20) || n == 0x85 || n == 0xa0 || n == 0x1680
    || (0x2000 <= n <= 0x200a) || n == 0x2028 || n == 0x2029 || n == 0x202f || n == 0x205f
    || n == 0x3000
  }

  function LowerChar(c: char): char
  {
    if IsAsciiUpper(c) then (c as int + 32) as char else c
  }

  /** `s.lower()` restricted to ASCII letters. */
  function Lower(s: string): (r: string)
    ensures |r| == |s|
    ensures forall i :: 0 <= i < |s| ==> !IsAsciiUpper(r[i])
    ensures forall i :: 0 <= i < |s| ==> (IsAsciiUpper(s[i]) || r[i] == s[i])
  {
    seq(|s|, i requires 0 <= i < |s| => LowerChar(s[i]))
  }

  /** Number of characters of `s` that satisfy `p` (the length of `re.findall` with a one-character class). */
  function Count(s: string, p: char -> bool): (n: nat)
    ensures n <= |s|
  {
    if |s| == 0 then 0 else Count(s[..|s| - 1], p) + (if p(s[|s| - 1]) then 1 else 0)
  }

  lemma {:induction false} CountAppend(s: string, t: string, p: char -> bool)
    ensures Count(s + t, p) == Count(s, p) + Count(t, p)
    decreases |t|
  {
    if |t| == 0 {
      assert s + t == s;
    } else {
      assert (s + t)[..|s + t| - 1] == s + t[..|t| - 1];
      CountAppend(s, t[..|t| - 1], p);
    }
  }

  /** A word of `s.split()` starts at `i`. */
  predicate WordStart(s: string, i: int)
    requires 0 <= i < |s|
  {
    !IsSpace(s[i]) && (i == 0 || IsSpace(s[i - 1]))
  }

  /** `len(s.split())`: the number of maximal runs of non-whitespace characters. */
  function WordCount(s: string): nat
  {
    if |s| == 0 then 0
    else WordCount(s[..|s| - 1]) + (if WordStart(s, |s| - 1) then 1 else 0)
  }

  /** `re.findall(r'\d+', s)`: the maximal runs of digits, in order. */
  function DigitRuns(s: string): (runs: seq<string>)
    ensures forall k :: 0 <= k < |runs| ==> |runs[k]| > 0 && forall j :: 0 <= j < |runs[k]| ==> IsAsciiDigit(runs[k][j])
    decreases |s|
  {
    if |s| == 0 then []
    else if !IsAsciiDigit(s[0]) then DigitRuns(s[1..])
    else
      var n := LeadingDigits(s);
      [s[..n]] + DigitRuns(s[n..])
  }

  /** Length of the run of digits at the front of `s`. */
  function LeadingDigits(s: string): (n: nat)
    ensures n <= |s|
    ensures forall j :: 0 <= j < n ==> IsAsciiDigit(s[j])
    ensures n == |s| || !IsAsciiDigit(s[n])
    ensures |s| > 0 && IsAsciiDigit(s[0]) ==> n > 0
  {
    if |s| == 0 || !IsAsciiDigit(s[0]) then 0 else 1 + LeadingDigits(s[1..])
  }

  /** A run of digits followed by a non-digit (or nothing) is read as one whole run. */
  lemma {:induction false} LeadingDigitsOfRun(a: string, b: string)
    requires forall j :: 0 <= j < |a| ==> IsAsciiDigit(a[j])
    requires |b| == 0 || !IsAsciiDigit(b[0])
    ensures LeadingDigits(a + b) == |a|
  {
    if |a| > 0 {
      assert (a + b)[1..] == a[1..] + b;
      LeadingDigitsOfRun(a[1..], b);
    } else {
      assert a + b == b;
    }
  }

  lemma DigitRunsFront(a: string, b: string)
    requires |a| > 0 && forall j :: 0 <= j < |a| ==> IsAsciiDigit(a[j])
    requires |b| == 0 || !IsAsciiDigit(b[0])
    ensures DigitRuns(a + b) == [a] + DigitRuns(b)
  {
    LeadingDigitsOfRun(a, b);
    assert (a + b)[..|a|] == a && (a + b)[|a|..] == b;
  }

  function DigitOf(c: char): int
  {
    c as int - '0' as int
  }

  /** `int` of two digits. */
  lemma DecimalValueOfTwo(s: string)
    requires |s| == 2 && IsAsciiDigit(s[0]) && IsAsciiDigit(s[1])
    ensures DecimalValue(s) == 10 * DigitOf(s[0]) + DigitOf(s[1])
  {
    var s1 := s[..1];
    assert s1[..0] == [] && s1[0] == s[0];
    assert DecimalValue(s1) == DigitOf(s[0]);
  }

  /** `int` of four digits. */
  lemma DecimalValueOfFour(s: string)
    requires |s| == 4 && forall j :: 0 <= j < 4 ==> IsAsciiDigit(s[j])
    ensures DecimalValue(s) == 1000 * DigitOf(s[0]) + 100 * DigitOf(s[1]) + 10 * DigitOf(s[2]) + DigitOf(s[3])
  {
    var s3 := s[..3];
    var s2 := s3[..2];
    assert s2 == s[..2];
    DecimalValueOfTwo(s2);
    assert s3[..2] == s2 && s[..3] == s3;
  }

  /** `int(digits)` for a string of decimal digits. */
  function DecimalValue(digits: string): (v: nat)
    requires forall j :: 0 <= j < |digits| ==> IsAsciiDigit(digits[j])
  {
    if |digits| == 0 then 0
    else
      assert IsAsciiDigit(digits[|digits| - 1]);
      DecimalValue(digits[..|digits| - 1]) * 10 + (digits[|digits| - 1] as int - '0' as int)
  }

  function DigitChar(d: nat): char
    requires d < 10
  {
    ('0' as int + d) as char
  }

  /** `str(n)` for a natural number. */
  function NatToString(n: nat): (s: string)
    ensures |s| > 0
    ensures forall j :: 0 <= j < |s| ==> IsAsciiDigit(s[j])
  {
    if n < 10 then [DigitChar(n)] else NatToString(n / 10) + [DigitChar(n % 10)]
  }

  /** Parsing the rendering of a number gives the number back. */
  lemma {:induction false} NatToStringRoundTrip(n: nat)
    ensures DecimalValue(NatToString(n)) == n
  {
    if n >= 10 {
      var s := NatToString(n);
      assert s[..|s| - 1] == NatToString(n / 10);
      NatToStringRoundTrip(n / 10);
    }
  }

  /** `f"{n:02d}"` for a natural number. */
  function ZeroPad2(n: nat): (s: string)
    ensures |s| >= 2
    ensures forall j :: 0 <= j < |s| ==> IsAsciiDigit(s[j])
    ensures DecimalValue(s) == n
  {
    NatToStringRoundTrip(n);
    if n < 10 then
      var t := "0" + NatToString(n);
      assert t[..|t| - 1] == "0";
      t
    else NatToString(n)
  }
}
