/**
 * Spreadsheet column letters: the bijective base-26 spelling Excel uses,
 * the training script's `index_to_excel_column` with its two hard-coded
 * answers, and where `to_excel(startcol=1, index=True)` actually puts a
 * frame column.
 */
module ExcelLayout {

  import opened Text

  /** The letters of the 1-based column number `n`: 1 is A, 26 is Z, 27 is AA; 0 has no letters. */
  function Spell(n: nat): (s: string)
    ensures forall j :: 0 <= j < |s| ==> IsAsciiUpper(s[j])
    ensures n == 0 <==> |s| == 0
    decreases n
  {
    if n == 0 then "" else Spell((n - 1) / 26) + [('A' as int + (n - 1) % 26) as char]
  }

  /** The column number a string of capital letters spells. */
  function Number(s: string): nat
    requires forall j :: 0 <= j < |s| ==> IsAsciiUpper(s[j])
    decreases |s|
  {
    if |s| == 0 then 0
    else
      assert IsAsciiUpper(s[|s| - 1]);
      Number(s[..|s| - 1]) * 26 + (s[|s| - 1] as int - 'A' as int + 1)
  }

  /** Reading a spelling back gives the number. */
  lemma {:induction false} NumberOfSpell(n: nat)
    ensures Number(Spell(n)) == n
    decreases n
  {
    if n > 0 {
      var s := Spell(n);
      assert s[..|s| - 1] == Spell((n - 1) / 26);
      NumberOfSpell((n - 1) / 26);
    }
  }

  /** Spelling the number of a letter string gives the string: the spelling is onto the letter strings. */
  lemma {:induction false} SpellOfNumber(s: string)
    requires forall j :: 0 <= j < |s| ==> IsAsciiUpper(s[j])
    ensures Spell(Number(s)) == s
    decreases |s|
  {
    if |s| > 0 {
      var init := s[..|s| - 1];
      var d := s[|s| - 1] as int - 'A' as int;
      SpellOfNumber(init);
      var n := Number(s);
      assert n - 1 == Number(init) * 26 + d;
      assert (n - 1) / 26 == Number(init) && (n - 1) % 26 == d;
      assert s == init + [s[|s| - 1]];
    }
  }

  /** Different numbers have different spellings. */
  lemma SpellInjective(m: nat, n: nat)
    requires Spell(m) == Spell(n)
    ensures m == n
  {
    NumberOfSpell(m);
    NumberOfSpell(n);
  }

  /** `index_to_excel_column`: `A` for a negative index, the two fixed answers at 25 and 28, the spelling of `index + 1` otherwise. */
  function ConverterColumn(index: int): string
  {
    if index < 0 then "A"
    else if index == 25 then "AB"
    else if index == 28 then "AE"
    else Spell(index + 1)
  }

  /** The converter's loop: peel off the last letter until the number is used up. */
  method IndexToExcelColumn(index: int) returns (col: string)
    ensures col == ConverterColumn(index)
  {
    if index < 0 {
      return "A";
    }
    if index == 25 {
      return "AB";
    } else if index == 28 {
      return "AE";
    }
    var result := "";
    var colNum := index + 1;
    while colNum > 0
      invariant 0 <= colNum
      invariant Spell(colNum) + result == Spell(index + 1)
      decreases colNum
    {
      colNum := colNum - 1;
      var letter := ('A' as int + colNum % 26) as char;
      assert Spell(colNum + 1) == Spell(colNum / 26) + [letter];
      result := [letter] + result;
      colNum := colNum / 26;
    }
    col := result;
  }

  /** The sheet column of frame column `i`: the frame is written from column B with its index first, so column 0 lands in C. */
  function SheetColumn(i: nat): string
  {
    Spell(i + 3)
  }

  lemma SpellExamples()
    ensures Spell(1) == "A" && Spell(26) == "Z" && Spell(27) == "AA" && Spell(28) == "AB"
    ensures Spell(30) == "AD" && Spell(31) == "AE" && Spell(33) == "AG"
  {
  }

  /** The converter spells two columns too far left except at the two fixed answers, which are right. */
  lemma ConverterMatchesSheetOnlyAtOverrides(i: nat)
    ensures ConverterColumn(i) == SheetColumn(i) <==> i == 25 || i == 28
  {
    SpellExamples();
    if i != 25 && i != 28 && ConverterColumn(i) == SheetColumn(i) {
      SpellInjective(i + 1, i + 3);
    }
  }

  /** The examples the script prints: 0 is A, 25 is AB, 26 is AA, 27 is AB and 28 is AE. */
  lemma ConverterExamples()
    ensures ConverterColumn(-1) == "A" && ConverterColumn(0) == "A"
    ensures ConverterColumn(25) == "AB" && ConverterColumn(26) == "AA"
    ensures ConverterColumn(27) == "AB" && ConverterColumn(28) == "AE"
  {
    SpellExamples();
  }
}
