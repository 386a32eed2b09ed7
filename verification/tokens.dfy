/**
 * `KiwiTokenizer`: text normalisation, the part-of-speech filter that keeps
 * meaningful morphemes, and the two dictionary look-ups. The morphological
 * analyser itself (`kiwi.tokenize`) is a parameter.
 */
module KiwiTokens {

  import opened Wrappers
  import opened Text

  /** A morpheme as the analyser reports it. */
  datatype Token = Token(form: string, tag: string)

  /** Tags of the morphemes kept: determiners, nouns, foreign words, prefixes, adverbs, numbers, symbols, serials. */
  const KeptTags: seq<string> := ["MM", "NNG", "NNB", "NNP", "SL", "XPN", "MAG", "SN", "SO", "W_SERIAL"]

  /**
   * The text handed to the analyser. `None` stands for a NaN or None cell;
   * `Some(s)` carries `str(value)` of any other cell.
   */
  function Normalize(key: Option<string>): string
  {
    match key
    case None => ""
    case Some(s) => Replace(Replace(Replace(Lower(s), "(", " "), ")", " "), "n/a", "")
  }

  /** The forms of the kept tokens, in token order. */
  function KeptForms(tokens: seq<Token>): seq<string>
  {
    if |tokens| == 0 then []
    else KeptForms(tokens[..|tokens| - 1])
         + (if tokens[|tokens| - 1].tag in KeptTags then [tokens[|tokens| - 1].form] else [])
  }

  /** The cleaned line: the kept forms joined by single spaces. */
  function CleanLine(tokenize: string -> seq<Token>, key: Option<string>): string
  {
    Join(KeptForms(tokenize(Normalize(key))), " ")
  }

  /** `cleared_line`. */
  method ClearedLine(tokenize: string -> seq<Token>, line: Option<string>) returns (r: string)
    ensures r == CleanLine(tokenize, line)
  {
    var key := Normalize(line);
    var tokens := tokenize(key);
    var nmWords: seq<string> := [];
    var j := 0;
    while j < |tokens|
      invariant 0 <= j <= |tokens|
      invariant nmWords == KeptForms(tokens[..j])
    {
      assert tokens[..j + 1][..j] == tokens[..j];
      if tokens[j].tag in KeptTags {
        nmWords := nmWords + [tokens[j].form];
      }
      j := j + 1;
    }
    assert tokens[..|tokens|] == tokens;
    r := Join(nmWords, " ");
  }

  /** `cleared_lines_from`: one cleaned line per input line. */
  method ClearedLinesFrom(tokenize: string -> seq<Token>, orglines: seq<Option<string>>) returns (lines: seq<string>)
    ensures |lines| == |orglines|
    ensures forall i :: 0 <= i < |lines| ==> lines[i] == CleanLine(tokenize, orglines[i])
  {
    lines := [];
    for i := 0 to |orglines|
      invariant |lines| == i
      invariant forall r :: 0 <= r < i ==> lines[r] == CleanLine(tokenize, orglines[r])
    {
      var line := ClearedLine(tokenize, orglines[i]);
      lines := lines + [line];
    }
  }

  /** `nn_only`, which repeats the cleaning inline for every line. */
  method NnOnly(tokenize: string -> seq<Token>, orglines: seq<Option<string>>) returns (lines: seq<string>)
    ensures |lines| == |orglines|
    ensures forall i :: 0 <= i < |lines| ==> lines[i] == CleanLine(tokenize, orglines[i])
  {
    lines := [];
    for i := 0 to |orglines|
      invariant |lines| == i
      invariant forall r :: 0 <= r < i ==> lines[r] == CleanLine(tokenize, orglines[r])
    {
      var key := Normalize(orglines[i]);
      var tokens := tokenize(key);
      var nmWords: seq<string> := [];
      for j := 0 to |tokens|
        invariant nmWords == KeptForms(tokens[..j])
      {
        assert tokens[..j + 1][..j] == tokens[..j];
        if tokens[j].tag in KeptTags {
          nmWords := nmWords + [tokens[j].form];
        }
      }
      assert tokens[..|tokens|] == tokens;
      LinesStep(tokenize, orglines, lines, Join(nmWords, " "));
      lines := lines + [Join(nmWords, " ")];
    }
  }

  /** Appending the cleaned next line keeps the lines cleaned so far. */
  lemma LinesStep(tokenize: string -> seq<Token>, orglines: seq<Option<string>>, lines: seq<string>, line: string)
    requires |lines| < |orglines| && line == CleanLine(tokenize, orglines[|lines|])
    requires forall r :: 0 <= r < |lines| ==> lines[r] == CleanLine(tokenize, orglines[r])
    ensures forall r :: 0 <= r < |lines| + 1 ==> (lines + [line])[r] == CleanLine(tokenize, orglines[r])
  {
  }

  /** The analyser never sees a parenthesis, and never an ASCII capital. */
  lemma NormalizedTextIsClean(key: Option<string>, c: char)
    requires c in Normalize(key)
    ensures c != '(' && c != ')'
    ensures !IsAsciiUpper(c)
  {
    if key.Some? {
      var s0 := Lower(key.value);
      var s1 := Replace(s0, "(", " ");
      var s2 := Replace(s1, ")", " ");
      ReplaceRemovesChar(s0, "(", " ");
      ReplaceRemovesChar(s1, ")", " ");
      ReplaceDrawsFrom(s2, "n/a", "", c);
      ReplaceDrawsFrom(s1, ")", " ", c);
      if c != ' ' {
        ReplaceDrawsFrom(s0, "(", " ", c);
      }
    }
  }

  /** A missing cell becomes the empty line when the analyser finds no token in empty text. */
  lemma MissingCellGivesEmptyLine(tokenize: string -> seq<Token>)
    requires tokenize("") == []
    ensures CleanLine(tokenize, None) == ""
  {
  }

  lemma {:induction false} KeptFormsAppend(a: seq<Token>, b: seq<Token>)
    ensures KeptForms(a + b) == KeptForms(a) + KeptForms(b)
    decreases |b|
  {
    if |b| == 0 {
      assert a + b == a;
    } else {
      assert (a + b)[..|a + b| - 1] == a + b[..|b| - 1];
      KeptFormsAppend(a, b[..|b| - 1]);
    }
  }

  /** A form is kept exactly when some token carries it with a kept tag. */
  lemma {:induction false} KeptFormsMembership(tokens: seq<Token>, w: string)
    ensures w in KeptForms(tokens) <==> exists t :: t in tokens && t.form == w && t.tag in KeptTags
  {
    if |tokens| > 0 {
      var init := tokens[..|tokens| - 1];
      KeptFormsMembership(init, w);
      assert tokens == init + [tokens[|tokens| - 1]];
    }
  }

  /** The key of the first entry, in dictionary order, whose value is `val`. */
  function FirstKey<V(==)>(voca: seq<(string, V)>, val: V): Option<string>
  {
    if |voca| == 0 then None
    else if voca[0].1 == val then Some(voca[0].0)
    else FirstKey(voca[1..], val)
  }

  /** `get_key`, with the dictionary as its items in insertion order. */
  method GetKey<V(==)>(voca: seq<(string, V)>, val: V) returns (key: string)
    ensures key == match FirstKey(voca, val) case Some(k) => k case None => "key doesn't exist"
  {
    var i := 0;
    while i < |voca|
      invariant 0 <= i <= |voca|
      invariant FirstKey(voca, val) == FirstKey(voca[i..], val)
    {
      if voca[i].1 == val {
        return voca[i].0;
      }
      assert voca[i..][1..] == voca[i + 1..];
      i := i + 1;
    }
    key := "key doesn't exist";
  }

  /** `FirstKey` finds exactly the earliest matching entry. */
  lemma {:induction false} FirstKeyIsEarliest<V>(voca: seq<(string, V)>, val: V, k: string)
    ensures FirstKey(voca, val) == Some(k)
            <==> exists i :: 0 <= i < |voca| && voca[i] == (k, val) && forall j :: 0 <= j < i ==> voca[j].1 != val
  {
    if |voca| > 0 && voca[0].1 != val {
      FirstKeyIsEarliest(voca[1..], val, k);
      if FirstKey(voca, val) == Some(k) {
        var i :| 0 <= i < |voca[1..]| && voca[1..][i] == (k, val) && forall j :: 0 <= j < i ==> voca[1..][j].1 != val;
        assert voca[i + 1] == (k, val);
        assert forall j :: 0 <= j < i + 1 ==> voca[j].1 != val by {
          forall j | 0 <= j < i + 1 ensures voca[j].1 != val {
            if j > 0 { assert voca[j] == voca[1..][j - 1]; }
          }
        }
      }
      if exists i :: 0 <= i < |voca| && voca[i] == (k, val) && forall j :: 0 <= j < i ==> voca[j].1 != val {
        var i :| 0 <= i < |voca| && voca[i] == (k, val) && forall j :: 0 <= j < i ==> voca[j].1 != val;
        assert i > 0;
        assert voca[1..][i - 1] == (k, val);
        assert forall j :: 0 <= j < i - 1 ==> voca[1..][j].1 != val by {
          forall j | 0 <= j < i - 1 ensures voca[1..][j].1 != val {
            assert voca[1..][j] == voca[j + 1];
          }
        }
      }
    }
  }

  /** Every key whose value is `val`, in dictionary order. */
  function KeysOf<V(==)>(voca: seq<(string, V)>, val: V): seq<string>
  {
    if |voca| == 0 then []
    else KeysOf(voca[..|voca| - 1], val) + (if voca[|voca| - 1].1 == val then [voca[|voca| - 1].0] else [])
  }

  /** The keys of every value in `vals`, value by value. */
  function KeysOfAll<V(==)>(voca: seq<(string, V)>, vals: seq<V>): seq<string>
  {
    if |vals| == 0 then [] else KeysOfAll(voca, vals[..|vals| - 1]) + KeysOf(voca, vals[|vals| - 1])
  }

  /** `conv_words`: every key of every value, joined by spaces. */
  method ConvWords<V(==)>(voca: seq<(string, V)>, vals: seq<V>) returns (r: string)
    ensures r == Join(KeysOfAll(voca, vals), " ")
  {
    var ret: seq<string> := [];
    for i := 0 to |vals|
      invariant ret == KeysOfAll(voca, vals[..i])
    {
      assert vals[..i + 1][..i] == vals[..i];
      ghost var before := ret;
      for j := 0 to |voca|
        invariant ret == before + KeysOf(voca[..j], vals[i])
      {
        assert voca[..j + 1][..j] == voca[..j];
        if vals[i] == voca[j].1 {
          ret := ret + [voca[j].0];
        }
      }
      assert voca[..|voca|] == voca;
    }
    assert vals[..|vals|] == vals;
    r := Join(ret, " ");
  }

  /** A key is listed for `val` exactly when the dictionary maps it to `val`. */
  lemma {:induction false} KeysOfMembership<V>(voca: seq<(string, V)>, val: V, k: string)
    ensures k in KeysOf(voca, val) <==> (k, val) in voca
  {
    if |voca| > 0 {
      var init := voca[..|voca| - 1];
      KeysOfMembership(init, val, k);
      assert voca == init + [voca[|voca| - 1]];
    }
  }
}
