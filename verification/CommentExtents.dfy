/** Where literals and comments end, said of the characters themselves rather than of the
    scan that finds the place. */
module CommentExtents {
  import opened CommentScanner
  import opened CommentRewriter

  // ----- quoted literals

  /** An odd number of backslashes stands right before `k`, not counting before `from`. */
  predicate Escaped(text: string, from: nat, k: nat)
    requires k <= |text|
    decreases k
  {
    from < k && text[k - 1] == '\\' && !Escaped(text, from, k - 1)
  }

  predicate Closes(text: string, from: nat, k: nat, quote: char) {
    k < |text| && text[k] == quote && !Escaped(text, from, k)
  }

  lemma {:induction false} EscapedFrom(text: string, from: nat, k: nat)
    requires from < k <= |text|
    ensures text[from] != '\\' ==> Escaped(text, from, k) == Escaped(text, from + 1, k)
    ensures text[from] == '\\' && from + 2 <= k ==> Escaped(text, from, k) == Escaped(text, from + 2, k)
    decreases k
  {
    if from + 2 < k {
      EscapedFrom(text, from, k - 1);
    } else {
      NotEscaped(text, from);
      NotEscaped(text, k);
      assert k == from + 2 && text[from] == '\\' ==> Escaped(text, from, from + 1);
    }
  }

  /** A quoted literal ends just past the first quote that is not escaped, or with the text
      if there is none. */
  lemma {:induction false} QuotedEndIs(text: string, i: nat, quote: char)
    requires i <= |text| && quote != '\\'
    ensures var e := QuotedEnd(text, i, quote);
      if e > i && Closes(text, i, e - 1, quote) then forall k :: i <= k < e - 1 ==> !Closes(text, i, k, quote)
      else e == |text| && forall k :: i <= k < |text| ==> !Closes(text, i, k, quote)
    decreases |text| - i
  {
    hide Escaped;
    NotEscaped(text, i);
    if i < |text| {
      var next := if text[i] == '\\' then i + 2 else i + 1;
      forall k | next <= k < |text| ensures Closes(text, i, k, quote) <==> Closes(text, next, k, quote) {
        EscapedFrom(text, i, k);
      }
      if text[i] == '\\' {
        if i + 1 < |text| { AfterBackslash(text, i); }
        if next <= |text| { QuotedEndIs(text, next, quote); }
      } else if text[i] != quote {
        QuotedEndIs(text, next, quote);
      }
    }
  }

  lemma NotEscaped(text: string, i: nat)
    requires i <= |text|
    ensures !Escaped(text, i, i)
  {
  }

  lemma AfterBackslash(text: string, i: nat)
    requires i + 1 < |text| && text[i] == '\\'
    ensures Escaped(text, i, i + 1)
  {
    NotEscaped(text, i);
  }

  // ----- line comments

  /** The line end at `k` is joined to the line before it by a backslash; a carriage return
      and a line feed are one line end. */
  predicate Spliced(text: string, from: nat, k: nat)
    requires k < |text|
  {
    || (from < k && text[k - 1] == '\\')
    || (from + 1 < k && text[k] == '\n' && text[k - 1] == '\r' && text[k - 2] == '\\')
  }

  predicate EndsLine(text: string, from: nat, k: nat) {
    k < |text| && Newline(text[k]) && !Spliced(text, from, k)
  }

  lemma EndsLater(text: string, i: nat, j: nat)
    requires i <= j
    ensures forall k :: j <= k && EndsLine(text, i, k) ==> EndsLine(text, j, k)
  {
  }

  /** A line comment ends before the first line end that no backslash joins to the next
      line, or with the text. */
  lemma {:induction false} LineEndIs(text: string, i: nat)
    requires i <= |text|
    ensures var e := LineEnd(text, i);
      && (e < |text| ==> EndsLine(text, i, e))
      && forall k :: i <= k < e ==> !EndsLine(text, i, k)
    decreases |text| - i
  {
    if i < |text| {
      if Continues(text, i) {
        LineEndIs(text, AfterContinuation(text, i));
        EndsLater(text, i, AfterContinuation(text, i));
      } else if !Newline(text[i]) {
        LineEndIs(text, i + 1);
        EndsLater(text, i, i + 1);
      }
    }
  }

  // ----- block comments and raw strings

  predicate Occurs(text: string, from: nat, s: string, k: nat) { from <= k && StartsAt(text, k, s) }

  /** They end just past the first occurrence of their closing text, or with the text. */
  lemma EndOfIs(text: string, s: string, i: nat)
    requires i <= |text|
    ensures var e := EndOf(text, s, i);
      if exists k: nat :: Occurs(text, i, s, k)
      then e >= |s| && Occurs(text, i, s, e - |s|) && forall k :: i <= k < e - |s| ==> !Occurs(text, i, s, k)
      else e == |text|
  {
    match Find(text, s, i)
    case Nowhere =>
    case Found(at) => assert Occurs(text, i, s, at) && at + |s| - |s| == at;
  }

  // ----- what opens a literal

  /** A quotation mark directly after a character of a word opens nothing: digit separators
      are code. */
  lemma QuoteInsideWord(cs: Classes, text: string, i: nat)
    requires 0 < i < |text| && Ident(cs, text[i - 1]) && (text[i] == '\'' || text[i] == '\"')
    ensures StepAt(cs, text, i) == Step(Plain, i + 1)
  {
    hide LiteralAt, LineEnd, EndOf;
  }

  lemma OpensWith(text: string, i: nat, s: string)
    requires i < |text| && s != "" && StartsAt(text, i, s)
    ensures text[i] == s[0]
  {
    assert text[i..i + |s|][0] == text[i];
  }

  lemma NoPrefix(text: string, i: nat, quote: string)
    requires i < |text| && text[i] == '\"'
    ensures Opener(text, i, quote) == if quote != "" && StartsAt(text, i, quote) then |quote| else 0
  {
    if StartsAt(text, i, "u8" + quote) { OpensWith(text, i, "u8" + quote); }
    if StartsAt(text, i, "u" + quote) { OpensWith(text, i, "u" + quote); }
    if StartsAt(text, i, "U" + quote) { OpensWith(text, i, "U" + quote); }
    if StartsAt(text, i, "L" + quote) { OpensWith(text, i, "L" + quote); }
  }

  /** A comment opening inside a literal opens nothing: the whole literal is one piece of
      code, whatever it holds. */
  lemma LiteralIsOnePiece(cs: Classes, text: string, i: nat)
    requires i < |text| && text[i] == '\"' && (i == 0 || !Ident(cs, text[i - 1]))
    ensures StepAt(cs, text, i) == Step(Plain, QuotedEnd(text, i + 1, '\"'))
  {
    NoPrefix(text, i, RAW);
    NoPrefix(text, i, "\"");
    if StartsAt(text, i, RAW) { OpensWith(text, i, RAW); }
    assert text[i..i + 1] == "\"";
    hide Opener, QuotedEnd, LineEnd, EndOf;
  }

  /** A comment marked as documentation, by doubling its opening or by an exclamation mark,
      is code, and so is one that ends with the text before it can be marked. */
  lemma DocumentationIsCode(cs: Classes, text: string, i: nat)
    requires i + 1 < |text| && text[i] == '/'
    ensures text[i + 1] == '/' && (i + 2 == |text| || text[i + 2] in {'/', '!'}) ==> StepAt(cs, text, i).kind.Doc?
    ensures text[i + 1] == '*' && (i + 2 == |text| || text[i + 2] in {'*', '!'}) ==> StepAt(cs, text, i).kind.Doc?
    ensures text[i + 1] == '/' && i + 2 < |text| && text[i + 2] !in {'/', '!'} ==>
      StepAt(cs, text, i).kind.LineComment?
    ensures text[i + 1] == '*' && i + 2 < |text| && text[i + 2] !in {'*', '!'} ==>
      StepAt(cs, text, i).kind.BlockComment?
  {
    hide LineEnd, EndOf, QuotedEnd;
    assert text[i..i + 2] == [text[i], text[i + 1]];
    NoLiteral(text, i);
    hide LiteralAt;
  }

  lemma NoLiteral(text: string, i: nat)
    requires i < |text| && text[i] == '/'
    ensures LiteralAt(text, i).Nowhere?
  {
    NothingOpens(text, i, RAW);
    NothingOpens(text, i, "\"");
    NothingOpens(text, i, "'");
    hide Opener, QuotedEnd, EndOf;
  }

  lemma NothingOpens(text: string, i: nat, quote: string)
    requires i < |text| && text[i] == '/' && quote != "" && quote[0] != '/'
    ensures Opener(text, i, quote) == 0
  {
    if StartsAt(text, i, "u8" + quote) { OpensWith(text, i, "u8" + quote); }
    if StartsAt(text, i, "u" + quote) { OpensWith(text, i, "u" + quote); }
    if StartsAt(text, i, "U" + quote) { OpensWith(text, i, "U" + quote); }
    if StartsAt(text, i, "L" + quote) { OpensWith(text, i, "L" + quote); }
    if StartsAt(text, i, quote) { OpensWith(text, i, quote); }
  }

  // ----- which block comments name a parameter

  predicate Blanks(cs: Classes, s: string) { forall k :: 0 <= k < |s| ==> cs.space(s[k]) }

  predicate Name(s: string) { s != "" && Letter(s[0]) && forall k :: 0 <= k < |s| ==> WordChar(s[k]) }

  /** The text is an opening, blanks, a name, perhaps an equals sign, blanks and a close, on
      one line. */
  predicate Parameter(cs: Classes, txt: string, before: string, name: string, sign: string, after: string) {
    && '\n' !in txt && txt == "/*" + before + name + sign + after + "*/"
    && Blanks(cs, before) && Name(name) && (sign == "" || sign == "=") && Blanks(cs, after)
  }

  lemma {:induction false} SkipSpaceIs(cs: Classes, s: string, i: nat, j: nat)
    requires i <= j <= |s|
    ensures SkipSpace(cs, s, i) == j <==> Blanks(cs, s[i..j]) && (j < |s| ==> !cs.space(s[j]))
    decreases |s| - i
  {
    if i < |s| && cs.space(s[i]) {
      if i < j {
        SkipSpaceIs(cs, s, i + 1, j);
        assert s[i..j] == [s[i]] + s[i + 1..j];
      }
    } else if i < j {
      assert s[i..j][0] == s[i];
    }
  }

  lemma {:induction false} SkipWordIs(s: string, i: nat, j: nat)
    requires i <= j <= |s|
    ensures SkipWord(s, i) == j <==> (forall k :: i <= k < j ==> WordChar(s[k])) && (j < |s| ==> !WordChar(s[j]))
    decreases |s| - i
  {
    if i < |s| && WordChar(s[i]) {
      if i < j { SkipWordIs(s, i + 1, j); }
    }
  }

  /** Blanks are no part of a name, of the equals sign or of the close. */
  ghost predicate BlanksApart(cs: Classes) {
    forall c :: cs.space(c) ==> !WordChar(c) && c != '=' && c != '*'
  }

  lemma InFive(txt: string, a: nat, b: nat, c: nat, d: nat)
    requires 2 <= a <= b <= c <= d <= |txt|
    ensures txt == txt[0..2] + txt[2..a] + txt[a..b] + txt[b..c] + txt[c..d] + txt[d..]
  {
  }

  lemma NamedHere(cs: Classes, txt: string)
    requires NamesParameter(cs, txt)
    ensures exists before, name, sign, after :: Parameter(cs, txt, before, name, sign, after)
  {
    var a := SkipSpace(cs, txt, 2);
    var b := SkipWord(txt, a);
    var c := if At(txt, b, '=') then b + 1 else b;
    var d := SkipSpace(cs, txt, c);
    assert txt[0..2] == "/*" && txt[d..] == "*/" && a < |txt| && Letter(txt[a]) && '\n' !in txt;
    SkipSpaceIs(cs, txt, 2, a);
    SkipWordIs(txt, a, b);
    SkipSpaceIs(cs, txt, c, d);
    assert b > a && (c == b || txt[b..c] == "=");
    hide SkipSpace, SkipWord, NamesParameter, Letter, WordChar;
    InFive(txt, a, b, c, d);
    NameFound(txt, a, b);
    assert Parameter(cs, txt, txt[2..a], txt[a..b], txt[b..c], txt[c..d]);
  }

  lemma NameFound(txt: string, a: nat, b: nat)
    requires a < b <= |txt| && Letter(txt[a]) && forall k :: a <= k < b ==> WordChar(txt[k])
    ensures Name(txt[a..b])
  {
    hide Letter, WordChar;
  }

  /** Where the five parts stand. */
  lemma PartsStand(before: string, name: string, sign: string, after: string)
    ensures var txt := "/*" + before + name + sign + after + "*/";
      var a := 2 + |before|; var b := a + |name|; var c := b + |sign|; var d := c + |after|;
      && txt[0..2] == "/*" && txt[2..a] == before && txt[a..b] == name && txt[b..c] == sign && txt[c..d] == after
      && txt[d..] == "*/" && |txt| == d + 2 && txt[d] == '*'
  {
  }

  lemma FoundHere(cs: Classes, txt: string, before: string, name: string, sign: string, after: string)
    requires BlanksApart(cs) && Parameter(cs, txt, before, name, sign, after)
    ensures NamesParameter(cs, txt)
  {
    PartsStand(before, name, sign, after);
    var a := 2 + |before|;
    var b := a + |name|;
    var c := b + |sign|;
    var d := c + |after|;
    forall k | a <= k < b ensures txt[k] == name[k - a] { assert txt[k] == txt[a..b][k - a]; }
    assert b < c ==> txt[b] == txt[b..c][0] == '=';
    assert c < d ==> txt[c] == txt[c..d][0] == after[0];
    assert Letter(txt[a]) && WordChar(txt[a]) && !cs.space(txt[a]);
    assert b < |txt| && !WordChar(txt[b]) && (b == c ==> txt[b] != '=') && !cs.space(txt[d]);
    hide SkipSpace, SkipWord, Letter, WordChar, BlanksApart;
    SkipSpaceIs(cs, txt, 2, a);
    SkipWordIs(txt, a, b);
    SkipSpaceIs(cs, txt, c, d);
  }

  /** The greedy scan decides it: a block comment is kept exactly when it can be read as a
      parameter's name. */
  lemma NamesParameterIff(cs: Classes, txt: string)
    requires BlanksApart(cs)
    ensures NamesParameter(cs, txt) <==>
      exists before, name, sign, after :: Parameter(cs, txt, before, name, sign, after)
  {
    if NamesParameter(cs, txt) { NamedHere(cs, txt); }
    if before, name, sign, after :| Parameter(cs, txt, before, name, sign, after) {
      FoundHere(cs, txt, before, name, sign, after);
    }
  }
}
