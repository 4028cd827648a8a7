/** Putting the tokens back together without their prose comments, or with them republished
    as documentation comments.  The line-by-line assembly is proved against a definition
    that looks at the whole text at once. */
module CommentRewriter {
  import opened CommentScanner

  // ----- which comments name a parameter

  function SkipSpace(cs: Classes, s: string, i: nat): (j: nat)
    requires i <= |s|
    ensures i <= j <= |s|
    decreases |s| - i
  {
    if i < |s| && cs.space(s[i]) then SkipSpace(cs, s, i + 1) else i
  }

  predicate Letter(c: char) { 'a' <= c <= 'z' || 'A' <= c <= 'Z' || c == '_' }

  predicate WordChar(c: char) { Letter(c) || '0' <= c <= '9' }

  function SkipWord(s: string, i: nat): (j: nat)
    requires i <= |s|
    ensures i <= j <= |s|
    decreases |s| - i
  {
    if i < |s| && WordChar(s[i]) then SkipWord(s, i + 1) else i
  }

  /** A one-line block comment holding only an identifier and perhaps an equals sign. */
  predicate NamesParameter(cs: Classes, txt: string) {
    '\n' !in txt && StartsAt(txt, 0, "/*") &&
    var a := SkipSpace(cs, txt, 2);
    a < |txt| && Letter(txt[a]) &&
    var b := SkipWord(txt, a);
    var c := if At(txt, b, '=') then b + 1 else b;
    txt[SkipSpace(cs, txt, c)..] == "*/"
  }

  predicate Prose(cs: Classes, t: Token) { t.Line? || (t.Block? && !NamesParameter(cs, t.text)) }

  // ----- the definition over the whole text

  /** A character of the output, or the place a comment was taken from. */
  datatype Glyph = Ch(c: char) | Gap

  function Glyphs(s: string): (g: seq<Glyph>)
    ensures |g| == |s|
  {
    seq(|s|, i requires 0 <= i < |s| => Ch(s[i]))
  }

  function Chars(g: seq<Glyph>): string {
    if g == [] then ""
    else match g[|g| - 1]
      case Gap => Chars(g[..|g| - 1])
      case Ch(c) => Chars(g[..|g| - 1]) + [c]
  }

  /** A comment of at least its two opening characters, with one more inserted after them. */
  function Republished(t: Token): string
    requires !t.Code? && |t.text| >= 2
  {
    (if t.Line? then "///" else "/**") + t.text[2..]
  }

  predicate Comment(t: Token) { !t.Code? ==> |t.text| >= 2 }

  function Marked(cs: Classes, t: Token, convert: bool): seq<Glyph>
    requires Comment(t)
  {
    if !Prose(cs, t) then Glyphs(t.text)
    else if convert then Glyphs(Republished(t))
    else if t.Block? && '\n' in t.text then [Gap, Ch('\n'), Gap]
    else [Gap]
  }

  predicate Comments(tokens: seq<Token>) { forall i :: 0 <= i < |tokens| ==> Comment(tokens[i]) }

  function AllMarked(cs: Classes, tokens: seq<Token>, convert: bool): seq<Glyph>
    requires Comments(tokens)
  {
    if tokens == [] then []
    else AllMarked(cs, tokens[..|tokens| - 1], convert) + Marked(cs, tokens[|tokens| - 1], convert)
  }

  predicate HasInk(cs: Classes, s: string) { exists i :: 0 <= i < |s| && !cs.space(s[i]) }

  function RightTrim(cs: Classes, s: string): string {
    if s != "" && cs.space(s[|s| - 1]) then RightTrim(cs, s[..|s| - 1]) else s
  }

  /** What a finished line becomes: a line left with only blanks by a removal is dropped. */
  function FinishedLine(cs: Classes, line: seq<Glyph>): seq<string> {
    var s := Chars(line);
    if HasInk(cs, s) then [if Gap in line then RightTrim(cs, s) else s]
    else if Gap in line then []
    else [s]
  }

  /** The last, unfinished line. */
  function OpenLine(g: seq<Glyph>): seq<Glyph> {
    if g == [] || g[|g| - 1] == Ch('\n') then [] else OpenLine(g[..|g| - 1]) + [g[|g| - 1]]
  }

  function ClosedLines(cs: Classes, g: seq<Glyph>): seq<string> {
    if g == [] then []
    else
      var before := g[..|g| - 1];
      ClosedLines(cs, before) + if g[|g| - 1] == Ch('\n') then FinishedLine(cs, OpenLine(before)) else []
  }

  function Join(lines: seq<string>): string {
    if lines == [] then "" else if |lines| == 1 then lines[0]
    else Join(lines[..|lines| - 1]) + "\n" + lines[|lines| - 1]
  }

  function Rendered(cs: Classes, tokens: seq<Token>, convert: bool): string
    requires Comments(tokens)
  {
    var g := AllMarked(cs, tokens, convert);
    Join(ClosedLines(cs, g) + FinishedLine(cs, OpenLine(g)))
  }

  // ----- lines without gaps are kept as they are

  lemma {:induction false} OpenLineNoGap(g: seq<Glyph>)
    requires Gap !in g
    ensures Gap !in OpenLine(g)
  {
    if g != [] {
      assert forall x :: x in g[..|g| - 1] ==> x in g;
      OpenLineNoGap(g[..|g| - 1]);
    }
  }

  function Terminated(lines: seq<string>): string {
    if lines == [] then "" else Terminated(lines[..|lines| - 1]) + lines[|lines| - 1] + "\n"
  }

  lemma {:induction false} JoinOneMore(lines: seq<string>, last: string)
    ensures Join(lines + [last]) == Terminated(lines) + last
  {
    var all := lines + [last];
    assert all[..|all| - 1] == lines;
    if lines != [] {
      JoinOneMore(lines[..|lines| - 1], lines[|lines| - 1]);
      assert lines == lines[..|lines| - 1] + [lines[|lines| - 1]];
      assert Join(all) == Join(lines) + "\n" + last;
    }
  }

  lemma TerminatedOneMore(lines: seq<string>, last: string)
    ensures Terminated(lines + [last]) == Terminated(lines) + last + "\n"
  {
    assert (lines + [last])[..|lines|] == lines;
  }

  lemma {:induction false} NoGapsNoChange(cs: Classes, g: seq<Glyph>)
    requires Gap !in g
    ensures Terminated(ClosedLines(cs, g)) + Chars(OpenLine(g)) == Chars(g)
  {
    if g != [] {
      var before, last := g[..|g| - 1], g[|g| - 1];
      assert forall x :: x in before ==> x in g;
      NoGapsNoChange(cs, before);
      OpenLineNoGap(before);
      assert last in g;
      if last == Ch('\n') {
        assert FinishedLine(cs, OpenLine(before)) == [Chars(OpenLine(before))];
        TerminatedOneMore(ClosedLines(cs, before), Chars(OpenLine(before)));
        assert Chars(OpenLine(g)) == "";
      } else {
        assert OpenLine(g) == OpenLine(before) + [last];
        assert OpenLine(g)[..|OpenLine(g)| - 1] == OpenLine(before);
        assert last.Ch? && Chars(OpenLine(g)) == Chars(OpenLine(before)) + [last.c];
        assert ClosedLines(cs, g) == ClosedLines(cs, before);
      }
    }
  }

  lemma RenderedNoGaps(cs: Classes, tokens: seq<Token>, convert: bool)
    requires Comments(tokens) && Gap !in AllMarked(cs, tokens, convert)
    ensures Rendered(cs, tokens, convert) == Chars(AllMarked(cs, tokens, convert))
  {
    var g := AllMarked(cs, tokens, convert);
    NoGapsNoChange(cs, g);
    OpenLineNoGap(g);
    assert FinishedLine(cs, OpenLine(g)) == [Chars(OpenLine(g))];
    JoinOneMore(ClosedLines(cs, g), Chars(OpenLine(g)));
  }

  // ----- convert mode

  function Converted(cs: Classes, t: Token): string
    requires Comment(t)
  {
    if Prose(cs, t) then Republished(t) else t.text
  }

  function ConvertedAll(cs: Classes, tokens: seq<Token>): string
    requires Comments(tokens)
  {
    if tokens == [] then "" else Converted(cs, tokens[0]) + ConvertedAll(cs, tokens[1..])
  }

  lemma {:induction false} CharsOfGlyphs(g: seq<Glyph>, s: string)
    ensures Chars(g + Glyphs(s)) == Chars(g) + s
    ensures Gap !in Glyphs(s)
    decreases |s|
  {
    if s == "" {
      assert g + Glyphs(s) == g;
    } else {
      var n := |s| - 1;
      CharsOfGlyphs(g, s[..n]);
      assert (g + Glyphs(s))[..|g| + n] == g + Glyphs(s[..n]);
      assert s == s[..n] + [s[n]];
    }
  }

  lemma {:induction false} ConvertedLast(cs: Classes, tokens: seq<Token>)
    requires Comments(tokens) && tokens != []
    ensures ConvertedAll(cs, tokens) == ConvertedAll(cs, tokens[..|tokens| - 1]) + Converted(cs, tokens[|tokens| - 1])
  {
    hide Converted;
    if |tokens| > 1 {
      ConvertedLast(cs, tokens[1..]);
      assert tokens[1..][..|tokens| - 2] == tokens[..|tokens| - 1][1..];
    }
  }

  lemma {:induction false} ConvertHasNoGaps(cs: Classes, tokens: seq<Token>)
    requires Comments(tokens)
    ensures Gap !in AllMarked(cs, tokens, true) && Chars(AllMarked(cs, tokens, true)) == ConvertedAll(cs, tokens)
  {
    hide Prose, Republished;
    if tokens != [] {
      var n := |tokens| - 1;
      ConvertHasNoGaps(cs, tokens[..n]);
      ConvertedLast(cs, tokens);
      CharsOfGlyphs(AllMarked(cs, tokens[..n], true), Converted(cs, tokens[n]));
      assert Marked(cs, tokens[n], true) == Glyphs(Converted(cs, tokens[n]));
    }
  }

  /** Splitting at line ends and joining again changes nothing: convert mode gives the
      tokens in order, each prose comment with one character more. */
  lemma ConvertIsConcatenation(cs: Classes, tokens: seq<Token>)
    requires Comments(tokens)
    ensures Rendered(cs, tokens, true) == ConvertedAll(cs, tokens)
  {
    ConvertHasNoGaps(cs, tokens);
    RenderedNoGaps(cs, tokens, true);
  }

  // ----- strip mode

  function Ink(cs: Classes, s: string): string {
    if s == "" then "" else Ink(cs, s[..|s| - 1]) + if cs.space(s[|s| - 1]) then "" else [s[|s| - 1]]
  }

  lemma {:induction false} InkAppend(cs: Classes, a: string, b: string)
    ensures Ink(cs, a + b) == Ink(cs, a) + Ink(cs, b)
  {
    if b == "" {
      assert a + b == a;
    } else {
      var n := |b| - 1;
      InkAppend(cs, a, b[..n]);
      assert (a + b)[..|a| + n] == a + b[..n] && (a + b)[|a| + n] == b[n];
    }
  }

  lemma {:induction false} NoInk(cs: Classes, s: string)
    ensures Ink(cs, s) == "" <==> !HasInk(cs, s)
  {
    if s != "" {
      NoInk(cs, s[..|s| - 1]);
      if HasInk(cs, s) && !HasInk(cs, s[..|s| - 1]) { assert !cs.space(s[|s| - 1]); }
    }
  }

  lemma {:induction false} TrimKeepsInk(cs: Classes, s: string)
    ensures Ink(cs, RightTrim(cs, s)) == Ink(cs, s)
  {
    if s != "" && cs.space(s[|s| - 1]) { TrimKeepsInk(cs, s[..|s| - 1]); }
  }

  lemma FinishedLineInk(cs: Classes, line: seq<Glyph>)
    ensures |FinishedLine(cs, line)| <= 1
    ensures FinishedLine(cs, line) == [] ==> Ink(cs, Chars(line)) == ""
    ensures |FinishedLine(cs, line)| == 1 ==> Ink(cs, FinishedLine(cs, line)[0]) == Ink(cs, Chars(line))
  {
    NoInk(cs, Chars(line));
    TrimKeepsInk(cs, Chars(line));
  }

  function InkOfAll(cs: Classes, lines: seq<string>): string {
    if lines == [] then "" else InkOfAll(cs, lines[..|lines| - 1]) + Ink(cs, lines[|lines| - 1])
  }

  lemma InkOfMore(cs: Classes, lines: seq<string>, line: seq<Glyph>)
    ensures InkOfAll(cs, lines + FinishedLine(cs, line)) == InkOfAll(cs, lines) + Ink(cs, Chars(line))
  {
    FinishedLineInk(cs, line);
    var finished := FinishedLine(cs, line);
    if finished == [] {
      assert lines + finished == lines;
    } else {
      assert (lines + finished)[..|lines|] == lines;
    }
  }

  lemma {:induction false} JoinKeepsInk(cs: Classes, lines: seq<string>)
    requires cs.space('\n')
    ensures Ink(cs, Join(lines)) == InkOfAll(cs, lines)
  {
    if |lines| == 1 {
      assert lines[..0] == [];
    } else if |lines| > 1 {
      var n := |lines| - 1;
      JoinKeepsInk(cs, lines[..n]);
      InkAppend(cs, Join(lines[..n]) + "\n", lines[n]);
      InkAppend(cs, Join(lines[..n]), "\n");
      assert Ink(cs, "\n") == Ink(cs, "") + "";
    }
  }

  lemma {:induction false} LinesKeepInk(cs: Classes, g: seq<Glyph>)
    requires cs.space('\n')
    ensures InkOfAll(cs, ClosedLines(cs, g)) + Ink(cs, Chars(OpenLine(g))) == Ink(cs, Chars(g))
  {
    hide FinishedLine;
    if g != [] {
      var before, last := g[..|g| - 1], g[|g| - 1];
      LinesKeepInk(cs, before);
      if last == Ch('\n') {
        InkOfMore(cs, ClosedLines(cs, before), OpenLine(before));
        InkAppend(cs, Chars(before), "\n");
        assert Ink(cs, "\n") == Ink(cs, "") + "";
        assert Chars(OpenLine(g)) == "";
      } else {
        assert OpenLine(g) == OpenLine(before) + [last];
        assert OpenLine(g)[..|OpenLine(g)| - 1] == OpenLine(before);
        if last.Ch? {
          InkAppend(cs, Chars(before), [last.c]);
          InkAppend(cs, Chars(OpenLine(before)), [last.c]);
        }
        assert ClosedLines(cs, g) == ClosedLines(cs, before);
      }
    }
  }

  /** The tokens strip mode keeps. */
  function Kept(cs: Classes, tokens: seq<Token>): string {
    if tokens == [] then ""
    else Kept(cs, tokens[..|tokens| - 1]) + if Prose(cs, tokens[|tokens| - 1]) then "" else tokens[|tokens| - 1].text
  }

  lemma {:induction false} StripMarksKept(cs: Classes, tokens: seq<Token>)
    requires Comments(tokens) && cs.space('\n')
    ensures Ink(cs, Chars(AllMarked(cs, tokens, false))) == Ink(cs, Kept(cs, tokens))
  {
    hide Prose;
    if tokens != [] {
      var n := |tokens| - 1;
      var g := AllMarked(cs, tokens[..n], false);
      StripMarksKept(cs, tokens[..n]);
      if !Prose(cs, tokens[n]) {
        CharsOfGlyphs(g, tokens[n].text);
        InkAppend(cs, Chars(g), tokens[n].text);
        InkAppend(cs, Kept(cs, tokens[..n]), tokens[n].text);
      } else {
        GapsHoldNoInk(cs, g);
        assert Kept(cs, tokens) == Kept(cs, tokens[..n]);
      }
    }
  }

  lemma GapsHoldNoInk(cs: Classes, g: seq<Glyph>)
    requires cs.space('\n')
    ensures Ink(cs, Chars(g + [Gap])) == Ink(cs, Chars(g))
    ensures Ink(cs, Chars(g + [Gap, Ch('\n'), Gap])) == Ink(cs, Chars(g))
  {
    assert (g + [Gap])[..|g|] == g;
    var a, b := g + [Gap, Ch('\n')], g + [Gap, Ch('\n'), Gap];
    assert b[..|a|] == a && a[..|g| + 1] == g + [Gap];
    InkAppend(cs, Chars(g), "\n");
    assert Ink(cs, "\n") == Ink(cs, "") + "";
  }

  /** Only prose comments and white space disappear: the other characters of the output
      are, in order, those of the code and of the parameter comments. */
  lemma StripLosesNoCode(cs: Classes, tokens: seq<Token>)
    requires Comments(tokens) && cs.space('\n')
    ensures Ink(cs, Rendered(cs, tokens, false)) == Ink(cs, Kept(cs, tokens))
  {
    hide FinishedLine, AllMarked, Kept;
    var g := AllMarked(cs, tokens, false);
    StripMarksKept(cs, tokens);
    LinesKeepInk(cs, g);
    InkOfMore(cs, ClosedLines(cs, g), OpenLine(g));
    JoinKeepsInk(cs, ClosedLines(cs, g) + FinishedLine(cs, OpenLine(g)));
  }

  /** Text without prose comments comes out unchanged, blanks and empty lines included. */
  lemma {:induction false} NothingToStrip(cs: Classes, tokens: seq<Token>)
    requires Comments(tokens) && forall i :: 0 <= i < |tokens| ==> !Prose(cs, tokens[i])
    ensures Rendered(cs, tokens, false) == Concat(tokens) == Rendered(cs, tokens, true)
  {
    SameMarks(cs, tokens);
    ConvertIsConcatenation(cs, tokens);
    ConvertHasNoGaps(cs, tokens);
    UnchangedConcat(cs, tokens);
  }

  lemma {:induction false} SameMarks(cs: Classes, tokens: seq<Token>)
    requires Comments(tokens) && forall i :: 0 <= i < |tokens| ==> !Prose(cs, tokens[i])
    ensures AllMarked(cs, tokens, false) == AllMarked(cs, tokens, true)
  {
    hide Prose;
    if tokens != [] { SameMarks(cs, tokens[..|tokens| - 1]); }
  }

  lemma {:induction false} UnchangedConcat(cs: Classes, tokens: seq<Token>)
    requires Comments(tokens) && forall i :: 0 <= i < |tokens| ==> !Prose(cs, tokens[i])
    ensures ConvertedAll(cs, tokens) == Concat(tokens)
  {
    hide Prose;
    if tokens != [] { UnchangedConcat(cs, tokens[1..]); }
  }
}
