/** The lines of a stripped text.  The reference cuts the marked text at its line ends,
    leaves out the lines on which only blanks and removed comments stand, and compares what
    is left with the output, line by line. */
module CommentLines {
  import opened CommentScanner
  import opened CommentRewriter

  // ----- cutting at line ends

  function MarkedLines(g: seq<Glyph>): (lines: seq<seq<Glyph>>)
    ensures |lines| > 0
  {
    if g == [] then [[]]
    else
      var before, last := MarkedLines(g[..|g| - 1]), g[|g| - 1];
      if last == Ch('\n') then before + [[]]
      else before[|before| - 1 := before[|before| - 1] + [last]]
  }

  function Uncut(lines: seq<seq<Glyph>>): seq<Glyph> {
    if lines == [] then [] else if |lines| == 1 then lines[0]
    else Uncut(lines[..|lines| - 1]) + [Ch('\n')] + lines[|lines| - 1]
  }

  /** The lines hold no line end, and with line ends between them they are the text. */
  lemma {:induction false} CutAtLineEnds(g: seq<Glyph>)
    ensures Uncut(MarkedLines(g)) == g
    ensures forall k :: 0 <= k < |MarkedLines(g)| ==> Ch('\n') !in MarkedLines(g)[k]
  {
    if g != [] {
      var n := |g| - 1;
      CutAtLineEnds(g[..n]);
      var before, lines := MarkedLines(g[..n]), MarkedLines(g);
      if g[n] == Ch('\n') {
        assert lines[..|before|] == before;
        assert Uncut(lines) == Uncut(before) + [Ch('\n')] + [];
      } else {
        var m := |before| - 1;
        assert lines[..m] == before[..m];
        assert Uncut(lines) == Uncut(before) + [g[n]];
      }
    }
  }

  lemma {:induction false} OpenLineIsLast(g: seq<Glyph>)
    ensures OpenLine(g) == MarkedLines(g)[|MarkedLines(g)| - 1]
  {
    if g != [] { OpenLineIsLast(g[..|g| - 1]); }
  }

  // ----- which lines stay, and as what

  /** It holds ink, or no comment was taken from it. */
  predicate Stays(cs: Classes, line: seq<Glyph>) { HasInk(cs, Chars(line)) || Gap !in line }

  function Staying(cs: Classes, lines: seq<seq<Glyph>>): seq<seq<Glyph>> {
    if lines == [] then []
    else
      var last := lines[|lines| - 1];
      Staying(cs, lines[..|lines| - 1]) + if Stays(cs, last) then [last] else []
  }

  /** The line as written, or without the blanks at its end where a comment was taken. */
  predicate WrittenAs(cs: Classes, line: seq<Glyph>, out: string) {
    var s := Chars(line);
    && out <= s
    && (forall k :: |out| <= k < |s| ==> cs.space(s[k]))
    && if Gap in line then out != "" && !cs.space(out[|out| - 1]) else out == s
  }

  /** `outs` are the lines that stay, in order, each as written. */
  predicate LinesKept(cs: Classes, lines: seq<seq<Glyph>>, outs: seq<string>) {
    var stay := Staying(cs, lines);
    |outs| == |stay| && forall k :: 0 <= k < |stay| ==> WrittenAs(cs, stay[k], outs[k])
  }

  lemma {:induction false} TrimEnds(cs: Classes, s: string)
    ensures var t := RightTrim(cs, s);
      && t <= s && (forall k :: |t| <= k < |s| ==> cs.space(s[k]))
      && (t != "" ==> !cs.space(t[|t| - 1]))
      && (t == "" ==> !HasInk(cs, s))
  {
    if s != "" && cs.space(s[|s| - 1]) { TrimEnds(cs, s[..|s| - 1]); }
  }

  lemma FinishedLineIs(cs: Classes, line: seq<Glyph>)
    ensures var out := FinishedLine(cs, line);
      if Stays(cs, line) then |out| == 1 && WrittenAs(cs, line, out[0]) else out == []
  {
    TrimEnds(cs, Chars(line));
  }

  /** The description determines the output: lines that stay alike come out alike. */
  lemma OutputDetermined(cs: Classes, lines: seq<seq<Glyph>>, outs: seq<string>, lines': seq<seq<Glyph>>,
                         outs': seq<string>)
    requires LinesKept(cs, lines, outs) && LinesKept(cs, lines', outs')
    requires Staying(cs, lines) == Staying(cs, lines')
    ensures outs == outs'
  {
    var stay := Staying(cs, lines);
    forall k | 0 <= k < |stay| ensures outs[k] == outs'[k] { WrittenOnce(cs, stay[k], outs[k], outs'[k]); }
  }

  lemma WrittenOnce(cs: Classes, line: seq<Glyph>, a: string, b: string)
    requires WrittenAs(cs, line, a) && WrittenAs(cs, line, b)
    ensures a == b
  {
  }

  lemma LinesKeptMore(cs: Classes, lines: seq<seq<Glyph>>, line: seq<Glyph>, outs: seq<string>)
    requires LinesKept(cs, lines, outs)
    ensures LinesKept(cs, lines + [line], outs + FinishedLine(cs, line))
  {
    hide FinishedLine, Stays, WrittenAs;
    FinishedLineIs(cs, line);
    assert (lines + [line])[..|lines|] == lines;
  }

  // ----- the whole text

  /** Finished lines that were dropped. */
  function Dropped(cs: Classes, g: seq<Glyph>): nat {
    if g == [] then 0
    else
      var before := g[..|g| - 1];
      Dropped(cs, before) + if g[|g| - 1] == Ch('\n') && FinishedLine(cs, OpenLine(before)) == [] then 1 else 0
  }

  /** All lines before the open one. */
  lemma {:induction false} ClosedLinesKept(cs: Classes, g: seq<Glyph>)
    ensures var lines := MarkedLines(g); var closed := lines[..|lines| - 1];
      && LinesKept(cs, closed, ClosedLines(cs, g))
      && Dropped(cs, g) + |ClosedLines(cs, g)| == |closed|
  {
    hide FinishedLine, Stays, WrittenAs;
    if g != [] {
      var n := |g| - 1;
      var before, lines := MarkedLines(g[..n]), MarkedLines(g);
      ClosedLinesKept(cs, g[..n]);
      OpenLineIsLast(g[..n]);
      if g[n] == Ch('\n') {
        var m := |before| - 1;
        LinesKeptMore(cs, before[..m], before[m], ClosedLines(cs, g[..n]));
        FinishedLineIs(cs, before[m]);
        assert lines[..|lines| - 1] == before == before[..m] + [before[m]];
      } else {
        assert lines[..|lines| - 1] == before[..|before| - 1];
        assert ClosedLines(cs, g) == ClosedLines(cs, g[..n]);
      }
    }
  }

  /** The output's lines are, in order, the marked lines that hold ink or held no comment,
      each as written; the lines counted as removed are all the others. */
  lemma OutputLines(cs: Classes, g: seq<Glyph>)
    ensures var outs := ClosedLines(cs, g) + FinishedLine(cs, OpenLine(g)); var lines := MarkedLines(g);
      LinesKept(cs, lines, outs) && Dropped(cs, g + [Ch('\n')]) + |outs| == |lines|
  {
    hide FinishedLine, Stays, WrittenAs;
    var lines := MarkedLines(g);
    var n := |lines| - 1;
    ClosedLinesKept(cs, g);
    OpenLineIsLast(g);
    LinesKeptMore(cs, lines[..n], lines[n], ClosedLines(cs, g));
    FinishedLineIs(cs, lines[n]);
    assert lines == lines[..n] + [lines[n]];
    assert (g + [Ch('\n')])[..|g|] == g;
  }

  /** Strip mode keeps lines whole: nothing but comment-only lines disappears, indentation
      and blank lines included. */
  lemma StripKeepsLines(cs: Classes, tokens: seq<Token>) returns (outs: seq<string>)
    requires Comments(tokens)
    ensures var g := AllMarked(cs, tokens, false);
      && Rendered(cs, tokens, false) == Join(outs)
      && LinesKept(cs, MarkedLines(g), outs)
      && Dropped(cs, g + [Ch('\n')]) + |outs| == |MarkedLines(g)|
  {
    var g := AllMarked(cs, tokens, false);
    OutputLines(cs, g);
    outs := ClosedLines(cs, g) + FinishedLine(cs, OpenLine(g));
  }

  // ----- a comment on a line of its own

  lemma CutOneMore(g: seq<Glyph>, x: Glyph)
    ensures var before := MarkedLines(g);
      MarkedLines(g + [x]) ==
        if x == Ch('\n') then before + [[]] else before[|before| - 1 := before[|before| - 1] + [x]]
  {
    assert (g + [x])[..|g|] == g;
  }

  lemma LastOfJoined<T>(a: seq<T>, b: seq<T>, x: T)
    requires b != []
    ensures (a + b)[|a + b| - 1] == b[|b| - 1] && (a + b)[|a + b| - 1 := x] == a + b[|b| - 1 := x]
    ensures a + b + [x] == a + (b + [x])
  {
  }

  lemma {:induction false} CutJoined(a: seq<Glyph>, b: seq<Glyph>)
    ensures MarkedLines(a + [Ch('\n')] + b) == MarkedLines(a) + MarkedLines(b)
    decreases |b|
  {
    hide MarkedLines;
    if b == [] {
      CutOneMore(a, Ch('\n'));
      assert a + [Ch('\n')] + b == a + [Ch('\n')];
      EmptyIsOneLine();
    } else {
      var n := |b| - 1;
      var front, lines := a + [Ch('\n')], MarkedLines(b[..n]);
      CutJoined(a, b[..n]);
      CutOneMore(front + b[..n], b[n]);
      CutOneMore(b[..n], b[n]);
      assert b == b[..n] + [b[n]] && front + b == front + b[..n] + [b[n]];
      if b[n] == Ch('\n') {
        LastOfJoined(MarkedLines(a), lines, []);
      } else {
        LastOfJoined(MarkedLines(a), lines, lines[|lines| - 1] + [b[n]]);
      }
    }
  }

  lemma {:induction false} StayingAppend(cs: Classes, a: seq<seq<Glyph>>, b: seq<seq<Glyph>>)
    ensures Staying(cs, a + b) == Staying(cs, a) + Staying(cs, b)
    decreases |b|
  {
    hide Stays;
    if b == [] {
      assert a + b == a;
    } else {
      StayingAppend(cs, a, b[..|b| - 1]);
      assert (a + b)[..|a + b| - 1] == a + b[..|b| - 1];
    }
  }

  lemma {:induction false} OneLine(g: seq<Glyph>)
    requires Ch('\n') !in g
    ensures MarkedLines(g) == [g]
  {
    if g != [] {
      var n := |g| - 1;
      assert forall x :: x in g[..n] ==> x in g;
      assert g[n] in g && g == g[..n] + [g[n]];
      OneLine(g[..n]);
    }
  }

  lemma BlankLineOfAComment(cs: Classes, indent: string)
    requires '\n' !in indent && !HasInk(cs, indent)
    ensures var line := Glyphs(indent) + [Gap]; MarkedLines(line) == [line] && Staying(cs, [line]) == []
  {
    var line := Glyphs(indent) + [Gap];
    OneLine(line);
    CharsOfGlyphs([], indent);
    assert [] + Glyphs(indent) == Glyphs(indent) && line[..|indent|] == Glyphs(indent);
    assert Chars(line) == indent && Gap in line;
    assert Staying(cs, [line][..0]) == [];
  }

  /** A line comment alone on its line, however indented, disappears with the line. */
  lemma CommentLineDisappears(cs: Classes, indent: string, comment: string, rest: string)
    requires '\n' !in indent && !HasInk(cs, indent) && |comment| >= 2
    ensures var tokens := [Code(indent), Line(comment), Code("\n" + rest)];
      Comments(tokens) && Rendered(cs, tokens, false) == rest
  {
    var tokens := [Code(indent), Line(comment), Code("\n" + rest)];
    var g, line := AllMarked(cs, tokens, false), Glyphs(indent) + [Gap];
    ThreeMarked(cs, indent, comment, rest);
    BlankLineOfAComment(cs, indent);
    CutJoined(line, Glyphs(rest));
    StayingAppend(cs, [line], MarkedLines(Glyphs(rest)));
    OutputLines(cs, g);
    OutputLines(cs, Glyphs(rest));
    var outs, outs' := ClosedLines(cs, g) + FinishedLine(cs, OpenLine(g)),
      ClosedLines(cs, Glyphs(rest)) + FinishedLine(cs, OpenLine(Glyphs(rest)));
    OutputDetermined(cs, MarkedLines(g), outs, MarkedLines(Glyphs(rest)), outs');
    CodeAlone(cs, rest);
  }

  lemma MarkedMore(cs: Classes, tokens: seq<Token>, t: Token)
    requires Comments(tokens) && Comment(t)
    ensures Comments(tokens + [t])
    ensures AllMarked(cs, tokens + [t], false) == AllMarked(cs, tokens, false) + Marked(cs, t, false)
  {
    hide Marked;
    assert (tokens + [t])[..|tokens|] == tokens;
  }

  lemma ThreeMarked(cs: Classes, indent: string, comment: string, rest: string)
    requires |comment| >= 2
    ensures var tokens := [Code(indent), Line(comment), Code("\n" + rest)];
      Comments(tokens) && AllMarked(cs, tokens, false) == Glyphs(indent) + [Gap] + [Ch('\n')] + Glyphs(rest)
  {
    assert Marked(cs, Code(indent), false) == Glyphs(indent) && Marked(cs, Line(comment), false) == [Gap];
    assert Marked(cs, Code("\n" + rest), false) == Glyphs("\n" + rest) == [Ch('\n')] + Glyphs(rest);
    assert AllMarked(cs, [], false) == [];
    hide Marked, AllMarked, Glyphs;
    MarkedMore(cs, [], Code(indent));
    MarkedMore(cs, [] + [Code(indent)], Line(comment));
    MarkedMore(cs, [] + [Code(indent)] + [Line(comment)], Code("\n" + rest));
    assert [Code(indent), Line(comment), Code("\n" + rest)] ==
      [] + [Code(indent)] + [Line(comment)] + [Code("\n" + rest)];
    assert [] + Glyphs(indent) == Glyphs(indent);
  }

  lemma CodeAlone(cs: Classes, text: string)
    ensures var g := Glyphs(text); Join(ClosedLines(cs, g) + FinishedLine(cs, OpenLine(g))) == text
  {
    var tokens := [Code(text)];
    assert tokens[..0] == [];
    assert AllMarked(cs, tokens, false) == Glyphs(text);
    CharsOfGlyphs([], text);
    assert [] + Glyphs(text) == Glyphs(text);
    RenderedNoGaps(cs, tokens, false);
  }

  // ----- how many lines there are

  function LineEnds(s: string): nat {
    if s == "" then 0 else LineEnds(s[..|s| - 1]) + if s[|s| - 1] == '\n' then 1 else 0
  }

  /** Removed comments that ran over a line end. */
  function LongProse(cs: Classes, tokens: seq<Token>): nat {
    if tokens == [] then 0
    else
      var last := tokens[|tokens| - 1];
      LongProse(cs, tokens[..|tokens| - 1]) + if Prose(cs, last) && last.Block? && '\n' in last.text then 1 else 0
  }

  lemma {:induction false} LinesOfMore(g: seq<Glyph>, s: string)
    ensures |MarkedLines(g + Glyphs(s))| == |MarkedLines(g)| + LineEnds(s)
    decreases |s|
  {
    if s == "" {
      assert g + Glyphs(s) == g;
    } else {
      var n := |s| - 1;
      LinesOfMore(g, s[..n]);
      assert (g + Glyphs(s))[..|g| + n] == g + Glyphs(s[..n]);
    }
  }

  lemma {:induction false} LineEndsAppend(a: string, b: string)
    ensures LineEnds(a + b) == LineEnds(a) + LineEnds(b)
    decreases |b|
  {
    if b == "" {
      assert a + b == a;
    } else {
      LineEndsAppend(a, b[..|b| - 1]);
      assert (a + b)[..|a + b| - 1] == a + b[..|b| - 1];
    }
  }

  /** The marked lines are those of the kept text, and one more for each removed comment of
      several lines: what stood before and after it stays on separate lines. */
  lemma {:induction false} HowManyLines(cs: Classes, tokens: seq<Token>)
    requires Comments(tokens)
    ensures |MarkedLines(AllMarked(cs, tokens, false))| == 1 + LineEnds(Kept(cs, tokens)) + LongProse(cs, tokens)
  {
    hide Prose, MarkedLines;
    if tokens != [] {
      var n := |tokens| - 1;
      var g, last := AllMarked(cs, tokens[..n], false), tokens[n];
      HowManyLines(cs, tokens[..n]);
      if !Prose(cs, last) {
        LinesOfMore(g, last.text);
        LineEndsAppend(Kept(cs, tokens[..n]), last.text);
      } else {
        ProseLines(g);
        assert Kept(cs, tokens)
          == Kept(cs, tokens[..n]) by { assert Kept(cs, tokens[..n]) + "" == Kept(cs, tokens[..n]); }
        ProseIsComment(cs, last);
      }
    } else {
      EmptyIsOneLine();
    }
  }

  lemma EmptyIsOneLine()
    ensures MarkedLines([]) == [[]]
  {
  }

  lemma ProseIsComment(cs: Classes, t: Token)
    requires Prose(cs, t)
    ensures t.Line? || t.Block?
  {
  }

  lemma ProseLines(g: seq<Glyph>)
    ensures |MarkedLines(g + [Gap])| == |MarkedLines(g)|
    ensures |MarkedLines(g + [Gap, Ch('\n'), Gap])| == |MarkedLines(g)| + 1
  {
    var one, two, three := g + [Gap], g + [Gap, Ch('\n')], g + [Gap, Ch('\n'), Gap];
    assert one[..|g|] == g && two[..|g| + 1] == one && three[..|g| + 2] == two;
  }
}
