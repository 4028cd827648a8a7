/** When strip mode runs code together.  A comment separates what stands on its two sides;
    the words of the stripped text are those of the text with a blank for every comment
    exactly when no comment stands directly between two characters that are not blank. */
module CommentWords {
  import opened CommentRewriter
  import opened CommentScanner

  // ----- words

  /** Reading a text from the left: the words completed so far and the one being read. */
  datatype Reading = Reading(done: seq<string>, word: string)

  function Next(cs: Classes, r: Reading, c: char): Reading {
    if !cs.space(c) then Reading(r.done, r.word + [c]) else Reading(Finish(r), "")
  }

  function Finish(r: Reading): seq<string> { if r.word == "" then r.done else r.done + [r.word] }

  function ReadFrom(cs: Classes, r: Reading, s: string): Reading {
    if s == "" then r else Next(cs, ReadFrom(cs, r, s[..|s| - 1]), s[|s| - 1])
  }

  /** The maximal runs of characters that are not blank. */
  function Words(cs: Classes, s: string): seq<string> { Finish(ReadFrom(cs, Reading([], ""), s)) }

  lemma {:induction false} ReadAppend(cs: Classes, r: Reading, a: string, b: string)
    ensures ReadFrom(cs, r, a + b) == ReadFrom(cs, ReadFrom(cs, r, a), b)
  {
    if b == "" {
      assert a + b == a;
    } else {
      var n := |b| - 1;
      ReadAppend(cs, r, a, b[..n]);
      assert (a + b)[..|a| + n] == a + b[..n] && (a + b)[|a| + n] == b[n];
    }
  }

  /** Between words, what was read before is only put in front. */
  lemma {:induction false} ReadOnFrom(cs: Classes, done: seq<string>, s: string)
    ensures var r := ReadFrom(cs, Reading([], ""), s);
      ReadFrom(cs, Reading(done, ""), s) == Reading(done + r.done, r.word)
  {
    if s == "" {
      assert done + [] == done;
    } else {
      var n := |s| - 1;
      ReadOnFrom(cs, done, s[..n]);
      var r := ReadFrom(cs, Reading([], ""), s[..n]);
      assert done + (r.done + [r.word]) == done + r.done + [r.word];
    }
  }

  lemma FinishedOnFrom(cs: Classes, done: seq<string>, s: string)
    ensures Finish(ReadFrom(cs, Reading(done, ""), s)) == done + Words(cs, s)
  {
    ReadOnFrom(cs, done, s);
    var r := ReadFrom(cs, Reading([], ""), s);
    assert done + (r.done + [r.word]) == done + r.done + [r.word];
  }

  lemma WordsAround(cs: Classes, a: string, blank: char, b: string)
    requires cs.space(blank)
    ensures Words(cs, a + [blank] + b) == Words(cs, a) + Words(cs, b)
  {
    var start := Reading([], "");
    ReadAppend(cs, start, a + [blank], b);
    assert (a + [blank])[..|a|] == a;
    assert ReadFrom(cs, start, a + [blank]) == Reading(Words(cs, a), "");
    FinishedOnFrom(cs, Words(cs, a), b);
  }

  // ----- lines keep their words

  lemma {:induction false} TrimKeepsWords(cs: Classes, s: string)
    ensures Words(cs, RightTrim(cs, s)) == Words(cs, s)
  {
    if s != "" && cs.space(s[|s| - 1]) { TrimKeepsWords(cs, s[..|s| - 1]); }
  }

  lemma {:induction false} NoInkNoWords(cs: Classes, s: string)
    requires !HasInk(cs, s)
    ensures Words(cs, s) == []
  {
    if s != "" {
      assert cs.space(s[|s| - 1]);
      assert forall i :: 0 <= i < |s| - 1 ==> s[..|s| - 1][i] == s[i];
      NoInkNoWords(cs, s[..|s| - 1]);
    }
  }

  function WordsOfAll(cs: Classes, lines: seq<string>): seq<string> {
    if lines == [] then [] else WordsOfAll(cs, lines[..|lines| - 1]) + Words(cs, lines[|lines| - 1])
  }

  lemma WordsOfMore(cs: Classes, lines: seq<string>, line: seq<Glyph>)
    ensures WordsOfAll(cs, lines + FinishedLine(cs, line)) == WordsOfAll(cs, lines) + Words(cs, Chars(line))
  {
    var finished := FinishedLine(cs, line);
    TrimKeepsWords(cs, Chars(line));
    if finished == [] {
      NoInkNoWords(cs, Chars(line));
      assert lines + finished == lines;
    } else {
      assert (lines + finished)[..|lines|] == lines;
    }
  }

  lemma {:induction false} JoinKeepsWords(cs: Classes, lines: seq<string>)
    requires cs.space('\n')
    ensures Words(cs, Join(lines)) == WordsOfAll(cs, lines)
  {
    if |lines| == 1 {
      assert lines[..0] == [];
    } else if |lines| > 1 {
      var n := |lines| - 1;
      JoinKeepsWords(cs, lines[..n]);
      WordsAround(cs, Join(lines[..n]), '\n', lines[n]);
    }
  }

  /** Reading the kept characters is reading the open line after the closed ones. */
  lemma {:induction false} LinesKeepWords(cs: Classes, g: seq<Glyph>)
    requires cs.space('\n')
    ensures ReadFrom(cs, Reading([], ""), Chars(g))
      == ReadFrom(cs, Reading(WordsOfAll(cs, ClosedLines(cs, g)), ""), Chars(OpenLine(g)))
  {
    hide FinishedLine;
    if g != [] {
      var before, last := g[..|g| - 1], g[|g| - 1];
      LinesKeepWords(cs, before);
      var open := OpenLine(before);
      var done := WordsOfAll(cs, ClosedLines(cs, before));
      if last == Ch('\n') {
        WordsOfMore(cs, ClosedLines(cs, before), open);
        FinishedOnFrom(cs, done, Chars(open));
        assert (Chars(before) + "\n")[..|Chars(before)|] == Chars(before);
        assert Chars(OpenLine(g)) == "";
        hide WordsOfAll, ClosedLines, OpenLine;
      } else {
        assert OpenLine(g) == open + [last] && OpenLine(g)[..|open|] == open;
        assert ClosedLines(cs, g) == ClosedLines(cs, before);
        if last.Ch? {
          assert (Chars(before) + [last.c])[..|Chars(before)|] == Chars(before);
          assert (Chars(open) + [last.c])[..|Chars(open)|] == Chars(open);
        }
      }
    }
  }

  /** Dropping, trimming and joining lines changes no word. */
  lemma RenderedWords(cs: Classes, tokens: seq<Token>)
    requires Comments(tokens) && cs.space('\n')
    ensures Words(cs, Rendered(cs, tokens, false)) == Words(cs, Chars(AllMarked(cs, tokens, false)))
  {
    hide FinishedLine, AllMarked, ClosedLines, OpenLine, Chars;
    var g := AllMarked(cs, tokens, false);
    LinesKeepWords(cs, g);
    WordsOfMore(cs, ClosedLines(cs, g), OpenLine(g));
    JoinKeepsWords(cs, ClosedLines(cs, g) + FinishedLine(cs, OpenLine(g)));
    var done := WordsOfAll(cs, ClosedLines(cs, g));
    FinishedOnFrom(cs, done, Chars(OpenLine(g)));
  }

  // ----- gaps

  /** The text with a blank where each comment was. */
  function Spaced(g: seq<Glyph>): string {
    if g == [] then ""
    else Spaced(g[..|g| - 1]) + match g[|g| - 1] case Gap => " " case Ch(c) => [c]
  }

  predicate Inked(cs: Classes, x: Glyph) { x.Ch? && !cs.space(x.c) }

  /** The gaps strictly between `i` and `j`, at least one, are all that separates two
      characters that are not blank. */
  predicate JoinAt(cs: Classes, g: seq<Glyph>, i: nat, j: nat) {
    && i + 1 < j < |g| && Inked(cs, g[i]) && Inked(cs, g[j])
    && forall k :: i < k < j ==> g[k] == Gap
  }

  /** `g` ends in gaps directly after a character that is not blank. */
  predicate GapAfterInk(cs: Classes, g: seq<Glyph>) {
    |g| >= 2 && g[|g| - 1] == Gap && (Inked(cs, g[|g| - 2]) || GapAfterInk(cs, g[..|g| - 1]))
  }

  /** How many times gaps alone separate two characters that are not blank. */
  function Joins(cs: Classes, g: seq<Glyph>): nat {
    if g == [] then 0
    else Joins(cs, g[..|g| - 1]) + if Inked(cs, g[|g| - 1]) && GapAfterInk(cs, g[..|g| - 1]) then 1 else 0
  }

  lemma {:induction false} GapAfterInkIs(cs: Classes, g: seq<Glyph>)
    ensures GapAfterInk(cs, g) <==>
      exists i: nat :: i + 1 < |g| && Inked(cs, g[i]) && forall k :: i < k < |g| ==> g[k] == Gap
  {
    if |g| >= 2 {
      var before := g[..|g| - 1];
      GapAfterInkIs(cs, before);
      if GapAfterInk(cs, g) {
        if Inked(cs, g[|g| - 2]) {
          assert Inked(cs, g[|g| - 2]);
        } else {
          var i: nat :| i + 1 < |before| && Inked(cs, before[i]) && forall k :: i < k < |before| ==> before[k] == Gap;
          assert Inked(cs, g[i]) && forall k :: i < k < |before| ==> g[k] == before[k];
        }
      }
      if i: nat :| i + 1 < |g| && Inked(cs, g[i]) && forall k :: i < k < |g| ==> g[k] == Gap {
        assert g[|g| - 1] == Gap;
        if i + 2 < |g| { assert Inked(cs, before[i]) && forall k :: i < k < |before| ==> before[k] == g[k]; }
      }
    }
  }

  lemma {:induction false} JoinsIff(cs: Classes, g: seq<Glyph>)
    ensures Joins(cs, g) > 0 <==> exists i: nat, j: nat :: JoinAt(cs, g, i, j)
  {
    if g != [] {
      var n := |g| - 1;
      var before := g[..n];
      JoinsIff(cs, before);
      GapAfterInkIs(cs, before);
      if Joins(cs, before) > 0 {
        var i: nat, j: nat :| JoinAt(cs, before, i, j);
        assert JoinAt(cs, g, i, j);
      } else if Inked(cs, g[n]) && GapAfterInk(cs, before) {
        var i: nat :| i + 1 < |before| && Inked(cs, before[i]) && forall k :: i < k < |before| ==> before[k] == Gap;
        assert JoinAt(cs, g, i, n);
      }
      if i: nat, j: nat :| JoinAt(cs, g, i, j) {
        if j < n {
          assert JoinAt(cs, before, i, j);
        } else {
          assert Inked(cs, before[i]) && forall k :: i < k < |before| ==> before[k] == Gap;
        }
      }
    }
  }

  predicate EndsInk(cs: Classes, g: seq<Glyph>) { g != [] && Inked(cs, g[|g| - 1]) }

  /** Reading the kept characters (`r`) beside reading the spaced text (`t`). */
  predicate SideBySide(cs: Classes, g: seq<Glyph>, r: Reading, t: Reading) {
    && (t.word != "" <==> EndsInk(cs, g)) && (r.word != "" <==> EndsInk(cs, g) || GapAfterInk(cs, g))
    && |Finish(t)| == |Finish(r)| + Joins(cs, g)
    && (Joins(cs, g) == 0 ==> Finish(t) == Finish(r) && (EndsInk(cs, g) ==> r == t))
  }

  lemma {:induction false} ReadSideBySide(cs: Classes, g: seq<Glyph>)
    requires cs.space(' ')
    ensures SideBySide(cs, g, ReadFrom(cs, Reading([], ""), Chars(g)), ReadFrom(cs, Reading([], ""), Spaced(g)))
  {
    if g != [] {
      var before, last := g[..|g| - 1], g[|g| - 1];
      ReadSideBySide(cs, before);
      var start := Reading([], "");
      var a, b := Chars(before), Spaced(before);
      var c := if last.Ch? then last.c else ' ';
      assert Spaced(g) == b + [c] && (b + [c])[..|b|] == b;
      if last.Ch? { assert (a + [c])[..|a|] == a; }
      NextSideBySide(cs, g, ReadFrom(cs, start, a), ReadFrom(cs, start, b));
    }
  }

  lemma NextSideBySide(cs: Classes, g: seq<Glyph>, r: Reading, t: Reading)
    requires g != [] && cs.space(' ') && SideBySide(cs, g[..|g| - 1], r, t)
    ensures var last := g[|g| - 1];
      SideBySide(cs, g, if last.Ch? then Next(cs, r, last.c) else r, Next(cs, t, if last.Ch? then last.c else ' '))
  {
  }

  /** Strip mode keeps every word apart exactly when no comments alone stand between two
      characters that are not blank; each such place joins two words into one. */
  lemma StripKeepsWordsIff(cs: Classes, tokens: seq<Token>)
    requires Comments(tokens) && cs.space(' ') && cs.space('\n')
    ensures var g := AllMarked(cs, tokens, false);
      && |Words(cs, Spaced(g))| == |Words(cs, Rendered(cs, tokens, false))| + Joins(cs, g)
      && (Words(cs, Rendered(cs, tokens, false)) == Words(cs, Spaced(g)) <==>
        !exists i: nat, j: nat :: JoinAt(cs, g, i, j))
  {
    var g := AllMarked(cs, tokens, false);
    RenderedWords(cs, tokens);
    ReadSideBySide(cs, g);
    JoinsIff(cs, g);
    hide AllMarked, Rendered, JoinAt, Joins, EndsInk, GapAfterInk, Spaced, Chars;
  }
}
