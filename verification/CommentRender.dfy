/** The rewriting pass itself: tokens are fed into a line under construction, lines are
    closed at every line end, and the result is the definition of `CommentRewriter`. */
module CommentRender {
  import opened CommentScanner
  import opened CommentRewriter
  import opened CommentLines

  // ----- splitting at line ends

  function Split(s: string): (parts: seq<string>)
    ensures |parts| > 0
  {
    if s == "" then [""]
    else
      var parts := Split(s[..|s| - 1]);
      if s[|s| - 1] == '\n' then parts + [""] else parts[|parts| - 1 := parts[|parts| - 1] + [s[|s| - 1]]]
  }

  lemma {:induction false} SplitParts(s: string)
    ensures var parts := Split(s);
      && (forall k :: 0 <= k < |parts| ==> '\n' !in parts[k])
      && Terminated(parts[..|parts| - 1]) + parts[|parts| - 1] == s
  {
    if s != "" {
      var n := |s| - 1;
      SplitParts(s[..n]);
      var parts := Split(s[..n]);
      if s[n] == '\n' {
        assert Split(s)[..|parts|] == parts && parts == parts[..|parts| - 1] + [parts[|parts| - 1]];
        TerminatedOneMore(parts[..|parts| - 1], parts[|parts| - 1]);
      } else {
        assert Split(s)[..|parts| - 1] == parts[..|parts| - 1];
      }
    }
  }

  lemma GlyphFed(cs: Classes, g: seq<Glyph>, x: Glyph)
    requires x != Ch('\n')
    ensures OpenLine(g + [x]) == OpenLine(g) + [x] && ClosedLines(cs, g + [x]) == ClosedLines(cs, g)
    ensures Dropped(cs, g + [x]) == Dropped(cs, g)
  {
    hide FinishedLine;
    assert (g + [x])[..|g|] == g;
  }

  lemma {:induction false} OnOneLine(cs: Classes, g: seq<Glyph>, part: string)
    requires '\n' !in part
    ensures OpenLine(g + Glyphs(part)) == OpenLine(g) + Glyphs(part)
    ensures ClosedLines(cs, g + Glyphs(part)) == ClosedLines(cs, g)
    ensures Dropped(cs, g + Glyphs(part)) == Dropped(cs, g)
    decreases |part|
  {
    hide OpenLine, ClosedLines, Dropped;
    if part == "" {
      assert g + Glyphs(part) == g && OpenLine(g) + Glyphs(part) == OpenLine(g);
    } else {
      var n := |part| - 1;
      assert forall c :: c in part[..n] ==> c in part;
      assert part[n] in part;
      OnOneLine(cs, g, part[..n]);
      GlyphFed(cs, g + Glyphs(part[..n]), Ch(part[n]));
      assert Glyphs(part) == Glyphs(part[..n]) + [Ch(part[n])];
      assert g + Glyphs(part) == g + Glyphs(part[..n]) + [Ch(part[n])];
    }
  }

  lemma GapFed(cs: Classes, g: seq<Glyph>)
    ensures ClosedLines(cs, g + [Gap]) == ClosedLines(cs, g) && Dropped(cs, g + [Gap]) == Dropped(cs, g)
    ensures Chars(OpenLine(g + [Gap])) == Chars(OpenLine(g)) && Gap in OpenLine(g + [Gap])
  {
    GlyphFed(cs, g, Gap);
    hide OpenLine, ClosedLines, Dropped;
    var open := OpenLine(g);
    assert (open + [Gap])[..|open|] == open && (open + [Gap])[|open|] == Gap;
  }

  lemma EndFed(cs: Classes, g: seq<Glyph>)
    ensures ClosedLines(cs, g + [Ch('\n')]) == ClosedLines(cs, g) + FinishedLine(cs, OpenLine(g))
    ensures Dropped(cs, g + [Ch('\n')]) == Dropped(cs, g) + if FinishedLine(cs, OpenLine(g)) == [] then 1 else 0
    ensures OpenLine(g + [Ch('\n')]) == []
  {
    hide FinishedLine;
    assert (g + [Ch('\n')])[..|g|] == g;
  }

  lemma GlyphOfLineEnd()
    ensures Glyphs("\n") == [Ch('\n')]
  {
  }

  lemma GlyphsAppend(a: string, b: string)
    ensures Glyphs(a + b) == Glyphs(a) + Glyphs(b)
  {
  }

  lemma InkOfPart(cs: Classes, a: string, b: string)
    ensures HasInk(cs, a + b) <==> HasInk(cs, a) || HasInk(cs, b)
  {
    NoInk(cs, a + b);
    NoInk(cs, a);
    NoInk(cs, b);
    InkAppend(cs, a, b);
  }

  // ----- what the counters count

  function InkedParts(cs: Classes, parts: seq<string>): nat {
    if parts == [] then 0
    else InkedParts(cs, parts[..|parts| - 1]) + if HasInk(cs, parts[|parts| - 1]) then 1 else 0
  }

  /** Lines of republished comments that are not blank. */
  function RepublishedLines(cs: Classes, tokens: seq<Token>): nat
    requires Comments(tokens)
  {
    if tokens == [] then 0
    else
      var last := tokens[|tokens| - 1];
      RepublishedLines(cs, tokens[..|tokens| - 1])
      + if Prose(cs, last) then InkedParts(cs, Split(Republished(last))) else 0
  }

  function ParameterComments(cs: Classes, tokens: seq<Token>): nat {
    if tokens == [] then 0
    else
      var last := tokens[|tokens| - 1];
      ParameterComments(cs, tokens[..|tokens| - 1]) + if last.Block? && !Prose(cs, last) then 1 else 0
  }

  /** The comment with the second character of its opening doubled: every byte is kept. */
  lemma RepublishedKeepsBytes(t: Token)
    requires Proper(t) && !t.Code?
    ensures |t.text| >= 2
    ensures var r := Republished(t);
      |r| == |t.text| + 1 && r[..2] == t.text[..2] && r[2] == t.text[1] && r[3..] == t.text[2..]
  {
    assert t.text[0] == '/' && t.text[1] == if t.Line? then '/' else '*';
  }

  function Inked(cs: Classes, parts: seq<string>): set<nat> { set k | 0 <= k < |parts| && HasInk(cs, parts[k]) }

  function NamingParameters(cs: Classes, tokens: seq<Token>): set<nat> {
    set k | 0 <= k < |tokens| && tokens[k].Block? && NamesParameter(cs, tokens[k].text)
  }

  /** The count of a converted comment is the number of its parts that hold ink. */
  lemma {:induction false} InkedPartsCount(cs: Classes, parts: seq<string>)
    ensures InkedParts(cs, parts) == |Inked(cs, parts)|
  {
    hide HasInk;
    if parts == [] {
      assert Inked(cs, parts) == {};
    } else {
      var n := |parts| - 1;
      InkedPartsCount(cs, parts[..n]);
      var before := Inked(cs, parts[..n]);
      if HasInk(cs, parts[n]) {
        assert Inked(cs, parts) == before + {n};
      } else {
        assert Inked(cs, parts) == before;
      }
    }
  }

  /** The other count is the number of block comments that name a parameter. */
  lemma {:induction false} ParameterCommentsCount(cs: Classes, tokens: seq<Token>)
    ensures ParameterComments(cs, tokens) == |NamingParameters(cs, tokens)|
  {
    hide NamesParameter;
    if tokens == [] {
      assert NamingParameters(cs, tokens) == {};
    } else {
      var n := |tokens| - 1;
      ParameterCommentsCount(cs, tokens[..n]);
      var before := NamingParameters(cs, tokens[..n]);
      if tokens[n].Block? && NamesParameter(cs, tokens[n].text) {
        assert NamingParameters(cs, tokens) == before + {n};
      } else {
        assert NamingParameters(cs, tokens) == before;
      }
    }
  }

  // ----- the lines under construction

  class Assembly {
    const cs: Classes
    var lines: seq<string>
    var cur: string
    var hasRealCode: bool
    var hadRemoved: bool
    var dropped: nat
    ghost var fed: seq<Glyph>

    ghost predicate Valid()
      reads this
    {
      && lines == ClosedLines(cs, fed) && cur == Chars(OpenLine(fed)) && dropped == Dropped(cs, fed)
      && hasRealCode == HasInk(cs, cur) && hadRemoved == (Gap in OpenLine(fed))
    }

    constructor (cs: Classes)
      ensures Valid() && fed == [] && this.cs == cs
    {
      this.cs := cs;
      lines, cur, hasRealCode, hadRemoved, dropped, fed := [], "", false, false, 0, [];
    }

    /** Everything fed so far and a line end: the open line is added as written, or
        counted as dropped. */
    method EndLine()
      requires Valid()
      modifies this
      ensures Valid() && fed == old(fed) + [Ch('\n')]
      ensures cur == "" && !hasRealCode && !hadRemoved
      ensures if Stays(cs, old(OpenLine(fed)))
              then |lines| == |old(lines)| + 1 && old(lines) <= lines && dropped == old(dropped)
              else lines == old(lines) && dropped == old(dropped) + 1
      ensures Stays(cs, old(OpenLine(fed))) ==> WrittenAs(cs, old(OpenLine(fed)), lines[|old(lines)|])
    {
      FinishedLineIs(cs, OpenLine(fed));
      if hasRealCode {
        lines := lines + [if hadRemoved then RightTrim(cs, cur) else cur];
      } else if hadRemoved {
        dropped := dropped + 1;
      } else {
        lines := lines + [cur];
      }
      cur, hasRealCode, hadRemoved := "", false, false;
      EndFed(cs, fed);
      fed := fed + [Ch('\n')];
    }

    /** A part of a line. */
    method Append(part: string)
      requires Valid() && '\n' !in part
      modifies this
      ensures Valid() && fed == old(fed) + Glyphs(part)
    {
      hide OpenLine, ClosedLines, Dropped, HasInk;
      InkOfPart(cs, cur, part);
      OnOneLine(cs, fed, part);
      CharsOfGlyphs(OpenLine(fed), part);
      cur := cur + part;
      if HasInk(cs, part) { hasRealCode := true; }
      fed := fed + Glyphs(part);
    }

    /** The place of a removed comment. */
    method Remove()
      requires Valid()
      modifies this
      ensures Valid() && fed == old(fed) + [Gap]
    {
      hide OpenLine, ClosedLines, Chars, Dropped, HasInk;
      GapFed(cs, fed);
      hadRemoved := true;
      fed := fed + [Gap];
    }

    /** Text of any number of lines; `inked` counts the parts that are not blank. */
    method AppendText(txt: string) returns (inked: nat)
      requires Valid()
      modifies this
      ensures Valid() && fed == old(fed) + Glyphs(txt) && inked == InkedParts(cs, Split(txt))
    {
      hide OpenLine, ClosedLines, Dropped, HasInk, Chars, Split, Glyphs;
      var parts := Split(txt);
      SplitParts(txt);
      inked := 0;
      ghost var before := fed;
      for k := 0 to |parts| - 1
        invariant Valid() && inked == InkedParts(cs, parts[..k])
        invariant fed == before + Glyphs(Terminated(parts[..k]))
      {
        InkedNext(cs, parts, k);
        Append(parts[k]);
        if HasInk(cs, parts[k]) { inked := inked + 1; }
        EndLine();
        TerminatedNext(parts, k);
        GlyphsAppend(Terminated(parts[..k]), parts[k]);
        GlyphsAppend(Terminated(parts[..k]) + parts[k], "\n");
        GlyphOfLineEnd();
      }
      var last := |parts| - 1;
      InkedNext(cs, parts, last);
      GlyphsAppend(Terminated(parts[..last]), parts[last]);
      Append(parts[last]);
      if HasInk(cs, parts[last]) { inked := inked + 1; }
      assert parts[..|parts|] == parts;
    }
  }

  lemma InkedNext(cs: Classes, parts: seq<string>, k: nat)
    requires k < |parts|
    ensures InkedParts(cs, parts[..k + 1]) == InkedParts(cs, parts[..k]) + if HasInk(cs, parts[k]) then 1 else 0
  {
    assert parts[..k + 1][..k] == parts[..k];
  }

  lemma TerminatedNext(parts: seq<string>, k: nat)
    requires k < |parts|
    ensures Terminated(parts[..k + 1]) == Terminated(parts[..k]) + parts[k] + "\n"
  {
    assert parts[..k + 1][..k] == parts[..k];
  }

  // ----- the pass

  predicate Proper(t: Token) {
    && (t.Code? ==> t.text != "")
    && (t.Line? ==> StartsAt(t.text, 0, "//"))
    && (t.Block? ==> StartsAt(t.text, 0, "/*"))
  }

  predicate AllProper(tokens: seq<Token>) { forall i :: 0 <= i < |tokens| ==> Proper(tokens[i]) }

  /** The output's lines in strip mode, and the number of lines that are gone. */
  predicate StrippedTo(cs: Classes, lines: seq<seq<Glyph>>, outs: seq<string>, removed: nat) {
    LinesKept(cs, lines, outs) && removed + |outs| == |lines|
  }

  method Render(cs: Classes, tokens: seq<Token>, convert: bool)
    returns (text: string, removed: nat, preserved: nat)
    requires AllProper(tokens)
    ensures Comments(tokens) && text == Rendered(cs, tokens, convert)
    ensures convert ==> removed == RepublishedLines(cs, tokens)
    ensures !convert ==> exists outs: seq<string> ::
      StrippedTo(cs, MarkedLines(AllMarked(cs, tokens, false)), outs, removed) && text == Join(outs)
    ensures preserved == ParameterComments(cs, tokens)
  {
    hide FinishedLine, NamesParameter, Dropped, InkedParts, HasInk, StartsAt, OpenLine, ClosedLines, Chars, Glyphs,
      Split;
    ProperComments(tokens);
    var a := new Assembly(cs);
    removed, preserved := 0, 0;
    for k := 0 to |tokens|
      invariant a.Valid() && a.cs == cs && a.fed == AllMarked(cs, tokens[..k], convert)
      invariant removed == if convert then RepublishedLines(cs, tokens[..k]) else 0
      invariant preserved == ParameterComments(cs, tokens[..k])
    {
      assert tokens[..k + 1][..k] == tokens[..k];
      var inked, parameter := RenderToken(a, tokens[k], convert);
      removed := removed + inked;
      if parameter { preserved := preserved + 1; }
    }
    assert tokens[..|tokens|] == tokens;
    ghost var g := a.fed;
    EndFed(cs, g);
    a.EndLine();
    if convert {
      ConvertHasNoGaps(cs, tokens);
      NoGapsNoDrops(cs, g + [Ch('\n')]);
    }
    removed := removed + a.dropped;
    text := Join(a.lines);
    OutputLines(cs, g);
    assert !convert ==> StrippedTo(cs, MarkedLines(g), a.lines, removed);
  }

  /** One token: its marks are fed; the counts are what it adds to the totals. */
  method RenderToken(a: Assembly, t: Token, convert: bool) returns (inked: nat, parameter: bool)
    requires a.Valid() && Comment(t)
    modifies a
    ensures a.Valid() && a.fed == old(a.fed) + Marked(a.cs, t, convert)
    ensures inked == if convert && Prose(a.cs, t) then InkedParts(a.cs, Split(Republished(t))) else 0
    ensures parameter == (t.Block? && !Prose(a.cs, t))
  {
    hide FinishedLine, NamesParameter, Dropped, InkedParts, HasInk, OpenLine, ClosedLines, Chars, Glyphs, Split;
    inked, parameter := 0, false;
    match t {
      case Code(txt) =>
        var _ := a.AppendText(txt);
      case Line(txt) =>
        if convert {
          inked := a.AppendText("///" + txt[2..]);
        } else {
          a.Remove();
        }
      case Block(txt) =>
        if NamesParameter(a.cs, txt) {
          NoLineEnd(a.cs, txt);
          a.Append(txt);
          parameter := true;
        } else if convert {
          inked := a.AppendText("/**" + txt[2..]);
        } else if '\n' in txt {
          a.Remove();
          a.EndLine();
          a.Remove();
        } else {
          a.Remove();
        }
    }
  }

  lemma {:induction false} NoGapsNoDrops(cs: Classes, g: seq<Glyph>)
    requires Gap !in g
    ensures Dropped(cs, g) == 0
  {
    if g != [] {
      var before := g[..|g| - 1];
      assert forall x :: x in before ==> x in g;
      NoGapsNoDrops(cs, before);
      OpenLineNoGap(before);
    }
  }

  lemma ProperComments(tokens: seq<Token>)
    requires AllProper(tokens)
    ensures Comments(tokens)
  {
    forall i | 0 <= i < |tokens| ensures Comment(tokens[i]) { assert Proper(tokens[i]); }
  }

  lemma NoLineEnd(cs: Classes, txt: string)
    requires NamesParameter(cs, txt)
    ensures '\n' !in txt
  {
  }

  // ----- from text to text

  lemma FlushProper(buf: string)
    ensures AllProper(Flush(buf))
  {
  }

  lemma PieceProper(cs: Classes, text: string, i: nat, buf: string)
    requires i < |text|
    ensures var s := StepAt(cs, text, i); AllProper(Emitted(s.kind, buf, text[i..s.end]))
  {
    hide LiteralAt, Find;
    var s := StepAt(cs, text, i);
    var piece := text[i..s.end];
    FlushProper(buf);
    match s.kind
    case Plain =>
    case Doc =>
    case LineComment =>
      assert piece[..2] == text[i..i + 2];
    case BlockComment =>
      assert piece[..2] == text[i..i + 2];
  }

  lemma {:induction false} TokensProper(cs: Classes, text: string, i: nat, buf: string)
    requires i <= |text|
    ensures AllProper(TokensFrom(cs, text, i, buf))
    decreases |text| - i
  {
    hide StepAt, Proper, Emitted, Buffered, Flush;
    FlushProper(buf);
    if i < |text| {
      PieceProper(cs, text, i, buf);
      var s := StepAt(cs, text, i);
      TokensProper(cs, text, s.end, Buffered(s.kind, buf, text[i..s.end]));
    }
  }

  /** The script's pass over one text.  Converting keeps every character and adds one to
      each prose comment; stripping keeps every character of code and of parameter
      comments that is not white space. */
  method StripComments(cs: Classes, text: string, convert: bool) returns (result: string, removed: nat, preserved: nat)
    ensures Comments(Tokens(cs, text))
    ensures convert ==> result == ConvertedAll(cs, Tokens(cs, text))
    ensures !convert && cs.space('\n') ==> Ink(cs, result) == Ink(cs, Kept(cs, Tokens(cs, text)))
    ensures result == Rendered(cs, Tokens(cs, text), convert)
    ensures !convert ==> exists outs: seq<string> ::
      StrippedTo(cs, MarkedLines(AllMarked(cs, Tokens(cs, text), false)), outs, removed) && result == Join(outs)
    ensures convert ==> removed == RepublishedLines(cs, Tokens(cs, text))
    ensures preserved == ParameterComments(cs, Tokens(cs, text))
  {
    hide StrippedTo, AllMarked, Rendered, Kept, ConvertedAll, Tokens, Proper;
    var tokens := Tokenize(cs, text);
    TokensAreProper(cs, text);
    result, removed, preserved := Render(cs, tokens, convert);
    if convert {
      ConvertIsConcatenation(cs, tokens);
    } else if cs.space('\n') {
      StripLosesNoCode(cs, tokens);
    }
  }

  lemma TokensAreProper(cs: Classes, text: string)
    ensures AllProper(Tokens(cs, text))
  {
    TokensProper(cs, text, 0, "");
  }

  /** What strip mode does not keep: the gap a comment leaves is closed up, so the code on
      its two sides can run together. */
  lemma StripMayJoin(cs: Classes)
    requires !cs.space('a') && !cs.space('b') && cs.space(' ')
    ensures var tokens := [Code("a"), Block("/* */"), Code("b")];
      AllProper(tokens) && Comments(tokens) && Rendered(cs, tokens, false) == "ab"
  {
    JoinedMarks(cs);
    JoinedLine(cs);
    hide AllMarked, FinishedLine, ClosedLines, OpenLine;
    var line := ["ab"];
    assert [] + line == line;
  }

  lemma JoinedMarks(cs: Classes)
    requires cs.space(' ')
    ensures var tokens := [Code("a"), Block("/* */"), Code("b")];
      AllProper(tokens) && Comments(tokens) && AllMarked(cs, tokens, false) == [Ch('a'), Gap, Ch('b')]
  {
    var tokens := [Code("a"), Block("/* */"), Code("b")];
    assert !NamesParameter(cs, "/* */") by { assert !Letter('*') && !Letter('/'); }
    assert Marked(cs, tokens[0], false) == [Ch('a')] && Marked(cs, tokens[2], false) == [Ch('b')];
    hide NamesParameter, Marked;
    assert tokens[..2][..1][..0] == [] && tokens[..2][1] == tokens[1] && tokens[..2][..1][0] == tokens[0];
    assert AllMarked(cs, tokens[..2][..1], false) == [Ch('a')];
    assert AllMarked(cs, tokens[..2], false) == [Ch('a')] + Marked(cs, tokens[1], false);
  }

  lemma JoinedLine(cs: Classes)
    requires !cs.space('a') && !cs.space('b')
    ensures var g := [Ch('a'), Gap, Ch('b')]; ClosedLines(cs, g) == [] && FinishedLine(cs, OpenLine(g)) == ["ab"]
  {
    var g := [Ch('a'), Gap, Ch('b')];
    var one, two := [Ch('a')], [Ch('a'), Gap];
    assert g[..2] == two && two[..1] == one && one[..0] == [];
    NeverClosed(cs, one);
    NeverClosed(cs, two);
    NeverClosed(cs, g);
    hide ClosedLines, OpenLine;
    assert Chars(one) == "a" && Chars(two) == "a" && Chars(g) == "ab";
    assert !cs.space("ab"[1]);
  }

  lemma {:induction false} NeverClosed(cs: Classes, g: seq<Glyph>)
    requires Ch('\n') !in g
    ensures ClosedLines(cs, g) == [] && OpenLine(g) == g
  {
    if g != [] {
      var before, last := g[..|g| - 1], g[|g| - 1];
      assert forall x :: x in before ==> x in g;
      assert last in g && g == before + [last];
      NeverClosed(cs, before);
      GlyphFed(cs, before, last);
    }
  }
}
