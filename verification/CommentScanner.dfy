/** Splitting C++ text into code, line comments and block comments, character by character.
    Which characters are alphanumeric or white space is left open. */
module CommentScanner {

  datatype Classes = Classes(alnum: char -> bool, space: char -> bool)

  datatype Token = Code(text: string) | Line(text: string) | Block(text: string)

  function Ident(cs: Classes, c: char): bool { cs.alnum(c) || c == '_' }

  // ----- looking ahead

  predicate StartsAt(text: string, i: nat, s: string) {
    i + |s| <= |text| && text[i..i + |s|] == s
  }

  datatype Place = Nowhere | Found(at: nat)

  /** The least occurrence of `s` at or after `i`. */
  function Find(text: string, s: string, i: nat): (r: Place)
    ensures r.Found? ==> i <= r.at && StartsAt(text, r.at, s)
    ensures r.Found? ==> forall k :: i <= k < r.at ==> !StartsAt(text, k, s)
    ensures r.Nowhere? ==> forall k: nat :: i <= k <= |text| ==> !StartsAt(text, k, s)
    decreases |text| - i
  {
    if i > |text| then Nowhere else if StartsAt(text, i, s) then Found(i) else Find(text, s, i + 1)
  }

  /** How much of `text` at `i` an optional encoding prefix followed by `quote` takes; zero
      if it is not there. */
  function Opener(text: string, i: nat, quote: string): (n: nat)
    ensures i + n <= |text| || n == 0
  {
    if StartsAt(text, i, "u8" + quote) then 2 + |quote|
    else if StartsAt(text, i, "u" + quote) || StartsAt(text, i, "U" + quote) || StartsAt(text, i, "L" + quote)
    then 1 + |quote|
    else if StartsAt(text, i, quote) then |quote|
    else 0
  }

  predicate DelimiterChar(c: char) { c !in " ()\\\t\n" }

  /** The end of a run of at most `left` delimiter characters. */
  function DelimiterEnd(text: string, i: nat, left: nat): (e: nat)
    requires i <= |text|
    ensures i <= e <= |text| && e - i <= left
    decreases left
  {
    if left > 0 && i < |text| && DelimiterChar(text[i]) then DelimiterEnd(text, i + 1, left - 1) else i
  }

  datatype Raw = NotRaw | RawString(delimiter: string, body: nat)

  const RAW := "R\""

  function RawAt(text: string, i: nat): (r: Raw)
    ensures r.RawString? ==> i < r.body <= |text|
  {
    var n := Opener(text, i, RAW);
    if n == 0 then NotRaw
    else
      var e := DelimiterEnd(text, i + n, 16);
      if e < |text| && text[e] == '(' then RawString(text[i + n..e], e + 1) else NotRaw
  }

  function EndOf(text: string, s: string, i: nat): (e: nat)
    requires i <= |text|
    ensures i <= e <= |text|
  {
    match Find(text, s, i)
    case Nowhere => |text|
    case Found(at) => at + |s|
  }

  function RawClose(delimiter: string): string { ")" + delimiter + "\"" }

  /** The end of a quoted literal scanned from `i`. */
  function QuotedEnd(text: string, i: nat, quote: char): (e: nat)
    ensures e <= |text| && (i <= |text| ==> i <= e)
    decreases |text| - i
  {
    if i >= |text| then |text|
    else if text[i] == '\\' then QuotedEnd(text, i + 2, quote)
    else if text[i] == quote then i + 1
    else QuotedEnd(text, i + 1, quote)
  }

  predicate Newline(c: char) { c == '\r' || c == '\n' }

  predicate At(text: string, i: nat, c: char) { i < |text| && text[i] == c }

  /** Past a backslash and the line end after it. */
  function AfterContinuation(text: string, i: nat): (j: nat)
    requires i + 1 < |text|
    ensures i < j <= |text|
  {
    var j := if text[i + 1] == '\r' then i + 2 else i + 1;
    if At(text, j, '\n') then j + 1 else j
  }

  predicate Continues(text: string, i: nat) {
    At(text, i, '\\') && i + 1 < |text| && Newline(text[i + 1])
  }

  /** The end of a line comment whose text is scanned from `i`. */
  function LineEnd(text: string, i: nat): (e: nat)
    requires i <= |text|
    ensures i <= e <= |text|
    decreases |text| - i
  {
    if i == |text| then i
    else if Continues(text, i) then LineEnd(text, AfterContinuation(text, i))
    else if Newline(text[i]) then i
    else LineEnd(text, i + 1)
  }

  /** The third character marks a documentation comment.  At the end of the text there is
      none, and the empty marker counts as one. */
  predicate DocMarked(text: string, i: nat, mark: char) {
    i + 2 >= |text| || text[i + 2] == mark || text[i + 2] == '!'
  }

  // ----- one step of the scanner

  datatype Kind = Plain | Doc | LineComment | BlockComment

  datatype Step = Step(kind: Kind, end: nat)

  predicate Boundary(cs: Classes, text: string, i: nat)
    requires i < |text|
  {
    i == 0 || !Ident(cs, text[i - 1])
  }

  function LiteralAt(text: string, i: nat): (r: Place)
    ensures r.Found? ==> i < r.at <= |text|
  {
    if RawAt(text, i).RawString? then Found(EndOf(text, RawClose(RawAt(text, i).delimiter), RawAt(text, i).body))
    else if Opener(text, i, "\"") > 0 then Found(QuotedEnd(text, i + Opener(text, i, "\""), '\"'))
    else if Opener(text, i, "'") > 0 then Found(QuotedEnd(text, i + Opener(text, i, "'"), '\''))
    else Nowhere
  }

  function StepAt(cs: Classes, text: string, i: nat): (s: Step)
    requires i < |text|
    ensures i < s.end <= |text|
  {
    if Boundary(cs, text, i) && LiteralAt(text, i).Found? then Step(Plain, LiteralAt(text, i).at)
    else if StartsAt(text, i, "//") then
      Step(if DocMarked(text, i, '/') then Doc else LineComment, LineEnd(text, i + 2))
    else if StartsAt(text, i, "/*") then
      Step(if DocMarked(text, i, '*') then Doc else BlockComment, EndOf(text, "*/", i + 2))
    else Step(Plain, i + 1)
  }

  function Flush(buf: string): seq<Token> { if buf == "" then [] else [Code(buf)] }

  /** The tokens a piece completes, after the code in `buf`, and the code left in hand. */
  function Emitted(kind: Kind, buf: string, piece: string): seq<Token> {
    match kind
    case Plain => []
    case Doc => Flush(buf)
    case LineComment => Flush(buf) + [Line(piece)]
    case BlockComment => Flush(buf) + [Block(piece)]
  }

  function Buffered(kind: Kind, buf: string, piece: string): string {
    match kind
    case Plain => buf + piece
    case Doc => piece
    case LineComment => ""
    case BlockComment => ""
  }

  /** The tokens from `i` on when `buf` is the code collected so far. */
  function TokensFrom(cs: Classes, text: string, i: nat, buf: string): seq<Token>
    requires i <= |text|
    decreases |text| - i
  {
    if i == |text| then Flush(buf)
    else
      var s := StepAt(cs, text, i);
      var piece := text[i..s.end];
      Emitted(s.kind, buf, piece) + TokensFrom(cs, text, s.end, Buffered(s.kind, buf, piece))
  }

  function Tokens(cs: Classes, text: string): seq<Token> { TokensFrom(cs, text, 0, "") }

  // ----- nothing is lost

  function Concat(tokens: seq<Token>): string {
    if tokens == [] then "" else tokens[0].text + Concat(tokens[1..])
  }

  lemma {:induction false} ConcatAppend(a: seq<Token>, b: seq<Token>)
    ensures Concat(a + b) == Concat(a) + Concat(b)
  {
    if a == [] {
      assert a + b == b;
    } else {
      ConcatAppend(a[1..], b);
      assert (a + b)[1..] == a[1..] + b && (a + b)[0] == a[0];
    }
  }

  lemma PieceKept(kind: Kind, buf: string, piece: string)
    ensures Concat(Flush(buf)) == buf
    ensures Concat(Emitted(kind, buf, piece)) + Buffered(kind, buf, piece) == buf + piece
  {
    ConcatAppend(Flush(buf), [Line(piece)]);
    ConcatAppend(Flush(buf), [Block(piece)]);
  }

  lemma {:induction false} LosslessFrom(cs: Classes, text: string, i: nat, buf: string)
    requires i <= |text|
    ensures Concat(TokensFrom(cs, text, i, buf)) == buf + text[i..]
    decreases |text| - i
  {
    hide StepAt, Flush, Emitted, Buffered, Concat;
    PieceKept(Plain, buf, "");
    if i < |text| {
      var s := StepAt(cs, text, i);
      var piece := text[i..s.end];
      assert text[i..] == piece + text[s.end..];
      PieceKept(s.kind, buf, piece);
      LosslessFrom(cs, text, s.end, Buffered(s.kind, buf, piece));
      ConcatAppend(Emitted(s.kind, buf, piece), TokensFrom(cs, text, s.end, Buffered(s.kind, buf, piece)));
      var out, held := Concat(Emitted(s.kind, buf, piece)), Buffered(s.kind, buf, piece);
      assert out + (held + text[s.end..]) == (out + held) + text[s.end..];
      assert (buf + piece) + text[s.end..] == buf + text[i..];
    }
  }

  /** The tokens of any text concatenate back to it. */
  lemma Lossless(cs: Classes, text: string)
    ensures Concat(Tokens(cs, text)) == text
  {
    LosslessFrom(cs, text, 0, "");
  }

  // ----- the loops

  method ScanQuoted(text: string, start: nat, quote: char) returns (end: nat)
    ensures end == QuotedEnd(text, start, quote)
  {
    var i := start;
    while i < |text|
      invariant QuotedEnd(text, i, quote) == QuotedEnd(text, start, quote)
      decreases |text| - i
    {
      if text[i] == '\\' {
        i := i + 2;
      } else {
        if text[i] == quote { return i + 1; }
        i := i + 1;
      }
    }
    end := |text|;
  }

  method ScanLineComment(text: string, start: nat) returns (end: nat)
    requires StartsAt(text, start, "//")
    ensures end == LineEnd(text, start + 2)
  {
    var i := start + 2;
    while i < |text|
      invariant i <= |text| && LineEnd(text, i) == LineEnd(text, start + 2)
    {
      if text[i] == '\\' && i + 1 < |text| && Newline(text[i + 1]) {
        var j := i + 1;
        if text[j] == '\r' { j := j + 1; }
        if j < |text| && text[j] == '\n' { j := j + 1; }
        assert Continues(text, i) && j == AfterContinuation(text, i);
        i := j;
      } else if Newline(text[i]) {
        return i;
      } else {
        i := i + 1;
      }
    }
    end := |text|;
  }

  lemma NoneLeft(cs: Classes, text: string, buf: string)
    ensures TokensFrom(cs, text, |text|, buf) == Flush(buf)
  {
  }

  lemma StepTokens(cs: Classes, text: string, i: nat, buf: string, tokens: seq<Token>)
    requires i < |text| && tokens + TokensFrom(cs, text, i, buf) == Tokens(cs, text)
    ensures var s := StepAt(cs, text, i); var piece := text[i..s.end];
      (tokens + Emitted(s.kind, buf, piece)) + TokensFrom(cs, text, s.end, Buffered(s.kind, buf, piece))
        == Tokens(cs, text)
  {
    hide StepAt, Emitted, Buffered;
    var s := StepAt(cs, text, i);
    var piece := text[i..s.end];
    var e, rest := Emitted(s.kind, buf, piece), TokensFrom(cs, text, s.end, Buffered(s.kind, buf, piece));
    assert (tokens + e) + rest == tokens + (e + rest);
  }

  /** The scanner itself: code is buffered, comments are cut out, documentation comments
      count as code. */
  method Tokenize(cs: Classes, text: string) returns (tokens: seq<Token>)
    ensures tokens == Tokens(cs, text) && Concat(tokens) == text
  {
    hide StepAt, Concat, Flush, TokensFrom;
    tokens := [];
    var buf, i := "", 0;
    assert tokens + TokensFrom(cs, text, 0, "") == TokensFrom(cs, text, 0, "");
    while i < |text|
      invariant i <= |text| && tokens + TokensFrom(cs, text, i, buf) == Tokens(cs, text)
      decreases |text| - i
    {
      var boundary := i == 0 || !Ident(cs, text[i - 1]);
      var kind, end := ScanStep(cs, text, i, boundary);
      assert i < StepAt(cs, text, i).end == end;
      ghost var before, held := tokens, buf;
      StepTokens(cs, text, i, buf, tokens);
      match kind {
        case Plain =>
          buf := buf + text[i..end];
        case Doc =>
          tokens := tokens + Flush(buf);
          buf := text[i..end];
        case LineComment =>
          tokens := tokens + Flush(buf) + [Line(text[i..end])];
          buf := "";
        case BlockComment =>
          tokens := tokens + Flush(buf) + [Block(text[i..end])];
          buf := "";
      }
      assert tokens == before + Emitted(kind, held, text[i..end]) && buf == Buffered(kind, held, text[i..end]);
      i := end;
    }
    NoneLeft(cs, text, buf);
    tokens := tokens + Flush(buf);
    Lossless(cs, text);
  }

  method ScanStep(cs: Classes, text: string, i: nat, boundary: bool) returns (kind: Kind, end: nat)
    requires i < |text| && boundary == Boundary(cs, text, i)
    ensures Step(kind, end) == StepAt(cs, text, i)
  {
    hide Opener, RawAt, Find;
    kind := Plain;
    if boundary {
      var raw := RawAt(text, i);
      if raw.RawString? {
        end := EndOf(text, RawClose(raw.delimiter), raw.body);
        return;
      }
      var opener := Opener(text, i, "\"");
      if opener > 0 {
        end := ScanQuoted(text, i + opener, '\"');
        return;
      }
      opener := Opener(text, i, "'");
      if opener > 0 {
        end := ScanQuoted(text, i + opener, '\'');
        return;
      }
    }
    if StartsAt(text, i, "//") {
      end := ScanLineComment(text, i);
      kind := if DocMarked(text, i, '/') then Doc else LineComment;
    } else if StartsAt(text, i, "/*") {
      end := EndOf(text, "*/", i + 2);
      kind := if DocMarked(text, i, '*') then Doc else BlockComment;
    } else {
      end := i + 1;
    }
  }
}
