/** Converting twice is converting once.  The scanner is followed through a text and through
    its converted form side by side: every piece of the one is a piece of the other, and
    what was prose is documentation. */
module CommentIdempotence {
  import opened CommentScanner
  import opened CommentRewriter

  // ----- conversion piece by piece

  function ConvertedPiece(cs: Classes, kind: Kind, piece: string): string
    requires |piece| >= 1 && (kind.LineComment? || kind.BlockComment? ==> |piece| >= 2)
  {
    match kind
    case Plain => piece
    case Doc => piece
    case LineComment => "///" + piece[2..]
    case BlockComment => if NamesParameter(cs, piece) then piece else "/**" + piece[2..]
  }

  lemma CommentLength(cs: Classes, text: string, i: nat)
    requires i < |text|
    ensures var s := StepAt(cs, text, i);
      s.kind.LineComment? || s.kind.BlockComment? ==> i + 2 <= s.end && i + 2 < |text|
    ensures StepAt(cs, text, i).kind.BlockComment? ==> i + 3 <= StepAt(cs, text, i).end
  {
    hide LiteralAt, LineEnd;
  }

  function ConvertFrom(cs: Classes, text: string, i: nat): string
    requires i <= |text|
    decreases |text| - i
  {
    if i == |text| then ""
    else
      CommentLength(cs, text, i);
      var s := StepAt(cs, text, i);
      ConvertedPiece(cs, s.kind, text[i..s.end]) + ConvertFrom(cs, text, s.end)
  }

  lemma {:induction false} ConvertedAppend(cs: Classes, a: seq<Token>, b: seq<Token>)
    requires Comments(a) && Comments(b)
    ensures Comments(a + b) && ConvertedAll(cs, a + b) == ConvertedAll(cs, a) + ConvertedAll(cs, b)
  {
    hide Converted;
    if a == [] {
      assert a + b == b;
    } else {
      ConvertedAppend(cs, a[1..], b);
      assert (a + b)[1..] == a[1..] + b && (a + b)[0] == a[0];
    }
  }

  lemma ConvertedFlush(cs: Classes, buf: string)
    ensures Comments(Flush(buf)) && ConvertedAll(cs, Flush(buf)) == buf
  {
  }

  lemma PieceConverts(cs: Classes, kind: Kind, buf: string, piece: string)
    requires |piece| >= 1 && (kind.LineComment? || kind.BlockComment? ==> |piece| >= 2)
    ensures Comments(Emitted(kind, buf, piece))
    ensures ConvertedAll(cs, Emitted(kind, buf, piece)) + Buffered(kind, buf, piece)
      == buf + ConvertedPiece(cs, kind, piece)
  {
    ConvertedFlush(cs, buf);
    match kind
    case Plain =>
    case Doc =>
    case LineComment =>
      ConvertedAppend(cs, Flush(buf), [Line(piece)]);
      assert ConvertedAll(cs, [Line(piece)]) == Converted(cs, Line(piece)) + ConvertedAll(cs, []);
    case BlockComment =>
      ConvertedAppend(cs, Flush(buf), [Block(piece)]);
      assert ConvertedAll(cs, [Block(piece)]) == Converted(cs, Block(piece)) + ConvertedAll(cs, []);
  }

  /** Converting the tokens is converting the pieces: merging code does not matter. */
  lemma {:induction false} TokensConvert(cs: Classes, text: string, i: nat, buf: string)
    requires i <= |text|
    ensures Comments(TokensFrom(cs, text, i, buf))
    ensures ConvertedAll(cs, TokensFrom(cs, text, i, buf)) == buf + ConvertFrom(cs, text, i)
    decreases |text| - i
  {
    hide StepAt, Flush, Emitted, Buffered, ConvertedAll, ConvertedPiece;
    if i == |text| {
      ConvertedFlush(cs, buf);
    } else {
      CommentLength(cs, text, i);
      var s := StepAt(cs, text, i);
      var piece := text[i..s.end];
      PieceConverts(cs, s.kind, buf, piece);
      var held := Buffered(s.kind, buf, piece);
      TokensConvert(cs, text, s.end, held);
      ConvertedAppend(cs, Emitted(s.kind, buf, piece), TokensFrom(cs, text, s.end, held));
      var out, rest := ConvertedAll(cs, Emitted(s.kind, buf, piece)), ConvertFrom(cs, text, s.end);
      assert out + (held + rest) == (out + held) + rest;
      assert (buf + ConvertedPiece(cs, s.kind, piece)) + rest == buf + (ConvertedPiece(cs, s.kind, piece) + rest);
    }
  }

  // ----- texts that agree for a while

  /** `a` from `i` and `b` from `j` agree for `n` characters and in what comes next. */
  predicate Matches(a: string, i: nat, b: string, j: nat, n: nat) {
    && i + n <= |a| && j + n <= |b|
    && a[i..i + n] == b[j..j + n]
    && (i + n == |a| <==> j + n == |b|)
    && (i + n < |a| ==> a[i + n] == b[j + n])
  }

  lemma NextMatches(a: string, i: nat, b: string, j: nat, n: nat, k: nat)
    requires Matches(a, i, b, j, n) && k <= n
    ensures i + k == |a| <==> j + k == |b|
    ensures i + k < |a| ==> j + k < |b| && a[i + k] == b[j + k]
  {
    if k < n { assert a[i..i + n][k] == b[j..j + n][k]; }
  }

  lemma MatchesLater(a: string, i: nat, b: string, j: nat, n: nat, m: nat)
    requires Matches(a, i, b, j, n) && m <= n
    ensures Matches(a, i + m, b, j + m, n - m)
  {
    assert a[i + m..i + n] == a[i..i + n][m..] && b[j + m..j + n] == b[j..j + n][m..];
  }

  lemma QuotedUnfolds(text: string, i: nat, quote: char)
    ensures QuotedEnd(text, i, quote) ==
      if i >= |text| then |text|
      else if text[i] == '\\' then QuotedEnd(text, i + 2, quote)
      else if text[i] == quote then i + 1
      else QuotedEnd(text, i + 1, quote)
    ensures i < |text| ==> QuotedEnd(text, i, quote) > i
    ensures i < |text| && text[i] == '\\' && i + 2 <= |text| ==> QuotedEnd(text, i, quote) >= i + 2
  {
  }

  /** An escape at the same place in both texts, perhaps the last character. */
  lemma EscapeMatches(a: string, i: nat, b: string, j: nat, n: nat)
    requires i < |a| && Matches(a, i, b, j, n) && n >= 1 && (i + 2 <= |a| ==> n >= 2)
    ensures i + 1 == |a| <==> j + 1 == |b|
    ensures i + 2 <= |a| ==> j + 2 <= |b| && Matches(a, i + 2, b, j + 2, n - 2)
  {
    NextMatches(a, i, b, j, n, 1);
    if i + 2 <= |a| { MatchesLater(a, i, b, j, n, 2); }
    hide Matches;
  }

  lemma {:induction false} QuotedEndMatches(a: string, i: nat, b: string, j: nat, quote: char)
    requires i <= |a| && Matches(a, i, b, j, QuotedEnd(a, i, quote) - i)
    ensures QuotedEnd(b, j, quote) == j + QuotedEnd(a, i, quote) - i
    decreases |a| - i
  {
    hide QuotedEnd, Matches;
    var e := QuotedEnd(a, i, quote);
    QuotedUnfolds(a, i, quote);
    NextMatches(a, i, b, j, e - i, 0);
    QuotedUnfolds(b, j, quote);
    if i < |a| && a[i] == '\\' {
      EscapeMatches(a, i, b, j, e - i);
      if i + 2 <= |a| {
        QuotedEndMatches(a, i + 2, b, j + 2, quote);
      } else {
        QuotedUnfolds(a, i + 2, quote);
        QuotedUnfolds(b, j + 2, quote);
      }
    } else if i < |a| && a[i] != quote {
      MatchesLater(a, i, b, j, e - i, 1);
      QuotedEndMatches(a, i + 1, b, j + 1, quote);
    }
  }

  lemma ContinuesMatches(a: string, i: nat, b: string, j: nat, n: nat)
    requires Matches(a, i, b, j, n) && i < |a| && n >= 1
    requires Continues(a, i) ==> AfterContinuation(a, i) <= i + n
    ensures j < |b| && a[i] == b[j]
    ensures i + 1 < |a| && n == 1 ==> !Newline(a[i + 1]) || a[i] != '\\' || Continues(a, i)
    ensures Continues(a, i) <==> Continues(b, j)
    ensures Continues(a, i) ==> AfterContinuation(b, j) - j == AfterContinuation(a, i) - i
  {
    NextMatches(a, i, b, j, n, 0);
    NextMatches(a, i, b, j, n, 1);
    if Continues(a, i) { NextMatches(a, i, b, j, n, 2); }
  }

  lemma AfterLine(a: string, i: nat)
    requires i < |a|
    ensures Continues(a, i) ==>
      i + 1 < |a| && AfterContinuation(a, i) <= LineEnd(a, i) && LineEnd(a, i) == LineEnd(a, AfterContinuation(a, i))
    ensures !Continues(a, i) && !Newline(a[i]) ==> LineEnd(a, i) == LineEnd(a, i + 1) && i + 1 <= LineEnd(a, i)
    ensures !Continues(a, i) && Newline(a[i]) ==> LineEnd(a, i) == i
  {
  }

  lemma {:induction false} LineEndMatches(a: string, i: nat, b: string, j: nat)
    requires i <= |a| && Matches(a, i, b, j, LineEnd(a, i) - i)
    ensures j <= |b| && LineEnd(b, j) == j + LineEnd(a, i) - i
    decreases |a| - i
  {
    hide Matches, Continues, AfterContinuation, LineEnd;
    var e := LineEnd(a, i);
    NextMatches(a, i, b, j, e - i, 0);
    if i < |a| {
      AfterLine(a, i);
      AfterLine(b, j);
      if e == i {
        NotContinued(a, i, b, j);
      } else {
        ContinuesMatches(a, i, b, j, e - i);
        if Continues(a, i) {
          var m := AfterContinuation(a, i) - i;
          MatchesLater(a, i, b, j, e - i, m);
          LineEndMatches(a, i + m, b, j + m);
        } else if !Newline(a[i]) {
          MatchesLater(a, i, b, j, e - i, 1);
          LineEndMatches(a, i + 1, b, j + 1);
        }
      }
    } else {
      LineEndAtEnd(b, j);
      LineEndAtEnd(a, i);
    }
  }

  lemma NotContinued(a: string, i: nat, b: string, j: nat)
    requires i < |a| && j < |b| && LineEnd(a, i) == i && a[i] == b[j]
    ensures !Continues(b, j) && Newline(b[j])
  {
  }

  lemma LineEndAtEnd(b: string, j: nat)
    ensures j == |b| ==> LineEnd(b, j) == j
  {
  }

  lemma Slice(a: string, i: nat, n: nat, p: nat, q: nat)
    requires i + n <= |a| && p <= q <= n
    ensures a[i..i + n][p..q] == a[i + p..i + q]
  {
    var x, y := a[i..i + n][p..q], a[i + p..i + q];
    assert |x| == |y| && forall k :: 0 <= k < |x| ==> x[k] == y[k];
  }

  lemma StartsMatches(a: string, i: nat, b: string, j: nat, n: nat, k: nat, s: string)
    requires Matches(a, i, b, j, n) && k + |s| <= n
    ensures StartsAt(a, i + k, s) <==> StartsAt(b, j + k, s)
  {
    Slice(a, i, n, k, k + |s|);
    Slice(b, j, n, k, k + |s|);
  }

  lemma FindUnique(text: string, s: string, i: nat, at: nat)
    requires i <= at && StartsAt(text, at, s) && forall k :: i <= k < at ==> !StartsAt(text, k, s)
    ensures Find(text, s, i) == Found(at)
  {
  }

  lemma EndOfMatches(a: string, i: nat, b: string, j: nat, s: string)
    requires i <= |a| && Matches(a, i, b, j, EndOf(a, s, i) - i) && s != ""
    ensures EndOf(b, s, j) == j + EndOf(a, s, i) - i
  {
    hide StartsAt;
    var n := EndOf(a, s, i) - i;
    match Find(a, s, i)
    case Found(at) =>
      StartsMatches(a, i, b, j, n, at - i, s);
      forall k | j <= k < j + (at - i) ensures !StartsAt(b, k, s) { StartsMatches(a, i, b, j, n, k - j, s); }
      FindUnique(b, s, j, j + (at - i));
    case Nowhere =>
      forall k: nat | j <= k <= |b| ensures !StartsAt(b, k, s) {
        if k + |s| <= |b| {
          StartsMatches(a, i, b, j, n, k - j, s);
        } else {
          TooShort(b, k, s);
        }
      }
  }

  lemma TooShort(text: string, i: nat, s: string)
    requires i + |s| > |text|
    ensures !StartsAt(text, i, s)
  {
  }

  // ----- texts with marks inserted

  /** `y` is `x` with slashes and stars inserted. */
  predicate Inserted(x: string, y: string)
    decreases |y|
  {
    || (x == "" && y == "")
    || (x != "" && y != "" && x[0] == y[0] && Inserted(x[1..], y[1..]))
    || (y != "" && y[0] in "/*" && Inserted(x, y[1..]))
  }

  lemma {:induction false} InsertedAfter(p: string, x: string, y: string)
    requires Inserted(x, y)
    ensures Inserted(p + x, p + y)
  {
    if p == "" {
      assert p + x == x && p + y == y;
    } else {
      InsertedAfter(p[1..], x, y);
      assert (p + x)[1..] == p[1..] + x && (p + y)[1..] == p[1..] + y;
    }
  }

  lemma InsertedMark(p: string, c: char, x: string, y: string)
    requires Inserted(x, y) && c in "/*"
    ensures Inserted(p + x, p + [c] + y)
  {
    assert ([c] + y)[1..] == y;
    InsertedAfter(p, x, [c] + y);
    assert p + ([c] + y) == p + [c] + y;
  }

  lemma PieceInserted(cs: Classes, kind: Kind, piece: string, x: string, y: string)
    requires |piece| >= 1 && (kind.LineComment? || kind.BlockComment? ==> |piece| >= 2) && Inserted(x, y)
    requires kind.LineComment? ==> piece[..2] == "//"
    requires kind.BlockComment? ==> piece[..2] == "/*"
    ensures Inserted(piece + x, ConvertedPiece(cs, kind, piece) + y)
  {
    hide Inserted, NamesParameter;
    InsertedAfter(piece, x, y);
    match kind {
      case Plain =>
      case Doc =>
      case LineComment =>
        MarkedPiece(piece, '/', x, y);
        assert piece[..2] + ['/'] + piece[2..] == "///" + piece[2..];
      case BlockComment =>
        MarkedPiece(piece, '*', x, y);
        assert piece[..2] + ['*'] + piece[2..] == "/**" + piece[2..];
    }
  }

  lemma MarkedPiece(piece: string, mark: char, x: string, y: string)
    requires |piece| >= 2 && mark in "/*" && Inserted(x, y)
    ensures Inserted(piece + x, (piece[..2] + [mark] + piece[2..]) + y)
  {
    InsertedAfter(piece[2..], x, y);
    InsertedMark(piece[..2], mark, piece[2..] + x, piece[2..] + y);
    hide Inserted;
    assert piece[..2] + (piece[2..] + x) == piece + x;
    assert piece[..2] + [mark] + (piece[2..] + y) == (piece[..2] + [mark] + piece[2..]) + y;
  }

  lemma CommentOpens(cs: Classes, text: string, i: nat)
    requires i < |text|
    ensures var s := StepAt(cs, text, i);
      && (s.kind.LineComment? ==> i + 2 <= s.end && text[i..s.end][..2] == "//")
      && (s.kind.BlockComment? ==> i + 2 <= s.end && text[i..s.end][..2] == "/*")
  {
    hide LiteralAt, LineEnd, Find;
    var s := StepAt(cs, text, i);
    if i + 2 <= s.end { assert text[i..s.end][..2] == text[i..i + 2]; }
  }

  lemma {:induction false} ConvertInserts(cs: Classes, text: string, i: nat)
    requires i <= |text|
    ensures Inserted(text[i..], ConvertFrom(cs, text, i))
    decreases |text| - i
  {
    hide StepAt, ConvertedPiece, Inserted;
    if i == |text| {
      NothingInserted();
    } else {
      CommentLength(cs, text, i);
      CommentOpens(cs, text, i);
      var s := StepAt(cs, text, i);
      ConvertInserts(cs, text, s.end);
      PieceInserted(cs, s.kind, text[i..s.end], text[s.end..], ConvertFrom(cs, text, s.end));
      assert text[i..] == text[i..s.end] + text[s.end..];
    }
  }

  lemma NothingInserted()
    ensures Inserted("", "")
  {
  }

  /** A literal without slashes and stars at the start was there before the insertions. */
  lemma {:induction false} LiteralBack(x: string, y: string, s: string)
    requires Inserted(x, y) && s <= y && forall c :: c in s ==> c !in "/*"
    ensures s <= x && Inserted(x[|s|..], y[|s|..])
    decreases |s|
  {
    if s != "" {
      assert s[0] in s && y[0] == s[0];
      assert s[1..] <= y[1..];
      assert forall c :: c in s[1..] ==> c in s;
      LiteralBack(x[1..], y[1..], s[1..]);
      assert x[1..][|s| - 1..] == x[|s|..] && y[1..][|s| - 1..] == y[|s|..];
      assert s == [s[0]] + s[1..];
    }
  }

  lemma StartsBack(a: string, i: nat, b: string, j: nat, s: string)
    requires i <= |a| && j <= |b| && Inserted(a[i..], b[j..]) && forall c :: c in s ==> c !in "/*"
    requires StartsAt(b, j, s)
    ensures StartsAt(a, i, s) && Inserted(a[i + |s|..], b[j + |s|..])
  {
    assert b[j..][..|s|] == s;
    LiteralBack(a[i..], b[j..], s);
    assert a[i..][|s|..] == a[i + |s|..] && b[j..][|s|..] == b[j + |s|..];
    assert a[i..i + |s|] == a[i..][..|s|];
  }

  predicate Quote(q: string) { q == RAW || q == "\"" || q == "'" }

  predicate OpenerText(q: string, s: string) {
    s == "u8" + q || s == "u" + q || s == "U" + q || s == "L" + q || s == q
  }

  lemma OpenerFrom(b: string, j: nat, q: string, s: string)
    requires Quote(q) && OpenerText(q, s) && StartsAt(b, j, s)
    ensures Opener(b, j, q) == |s|
  {
    FirstChar(b, j, s);
    if s == "u" + q { SecondChar(b, j, 'u', q); }
  }

  lemma OpenerHas(a: string, i: nat, q: string) returns (s: string)
    requires Quote(q) && Opener(a, i, q) > 0
    ensures OpenerText(q, s) && StartsAt(a, i, s) && Opener(a, i, q) == |s|
    ensures forall c :: c in s ==> c !in "/*"
  {
    s := if StartsAt(a, i, "u8" + q) then "u8" + q
      else if StartsAt(a, i, "u" + q) then "u" + q
      else if StartsAt(a, i, "U" + q) then "U" + q
      else if StartsAt(a, i, "L" + q) then "L" + q
      else q;
  }

  /** Two texts that agree on an opener open alike. */
  lemma OpenerMatches(a: string, i: nat, b: string, j: nat, q: string, n: nat)
    requires Quote(q) && Matches(a, i, b, j, n) && 0 < Opener(a, i, q) <= n
    ensures Opener(b, j, q) == Opener(a, i, q)
  {
    hide Opener, StartsAt, Matches;
    var s := OpenerHas(a, i, q);
    StartsMatches(a, i, b, j, n, 0, s);
    OpenerFrom(b, j, q, s);
  }

  lemma FirstChar(b: string, j: nat, s: string)
    requires s != "" && StartsAt(b, j, s)
    ensures b[j] == s[0]
    ensures s[0] != 'u' ==> forall t: string | t != "" && t[0] == 'u' :: !StartsAt(b, j, t)
    ensures s[0] != 'U' ==> forall t: string | t != "" && t[0] == 'U' :: !StartsAt(b, j, t)
    ensures s[0] != 'L' ==> forall t: string | t != "" && t[0] == 'L' :: !StartsAt(b, j, t)
  {
    assert b[j..j + |s|][0] == s[0];
    forall t: string | t != "" && StartsAt(b, j, t) ensures t[0] == s[0] { assert b[j..j + |t|][0] == t[0]; }
  }

  lemma CharAt(b: string, j: nat, s: string, k: nat)
    requires k < |s|
    ensures StartsAt(b, j, s) ==> b[j + k] == s[k]
  {
    if StartsAt(b, j, s) { assert b[j..j + |s|][k] == s[k]; }
  }

  lemma SecondChar(b: string, j: nat, c: char, q: string)
    requires Quote(q) && StartsAt(b, j, [c] + q)
    ensures !StartsAt(b, j, "u8" + q)
  {
    assert b[j..j + 1 + |q|][1] == q[0];
    assert ("u8" + q)[1] == '8';
    CharAt(b, j, "u8" + q, 1);
  }

  lemma OpenerBack(a: string, i: nat, b: string, j: nat, q: string)
    requires Quote(q) && i <= |a| && j <= |b| && Inserted(a[i..], b[j..]) && Opener(b, j, q) > 0
    ensures Opener(a, i, q) == Opener(b, j, q) && Opener(a, i, q) + i <= |a|
    ensures Inserted(a[i + Opener(a, i, q)..], b[j + Opener(a, i, q)..])
  {
    hide Inserted, Opener;
    var s := OpenerHas(b, j, q);
    StartsBack(a, i, b, j, s);
    OpenerFrom(a, i, q, s);
  }

  /** A delimiter that fits with marks inserted in it fits without them. */
  lemma {:induction false} DelimiterBack(a: string, i: nat, b: string, j: nat, m: nat, n: nat)
    requires i <= |a| && j <= |b| && Inserted(a[i..], b[j..]) && m >= n
    requires At(b, DelimiterEnd(b, j, n), '(')
    ensures At(a, DelimiterEnd(a, i, m), '(')
    decreases |b| - j
  {
    assert b[j..] != "" && b[j..][0] == b[j] && b[j..][1..] == b[j + 1..];
    if a[i..] != "" && a[i] == b[j] && Inserted(a[i..][1..], b[j..][1..]) {
      assert a[i..][1..] == a[i + 1..];
      if b[j] != '(' { DelimiterBack(a, i + 1, b, j + 1, m - 1, n - 1); }
    } else {
      DelimiterBack(a, i, b, j + 1, m, n - 1);
    }
  }

  lemma RawBack(a: string, i: nat, b: string, j: nat)
    requires i <= |a| && j <= |b| && Inserted(a[i..], b[j..]) && RawAt(b, j).RawString?
    ensures RawAt(a, i).RawString?
  {
    hide Opener, Inserted, DelimiterEnd;
    OpenerBack(a, i, b, j, RAW);
    var n := Opener(a, i, RAW);
    DelimiterBack(a, i + n, b, j + n, 16, 16);
  }

  lemma {:induction false} DelimiterMatches(a: string, i: nat, b: string, j: nat, n: nat, left: nat)
    requires Matches(a, i, b, j, n) && DelimiterEnd(a, i, left) < i + n
    ensures DelimiterEnd(b, j, left) == j + DelimiterEnd(a, i, left) - i
    decreases left
  {
    NextMatches(a, i, b, j, n, 0);
    if left > 0 && DelimiterChar(a[i]) {
      MatchesLater(a, i, b, j, n, 1);
      DelimiterMatches(a, i + 1, b, j + 1, n - 1, left - 1);
    }
  }

  lemma MatchesSlice(a: string, i: nat, b: string, j: nat, n: nat, p: nat, q: nat)
    requires Matches(a, i, b, j, n) && p <= q <= n
    ensures i + q <= |a| && j + q <= |b| && a[i + p..i + q] == b[j + p..j + q]
  {
    Slice(a, i, n, p, q);
    Slice(b, j, n, p, q);
  }

  lemma RawMatches(a: string, i: nat, b: string, j: nat)
    requires RawAt(a, i).RawString?
    requires Matches(a, i, b, j, EndOf(a, RawClose(RawAt(a, i).delimiter), RawAt(a, i).body) - i)
    ensures RawAt(b, j).RawString? && RawAt(b, j).delimiter == RawAt(a, i).delimiter
    ensures RawAt(b, j).body == j + RawAt(a, i).body - i
    ensures EndOf(b, RawClose(RawAt(b, j).delimiter), RawAt(b, j).body)
      == j + EndOf(a, RawClose(RawAt(a, i).delimiter), RawAt(a, i).body) - i
  {
    hide Opener, StartsAt, Matches, DelimiterEnd, Find;
    var raw := RawAt(a, i);
    var n := EndOf(a, RawClose(raw.delimiter), raw.body) - i;
    var o := Opener(a, i, RAW);
    OpenerMatches(a, i, b, j, RAW, n);
    MatchesLater(a, i, b, j, n, o);
    DelimiterMatches(a, i + o, b, j + o, n - o, 16);
    var e := DelimiterEnd(a, i + o, 16);
    NextMatches(a, i, b, j, n, e - i);
    MatchesSlice(a, i, b, j, n, o, e - i);
    MatchesLater(a, i, b, j, n, raw.body - i);
    EndOfMatches(a, raw.body, b, j + raw.body - i, RawClose(raw.delimiter));
  }

  // ----- literals

  /** A literal ends at the same place in a text that agrees with it. */
  lemma LiteralMatches(a: string, i: nat, b: string, j: nat)
    requires i <= |a| && j <= |b| && Inserted(a[i..], b[j..])
    requires LiteralAt(a, i).Found? && Matches(a, i, b, j, LiteralAt(a, i).at - i)
    ensures LiteralAt(b, j) == Found(j + LiteralAt(a, i).at - i)
  {
    hide Matches, Inserted, Find, QuotedEnd, StartsAt, RawAt, Opener;
    var n := LiteralAt(a, i).at - i;
    if RawAt(a, i).RawString? {
      RawMatches(a, i, b, j);
    } else {
      if RawAt(b, j).RawString? { RawBack(a, i, b, j); }
      if Opener(a, i, "\"") > 0 {
        QuotedMatches(a, i, b, j, "\"", '\"', n);
      } else {
        if Opener(b, j, "\"") > 0 { OpenerBack(a, i, b, j, "\""); }
        QuotedMatches(a, i, b, j, "'", '\'', n);
      }
    }
  }

  lemma QuotedMatches(a: string, i: nat, b: string, j: nat, q: string, quote: char, n: nat)
    requires Quote(q) && Opener(a, i, q) > 0 && n == QuotedEnd(a, i + Opener(a, i, q), quote) - i
    requires Matches(a, i, b, j, n)
    ensures Opener(b, j, q) == Opener(a, i, q) && QuotedEnd(b, j + Opener(b, j, q), quote) == j + n
  {
    hide Matches, Opener, QuotedEnd, StartsAt;
    var o := Opener(a, i, q);
    OpenerMatches(a, i, b, j, q, n);
    MatchesLater(a, i, b, j, n, o);
    QuotedEndMatches(a, i + o, b, j + o, quote);
  }

  lemma NoLiteralBack(a: string, i: nat, b: string, j: nat)
    requires i <= |a| && j <= |b| && Inserted(a[i..], b[j..]) && LiteralAt(a, i).Nowhere?
    ensures LiteralAt(b, j).Nowhere?
  {
    hide Inserted, Find, QuotedEnd, StartsAt, RawAt, Opener;
    if RawAt(b, j).RawString? { RawBack(a, i, b, j); }
    if Opener(b, j, "\"") > 0 { OpenerBack(a, i, b, j, "\""); }
    if Opener(b, j, "'") > 0 { OpenerBack(a, i, b, j, "'"); }
  }

  // ----- following both texts

  /** A prose block comment that the inserted star would close at once. */
  predicate ClosesEarly(piece: string) { |piece| > 3 && piece[2] == '/' }

  /** No prose block comment from `i` on begins with a slash. */
  predicate SafeFrom(cs: Classes, text: string, i: nat)
    requires i <= |text|
    decreases |text| - i
  {
    i == |text| ||
    var s := StepAt(cs, text, i);
    && (s.kind.BlockComment? && !NamesParameter(cs, text[i..s.end]) ==> !ClosesEarly(text[i..s.end]))
    && SafeFrom(cs, text, s.end)
  }

  /** Nothing from `i` on is prose. */
  predicate Settled(cs: Classes, text: string, i: nat)
    requires i <= |text|
    decreases |text| - i
  {
    i == |text| ||
    var s := StepAt(cs, text, i);
    && (s.kind.Plain? || s.kind.Doc? || (s.kind.BlockComment? && NamesParameter(cs, text[i..s.end])))
    && Settled(cs, text, s.end)
  }

  lemma {:induction false} SettledIsFixed(cs: Classes, text: string, i: nat)
    requires i <= |text| && Settled(cs, text, i)
    ensures ConvertFrom(cs, text, i) == text[i..]
    decreases |text| - i
  {
    hide StepAt, NamesParameter;
    if i < |text| {
      CommentLength(cs, text, i);
      var s := StepAt(cs, text, i);
      SettledIsFixed(cs, text, s.end);
      assert text[i..] == text[i..s.end] + text[s.end..];
    }
  }

  /** Conversion adds a character for every prose comment and nothing else. */
  lemma {:induction false} GrowsIffProse(cs: Classes, text: string, i: nat)
    requires i <= |text|
    ensures |ConvertFrom(cs, text, i)| >= |text| - i
    ensures |ConvertFrom(cs, text, i)| == |text| - i <==> Settled(cs, text, i)
    decreases |text| - i
  {
    hide StepAt, NamesParameter;
    if i < |text| {
      CommentLength(cs, text, i);
      GrowsIffProse(cs, text, StepAt(cs, text, i).end);
    }
  }

  lemma ConvertedFirst(cs: Classes, text: string, i: nat)
    requires i <= |text|
    ensures ConvertFrom(cs, text, i) == "" <==> i == |text|
    ensures i < |text| ==> ConvertFrom(cs, text, i)[0] == text[i]
  {
    if i < |text| {
      CommentLength(cs, text, i);
      CommentOpens(cs, text, i);
      hide StepAt, NamesParameter;
      var s := StepAt(cs, text, i);
      var c := ConvertedPiece(cs, s.kind, text[i..s.end]);
      if s.kind.LineComment? || s.kind.BlockComment? { assert text[i..s.end][..2][0] == text[i]; }
      assert c[0] == text[i];
    }
  }

  /** `b` from `j` is the conversion of `a` from `i`, and the character before is the same. */
  ghost predicate Follows(cs: Classes, a: string, i: nat, b: string, j: nat) {
    && i <= |a| && j <= |b| && b[j..] == ConvertFrom(cs, a, i)
    && (i == 0 <==> j == 0) && (i > 0 ==> a[i - 1] == b[j - 1])
  }

  lemma Unfolds(cs: Classes, a: string, i: nat)
    requires i < |a|
    ensures var s := StepAt(cs, a, i);
      && (s.kind.LineComment? || s.kind.BlockComment? ==> i + 2 <= s.end)
      && ConvertFrom(cs, a, i) == ConvertedPiece(cs, s.kind, a[i..s.end]) + ConvertFrom(cs, a, s.end)
  {
    CommentLength(cs, a, i);
  }

  lemma Parts(b: string, j: nat, x: string, y: string)
    requires j <= |b| && b[j..] == x + y
    ensures j + |x| <= |b| && b[j..j + |x|] == x && b[j + |x|..] == y
  {
    assert |b[j..]| == |x| + |y|;
    assert b[j..j + |x|] == b[j..][..|x|] && b[j + |x|..] == b[j..][|x|..];
  }

  lemma NextIs(a: string, e: nat, b: string, j: nat, rest: string)
    requires e <= |a| && j <= |b| && b[j..] == rest && (rest == "" <==> e == |a|)
    requires e < |a| ==> rest[0] == a[e]
    ensures (e == |a| <==> j == |b|) && (e < |a| ==> a[e] == b[j])
  {
    if e < |a| { assert b[j..][0] == b[j]; }
  }

  /** A stretch of `a` found in `b` and followed by the same character is a match. */
  lemma Placed(a: string, p: nat, e: nat, b: string, j: nat, rest: string)
    requires p <= e <= |a| && j <= |b| && b[j..] == a[p..e] + rest && (rest == "" <==> e == |a|)
    requires e < |a| ==> rest[0] == a[e]
    ensures Matches(a, p, b, j, e - p) && b[j + (e - p)..] == rest
    ensures p < e ==> a[e - 1] == b[j + (e - p) - 1]
  {
    Parts(b, j, a[p..e], rest);
    NextIs(a, e, b, j + (e - p), rest);
    if p < e { assert a[p..e][e - p - 1] == a[e - 1] && b[j..j + (e - p)][e - p - 1] == b[j + (e - p) - 1]; }
  }

  /** A stretch of `a` placed in `b` with the rest of the conversion after it. */
  lemma FollowsPlaced(cs: Classes, a: string, p: nat, e: nat, b: string, j: nat)
    requires p <= e <= |a| && j <= |b| && b[j..] == a[p..e] + ConvertFrom(cs, a, e) && j + (e - p) > 0 && e > 0
    requires p == e ==> a[e - 1] == b[j - 1]
    ensures Matches(a, p, b, j, e - p) && Follows(cs, a, e, b, j + (e - p))
  {
    ConvertedFirst(cs, a, e);
    var rest := ConvertFrom(cs, a, e);
    hide ConvertFrom, Matches;
    Placed(a, p, e, b, j, rest);
  }

  lemma RestIs(cs: Classes, a: string, i: nat, b: string, j: nat)
    requires Follows(cs, a, i, b, j)
    ensures i <= |a| && j <= |b| && b[j..] == ConvertFrom(cs, a, i)
  {
    hide ConvertFrom;
  }

  /** Where a piece that conversion leaves alone stands in the converted text. */
  lemma KeptPieceMatches(cs: Classes, a: string, i: nat, b: string, j: nat)
    requires Follows(cs, a, i, b, j) && i < |a|
    requires var s := StepAt(cs, a, i);
      s.kind.Plain? || s.kind.Doc? || (s.kind.BlockComment? && NamesParameter(cs, a[i..s.end]))
    ensures Matches(a, i, b, j, StepAt(cs, a, i).end - i)
    ensures Follows(cs, a, StepAt(cs, a, i).end, b, j + (StepAt(cs, a, i).end - i))
  {
    hide StepAt, NamesParameter, ConvertFrom, Matches, Follows;
    Unfolds(cs, a, i);
    RestIs(cs, a, i, b, j);
    var s := StepAt(cs, a, i);
    assert ConvertedPiece(cs, s.kind, a[i..s.end]) == a[i..s.end];
    hide ConvertedPiece;
    FollowsPlaced(cs, a, i, s.end, b, j);
  }

  /** Where a republished comment stands: after its three opening characters the text of
      the comment goes on as before. */
  lemma RepublishedMatches(cs: Classes, a: string, i: nat, e: nat, b: string, j: nat, opening: string)
    requires Follows(cs, a, i, b, j) && i + 2 <= e <= |a| && |opening| == 3
    requires ConvertFrom(cs, a, i) == opening + a[i + 2..e] + ConvertFrom(cs, a, e)
    requires e == i + 2 ==> a[i + 1] == opening[2]
    ensures StartsAt(b, j, opening) && Matches(a, i + 2, b, j + 3, e - (i + 2))
    ensures Follows(cs, a, e, b, j + 3 + (e - (i + 2)))
  {
    hide *;
    RestIs(cs, a, i, b, j);
    OpeningPlaced(a[i + 2..e], ConvertFrom(cs, a, e), b, j, opening);
    FollowsPlaced(cs, a, i + 2, e, b, j + 3);
  }

  lemma OpeningPlaced(body: string, rest: string, b: string, j: nat, opening: string)
    requires |opening| == 3 && j <= |b| && b[j..] == opening + body + rest
    ensures j + 3 <= |b| && StartsAt(b, j, opening) && b[j + 2] == opening[2] && b[j + 3..] == body + rest
  {
    assert opening + body + rest == opening + (body + rest);
    Parts(b, j, opening, body + rest);
    assert b[j..j + 3][2] == b[j + 2];
  }

  // ----- one step of both

  lemma SameBoundary(cs: Classes, a: string, i: nat, b: string, j: nat)
    requires Follows(cs, a, i, b, j) && i < |a|
    ensures j < |b| && b[j] == a[i] && (Boundary(cs, a, i) <==> Boundary(cs, b, j))
  {
    ConvertedFirst(cs, a, i);
    hide ConvertFrom;
    NextIs(a, i, b, j, b[j..]);
  }

  lemma FollowsInserted(cs: Classes, a: string, i: nat, b: string, j: nat)
    requires Follows(cs, a, i, b, j)
    ensures Inserted(a[i..], b[j..])
  {
    ConvertInserts(cs, a, i);
  }

  /** No literal begins with a slash. */
  lemma NoLiteralAtSlash(b: string, j: nat)
    requires j < |b| && b[j] == '/'
    ensures LiteralAt(b, j).Nowhere?
  {
    OpenerFirst(b, j, RAW);
    OpenerFirst(b, j, "\"");
    OpenerFirst(b, j, "'");
    hide Opener;
  }

  lemma OpenerFirst(b: string, j: nat, q: string)
    requires Quote(q)
    ensures Opener(b, j, q) > 0 ==> j < |b| && b[j] in "uULR\"'"
  {
    if Opener(b, j, q) > 0 {
      var s := OpenerHas(b, j, q);
      CharAt(b, j, s, 0);
    }
  }

  /** Which piece of code, documentation or parameter name stands in the converted text. */
  lemma KeptStep(cs: Classes, a: string, i: nat, b: string, j: nat)
    requires Follows(cs, a, i, b, j) && i < |a|
    requires var s := StepAt(cs, a, i);
      s.kind.Plain? || s.kind.Doc? || (s.kind.BlockComment? && NamesParameter(cs, a[i..s.end]))
    ensures j < |b| && StepAt(cs, b, j) == Step(StepAt(cs, a, i).kind, j + StepAt(cs, a, i).end - i)
  {
    var s := StepAt(cs, a, i);
    var n := s.end - i;
    KeptPieceMatches(cs, a, i, b, j);
    SameBoundary(cs, a, i, b, j);
    FollowsInserted(cs, a, i, b, j);
    hide StepAt, Follows, Inserted, NamesParameter, Matches, Boundary;
    KeptStepFrom(cs, a, i, b, j, n);
  }

  lemma KeptStepFrom(cs: Classes, a: string, i: nat, b: string, j: nat, n: nat)
    requires i < |a| && j < |b| && n == StepAt(cs, a, i).end - i && Matches(a, i, b, j, n)
    requires (Boundary(cs, a, i) <==> Boundary(cs, b, j)) && Inserted(a[i..], b[j..])
    ensures StepAt(cs, b, j) == Step(StepAt(cs, a, i).kind, j + n)
  {
    hide Inserted;
    if Boundary(cs, a, i) && LiteralAt(a, i).Found? {
      hide Matches, StartsAt, LineEnd, EndOf, LiteralAt, DocMarked;
      LiteralMatches(a, i, b, j);
    } else {
      if Boundary(cs, a, i) { NoLiteralBack(a, i, b, j); }
      PlainOrComment(cs, a, i, b, j, n);
    }
  }

  /** Where neither text has a literal. */
  lemma PlainOrComment(cs: Classes, a: string, i: nat, b: string, j: nat, n: nat)
    requires i < |a| && j < |b| && n == StepAt(cs, a, i).end - i && Matches(a, i, b, j, n)
    requires !(Boundary(cs, a, i) && LiteralAt(a, i).Found?) && !(Boundary(cs, b, j) && LiteralAt(b, j).Found?)
    requires Inserted(a[i..], b[j..])
    ensures StepAt(cs, b, j) == Step(StepAt(cs, a, i).kind, j + n)
  {
    hide Inserted, LiteralAt, Boundary;
    if StartsAt(a, i, "//") {
      LineStep(a, i, b, j, n);
    } else if StartsAt(a, i, "/*") {
      BlockStep(a, i, b, j, n);
    } else {
      PlainStep(a, i, b, j);
    }
    hide StartsAt, LineEnd, EndOf, DocMarked, Matches;
  }

  lemma TwoChars(a: string, i: nat, c: char, d: char)
    ensures StartsAt(a, i, [c, d]) <==> i + 1 < |a| && a[i] == c && a[i + 1] == d
  {
    if i + 1 < |a| { assert a[i..i + 2] == [a[i], a[i + 1]]; }
  }

  lemma PlainStep(a: string, i: nat, b: string, j: nat)
    requires Matches(a, i, b, j, 1)
    ensures StartsAt(a, i, "//") <==> StartsAt(b, j, "//")
    ensures StartsAt(a, i, "/*") <==> StartsAt(b, j, "/*")
  {
    NextMatches(a, i, b, j, 1, 0);
    NextMatches(a, i, b, j, 1, 1);
    TwoChars(a, i, '/', '/');
    TwoChars(b, j, '/', '/');
    TwoChars(a, i, '/', '*');
    TwoChars(b, j, '/', '*');
  }

  lemma LineStep(a: string, i: nat, b: string, j: nat, n: nat)
    requires StartsAt(a, i, "//") && n == LineEnd(a, i + 2) - i && Matches(a, i, b, j, n)
    ensures StartsAt(b, j, "//") && LineEnd(b, j + 2) == j + n
    ensures DocMarked(a, i, '/') <==> DocMarked(b, j, '/')
  {
    hide Matches, LineEnd;
    StartsMatches(a, i, b, j, n, 0, "//");
    MatchesLater(a, i, b, j, n, 2);
    LineEndMatches(a, i + 2, b, j + 2);
    NextMatches(a, i, b, j, n, 2);
  }

  lemma BlockStep(a: string, i: nat, b: string, j: nat, n: nat)
    requires StartsAt(a, i, "/*") && n == EndOf(a, "*/", i + 2) - i && Matches(a, i, b, j, n)
    ensures StartsAt(b, j, "/*") && !StartsAt(a, i, "//") && !StartsAt(b, j, "//") && EndOf(b, "*/", j + 2) == j + n
    ensures DocMarked(a, i, '*') <==> DocMarked(b, j, '*')
  {
    TwoChars(a, i, '/', '/');
    TwoChars(a, i, '/', '*');
    TwoChars(b, j, '/', '/');
    TwoChars(b, j, '/', '*');
    NextMatches(a, i, b, j, n, 0);
    NextMatches(a, i, b, j, n, 1);
    hide Matches, EndOf;
    MatchesLater(a, i, b, j, n, 2);
    EndOfMatches(a, i + 2, b, j + 2, "*/");
    NextMatches(a, i, b, j, n, 2);
  }

  lemma ThreeChars(b: string, j: nat, s: string)
    requires |s| == 3 && StartsAt(b, j, s)
    ensures j + 3 <= |b| && b[j] == s[0] && b[j + 1] == s[1] && b[j + 2] == s[2]
    ensures StartsAt(b, j, [s[0], s[1]])
  {
    CharAt(b, j, s, 0);
    CharAt(b, j, s, 1);
    CharAt(b, j, s, 2);
    TwoChars(b, j, s[0], s[1]);
  }

  /** A line comment in the one text is a documentation comment in the other. */
  lemma LineRepublished(cs: Classes, a: string, i: nat, b: string, j: nat)
    requires Follows(cs, a, i, b, j) && i < |a| && StepAt(cs, a, i).kind.LineComment?
    ensures var n := StepAt(cs, a, i).end - i;
      j < |b| && StepAt(cs, b, j) == Step(Doc, j + 1 + n) && Follows(cs, a, i + n, b, j + 1 + n)
  {
    hide ConvertFrom, Follows, Matches, LiteralAt, StartsAt, StepAt, LineEnd;
    var e := StepAt(cs, a, i).end;
    LineCommentIs(cs, a, i);
    RepublishedLine(cs, a, i);
    RepublishedMatches(cs, a, i, e, b, j, "///");
    LineEndMatches(a, i + 2, b, j + 3);
    ThreeChars(b, j, "///");
    NoLiteralAtSlash(b, j);
    DocLine(cs, b, j);
  }

  lemma RepublishedLine(cs: Classes, a: string, i: nat)
    requires i < |a| && StepAt(cs, a, i).kind.LineComment?
    ensures var e := StepAt(cs, a, i).end;
      i + 2 <= e && ConvertFrom(cs, a, i) == "///" + a[i + 2..e] + ConvertFrom(cs, a, e)
  {
    Unfolds(cs, a, i);
    hide StepAt, ConvertFrom;
    var e := StepAt(cs, a, i).end;
    assert a[i..e][2..] == a[i + 2..e];
  }

  lemma RepublishedBlock(cs: Classes, a: string, i: nat)
    requires i < |a| && StepAt(cs, a, i).kind.BlockComment? && !NamesParameter(cs, a[i..StepAt(cs, a, i).end])
    ensures var e := StepAt(cs, a, i).end;
      i + 2 <= e && ConvertFrom(cs, a, i) == "/**" + a[i + 2..e] + ConvertFrom(cs, a, e)
  {
    Unfolds(cs, a, i);
    hide StepAt, ConvertFrom, NamesParameter;
    var e := StepAt(cs, a, i).end;
    assert a[i..e][2..] == a[i + 2..e];
  }

  lemma LineCommentIs(cs: Classes, a: string, i: nat)
    requires i < |a| && StepAt(cs, a, i).kind.LineComment?
    ensures i + 2 < |a| && a[i + 1] == '/' && StepAt(cs, a, i).end == LineEnd(a, i + 2)
  {
    TwoChars(a, i, '/', '/');
    hide LiteralAt, LineEnd, EndOf;
  }

  lemma DocLine(cs: Classes, b: string, j: nat)
    requires StartsAt(b, j, "//") && j + 3 <= |b| && b[j + 2] == '/' && LiteralAt(b, j).Nowhere?
    ensures StepAt(cs, b, j) == Step(Doc, LineEnd(b, j + 3))
  {
    AfterLine(b, j + 2);
    hide LiteralAt, LineEnd, EndOf;
  }

  /** A prose block comment in the one text is a documentation comment in the other, if the
      inserted star does not close it. */
  lemma BlockRepublished(cs: Classes, a: string, i: nat, b: string, j: nat)
    requires Follows(cs, a, i, b, j) && i < |a| && StepAt(cs, a, i).kind.BlockComment?
    requires !NamesParameter(cs, a[i..StepAt(cs, a, i).end]) && !ClosesEarly(a[i..StepAt(cs, a, i).end])
    ensures var n := StepAt(cs, a, i).end - i;
      j < |b| && StepAt(cs, b, j) == Step(Doc, j + 1 + n) && Follows(cs, a, i + n, b, j + 1 + n)
  {
    hide ConvertFrom, Follows, Matches, LiteralAt, StartsAt, StepAt, NamesParameter, ClosesEarly, Find;
    var e := StepAt(cs, a, i).end;
    BlockCommentIs(cs, a, i);
    RepublishedBlock(cs, a, i);
    RepublishedMatches(cs, a, i, e, b, j, "/**");
    ThreeChars(b, j, "/**");
    NoLiteralAtSlash(b, j);
    StarThenBody(a, i, e, b, j);
    DocBlock(cs, b, j);
  }

  lemma BlockCommentIs(cs: Classes, a: string, i: nat)
    requires i < |a| && StepAt(cs, a, i).kind.BlockComment?
    ensures i + 3 <= StepAt(cs, a, i).end <= |a| && StepAt(cs, a, i).end == EndOf(a, "*/", i + 2)
    ensures Find(a, "*/", i + 2).Found? ==> i + 4 <= StepAt(cs, a, i).end
  {
    CommentLength(cs, a, i);
    hide LiteralAt, LineEnd, Find;
  }

  lemma DocBlock(cs: Classes, b: string, j: nat)
    requires StartsAt(b, j, "/*") && j + 3 <= |b| && b[j + 2] == '*' && LiteralAt(b, j).Nowhere?
    ensures StepAt(cs, b, j) == Step(Doc, EndOf(b, "*/", j + 2))
  {
    TwoChars(b, j, '/', '*');
    TwoChars(b, j, '/', '/');
    hide LiteralAt, LineEnd, EndOf;
  }

  /** The closing mark is found where it was, past the star. */
  lemma StarThenBody(a: string, i: nat, e: nat, b: string, j: nat)
    requires i + 3 <= e <= |a| && e == EndOf(a, "*/", i + 2) && j + 3 <= |b| && b[j + 2] == '*'
    requires Find(a, "*/", i + 2).Found? ==> i + 4 <= e
    requires Matches(a, i + 2, b, j + 3, e - (i + 2)) && !ClosesEarly(a[i..e])
    ensures EndOf(b, "*/", j + 2) == j + 1 + (e - i)
  {
    NextMatches(a, i + 2, b, j + 3, e - (i + 2), 0);
    TwoChars(b, j + 2, '*', '/');
    assert a[i..e][2] == a[i + 2];
    if a[i + 2] != '/' {
      EndOfMatches(a, i + 2, b, j + 3, "*/");
      SkipOne(b, "*/", j + 2);
    } else {
      NextMatches(a, i + 2, b, j + 3, e - (i + 2), 1);
      FindUnique(b, "*/", j + 2, j + 2);
    }
  }

  lemma SkipOne(b: string, s: string, j: nat)
    requires j < |b| && !StartsAt(b, j, s)
    ensures EndOf(b, s, j) == EndOf(b, s, j + 1)
  {
  }

  // ----- the theorem

  lemma {:induction false} ConvertedSettles(cs: Classes, a: string, i: nat, b: string, j: nat)
    requires Follows(cs, a, i, b, j) && SafeFrom(cs, a, i)
    ensures j <= |b| && Settled(cs, b, j)
    decreases |a| - i
  {
    hide StepAt, NamesParameter, Follows, ConvertFrom;
    if i == |a| {
      FollowsEnd(cs, a, b, j);
    } else {
      var s := StepAt(cs, a, i);
      var n := s.end - i;
      if s.kind.LineComment? {
        LineRepublished(cs, a, i, b, j);
        ConvertedSettles(cs, a, s.end, b, j + 1 + n);
      } else if s.kind.BlockComment? && !NamesParameter(cs, a[i..s.end]) {
        BlockRepublished(cs, a, i, b, j);
        ConvertedSettles(cs, a, s.end, b, j + 1 + n);
      } else {
        KeptPieceMatches(cs, a, i, b, j);
        KeptStep(cs, a, i, b, j);
        SamePiece(a, i, b, j, n);
        ConvertedSettles(cs, a, s.end, b, j + n);
      }
    }
  }

  lemma FollowsEnd(cs: Classes, a: string, b: string, j: nat)
    requires Follows(cs, a, |a|, b, j)
    ensures j == |b|
  {
    assert b[j..] == "";
  }

  lemma SamePiece(a: string, i: nat, b: string, j: nat, n: nat)
    requires Matches(a, i, b, j, n)
    ensures j + n <= |b| && b[j..j + n] == a[i..i + n]
  {
  }

  function Convert(cs: Classes, text: string): string {
    TokensConvert(cs, text, 0, "");
    ConvertedAll(cs, Tokens(cs, text))
  }

  /** Converting converted text changes nothing, for every text in which no prose block
      comment begins with a slash after its opening. */
  lemma ConvertIsIdempotent(cs: Classes, text: string)
    requires SafeFrom(cs, text, 0)
    ensures Convert(cs, Convert(cs, text)) == Convert(cs, text)
  {
    var once := Convert(cs, text);
    TokensConvert(cs, text, 0, "");
    assert once[0..] == once;
    ConvertedSettles(cs, text, 0, once, 0);
    SettledIsFixed(cs, once, 0);
    TokensConvert(cs, once, 0, "");
  }

  /** Exactly for which texts converting twice is converting once: those in whose converted
      form the scanner finds no prose comment. */
  lemma ConvertIsIdempotentIff(cs: Classes, text: string)
    ensures Convert(cs, Convert(cs, text)) == Convert(cs, text) <==> Settled(cs, Convert(cs, text), 0)
  {
    var once := Convert(cs, text);
    TokensConvert(cs, once, 0, "");
    assert once[0..] == once;
    GrowsIffProse(cs, once, 0);
    if Settled(cs, once, 0) { SettledIsFixed(cs, once, 0); }
  }

  /** One republished block comment is read back as one documentation comment exactly when
      the star does not close it. */
  lemma OneDocIffNotClosedEarly(cs: Classes, text: string)
    requires text != "" && StepAt(cs, text, 0) == Step(BlockComment, |text|) && !NamesParameter(cs, text)
    ensures Convert(cs, text) != ""
    ensures StepAt(cs, Convert(cs, text), 0) == Step(Doc, |Convert(cs, text)|) <==> !ClosesEarly(text)
  {
    WholeBlock(cs, text);
    var once := Convert(cs, text);
    BlockCommentIs(cs, text, 0);
    hide StepAt, NamesParameter, ConvertFrom, Convert, Find, EndOf, StartsAt, LiteralAt;
    if !ClosesEarly(text) {
      BlockRepublished(cs, text, 0, once, 0);
    } else {
      assert once[3] == text[2];
      TwoChars(once, 2, '*', '/');
      TwoChars(once, 0, '/', '*');
      NoLiteralAtSlash(once, 0);
      ClosedAtOnce(once);
      DocBlock(cs, once, 0);
    }
  }

  lemma ClosedAtOnce(once: string)
    requires StartsAt(once, 2, "*/")
    ensures EndOf(once, "*/", 2) == 4
  {
    FindUnique(once, "*/", 2, 2);
  }

  lemma WholeBlock(cs: Classes, text: string)
    requires text != "" && StepAt(cs, text, 0) == Step(BlockComment, |text|) && !NamesParameter(cs, text)
    ensures |text| >= 2 && Convert(cs, text) == "/**" + text[2..] && Follows(cs, text, 0, Convert(cs, text), 0)
    ensures text[0..|text|] == text
  {
    assert text[0..|text|] == text;
    TokensConvert(cs, text, 0, "");
    RepublishedBlock(cs, text, 0);
    assert ConvertFrom(cs, text, |text|) == "";
    hide StepAt, NamesParameter;
    var once := Convert(cs, text);
    assert once[0..] == once;
  }

  // ----- why the condition is there

  const EARLY := "/*/ //x*/"
  const EARLY_ONCE := "/**/ //x*/"

  lemma EarlyIsOneBlock(cs: Classes)
    requires !cs.space('/')
    ensures StepAt(cs, EARLY, 0) == Step(BlockComment, |EARLY|) && !NamesParameter(cs, EARLY)
  {
    forall k | 2 <= k < 7 ensures !StartsAt(EARLY, k, "*/") { TwoChars(EARLY, k, '*', '/'); }
    TwoChars(EARLY, 7, '*', '/');
    TwoChars(EARLY, 0, '/', '*');
    TwoChars(EARLY, 0, '/', '/');
    FindUnique(EARLY, "*/", 2, 7);
    NoLiteralAtSlash(EARLY, 0);
    hide LiteralAt, StartsAt, Find;
  }

  lemma EarlyDoc(cs: Classes)
    ensures StepAt(cs, EARLY_ONCE, 0) == Step(Doc, 4)
  {
    TwoChars(EARLY_ONCE, 0, '/', '*');
    TwoChars(EARLY_ONCE, 2, '*', '/');
    NoLiteralAtSlash(EARLY_ONCE, 0);
    hide StartsAt, LiteralAt, EndOf, StepAt;
    ClosedAtOnce(EARLY_ONCE);
    DocBlock(cs, EARLY_ONCE, 0);
  }

  lemma EarlyBlank(cs: Classes)
    ensures StepAt(cs, EARLY_ONCE, 4) == Step(Plain, 5)
  {
    TwoChars(EARLY_ONCE, 4, '/', '/');
    TwoChars(EARLY_ONCE, 4, '/', '*');
    OpenerFirst(EARLY_ONCE, 4, RAW);
    OpenerFirst(EARLY_ONCE, 4, "\"");
    OpenerFirst(EARLY_ONCE, 4, "'");
    hide StartsAt, Opener, LineEnd, EndOf;
  }

  lemma EarlyLine(cs: Classes)
    ensures StepAt(cs, EARLY_ONCE, 5) == Step(LineComment, 10)
  {
    TwoChars(EARLY_ONCE, 5, '/', '/');
    NoLiteralAtSlash(EARLY_ONCE, 5);
    EarlyLineEnd();
    hide StartsAt, LiteralAt, LineEnd, EndOf;
  }

  lemma EarlyLineEnd()
    ensures LineEnd(EARLY_ONCE, 7) == 10
  {
    assert LineEnd(EARLY_ONCE, 10) == 10;
    assert LineEnd(EARLY_ONCE, 9) == 10;
    assert LineEnd(EARLY_ONCE, 8) == 10;
  }

  /** Without the condition a second conversion can change the text: the star closes the
      comment, and what was inside it is read as code with a comment of its own. */
  lemma ConvertNotAlwaysIdempotent(cs: Classes)
    requires !cs.space('/')
    ensures Convert(cs, EARLY) == EARLY_ONCE && Convert(cs, EARLY_ONCE) != EARLY_ONCE
  {
    hide StepAt, ConvertFrom, NamesParameter, Convert;
    EarlyIsOneBlock(cs);
    WholeBlock(cs, EARLY);
    assert "/**" + EARLY[2..] == EARLY_ONCE;
    EarlyAgain(cs);
  }

  lemma EarlyAgain(cs: Classes)
    ensures |Convert(cs, EARLY_ONCE)| > |EARLY_ONCE|
  {
    TokensConvert(cs, EARLY_ONCE, 0, "");
    hide StepAt, ConvertFrom, NamesParameter;
    EarlyDoc(cs);
    EarlyBlank(cs);
    EarlyLine(cs);
    Unfolds(cs, EARLY_ONCE, 0);
    Unfolds(cs, EARLY_ONCE, 4);
    RepublishedLine(cs, EARLY_ONCE, 5);
  }
}
