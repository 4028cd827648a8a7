/** How far each attention pattern reaches, counted in keys and in blocks, and what an
    admitted key contributes to the output. */
module AttentionReach {
  import opened ReferenceMath
  import opened LatentAttention

  // ----- counting keys

  function Admitted(pattern: Pattern, query: nat, length: nat): set<nat>
    requires Defined(pattern)
  {
    set key | 0 <= key < length && Allowed(pattern, query, key)
  }

  predicate Within(lo: nat, k: nat, hi: nat) { lo <= k < hi }

  function Range(lo: nat, hi: nat): set<nat> { set k | 0 <= k < hi && Within(lo, k, hi) }

  lemma {:induction false} RangeCount(lo: nat, hi: nat)
    ensures |Range(lo, hi)| == if lo <= hi then hi - lo else 0
    decreases hi
  {
    if lo < hi {
      RangeCount(lo, hi - 1);
      assert Range(lo, hi) == Range(lo, hi - 1) + {hi - 1};
    } else {
      assert Range(lo, hi) == {};
    }
  }

  function Least(a: int, b: int): int { if a < b then a else b }

  function Count(n: int): nat { if n < 0 then 0 else n }

  /** How many keys a query sees: all up to its own, a window of them, all there are, or the
      whole prefix from inside it.  They are consecutive, and end at the query itself or
      start at the first key. */
  lemma HowManyKeys(pattern: Pattern, query: nat, length: nat)
    requires Defined(pattern) && query < length && !pattern.BlockSparse? && !pattern.DynamicSparse?
    ensures var n := |Admitted(pattern, query, length)|;
      && (pattern.FullCausal? ==> n == query + 1)
      && (pattern.SlidingWindow? ==> n == Count(Least(pattern.window, query + 1)))
      && (pattern.Bidirectional? ==> n == length)
      && (pattern.PrefixLm? ==>
        n == if query < pattern.prefixLength then Least(pattern.prefixLength, length) else query + 1)
      && n <= length
      && Admitted(pattern, query, length) ==
        if pattern.SlidingWindow? then Range(Count(query + 1 - n), query + 1) else Range(0, n)
  {
    var keys := Admitted(pattern, query, length);
    match pattern
    case FullCausal =>
      RangeCount(0, query + 1);
      assert keys == Range(0, query + 1);
    case SlidingWindow(window) =>
      var n := Count(Least(window, query + 1));
      RangeCount(query + 1 - n, query + 1);
      assert keys == Range(query + 1 - n, query + 1);
    case Bidirectional =>
      RangeCount(0, length);
      assert keys == Range(0, length);
    case PrefixLm(prefixLength) =>
      var n := if query < prefixLength then Least(prefixLength, length) else query + 1;
      RangeCount(0, n);
      assert keys == Range(0, n);
  }

  // ----- counting blocks

  /** The blocks up to the query's own that it sees, judged by their first key. */
  function AdmittedBlocks(pattern: Pattern, query: nat): set<nat>
    requires Defined(pattern) && (pattern.BlockSparse? || pattern.DynamicSparse?)
  {
    set b | 0 <= b <= Block(query, pattern.blockSize) && Allowed(pattern, query, FirstOf(b, pattern.blockSize))
  }

  function FirstOf(block: nat, size: nat): nat { block * size }

  lemma BlockOfFirst(block: nat, size: nat)
    requires size > 0
    ensures Block(FirstOf(block, size), size) == block
  {
    Quotient(block * size, size, block, 0);
  }

  /** A query sees a block whole or not at all, and none after its own. */
  lemma WholeBlocks(pattern: Pattern, query: nat, key: nat)
    requires Defined(pattern) && (pattern.BlockSparse? || pattern.DynamicSparse?)
    ensures Allowed(pattern, query, key) <==> Block(key, pattern.blockSize) in AdmittedBlocks(pattern, query)
  {
    BlockOfFirst(Block(key, pattern.blockSize), pattern.blockSize);
  }

  /** How many blocks it sees: the global ones and the local ones up to its own, each once,
      or the selected ones and its own. */
  lemma HowManyBlocks(pattern: Pattern, query: nat)
    requires Defined(pattern) && (pattern.BlockSparse? || pattern.DynamicSparse?)
    ensures var own := Block(query, pattern.blockSize); var blocks := AdmittedBlocks(pattern, query);
      && (pattern.BlockSparse? ==>
        |blocks| == Least(own + 1, Count(pattern.globalBlocks) + Count(pattern.localBlocks)))
      && (pattern.DynamicSparse? ==> |blocks| == Least(own + 1, Count(pattern.maxSelected) + 1))
  {
    var own := Block(query, pattern.blockSize);
    forall b | 0 <= b <= own ensures Block(FirstOf(b, pattern.blockSize), pattern.blockSize) == b {
      BlockOfFirst(b, pattern.blockSize);
    }
    var front := if pattern.BlockSparse? then pattern.globalBlocks else pattern.maxSelected;
    var back := if pattern.BlockSparse? then pattern.localBlocks else 1;
    hide Block, FirstOf;
    TwoEnds(AdmittedBlocks(pattern, query), own + 1, front, back);
  }

  lemma TwoEnds(blocks: set<nat>, n: nat, front: int, back: int)
    requires forall b: nat :: b in blocks <==> b < n && (b < front || b >= n - back)
    ensures |blocks| == Least(n, Count(front) + Count(back))
  {
    var f, k := Least(Count(front), n), Count(n - Count(back));
    RangeCount(0, f);
    RangeCount(k, n);
    RangeCount(0, n);
    if f >= k {
      assert blocks == Range(0, n);
    } else {
      assert blocks == Range(0, f) + Range(k, n);
      assert Range(0, f) !! Range(k, n);
    }
  }

  // ----- what an admitted key contributes

  lemma {:induction false} MixedMoves(s: seq<Score>, v: seq<real>, token: nat, x: real, shift: real, den: real, n: nat,
                                      exp: real -> real)
    requires token < |v| && den != 0.0
    ensures Mixed(s, v[token := x], shift, den, n, Exact, exp) - Mixed(s, v, shift, den, n, Exact, exp) ==
      if token < n && At(s, token).Scored? then
        Times(Share(Term(At(s, token).value, shift, exp), den, Exact), x - v[token])
      else 0.0
  {
    hide Term, Share;
    if n > 0 {
      MixedMoves(s, v, token, x, shift, den, n - 1, exp);
      if token == n - 1 && At(s, token).Scored? {
        TimesDifference(Share(Term(At(s, token).value, shift, exp), den, Exact), x, v[token]);
      }
    }
  }

  lemma TimesDifference(w: real, x: real, y: real)
    ensures Times(w, x) - Times(w, y) == Times(w, x - y)
  {
  }

  lemma {:induction false} OneTermOfAll(s: seq<Score>, token: nat, shift: real, n: nat, exp: real -> real)
    requires Positive(exp) && token < n && At(s, token).Scored?
    ensures 0.0 < Term(At(s, token).value, shift, exp) <= Denominator(s, shift, n, exp)
  {
    DenominatorPositive(s, shift, n - 1, exp);
    if token < n - 1 { OneTermOfAll(s, token, shift, n - 1, exp); }
  }

  lemma ShareOfRaise(term: real, den: real, raise: real)
    requires 0.0 < term <= den && raise > 0.0
    ensures 0.0 < Times(Share(term, den, Exact), raise) <= raise
  {
    var w := term / den;
    assert w * den == term;
    assert 0.0 < w <= 1.0;
    assert w * raise > 0.0 && (1.0 - w) * raise >= 0.0;
  }

  /** Raising one value raises the mixture, by no more, exactly when it is admitted. */
  lemma RaisingOneValue(s: seq<Score>, v: seq<real>, token: nat, x: real, exp: real -> real)
    requires Positive(exp) && Peak(s, |s|).Scored? && token < |v| == |s| && x > v[token]
    ensures Denominator(s, Peak(s, |s|).value, |s|, exp) != 0.0
    ensures var before := Mix(s, v, |s|, Exact, exp); var after := Mix(s, v[token := x], |s|, Exact, exp);
      if At(s, token).Scored? then before < after <= before + (x - v[token]) else after == before
  {
    var shift := Peak(s, |s|).value;
    DenominatorPositive(s, shift, |s|, exp);
    MixedMoves(s, v, token, x, shift, Denominator(s, shift, |s|, exp), |s|, exp);
    if At(s, token).Scored? {
      OneTermOfAll(s, token, shift, |s|, exp);
      ShareOfRaise(Term(At(s, token).value, shift, exp), Denominator(s, shift, |s|, exp), x - v[token]);
    }
  }

  /** `cache` with the value of `token` in coordinate `r` replaced. */
  function WithValue(cache: Cache, rank: nat, token: nat, r: nat, x: real): Cache
    requires Cell(token, rank, r) < |cache.values|
  {
    cache.(values := cache.values[Cell(token, rank, r) := x])
  }

  lemma ColumnOfChanged(spec: Spec, cache: Cache, length: nat, token: nat, r: nat, x: real, column: nat)
    requires spec.rank > 0 && |cache.values| == length * spec.rank && token < length && r < spec.rank
    requires column < spec.rank
    ensures Cell(token, spec.rank, r) < |cache.values|
    ensures Column(spec, WithValue(cache, spec.rank, token, r, x), length, column) ==
      if column == r then Column(spec, cache, length, r)[token := x] else Column(spec, cache, length, column)
  {
    CellInRange(token, length, spec.rank, r);
    var changed := WithValue(cache, spec.rank, token, r, x);
    var before, after := Column(spec, cache, length, column), Column(spec, changed, length, column);
    forall t | 0 <= t < length ensures after[t] == if t == token && column == r then x else before[t] {
      ColumnAt(spec, cache, length, column, t);
      ColumnAt(spec, changed, length, column, t);
      if Cell(t, spec.rank, column) == Cell(token, spec.rank, r) {
        CellInjective(t, column, token, r, spec.rank);
      }
    }
  }

  lemma SameScores(spec: Spec, query: Query, cache: Cache, length: int, position: int, head: nat, token: nat, r: nat,
                   x: real, round: real -> real)
    requires Shapes(spec, query, cache, length, position) && Defined(spec.pattern) && head < spec.heads
    requires Cell(token, spec.rank, r) < |cache.values|
    ensures Scores(spec, query, WithValue(cache, spec.rank, token, r, x), length, position, head, round)
      == Scores(spec, query, cache, length, position, head, round)
  {
    hide Allowed, ScoreOf, Row;
  }

  /** On the output, with exact arithmetic: raising a cached value raises its coordinate, in
      every head, exactly when the pattern admits its key, and moves no other coordinate. */
  lemma RaisingAValue(spec: Spec, query: Query, cache: Cache, length: int, position: int, token: nat, r: nat, x: real,
                      exp: real -> real, out: seq<real>, out': seq<real>, head: nat, column: nat)
    requires Shapes(spec, query, cache, length, position) && Defined(spec.pattern) && Positive(exp)
    requires token < length && r < spec.rank && Cell(token, spec.rank, r) < |cache.values|
    requires x > cache.values[Cell(token, spec.rank, r)]
    requires IsOutput(out, spec, query, cache, length, position, Exact, exp)
    requires IsOutput(out', spec, query, WithValue(cache, spec.rank, token, r, x), length, position, Exact, exp)
    requires head < spec.heads && column < spec.rank
    ensures var cell := Cell(head, spec.rank, column);
      && cell < |out| == |out'|
      && out[cell] <= out'[cell]
      && (out[cell] < out'[cell] <==> column == r && Allowed(spec.pattern, position, token))
  {
    hide Allowed, Row, ScoreOf, Mix, IsOutput, Peak, Denominator;
    var changed := WithValue(cache, spec.rank, token, r, x);
    CoordinateIs(spec, query, cache, length, position, exp, out, head, column);
    CoordinateIs(spec, query, changed, length, position, exp, out', head, column);
    SameScores(spec, query, cache, length, position, head, token, r, x, Exact);
    ColumnOfChanged(spec, cache, length, token, r, x, column);
    var s := Scores(spec, query, cache, length, position, head, Exact);
    if column == r {
      ColumnAt(spec, cache, length, r, token);
      RaisingOneValue(s, Column(spec, cache, length, r), token, x, exp);
    }
  }

  lemma CoordinateIs(spec: Spec, query: Query, cache: Cache, length: int, position: int, exp: real -> real,
                     out: seq<real>, head: nat, column: nat)
    requires Shapes(spec, query, cache, length, position) && Defined(spec.pattern)
    requires IsOutput(out, spec, query, cache, length, position, Exact, exp)
    requires head < spec.heads && column < spec.rank
    ensures |out| == spec.heads * spec.rank && Cell(head, spec.rank, column) < |out|
    ensures var s := Scores(spec, query, cache, length, position, head, Exact);
      && |s| == length && Peak(s, |s|).Scored? && Denominator(s, Peak(s, |s|).value, |s|, exp) != 0.0
      && out[Cell(head, spec.rank, column)] == Mix(s, Column(spec, cache, length, column), |s|, Exact, exp)
  {
    hide Scores, Column, Mix, Peak, Denominator;
    assert OutputAt(out, spec, query, cache, length, position, Exact, exp, head, column);
    CellInRange(head, spec.heads, spec.rank, column);
  }

  // ----- scores

  lemma {:induction false} DotIgnoresTail(a: seq<real>, b: seq<real>, a': seq<real>, b': seq<real>, n: nat,
                                          round: real -> real)
    requires n <= |a| && n <= |b|
    ensures Dot(a + a', b + b', n, round) == Dot(a, b, n, round)
  {
    hide Times;
    if n > 0 { DotIgnoresTail(a, b, a', b', n - 1, round); }
  }

  lemma {:induction false} DotAppend(a: seq<real>, b: seq<real>, a': seq<real>, b': seq<real>, n: nat,
                                     round: real -> real)
    requires |a| == |b| && n <= |a'| && n <= |b'|
    ensures Dot(a + a', b + b', |a| + n, round) == Dot(a, b, |a|, round) + Dot(a', b', n, round)
  {
    hide Times;
    if n == 0 { DotIgnoresTail(a, b, a', b', |a|, round); } else { DotAppend(a, b, a', b', n - 1, round); }
  }

  /** The score is the scaled inner product of two vectors, each content and rotary part
      together: neither part counts more than the other. */
  lemma ScoreIsOneProduct(spec: Spec, content: seq<real>, rope: seq<real>, key: seq<real>, keyRope: seq<real>,
                          round: real -> real)
    requires |content| == |key| && |rope| == |keyRope|
    ensures ScoreOf(spec, content, rope, key, keyRope, round) ==
      round(Times(round(Dot(content + rope, key + keyRope, |key + keyRope|, round)), spec.scale))
  {
    DotAppend(content, key, rope, keyRope, |rope|, round);
  }

  /** Against a vector that is one at `i` and zero elsewhere the inner product is the other
      vector's entry, rounded. */
  lemma {:induction false} DotPicks(a: seq<real>, b: seq<real>, i: nat, n: nat, round: real -> real)
    requires i < |a| && n <= |a| == |b| && round(0.0) == 0.0 && round(1.0) == 1.0
    requires b[i] == 1.0 && forall k :: 0 <= k < |b| && k != i ==> b[k] == 0.0
    ensures Dot(a, b, n, round) == if i < n then round(a[i]) else 0.0
  {
    if n > 0 { DotPicks(a, b, i, n - 1, round); }
  }

  /** The peak is the greatest admitted score. */
  lemma {:induction false} PeakIsGreatest(s: seq<Score>, n: nat)
    ensures forall t: nat :: t < n && At(s, t).Scored? ==> Peak(s, n).Scored? && At(s, t).value <= Peak(s, n).value
    ensures Peak(s, n).Scored? ==> exists t: nat :: t < n && At(s, t) == Peak(s, n)
  {
    if n > 0 {
      PeakIsGreatest(s, n - 1);
      assert At(s, n - 1).Scored? ==> Peak(s, n).Scored?;
    }
  }
}
