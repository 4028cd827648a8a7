/** Masked attention over a latent cache: which keys each pattern admits, the decode loops
    of the reference kernel, and what a masked softmax does not depend on. */
module LatentAttention {
  import opened ReferenceMath

  datatype Pattern =
    | FullCausal
    | SlidingWindow(window: int)
    | Bidirectional
    | PrefixLm(prefixLength: int)
    | BlockSparse(blockSize: int, localBlocks: int, globalBlocks: int)
    | DynamicSparse(blockSize: int, maxSelected: int)

  /** A block pattern divides by its block size. */
  predicate Defined(pattern: Pattern) {
    (pattern.BlockSparse? || pattern.DynamicSparse?) ==> pattern.blockSize > 0
  }

  function Block(position: nat, size: int): (b: nat)
    requires size > 0
  {
    position / size
  }

  predicate Allowed(pattern: Pattern, query: nat, key: nat)
    requires Defined(pattern)
  {
    match pattern
    case FullCausal => key <= query
    case SlidingWindow(window) => key <= query && key >= query - window + 1
    case Bidirectional => true
    case PrefixLm(prefixLength) => if query < prefixLength then key < prefixLength else key <= query
    case BlockSparse(size, local, global) =>
      Block(key, size) <= Block(query, size)
      && (Block(key, size) < global || Block(key, size) >= Block(query, size) - local + 1)
    case DynamicSparse(size, selected) =>
      Block(key, size) <= Block(query, size) && (Block(key, size) < selected || Block(key, size) == Block(query, size))
  }

  lemma BlockMonotone(a: nat, b: nat, size: int)
    requires size > 0 && a <= b
    ensures Block(a, size) <= Block(b, size)
  {
    assert (Block(b, size) - Block(a, size)) * size == (b - a) - (b % size - a % size);
    Multiples(Block(b, size) - Block(a, size), size);
  }

  /** A query sees its own key unless its window is empty, or its local block count is and
      its block is not a global one. */
  lemma AdmitsItself(pattern: Pattern, query: nat)
    requires Defined(pattern)
    ensures Allowed(pattern, query, query) <==>
      && (pattern.SlidingWindow? ==> pattern.window > 0)
      && (pattern.BlockSparse? ==> pattern.localBlocks > 0 || Block(query, pattern.blockSize) < pattern.globalBlocks)
  {
  }

  /** Exactly when a query sees any key at all: the remaining case is the kernel's
      "selects no keys" error. */
  lemma AdmitsSomething(pattern: Pattern, query: nat, length: nat)
    requires Defined(pattern) && query < length
    ensures (exists key :: 0 <= key < length && Allowed(pattern, query, key)) <==> Selects(pattern)
  {
    AdmitsItself(pattern, query);
    if Selects(pattern) {
      assert Allowed(pattern, query, query) || Allowed(pattern, query, 0);
    }
  }

  predicate Selects(pattern: Pattern) {
    && (pattern.SlidingWindow? ==> pattern.window > 0)
    && (pattern.BlockSparse? ==> pattern.localBlocks > 0 || pattern.globalBlocks > 0)
  }

  /** A query sees some later key exactly when it sees the very next one: block patterns
      look ahead inside the query's own block, causal and windowed ones never do. */
  lemma LooksAheadIffNext(pattern: Pattern, query: nat, length: nat)
    requires Defined(pattern)
    ensures (exists key :: query < key < length && Allowed(pattern, query, key))
      <==> query + 1 < length && Allowed(pattern, query, query + 1)
    ensures pattern.FullCausal? || pattern.SlidingWindow? ==> !Allowed(pattern, query, query + 1)
  {
    forall key | query < key && Allowed(pattern, query, key) ensures Allowed(pattern, query, query + 1) {
      if pattern.BlockSparse? || pattern.DynamicSparse? {
        BlockMonotone(query, query + 1, pattern.blockSize);
        BlockMonotone(query + 1, key, pattern.blockSize);
      }
    }
    if query + 1 < length && Allowed(pattern, query, query + 1) {
      assert query < query + 1 < length;
    }
  }

  // ----- a masked softmax on its own

  datatype Score = Masked | Scored(value: real)

  /** Past the end counts as masked. */
  function At(s: seq<Score>, t: nat): Score { if t < |s| then s[t] else Masked }

  function ValueAt(v: seq<real>, t: nat): real { if t < |v| then v[t] else 0.0 }

  function Peak(s: seq<Score>, n: nat): Score {
    if n == 0 then Masked
    else if At(s, n - 1).Masked? then Peak(s, n - 1)
    else if Peak(s, n - 1).Scored? && At(s, n - 1).value < Peak(s, n - 1).value then Peak(s, n - 1)
    else At(s, n - 1)
  }

  function Term(score: real, shift: real, exp: real -> real): real { exp(score - shift) }

  function Denominator(s: seq<Score>, shift: real, n: nat, exp: real -> real): real {
    if n == 0 then 0.0
    else if At(s, n - 1).Masked? then Denominator(s, shift, n - 1, exp)
    else Denominator(s, shift, n - 1, exp) + Term(At(s, n - 1).value, shift, exp)
  }

  function Share(term: real, den: real, round: real -> real): real
    requires den != 0.0
  {
    round(term / den)
  }

  function Times(a: real, b: real): real { a * b }

  function Mixed(s: seq<Score>, v: seq<real>, shift: real, den: real, n: nat, round: real -> real,
                 exp: real -> real): real
    requires den != 0.0
  {
    if n == 0 then 0.0
    else if At(s, n - 1).Masked? then Mixed(s, v, shift, den, n - 1, round, exp)
    else
      var share := Share(Term(At(s, n - 1).value, shift, exp), den, round);
      Mixed(s, v, shift, den, n - 1, round, exp) + Times(share, round(ValueAt(v, n - 1)))
  }

  lemma {:induction false} DenominatorPositive(s: seq<Score>, shift: real, n: nat, exp: real -> real)
    requires Positive(exp)
    ensures Denominator(s, shift, n, exp) >= 0.0
    ensures Denominator(s, shift, n, exp) > 0.0 <==> Peak(s, n).Scored?
  {
    if n > 0 { DenominatorPositive(s, shift, n - 1, exp); }
  }

  /** The value of one output coordinate. */
  function Mix(s: seq<Score>, v: seq<real>, n: nat, round: real -> real, exp: real -> real): real
    requires Peak(s, n).Scored? && Denominator(s, Peak(s, n).value, n, exp) != 0.0
  {
    round(Mixed(s, v, Peak(s, n).value, Denominator(s, Peak(s, n).value, n, exp), n, round, exp))
  }

  /** The same admitted positions with the same scores and values there. */
  ghost predicate Agree(s: seq<Score>, v: seq<real>, s': seq<Score>, v': seq<real>) {
    forall t: nat :: At(s, t) == At(s', t) && (At(s, t).Scored? ==> ValueAt(v, t) == ValueAt(v', t))
  }

  lemma {:induction false} AgreeingParts(s: seq<Score>, v: seq<real>, s': seq<Score>, v': seq<real>,
                                         shift: real, den: real, n: nat, round: real -> real, exp: real -> real)
    requires Agree(s, v, s', v')
    ensures Peak(s, n) == Peak(s', n) && Denominator(s, shift, n, exp) == Denominator(s', shift, n, exp)
    ensures den != 0.0 ==> Mixed(s, v, shift, den, n, round, exp) == Mixed(s', v', shift, den, n, round, exp)
  {
    hide Term, Share, Times;
    if n > 0 { AgreeingParts(s, v, s', v', shift, den, n - 1, round, exp); }
  }

  /** Positions past the end add nothing. */
  lemma {:induction false} PastTheEnd(s: seq<Score>, v: seq<real>, shift: real, den: real, n: nat,
                                      round: real -> real, exp: real -> real)
    requires |s| <= n
    ensures Peak(s, n) == Peak(s, |s|) && Denominator(s, shift, n, exp) == Denominator(s, shift, |s|, exp)
    ensures den != 0.0 ==> Mixed(s, v, shift, den, n, round, exp) == Mixed(s, v, shift, den, |s|, round, exp)
  {
    if |s| < n { PastTheEnd(s, v, shift, den, n - 1, round, exp); }
  }

  /** Caches of any two lengths that agree where the mask admits give the same output. */
  lemma MixSeesOnlyAdmitted(s: seq<Score>, v: seq<real>, s': seq<Score>, v': seq<real>, round: real -> real,
                            exp: real -> real)
    requires Positive(exp) && Agree(s, v, s', v')
    ensures Peak(s, |s|) == Peak(s', |s'|)
    ensures Peak(s, |s|).Scored? ==>
      && Denominator(s, Peak(s, |s|).value, |s|, exp) > 0.0 && Denominator(s', Peak(s', |s'|).value, |s'|, exp) > 0.0
      && Mix(s, v, |s|, round, exp) == Mix(s', v', |s'|, round, exp)
  {
    var n := |s| + |s'|;
    PastTheEnd(s, v, 0.0, 0.0, n, round, exp);
    PastTheEnd(s', v', 0.0, 0.0, n, round, exp);
    AgreeingParts(s, v, s', v', 0.0, 0.0, n, round, exp);
    if Peak(s, |s|).Scored? {
      var shift := Peak(s, |s|).value;
      var den := Denominator(s, shift, |s|, exp);
      DenominatorPositive(s, shift, |s|, exp);
      DenominatorPositive(s', shift, |s'|, exp);
      PastTheEnd(s, v, shift, den, n, round, exp);
      PastTheEnd(s', v', shift, den, n, round, exp);
      AgreeingParts(s, v, s', v', shift, den, n, round, exp);
    }
  }

  // ----- exact arithmetic

  function Exact(x: real): real { x }

  lemma {:induction false} Between(s: seq<Score>, v: seq<real>, shift: real, den: real, n: nat, exp: real -> real,
                                   lo: real, hi: real)
    requires Positive(exp) && den > 0.0
    requires forall t: nat :: t < n && At(s, t).Scored? ==> lo <= ValueAt(v, t) <= hi
    ensures Times(lo, Denominator(s, shift, n, exp) / den) <= Mixed(s, v, shift, den, n, Exact, exp)
      <= Times(hi, Denominator(s, shift, n, exp) / den)
  {
    if n > 0 {
      Between(s, v, shift, den, n - 1, exp, lo, hi);
      var sum := Denominator(s, shift, n - 1, exp);
      if At(s, n - 1).Scored? {
        var term := Term(At(s, n - 1).value, shift, exp);
        OneMoreTerm(lo, sum, term, den, ValueAt(v, n - 1), hi);
      }
    }
  }

  lemma OneMoreTerm(lo: real, sum: real, term: real, den: real, x: real, hi: real)
    requires den > 0.0 && term > 0.0 && lo <= x <= hi
    ensures Times(lo, sum / den) + Times(term / den, x) >= Times(lo, (sum + term) / den)
    ensures Times(hi, sum / den) + Times(term / den, x) <= Times(hi, (sum + term) / den)
  {
    var w := term / den;
    assert w > 0.0 && (sum + term) / den == sum / den + w;
    assert w * (x - lo) >= 0.0 && w * (hi - x) >= 0.0;
  }

  /** With exact arithmetic every output coordinate lies between the least and the greatest
      admitted value: the shares are positive and sum to one. */
  lemma MixIsConvex(s: seq<Score>, v: seq<real>, n: nat, exp: real -> real, lo: real, hi: real)
    requires Positive(exp) && Peak(s, n).Scored?
    requires forall t: nat :: t < n && At(s, t).Scored? ==> lo <= ValueAt(v, t) <= hi
    ensures Denominator(s, Peak(s, n).value, n, exp) != 0.0 && lo <= Mix(s, v, n, Exact, exp) <= hi
  {
    var shift := Peak(s, n).value;
    var den := Denominator(s, shift, n, exp);
    DenominatorPositive(s, shift, n, exp);
    Between(s, v, shift, den, n, exp, lo, hi);
    assert den / den == 1.0;
  }

  ghost predicate Exponential(exp: real -> real) {
    Positive(exp) && forall x, y :: exp(x + y) == exp(x) * exp(y)
  }

  lemma ShiftedTerm(score: real, a: real, b: real, exp: real -> real)
    requires Exponential(exp)
    ensures Term(score, b, exp) == Times(Term(score, a, exp), exp(a - b))
  {
    assert score - b == (score - a) + (a - b);
  }

  lemma {:induction false} ShiftedDenominator(s: seq<Score>, a: real, b: real, n: nat, exp: real -> real)
    requires Exponential(exp)
    ensures Denominator(s, b, n, exp) == Times(Denominator(s, a, n, exp), exp(a - b))
  {
    hide Times, Term, Exponential;
    if n > 0 {
      ShiftedDenominator(s, a, b, n - 1, exp);
      if At(s, n - 1).Scored? {
        ShiftedTerm(At(s, n - 1).value, a, b, exp);
        Distribute(Denominator(s, a, n - 1, exp), Term(At(s, n - 1).value, a, exp), exp(a - b));
      }
    } else {
      NothingTimes(exp(a - b));
    }
  }

  lemma NothingTimes(k: real)
    ensures Times(0.0, k) == 0.0
  {
  }

  lemma Distribute(x: real, y: real, k: real)
    ensures Times(x + y, k) == Times(x, k) + Times(y, k)
  {
  }

  lemma SameRatio(x: real, y: real, k: real)
    requires y > 0.0 && k > 0.0
    ensures Times(y, k) > 0.0 && Times(x, k) / Times(y, k) == x / y
  {
    assert (x / y) * y == x;
    assert (x / y) * (y * k) == x * k;
  }

  lemma ShiftedShare(score: real, den: real, a: real, b: real, round: real -> real, exp: real -> real)
    requires Exponential(exp) && den > 0.0
    ensures Times(den, exp(a - b)) > 0.0
    ensures Share(Term(score, b, exp), Times(den, exp(a - b)), round) == Share(Term(score, a, exp), den, round)
  {
    ShiftedTerm(score, a, b, exp);
    SameRatio(Term(score, a, exp), den, exp(a - b));
  }

  /** Subtracting the peak is only a matter of range: every shift gives the same mixture. */
  lemma ShiftInvariant(s: seq<Score>, v: seq<real>, a: real, b: real, n: nat, round: real -> real, exp: real -> real)
    requires Exponential(exp) && Denominator(s, a, n, exp) > 0.0
    ensures Denominator(s, b, n, exp) > 0.0
    ensures Mixed(s, v, b, Denominator(s, b, n, exp), n, round, exp)
      == Mixed(s, v, a, Denominator(s, a, n, exp), n, round, exp)
  {
    var den := Denominator(s, a, n, exp);
    ShiftedDenominator(s, a, b, n, exp);
    ShiftedShare(0.0, den, a, b, round, exp);
    ShiftedMixture(s, v, a, b, den, n, round, exp);
  }

  lemma {:induction false} ShiftedMixture(s: seq<Score>, v: seq<real>, a: real, b: real, den: real, n: nat,
                                          round: real -> real, exp: real -> real)
    requires Exponential(exp) && den > 0.0 && Times(den, exp(a - b)) > 0.0
    ensures Mixed(s, v, b, Times(den, exp(a - b)), n, round, exp) == Mixed(s, v, a, den, n, round, exp)
  {
    hide Times, Term, Share, Exponential;
    if n > 0 {
      ShiftedMixture(s, v, a, b, den, n - 1, round, exp);
      if At(s, n - 1).Scored? { ShiftedShare(At(s, n - 1).value, den, a, b, round, exp); }
    }
  }

  // ----- the kernel

  datatype Spec = Spec(heads: int, rank: int, ropeDim: int, scale: real, pattern: Pattern)

  datatype Query = Query(content: seq<real>, rope: seq<real>)

  datatype Cache = Cache(keys: seq<real>, values: seq<real>, rope: seq<real>)

  predicate Shapes(spec: Spec, query: Query, cache: Cache, length: int, position: int) {
    && spec.heads > 0 && spec.rank > 0 && spec.ropeDim >= 0 && spec.scale > 0.0 && length > 0
    && 0 <= position < length
    && |query.content| == spec.heads * spec.rank && |query.rope| == spec.heads * spec.ropeDim
    && |cache.keys| == length * spec.rank && |cache.values| == |cache.keys| && |cache.rope| == length * spec.ropeDim
  }

  /** Row `row` of a row-major matrix. */
  function Row(m: seq<real>, rows: nat, width: nat, row: nat): (r: seq<real>)
    requires |m| == rows * width && row < rows
    ensures |r| == width
  {
    RowStart(rows, width, row);
    m[row * width..row * width + width]
  }

  function Dot(a: seq<real>, b: seq<real>, n: nat, round: real -> real): real
    requires n <= |a| && n <= |b|
  {
    if n == 0 then 0.0 else Dot(a, b, n - 1, round) + Times(round(a[n - 1]), round(b[n - 1]))
  }

  function ScoreOf(spec: Spec, content: seq<real>, rope: seq<real>, key: seq<real>, keyRope: seq<real>,
                   round: real -> real): real
    requires |content| == |key| && |rope| == |keyRope|
  {
    round(Times(round(Dot(content, key, |key|, round) + Dot(rope, keyRope, |keyRope|, round)), spec.scale))
  }

  /** The score of one token for one head, masked by the pattern. */
  function ScoreAt(spec: Spec, query: Query, cache: Cache, length: int, position: int, head: nat, token: nat,
                   round: real -> real): Score
    requires Shapes(spec, query, cache, length, position) && Defined(spec.pattern) && head < spec.heads &&
      token < length
  {
    if !Allowed(spec.pattern, position, token) then Masked
    else Scored(ScoreOf(spec, Row(query.content, spec.heads, spec.rank, head),
      Row(query.rope, spec.heads, spec.ropeDim, head),
                        Row(cache.keys, length, spec.rank, token), Row(cache.rope, length, spec.ropeDim, token), round))
  }

  function Scores(spec: Spec, query: Query, cache: Cache, length: int, position: int, head: nat,
                  round: real -> real): (s: seq<Score>)
    requires Shapes(spec, query, cache, length, position) && Defined(spec.pattern) && head < spec.heads
    ensures |s| == length
  {
    seq(length, token requires 0 <= token < length => ScoreAt(spec, query, cache, length, position, head, token, round))
  }

  function Column(spec: Spec, cache: Cache, length: nat, r: nat): (v: seq<real>)
    requires spec.rank > 0 && |cache.values| == length * spec.rank && r < spec.rank
    ensures |v| == length
  {
    seq(length, token requires 0 <= token < length => Row(cache.values, length, spec.rank, token)[r])
  }

  datatype Outcome = ShapeMismatch | SelectsNoKeys | Output(values: seq<real>)

  /** The exact output: coordinate `r` of `head`. */
  ghost predicate IsOutput(out: seq<real>, spec: Spec, query: Query, cache: Cache, length: int, position: int,
                           round: real -> real, exp: real -> real)
    requires Shapes(spec, query, cache, length, position) && Defined(spec.pattern)
  {
    && |out| == spec.heads * spec.rank
    && forall head, r :: 0 <= head < spec.heads && 0 <= r < spec.rank ==>
      OutputAt(out, spec, query, cache, length, position, round, exp, head, r)
  }

  ghost predicate OutputAt(out: seq<real>, spec: Spec, query: Query, cache: Cache, length: int, position: int,
                           round: real -> real, exp: real -> real, head: nat, r: nat)
    requires Shapes(spec, query, cache, length, position) && Defined(spec.pattern)
    requires |out| == spec.heads * spec.rank && head < spec.heads && r < spec.rank
  {
    CellInRange(head, spec.heads, spec.rank, r);
    var s := Scores(spec, query, cache, length, position, head, round);
    && Peak(s, length).Scored? && Denominator(s, Peak(s, length).value, length, exp) != 0.0
    && out[Cell(head, spec.rank, r)] == Mix(s, Column(spec, cache, length, r), length, round, exp)
  }

  /** The caches look the same to a query at `position`. */
  ghost predicate SameAdmitted(spec: Spec, position: nat, a: Cache, la: nat, b: Cache, lb: nat)
    requires spec.rank > 0 && spec.ropeDim >= 0 && Defined(spec.pattern)
    requires |a.keys| == |a.values| == la * spec.rank && |a.rope| == la * spec.ropeDim
    requires |b.keys| == |b.values| == lb * spec.rank && |b.rope| == lb * spec.ropeDim
  {
    forall token: nat :: Allowed(spec.pattern, position, token) ==>
      (token < la <==> token < lb) && (token < la ==> SameToken(spec, a, la, b, lb, token))
  }

  predicate SameToken(spec: Spec, a: Cache, la: nat, b: Cache, lb: nat, token: nat)
    requires spec.rank > 0 && spec.ropeDim >= 0 && token < la && token < lb
    requires |a.keys| == |a.values| == la * spec.rank && |a.rope| == la * spec.ropeDim
    requires |b.keys| == |b.values| == lb * spec.rank && |b.rope| == lb * spec.ropeDim
  {
    && Row(a.keys, la, spec.rank, token) == Row(b.keys, lb, spec.rank, token)
    && Row(a.rope, la, spec.ropeDim, token) == Row(b.rope, lb, spec.ropeDim, token)
    && Row(a.values, la, spec.rank, token) == Row(b.values, lb, spec.rank, token)
  }

  lemma AdmittedAgree(spec: Spec, query: Query, a: Cache, la: nat, b: Cache, lb: nat, position: nat, head: nat, r: nat,
                      round: real -> real)
    requires Shapes(spec, query, a, la, position) && Shapes(spec, query, b, lb, position) && Defined(spec.pattern)
    requires SameAdmitted(spec, position, a, la, b, lb) && head < spec.heads && r < spec.rank
    ensures Agree(Scores(spec, query, a, la, position, head, round), Column(spec, a, la, r),
                  Scores(spec, query, b, lb, position, head, round), Column(spec, b, lb, r))
  {
    hide Allowed, Row, ScoreOf;
    var s, t := Scores(spec, query, a, la, position, head, round), Scores(spec, query, b, lb, position, head, round);
    var v, w := Column(spec, a, la, r), Column(spec, b, lb, r);
    forall token: nat | true
      ensures At(s, token) == At(t, token) && (At(s, token).Scored? ==> ValueAt(v, token) == ValueAt(w, token))
    {
      if Allowed(spec.pattern, position, token) {
        assert token < la ==> SameToken(spec, a, la, b, lb, token);
      }
    }
  }

  /** Two caches, of any lengths, that agree on what the pattern admits have the same
      outputs and fail together. */
  lemma OutputSeesOnlyAdmitted(spec: Spec, query: Query, a: Cache, la: nat, b: Cache, lb: nat, position: nat,
                               round: real -> real, exp: real -> real, out: seq<real>)
    requires Shapes(spec, query, a, la, position) && Shapes(spec, query, b, lb, position) && Defined(spec.pattern)
    requires SameAdmitted(spec, position, a, la, b, lb) && Positive(exp)
    ensures IsOutput(out, spec, query, a, la, position, round, exp) <==>
      IsOutput(out, spec, query, b, lb, position, round, exp)
  {
    hide SameAdmitted, Scores, Column, Mix, Peak, Denominator, Agree;
    if |out| == spec.heads * spec.rank {
      forall head, r | 0 <= head < spec.heads && 0 <= r < spec.rank
        ensures OutputAt(out, spec, query, a, la, position, round, exp, head, r)
          <==> OutputAt(out, spec, query, b, lb, position, round, exp, head, r)
      {
        AdmittedAgree(spec, query, a, la, b, lb, position, head, r, round);
        MixSeesOnlyAdmitted(Scores(spec, query, a, la, position, head, round), Column(spec, a, la, r),
                            Scores(spec, query, b, lb, position, head, round), Column(spec, b, lb, r), round, exp);
      }
    }
  }

  /** With exact arithmetic each output coordinate lies between the bounds of the values
      its query admits. */
  lemma OutputIsConvex(spec: Spec, query: Query, cache: Cache, length: int, position: int, exp: real -> real,
                       out: seq<real>,
                       head: nat, r: nat, lo: real, hi: real)
    requires Shapes(spec, query, cache, length, position) && Defined(spec.pattern) && head < spec.heads && r < spec.rank
    requires Positive(exp) && IsOutput(out, spec, query, cache, length, position, Exact, exp)
    requires forall t: nat :: t < length && Allowed(spec.pattern, position, t) ==>
      lo <= Column(spec, cache, length, r)[t] <= hi
    ensures Cell(head, spec.rank, r) < |out| && lo <= out[Cell(head, spec.rank, r)] <= hi
  {
    hide Allowed, Row, ScoreOf, Mix;
    var s, v := Scores(spec, query, cache, length, position, head, Exact), Column(spec, cache, length, r);
    assert OutputAt(out, spec, query, cache, length, position, Exact, exp, head, r);
    CellInRange(head, spec.heads, spec.rank, r);
    assert forall t: nat :: t < length && At(s, t).Scored? ==> Allowed(spec.pattern, position, t);
    MixIsConvex(s, v, length, exp, lo, hi);
  }

  // ----- its loops

  /** `score` carried on over one more pair of rows. */
  method Accumulate(score: real, m: seq<real>, rows: nat, row: nat, c: seq<real>, length: nat, token: nat, width: nat,
                    round: real -> real) returns (total: real)
    requires |m| == rows * width && row < rows && |c| == length * width && token < length
    ensures total == score + Dot(Row(m, rows, width, row), Row(c, length, width, token), width, round)
  {
    ghost var a, b := Row(m, rows, width, row), Row(c, length, width, token);
    RowIs(m, rows, width, row);
    RowIs(c, length, width, token);
    var first, second := row * width, token * width;
    total := AccumulateFrom(score, m, first, c, second, width, round, a, b);
  }

  lemma RowIs(m: seq<real>, rows: nat, width: nat, row: nat)
    requires |m| == rows * width && row < rows
    ensures row * width + width <= |m|
    ensures forall k :: 0 <= k < width ==> Row(m, rows, width, row)[k] == m[row * width + k]
  {
    RowStart(rows, width, row);
  }

  method AccumulateFrom(score: real, m: seq<real>, first: nat, c: seq<real>, second: nat, width: nat,
                        round: real -> real,
                        ghost a: seq<real>, ghost b: seq<real>) returns (total: real)
    requires first + width <= |m| && second + width <= |c| && |a| == |b| == width
    requires forall k :: 0 <= k < width ==> a[k] == m[first + k]
    requires forall k :: 0 <= k < width ==> b[k] == c[second + k]
    ensures total == score + Dot(a, b, width, round)
  {
    hide Times;
    total := score;
    for k := 0 to width
      invariant total == score + Dot(a, b, k, round)
    {
      total := total + Times(round(m[first + k]), round(c[second + k]));
    }
  }

  method ScoreRow(spec: Spec, query: Query, cache: Cache, length: int, position: int, head: nat, round: real -> real)
    returns (scores: seq<Score>, maximum: Score)
    requires Shapes(spec, query, cache, length, position) && Defined(spec.pattern) && head < spec.heads
    ensures scores == Scores(spec, query, cache, length, position, head, round) && maximum == Peak(scores, length)
  {
    hide Allowed, ScoreOf, Row, Dot, Times;
    ghost var all := Scores(spec, query, cache, length, position, head, round);
    var row := new Score[length](_ => Masked);
    maximum := Masked;
    for token: int := 0 to length
      invariant forall k :: 0 <= k < token ==> row[k] == all[k]
      invariant forall k :: token <= k < length ==> row[k] == Masked
      invariant maximum == Peak(all, token)
    {
      if Allowed(spec.pattern, position, token) {
        var value := ScoreToken(spec, query, cache, length, position, head, token, round);
        row[token] := Scored(value);
        maximum := if maximum.Scored? && value < maximum.value then maximum else Scored(value);
      }
    }
    scores := row[..];
    assert scores == all;
  }

  method ScoreToken(spec: Spec, query: Query, cache: Cache, length: int, position: int, head: nat, token: nat,
                    round: real -> real) returns (value: real)
    requires Shapes(spec, query, cache, length, position) && Defined(spec.pattern) && head < spec.heads &&
      token < length
    requires Allowed(spec.pattern, position, token)
    ensures Scored(value) == ScoreAt(spec, query, cache, length, position, head, token, round)
  {
    hide Row, Dot, Times;
    var score := Accumulate(0.0, query.content, spec.heads, head, cache.keys, length, token, spec.rank, round);
    score := Accumulate(score, query.rope, spec.heads, head, cache.rope, length, token, spec.ropeDim, round);
    value := round(Times(round(score), spec.scale));
  }

  method SumOfTerms(scores: seq<Score>, maximum: real, exp: real -> real) returns (denominator: real)
    ensures denominator == Denominator(scores, maximum, |scores|, exp)
  {
    denominator := 0.0;
    for token := 0 to |scores|
      invariant denominator == Denominator(scores, maximum, token, exp)
    {
      if scores[token].Scored? { denominator := denominator + Term(scores[token].value, maximum, exp); }
    }
  }

  method WeightedColumn(spec: Spec, cache: Cache, length: nat, r: nat, scores: seq<Score>, maximum: real,
                        denominator: real,
                        round: real -> real, exp: real -> real) returns (value: real)
    requires spec.rank > 0 && |cache.values| == length * spec.rank && r < spec.rank && |scores| == length
    requires denominator != 0.0
    ensures value == Mixed(scores, Column(spec, cache, length, r), maximum, denominator, length, round, exp)
  {
    hide Column, Times, Share, Term;
    ghost var column := Column(spec, cache, length, r);
    value := 0.0;
    for token := 0 to length
      invariant value == Mixed(scores, column, maximum, denominator, token, round, exp)
    {
      if scores[token].Scored? {
        var probability := Share(Term(scores[token].value, maximum, exp), denominator, round);
        ColumnAt(spec, cache, length, r, token);
        value := value + Times(probability, round(cache.values[token * spec.rank + r]));
      }
    }
  }

  lemma ColumnAt(spec: Spec, cache: Cache, length: nat, r: nat, token: nat)
    requires spec.rank > 0 && |cache.values| == length * spec.rank && r < spec.rank && token < length
    ensures token * spec.rank + r < |cache.values|
    ensures ValueAt(Column(spec, cache, length, r), token) == cache.values[token * spec.rank + r]
  {
    RowStart(length, spec.rank, token);
  }

  lemma OutputKept(out: seq<real>, spec: Spec, query: Query, cache: Cache, length: int, position: int,
                   round: real -> real, exp: real -> real, head: nat, r: nat, head': nat, r': nat, x: real)
    requires Shapes(spec, query, cache, length, position) && Defined(spec.pattern)
    requires |out| == spec.heads * spec.rank && head < spec.heads && r < spec.rank && head' < spec.heads &&
      r' < spec.rank
    requires OutputAt(out, spec, query, cache, length, position, round, exp, head, r) && (head != head' || r != r')
    ensures Cell(head', spec.rank, r') < |out|
    ensures OutputAt(out[Cell(head', spec.rank, r') := x], spec, query, cache, length, position, round, exp, head, r)
  {
    CellInRange(head', spec.heads, spec.rank, r');
    CellInRange(head, spec.heads, spec.rank, r);
    if Cell(head, spec.rank, r) == Cell(head', spec.rank, r') { CellInjective(head, r, head', r', spec.rank); }
  }

  /** Heads below `head` are done, and of `head` the first `r` coordinates. */
  ghost predicate DoneTo(out: seq<real>, spec: Spec, query: Query, cache: Cache, length: int, position: int,
                         round: real -> real, exp: real -> real, head: nat, r: nat)
    requires Shapes(spec, query, cache, length, position) && Defined(spec.pattern)
  {
    && |out| == spec.heads * spec.rank && head <= spec.heads && r <= spec.rank
    && forall h, k :: 0 <= h < spec.heads && 0 <= k < spec.rank && (h < head || (h == head && k < r)) ==>
      OutputAt(out, spec, query, cache, length, position, round, exp, h, k)
  }

  lemma OneMoreDone(out: seq<real>, spec: Spec, query: Query, cache: Cache, length: int, position: int,
                    round: real -> real, exp: real -> real, head: nat, r: nat, x: real)
    requires Shapes(spec, query, cache, length, position) && Defined(spec.pattern) && head < spec.heads && r < spec.rank
    requires DoneTo(out, spec, query, cache, length, position, round, exp, head, r)
    requires Cell(head, spec.rank, r) < |out|
    requires OutputAt(out[Cell(head, spec.rank, r) := x], spec, query, cache, length, position, round, exp, head, r)
    ensures DoneTo(out[Cell(head, spec.rank, r) := x], spec, query, cache, length, position, round, exp, head, r + 1)
  {
    hide OutputAt, Cell;
    var out' := out[Cell(head, spec.rank, r) := x];
    forall h, k | 0 <= h < spec.heads && 0 <= k < spec.rank && (h < head || (h == head && k < r + 1))
      ensures OutputAt(out', spec, query, cache, length, position, round, exp, h, k)
    {
      if h != head || k != r { OutputKept(out, spec, query, cache, length, position, round, exp, h, k, head, r, x); }
    }
  }

  /** One query against the cache. */
  method Decode(spec: Spec, query: Query, cache: Cache, length: int, position: int, round: real -> real,
                exp: real -> real)
    returns (outcome: Outcome)
    requires Defined(spec.pattern) && Positive(exp)
    ensures outcome.ShapeMismatch? <==> !Shapes(spec, query, cache, length, position)
    ensures outcome.SelectsNoKeys? <==> Shapes(spec, query, cache, length, position) && !Selects(spec.pattern)
    ensures outcome.Output? ==> IsOutput(outcome.values, spec, query, cache, length, position, round, exp)
  {
    if !Shapes(spec, query, cache, length, position) { return ShapeMismatch; }
    var output := new real[spec.heads * spec.rank](_ => 0.0);
    hide OutputAt, Scores, Selects, Positive, Cell;
    for head: int := 0 to spec.heads
      invariant DoneTo(output[..], spec, query, cache, length, position, round, exp, head, 0)
      invariant head > 0 ==> Selects(spec.pattern)
    {
      var scores, maximum := ScoreRow(spec, query, cache, length, position, head, round);
      PeakIffSelects(spec, query, cache, length, position, head, round);
      if maximum.Masked? { return SelectsNoKeys; }
      DecodeHead(spec, query, cache, length, position, head, scores, maximum.value, round, exp, output);
    }
    outcome := Output(output[..]);
  }

  method DecodeHead(spec: Spec, query: Query, cache: Cache, length: int, position: int, head: nat, scores: seq<Score>,
                    maximum: real, round: real -> real, exp: real -> real, output: array<real>)
    requires Shapes(spec, query, cache, length, position) && Defined(spec.pattern) && Positive(exp) && head < spec.heads
    requires scores == Scores(spec, query, cache, length, position, head, round) &&
      Scored(maximum) == Peak(scores, length)
    requires DoneTo(output[..], spec, query, cache, length, position, round, exp, head, 0)
    modifies output
    ensures DoneTo(output[..], spec, query, cache, length, position, round, exp, head + 1, 0)
  {
    hide Scores, DoneTo, Column, Mixed, Peak;
    var denominator := SumOfTerms(scores, maximum, exp);
    DenominatorPositive(scores, maximum, length, exp);
    hide Denominator, Positive;
    DoneShape(output[..], spec, query, cache, length, position, round, exp, head, 0);
    for r: int := 0 to spec.rank
      invariant DoneTo(output[..], spec, query, cache, length, position, round, exp, head, r)
    {
      var value := WeightedColumn(spec, cache, length, r, scores, maximum, denominator, round, exp);
      CellInRange(head, spec.heads, spec.rank, r);
      ghost var before := output[..];
      output[head * spec.rank + r] := round(value);
      assert output[..] == before[Cell(head, spec.rank, r) := round(value)];
      OneMoreDone(before, spec, query, cache, length, position, round, exp, head, r, round(value));
    }
    NextHead(output[..], spec, query, cache, length, position, round, exp, head);
  }

  lemma DoneShape(out: seq<real>, spec: Spec, query: Query, cache: Cache, length: int, position: int,
                  round: real -> real, exp: real -> real, head: nat, r: nat)
    requires Shapes(spec, query, cache, length, position) && Defined(spec.pattern)
    requires DoneTo(out, spec, query, cache, length, position, round, exp, head, r)
    ensures |out| == spec.heads * spec.rank
  {
  }

  lemma NextHead(out: seq<real>, spec: Spec, query: Query, cache: Cache, length: int, position: int,
                 round: real -> real, exp: real -> real, head: nat)
    requires Shapes(spec, query, cache, length, position) && Defined(spec.pattern) && head < spec.heads
    requires DoneTo(out, spec, query, cache, length, position, round, exp, head, spec.rank)
    ensures DoneTo(out, spec, query, cache, length, position, round, exp, head + 1, 0)
  {
    hide OutputAt;
  }

  lemma {:induction false} PeakIffAdmits(s: seq<Score>, n: nat)
    ensures Peak(s, n).Scored? <==> exists t: nat :: t < n && At(s, t).Scored?
  {
    if n > 0 { PeakIffAdmits(s, n - 1); }
  }

  /** The row has a peak exactly when the pattern selects a key, whatever the head. */
  lemma PeakIffSelects(spec: Spec, query: Query, cache: Cache, length: int, position: int, head: nat,
                       round: real -> real)
    requires Shapes(spec, query, cache, length, position) && Defined(spec.pattern) && head < spec.heads
    ensures Peak(Scores(spec, query, cache, length, position, head, round), length).Scored? <==> Selects(spec.pattern)
  {
    hide Allowed, ScoreOf, Row, Selects, Peak;
    var s := Scores(spec, query, cache, length, position, head, round);
    PeakIffAdmits(s, length);
    AdmitsSomething(spec.pattern, position, length);
    assert forall t: nat :: t < length ==> (At(s, t).Scored? <==> Allowed(spec.pattern, position, t));
  }
}
