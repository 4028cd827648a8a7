/** The arithmetic of Q4_K: which codes the encoder chooses for a superblock and how far
    a decoded value can be from its input.  Floats are reals; `half` is the value a
    half-precision field gives back for what was stored in it. */
module Q4KError {

  const SUPER_BLOCK := 256
  const SUB_BLOCKS := 8
  const SUB_SIZE := 32

  function Abs(x: real): real { if x < 0.0 then -x else x }

  function Larger(x: real, y: real): real { if x < y then y else x }

  function Smaller(x: real, y: real): real { if y < x then y else x }

  /** `std::lround`: to the nearest integer, halves away from zero. */
  function Round(x: real): (n: int)
    ensures Abs(x - n as real) <= 0.5
    ensures x >= 0.0 ==> n >= 0
  {
    if x >= 0.0 then (x + 0.5).Floor else -((0.5 - x).Floor)
  }

  function Clamp(n: int, top: nat): (c: nat)
    ensures c <= top && (0 <= n <= top ==> c == n)
  {
    if n < 0 then 0 else if n > top then top else n
  }

  // ----- what the encoder chooses

  function Lowest(s: seq<real>): (lo: real)
    requires |s| > 0
    ensures forall i :: 0 <= i < |s| ==> lo <= s[i]
  {
    if |s| == 1 then s[0] else Smaller(Lowest(s[..|s| - 1]), s[|s| - 1])
  }

  function Highest(s: seq<real>): (hi: real)
    requires |s| > 0
    ensures forall i :: 0 <= i < |s| ==> s[i] <= hi
  {
    if |s| == 1 then s[0] else Larger(Highest(s[..|s| - 1]), s[|s| - 1])
  }

  function Sub(input: seq<real>, j: nat): (s: seq<real>)
    requires |input| == SUPER_BLOCK && j < SUB_BLOCKS
    ensures |s| == SUB_SIZE
  {
    input[j * SUB_SIZE..j * SUB_SIZE + SUB_SIZE]
  }

  /** A sub-block quantizes from its minimum, or from zero if it has no negative value. */
  function Low(input: seq<real>, j: nat): real
    requires |input| == SUPER_BLOCK && j < SUB_BLOCKS
  {
    Smaller(Lowest(Sub(input, j)), 0.0)
  }

  function Spread(input: seq<real>, j: nat): real
    requires |input| == SUPER_BLOCK && j < SUB_BLOCKS
  {
    (Highest(Sub(input, j)) - Low(input, j)) / 15.0
  }

  function MaxSpread(input: seq<real>, n: nat): (r: real)
    requires |input| == SUPER_BLOCK && n <= SUB_BLOCKS
    ensures r >= 0.0 && forall j :: 0 <= j < n ==> Spread(input, j) <= r
  {
    if n == 0 then 0.0 else Larger(MaxSpread(input, n - 1), Spread(input, n - 1))
  }

  function MaxDrop(input: seq<real>, n: nat): (r: real)
    requires |input| == SUPER_BLOCK && n <= SUB_BLOCKS
    ensures r >= 0.0 && forall j :: 0 <= j < n ==> -Low(input, j) <= r
  {
    if n == 0 then 0.0 else Larger(MaxDrop(input, n - 1), -Low(input, n - 1))
  }

  function Model(largest: real): real { if largest > 0.0 then largest / 63.0 else 0.0 }

  function SixBits(x: real, unit: real): (c: nat)
    ensures c <= 63
  {
    if unit > 0.0 then Clamp(Round(x / unit), 63) else 0
  }

  function FourBits(x: real, step: real, base: real): (c: nat)
    ensures c <= 15
  {
    if step <= 0.0 then 0 else Clamp(Round(x / step - base / step), 15)
  }

  /** The numbers a superblock holds. */
  datatype Codes = Codes(d: real, dmin: real, scales: seq<nat>, minimums: seq<nat>, codes: seq<nat>)

  predicate Shaped(q: Codes) { |q.scales| == |q.minimums| == SUB_BLOCKS && |q.codes| == SUPER_BLOCK }

  function Step(q: Codes, j: nat): real
    requires Shaped(q) && j < SUB_BLOCKS
  {
    q.d * q.scales[j] as real
  }

  function Base(q: Codes, j: nat): real
    requires Shaped(q) && j < SUB_BLOCKS
  {
    -q.dmin * q.minimums[j] as real
  }

  /** `q` is what the encoder chooses for `input`. */
  predicate Encodes(q: Codes, input: seq<real>, half: real -> real)
    requires |input| == SUPER_BLOCK
  {
    && Shaped(q)
    && q.d == half(Model(MaxSpread(input, 8))) && q.dmin == half(Model(MaxDrop(input, 8)))
    && (forall j :: 0 <= j < 8 ==>
      q.scales[j] == SixBits(Spread(input, j), q.d) && q.minimums[j] == SixBits(-Low(input, j), q.dmin))
    && forall col :: 0 <= col < SUPER_BLOCK ==>
      q.codes[col] == FourBits(input[col], Step(q, col / 32), Base(q, col / 32))
  }

  /** What the decoder makes of column `col`. */
  function Decoded(q: Codes, col: nat): real
    requires Shaped(q) && col < SUPER_BLOCK
  {
    q.d * (q.scales[col / 32] * q.codes[col]) as real - q.dmin * q.minimums[col / 32] as real
  }

  /** The stored units are large enough that no six-bit code saturates by more than half a
      unit. */
  predicate Resolves(input: seq<real>, d: real, dmin: real)
    requires |input| == SUPER_BLOCK
  {
    && d >= 0.0 && dmin >= 0.0
    && MaxSpread(input, 8) <= 63.5 * d && MaxDrop(input, 8) <= 63.5 * dmin
  }

  /** Units no more than one part in 128 too small resolve the input. */
  lemma CloseUnitsResolve(input: seq<real>, d: real, dmin: real)
    requires |input| == SUPER_BLOCK && d >= 0.0 && dmin >= 0.0
    requires 127.0 * Model(MaxSpread(input, 8)) <= 128.0 * d
    requires 127.0 * Model(MaxDrop(input, 8)) <= 128.0 * dmin
    ensures Resolves(input, d, dmin)
  {
  }

  /** Multiplication by a non-negative number is monotone; products are named so that
      only the products meet the solver's linear arithmetic. */
  lemma Monotone(x: real, y: real, k: real, xk: real, yk: real)
    requires xk == x * k && yk == y * k && x <= y && k >= 0.0
    ensures xk <= yk
  {
    assert (y - x) * k >= 0.0;
  }

  lemma ScaledGap(q: real, r: real, unit: real, x: real, t: real)
    requires unit > 0.0 && x == q * unit && t == r * unit && -0.5 <= q - r <= 0.5
    ensures -(unit / 2.0) <= x - t <= unit / 2.0
  {
    Monotone(q - r, 0.5, unit, x - t, unit / 2.0);
    Monotone(-0.5, q - r, unit, -(unit / 2.0), x - t);
  }

  /** Rounding `x / unit` and scaling back is off by at most half a unit. */
  lemma RoundedTimes(x: real, unit: real, n: int)
    requires unit > 0.0 && Abs(x / unit - n as real) <= 0.5
    ensures Abs(x - unit * n as real) <= unit / 2.0
  {
    ScaledGap(x / unit, n as real, unit, x, unit * n as real);
  }

  lemma SixBitsClose(x: real, unit: real, p: real)
    requires 0.0 <= x <= 63.5 * unit && unit >= 0.0 && p == unit * SixBits(x, unit) as real
    ensures Abs(x - p) <= unit / 2.0
  {
    if unit > 0.0 {
      var n := Round(x / unit);
      RoundedTimes(x, unit, n);
      if n > 63 { Monotone(64.0, n as real, unit, 64.0 * unit, unit * n as real); }
    }
  }

  /** Coding `x` from `base` in units of `step`: close, or saturated at one end. */
  lemma FourBitsClose(x: real, step: real, base: real)
    requires step > 0.0
    ensures Coded(x - base, step, step * FourBits(x, step, base) as real)
  {
    hide Round, Clamp, Abs;
    var n := RoundedDifference(x, base, step);
    ClampedCoded(x - base, step, n, FourBits(x, step, base), step * n as real, step * FourBits(x, step, base) as real);
  }

  lemma RoundedDifference(x: real, y: real, step: real) returns (n: int)
    requires step > 0.0
    ensures n == Round(x / step - y / step) && Abs(x - y - step * n as real) <= step / 2.0
  {
    hide Round;
    n := Round(x / step - y / step);
    Difference(x, y, step);
    RoundedTimes(x - y, step, n);
  }

  lemma Difference(x: real, y: real, step: real)
    requires step > 0.0
    ensures x / step - y / step == (x - y) / step
  {
  }

  /** Clamping a rounded code to four bits. */
  lemma ClampedCoded(y: real, step: real, n: int, c: nat, whole: real, p: real)
    requires step > 0.0 && whole == step * n as real && p == step * c as real && c == Clamp(n, 15)
    requires Abs(y - whole) <= step / 2.0
    ensures Coded(y, step, p)
  {
    BeyondEnds(y, step, n as real, whole);
    if n < 0 {
      assert c == 0 && p == 0.0;
    } else if n > 15 {
      assert c == 15 && p == 15.0 * step;
    }
  }

  /** `p` is within half a step of `y`, or it is an end of the range that `y` is beyond. */
  predicate Coded(y: real, step: real, p: real) {
    Abs(p - y) <= step / 2.0 || (p > y && p == 0.0) || (p < y && p == 15.0 * step)
  }

  lemma BeyondEnds(y: real, step: real, r: real, p: real)
    requires step > 0.0 && p == step * r && Abs(y - p) <= step / 2.0
    ensures r <= -1.0 ==> y < 0.0
    ensures r >= 16.0 ==> y > 15.0 * step
  {
    if r <= -1.0 { Monotone(r, -1.0, step, p, -step); }
    if r >= 16.0 { Monotone(16.0, r, step, 16.0 * step, p); }
  }

  /** Error of one value in terms of how well its sub-block's scale and minimum were
      coded; nothing is assumed of the units. */
  lemma ValueError(x: real, low: real, spread: real, step: real, base: real, p: real)
    requires low <= x <= low + 15.0 * spread && step >= 0.0
    requires if step > 0.0 then Coded(x - base, step, p) else p == 0.0
    ensures Abs(base + p - x) <= Larger(step / 2.0, Abs(low - base) + 15.0 * Larger(spread - step, 0.0))
  {
  }

  lemma InRange(input: seq<real>, col: nat)
    requires |input| == SUPER_BLOCK && col < SUPER_BLOCK
    ensures var j := col / 32; Low(input, j) <= input[col] <= Low(input, j) + 15.0 * Spread(input, j)
    ensures Low(input, col / 32) <= 0.0 && Spread(input, col / 32) >= 0.0
  {
    var j := col / 32;
    assert Sub(input, j)[col % 32] == input[col];
  }

  function Bound(q: Codes, j: nat): real
    requires Shaped(q) && j < SUB_BLOCKS
  {
    Larger(q.d * q.scales[j] as real / 2.0, 7.5 * q.d + q.dmin / 2.0)
  }

  lemma DecodedIs(q: Codes, col: nat)
    requires Shaped(q) && col < SUPER_BLOCK
    ensures Decoded(q, col) == Base(q, col / 32) + Step(q, col / 32) * q.codes[col] as real
  {
    var j := col / 32;
    Associate(q.d, q.scales[j], q.codes[col]);
    Negated(q.dmin, q.minimums[j] as real);
  }

  lemma Associate(d: real, m: nat, n: nat)
    ensures d * (m * n) as real == d * m as real * n as real
  {
    assert (m * n) as real == m as real * n as real;
  }

  lemma Negated(x: real, y: real)
    ensures -x * y == -(x * y)
  {
  }

  lemma EncodedColumn(q: Codes, input: seq<real>, half: real -> real, col: nat)
    requires |input| == SUPER_BLOCK && Encodes(q, input, half) && col < SUPER_BLOCK
    ensures Shaped(q)
    ensures var j := col / 32;
      && j < SUB_BLOCKS && q.scales[j] == SixBits(Spread(input, j), q.d) &&
        q.minimums[j] == SixBits(-Low(input, j), q.dmin)
      && q.codes[col] == FourBits(input[col], Step(q, j), Base(q, j))
  {
  }

  /** For any units at all: the error is half a step, or the coding error of the minimum
      plus fifteen times what the scale falls short. */
  lemma AnyUnitsError(q: Codes, input: seq<real>, half: real -> real, col: nat)
    requires |input| == SUPER_BLOCK && Encodes(q, input, half) && col < SUPER_BLOCK && q.d >= 0.0
    ensures var j := col / 32;
      Abs(Decoded(q, col) - input[col]) <=
      Larger(Step(q, j) / 2.0, Abs(Low(input, j) - Base(q, j)) + 15.0 * Larger(Spread(input, j) - Step(q, j), 0.0))
  {
    hide *;
    var j := col / 32;
    EncodedColumn(q, input, half, col);
    DecodedIs(q, col);
    InRange(input, col);
    StepNonNegative(q, j);
    ColumnError(input[col], Low(input, j), Spread(input, j), Step(q, j), Base(q, j), q.codes[col], Decoded(q, col));
  }

  lemma StepNonNegative(q: Codes, j: nat)
    requires Shaped(q) && j < SUB_BLOCKS && q.d >= 0.0
    ensures Step(q, j) >= 0.0
  {
    Monotone(0.0, q.d, q.scales[j] as real, 0.0, Step(q, j));
  }

  lemma ColumnError(x: real, low: real, spread: real, step: real, base: real, c: nat, decoded: real)
    requires low <= x <= low + 15.0 * spread && step >= 0.0
    requires c == FourBits(x, step, base) && decoded == base + step * c as real
    ensures Abs(decoded - x) <= Larger(step / 2.0, Abs(low - base) + 15.0 * Larger(spread - step, 0.0))
  {
    var p := step * c as real;
    if step > 0.0 {
      FourBitsClose(x, step, base);
    } else {
      assert p == 0.0;
    }
    ValueError(x, low, spread, step, base, p);
  }

  /** Where the units resolve the input every value decodes within half a step or within
      `7.5 * d + dmin / 2` of it. */
  lemma ResolvedBound(q: Codes, input: seq<real>, half: real -> real, col: nat)
    requires |input| == SUPER_BLOCK && Encodes(q, input, half) && col < SUPER_BLOCK
    requires Resolves(input, q.d, q.dmin)
    ensures Abs(Decoded(q, col) - input[col]) <= Bound(q, col / 32)
  {
    hide *;
    var j := col / 32;
    UnitsClose(q, input, half, col);
    AnyUnitsError(q, input, half, col);
    BoundIs(q, j);
    WithinBound(Abs(Decoded(q, col) - input[col]), Spread(input, j), Low(input, j), Step(q, j), Base(q, j), q.d,
      q.dmin);
  }

  lemma BoundIs(q: Codes, j: nat)
    requires Shaped(q) && j < SUB_BLOCKS
    ensures Bound(q, j) == Larger(Step(q, j) / 2.0, 7.5 * q.d + q.dmin / 2.0)
  {
  }

  /** The scale and the minimum of the column's sub-block are coded within half a unit. */
  lemma UnitsClose(q: Codes, input: seq<real>, half: real -> real, col: nat)
    requires |input| == SUPER_BLOCK && Encodes(q, input, half) && col < SUPER_BLOCK
    requires Resolves(input, q.d, q.dmin)
    ensures Shaped(q) && q.d >= 0.0 && q.dmin >= 0.0 && col / 32 < SUB_BLOCKS
    ensures Abs(Spread(input, col / 32) - Step(q, col / 32)) <= q.d / 2.0
    ensures Abs(-Low(input, col / 32) - -Base(q, col / 32)) <= q.dmin / 2.0
  {
    hide *;
    var j := col / 32;
    EncodedColumn(q, input, half, col);
    WithinUnits(input, q.d, q.dmin, col);
    StepAndBase(q, j);
    SixBitsClose(Spread(input, j), q.d, Step(q, j));
    SixBitsClose(-Low(input, j), q.dmin, -Base(q, j));
  }

  lemma StepAndBase(q: Codes, j: nat)
    requires Shaped(q) && j < SUB_BLOCKS
    ensures Step(q, j) == q.d * q.scales[j] as real && -Base(q, j) == q.dmin * q.minimums[j] as real
  {
    Negated(q.dmin, q.minimums[j] as real);
  }

  lemma WithinUnits(input: seq<real>, d: real, dmin: real, col: nat)
    requires |input| == SUPER_BLOCK && col < SUPER_BLOCK && Resolves(input, d, dmin)
    ensures col / 32 < SUB_BLOCKS && d >= 0.0 && dmin >= 0.0
    ensures 0.0 <= Spread(input, col / 32) <= 63.5 * d
    ensures 0.0 <= -Low(input, col / 32) <= 63.5 * dmin
  {
    InRange(input, col);
  }

  lemma WithinBound(e: real, spread: real, low: real, step: real, base: real, d: real, dmin: real)
    requires d >= 0.0 && dmin >= 0.0
    requires Abs(spread - step) <= d / 2.0 && Abs(-low - -base) <= dmin / 2.0
    requires e <= Larger(step / 2.0, Abs(low - base) + 15.0 * Larger(spread - step, 0.0))
    ensures e <= Larger(step / 2.0, 7.5 * d + dmin / 2.0)
  {
  }

  /** With exact units the bound needs no assumption on the input. */
  lemma ExactUnitsBound(q: Codes, input: seq<real>, col: nat)
    requires |input| == SUPER_BLOCK && col < SUPER_BLOCK && Encodes(q, input, x => x)
    ensures Abs(Decoded(q, col) - input[col]) <= Bound(q, col / 32)
  {
    ResolvedBound(q, input, x => x, col);
  }

  /** When both units come back as zero the superblock decodes to zeros, and the bound
      holds exactly when the input was all zeros: units too small for the field lose
      the data. */
  lemma LostUnits(q: Codes, input: seq<real>, half: real -> real)
    requires |input| == SUPER_BLOCK && Encodes(q, input, half) && q.d == 0.0 && q.dmin == 0.0
    ensures (forall col :: 0 <= col < SUPER_BLOCK ==> Abs(Decoded(q, col) - input[col]) <= Bound(q, col / 32))
      <==> (forall col :: 0 <= col < SUPER_BLOCK ==> input[col] == 0.0)
  {
    forall col | 0 <= col < SUPER_BLOCK
      ensures Decoded(q, col) == 0.0 && Bound(q, col / 32) == 0.0
    {
      ZeroTimes(q, col);
    }
  }

  lemma ZeroTimes(q: Codes, col: nat)
    requires Shaped(q) && col < SUPER_BLOCK && q.d == 0.0 && q.dmin == 0.0
    ensures Decoded(q, col) == 0.0 && Bound(q, col / 32) == 0.0
  {
  }
}
