/** Exactly which sub-blocks decode within the Q4_K error bound, told from the input and the
    stored units alone. */
module Q4KBound {
  import opened Q4KError

  /** The step the encoder settles on for sub-block `j`. */
  function StoredStep(input: seq<real>, half: real -> real, j: nat): real
    requires |input| == SUPER_BLOCK && j < SUB_BLOCKS
  {
    var d := half(Model(MaxSpread(input, 8)));
    d * SixBits(Spread(input, j), d) as real
  }

  /** Where the stored range of sub-block `j` starts. */
  function StoredBase(input: seq<real>, half: real -> real, j: nat): real
    requires |input| == SUPER_BLOCK && j < SUB_BLOCKS
  {
    var dmin := half(Model(MaxDrop(input, 8)));
    -dmin * SixBits(-Low(input, j), dmin) as real
  }

  function StoredBound(input: seq<real>, half: real -> real, j: nat): real
    requires |input| == SUPER_BLOCK && j < SUB_BLOCKS
  {
    Larger(StoredStep(input, half, j) / 2.0,
           7.5 * half(Model(MaxSpread(input, 8))) + half(Model(MaxDrop(input, 8))) / 2.0)
  }

  /** The stored range, fifteen steps up from its base and widened by the bound at both
      ends, takes in the extremes of sub-block `j`. */
  predicate Covers(input: seq<real>, half: real -> real, j: nat)
    requires |input| == SUPER_BLOCK && j < SUB_BLOCKS
  {
    var low := StoredBase(input, half, j);
    var bound := StoredBound(input, half, j);
    && Highest(Sub(input, j)) <= low + 15.0 * StoredStep(input, half, j) + bound
    && low - bound <= Lowest(Sub(input, j))
  }

  predicate Accurate(q: Codes, input: seq<real>, col: nat)
    requires |input| == SUPER_BLOCK && Shaped(q) && col < SUPER_BLOCK
  {
    Abs(Decoded(q, col) - input[col]) <= Bound(q, col / SUB_SIZE)
  }

  /** Every value of sub-block `j` decodes within the bound. */
  predicate AccurateSub(q: Codes, input: seq<real>, j: nat)
    requires |input| == SUPER_BLOCK && Shaped(q) && j < SUB_BLOCKS
  {
    forall col: nat :: j * SUB_SIZE <= col < j * SUB_SIZE + SUB_SIZE ==> Accurate(q, input, col)
  }

  lemma {:induction false} HighestAttained(s: seq<real>) returns (i: nat)
    requires |s| > 0
    ensures i < |s| && s[i] == Highest(s)
  {
    i := |s| - 1;
    if |s| > 1 && Highest(s[..|s| - 1]) > s[|s| - 1] { i := HighestAttained(s[..|s| - 1]); }
  }

  lemma {:induction false} LowestAttained(s: seq<real>) returns (i: nat)
    requires |s| > 0
    ensures i < |s| && s[i] == Lowest(s)
  {
    i := |s| - 1;
    if |s| > 1 && Lowest(s[..|s| - 1]) < s[|s| - 1] { i := LowestAttained(s[..|s| - 1]); }
  }

  lemma StoredIs(q: Codes, input: seq<real>, half: real -> real, j: nat)
    requires |input| == SUPER_BLOCK && Encodes(q, input, half) && j < SUB_BLOCKS
    ensures Shaped(q) && Step(q, j) == StoredStep(input, half, j) && Base(q, j) == StoredBase(input, half, j)
    ensures Bound(q, j) == StoredBound(input, half, j)
  {
    hide MaxSpread, MaxDrop, Spread, Low, SixBits, FourBits, Model;
  }

  lemma SubAt(input: seq<real>, j: nat, i: nat)
    requires |input| == SUPER_BLOCK && j < SUB_BLOCKS && i < SUB_SIZE
    ensures Sub(input, j)[i] == input[j * SUB_SIZE + i]
    ensures Lowest(Sub(input, j)) <= Sub(input, j)[i] <= Highest(Sub(input, j))
  {
    hide Lowest, Highest;
  }

  /** Value `i` of sub-block `j` in terms of the stored step and base; `p` is what its code
      adds to the base. */
  lemma ColumnOf(q: Codes, input: seq<real>, half: real -> real, j: nat, i: nat) returns (c: nat, p: real)
    requires |input| == SUPER_BLOCK && Encodes(q, input, half) && q.d >= 0.0 && j < SUB_BLOCKS && i < SUB_SIZE
    ensures Shaped(q) && (j * SUB_SIZE + i) / SUB_SIZE == j
    ensures c == FourBits(Sub(input, j)[i], StoredStep(input, half, j), StoredBase(input, half, j))
    ensures p == StoredStep(input, half, j) * c as real && 0.0 <= StoredStep(input, half, j)
    ensures Accurate(q, input, j * SUB_SIZE + i) <==>
      Abs(StoredBase(input, half, j) + p - Sub(input, j)[i]) <= StoredBound(input, half, j)
  {
    hide Encodes, StoredStep, StoredBase, StoredBound, Bound, Decoded, FourBits, Lowest, Highest, Sub, Step, Base;
    var col := j * SUB_SIZE + i;
    EncodedColumn(q, input, half, col);
    StoredIs(q, input, half, j);
    DecodedIs(q, col);
    StepNonNegative(q, j);
    SubAt(input, j, i);
    c := q.codes[col];
    p := StoredStep(input, half, j) * c as real;
    SameProduct(Step(q, j), StoredStep(input, half, j), q.codes[col] as real, c as real);
  }

  lemma SameProduct(a: real, b: real, x: real, y: real)
    requires a == b && x == y
    ensures a * x == b * y
  {
  }

  /** A value between extremes that the widened range takes in is decoded within the bound. */
  lemma CoveredValue(x: real, low: real, high: real, step: real, base: real, c: nat, bound: real, p: real)
    requires low <= x <= high && step >= 0.0 && bound >= step / 2.0
    requires c == FourBits(x, step, base) && p == step * c as real
    requires high <= base + 15.0 * step + bound && base - bound <= low
    ensures Abs(base + p - x) <= bound
  {
    if step > 0.0 { FourBitsClose(x, step, base); }
  }

  lemma CoveredColumn(q: Codes, input: seq<real>, half: real -> real, j: nat, i: nat)
    requires |input| == SUPER_BLOCK && Encodes(q, input, half) && q.d >= 0.0 && j < SUB_BLOCKS && i < SUB_SIZE
    requires Covers(input, half, j)
    ensures Shaped(q) && Accurate(q, input, j * SUB_SIZE + i)
  {
    hide Encodes, StoredStep, StoredBase, Accurate, FourBits, Lowest, Highest, Sub, Shaped;
    var c, p := ColumnOf(q, input, half, j, i);
    SubAt(input, j, i);
    CoveredValue(Sub(input, j)[i], Lowest(Sub(input, j)), Highest(Sub(input, j)), StoredStep(input, half, j),
                 StoredBase(input, half, j), c, StoredBound(input, half, j), p);
  }

  /** Whatever its code, a value decodes into the stored range. */
  lemma DecodedInRange(step: real, c: nat, p: real)
    requires step >= 0.0 && c <= 15 && p == step * c as real
    ensures 0.0 <= p <= 15.0 * step
  {
    Monotone(0.0, c as real, step, 0.0, p);
    Monotone(c as real, 15.0, step, p, 15.0 * step);
  }

  lemma AccurateCovers(q: Codes, input: seq<real>, half: real -> real, j: nat)
    requires |input| == SUPER_BLOCK && Encodes(q, input, half) && q.d >= 0.0 && j < SUB_BLOCKS
    requires Shaped(q) && AccurateSub(q, input, j)
    ensures Covers(input, half, j)
  {
    hide Encodes, StoredStep, StoredBase, StoredBound, Accurate, FourBits, Lowest, Highest, Sub, Shaped;
    var top := HighestAttained(Sub(input, j));
    var bottom := LowestAttained(Sub(input, j));
    forall i | i == top || i == bottom
      ensures var x := Sub(input, j)[i]; var base := StoredBase(input, half, j);
        base - StoredBound(input, half, j) <= x
          <= base + 15.0 * StoredStep(input, half, j) + StoredBound(input, half, j)
    {
      var c, p := ColumnOf(q, input, half, j, i);
      assert Accurate(q, input, j * SUB_SIZE + i);
      DecodedInRange(StoredStep(input, half, j), c, p);
    }
  }

  /** The values of a sub-block all decode within half a step or within
      `7.5 * d + dmin / 2` of the input exactly when the stored range takes in the extremes
      of the sub-block: saturated codes, zero scales, constant and all-zero superblocks and
      lost units included. */
  lemma ReconstructionBound(q: Codes, input: seq<real>, half: real -> real, j: nat)
    requires |input| == SUPER_BLOCK && Encodes(q, input, half) && q.d >= 0.0 && j < SUB_BLOCKS
    ensures Shaped(q) && (AccurateSub(q, input, j) <==> Covers(input, half, j))
  {
    hide Covers, Accurate;
    if Covers(input, half, j) {
      forall col: nat | j * SUB_SIZE <= col < j * SUB_SIZE + SUB_SIZE ensures Accurate(q, input, col) {
        CoveredColumn(q, input, half, j, col - j * SUB_SIZE);
      }
    }
    if AccurateSub(q, input, j) { AccurateCovers(q, input, half, j); }
  }

  /** Where the units resolve the input every sub-block is covered. */
  lemma ResolvedCovers(q: Codes, input: seq<real>, half: real -> real, j: nat)
    requires |input| == SUPER_BLOCK && Encodes(q, input, half) && j < SUB_BLOCKS
    requires Resolves(input, q.d, q.dmin)
    ensures Covers(input, half, j)
  {
    hide Covers, Decoded, Bound, Encodes, Sub;
    ReconstructionBound(q, input, half, j);
    forall col: nat | j * SUB_SIZE <= col < j * SUB_SIZE + SUB_SIZE ensures Accurate(q, input, col) {
      ResolvedBound(q, input, half, col);
    }
  }
}
