/** The encoder and decoder loops over packed superblocks, proved against the codes of
    `Q4KError` read through the lanes of `Q4KLayout`. */
module Q4KEncoder {
  import opened Q4KBound
  import opened Q4KError
  import opened Q4KLayout
  import opened ReferenceMath

  /** The numbers a packed superblock holds. */
  function Read(b: Block): (q: Codes)
    requires Sized(b)
    ensures Shaped(q)
  {
    Codes(b.d, b.dmin,
          seq(8, j requires 0 <= j < 8 => ScaleLane(b.scales, j) as nat),
          seq(8, j requires 0 <= j < 8 => MinLane(b.scales, j) as nat),
          seq(256, col requires 0 <= col < 256 => CodeLane(b.qs, col) as nat))
  }

  // ----- one superblock

  method MinMax(s: seq<real>) returns (lo: real, hi: real)
    requires |s| > 0
    ensures lo == Lowest(s) && hi == Highest(s)
  {
    lo, hi := s[0], s[0];
    assert s[..1][0] == s[0];
    for i := 1 to |s|
      invariant lo == Lowest(s[..i]) && hi == Highest(s[..i])
    {
      assert s[..i + 1][..i] == s[..i] && s[..i + 1][i] == s[i];
      lo := if s[i] < lo then s[i] else lo;
      hi := if hi < s[i] then s[i] else hi;
    }
    assert s[..|s|] == s;
  }

  /** The per-sub-block lows and spreads, and the largest of each. */
  method Survey(input: seq<real>) returns (low: seq<real>, spread: seq<real>, maxSpread: real, maxDrop: real)
    requires |input| == SUPER_BLOCK
    ensures |low| == |spread| == 8
    ensures forall j :: 0 <= j < 8 ==> low[j] == Low(input, j) && spread[j] == Spread(input, j)
    ensures maxSpread == MaxSpread(input, 8) && maxDrop == MaxDrop(input, 8)
  {
    hide Lowest, Highest, Sub;
    low, spread := [], [];
    maxSpread, maxDrop := 0.0, 0.0;
    for j := 0 to 8
      invariant |low| == |spread| == j
      invariant forall k :: 0 <= k < j ==> low[k] == Low(input, k) && spread[k] == Spread(input, k)
      invariant maxSpread == MaxSpread(input, j) && maxDrop == MaxDrop(input, j)
    {
      var lo, hi := MinMax(Sub(input, j));
      var l := Smaller(lo, 0.0);
      low := low + [l];
      spread := spread + [(hi - l) / 15.0];
      maxSpread := Larger(maxSpread, (hi - l) / 15.0);
      maxDrop := Larger(maxDrop, -l);
    }
  }

  function Byte(n: nat): (b: bv8)
    requires n < 64
    ensures b as nat == n && b < 64
  {
    n as bv8
  }

  /** The step and the base of sub-block `j` once its scale and minimum are coded. */
  function StepFor(input: seq<real>, d: real, j: nat): real
    requires |input| == SUPER_BLOCK && j < 8
  {
    d * SixBits(Spread(input, j), d) as real
  }

  function BaseFor(input: seq<real>, dmin: real, j: nat): real
    requires |input| == SUPER_BLOCK && j < 8
  {
    -dmin * SixBits(-Low(input, j), dmin) as real
  }

  function Target(input: seq<real>, d: real, dmin: real, c: nat): (code: nat)
    requires |input| == SUPER_BLOCK && c < SUPER_BLOCK
    ensures code < 16
  {
    FourBits(input[c], StepFor(input, d, c / 32), BaseFor(input, dmin, c / 32))
  }

  /** The first `n` columns are coded, the rest still zero. */
  predicate CodesDone(qs: seq<bv8>, input: seq<real>, d: real, dmin: real, n: nat)
    requires |input| == SUPER_BLOCK
  {
    |qs| == 128 && forall c :: 0 <= c < SUPER_BLOCK ==>
      CodeLane(qs, c) as nat == if c < n then Target(input, d, dmin, c) else 0
  }

  lemma CodeAdded(before: seq<bv8>, after: seq<bv8>, input: seq<real>, d: real, dmin: real, col: nat)
    requires |input| == SUPER_BLOCK && col < SUPER_BLOCK && |after| == 128
    requires CodesDone(before, input, d, dmin, col)
    requires CodeLane(after, col) as nat == Target(input, d, dmin, col)
    requires forall c :: 0 <= c < SUPER_BLOCK && c != col ==> CodeLane(after, c) == CodeLane(before, c)
    ensures CodesDone(after, input, d, dmin, col + 1)
  {
    hide CodeLane, Target;
  }

  method CodeColumn(x: real, step: real, base: real) returns (code: nat)
    requires step > 0.0
    ensures code == FourBits(x, step, base)
  {
    var q := Round(x / step - base / step);
    code := if q < 0 then 0 else if q > 15 then 15 else q;
  }

  lemma StepMatches(input: seq<real>, d: real, dmin: real, j: nat, sc: nat, m: nat)
    requires |input| == SUPER_BLOCK && j < 8
    requires sc == SixBits(Spread(input, j), d) && m == SixBits(-Low(input, j), dmin)
    ensures StepFor(input, d, j) == d * sc as real && BaseFor(input, dmin, j) == -dmin * m as real
  {
  }

  lemma NoCodes(qs: seq<bv8>, input: seq<real>, d: real, dmin: real, j: nat)
    requires |input| == SUPER_BLOCK && j < 8 && StepFor(input, d, j) <= 0.0
    requires CodesDone(qs, input, d, dmin, j * 32)
    ensures CodesDone(qs, input, d, dmin, j * 32 + 32)
  {
    hide CodeLane, StepFor, BaseFor;
    forall c | j * 32 <= c < j * 32 + 32 ensures Target(input, d, dmin, c) == 0 {
      assert c / 32 == j;
    }
  }

  lemma TargetIs(input: seq<real>, d: real, dmin: real, j: nat, i: nat)
    requires |input| == SUPER_BLOCK && j < 8 && i < 32
    ensures Target(input, d, dmin, j * 32 + i)
      == FourBits(input[j * 32 + i], StepFor(input, d, j), BaseFor(input, dmin, j))
  {
    assert (j * 32 + i) / 32 == j;
  }

  method StoreNumber(qs: array<bv8>, col: nat, code: nat)
    requires qs.Length == 128 && col < SUPER_BLOCK && code < 16
    modifies qs
    ensures CodeLane(qs[..], col) as nat == code
    ensures forall c :: 0 <= c < SUPER_BLOCK && c != col ==> CodeLane(qs[..], c) == CodeLane(old(qs[..]), c)
  {
    hide CodeLane;
    StoreCode(qs, col, code as bv8);
  }

  /** The codes of sub-block `j` are written into its nibbles; a zero step writes none. */
  method StoreSub(qs: array<bv8>, input: seq<real>, j: nat, d: real, dmin: real, sc: nat, m: nat)
    requires qs.Length == 128 && |input| == SUPER_BLOCK && j < 8
    requires sc == SixBits(Spread(input, j), d) && m == SixBits(-Low(input, j), dmin)
    requires CodesDone(qs[..], input, d, dmin, j * 32)
    modifies qs
    ensures CodesDone(qs[..], input, d, dmin, j * 32 + 32)
  {
    var step, base := d * sc as real, -dmin * m as real;
    StepMatches(input, d, dmin, j, sc, m);
    hide CodeLane, StepFor, BaseFor, CodesDone, Target, SixBits, Spread, Low, FourBits, Round, Byte;
    if step <= 0.0 {
      NoCodes(qs[..], input, d, dmin, j);
    } else {
      CodeSub(qs, input, j, step, base, d, dmin);
    }
  }

  method CodeSub(qs: array<bv8>, input: seq<real>, j: nat, step: real, base: real, ghost d: real, ghost dmin: real)
    requires qs.Length == 128 && |input| == SUPER_BLOCK && j < 8 && step > 0.0
    requires step == StepFor(input, d, j) && base == BaseFor(input, dmin, j)
    requires CodesDone(qs[..], input, d, dmin, j * 32)
    modifies qs
    ensures CodesDone(qs[..], input, d, dmin, j * 32 + 32)
  {
    hide CodeLane, StepFor, BaseFor, CodesDone, Target, SixBits, Spread, Low, FourBits, Round;
    for i := 0 to SUB_SIZE
      invariant CodesDone(qs[..], input, d, dmin, j * 32 + i)
    {
      var col := j * SUB_SIZE + i;
      var code := CodeColumn(input[col], step, base);
      TargetIs(input, d, dmin, j, i);
      ghost var before := qs[..];
      StoreNumber(qs, col, code);
      CodeAdded(before, qs[..], input, d, dmin, col);
    }
  }

  /** The first `j` scales and minimums, as numbers. */
  predicate UnitsDone(scs: seq<bv8>, ms: seq<bv8>, input: seq<real>, d: real, dmin: real)
    requires |input| == SUPER_BLOCK
  {
    |scs| == |ms| <= 8 && forall k :: 0 <= k < |scs| ==>
      scs[k] as nat == SixBits(Spread(input, k), d) && ms[k] as nat == SixBits(-Low(input, k), dmin)
  }

  method EncodeBlock(input: seq<real>, half: real -> real) returns (b: Block)
    requires |input| == SUPER_BLOCK
    ensures Sized(b) && Encodes(Read(b), input, half)
  {
    hide CodeLane, ScaleLane, MinLane, FourBits, SixBits, Low, Spread, MaxSpread, MaxDrop, Read, Encodes;
    hide ScalesWritten, UnitsDone, CodesDone, Byte, StepFor, BaseFor;
    var low, spread, maxSpread, maxDrop := Survey(input);
    var d := half(if maxSpread > 0.0 then maxSpread / 63.0 else 0.0);
    var dmin := half(if maxDrop > 0.0 then maxDrop / 63.0 else 0.0);
    var scales := new bv8[12](_ => 0);
    var qs := new bv8[128](_ => 0);
    EmptyLanes(scales[..], qs[..], input, d, dmin);
    if d <= 0.0 && dmin <= 0.0 {
      b := Block(d, dmin, scales[..], qs[..]);
      EmptyEncodes(b, input, half);
      return;
    }
    ghost var scs: seq<bv8>, ms: seq<bv8> := [], [];
    for j := 0 to 8
      invariant |scs| == |ms| == j && ScalesWritten(scales[..], scs, ms, j)
      invariant UnitsDone(scs, ms, input, d, dmin)
      invariant CodesDone(qs[..], input, d, dmin, j * 32)
    {
      var sc := SixBits(spread[j], d);
      var m := SixBits(-low[j], dmin);
      StoreScale(scales, j, Byte(sc), Byte(m), scs, ms);
      StoreSub(qs, input, j, d, dmin, sc, m);
      MoreUnits(scs, ms, input, d, dmin, Byte(sc), Byte(m));
      scs, ms := scs + [Byte(sc)], ms + [Byte(m)];
    }
    b := Block(d, dmin, scales[..], qs[..]);
    WrittenEncodes(b, input, half, scs, ms);
  }

  lemma MoreUnits(scs: seq<bv8>, ms: seq<bv8>, input: seq<real>, d: real, dmin: real, sc: bv8, m: bv8)
    requires |input| == SUPER_BLOCK && |scs| < 8 && UnitsDone(scs, ms, input, d, dmin)
    requires sc as nat == SixBits(Spread(input, |scs|), d) && m as nat == SixBits(-Low(input, |scs|), dmin)
    ensures UnitsDone(scs + [sc], ms + [m], input, d, dmin)
  {
    hide SixBits, Spread, Low;
  }

  lemma EmptyLanes(scales: seq<bv8>, qs: seq<bv8>, input: seq<real>, d: real, dmin: real)
    requires |scales| == 12 && |qs| == 128 && |input| == SUPER_BLOCK
    requires (forall i :: 0 <= i < 12 ==> scales[i] == 0) && forall i :: 0 <= i < 128 ==> qs[i] == 0
    ensures ScalesWritten(scales, [], [], 0) && UnitsDone([], [], input, d, dmin)
    ensures forall j :: 0 <= j < 8 ==> ScaleLane(scales, j) == 0 && MinLane(scales, j) == 0
    ensures CodesDone(qs, input, d, dmin, 0)
  {
    hide Target;
  }

  lemma StoredSteps(q: Codes, input: seq<real>, j: nat)
    requires Shaped(q) && |input| == SUPER_BLOCK && j < 8
    requires q.scales[j] == SixBits(Spread(input, j), q.d) && q.minimums[j] == SixBits(-Low(input, j), q.dmin)
    ensures Step(q, j) == StepFor(input, q.d, j) && Base(q, j) == BaseFor(input, q.dmin, j)
  {
  }

  /** What the lanes must hold for the block to be the encoding. */
  lemma ReadsAs(b: Block, input: seq<real>, half: real -> real)
    requires Sized(b) && |input| == SUPER_BLOCK
    requires b.d == half(Model(MaxSpread(input, 8))) && b.dmin == half(Model(MaxDrop(input, 8)))
    requires forall j :: 0 <= j < 8 ==> ScaleLane(b.scales, j) as nat == SixBits(Spread(input, j), b.d)
    requires forall j :: 0 <= j < 8 ==> MinLane(b.scales, j) as nat == SixBits(-Low(input, j), b.dmin)
    requires CodesDone(b.qs, input, b.d, b.dmin, SUPER_BLOCK)
    ensures Encodes(Read(b), input, half)
  {
    hide CodeLane, ScaleLane, MinLane, FourBits, SixBits, Low, Spread, MaxSpread, MaxDrop, Model;
    hide Step, Base, StepFor, BaseFor;
    var q := Read(b);
    assert forall j :: 0 <= j < 8 ==> q.scales[j] == ScaleLane(b.scales, j) as nat;
    assert forall j :: 0 <= j < 8 ==> q.minimums[j] == MinLane(b.scales, j) as nat;
    forall c | 0 <= c < SUPER_BLOCK ensures q.codes[c] == FourBits(input[c], Step(q, c / 32), Base(q, c / 32)) {
      assert q.codes[c] == CodeLane(b.qs, c) as nat == Target(input, b.d, b.dmin, c);
      StoredSteps(q, input, c / 32);
    }
  }

  lemma ZeroUnit(x: real, unit: real)
    requires unit <= 0.0
    ensures SixBits(x, unit) == 0
  {
  }

  lemma ZeroTarget(input: seq<real>, d: real, dmin: real, c: nat)
    requires |input| == SUPER_BLOCK && c < SUPER_BLOCK && d <= 0.0
    ensures Target(input, d, dmin, c) == 0
  {
    ZeroUnit(Spread(input, c / 32), d);
    hide SixBits, BaseFor;
    assert StepFor(input, d, c / 32) == 0.0;
  }

  lemma EmptyEncodes(b: Block, input: seq<real>, half: real -> real)
    requires Sized(b) && |input| == SUPER_BLOCK && b.d <= 0.0 && b.dmin <= 0.0
    requires b.d == half(Model(MaxSpread(input, 8))) && b.dmin == half(Model(MaxDrop(input, 8)))
    requires forall j :: 0 <= j < 8 ==> ScaleLane(b.scales, j) == 0 && MinLane(b.scales, j) == 0
    requires CodesDone(b.qs, input, b.d, b.dmin, 0)
    ensures Encodes(Read(b), input, half)
  {
    hide CodeLane, ScaleLane, MinLane, SixBits, Low, Spread, MaxSpread, MaxDrop, Target, Model, Encodes, Read;
    forall x: real | true ensures SixBits(x, b.d) == 0 && SixBits(x, b.dmin) == 0 {
      ZeroUnit(x, b.d);
      ZeroUnit(x, b.dmin);
    }
    forall c | 0 <= c < SUPER_BLOCK ensures Target(input, b.d, b.dmin, c) == 0 {
      ZeroTarget(input, b.d, b.dmin, c);
    }
    ReadsAs(b, input, half);
  }

  lemma WrittenEncodes(b: Block, input: seq<real>, half: real -> real, scs: seq<bv8>, ms: seq<bv8>)
    requires Sized(b) && |input| == SUPER_BLOCK && |scs| == |ms| == 8
    requires b.d == half(Model(MaxSpread(input, 8))) && b.dmin == half(Model(MaxDrop(input, 8)))
    requires ScalesWritten(b.scales, scs, ms, 8) && UnitsDone(scs, ms, input, b.d, b.dmin)
    requires CodesDone(b.qs, input, b.d, b.dmin, SUPER_BLOCK)
    ensures Encodes(Read(b), input, half)
  {
    hide CodeLane, ScaleLane, MinLane, SixBits, Low, Spread, MaxSpread, MaxDrop, Target, Model, Encodes, Read,
      CodesDone;
    ReadsAs(b, input, half);
  }

  // ----- matrices

  datatype Packed = Blocks(blocks: seq<Block>) | BadColumns | BadSize

  /** The inputs of superblock `b` in row-major order. */
  function BlockInput(values: seq<real>, b: nat): (input: seq<real>)
    requires b * SUPER_BLOCK + SUPER_BLOCK <= |values|
    ensures |input| == SUPER_BLOCK
  {
    values[b * SUPER_BLOCK..b * SUPER_BLOCK + SUPER_BLOCK]
  }

  predicate AllEncode(blocks: seq<Block>, values: seq<real>, half: real -> real)
  {
    && |blocks| * SUPER_BLOCK <= |values|
    && forall b :: 0 <= b < |blocks| ==> EncodesAt(blocks, values, half, b)
  }

  predicate EncodesAt(blocks: seq<Block>, values: seq<real>, half: real -> real, b: nat)
    requires b < |blocks| && |blocks| * SUPER_BLOCK <= |values|
  {
    Sized(blocks[b]) && Encodes(Read(blocks[b]), BlockInput(values, b), half)
  }

  /** `GgmlMatrixView::row_bytes` for this type. */
  function RowBytes(cols: nat): nat {
    if cols % SUPER_BLOCK != 0 then 0 else cols / SUPER_BLOCK * BLOCK_BYTES
  }

  /** `GgmlMatrixView::validate` for this type. */
  predicate ValidMatrix(rows: nat, cols: nat, bytes: nat) {
    rows != 0 && cols != 0 && RowBytes(cols) != 0 && bytes == rows * RowBytes(cols)
  }

  lemma MatrixCounts(rows: nat, perRow: nat, cols: nat)
    requires cols == perRow * SUPER_BLOCK
    ensures cols / SUPER_BLOCK == perRow && cols % SUPER_BLOCK == 0
    ensures rows * cols == rows * perRow * SUPER_BLOCK
    ensures rows * RowBytes(cols) == rows * perRow * BLOCK_BYTES
  {
    assert rows * (perRow * SUPER_BLOCK) == rows * perRow * SUPER_BLOCK;
    assert rows * (perRow * BLOCK_BYTES) == rows * perRow * BLOCK_BYTES;
  }

  /** Packs every superblock of every row into its place in the result. */
  method Quantize(values: seq<real>, rows: nat, cols: nat, half: real -> real) returns (r: Packed)
    ensures r.BadColumns? <==> rows == 0 || cols == 0 || cols % SUPER_BLOCK != 0
    ensures r.BadSize? <==> !r.BadColumns? && |values| != rows * cols
    ensures r.Blocks? ==>
      && |r.blocks| == rows * (cols / SUPER_BLOCK) && |values| == |r.blocks| * SUPER_BLOCK
      && ValidMatrix(rows, cols, |r.blocks| * BLOCK_BYTES)
      && AllEncode(r.blocks, values, half)
  {
    if rows == 0 || cols == 0 || cols % SUPER_BLOCK != 0 { return BadColumns; }
    if |values| != rows * cols { return BadSize; }
    var perRow := cols / SUPER_BLOCK;
    MatrixCounts(rows, perRow, cols);
    hide Encodes, AllEncode, BlockInput, RowBytes;
    EmptyAll(values, half);
    var result: array<Block> := new Block[rows * perRow](_ => Block(0.0, 0.0, [], []));
    for row := 0 to rows
      invariant row * perRow <= result.Length && AllEncode(result[..row * perRow], values, half)
    {
      RowStart(rows, perRow, row);
      QuantizeRow(values, rows, perRow, row, half, result);
    }
    assert result[..rows * perRow] == result[..];
    r := Blocks(result[..]);
  }

  method QuantizeRow(values: seq<real>, rows: nat, perRow: nat, row: nat, half: real -> real, result: array<Block>)
    requires |values| == rows * (perRow * SUPER_BLOCK) && row < rows && result.Length == rows * perRow
    requires row * perRow + perRow <= result.Length && AllEncode(result[..row * perRow], values, half)
    modifies result
    ensures AllEncode(result[..row * perRow + perRow], values, half)
  {
    hide Encodes, AllEncode, BlockInput, RowBytes;
    var first := row * perRow;
    for sb := 0 to perRow
      invariant AllEncode(result[..first + sb], values, half)
    {
      var start := row * (perRow * SUPER_BLOCK) + sb * SUPER_BLOCK;
      BlockPlace(values, rows, perRow, perRow * SUPER_BLOCK, row, sb);
      var block := EncodeBlock(values[start..start + SUPER_BLOCK], half);
      ghost var before := result[..first + sb];
      result[first + sb] := block;
      assert result[..first + sb + 1] == before + [block];
      OneMore(before, block, values, half);
    }
  }

  lemma EmptyAll(values: seq<real>, half: real -> real)
    ensures AllEncode([], values, half)
  {
  }

  /** Superblock `sb` of `row` starts where its number says. */
  lemma BlockPlace(values: seq<real>, rows: nat, perRow: nat, cols: nat, row: nat, sb: nat)
    requires cols == perRow * SUPER_BLOCK && |values| == rows * cols && row < rows && sb < perRow
    ensures var at := row * perRow + sb; var start := row * cols + sb * SUPER_BLOCK;
      && (at + 1) * SUPER_BLOCK <= |values| && at < rows * perRow && start + SUPER_BLOCK <= |values|
      && BlockInput(values, at) == values[start..start + SUPER_BLOCK]
  {
    MatrixCounts(row, perRow, cols);
    MatrixCounts(rows, perRow, cols);
    RowStart(rows, perRow, row);
    assert (row * perRow + sb) * SUPER_BLOCK == row * perRow * SUPER_BLOCK + sb * SUPER_BLOCK;
  }

  lemma OneMore(blocks: seq<Block>, block: Block, values: seq<real>, half: real -> real)
    requires AllEncode(blocks, values, half) && (|blocks| + 1) * SUPER_BLOCK <= |values|
    requires Sized(block) && Encodes(Read(block), BlockInput(values, |blocks|), half)
    ensures AllEncode(blocks + [block], values, half)
  {
    hide Encodes;
    var more := blocks + [block];
    forall b | 0 <= b < |more| ensures EncodesAt(more, values, half, b) {
      if b < |blocks| { assert EncodesAt(blocks, values, half, b) && more[b] == blocks[b]; }
    }
  }

  // ----- decoding

  function DecodedBlock(b: Block): (s: seq<real>)
    requires Sized(b)
    ensures |s| == SUPER_BLOCK
  {
    seq(SUPER_BLOCK, col requires 0 <= col < SUPER_BLOCK => Decoded(Read(b), col))
  }

  function DecodedRow(blocks: seq<Block>): (s: seq<real>)
    requires forall b :: 0 <= b < |blocks| ==> Sized(blocks[b])
    ensures |s| == |blocks| * SUPER_BLOCK
  {
    if blocks == [] then [] else DecodedRow(blocks[..|blocks| - 1]) + DecodedBlock(blocks[|blocks| - 1])
  }

  lemma {:induction false} DecodedAt(blocks: seq<Block>, c: nat)
    requires forall b :: 0 <= b < |blocks| ==> Sized(blocks[b])
    requires c < |blocks| * SUPER_BLOCK
    ensures c / SUPER_BLOCK < |blocks|
    ensures DecodedRow(blocks)[c] == Decoded(Read(blocks[c / SUPER_BLOCK]), c % SUPER_BLOCK)
  {
    hide Decoded, Read;
    var n := |blocks| - 1;
    if c < n * SUPER_BLOCK {
      DecodedAt(blocks[..n], c);
    } else {
      assert c / SUPER_BLOCK == n && c % SUPER_BLOCK == c - n * SUPER_BLOCK;
    }
  }

  /** `before` with the first `n` of `dec` written over it from `offset`. */
  function Partly(before: seq<real>, dec: seq<real>, offset: nat, n: nat): (s: seq<real>)
    requires n <= |dec| && offset + |dec| <= |before|
    ensures |s| == |before|
  {
    before[..offset] + dec[..n] + before[offset + n..]
  }

  lemma OneWritten(before: seq<real>, dec: seq<real>, offset: nat, n: nat)
    requires n < |dec| && offset + |dec| <= |before|
    ensures Partly(before, dec, offset, n + 1) == Partly(before, dec, offset, n)[offset + n := dec[n]]
  {
  }

  lemma NoneAndAll(before: seq<real>, dec: seq<real>, offset: nat)
    requires offset + |dec| <= |before|
    ensures Partly(before, dec, offset, 0) == before
    ensures Partly(before, dec, offset, |dec|) == before[..offset] + dec + before[offset + |dec|..]
  {
    assert dec[..|dec|] == dec;
  }

  function Value(d: real, dmin: real, sc: nat, code: nat, m: nat): real {
    d * (sc * code) as real - dmin * m as real
  }

  lemma ValueIs(w: Block, sub: nat, i: nat, sc: nat, m: nat, code: nat)
    requires Sized(w) && sub < 8 && i < 32
    requires sc == ScaleLane(w.scales, sub) as nat && m == MinLane(w.scales, sub) as nat
    requires code == CodeLane(w.qs, sub * 32 + i) as nat
    ensures DecodedBlock(w)[sub * 32 + i] == Value(w.d, w.dmin, sc, code, m)
  {
    hide CodeLane, ScaleLane, MinLane, Decoded, Read, DecodedBlock, Value;
    LanesRead(w, sub, i);
    ColumnDecoded(w, sub * 32 + i);
    DecodedFrom(Read(w), sub * 32 + i, sc, m, code);
  }

  lemma LanesRead(w: Block, sub: nat, i: nat)
    requires Sized(w) && sub < 8 && i < 32
    ensures var q := Read(w); var col := sub * 32 + i;
      && col / 32 == sub && q.d == w.d && q.dmin == w.dmin && q.codes[col] == CodeLane(w.qs, col) as nat
      && q.scales[sub] == ScaleLane(w.scales, sub) as nat && q.minimums[sub] == MinLane(w.scales, sub) as nat
  {
    hide CodeLane, ScaleLane, MinLane;
  }

  lemma ColumnDecoded(w: Block, col: nat)
    requires Sized(w) && col < SUPER_BLOCK
    ensures DecodedBlock(w)[col] == Decoded(Read(w), col)
  {
    hide Decoded, Read;
  }

  lemma DecodedFrom(q: Codes, col: nat, sc: nat, m: nat, code: nat)
    requires Shaped(q) && col < SUPER_BLOCK
    requires sc == q.scales[col / 32] && m == q.minimums[col / 32] && code == q.codes[col]
    ensures Decoded(q, col) == Value(q.d, q.dmin, sc, code, m)
  {
  }

  /** One superblock into `output` at `offset`, sub-block by sub-block. */
  method DecodeBlock(w: Block, output: array<real>, offset: nat)
    requires Sized(w) && offset + SUPER_BLOCK <= output.Length
    modifies output
    ensures output[..] == old(output[..offset]) + DecodedBlock(w) + old(output[offset + SUPER_BLOCK..])
  {
    hide Partly, DecodedBlock, CodeLane, ScaleLane, MinLane, Value;
    ghost var before := output[..];
    NoneAndAll(before, DecodedBlock(w), offset);
    for sub := 0 to 8
      invariant output[..] == Partly(before, DecodedBlock(w), offset, sub * 32)
    {
      var scale, minimum := ScaleLane(w.scales, sub) as nat, MinLane(w.scales, sub) as nat;
      for i := 0 to 32
        invariant output[..] == Partly(before, DecodedBlock(w), offset, sub * 32 + i)
      {
        var col := sub * 32 + i;
        var code := CodeLane(w.qs, col) as nat;
        ghost var was := output[..];
        output[offset + col] := Value(w.d, w.dmin, scale, code, minimum);
        ValueIs(w, sub, i, scale, minimum, code);
        assert output[..] == was[offset + col := DecodedBlock(w)[col]];
        OneWritten(before, DecodedBlock(w), offset, col);
      }
    }
  }

  /** `ggml_decode_row` for this type: a bad matrix or a row past the end is an error and
      writes nothing. */
  method DecodeRow(blocks: seq<Block>, rows: nat, cols: nat, row: nat, output: array<real>) returns (ok: bool)
    requires output.Length == cols && forall b :: 0 <= b < |blocks| ==> Sized(blocks[b])
    modifies output
    ensures ok <==> ValidMatrix(rows, cols, |blocks| * BLOCK_BYTES) && row < rows
    ensures !ok ==> output[..] == old(output[..])
    ensures ok ==> HasRow(blocks, cols, row) && output[..] == DecodedRow(RowBlocks(blocks, cols, row))
  {
    if !ValidMatrix(rows, cols, |blocks| * BLOCK_BYTES) || row >= rows { return false; }
    var perRow := cols / SUPER_BLOCK;
    MatrixCounts(rows, perRow, cols);
    RowStart(rows, perRow, row);
    hide DecodedRow, RowBytes, Sized;
    DecodeBlocks(blocks[row * perRow..row * perRow + perRow], output);
    ok := true;
  }

  method DecodeBlocks(mine: seq<Block>, output: array<real>)
    requires output.Length == |mine| * SUPER_BLOCK && forall b :: 0 <= b < |mine| ==> Sized(mine[b])
    modifies output
    ensures output[..] == DecodedRow(mine)
  {
    hide DecodedRow, DecodedBlock, Sized;
    NoBlocks(mine);
    for b := 0 to |mine|
      invariant output[..b * SUPER_BLOCK] == DecodedRow(mine[..b])
    {
      ghost var done := output[..b * SUPER_BLOCK];
      DecodeBlock(mine[b], output, b * SUPER_BLOCK);
      assert output[..(b + 1) * SUPER_BLOCK] == done + DecodedBlock(mine[b]);
      RowGrows(mine, b);
    }
    assert mine[..|mine|] == mine && output[..output.Length] == output[..];
  }

  lemma NoBlocks(mine: seq<Block>)
    ensures DecodedRow(mine[..0]) == []
  {
  }

  predicate HasRow(blocks: seq<Block>, cols: nat, row: nat) {
    row * (cols / SUPER_BLOCK) + cols / SUPER_BLOCK <= |blocks|
  }

  function RowBlocks(blocks: seq<Block>, cols: nat, row: nat): seq<Block>
    requires HasRow(blocks, cols, row)
  {
    blocks[row * (cols / SUPER_BLOCK)..row * (cols / SUPER_BLOCK) + cols / SUPER_BLOCK]
  }

  lemma RowGrows(mine: seq<Block>, b: nat)
    requires b < |mine| && forall k :: 0 <= k < |mine| ==> Sized(mine[k])
    ensures DecodedRow(mine[..b + 1]) == DecodedRow(mine[..b]) + DecodedBlock(mine[b])
  {
    hide DecodedBlock;
    assert mine[..b + 1][..b] == mine[..b];
  }

  /** Packing a matrix and decoding a row of it: the 32 values of a sub-block are all within
      the bound exactly when the range stored for it takes in its extremes. */
  method PackAndDecode(values: seq<real>, rows: nat, cols: nat, row: nat, half: real -> real)
    returns (blocks: seq<Block>, output: array<real>)
    requires rows != 0 && cols != 0 && cols % SUPER_BLOCK == 0 && |values| == rows * cols && row < rows
    requires forall x :: half(x) >= 0.0
    ensures output.Length == cols
    ensures forall g: nat :: g < cols / SUB_SIZE ==>
      (SubWithin(values, cols, blocks, row, output[..], g) <==> CoversAt(values, cols, half, row, g))
    ensures AllResolve(values, half) ==>
      forall g: nat :: g < cols / SUB_SIZE ==> SubWithin(values, cols, blocks, row, output[..], g)
  {
    hide Encodes, AllEncode, AllResolve, SubWithin, CoversAt, RowBlocks, DecodedRow, RowBytes;
    var r := Quantize(values, rows, cols, half);
    blocks := r.blocks;
    output := new real[cols](_ => 0.0);
    EncodedSized(blocks, values, half);
    var ok := DecodeRow(blocks, rows, cols, row, output);
    forall g: nat | g < cols / SUB_SIZE
      ensures SubWithin(values, cols, blocks, row, output[..], g) <==> CoversAt(values, cols, half, row, g)
      ensures AllResolve(values, half) ==> CoversAt(values, cols, half, row, g)
    {
      SubWithinIff(values, rows, cols, row, half, blocks, g);
      if AllResolve(values, half) { ResolvedCoversAt(values, rows, cols, row, half, blocks, g); }
    }
  }

  lemma EncodedSized(blocks: seq<Block>, values: seq<real>, half: real -> real)
    requires AllEncode(blocks, values, half)
    ensures forall b :: 0 <= b < |blocks| ==> Sized(blocks[b])
  {
    hide Encodes;
    forall b | 0 <= b < |blocks| ensures Sized(blocks[b]) { assert EncodesAt(blocks, values, half, b); }
  }

  predicate AllResolve(values: seq<real>, half: real -> real) {
    forall b: nat :: b < |values| / SUPER_BLOCK ==> ResolvesAt(values, half, b)
  }

  predicate ResolvesAt(values: seq<real>, half: real -> real, b: nat)
    requires b < |values| / SUPER_BLOCK
  {
    var input := BlockInput(values, b);
    Resolves(input, half(Model(MaxSpread(input, 8))), half(Model(MaxDrop(input, 8))))
  }

  /** The superblock of sub-block `g` of a row. */
  function BlockOf(cols: nat, row: nat, g: nat): nat { row * (cols / SUPER_BLOCK) + g / SUB_BLOCKS }

  /** The range stored for sub-block `g` of the row takes in its extremes. */
  predicate CoversAt(values: seq<real>, cols: nat, half: real -> real, row: nat, g: nat) {
    var b := BlockOf(cols, row, g);
    b < |values| / SUPER_BLOCK && Covers(BlockInput(values, b), half, g % SUB_BLOCKS)
  }

  /** Every decoded value of sub-block `g` of the row is within the bound of that sub-block. */
  predicate SubWithin(values: seq<real>, cols: nat, blocks: seq<Block>, row: nat, decoded: seq<real>, g: nat) {
    forall c: nat :: g * SUB_SIZE <= c < g * SUB_SIZE + SUB_SIZE ==>
      WithinBoundAt(values, cols, blocks, row, decoded, g, c)
  }

  predicate WithinBoundAt(values: seq<real>, cols: nat, blocks: seq<Block>, row: nat, decoded: seq<real>, g: nat,
                          c: nat) {
    var b := BlockOf(cols, row, g);
    && b < |blocks| && row * cols + c < |values| && c < |decoded| && Sized(blocks[b])
    && Abs(decoded[c] - values[row * cols + c]) <= Bound(Read(blocks[b]), g % SUB_BLOCKS)
  }

  /** Sub-block `g` of a row is sub-block `g % 8` of its superblock. */
  lemma SubPlace(values: seq<real>, rows: nat, cols: nat, row: nat, g: nat)
    requires cols % SUPER_BLOCK == 0 && |values| == rows * cols && row < rows && g < cols / SUB_SIZE
    ensures BlockOf(cols, row, g) < rows * (cols / SUPER_BLOCK) == |values| / SUPER_BLOCK
    ensures rows * (cols / SUPER_BLOCK) * SUPER_BLOCK == |values| && row * cols + cols <= |values|
  {
    var perRow := cols / SUPER_BLOCK;
    MatrixCounts(rows, perRow, cols);
    MatrixCounts(row, perRow, cols);
    RowStart(rows, perRow, row);
  }

  /** Element `c` of the row, in sub-block `g`, is within the bound exactly when its column
      of the superblock is. */
  lemma ElementAccurate(values: seq<real>, rows: nat, cols: nat, row: nat, half: real -> real, blocks: seq<Block>,
                        g: nat, c: nat)
    requires cols % SUPER_BLOCK == 0 && |values| == rows * cols && row < rows && g < cols / SUB_SIZE
    requires |blocks| == rows * (cols / SUPER_BLOCK) && AllEncode(blocks, values, half)
    requires g * SUB_SIZE <= c < g * SUB_SIZE + SUB_SIZE
    ensures c < cols && HasRow(blocks, cols, row) && forall b :: 0 <= b < |blocks| ==> Sized(blocks[b])
    ensures var b := BlockOf(cols, row, g);
      && b < |blocks| == |values| / SUPER_BLOCK && c % SUPER_BLOCK == (g % SUB_BLOCKS) * SUB_SIZE + c % SUB_SIZE
      && (WithinBoundAt(values, cols, blocks, row, DecodedRow(RowBlocks(blocks, cols, row)), g, c) <==>
          Accurate(Read(blocks[b]), BlockInput(values, b), c % SUPER_BLOCK))
  {
    hide Encodes, DecodedRow, Read, BlockInput, Bound, Decoded;
    var perRow := cols / SUPER_BLOCK;
    SubPlace(values, rows, cols, row, g);
    RowStart(rows, perRow, row);
    EncodedSized(blocks, values, half);
    ColumnPlace(g, c);
    hide AllEncode;
    DecodedAt(RowBlocks(blocks, cols, row), c);
    var b := row * perRow + c / SUPER_BLOCK;
    ElementPlace(values, cols, row, c, b);
  }

  lemma ColumnPlace(g: nat, c: nat)
    requires g * SUB_SIZE <= c < g * SUB_SIZE + SUB_SIZE
    ensures c / SUPER_BLOCK == g / SUB_BLOCKS && c % SUPER_BLOCK / SUB_SIZE == g % SUB_BLOCKS
    ensures c % SUPER_BLOCK == (g % SUB_BLOCKS) * SUB_SIZE + c % SUB_SIZE
  {
  }

  lemma SubWithinIff(values: seq<real>, rows: nat, cols: nat, row: nat, half: real -> real, blocks: seq<Block>, g: nat)
    requires cols % SUPER_BLOCK == 0 && |values| == rows * cols && row < rows && g < cols / SUB_SIZE
    requires |blocks| == rows * (cols / SUPER_BLOCK) && AllEncode(blocks, values, half)
    requires forall x :: half(x) >= 0.0
    ensures HasRow(blocks, cols, row) && forall b :: 0 <= b < |blocks| ==> Sized(blocks[b])
    ensures SubWithin(values, cols, blocks, row, DecodedRow(RowBlocks(blocks, cols, row)), g)
      <==> CoversAt(values, cols, half, row, g)
  {
    hide Encodes, DecodedRow, Read, BlockInput, WithinBoundAt, SubWithin, Accurate, AccurateSub, Covers, Sized,
      AllEncode;
    var b, j := BlockOf(cols, row, g), g % SUB_BLOCKS;
    ElementAccurate(values, rows, cols, row, half, blocks, g, g * SUB_SIZE);
    EncodesOne(blocks, values, half, b);
    var q, input := Read(blocks[b]), BlockInput(values, b);
    UnitNonNegative(q, input, half);
    ReconstructionBound(q, input, half, j);
    var decoded := DecodedRow(RowBlocks(blocks, cols, row));
    hide BlockOf;
    forall c: nat | g * SUB_SIZE <= c < g * SUB_SIZE + SUB_SIZE
      ensures WithinBoundAt(values, cols, blocks, row, decoded, g, c)
        <==> Accurate(q, input, j * SUB_SIZE + (c - g * SUB_SIZE))
    {
      ElementAccurate(values, rows, cols, row, half, blocks, g, c);
      assert c % SUB_SIZE == c - g * SUB_SIZE;
    }
    SameColumns(values, cols, blocks, row, decoded, g, q, input, j);
  }

  lemma EncodesOne(blocks: seq<Block>, values: seq<real>, half: real -> real, b: nat)
    requires AllEncode(blocks, values, half) && b < |blocks|
    ensures |blocks| * SUPER_BLOCK <= |values| && Sized(blocks[b]) &&
      Encodes(Read(blocks[b]), BlockInput(values, b), half)
  {
    hide Encodes, Read, BlockInput;
    assert EncodesAt(blocks, values, half, b);
  }

  /** The elements of a sub-block of the row and the columns of its superblock, one for one. */
  lemma SameColumns(values: seq<real>, cols: nat, blocks: seq<Block>, row: nat, decoded: seq<real>, g: nat,
                    q: Codes, input: seq<real>, j: nat)
    requires |input| == SUPER_BLOCK && Shaped(q) && j < SUB_BLOCKS
    requires forall c: nat :: g * SUB_SIZE <= c < g * SUB_SIZE + SUB_SIZE ==>
      (WithinBoundAt(values, cols, blocks, row, decoded, g, c) <==>
        Accurate(q, input, j * SUB_SIZE + (c - g * SUB_SIZE)))
    ensures SubWithin(values, cols, blocks, row, decoded, g) <==> AccurateSub(q, input, j)
  {
    hide WithinBoundAt, Accurate;
    if SubWithin(values, cols, blocks, row, decoded, g) {
      forall col: nat | j * SUB_SIZE <= col < j * SUB_SIZE + SUB_SIZE ensures Accurate(q, input, col) {
        var c := col - j * SUB_SIZE + g * SUB_SIZE;
        assert WithinBoundAt(values, cols, blocks, row, decoded, g, c);
      }
    }
  }

  lemma UnitNonNegative(q: Codes, input: seq<real>, half: real -> real)
    requires |input| == SUPER_BLOCK && Encodes(q, input, half) && forall x :: half(x) >= 0.0
    ensures q.d >= 0.0 && q.d == half(Model(MaxSpread(input, 8))) && q.dmin == half(Model(MaxDrop(input, 8)))
  {
  }

  lemma ResolvedCoversAt(values: seq<real>, rows: nat, cols: nat, row: nat, half: real -> real, blocks: seq<Block>,
                         g: nat)
    requires cols % SUPER_BLOCK == 0 && |values| == rows * cols && row < rows && g < cols / SUB_SIZE
    requires |blocks| == rows * (cols / SUPER_BLOCK) && AllEncode(blocks, values, half) && AllResolve(values, half)
    requires forall x :: half(x) >= 0.0
    ensures CoversAt(values, cols, half, row, g)
  {
    hide Encodes, Read, BlockInput, Covers, Resolves, MaxSpread, MaxDrop, Model;
    SubPlace(values, rows, cols, row, g);
    var b := BlockOf(cols, row, g);
    assert EncodesAt(blocks, values, half, b) && ResolvesAt(values, half, b);
    UnitNonNegative(Read(blocks[b]), BlockInput(values, b), half);
    ResolvedCovers(Read(blocks[b]), BlockInput(values, b), half, g % SUB_BLOCKS);
  }

  /** Row-major element `c` of `row` is element `c % 256` of its superblock. */
  lemma ElementPlace(values: seq<real>, cols: nat, row: nat, c: nat, b: nat)
    requires cols % SUPER_BLOCK == 0 && c < cols && row * cols + cols <= |values|
    requires b == row * (cols / SUPER_BLOCK) + c / SUPER_BLOCK
    ensures b * SUPER_BLOCK + SUPER_BLOCK <= |values|
    ensures BlockInput(values, b)[c % SUPER_BLOCK] == values[row * cols + c]
  {
    MatrixCounts(row, cols / SUPER_BLOCK, cols);
    assert row * cols + c == b * SUPER_BLOCK + c % SUPER_BLOCK;
  }
}
