/** The packed Q4_K superblock: eight 6-bit scales and eight 6-bit minimums interleaved
    in twelve bytes, and 256 four-bit codes in 128 bytes.  Every write is proved to set
    its own lane and to leave every lane written before it alone. */
module Q4KLayout {
  import opened Q4KError

  const BLOCK_BYTES := 144

  /** `d` and `dmin` are the values of the two half-precision fields. */
  datatype Block = Block(d: real, dmin: real, scales: seq<bv8>, qs: seq<bv8>)

  predicate Sized(b: Block) { |b.scales| == 12 && |b.qs| == 128 }

  // ----- the byte expressions of the layout

  function Low6(b: bv8): bv8 { b & 63 }

  function LowNibble(b: bv8): bv8 { b & 0x0f }

  function HighNibble(b: bv8): bv8 { b >> 4 }

  function TopFree(b: bv8): bool { b >> 6 == 0 }

  function Nibbles(low: bv8, high: bv8): bv8 { (low & 0x0f) | ((high & 0x0f) << 4) }

  /** `b` with bits 4 and 5 of `v` or-ed into its top two bits. */
  function Borrow(b: bv8, v: bv8): bv8 { b | (((v >> 4) & 3) << 6) }

  /** A nibble completed by the top two bits of `lender`. */
  function Complete(nibble: bv8, lender: bv8): bv8 { nibble | ((lender >> 6) << 4) }

  lemma FitsLow6(v: bv8)
    requires v < 64
    ensures Low6(v) == v && TopFree(v)
  {
  }

  lemma BorrowIsHarmless(b: bv8, v: bv8)
    requires v < 64 && TopFree(b)
    ensures Low6(Borrow(b, v)) == Low6(b)
  {
  }

  lemma LowCompletes(b: bv8, v: bv8, w: bv8)
    requires v < 64 && TopFree(b)
    ensures Complete(LowNibble(Nibbles(v, w)), Borrow(b, v)) == v
  {
  }

  lemma HighCompletes(b: bv8, v: bv8, w: bv8)
    requires w < 64 && TopFree(b)
    ensures Complete(HighNibble(Nibbles(v, w)), Borrow(b, w)) == w
  {
  }

  // ----- reading

  function ScaleLane(q: seq<bv8>, j: nat): bv8
    requires |q| == 12 && j < 8
  {
    if j < 4 then Low6(q[j]) else Complete(LowNibble(q[j + 4]), q[j - 4])
  }

  function MinLane(q: seq<bv8>, j: nat): bv8
    requires |q| == 12 && j < 8
  {
    if j < 4 then Low6(q[j + 4]) else Complete(HighNibble(q[j + 4]), q[j])
  }

  function CodeByte(col: nat): (at: nat)
    requires col < SUPER_BLOCK
    ensures at < 128
  {
    (col / 32 / 2) * 32 + col % 32
  }

  function CodeLane(qs: seq<bv8>, col: nat): bv8
    requires |qs| == 128 && col < SUPER_BLOCK
  {
    if (col / 32) % 2 == 1 then HighNibble(qs[CodeByte(col)]) else LowNibble(qs[CodeByte(col)])
  }

  // ----- writing

  /** The lane 4..7 whose top two bits live in byte `k` of the first eight. */
  function LaneOf(k: nat): nat { if k < 4 then k + 4 else k }

  /** Lanes below `j` hold the given values and the borrowed top bits of the others are free. */
  predicate ScalesWritten(q: seq<bv8>, sc: seq<bv8>, m: seq<bv8>, j: nat) {
    && |q| == 12 && j <= |sc| && j <= |m| && j <= 8
    && (forall k :: 0 <= k < j ==> ScaleLane(q, k) == sc[k] && MinLane(q, k) == m[k])
    && (forall k :: 0 <= k < 8 && j <= LaneOf(k) ==> TopFree(q[k]))
  }

  /** Sub-block `j`: its scale and minimum are stored, lower lanes keep theirs. */
  method StoreScale(q: array<bv8>, j: nat, sc: bv8, m: bv8, ghost scs: seq<bv8>, ghost ms: seq<bv8>)
    requires q.Length == 12 && j < 8 && sc < 64 && m < 64
    requires |scs| == |ms| == j && ScalesWritten(q[..], scs, ms, j)
    modifies q
    ensures ScalesWritten(q[..], scs + [sc], ms + [m], j + 1)
  {
    hide ScalesWritten;
    ghost var before := q[..];
    if j < 4 {
      q[j] := sc;
      q[j + 4] := m;
      assert q[..] == before[j := sc][j + 4 := m];
      LowStored(before, j, sc, m, scs, ms);
    } else {
      q[j + 4] := (sc & 0x0f) | ((m & 0x0f) << 4);
      q[j - 4] := q[j - 4] | (((sc >> 4) & 3) << 6);
      q[j] := q[j] | (((m >> 4) & 3) << 6);
      assert q[..] == HighBytes(before, j, sc, m);
      HighStored(before, j, sc, m, scs, ms);
    }
  }

  function HighBytes(q: seq<bv8>, j: nat, sc: bv8, m: bv8): (r: seq<bv8>)
    requires |q| == 12 && 4 <= j < 8
    ensures |r| == 12
  {
    q[j + 4 := Nibbles(sc, m)][j - 4 := Borrow(q[j - 4], sc)][j := Borrow(q[j], m)]
  }

  lemma LowStored(q: seq<bv8>, j: nat, sc: bv8, m: bv8, scs: seq<bv8>, ms: seq<bv8>)
    requires |q| == 12 && j < 4 && sc < 64 && m < 64
    requires |scs| == |ms| == j && ScalesWritten(q, scs, ms, j)
    ensures ScalesWritten(q[j := sc][j + 4 := m], scs + [sc], ms + [m], j + 1)
  {
    hide Low6, TopFree, LowNibble, HighNibble, Complete;
    FitsLow6(sc);
    FitsLow6(m);
    var q' := q[j := sc][j + 4 := m];
    forall k | 0 <= k < j ensures ScaleLane(q', k) == scs[k] && MinLane(q', k) == ms[k] {
      assert ScaleLane(q, k) == scs[k] && MinLane(q, k) == ms[k];
    }
  }

  /** The lane being written reads back, and the lanes below it read as before. */
  lemma HighLane(q: seq<bv8>, j: nat, sc: bv8, m: bv8, k: nat)
    requires |q| == 12 && 4 <= j < 8 && k <= j && sc < 64 && m < 64
    requires TopFree(q[j - 4]) && TopFree(q[j])
    ensures ScaleLane(HighBytes(q, j, sc, m), k) == if k == j then sc else ScaleLane(q, k)
    ensures MinLane(HighBytes(q, j, sc, m), k) == if k == j then m else MinLane(q, k)
  {
    LowCompletes(q[j - 4], sc, m);
    HighCompletes(q[j], sc, m);
    BorrowIsHarmless(q[j - 4], sc);
    BorrowIsHarmless(q[j], m);
    hide Low6, TopFree, LowNibble, HighNibble, Complete, Borrow, Nibbles;
  }

  lemma HighStored(q: seq<bv8>, j: nat, sc: bv8, m: bv8, scs: seq<bv8>, ms: seq<bv8>)
    requires |q| == 12 && 4 <= j < 8 && sc < 64 && m < 64
    requires |scs| == |ms| == j && ScalesWritten(q, scs, ms, j)
    ensures ScalesWritten(HighBytes(q, j, sc, m), scs + [sc], ms + [m], j + 1)
  {
    hide Low6, TopFree, LowNibble, HighNibble, Complete, Borrow, Nibbles, ScaleLane, MinLane;
    assert LaneOf(j - 4) == j && LaneOf(j) == j;
    var q' := HighBytes(q, j, sc, m);
    forall k | 0 <= k < j + 1
      ensures ScaleLane(q', k) == (scs + [sc])[k] && MinLane(q', k) == (ms + [m])[k]
    {
      HighLane(q, j, sc, m, k);
      assert k < j ==> ScaleLane(q, k) == scs[k] && MinLane(q, k) == ms[k];
    }
  }

  /** A four-bit code goes into its nibble; no other column changes. */
  method StoreCode(qs: array<bv8>, col: nat, code: bv8)
    requires qs.Length == 128 && col < SUPER_BLOCK && code < 16
    modifies qs
    ensures CodeLane(qs[..], col) == code
    ensures forall c :: 0 <= c < SUPER_BLOCK && c != col ==> CodeLane(qs[..], c) == CodeLane(old(qs[..]), c)
  {
    ghost var before := qs[..];
    var at := CodeByte(col);
    if (col / 32) % 2 == 0 {
      qs[at] := (qs[at] & 0xF0) | code;
    } else {
      qs[at] := (qs[at] & 0x0F) | (code << 4);
    }
    assert qs[..] == before[at := CodeInto(before[at], col, code)];
    CodeStored(before, col, code);
  }

  function CodeInto(byte: bv8, col: nat, code: bv8): bv8
    requires code < 16
  {
    if (col / 32) % 2 == 0 then (byte & 0xF0) | code else (byte & 0x0F) | (code << 4)
  }

  lemma CodeStored(qs: seq<bv8>, col: nat, code: bv8)
    requires |qs| == 128 && col < SUPER_BLOCK && code < 16
    ensures var qs' := qs[CodeByte(col) := CodeInto(qs[CodeByte(col)], col, code)];
      && CodeLane(qs', col) == code
      && forall c :: 0 <= c < SUPER_BLOCK && c != col ==> CodeLane(qs', c) == CodeLane(qs, c)
  {
    NibbleReplaced(qs[CodeByte(col)], col, code);
    hide LowNibble, HighNibble, CodeInto;
    var qs' := qs[CodeByte(col) := CodeInto(qs[CodeByte(col)], col, code)];
    forall c | 0 <= c < SUPER_BLOCK && c != col ensures CodeLane(qs', c) == CodeLane(qs, c) {
      SameByteOtherNibble(c, col);
    }
  }

  lemma NibbleReplaced(byte: bv8, col: nat, code: bv8)
    requires code < 16
    ensures var byte' := CodeInto(byte, col, code);
      if (col / 32) % 2 == 0 then LowNibble(byte') == code && HighNibble(byte') == HighNibble(byte)
      else HighNibble(byte') == code && LowNibble(byte') == LowNibble(byte)
  {
  }

  lemma PlaceOfColumn(col: nat)
    requires col < SUPER_BLOCK
    ensures var g, p, r := col / 64, (col / 32) % 2, col % 32;
      col == 64 * g + 32 * p + r && CodeByte(col) == 32 * g + r && 0 <= p < 2 && 0 <= r < 32
  {
  }

  /** Two columns share a byte exactly when they stand 32 apart in one group of 64, as its
      two nibbles. */
  lemma SameByteOtherNibble(a: nat, b: nat)
    requires a < SUPER_BLOCK && b < SUPER_BLOCK && a != b
    ensures CodeByte(a) == CodeByte(b) ==> (a / 32) % 2 != (b / 32) % 2
    ensures CodeByte(a) == CodeByte(b) <==> a / 64 == b / 64 && (a == b + 32 || b == a + 32)
  {
    hide CodeByte;
    PlaceOfColumn(a);
    PlaceOfColumn(b);
  }

  // ----- the packing alone: any lanes survive the interleaved writes

  /** Writing eight 6-bit scales and minimums in order and reading them back. */
  method PackScales(sc: seq<bv8>, m: seq<bv8>) returns (q: seq<bv8>)
    requires |sc| == |m| == 8 && forall k :: 0 <= k < 8 ==> sc[k] < 64 && m[k] < 64
    ensures |q| == 12
    ensures forall k :: 0 <= k < 8 ==> ScaleLane(q, k) == sc[k] && MinLane(q, k) == m[k]
  {
    var bytes := new bv8[12](_ => 0);
    for j := 0 to 8
      invariant ScalesWritten(bytes[..], sc[..j], m[..j], j)
    {
      StoreScale(bytes, j, sc[j], m[j], sc[..j], m[..j]);
      assert sc[..j + 1] == sc[..j] + [sc[j]] && m[..j + 1] == m[..j] + [m[j]];
    }
    q := bytes[..];
  }

  /** Writing 256 four-bit codes in any order of columns and reading them back. */
  method PackCodes(codes: seq<bv8>, order: seq<nat>) returns (qs: seq<bv8>)
    requires |codes| == SUPER_BLOCK && forall c :: 0 <= c < SUPER_BLOCK ==> codes[c] < 16
    requires forall i :: 0 <= i < |order| ==> order[i] < SUPER_BLOCK
    requires forall c :: 0 <= c < SUPER_BLOCK ==> c in order
    ensures |qs| == 128 && forall c :: 0 <= c < SUPER_BLOCK ==> CodeLane(qs, c) == codes[c]
  {
    var bytes := new bv8[128](_ => 0);
    for i := 0 to |order|
      invariant forall k :: 0 <= k < i ==> CodeLane(bytes[..], order[k]) == codes[order[k]]
    {
      StoreCode(bytes, order[i], codes[order[i]]);
    }
    qs := bytes[..];
    forall c | 0 <= c < SUPER_BLOCK ensures CodeLane(qs, c) == codes[c] {
      assert c in order;
      var k :| 0 <= k < |order| && order[k] == c;
      assert CodeLane(qs, order[k]) == codes[order[k]];
    }
  }

  /** Two superblocks that read the same in every lane have the same bytes: the layout
      wastes no bit. */
  lemma LanesDetermineScales(p: seq<bv8>, q: seq<bv8>)
    requires |p| == |q| == 12
    requires forall j :: 0 <= j < 8 ==> ScaleLane(p, j) == ScaleLane(q, j) && MinLane(p, j) == MinLane(q, j)
    ensures p == q
  {
    SameBytes(p, q, 0);
    SameBytes(p, q, 1);
    SameBytes(p, q, 2);
    SameBytes(p, q, 3);
    assert SameThree(p, q, 0) && SameThree(p, q, 1) && SameThree(p, q, 2) && SameThree(p, q, 3);
  }

  lemma SameBytes(p: seq<bv8>, q: seq<bv8>, i: nat)
    requires |p| == |q| == 12 && i < 4
    requires ScaleLane(p, i) == ScaleLane(q, i) && ScaleLane(p, i + 4) == ScaleLane(q, i + 4)
    requires MinLane(p, i) == MinLane(q, i) && MinLane(p, i + 4) == MinLane(q, i + 4)
    ensures SameThree(p, q, i)
  {
    hide Low6, LowNibble, HighNibble, Complete;
    LowDetermines(p[i], q[i], p[i + 8], q[i + 8]);
    HighDetermines(p[i + 4], q[i + 4], p[i + 8], q[i + 8]);
  }

  predicate SameThree(p: seq<bv8>, q: seq<bv8>, i: nat)
    requires |p| == |q| == 12 && i < 4
  {
    p[i] == q[i] && p[i + 4] == q[i + 4] && p[i + 8] == q[i + 8]
  }

  lemma LowDetermines(a: bv8, b: bv8, x: bv8, y: bv8)
    requires Low6(a) == Low6(b) && Complete(LowNibble(x), a) == Complete(LowNibble(y), b)
    ensures a == b && LowNibble(x) == LowNibble(y)
  {
  }

  lemma HighDetermines(a: bv8, b: bv8, x: bv8, y: bv8)
    requires Low6(a) == Low6(b) && Complete(HighNibble(x), a) == Complete(HighNibble(y), b)
    requires LowNibble(x) == LowNibble(y)
    ensures a == b && x == y
  {
  }
}
