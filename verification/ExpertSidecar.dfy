/** Writing an expert sidecar and reading it back: the packing tool's passes over its output
    stream, and the loader of the runtime. */
module ExpertSidecar {
  import opened ReferenceMath
  import opened SidecarFormat

  /** One routed expert's tensors, as bytes. */
  datatype Expert = Expert(w1: seq<nat>, w3: seq<nat>, w2: seq<nat>)

  // ----- the output stream

  /** `bytes` with `data` written over it from `pos`. */
  function Over(bytes: seq<nat>, pos: nat, data: seq<nat>): (r: seq<nat>)
    requires pos <= |bytes|
    ensures |r| == if pos + |data| < |bytes| then |bytes| else pos + |data|
  {
    bytes[..pos] + data + if pos + |data| < |bytes| then bytes[pos + |data|..] else []
  }

  lemma OverTwice(bytes: seq<nat>, pos: nat, a: seq<nat>, b: seq<nat>)
    requires pos <= |bytes|
    ensures Over(Over(bytes, pos, a), pos + |a|, b) == Over(bytes, pos, a + b)
  {
    var once := Over(bytes, pos, a);
    assert once[..pos + |a|] == bytes[..pos] + a;
    assert bytes[..pos] + a + b == bytes[..pos] + (a + b);
    if pos + |a| + |b| < |bytes| { assert once[pos + |a| + |b|..] == bytes[pos + |a| + |b|..]; }
  }

  lemma OverEnd(bytes: seq<nat>, data: seq<nat>)
    ensures Over(bytes, |bytes|, data) == bytes + data
  {
    assert bytes[..|bytes|] == bytes && bytes + data + [] == bytes + data;
  }

  class OutputFile {
    var bytes: seq<nat>
    var position: nat

    predicate Valid()
      reads this
    {
      position <= |bytes|
    }

    constructor ()
      ensures Valid() && bytes == [] && position == 0
    {
      bytes, position := [], 0;
    }

    method Write(data: seq<nat>)
      requires Valid()
      modifies this
      ensures Valid() && position == old(position) + |data|
      ensures bytes == Over(old(bytes), old(position), data)
    {
      bytes := Over(bytes, position, data);
      position := position + |data|;
    }

    method Rewind()
      modifies this
      ensures Valid() && position == 0 && bytes == old(bytes)
    {
      position := 0;
    }

    /** Zeros up to the next aligned position, at the end of the file. */
    method Pad()
      requires Valid() && position == |bytes|
      modifies this
      ensures Valid() && position == |bytes| == Align(old(|bytes|)) && old(bytes) <= bytes
    {
      AlignIsLeast(position, 0);
      var start := Align(position);
      OverEnd(bytes, seq(start - position, i => 0));
      Write(seq(start - position, i => 0));
    }

    method Append(data: seq<nat>)
      requires Valid() && position == |bytes|
      modifies this
      ensures Valid() && position == |bytes| && bytes == old(bytes) + data
    {
      OverEnd(bytes, data);
      Write(data);
    }

    /** The header and every entry, from where the stream stands. */
    method WriteTables(header: Header, entries: seq<Entry>)
      requires Valid()
      modifies this
      ensures Valid() && position == old(position) + IndexEnd(|entries|)
      ensures bytes == Over(old(bytes), old(position), EncodeHeader(header) + EncodeIndex(entries))
    {
      hide EncodeHeader, EncodeEntry, Over;
      ghost var before, from := bytes, position;
      Write(EncodeHeader(header));
      ghost var tables := EncodeHeader(header);
      assert tables + EncodeIndex(entries[..0]) == tables;
      for k := 0 to |entries|
        invariant Valid() && position == from + IndexEnd(k)
        invariant bytes == Over(before, from, tables + EncodeIndex(entries[..k]))
      {
        assert entries[..k + 1][..k] == entries[..k];
        OverTwice(before, from, tables + EncodeIndex(entries[..k]), EncodeEntry(entries[k]));
        assert tables + EncodeIndex(entries[..k]) + EncodeEntry(entries[k]) == tables + EncodeIndex(entries[..k + 1]);
        Write(EncodeEntry(entries[k]));
      }
      assert entries[..|entries|] == entries;
    }
  }

  // ----- what a finished file holds

  /** The bytes of one of an expert's matrices, two to an element. */
  function MatrixBytes(intermediate: nat, hidden: nat): nat { intermediate * hidden * 2 }

  predicate Supplied(tensors: seq<Expert>, w: nat) {
    forall k :: 0 <= k < |tensors| ==> |tensors[k].w1| >= w && |tensors[k].w3| >= w && |tensors[k].w2| >= w
  }

  function GateUp(e: Expert, w: nat): (b: seq<nat>)
    requires |e.w1| >= w && |e.w3| >= w
    ensures |b| == 2 * w
  {
    e.w1[..w] + e.w3[..w]
  }

  function Down(e: Expert, w: nat): (b: seq<nat>)
    requires |e.w2| >= w
    ensures |b| == w
  {
    e.w2[..w]
  }

  /** Block `k` of the file is expert `k`: gate and up together, then down. */
  predicate BlockHolds(bytes: seq<nat>, tensors: seq<Expert>, w: nat, count: nat, k: nat)
    requires Supplied(tensors, w) && k < |tensors|
  {
    var s := Start(count, 2 * w, w, k);
    s + 2 * w + w <= |bytes| && bytes[s..s + 2 * w] == GateUp(tensors[k], w) &&
      bytes[s + 2 * w..s + 2 * w + w] == Down(tensors[k], w)
  }

  predicate BlocksHold(bytes: seq<nat>, tensors: seq<Expert>, w: nat, count: nat, n: nat)
    requires Supplied(tensors, w) && n <= |tensors|
  {
    |bytes| == End(count, 2 * w, w, n) && forall k :: 0 <= k < n ==> BlockHolds(bytes, tensors, w, count, k)
  }

  lemma BlockAdded(bytes: seq<nat>, padded: seq<nat>, tensors: seq<Expert>, w: nat, count: nat, n: nat)
    requires Supplied(tensors, w) && n < |tensors| && BlocksHold(bytes, tensors, w, count, n)
    requires bytes <= padded && |padded| == Start(count, 2 * w, w, n)
    ensures BlocksHold(padded + GateUp(tensors[n], w) + Down(tensors[n], w), tensors, w, count, n + 1)
  {
    hide GateUp, Down, Start, Align;
    var after := padded + GateUp(tensors[n], w) + Down(tensors[n], w);
    LengthAfter(count, w, n);
    forall k | 0 <= k < n + 1 ensures BlockHolds(after, tensors, w, count, k) {
      if k < n {
        assert BlockHolds(bytes, tensors, w, count, k);
        BlockKept(bytes, after, tensors, w, count, k);
      } else {
        BlockNew(padded, tensors, w, count, n);
      }
    }
  }

  lemma LengthAfter(count: nat, w: nat, n: nat)
    ensures End(count, 2 * w, w, n + 1) == Start(count, 2 * w, w, n) + 2 * w + w
  {
  }

  lemma BlockKept(bytes: seq<nat>, after: seq<nat>, tensors: seq<Expert>, w: nat, count: nat, k: nat)
    requires Supplied(tensors, w) && k < |tensors| && bytes <= after && BlockHolds(bytes, tensors, w, count, k)
    ensures BlockHolds(after, tensors, w, count, k)
  {
    hide Start, GateUp, Down;
    var s := Start(count, 2 * w, w, k);
    assert after[s..s + 2 * w] == bytes[s..s + 2 * w];
    assert after[s + 2 * w..s + 2 * w + w] == bytes[s + 2 * w..s + 2 * w + w];
  }

  lemma BlockNew(padded: seq<nat>, tensors: seq<Expert>, w: nat, count: nat, n: nat)
    requires Supplied(tensors, w) && n < |tensors| && |padded| == Start(count, 2 * w, w, n)
    ensures BlockHolds(padded + GateUp(tensors[n], w) + Down(tensors[n], w), tensors, w, count, n)
  {
    hide Start, GateUp, Down;
    var g, d := GateUp(tensors[n], w), Down(tensors[n], w);
    var after, s := padded + g + d, |padded|;
    assert after[s..s + 2 * w] == g && after[s + 2 * w..s + 2 * w + w] == d;
  }

  function AllEntries(count: nat, w: nat, n: nat): (e: seq<Entry>)
    ensures |e| == n
  {
    seq(n, k requires 0 <= k < n => EntryOf(count, 2 * w, w, k))
  }

  /** A finished sidecar: its tables, then every expert's block. */
  predicate Packed(bytes: seq<nat>, header: Header, tensors: seq<Expert>, w: nat)
    requires Supplied(tensors, w)
  {
    var n := |tensors|;
    && IndexEnd(n) <= |bytes|
    && bytes[..IndexEnd(n)] == EncodeHeader(header) + EncodeIndex(AllEntries(n, w, n))
    && BlocksHold(bytes, tensors, w, n, n)
  }

  /** Rewriting the tables in place touches no byte of any block. */
  lemma RewriteKeepsBlocks(bytes: seq<nat>, tables: seq<nat>, tensors: seq<Expert>, w: nat)
    requires Supplied(tensors, w) && BlocksHold(bytes, tensors, w, |tensors|, |tensors|)
    requires |tables| == IndexEnd(|tensors|)
    ensures BlocksHold(Over(bytes, 0, tables), tensors, w, |tensors|, |tensors|)
    ensures Over(bytes, 0, tables)[IndexEnd(|tensors|)..] == bytes[IndexEnd(|tensors|)..]
    ensures Over(bytes, 0, tables)[..IndexEnd(|tensors|)] == tables
  {
    hide Start, GateUp, Down, End, Over;
    var n := |tensors|;
    StartsAfterIndex(n, 2 * w, w, n);
    var after := Over(bytes, 0, tables);
    OverFront(bytes, tables);
    forall k | 0 <= k < n ensures BlockHolds(after, tensors, w, n, k) {
      assert BlockHolds(bytes, tensors, w, n, k);
      var s := Start(n, 2 * w, w, k);
      StartsAfterIndex(n, 2 * w, w, k);
      SameBehind(bytes, after, |tables|, s, s + 2 * w);
      SameBehind(bytes, after, |tables|, s + 2 * w, s + 2 * w + w);
    }
  }

  lemma OverFront(bytes: seq<nat>, tables: seq<nat>)
    requires |tables| <= |bytes|
    ensures var after := Over(bytes, 0, tables);
      |after| == |bytes| && after[|tables|..] == bytes[|tables|..] && after[..|tables|] == tables
  {
  }

  lemma SameBehind(bytes: seq<nat>, after: seq<nat>, p: nat, i: nat, j: nat)
    requires p <= i <= j <= |bytes| && |after| == |bytes| && after[p..] == bytes[p..]
    ensures after[i..j] == bytes[i..j]
  {
    assert after[p..][i - p..j - p] == after[i..j] && bytes[p..][i - p..j - p] == bytes[i..j];
  }

  // ----- packing

  /** A `memcpy` into a staging buffer. */
  method Stage(buffer: array<nat>, offset: nat, source: seq<nat>, n: nat)
    requires offset + n <= buffer.Length && n <= |source|
    modifies buffer
    ensures buffer[..] == old(buffer[..offset]) + source[..n] + old(buffer[offset + n..])
  {
    for i := 0 to n
      invariant forall k :: 0 <= k < i ==> buffer[offset + k] == source[k]
      invariant forall k :: 0 <= k < offset || offset + i <= k < buffer.Length ==> buffer[k] == old(buffer[k])
    {
      buffer[offset + i] := source[i];
    }
  }

  /** The whole packing run over `layers` times `experts` experts in order. */
  method Pack(header: Header, tensors: seq<Expert>, out: OutputFile)
    requires |tensors| == header.layers * header.experts
    requires Supplied(tensors, MatrixBytes(header.intermediate, header.hidden))
    requires out.Valid() && out.bytes == [] && out.position == 0
    modifies out
    ensures Packed(out.bytes, header, tensors, MatrixBytes(header.intermediate, header.hidden))
  {
    hide EncodeHeader, EncodeIndex, Over, GateUp, Down, BlocksHold, Start, EntryOf;
    var w := MatrixBytes(header.intermediate, header.hidden);
    var n := header.layers * header.experts;
    var index := new Entry[n](_ => Entry(0, 0, 0, 0));
    WriteFront(out, header, index[..], tensors, w);
    var gateUpStage := new nat[2 * w](_ => 0);
    var downStage := new nat[w](_ => 0);
    for l := 0 to header.layers
      invariant out.Valid() && out.position == |out.bytes| && l * header.experts <= n
      invariant BlocksHold(out.bytes, tensors, w, n, l * header.experts)
      invariant forall k :: 0 <= k < l * header.experts ==> index[k] == EntryOf(n, 2 * w, w, k)
    {
      RowStart(header.layers, header.experts, l);
      for e := 0 to header.experts
        invariant out.Valid() && out.position == |out.bytes|
        invariant BlocksHold(out.bytes, tensors, w, n, l * header.experts + e)
        invariant forall k :: 0 <= k < l * header.experts + e ==> index[k] == EntryOf(n, 2 * w, w, k)
      {
        var k := l * header.experts + e;
        var entry := PackExpert(out, tensors, w, k, gateUpStage, downStage);
        index[k] := entry;
      }
    }
    assert index[..] == AllEntries(n, w, n);
    ghost var filled := out.bytes;
    out.Rewind();
    RewriteKeepsBlocks(filled, EncodeHeader(header) + EncodeIndex(index[..]), tensors, w);
    out.WriteTables(header, index[..]);
    LongEnough(out.bytes, tensors, w);
  }

  lemma LongEnough(bytes: seq<nat>, tensors: seq<Expert>, w: nat)
    requires Supplied(tensors, w) && BlocksHold(bytes, tensors, w, |tensors|, |tensors|)
    ensures IndexEnd(|tensors|) <= |bytes|
  {
    StartsAfterIndex(|tensors|, 2 * w, w, |tensors|);
  }

  /** The first writing of the tables, still zero, and the padding after them. */
  method WriteFront(out: OutputFile, header: Header, zeros: seq<Entry>, tensors: seq<Expert>, w: nat)
    requires out.Valid() && out.bytes == [] && out.position == 0 && Supplied(tensors, w)
    modifies out
    ensures out.Valid() && out.position == |out.bytes| && BlocksHold(out.bytes, tensors, w, |zeros|, 0)
  {
    out.WriteTables(header, zeros);
    out.Pad();
  }

  method PackExpert(out: OutputFile, tensors: seq<Expert>, w: nat, k: nat, gateUpStage: array<nat>,
                    downStage: array<nat>)
    returns (entry: Entry)
    requires out.Valid() && out.position == |out.bytes| && Supplied(tensors, w) && k < |tensors|
    requires gateUpStage.Length == 2 * w && downStage.Length == w && gateUpStage != downStage
    requires BlocksHold(out.bytes, tensors, w, |tensors|, k)
    modifies out, gateUpStage, downStage
    ensures out.Valid() && out.position == |out.bytes| && BlocksHold(out.bytes, tensors, w, |tensors|, k + 1)
    ensures entry == EntryOf(|tensors|, 2 * w, w, k)
  {
    var t := tensors[k];
    Stage(gateUpStage, 0, t.w1, w);
    Stage(gateUpStage, w, t.w3, w);
    Stage(downStage, 0, t.w2, w);
    assert gateUpStage[..] == GateUp(t, w) && downStage[..] == Down(t, w);
    ghost var before := out.bytes;
    assert |before| == End(|tensors|, 2 * w, w, k);
    hide GateUp, Down, BlocksHold, Align, End;
    out.Pad();
    var gateUpOffset := out.position;
    BlockAdded(before, out.bytes, tensors, w, |tensors|, k);
    out.Append(gateUpStage[..]);
    var downOffset := out.position;
    out.Append(downStage[..]);
    entry := Entry(gateUpOffset, 2 * w, downOffset, w);
  }

  // ----- loading

  /** `ExpertSidecar::load`: the tables checked against what is expected and the index
      decoded, or nothing. */
  method Load(bytes: seq<nat>, expected: Header) returns (ok: bool, index: seq<Entry>)
    ensures ok <==>
      && |bytes| >= HEADER_BYTES && DecodeHeader(bytes[..HEADER_BYTES]) == Sidecar(expected)
      && |bytes| >= IndexEnd(expected.layers * expected.experts)
    ensures ok ==> |index| == expected.layers * expected.experts && forall k :: 0 <= k < |index| ==>
      IndexEnd(k) + ENTRY_BYTES <= |bytes| && index[k] == DecodeEntry(bytes[IndexEnd(k)..IndexEnd(k) + ENTRY_BYTES])
  {
    hide DecodeHeader, DecodeEntry;
    index := [];
    if |bytes| < HEADER_BYTES { return false, []; }
    if DecodeHeader(bytes[..HEADER_BYTES]) != Sidecar(expected) { return false, []; }
    var offset := HEADER_BYTES;
    for l := 0 to expected.layers
      invariant |index| == l * expected.experts <= expected.layers * expected.experts && offset == IndexEnd(|index|)
      invariant |bytes| >= offset
      invariant forall k :: 0 <= k < |index| ==>
        IndexEnd(k) + ENTRY_BYTES <= |bytes| && index[k] == DecodeEntry(bytes[IndexEnd(k)..IndexEnd(k) + ENTRY_BYTES])
    {
      RowStart(expected.layers, expected.experts, l);
      for e := 0 to expected.experts
        invariant |index| == l * expected.experts + e && offset == IndexEnd(|index|)
        invariant |bytes| >= offset
        invariant forall k :: 0 <= k < |index| ==>
          IndexEnd(k) + ENTRY_BYTES <= |bytes| && index[k] == DecodeEntry(bytes[IndexEnd(k)..IndexEnd(k) + ENTRY_BYTES])
      {
        if offset + ENTRY_BYTES > |bytes| { return false, []; }
        index := index + [DecodeEntry(bytes[offset..offset + ENTRY_BYTES])];
        offset := offset + ENTRY_BYTES;
      }
    }
    ok := true;
  }

  datatype ReadResult = OutOfRange | SizeMismatch | ShortRead | Read(gateUp: seq<nat>, down: seq<nat>)

  /** `ExpertSidecar::read_expert`. */
  function ReadExpert(bytes: seq<nat>, index: seq<Entry>, layers: nat, experts: nat, layer: int, expert: int,
                      gateUpSize: nat, downSize: nat): ReadResult
    requires |index| == layers * experts
  {
    if !(0 <= layer < layers) || !(0 <= expert < experts) then OutOfRange
    else
      CellInRange(layer, layers, experts, expert);
      var idx := index[Cell(layer, experts, expert)];
      if gateUpSize != idx.gateUpBytes || downSize != idx.downBytes then SizeMismatch
      else if idx.gateUpOffset + idx.gateUpBytes > |bytes| || idx.downOffset + idx.downBytes > |bytes| then ShortRead
      else Read(bytes[idx.gateUpOffset..idx.gateUpOffset + idx.gateUpBytes],
        bytes[idx.downOffset..idx.downOffset + idx.downBytes])
  }

  // ----- read-back

  lemma TableSlices(bytes: seq<nat>, header: Header, tensors: seq<Expert>, w: nat, k: nat)
    requires Supplied(tensors, w) && Packed(bytes, header, tensors, w) && k < |tensors|
    ensures IndexEnd(k) + ENTRY_BYTES <= |bytes|
    ensures bytes[IndexEnd(k)..IndexEnd(k) + ENTRY_BYTES] == EncodeEntry(EntryOf(|tensors|, 2 * w, w, k))
  {
    hide EncodeHeader, EncodeIndex, EncodeEntry, EntryOf, BlocksHold;
    var n := |tensors|;
    var entries := AllEntries(n, w, n);
    IndexAt(entries, k);
    var tables := EncodeHeader(header) + EncodeIndex(entries);
    var i, j := IndexEnd(k), IndexEnd(k) + ENTRY_BYTES;
    assert bytes[i..j] == bytes[..IndexEnd(n)][i..j];
    assert tables[i..j] == EncodeIndex(entries)[i - HEADER_BYTES..j - HEADER_BYTES];
  }

  lemma HeaderSlice(bytes: seq<nat>, header: Header, tensors: seq<Expert>, w: nat)
    requires Supplied(tensors, w) && Packed(bytes, header, tensors, w)
    ensures HEADER_BYTES <= |bytes| && bytes[..HEADER_BYTES] == EncodeHeader(header)
  {
    hide EncodeHeader, EncodeIndex, BlocksHold;
    var tables := bytes[..IndexEnd(|tensors|)];
    assert tables[..HEADER_BYTES] == EncodeHeader(header) && bytes[..HEADER_BYTES] == tables[..HEADER_BYTES];
  }

  /** In a file of fewer than 2^64 bytes every entry survives its encoding. */
  lemma EntriesFit(bytes: seq<nat>, tensors: seq<Expert>, w: nat, k: nat)
    requires Supplied(tensors, w) && k < |tensors| && BlockHolds(bytes, tensors, w, |tensors|, k) && |bytes| < Power(8)
    ensures EntryFits(EntryOf(|tensors|, 2 * w, w, k))
  {
    hide Power, Start;
  }

  /** What the loader makes of a packed file: every expert reads back as its own tensors. */
  lemma ReadsBack(bytes: seq<nat>, header: Header, tensors: seq<Expert>, w: nat, index: seq<Entry>, l: nat, e: nat)
    requires Supplied(tensors, w) && Packed(bytes, header, tensors, w) && |bytes| < Power(8)
    requires |tensors| == header.layers * header.experts == |index| && l < header.layers && e < header.experts
    requires forall k :: 0 <= k < |index| ==>
      IndexEnd(k) + ENTRY_BYTES <= |bytes| && index[k] == DecodeEntry(bytes[IndexEnd(k)..IndexEnd(k) + ENTRY_BYTES])
    ensures Cell(l, header.experts, e) < |tensors|
    ensures var t := tensors[Cell(l, header.experts, e)];
      ReadExpert(bytes, index, header.layers, header.experts, l, e, 2 * w, w) == Read(t.w1[..w] + t.w3[..w], t.w2[..w])
  {
    hide Power, DecodeEntry, EncodeEntry, EncodeHeader, EncodeIndex, Start, Cell, Packed;
    CellInRange(l, header.layers, header.experts, e);
    var k := Cell(l, header.experts, e);
    PackedBlock(bytes, header, tensors, w, k);
    TableSlices(bytes, header, tensors, w, k);
    EntriesFit(bytes, tensors, w, k);
    EntryRoundTrip(EntryOf(|tensors|, 2 * w, w, k));
  }

  lemma PackedBlock(bytes: seq<nat>, header: Header, tensors: seq<Expert>, w: nat, k: nat)
    requires Supplied(tensors, w) && Packed(bytes, header, tensors, w) && k < |tensors|
    ensures BlockHolds(bytes, tensors, w, |tensors|, k)
  {
    hide BlockHolds, EncodeHeader, EncodeIndex;
  }

  /** Packing and loading: the loader accepts the file, and reading any expert gives its
      gate and up matrices together and its down matrix. */
  method PackAndLoad(header: Header, tensors: seq<Expert>) returns (bytes: seq<nat>, ok: bool, index: seq<Entry>)
    requires Representable(header) && |tensors| == header.layers * header.experts
    requires Supplied(tensors, MatrixBytes(header.intermediate, header.hidden))
    ensures ok && |index| == |tensors|
    ensures |bytes| < Power(8) ==> forall l: nat, e: nat :: l < header.layers && e < header.experts ==>
      ReadsAs(bytes, index, header, tensors, l, e)
  {
    hide Packed, EncodeHeader, DecodeHeader, DecodeEntry, Power, MatrixBytes, Representable;
    var w := MatrixBytes(header.intermediate, header.hidden);
    var out := new OutputFile();
    Pack(header, tensors, out);
    bytes := out.bytes;
    HeaderSlice(bytes, header, tensors, w);
    HeaderRoundTrip(header);
    TablesFit(bytes, header, tensors, w);
    ok, index := Load(bytes, header);
    if |bytes| < Power(8) {
      forall l: nat, e: nat | l < header.layers && e < header.experts
        ensures ReadsAs(bytes, index, header, tensors, l, e)
      {
        ReadsBack(bytes, header, tensors, w, index, l, e);
      }
    }
  }

  lemma TablesFit(bytes: seq<nat>, header: Header, tensors: seq<Expert>, w: nat)
    requires Supplied(tensors, w) && Packed(bytes, header, tensors, w)
    ensures IndexEnd(|tensors|) <= |bytes|
  {
  }

  predicate ReadsAs(bytes: seq<nat>, index: seq<Entry>, header: Header, tensors: seq<Expert>, l: nat, e: nat)
    requires |index| == |tensors| == header.layers * header.experts && l < header.layers && e < header.experts
  {
    CellInRange(l, header.layers, header.experts, e);
    var t, w := tensors[Cell(l, header.experts, e)], MatrixBytes(header.intermediate, header.hidden);
    && |t.w1| >= w && |t.w3| >= w && |t.w2| >= w
    && ReadExpert(bytes, index, header.layers, header.experts, l, e, 2 * w, w) == Read(t.w1[..w] + t.w3[..w], t.w2[..w])
  }
}
