/** The bytes of an expert sidecar: little-endian numbers, a 64-byte header, 32-byte index
    entries, and blocks at multiples of 4096. */
module SidecarFormat {
  import opened ReferenceMath

  const HEADER_BYTES := 64
  const ENTRY_BYTES := 32
  const ALIGNMENT := 4096
  const MAGIC := "LFMSIDE2"

  function Power(n: nat): (p: nat)
    ensures p > 0
  {
    if n == 0 then 1 else 256 * Power(n - 1)
  }

  /** `write_le` for an integer of `n` bytes. */
  function Le(value: nat, n: nat): (b: seq<nat>)
    ensures |b| == n
  {
    if n == 0 then [] else [value % 256] + Le(value / 256, n - 1)
  }

  /** `read_le`. */
  function FromLe(b: seq<nat>): nat {
    if b == [] then 0 else b[0] + 256 * FromLe(b[1..])
  }

  lemma {:induction false} LeRoundTrip(value: nat, n: nat)
    requires value < Power(n)
    ensures FromLe(Le(value, n)) == value
  {
    if n > 0 {
      LeRoundTrip(value / 256, n - 1);
      assert Le(value, n)[1..] == Le(value / 256, n - 1);
    }
  }

  /** The least significant byte comes first: byte `i` is digit `i` of the value in base 256. */
  lemma {:induction false} LeastByteFirst(value: nat, n: nat, i: nat)
    requires i < n
    ensures Le(value, n)[i] == value / Power(i) % 256
  {
    if i > 0 {
      LeastByteFirst(value / 256, n - 1, i - 1);
      DivideTwice(value, Power(i - 1));
    }
  }

  lemma DivideTwice(x: nat, b: nat)
    requires b > 0
    ensures x / 256 / b == x / (256 * b)
  {
    var y := x / 256;
    var q := y / b;
    var r := y % b;
    Regrouped(q, b);
    assert y == q * b + r;
    Quotient(x, 256 * b, q, 256 * r + x % 256);
  }

  lemma Regrouped(q: nat, b: nat)
    ensures 256 * (q * b) == q * (256 * b)
  {
  }

  datatype Header = Header(layers: nat, experts: nat, intermediate: nat, hidden: nat)

  predicate Representable(h: Header) {
    h.layers < Power(4) && h.experts < Power(4) && h.intermediate < Power(8) && h.hidden < Power(8)
  }

  function Bytes(s: string): (b: seq<nat>)
    ensures |b| == |s|
  {
    seq(|s|, i requires 0 <= i < |s| => s[i] as nat)
  }

  function EncodeHeader(h: Header): (b: seq<nat>)
    ensures |b| == HEADER_BYTES
  {
    Bytes(MAGIC) + Le(h.layers, 4) + Le(h.experts, 4) + Le(h.intermediate, 8) + Le(h.hidden, 8)
    + Le(0, 8) + Le(0, 8) + Le(0, 8) + Le(0, 8)
  }

  datatype Decoded = NotASidecar | Sidecar(header: Header)

  /** `decode_header` and the check of the magic number. */
  function DecodeHeader(b: seq<nat>): Decoded
    requires |b| == HEADER_BYTES
  {
    if b[..8] != Bytes(MAGIC) then NotASidecar
    else Sidecar(Header(FromLe(b[8..12]), FromLe(b[12..16]), FromLe(b[16..24]), FromLe(b[24..32])))
  }

  lemma HeaderSlices(h: Header)
    ensures var b := EncodeHeader(h);
      && b[..8] == Bytes(MAGIC) && b[8..12] == Le(h.layers, 4) && b[12..16] == Le(h.experts, 4)
      && b[16..24] == Le(h.intermediate, 8) && b[24..32] == Le(h.hidden, 8)
  {
    hide Le, Bytes;
    var a := Bytes(MAGIC);
    var c := a + Le(h.layers, 4);
    var d := c + Le(h.experts, 4);
    var e := d + Le(h.intermediate, 8);
    var f := e + Le(h.hidden, 8);
    var b := EncodeHeader(h);
    assert b[..8] == a && b[..12] == c && b[..16] == d && b[..24] == e && b[..32] == f;
    assert b[8..12] == b[..12][8..] && b[12..16] == b[..16][12..];
    assert b[16..24] == b[..24][16..] && b[24..32] == b[..32][24..];
  }

  lemma HeaderRoundTrip(h: Header)
    requires Representable(h)
    ensures DecodeHeader(EncodeHeader(h)) == Sidecar(h)
  {
    HeaderSlices(h);
    hide EncodeHeader, Le, FromLe, Bytes;
    LeRoundTrip(h.layers, 4);
    LeRoundTrip(h.experts, 4);
    LeRoundTrip(h.intermediate, 8);
    LeRoundTrip(h.hidden, 8);
  }

  datatype Entry = Entry(gateUpOffset: nat, gateUpBytes: nat, downOffset: nat, downBytes: nat)

  predicate EntryFits(e: Entry) {
    e.gateUpOffset < Power(8) && e.gateUpBytes < Power(8) && e.downOffset < Power(8) && e.downBytes < Power(8)
  }

  function EncodeEntry(e: Entry): (b: seq<nat>)
    ensures |b| == ENTRY_BYTES
  {
    Le(e.gateUpOffset, 8) + Le(e.gateUpBytes, 8) + Le(e.downOffset, 8) + Le(e.downBytes, 8)
  }

  function DecodeEntry(b: seq<nat>): Entry
    requires |b| == ENTRY_BYTES
  {
    Entry(FromLe(b[..8]), FromLe(b[8..16]), FromLe(b[16..24]), FromLe(b[24..32]))
  }

  lemma Quarters(w: seq<nat>, x: seq<nat>, y: seq<nat>, z: seq<nat>)
    requires |w| == |x| == |y| == |z| == 8
    ensures var b := w + x + y + z;
      b[..8] == w && b[8..16] == x && b[16..24] == y && b[24..32] == z
  {
    var b := w + x + y + z;
    assert b[..8] == w;
    assert b[8..16] == x;
    assert b[16..24] == y;
    assert b[24..32] == z;
  }

  lemma EntryRoundTrip(e: Entry)
    requires EntryFits(e)
    ensures DecodeEntry(EncodeEntry(e)) == e
  {
    hide Le, FromLe;
    Quarters(Le(e.gateUpOffset, 8), Le(e.gateUpBytes, 8), Le(e.downOffset, 8), Le(e.downBytes, 8));
    LeRoundTrip(e.gateUpOffset, 8);
    LeRoundTrip(e.gateUpBytes, 8);
    LeRoundTrip(e.downOffset, 8);
    LeRoundTrip(e.downBytes, 8);
  }

  function EncodeIndex(entries: seq<Entry>): (b: seq<nat>)
    ensures |b| == ENTRY_BYTES * |entries|
  {
    if entries == [] then [] else EncodeIndex(entries[..|entries| - 1]) + EncodeEntry(entries[|entries| - 1])
  }

  lemma {:induction false} IndexAt(entries: seq<Entry>, k: nat)
    requires k < |entries|
    ensures ENTRY_BYTES * k + ENTRY_BYTES <= |EncodeIndex(entries)|
    ensures EncodeIndex(entries)[ENTRY_BYTES * k..ENTRY_BYTES * k + ENTRY_BYTES] == EncodeEntry(entries[k])
  {
    hide EncodeEntry;
    var n := |entries| - 1;
    if k < n {
      IndexAt(entries[..n], k);
      assert EncodeIndex(entries)[ENTRY_BYTES * k..ENTRY_BYTES * k + ENTRY_BYTES]
        == EncodeIndex(entries[..n])[ENTRY_BYTES * k..ENTRY_BYTES * k + ENTRY_BYTES];
    }
  }

  // ----- where blocks stand

  /** The position rounded up by adding and masking. */
  function Align(pos: nat): nat { (pos + (ALIGNMENT - 1)) / ALIGNMENT * ALIGNMENT }

  /** That is the least multiple of the alignment at or after the position. */
  lemma AlignIsLeast(pos: nat, m: nat)
    ensures Align(pos) >= pos && Align(pos) % ALIGNMENT == 0 && Align(pos) < pos + ALIGNMENT
    ensures m >= pos && m % ALIGNMENT == 0 ==> m >= Align(pos)
  {
  }

  function IndexEnd(count: nat): nat { HEADER_BYTES + ENTRY_BYTES * count }

  /** The end of the file after `k` of `count` experts of `g` and `d` bytes. */
  function End(count: nat, g: nat, d: nat, k: nat): nat {
    if k == 0 then Align(IndexEnd(count)) else Align(End(count, g, d, k - 1)) + g + d
  }

  function Start(count: nat, g: nat, d: nat, k: nat): nat { Align(End(count, g, d, k)) }

  function EntryOf(count: nat, g: nat, d: nat, k: nat): Entry {
    Entry(Start(count, g, d, k), g, Start(count, g, d, k) + g, d)
  }

  /** The regions of different experts are disjoint, in order, and clear of the index. */
  lemma {:induction false} RegionsApart(count: nat, g: nat, d: nat, j: nat, k: nat)
    requires j < k
    ensures IndexEnd(count) <= Start(count, g, d, j)
    ensures Start(count, g, d, j) + g + d <= End(count, g, d, k) <= Start(count, g, d, k)
  {
    hide Align;
    AlignIsLeast(End(count, g, d, k), 0);
    AlignIsLeast(End(count, g, d, j), 0);
    StartsAfterIndex(count, g, d, j);
    if j < k - 1 {
      RegionsApart(count, g, d, j, k - 1);
    }
  }

  lemma {:induction false} StartsAfterIndex(count: nat, g: nat, d: nat, k: nat)
    ensures IndexEnd(count) <= End(count, g, d, k) <= Start(count, g, d, k)
  {
    hide Align;
    AlignIsLeast(End(count, g, d, k), 0);
    AlignIsLeast(IndexEnd(count), 0);
    if k > 0 {
      StartsAfterIndex(count, g, d, k - 1);
    }
  }

  /** Each block starts at the least aligned position at or after what was written before. */
  lemma StartIsLeastAligned(count: nat, g: nat, d: nat, k: nat, m: nat)
    ensures Start(count, g, d, k) % ALIGNMENT == 0
    ensures m >= End(count, g, d, k) && m % ALIGNMENT == 0 ==> m >= Start(count, g, d, k)
  {
    hide Align;
    AlignIsLeast(End(count, g, d, k), m);
  }
}
