/** The gated short convolution of the reference decoder: a ring of the last `taps` rows
    written in place, against the direct sum over the inputs themselves.  `round` stands
    for rounding to bfloat16. */
module Convolution {
  import opened ReferenceMath

  /** The projected rows fed so far; each is `b`, `c` and `x` side by side. */
  predicate Rows(inputs: seq<seq<real>>, hidden: nat) {
    forall p :: 0 <= p < |inputs| ==> |inputs[p]| == 3 * hidden
  }

  function Gate(row: seq<real>, hidden: nat, channel: nat, round: real -> real): real
    requires |row| == 3 * hidden && channel < hidden
  {
    RoundedProduct(round(row[channel]), round(row[2 * hidden + channel]), round)
  }

  /** The product stored for `channel` at time `t`; silence before time zero. */
  function Product(inputs: seq<seq<real>>, hidden: nat, t: int, channel: nat, round: real -> real): real
    requires Rows(inputs, hidden) && t < |inputs| && channel < hidden
  {
    if t < 0 then 0.0 else Gate(inputs[t], hidden, channel, round)
  }

  predicate Weighted(weight: seq<real>, hidden: nat, taps: nat) { |weight| == hidden * taps }

  function Weight(weight: seq<real>, hidden: nat, taps: nat, channel: nat, tap: nat): real
    requires Weighted(weight, hidden, taps) && channel < hidden && tap < taps
  {
    CellInRange(channel, hidden, taps, tap);
    weight[Cell(channel, taps, tap)]
  }

  /** The first `n` terms of the direct sum at time `p`. */
  function Direct(inputs: seq<seq<real>>, weight: seq<real>, hidden: nat, taps: nat, p: int, channel: nat,
                  n: nat, round: real -> real): real
    requires Rows(inputs, hidden) && Weighted(weight, hidden, taps) && channel < hidden && n <= taps && p < |inputs|
  {
    if n == 0 then
      0.0
    else
      var term := Product(inputs, hidden, p - taps + n, channel, round)
        * round(Weight(weight, hidden, taps, channel, n - 1));
      Direct(inputs, weight, hidden, taps, p, channel, n - 1, round) + term
  }

  /** The gated direct convolution at time `p`. */
  function DirectOutput(inputs: seq<seq<real>>, weight: seq<real>, hidden: nat, taps: nat, p: nat, channel: nat,
                        round: real -> real): real
    requires Rows(inputs, hidden) && Weighted(weight, hidden, taps) && channel < hidden && p < |inputs|
  {
    RoundedProduct(round(inputs[p][hidden + channel]),
                   round(Direct(inputs, weight, hidden, taps, p, channel, taps, round)), round)
  }

  predicate DirectRow(out: seq<real>, inputs: seq<seq<real>>, weight: seq<real>, hidden: nat, taps: nat, p: nat,
                      round: real -> real)
    requires Rows(inputs, hidden) && Weighted(weight, hidden, taps) && p < |inputs|
  {
    |out| == hidden && forall channel :: 0 <= channel < hidden ==>
      out[channel] == DirectOutput(inputs, weight, hidden, taps, p, channel, round)
  }

  // ----- the ring

  predicate Ring(state: seq<real>, hidden: nat, taps: nat) { taps > 0 && |state| == taps * hidden }

  function Slot(t: int, taps: nat): (s: nat)
    requires taps > 0
    ensures s < taps
  {
    t % taps
  }

  lemma SlotsDiffer(t: int, u: int, taps: nat)
    requires taps > 0 && t < u < t + taps
    ensures Slot(t, taps) != Slot(u, taps)
  {
    var d, e := t / taps, u / taps;
    assert (e - d) * taps == u - t - (u % taps - t % taps);
    Multiples(e - d, taps);
  }

  function At(state: seq<real>, hidden: nat, taps: nat, t: int, channel: nat): real
    requires Ring(state, hidden, taps) && channel < hidden
  {
    CellInRange(Slot(t, taps), taps, hidden, channel);
    state[Cell(Slot(t, taps), hidden, channel)]
  }

  /** The last `taps` products of `channel` up to time `p` are in the ring. */
  predicate ColumnHolds(state: seq<real>, inputs: seq<seq<real>>, hidden: nat, taps: nat, p: int, channel: nat,
                        round: real -> real)
    requires Ring(state, hidden, taps) && Rows(inputs, hidden) && channel < hidden && p < |inputs|
  {
    forall t :: p - taps < t <= p ==> At(state, hidden, taps, t, channel) == Product(inputs, hidden, t, channel, round)
  }

  predicate RingHolds(state: seq<real>, inputs: seq<seq<real>>, hidden: nat, taps: nat, p: int, round: real -> real)
    requires Ring(state, hidden, taps) && Rows(inputs, hidden) && p < |inputs|
  {
    forall channel :: 0 <= channel < hidden ==> ColumnHolds(state, inputs, hidden, taps, p, channel, round)
  }

  lemma ColumnWritten(state: seq<real>, state': seq<real>, inputs: seq<seq<real>>, hidden: nat, taps: nat, p: nat,
                      channel: nat, round: real -> real)
    requires Ring(state, hidden, taps) && Ring(state', hidden, taps) && Rows(inputs, hidden)
    requires channel < hidden && p < |inputs|
    requires ColumnHolds(state, inputs, hidden, taps, p - 1, channel, round)
    requires At(state', hidden, taps, p, channel) == Product(inputs, hidden, p, channel, round)
    requires forall k :: 0 <= k < |state| && k != Cell(Slot(p, taps), hidden, channel) ==> state'[k] == state[k]
    ensures ColumnHolds(state', inputs, hidden, taps, p, channel, round)
  {
    hide Product, Slot;
    forall t | p - taps < t <= p
      ensures At(state', hidden, taps, t, channel) == Product(inputs, hidden, t, channel, round)
    {
      if t < p {
        SlotsDiffer(t, p, taps);
        OtherCell(state, state', hidden, taps, t, channel, Slot(p, taps), channel);
        assert At(state, hidden, taps, t, channel) == Product(inputs, hidden, t, channel, round);
      }
    }
  }

  lemma OtherCell(state: seq<real>, state': seq<real>, hidden: nat, taps: nat, t: int, channel: nat,
                  slot: nat, written: nat)
    requires Ring(state, hidden, taps) && Ring(state', hidden, taps) && channel < hidden && written < hidden
    requires Slot(t, taps) != slot || channel != written
    requires forall k :: 0 <= k < |state| && k != Cell(slot, hidden, written) ==> state'[k] == state[k]
    ensures At(state', hidden, taps, t, channel) == At(state, hidden, taps, t, channel)
  {
    hide Cell, Slot;
    if Cell(Slot(t, taps), hidden, channel) == Cell(slot, hidden, written) {
      CellInjective(Slot(t, taps), channel, slot, written, hidden);
    } else {
      CellInRange(Slot(t, taps), taps, hidden, channel);
    }
  }

  lemma OtherColumn(state: seq<real>, state': seq<real>, inputs: seq<seq<real>>, hidden: nat, taps: nat, p: int,
                    channel: nat, slot: nat, written: nat, round: real -> real)
    requires Ring(state, hidden, taps) && Ring(state', hidden, taps) && Rows(inputs, hidden)
    requires channel < hidden && written < hidden && channel != written && p < |inputs|
    requires ColumnHolds(state, inputs, hidden, taps, p, channel, round)
    requires forall k :: 0 <= k < |state| && k != Cell(slot, hidden, written) ==> state'[k] == state[k]
    ensures ColumnHolds(state', inputs, hidden, taps, p, channel, round)
  {
    hide Product, Slot, Cell, At;
    forall t | p - taps < t <= p
      ensures At(state', hidden, taps, t, channel) == Product(inputs, hidden, t, channel, round)
    {
      OtherCell(state, state', hidden, taps, t, channel, slot, written);
    }
  }

  /** The slot read for `tap` is the slot of the time it stands for. */
  lemma TapSlot(p: nat, taps: nat, tap: nat)
    requires tap < taps
    ensures (p % taps + 1 + tap) % taps == Slot(p - taps + 1 + tap, taps)
  {
    var x := p % taps + 1 + tap;
    assert p == p / taps * taps + p % taps;
    assert x % taps == Slot(x, taps);
    var y := p - taps + 1 + tap;
    var k := p / taps - 1;
    assert y == x + k * taps;
    assert x == x / taps * taps + x % taps;
    assert y == (x / taps + k) * taps + x % taps;
    Quotient(y, taps, x / taps + k, x % taps);
  }

  // ----- one step, in place

  predicate Shapes(projected: seq<real>, weight: seq<real>, state: seq<real>, hidden: int, taps: int, position: int) {
    && hidden > 0 && taps > 0 && position >= 0
    && |projected| == 3 * hidden && |weight| == hidden * taps && |state| == hidden * taps
  }

  /** The ring is what feeding `before` leaves. */
  predicate Fed(state: seq<real>, before: seq<seq<real>>, hidden: int, taps: int, position: int, round: real -> real) {
    && hidden > 0 && taps > 0 && Ring(state, hidden, taps) && position >= 0 && Rows(before, hidden) &&
      |before| == position
    && RingHolds(state, before, hidden, taps, position - 1, round)
  }

  /** One decode step.  If the ring is what feeding `before` leaves, it ends as what feeding
      the new row as well leaves, and the output is the direct one. */
  method ConvDecode(projected: seq<real>, weight: seq<real>, state: array<real>, hidden: int, taps: int,
                    position: int, round: real -> real, ghost before: seq<seq<real>>)
    returns (ok: bool, out: seq<real>)
    requires Rounding(round)
    modifies state
    ensures ok <==> Shapes(projected, weight, old(state[..]), hidden, taps, position)
    ensures !ok ==> state[..] == old(state[..])
    ensures ok ==> |out| == hidden
    ensures ok && Fed(old(state[..]), before, hidden, taps, position, round) ==>
      && Fed(state[..], before + [projected], hidden, taps, position + 1, round) && Weighted(weight, hidden, taps)
      && DirectRow(out, before + [projected], weight, hidden, taps, position, round)
  {
    out := [];
    if !Shapes(projected, weight, state[..], hidden, taps, position) { return false, out; }
    ok := true;
    ghost var fed := Fed(state[..], before, hidden, taps, position, round);
    ghost var inputs := before + [projected];
    if fed { HistoryGrows(state[..], before, projected, hidden, taps, round); }
    hide Product, Slot, Cell, At, Direct, ColumnHolds, DirectOutput, Rounding;
    var cursor := position % taps;
    ghost var last := position - 1;
    for channel: int := 0 to hidden
      invariant |out| == channel
      invariant fed ==> forall k :: 0 <= k < channel ==>
        out[k] == DirectOutput(inputs, weight, hidden, taps, position, k, round)
      invariant fed ==> forall k :: 0 <= k < channel ==>
        ColumnHolds(state[..], inputs, hidden, taps, position, k, round)
      invariant fed ==> forall k :: channel <= k < hidden ==>
        ColumnHolds(state[..], inputs, hidden, taps, last, k, round)
    {
      var result := ConvChannel(projected, weight, state, hidden, taps, position, cursor, channel, round, inputs, fed);
      out := out + [result];
    }
  }

  lemma HistoryGrows(state: seq<real>, before: seq<seq<real>>, projected: seq<real>, hidden: nat, taps: nat,
                     round: real -> real)
    requires Ring(state, hidden, taps) && Rows(before, hidden) && |projected| == 3 * hidden
    requires RingHolds(state, before, hidden, taps, |before| - 1, round)
    ensures Rows(before + [projected], hidden)
    ensures RingHolds(state, before + [projected], hidden, taps, |before| - 1, round)
  {
    hide At, Gate;
    var inputs, last := before + [projected], |before| - 1;
    forall channel | 0 <= channel < hidden
      ensures ColumnHolds(state, inputs, hidden, taps, last, channel, round)
    {
      assert ColumnHolds(state, before, hidden, taps, |before| - 1, channel, round);
      forall t | |before| - 1 - taps < t <= |before| - 1
        ensures At(state, hidden, taps, t, channel) == Product(inputs, hidden, t, channel, round)
      {
        assert t >= 0 ==> inputs[t] == before[t];
        assert At(state, hidden, taps, t, channel) == Product(before, hidden, t, channel, round);
      }
    }
  }

  method ConvChannel(projected: seq<real>, weight: seq<real>, state: array<real>, hidden: nat, taps: nat, position: nat,
                     cursor: nat, channel: nat, round: real -> real, ghost inputs: seq<seq<real>>, ghost fed: bool)
    returns (result: real)
    requires Rounding(round) && channel < hidden && taps > 0 && cursor == position % taps && |projected| == 3 * hidden
    requires Weighted(weight, hidden, taps) && Ring(state[..], hidden, taps)
    requires fed ==> Rows(inputs, hidden) && |inputs| == position + 1 && inputs[position] == projected
    requires fed ==> ColumnHolds(state[..], inputs, hidden, taps, position - 1, channel, round)
    modifies state
    ensures Ring(state[..], hidden, taps)
    ensures fed ==> result == DirectOutput(inputs, weight, hidden, taps, position, channel, round)
    ensures fed ==> ColumnHolds(state[..], inputs, hidden, taps, position, channel, round)
    ensures fed ==> forall k, p | 0 <= k < hidden && k != channel && p < |inputs| ::
      ColumnHolds(old(state[..]), inputs, hidden, taps, p, k, round) ==>
      ColumnHolds(state[..], inputs, hidden, taps, p, k, round)
  {
    hide RoundedProduct;
    ghost var was := state[..];
    var b := round(projected[channel]);
    var c := round(projected[hidden + channel]);
    var x := round(projected[2 * hidden + channel]);
    CellInRange(cursor, taps, hidden, channel);
    var product := RoundedProduct(b, x, round);
    assert product == Gate(projected, hidden, channel, round);
    hide Gate;
    state[cursor * hidden + channel] := product;
    if fed { RingWritten(was, state[..], inputs, hidden, taps, position, channel, round); }
    hide ColumnHolds, Product, At;
    var conv := Convolve(weight, state, hidden, taps, position, cursor, channel, round, inputs, fed);
    result := RoundedProduct(c, round(conv), round);
  }

  lemma RingWritten(was: seq<real>, now: seq<real>, inputs: seq<seq<real>>, hidden: nat, taps: nat, position: nat,
                    channel: nat, round: real -> real)
    requires channel < hidden && Ring(was, hidden, taps) && Rows(inputs, hidden) && |inputs| == position + 1
    requires Cell(position % taps, hidden, channel) < |was|
    requires now == was[Cell(position % taps, hidden, channel) := Gate(inputs[position], hidden, channel, round)]
    requires ColumnHolds(was, inputs, hidden, taps, position - 1, channel, round)
    ensures ColumnHolds(now, inputs, hidden, taps, position, channel, round)
    ensures forall k, p | 0 <= k < hidden && k != channel && p < |inputs| ::
      ColumnHolds(was, inputs, hidden, taps, p, k, round) ==> ColumnHolds(now, inputs, hidden, taps, p, k, round)
  {
    hide Gate;
    assert At(now, hidden, taps, position, channel) == Product(inputs, hidden, position, channel, round);
    ColumnWritten(was, now, inputs, hidden, taps, position, channel, round);
    forall k, p | 0 <= k < hidden && k != channel && p < |inputs|
      && ColumnHolds(was, inputs, hidden, taps, p, k, round)
      ensures ColumnHolds(now, inputs, hidden, taps, p, k, round)
    {
      OtherColumn(was, now, inputs, hidden, taps, p, k, position % taps, channel, round);
    }
  }

  /** The taps of one channel, read around the ring from the slot after the cursor. */
  method Convolve(weight: seq<real>, state: array<real>, hidden: nat, taps: nat, position: nat, cursor: nat,
                  channel: nat, round: real -> real, ghost inputs: seq<seq<real>>, ghost fed: bool)
    returns (conv: real)
    requires Rounding(round) && channel < hidden && taps > 0 && cursor == position % taps
    requires Weighted(weight, hidden, taps) && Ring(state[..], hidden, taps)
    requires fed ==> position < |inputs| && Rows(inputs, hidden)
    requires fed ==> ColumnHolds(state[..], inputs, hidden, taps, position, channel, round)
    ensures fed ==> conv == Direct(inputs, weight, hidden, taps, position, channel, taps, round)
  {
    hide ColumnHolds, Product, At, Rounding;
    conv := 0.0;
    for tap := 0 to taps
      invariant fed ==> conv == Direct(inputs, weight, hidden, taps, position, channel, tap, round)
    {
      var slot := (cursor + 1 + tap) % taps;
      CellInRange(slot, taps, hidden, channel);
      CellInRange(channel, hidden, taps, tap);
      if fed { TapTerm(state[..], inputs, hidden, taps, position, channel, tap, round); }
      conv := conv + round(state[slot * hidden + channel]) * round(weight[channel * taps + tap]);
    }
  }

  /** What `tap` reads is the product of its time, already rounded. */
  lemma TapTerm(state: seq<real>, inputs: seq<seq<real>>, hidden: nat, taps: nat, p: nat, channel: nat, tap: nat,
                round: real -> real)
    requires Rounding(round) && Ring(state, hidden, taps) && Rows(inputs, hidden) && channel < hidden
    requires p < |inputs| && tap < taps && ColumnHolds(state, inputs, hidden, taps, p, channel, round)
    ensures Cell((p % taps + 1 + tap) % taps, hidden, channel) < |state|
    ensures round(state[Cell((p % taps + 1 + tap) % taps, hidden, channel)])
      == Product(inputs, hidden, p - taps + (tap + 1), channel, round)
  {
    var t := p - taps + 1 + tap;
    TapSlot(p, taps, tap);
    assert At(state, hidden, taps, t, channel) == Product(inputs, hidden, t, channel, round);
    ProductRounded(inputs, hidden, t, channel, round);
    hide Cell, Slot, Product;
    CellInRange(Slot(t, taps), taps, hidden, channel);
  }

  lemma ProductRounded(inputs: seq<seq<real>>, hidden: nat, t: int, channel: nat, round: real -> real)
    requires Rounding(round) && Rows(inputs, hidden) && t < |inputs| && channel < hidden
    ensures round(Product(inputs, hidden, t, channel, round)) == Product(inputs, hidden, t, channel, round)
  {
  }

  // ----- whole runs

  lemma SilentRing(state: seq<real>, hidden: nat, taps: nat, round: real -> real)
    requires Ring(state, hidden, taps) && forall k :: 0 <= k < |state| ==> state[k] == 0.0
    ensures RingHolds(state, [], hidden, taps, -1, round)
  {
    hide Slot, Cell;
    forall channel, t | 0 <= channel < hidden && -1 - taps < t <= -1
      ensures At(state, hidden, taps, t, channel) == Product([], hidden, t, channel, round)
    {
      CellInRange(Slot(t, taps), taps, hidden, channel);
    }
  }

  /** From a zero ring, stepping positions 0, 1, 2, ... gives the direct convolution at
      every position and channel, for any ring length and any number of steps. */
  method DecodeAll(inputs: seq<seq<real>>, weight: seq<real>, hidden: nat, taps: nat, round: real -> real)
    returns (outputs: seq<seq<real>>)
    requires Rounding(round) && hidden > 0 && taps > 0
    requires Rows(inputs, hidden) && Weighted(weight, hidden, taps)
    ensures |outputs| == |inputs|
    ensures forall p :: 0 <= p < |inputs| ==> DirectRow(outputs[p], inputs, weight, hidden, taps, p, round)
  {
    var state := new real[hidden * taps](_ => 0.0);
    outputs := [];
    SilentRing(state[..], hidden, taps, round);
    hide RingHolds, Product, Direct, DirectOutput;
    for p := 0 to |inputs|
      invariant Fed(state[..], inputs[..p], hidden, taps, p, round)
      invariant |outputs| == p
      invariant forall q :: 0 <= q < p ==> DirectRow(outputs[q], inputs, weight, hidden, taps, q, round)
    {
      var ok, out := ConvDecode(inputs[p], weight, state, hidden, taps, p, round, inputs[..p]);
      assert inputs[..p] + [inputs[p]] == inputs[..p + 1];
      assert Rows(inputs[..p + 1], hidden);
      forall channel | 0 <= channel < hidden
        ensures out[channel] == DirectOutput(inputs, weight, hidden, taps, p, channel, round)
      {
        OnlyThePast(inputs, weight, hidden, taps, p, channel, round);
      }
      outputs := outputs + [out];
    }
  }

  /** The direct output at `p` does not depend on later inputs. */
  lemma OnlyThePast(inputs: seq<seq<real>>, weight: seq<real>, hidden: nat, taps: nat, p: nat, channel: nat,
                    round: real -> real)
    requires Rows(inputs, hidden) && Weighted(weight, hidden, taps) && channel < hidden && p < |inputs|
    ensures DirectOutput(inputs[..p + 1], weight, hidden, taps, p, channel, round)
      == DirectOutput(inputs, weight, hidden, taps, p, channel, round)
  {
    SameSum(inputs, weight, hidden, taps, p, channel, taps, round);
    assert inputs[..p + 1][p] == inputs[p];
    hide Direct, RoundedProduct;
  }

  lemma {:induction false} SameSum(inputs: seq<seq<real>>, weight: seq<real>, hidden: nat, taps: nat, p: nat,
                                   channel: nat, n: nat, round: real -> real)
    requires Rows(inputs, hidden) && Weighted(weight, hidden, taps) && channel < hidden && p < |inputs| && n <= taps
    ensures Direct(inputs[..p + 1], weight, hidden, taps, p, channel, n, round)
      == Direct(inputs, weight, hidden, taps, p, channel, n, round)
  {
    hide Gate, Weight;
    if n > 0 {
      SameSum(inputs, weight, hidden, taps, p, channel, n - 1, round);
      var t := p - taps + n;
      assert Product(inputs[..p + 1], hidden, t, channel, round) == Product(inputs, hidden, t, channel, round);
      hide Product;
    }
  }

  // ----- which input each tap meets

  /** A weight that is one at `tap` and zero at the others of its channel. */
  predicate Impulse(weight: seq<real>, hidden: nat, taps: nat, channel: nat, tap: nat)
    requires Weighted(weight, hidden, taps) && channel < hidden && tap < taps
  {
    forall k :: 0 <= k < taps ==> Weight(weight, hidden, taps, channel, k) == if k == tap then 1.0 else 0.0
  }

  lemma {:induction false} ImpulseSum(inputs: seq<seq<real>>, weight: seq<real>, hidden: nat, taps: nat, p: nat,
                                      channel: nat, tap: nat, n: nat, round: real -> real)
    requires Rows(inputs, hidden) && Weighted(weight, hidden, taps) && channel < hidden && p < |inputs|
    requires tap < taps && n <= taps && Impulse(weight, hidden, taps, channel, tap)
    requires round(0.0) == 0.0 && round(1.0) == 1.0
    ensures Direct(inputs, weight, hidden, taps, p, channel, n, round)
      == if tap < n then Product(inputs, hidden, p - taps + 1 + tap, channel, round) else 0.0
  {
    hide Product, Weight;
    if n > 0 {
      ImpulseSum(inputs, weight, hidden, taps, p, channel, tap, n - 1, round);
      assert Weight(weight, hidden, taps, channel, n - 1) == if n - 1 == tap then 1.0 else 0.0;
    }
  }

  /** Tap `tap` meets the input of `taps - 1 - tap` steps ago, silence before the first: the
      output is that row's first third times its last, gated by the middle third of the
      present row, each product rounded. */
  lemma ImpulseResponse(inputs: seq<seq<real>>, weight: seq<real>, hidden: nat, taps: nat, p: nat, channel: nat,
                        tap: nat, round: real -> real)
    requires Rows(inputs, hidden) && Weighted(weight, hidden, taps) && channel < hidden && p < |inputs|
    requires tap < taps && Impulse(weight, hidden, taps, channel, tap)
    requires Rounding(round) && round(1.0) == 1.0
    ensures var ago := taps - 1 - tap; var out := DirectOutput(inputs, weight, hidden, taps, p, channel, round);
      var gate := round(inputs[p][hidden + channel]);
      if ago > p then out == 0.0
      else
        var row := inputs[p - ago];
        out == RoundedProduct(gate, RoundedProduct(round(row[channel]), round(row[2 * hidden + channel]), round), round)
  {
    ImpulseSum(inputs, weight, hidden, taps, p, channel, tap, taps, round);
    ProductRounded(inputs, hidden, p - taps + 1 + tap, channel, round);
    if taps - 1 - tap > p {
      Silence(round(inputs[p][hidden + channel]), round);
    } else {
      hide RoundedProduct;
    }
  }

  lemma Silence(x: real, round: real -> real)
    requires Rounding(round)
    ensures RoundedProduct(x, 0.0, round) == 0.0
  {
  }
}
