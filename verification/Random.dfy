/** The sampler's generator: a 64-bit xorshift state, held as its bits with the least
    significant first, and the unit-interval value made from each output. */
module Random {

  predicate Word(x: seq<bool>) { |x| == 64 }

  /** `x ^= x >> k`. */
  function XorRight(x: seq<bool>, k: nat): (r: seq<bool>)
    requires Word(x)
    ensures Word(r)
  {
    seq(64, i requires 0 <= i < 64 => x[i] != (i + k < 64 && x[i + k]))
  }

  /** `x ^= x << k`. */
  function XorLeft(x: seq<bool>, k: nat): (r: seq<bool>)
    requires Word(x)
    ensures Word(r)
  {
    seq(64, i requires 0 <= i < 64 => x[i] != (k <= i && x[i - k]))
  }

  function NextState(state: seq<bool>): (r: seq<bool>)
    requires Word(state)
    ensures Word(r)
  {
    XorRight(XorLeft(XorRight(state, 12), 25), 27)
  }

  function Number(x: seq<bool>): nat {
    if x == [] then 0 else (if x[0] then 1 else 0) + 2 * Number(x[1..])
  }

  const MULTIPLIER := 2685821657736338717
  const TWO_64 := 0x1_0000_0000_0000_0000
  const TWO_53 := 9007199254740992

  function Output(state: seq<bool>): (bits: nat)
    requires Word(state)
    ensures bits < TWO_64
  {
    Number(state) * MULTIPLIER % TWO_64
  }

  /** The value drawn when the state is already stepped: the midpoint of one of 2^53 equal
      cells, so neither end is ever drawn. */
  function Unit(state: seq<bool>): (u: real)
    requires Word(state)
    ensures 0.0 < u < 1.0
  {
    var cell := Output(state) / 2048;
    assert cell <= TWO_53 - 1;
    (cell as real + 0.5) / TWO_53 as real
  }

  /** The draw is the output as a fraction of 2^64, to within half a cell. */
  lemma UnitIsFraction(state: seq<bool>)
    requires Word(state)
    ensures -1024.0 < Unit(state) * TWO_64 as real - Output(state) as real <= 1024.0
  {
    hide Output;
    var bits := Output(state);
    var cell := bits / 2048;
    assert bits == 2048 * cell + bits % 2048;
    Scaled(cell as real + 0.5);
  }

  lemma Scaled(x: real)
    ensures (x / TWO_53 as real) * TWO_64 as real == x * 2048.0
  {
  }

  // ----- runs of the generator

  /** Agreement of `x ^ (x >> k)` forces agreement from the top bit down. */
  lemma {:induction false} RightAgrees(x: seq<bool>, y: seq<bool>, k: nat, i: nat)
    requires Word(x) && Word(y) && k > 0 && i < 64 && XorRight(x, k) == XorRight(y, k)
    ensures x[i] == y[i]
    decreases 64 - i
  {
    assert XorRight(x, k)[i] == XorRight(y, k)[i];
    if i + k < 64 { RightAgrees(x, y, k, i + k); }
  }

  lemma {:induction false} LeftAgrees(x: seq<bool>, y: seq<bool>, k: nat, i: nat)
    requires Word(x) && Word(y) && k > 0 && i < 64 && XorLeft(x, k) == XorLeft(y, k)
    ensures x[i] == y[i]
    decreases i
  {
    assert XorLeft(x, k)[i] == XorLeft(y, k)[i];
    if k <= i { LeftAgrees(x, y, k, i - k); }
  }

  lemma RightInjective(x: seq<bool>, y: seq<bool>, k: nat)
    requires Word(x) && Word(y) && k > 0 && XorRight(x, k) == XorRight(y, k)
    ensures x == y
  {
    forall i | 0 <= i < 64 ensures x[i] == y[i] { RightAgrees(x, y, k, i); }
  }

  lemma LeftInjective(x: seq<bool>, y: seq<bool>, k: nat)
    requires Word(x) && Word(y) && k > 0 && XorLeft(x, k) == XorLeft(y, k)
    ensures x == y
  {
    forall i | 0 <= i < 64 ensures x[i] == y[i] { LeftAgrees(x, y, k, i); }
  }

  /** No two states have the same successor, so no run ever merges into another. */
  lemma NextInjective(x: seq<bool>, y: seq<bool>)
    requires Word(x) && Word(y)
    ensures NextState(x) == NextState(y) <==> x == y
  {
    if NextState(x) == NextState(y) {
      hide XorRight, XorLeft;
      RightInjective(XorLeft(XorRight(x, 12), 25), XorLeft(XorRight(y, 12), 25), 27);
      LeftInjective(XorRight(x, 12), XorRight(y, 12), 25);
      RightInjective(x, y, 12);
    }
  }

  function Zero(): (x: seq<bool>)
    ensures Word(x)
  {
    seq(64, i => false)
  }

  lemma ZeroIsStuck()
    ensures NextState(Zero()) == Zero()
  {
    assert XorRight(Zero(), 12) == Zero();
    assert XorLeft(Zero(), 25) == Zero();
    assert XorRight(Zero(), 27) == Zero();
  }

  function StateAfter(seed: seq<bool>, draws: nat): (r: seq<bool>)
    requires Word(seed)
    ensures Word(r)
  {
    if draws == 0 then seed else NextState(StateAfter(seed, draws - 1))
  }

  /** Why a zero seed is refused: it is the only seed from which the state is ever zero,
      and from it every draw is the same. */
  lemma {:induction false} ZeroIffZeroSeed(seed: seq<bool>, draws: nat)
    requires Word(seed)
    ensures StateAfter(seed, draws) == Zero() <==> seed == Zero()
  {
    hide NextState, Zero;
    if draws > 0 {
      ZeroIffZeroSeed(seed, draws - 1);
      NextInjective(StateAfter(seed, draws - 1), Zero());
      ZeroIsStuck();
    }
  }

  // ----- what one step does to each bit

  function Xor(x: seq<bool>, y: seq<bool>): (r: seq<bool>)
    requires Word(x) && Word(y)
    ensures Word(r)
  {
    seq(64, i requires 0 <= i < 64 => x[i] != y[i])
  }

  /** The word with the bits of `on` set. */
  function Bits(on: set<nat>): (x: seq<bool>)
    ensures Word(x)
  {
    seq(64, i requires 0 <= i < 64 => i in on)
  }

  lemma RightAdds(x: seq<bool>, y: seq<bool>, k: nat)
    requires Word(x) && Word(y)
    ensures XorRight(Xor(x, y), k) == Xor(XorRight(x, k), XorRight(y, k))
  {
  }

  lemma LeftAdds(x: seq<bool>, y: seq<bool>, k: nat)
    requires Word(x) && Word(y)
    ensures XorLeft(Xor(x, y), k) == Xor(XorLeft(x, k), XorLeft(y, k))
  {
  }

  /** A step is linear: the successor of any state is the sum of the successors of its bits. */
  lemma NextAdds(x: seq<bool>, y: seq<bool>)
    requires Word(x) && Word(y)
    ensures NextState(Xor(x, y)) == Xor(NextState(x), NextState(y))
  {
    hide XorRight, XorLeft, Xor;
    RightAdds(x, y, 12);
    LeftAdds(XorRight(x, 12), XorRight(y, 12), 25);
    RightAdds(XorLeft(XorRight(x, 12), 25), XorLeft(XorRight(y, 12), 25), 27);
  }

  /** And the bits at both ends fix the three distances: the highest meets only the right
      shifts, the lowest only the left one. */
  lemma StepOfEndBits()
    ensures NextState(Bits({63})) == Bits({63, 51, 36, 24})
    ensures NextState(Bits({0})) == Bits({0, 25})
  {
    assert XorRight(Bits({63}), 12) == Bits({63, 51});
    assert XorLeft(Bits({63, 51}), 25) == Bits({63, 51});
    assert XorRight(Bits({63, 51}), 27) == Bits({63, 51, 36, 24});
    assert XorRight(Bits({0}), 12) == Bits({0});
    assert XorLeft(Bits({0}), 25) == Bits({0, 25});
    assert XorRight(Bits({0, 25}), 27) == Bits({0, 25});
  }

  lemma {:induction false} NumberBelow(x: seq<bool>)
    ensures Number(x) < Power(|x|)
  {
    if x != [] { NumberBelow(x[1..]); }
  }

  function Power(n: nat): nat { if n == 0 then 1 else 2 * Power(n - 1) }

  /** As numbers, dropping the low `k` bits is dividing by 2^k, rounded down. */
  lemma {:induction false} DroppingDivides(x: seq<bool>, k: nat)
    requires k <= |x|
    ensures Number(x) == Number(x[k..]) * Power(k) + Number(x[..k]) && Number(x[..k]) < Power(k)
  {
    NumberBelow(x[..k]);
    if k > 0 {
      DroppingDivides(x[1..], k - 1);
      assert x[1..][k - 1..] == x[k..] && x[..k][1..] == x[1..][..k - 1] && x[..k][0] == x[0];
      Doubled(Number(x[k..]), Power(k - 1));
    }
  }

  lemma Doubled(n: nat, p: nat)
    ensures 2 * (n * p) == n * (2 * p)
  {
  }
}
