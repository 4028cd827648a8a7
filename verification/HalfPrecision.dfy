/** The value a non-negative number keeps when it is stored as IEEE-754 binary16 by the
    host encoder, and what that rounding means for the units of a superblock. */
module HalfPrecision {
  import opened Q4KBound
  import opened Q4KError

  function Pow2(n: int): (p: real)
    ensures p > 0.0
    decreases if n < 0 then -n else n
  {
    if n == 0 then 1.0 else if n > 0 then 2.0 * Pow2(n - 1) else Pow2(n + 1) / 2.0
  }

  /** To the nearest integer, ties to even. */
  function RoundEven(x: real): (n: int)
    ensures Abs(x - n as real) <= 0.5
  {
    var f := x.Floor;
    var rest := x - f as real;
    if rest < 0.5 then f else if rest > 0.5 then f + 1 else if f % 2 == 0 then f else f + 1
  }

  /** The binary exponent, looked for from `e` down to the smallest normal one. */
  function Exponent(x: real, e: int): (r: int)
    requires -14 <= e && x < Pow2(e + 1)
    ensures -14 <= r <= e && x < Pow2(r + 1)
    ensures r > -14 ==> Pow2(r) <= x
    decreases e + 14
  {
    if e == -14 || Pow2(e) <= x then e else Exponent(x, e - 1)
  }

  datatype Half = Finite(value: real) | Infinite

  /** `x` rounded to a whole number of `unit`s. */
  function ToUnit(x: real, unit: real): (v: real)
    requires unit > 0.0
    ensures Abs(v - x) <= unit / 2.0
  {
    RoundedTimes(x, unit, RoundEven(x / unit));
    unit * RoundEven(x / unit) as real
  }

  /** Rounding to eleven bits carries into the next power of two. */
  predicate Carries(x: real)
    requires 0.0 <= x < Pow2(16)
  {
    ToUnit(x, Pow2(Exponent(x, 15) - 10)) >= Pow2(Exponent(x, 15) + 1)
  }

  /** After a carry the exponent field, already incremented, is or-ed with the bit carried
      out of the significand: an even field comes out one higher. */
  function AfterCarry(field: int): Half {
    var stored := if field % 2 == 0 then field + 1 else field;
    if field >= 31 || stored == 31 then Infinite else Finite(Pow2(stored - 15))
  }

  /** Magnitudes below the smallest subnormal flush to zero, subnormals round to whole
      quanta, normals to eleven significant bits, and overflow saturates. */
  function ToHalf(x: real): Half
    requires x >= 0.0
  {
    if x >= Pow2(16) then Infinite
    else if x < Pow2(-24) then Finite(0.0)
    else if x < Pow2(-14) then Finite(ToUnit(x, Pow2(-24)))
    else if !Carries(x) then Finite(ToUnit(x, Pow2(Exponent(x, 15) - 10)))
    else AfterCarry(Exponent(x, 15) + 16)
  }

  /** The value read back.  An infinite one is no real: what stands for it is used only
      where `FiniteUnits` rules it out. */
  function HalfOf(x: real): real {
    if x < 0.0 then 0.0 else match ToHalf(x) case Finite(v) => v case Infinite => 0.0
  }

  lemma Doubles(n: int)
    ensures Pow2(n + 1) == 2.0 * Pow2(n)
  {
  }

  lemma TenDoublings(n: int)
    ensures Pow2(n) == 1024.0 * Pow2(n - 10)
  {
    Doubles(n - 10); Doubles(n - 9); Doubles(n - 8); Doubles(n - 7); Doubles(n - 6);
    Doubles(n - 5); Doubles(n - 4); Doubles(n - 3); Doubles(n - 2); Doubles(n - 1);
  }

  lemma {:induction false} Grows(m: int, n: int)
    requires m <= n
    ensures Pow2(m) <= Pow2(n)
    decreases n - m
  {
    if m < n {
      Grows(m, n - 1);
      Doubles(n - 1);
    }
  }

  /** The exponent found is the one the number has. */
  lemma {:induction false} ExponentIs(x: real, e: int, from: int)
    requires -14 <= e <= from && Pow2(e) <= x < Pow2(e + 1)
    ensures x < Pow2(from + 1) && Exponent(x, from) == e
    decreases from - e
  {
    Grows(e + 1, from + 1);
    if e < from {
      Grows(e + 1, from);
      ExponentIs(x, e, from - 1);
    }
  }

  /** Rounding to a significant bit below `2^(e+1)` stops there. */
  lemma CarryIsExact(x: real, e: int)
    requires -14 <= e <= 15 && Pow2(e) <= x < Pow2(e + 1)
    ensures ToUnit(x, Pow2(e - 10)) <= Pow2(e + 1)
  {
    TenDoublings(e);
    Doubles(e);
    var unit := Pow2(e - 10);
    hide Pow2;
    var n := RoundEven(x / unit);
    assert x / unit < 2048.0 by { Quotient(x, unit, 2048.0); }
    assert n <= 2048;
    Monotone(n as real, 2048.0, unit, n as real * unit, 2048.0 * unit);
  }

  lemma Quotient(x: real, unit: real, k: real)
    requires unit > 0.0 && x < k * unit
    ensures x / unit < k
  {
    var q := x / unit;
    assert q * unit == x;
    if q >= k { Monotone(k, q, unit, k * unit, q * unit); }
  }

  /** The unit of the last of eleven bits. */
  lemma UnitOf(x: real, e: int)
    requires Pow2(-14) <= x < Pow2(16) && e == Exponent(x, 15)
    ensures Pow2(e) <= x < Pow2(e + 1) && Pow2(e - 10) / 2.0 <= x / 2048.0
    ensures Abs(ToUnit(x, Pow2(e - 10)) - x) <= x / 2048.0 && ToUnit(x, Pow2(e - 10)) <= Pow2(e + 1)
  {
    ExponentLow(x);
    TenDoublings(e);
    CarryIsExact(x, e);
    hide Pow2, ToUnit, Exponent;
  }

  lemma HalfWhenCarried(x: real, e: int)
    requires Pow2(-14) <= x < Pow2(16) && e == Exponent(x, 15) && Carries(x)
    ensures ToHalf(x) == if e >= 14 then Infinite else Finite(Pow2(if e % 2 == 0 then e + 2 else e + 1))
    ensures ToUnit(x, Pow2(e - 10)) == Pow2(e + 1)
  {
    UnitOf(x, e);
    CarriedField(x, e);
    hide Pow2, ToUnit, Exponent, ToHalf;
  }

  lemma CarriedField(x: real, e: int)
    requires Pow2(-14) <= x < Pow2(16) && e == Exponent(x, 15) && Carries(x)
    ensures ToHalf(x) == if e >= 14 then Infinite else Finite(Pow2(if e % 2 == 0 then e + 2 else e + 1))
  {
    Grows(-24, -14);
    FieldIs(e);
    hide Pow2, ToUnit, Exponent, Carries, AfterCarry;
  }

  lemma FieldIs(e: int)
    requires e <= 15
    ensures AfterCarry(e + 16) == if e >= 14 then Infinite else Finite(Pow2(if e % 2 == 0 then e + 2 else e + 1))
  {
    hide Pow2;
    assert (e + 16) % 2 == e % 2;
  }

  lemma HalfWhenNot(x: real, e: int)
    requires Pow2(-14) <= x < Pow2(16) && e == Exponent(x, 15) && !Carries(x)
    ensures ToHalf(x) == Finite(ToUnit(x, Pow2(e - 10)))
  {
    Grows(-24, -14);
    hide Pow2, ToUnit, Exponent;
  }

  /** A number in the normal range keeps eleven bits, its relative error at most one part in
      2048, exactly when it is not rounded up to a power of two from an even exponent or
      from the largest one.  Rounded up from an even exponent it is stored as twice that
      power, or as infinity. */
  lemma NormalKeepsElevenBitsIff(x: real)
    requires Pow2(-14) <= x < Pow2(16)
    ensures var e := Exponent(x, 15);
      && (ToHalf(x).Finite? && Abs(ToHalf(x).value - x) <= x / 2048.0 <==> !(Carries(x) && (e % 2 == 0 || e == 15)))
      && (Carries(x) && e % 2 == 0 ==> ToHalf(x) == if e == 14 then Infinite else Finite(Pow2(e + 2)))
  {
    var e := Exponent(x, 15);
    UnitOf(x, e);
    if Carries(x) {
      HalfWhenCarried(x, e);
      Doubles(e + 1);
    } else {
      HalfWhenNot(x, e);
    }
    hide Pow2, ToUnit, Exponent, ToHalf, Carries;
  }

  /** In the normal range the exponent found is exact below as well. */
  lemma ExponentLow(x: real)
    requires Pow2(-14) <= x < Pow2(16)
    ensures Pow2(Exponent(x, 15)) <= x
  {
    hide Pow2;
  }

  /** The number half a unit below two, documented to round to two, is stored as four. */
  lemma CarryDoubles()
    ensures 2.0 - 1.0 / 2048.0 < Pow2(16) && ToHalf(2.0 - 1.0 / 2048.0) == Finite(4.0)
  {
    var x := 2.0 - 1.0 / 2048.0;
    assert Pow2(0) == 1.0 && Pow2(1) == 2.0 && Pow2(2) == 4.0;
    ExponentIs(x, 0, 15);
    Grows(-24, 0);
    Grows(-14, 0);
    TenDoublings(0);
    assert Pow2(-10) == 1.0 / 1024.0;
    hide Pow2;
    RoundsUp(x);
  }

  lemma RoundsUp(x: real)
    requires x == 2.0 - 1.0 / 2048.0
    ensures ToUnit(x, 1.0 / 1024.0) == 2.0
  {
    assert x / (1.0 / 1024.0) == 2047.5;
    assert (2047.5).Floor == 2047;
  }

  /** A subnormal is stored within half a quantum, except just below the smallest one,
      where the encoder drops what rounding to nearest would keep. */
  lemma SubnormalNearestIff(x: real)
    requires 0.0 <= x < Pow2(-14)
    ensures ToHalf(x).Finite?
    ensures Abs(ToHalf(x).value - x) <= Pow2(-24) / 2.0 <==> !(Pow2(-25) < x < Pow2(-24))
  {
    Grows(-14, 16);
    Doubles(-25);
    hide Pow2, ToUnit;
  }

  /** What is read back is never negative, and zero exactly below the smallest subnormal. */
  lemma LostIffTiny(x: real)
    requires x >= 0.0 && ToHalf(x).Finite?
    ensures HalfOf(x) == ToHalf(x).value >= 0.0 && (HalfOf(x) == 0.0 <==> x < Pow2(-24))
  {
    Grows(-24, -14);
    if Pow2(-14) <= x {
      NormalNotLost(x);
    } else {
      Doubles(-25);
      SubnormalNearestIff(x);
      hide Pow2, ToUnit, Carries;
    }
    hide Pow2, ToUnit, Carries, Exponent;
  }

  lemma NormalNotLost(x: real)
    requires Pow2(-14) <= x && ToHalf(x).Finite?
    ensures ToHalf(x).value > 0.0
  {
    var e := Exponent(x, 15);
    UnitOf(x, e);
    if Carries(x) { HalfWhenCarried(x, e); } else { HalfWhenNot(x, e); }
    hide ToUnit, Exponent, Carries, ToHalf;
  }

  lemma HalfNonNegative()
    ensures forall x :: HalfOf(x) >= 0.0
  {
    forall x ensures HalfOf(x) >= 0.0 {
      if x >= 0.0 && ToHalf(x).Finite? { LostIffTiny(x); }
      hide ToHalf;
    }
  }

  /** The units of the superblock are in range of the format. */
  predicate FiniteUnits(input: seq<real>)
    requires |input| == SUPER_BLOCK
  {
    ToHalf(Model(MaxSpread(input, 8))).Finite? && ToHalf(Model(MaxDrop(input, 8))).Finite?
  }

  lemma UnitsAre(q: Codes, input: seq<real>)
    requires |input| == SUPER_BLOCK && Encodes(q, input, HalfOf) && FiniteUnits(input)
    ensures q.d == HalfOf(Model(MaxSpread(input, 8))) >= 0.0 && q.dmin == HalfOf(Model(MaxDrop(input, 8))) >= 0.0
    ensures q.d == 0.0 <==> Model(MaxSpread(input, 8)) < Pow2(-24)
    ensures q.dmin == 0.0 <==> Model(MaxDrop(input, 8)) < Pow2(-24)
  {
    LostIffTiny(Model(MaxSpread(input, 8)));
    LostIffTiny(Model(MaxDrop(input, 8)));
    hide HalfOf, ToHalf, Pow2, MaxSpread, MaxDrop;
  }

  /** With the encoder's own half-precision units: a sub-block decodes within the bound
      exactly when the range that was stored takes in its extremes. */
  lemma HalfUnitsBound(q: Codes, input: seq<real>, j: nat)
    requires |input| == SUPER_BLOCK && Encodes(q, input, HalfOf) && FiniteUnits(input) && j < SUB_BLOCKS
    ensures Shaped(q) && (AccurateSub(q, input, j) <==> Covers(input, HalfOf, j))
  {
    UnitsAre(q, input);
    ReconstructionBound(q, input, HalfOf, j);
  }

  /** A superblock whose units are both below the smallest subnormal decodes to zeros, within
      the bound only if it was all zeros. */
  lemma TinyUnitsLoseBlock(q: Codes, input: seq<real>)
    requires |input| == SUPER_BLOCK && Encodes(q, input, HalfOf) && FiniteUnits(input)
    requires Model(MaxSpread(input, 8)) < Pow2(-24) && Model(MaxDrop(input, 8)) < Pow2(-24)
    ensures forall col: nat :: col < SUPER_BLOCK ==>
      Shaped(q) && Decoded(q, col) == 0.0 && (Accurate(q, input, col) <==> input[col] == 0.0)
  {
    UnitsAre(q, input);
    hide Encodes, HalfOf, ToHalf, MaxSpread, MaxDrop, Pow2;
    forall col: nat | col < SUPER_BLOCK
      ensures Shaped(q) && Decoded(q, col) == 0.0 && (Accurate(q, input, col) <==> input[col] == 0.0)
    {
      EncodedColumn(q, input, HalfOf, col);
      ZeroTimes(q, col);
    }
  }

  /** A unit stored closely enough for every superblock: zero, or from 64 quanta up. */
  predicate Storable(unit: real) {
    unit == 0.0 || (unit >= Pow2(-18) && ToHalf(unit).Finite?)
  }

  lemma SixtyFourQuanta()
    ensures Pow2(-18) == 64.0 * Pow2(-24)
  {
    Doubles(-24); Doubles(-23); Doubles(-22); Doubles(-21); Doubles(-20); Doubles(-19);
  }

  lemma NormalIsClose(unit: real)
    requires Pow2(-14) <= unit < Pow2(16) && ToHalf(unit).Finite?
    ensures 2047.0 * unit <= 2048.0 * ToHalf(unit).value
  {
    NormalKeepsElevenBitsIff(unit);
    var e := Exponent(unit, 15);
    UnitOf(unit, e);
    Doubles(e + 1);
    hide Pow2, ToUnit, ToHalf, Carries, Exponent;
  }

  lemma StorableIsClose(unit: real)
    requires Storable(unit)
    ensures ToHalf(unit).Finite? && HalfOf(unit) >= 0.0 && 127.0 * unit <= 128.0 * HalfOf(unit)
  {
    Grows(-24, 16);
    if unit > 0.0 {
      SixtyFourQuanta();
      Doubles(-25);
      LostIffTiny(unit);
      if unit < Pow2(-14) {
        SubnormalNearestIff(unit);
      } else {
        NormalIsClose(unit);
      }
    }
    hide Exponent, Pow2, ToUnit, Carries;
  }

  /** Where both units are zero or at least 64 quanta, and finite, every sub-block of any
      content decodes within the bound. */
  lemma StorableUnitsBound(q: Codes, input: seq<real>, j: nat)
    requires |input| == SUPER_BLOCK && Encodes(q, input, HalfOf) && j < SUB_BLOCKS
    requires Storable(Model(MaxSpread(input, 8))) && Storable(Model(MaxDrop(input, 8)))
    ensures FiniteUnits(input) && Covers(input, HalfOf, j) && Shaped(q) && AccurateSub(q, input, j)
  {
    StorableIsClose(Model(MaxSpread(input, 8)));
    StorableIsClose(Model(MaxDrop(input, 8)));
    hide AccurateSub, Covers, Encodes, HalfOf, ToHalf, Storable, Resolves;
    UnitsAre(q, input);
    CloseUnitsResolve(input, q.d, q.dmin);
    ResolvedCovers(q, input, HalfOf, j);
    HalfUnitsBound(q, input, j);
  }

  /** One value in an otherwise empty superblock. */
  function Peak(v: real): (s: seq<real>)
    ensures |s| == SUPER_BLOCK
  {
    seq(SUPER_BLOCK, i => if i == 0 then v else 0.0)
  }

  lemma PeakSpreads(v: real)
    requires v > 0.0
    ensures Highest(Sub(Peak(v), 0)) == v && Spread(Peak(v), 0) == v / 15.0
    ensures MaxSpread(Peak(v), 8) == v / 15.0 && MaxDrop(Peak(v), 8) == 0.0
    ensures Low(Peak(v), 0) == 0.0
  {
    forall j: nat | j < SUB_BLOCKS
      ensures Low(Peak(v), j) == 0.0 && Highest(Sub(Peak(v), j)) == if j == 0 then v else 0.0
    {
      var top := HighestAttained(Sub(Peak(v), j));
      var bottom := LowestAttained(Sub(Peak(v), j));
      assert Sub(Peak(v), j)[0] == Peak(v)[j * SUB_SIZE];
      assert Sub(Peak(v), j)[1] == Peak(v)[j * SUB_SIZE + 1] == 0.0;
    }
    PeakMaxima(v, 8);
  }

  lemma {:induction false} PeakMaxima(v: real, n: nat)
    requires v > 0.0 && 1 <= n <= SUB_BLOCKS
    requires forall j: nat :: j < SUB_BLOCKS ==>
      Low(Peak(v), j) == 0.0 && Highest(Sub(Peak(v), j)) == if j == 0 then v else 0.0
    ensures MaxSpread(Peak(v), n) == v / 15.0 && MaxDrop(Peak(v), n) == 0.0
  {
    hide Peak, Low, Highest, Sub;
    assert Spread(Peak(v), n - 1) == if n == 1 then v / 15.0 else 0.0;
    assert Low(Peak(v), n - 1) == 0.0;
    if n > 1 {
      PeakMaxima(v, n - 1);
    } else {
      assert MaxSpread(Peak(v), 0) == 0.0 && MaxDrop(Peak(v), 0) == 0.0;
    }
  }

  /** A unit of 1.4 quanta is stored as one, and the largest code falls short: a superblock
      of zeros and one value of 1323 quanta does not decode within the bound. */
  lemma SmallUnitFails()
    ensures var input := Peak(1323.0 * Pow2(-24));
      FiniteUnits(input) && !Covers(input, HalfOf, 0)
  {
    hide *;
    var unit := Pow2(-24);
    var v := 1323.0 * unit;
    SmallModelHalf(1.4 * unit);
    PeakUnits(v, unit);
    PeakFinite(v, unit);
    PeakFalls(v, unit);
  }

  lemma PeakUnits(v: real, unit: real)
    requires unit > 0.0 && v == 1323.0 * unit
    ensures Model(MaxSpread(Peak(v), 8)) == 1.4 * unit && Model(MaxDrop(Peak(v), 8)) == 0.0
    ensures Highest(Sub(Peak(v), 0)) == v
  {
    PeakSpreads(v);
    hide MaxSpread, MaxDrop, Highest, Lowest, Low, Spread, Sub, Peak;
  }

  lemma PeakFinite(v: real, unit: real)
    requires Model(MaxSpread(Peak(v), 8)) == 1.4 * unit && Model(MaxDrop(Peak(v), 8)) == 0.0
    requires unit > 0.0 && ToHalf(1.4 * unit).Finite? && ToHalf(0.0).Finite?
    ensures FiniteUnits(Peak(v))
  {
    hide MaxSpread, MaxDrop, Model, ToHalf, Peak, Pow2;
  }

  lemma SmallModelHalf(x: real)
    requires x == 1.4 * Pow2(-24)
    ensures ToHalf(x) == Finite(Pow2(-24)) && HalfOf(x) == Pow2(-24) && HalfOf(0.0) == 0.0 && ToHalf(0.0) == Finite(0.0)
  {
    Grows(-14, 16);
    Grows(-24, -14);
    SixtyFourQuanta();
    Grows(-18, -14);
    RoundsDown(x, Pow2(-24));
    hide Pow2, ToUnit;
  }

  /** With a unit of `v / 1323` the range reaches 945 units, and 31.5 more is the bound. */
  lemma PeakFalls(v: real, unit: real)
    requires unit > 0.0 && v == 1323.0 * unit
    requires HalfOf(Model(MaxSpread(Peak(v), 8))) == unit && HalfOf(Model(MaxDrop(Peak(v), 8))) == 0.0
    requires Highest(Sub(Peak(v), 0)) == v
    ensures !Covers(Peak(v), HalfOf, 0)
  {
    hide MaxSpread, MaxDrop, Peak, Highest, Lowest, HalfOf, Spread, Low, Sub, Model, SixBits;
    var c := SixBits(Spread(Peak(v), 0), unit);
    DecodedInRangeOf(unit, c);
    assert StoredStep(Peak(v), HalfOf, 0) == unit * c as real;
    assert StoredBase(Peak(v), HalfOf, 0) == 0.0;
    hide StoredStep, StoredBase;
  }

  lemma DecodedInRangeOf(unit: real, c: nat)
    requires unit > 0.0 && c <= 63
    ensures 0.0 <= unit * c as real <= 63.0 * unit
  {
    Monotone(0.0, c as real, unit, 0.0, unit * c as real);
    Monotone(c as real, 63.0, unit, unit * c as real, 63.0 * unit);
  }

  lemma RoundsDown(x: real, unit: real)
    requires unit > 0.0 && x == 1.4 * unit
    ensures ToUnit(x, unit) == unit
  {
    assert x / unit == 1.4;
    assert (1.4).Floor == 1;
  }
}
