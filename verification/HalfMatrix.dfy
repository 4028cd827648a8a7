/** Packing and decoding whole matrices with the half-precision units the encoder itself
    stores. */
module HalfMatrix {
  import opened HalfPrecision
  import opened Q4KBound
  import opened Q4KEncoder
  import opened Q4KError
  import opened Q4KLayout
  import opened ReferenceMath

  /** No unit of the matrix overflows the format. */
  predicate AllFinite(values: seq<real>) {
    forall b: nat :: b < |values| / SUPER_BLOCK ==> FiniteUnits(BlockInput(values, b))
  }

  /** Every unit of the matrix is stored closely enough for every superblock. */
  predicate AllStorable(values: seq<real>) {
    forall b: nat :: b < |values| / SUPER_BLOCK ==> StorableAt(values, b)
  }

  predicate StorableAt(values: seq<real>, b: nat)
    requires b < |values| / SUPER_BLOCK
  {
    Storable(Model(MaxSpread(BlockInput(values, b), 8))) && Storable(Model(MaxDrop(BlockInput(values, b), 8)))
  }

  lemma StorableAtResolves(values: seq<real>, b: nat)
    requires b < |values| / SUPER_BLOCK && StorableAt(values, b)
    ensures FiniteUnits(BlockInput(values, b)) && ResolvesAt(values, HalfOf, b)
  {
    var input := BlockInput(values, b);
    StorableIsClose(Model(MaxSpread(input, 8)));
    StorableIsClose(Model(MaxDrop(input, 8)));
    hide HalfOf, ToHalf, Storable, Model, Resolves, MaxSpread, MaxDrop, BlockInput;
    CloseUnitsResolve(input, HalfOf(Model(MaxSpread(input, 8))), HalfOf(Model(MaxDrop(input, 8))));
  }

  lemma StorableResolves(values: seq<real>)
    requires AllStorable(values)
    ensures AllFinite(values) && AllResolve(values, HalfOf)
  {
    hide StorableAt, ResolvesAt, FiniteUnits, BlockInput;
    forall b: nat | b < |values| / SUPER_BLOCK
      ensures FiniteUnits(BlockInput(values, b)) && ResolvesAt(values, HalfOf, b)
    {
      StorableAtResolves(values, b);
    }
  }

  /** A matrix packed in the encoder's own half precision and decoded row by row: where its
      units are finite a sub-block is within the bound exactly when the range stored for it
      takes in its extremes, and where they are storable every sub-block is. */
  method PackAndDecodeHalf(values: seq<real>, rows: nat, cols: nat, row: nat)
    returns (blocks: seq<Block>, output: array<real>)
    requires rows != 0 && cols != 0 && cols % SUPER_BLOCK == 0 && |values| == rows * cols && row < rows
    ensures output.Length == cols
    ensures AllFinite(values) ==> forall g: nat :: g < cols / SUB_SIZE ==>
      (SubWithin(values, cols, blocks, row, output[..], g) <==> CoversAt(values, cols, HalfOf, row, g))
    ensures AllStorable(values) ==> forall g: nat :: g < cols / SUB_SIZE ==>
      SubWithin(values, cols, blocks, row, output[..], g)
  {
    hide AllResolve, SubWithin, CoversAt, AllFinite, AllStorable;
    HalfNonNegative();
    blocks, output := PackAndDecode(values, rows, cols, row, HalfOf);
    if AllStorable(values) { StorableResolves(values); }
  }
}
