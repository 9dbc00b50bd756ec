/**
 * The fixed-width flag set `std::bitset<16>` that a raw digit uses as its
 * flag type, reduced to what a digit does with it: build it from an
 * `unsigned long long` mask and test single positions.
 */
module Bitset16 {

  /** A `std::bitset<16>`; position `i` is the bit of weight 2^i. */
  type Bits = bv16

  /** Number of positions of the set; every `Position` is below it. */
  const Width: nat := 16

  /** A position of the set: `bv4` holds exactly the sixteen valid positions. */
  type Position = bv4

  /** `unsigned long long`, the argument type of the bitset's value constructor. */
  type ULongLong = bv64

  lemma PositionBelowWidth(i: Position)
    ensures i as int < Width
  {
  }

  /** Every position, listed so that sets of positions are finite. */
  const AllPositions: set<Position> :=
    {0, 1, 2, 3, 4, 5, 6, 7, 8, 9, 10, 11, 12, 13, 14, 15}

  lemma AllPositionsComplete(i: Position)
    ensures i in AllPositions
  {
  }

  /** The set with only position `i` set. */
  function Mask(i: Position): Bits
  {
    1 << i
  }

  /** `std::bitset::test`: whether position `i` is set. */
  predicate Test(b: Bits, i: Position)
  {
    b & Mask(i) != 0
  }

  /** The abstract view of a flag set: the positions that are set. */
  function Positions(b: Bits): set<Position>
  {
    set i | i in AllPositions && Test(b, i)
  }

  lemma InPositions(b: Bits, i: Position)
    ensures i in Positions(b) <==> Test(b, i)
  {
    AllPositionsComplete(i);
  }

  /** Two flag sets that agree on all sixteen positions are equal. */
  lemma AgreeEverywhere(b: Bits, c: Bits)
    requires Test(b, 0) == Test(c, 0) && Test(b, 1) == Test(c, 1)
    requires Test(b, 2) == Test(c, 2) && Test(b, 3) == Test(c, 3)
    requires Test(b, 4) == Test(c, 4) && Test(b, 5) == Test(c, 5)
    requires Test(b, 6) == Test(c, 6) && Test(b, 7) == Test(c, 7)
    requires Test(b, 8) == Test(c, 8) && Test(b, 9) == Test(c, 9)
    requires Test(b, 10) == Test(c, 10) && Test(b, 11) == Test(c, 11)
    requires Test(b, 12) == Test(c, 12) && Test(b, 13) == Test(c, 13)
    requires Test(b, 14) == Test(c, 14) && Test(b, 15) == Test(c, 15)
    ensures b == c
  {
  }

  /**
   * A flag set is determined by the positions it has set, so `Positions`
   * loses nothing: equal views mean equal sets.
   */
  lemma PositionsDetermineBits(b: Bits, c: Bits)
    requires Positions(b) == Positions(c)
    ensures b == c
  {
    forall i: Position
      ensures Test(b, i) == Test(c, i)
    {
      InPositions(b, i);
      InPositions(c, i);
    }
    AgreeEverywhere(b, c);
  }

  /**
   * `std::bitset<16>(unsigned long long v)`: position `i` is set exactly
   * when bit `i` of `v` is; the bits of `v` above position 15 are dropped.
   */
  function FromULongLong(v: ULongLong): (b: Bits)
    ensures forall i: Position :: Test(b, i) <==> v & (1 << i) != 0
  {
    (v & 0xFFFF) as bv16
  }

  /** Position `i` of the flags built from `a | b` and from `a & ~b`. */
  lemma MaskOperationsAt(a: ULongLong, b: ULongLong, i: Position)
    ensures Test(FromULongLong(a | b), i) <==> Test(FromULongLong(a), i) || Test(FromULongLong(b), i)
    ensures Test(FromULongLong(a & !b), i) <==> Test(FromULongLong(a), i) && !Test(FromULongLong(b), i)
  {
    assert (a | b) & (1 << i) != 0 <==> a & (1 << i) != 0 || b & (1 << i) != 0;
    assert (a & !b) & (1 << i) != 0 <==> a & (1 << i) != 0 && b & (1 << i) == 0;
  }

  /**
   * Building flags from `a | b` sets the positions of either mask, and from
   * `a & ~b` the positions of `a` that `b` does not set.
   */
  lemma MaskOperationsAsSets(a: ULongLong, b: ULongLong)
    ensures Positions(FromULongLong(a | b)) == Positions(FromULongLong(a)) + Positions(FromULongLong(b))
    ensures Positions(FromULongLong(a & !b)) == Positions(FromULongLong(a)) - Positions(FromULongLong(b))
  {
    var union, difference := FromULongLong(a | b), FromULongLong(a & !b);
    var fa, fb := FromULongLong(a), FromULongLong(b);
    forall i: Position
      ensures i in Positions(union) <==> i in Positions(fa) || i in Positions(fb)
      ensures i in Positions(difference) <==> i in Positions(fa) && i !in Positions(fb)
    {
      MaskOperationsAt(a, b, i);
      InPositions(union, i);
      InPositions(difference, i);
      InPositions(fa, i);
      InPositions(fb, i);
    }
  }
}
