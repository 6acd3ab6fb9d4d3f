/** Bit-level view of one byte of an identifier bitmap: bit `b` of a byte
    is the byte ANDed with `1 << b`, least significant bit first. */
module Bitmap {

  /** A byte whose eight identifiers are all in use. */
  const Full: bv8 := 0xff

  /** `1 << b`, written out bit by bit so that no integer is converted to a
      bit-vector. */
  function Bit(b: nat): bv8
    requires b < 8
  {
    match b
    case 0 => 0x01
    case 1 => 0x02
    case 2 => 0x04
    case 3 => 0x08
    case 4 => 0x10
    case 5 => 0x20
    case 6 => 0x40
    case _ => 0x80
  }

  predicate IsSet(x: bv8, b: nat)
    requires b < 8
  {
    x & Bit(b) != 0
  }

  /** A byte that is not all ones has a clear bit. */
  lemma NotFullHasClearBit(x: bv8)
    requires x != Full
    ensures exists j :: 0 <= j < 8 && !IsSet(x, j)
  {
    assert !IsSet(x, 0) || !IsSet(x, 1) || !IsSet(x, 2) || !IsSet(x, 3)
        || !IsSet(x, 4) || !IsSet(x, 5) || !IsSet(x, 6) || !IsSet(x, 7);
  }

  /** The lowest clear bit at or above `k`. */
  function LowestClearFrom(x: bv8, k: nat): (b: nat)
    requires k < 8 && exists j :: k <= j < 8 && !IsSet(x, j)
    ensures k <= b < 8 && !IsSet(x, b)
    ensures forall j :: k <= j < b ==> IsSet(x, j)
    decreases 8 - k
  {
    if !IsSet(x, k) then k else LowestClearFrom(x, k + 1)
  }

  /** The lowest clear bit of a byte that is not full: the bit the
      allocator's inner `while` loop stops at. */
  function LowestClear(x: bv8): (b: nat)
    requires x != Full
    ensures b < 8 && !IsSet(x, b)
    ensures forall j :: 0 <= j < b ==> IsSet(x, j)
  {
    NotFullHasClearBit(x);
    LowestClearFrom(x, 0)
  }

  /** `x | (1 << b)`: the byte after `|=` of bit `b`. */
  function SetBit(x: bv8, b: nat): bv8
    requires b < 8
  {
    x | Bit(b)
  }

  /** `x - (1 << b)`: the byte after `-=` of the value of bit `b`. */
  function SubBit(x: bv8, b: nat): bv8
    requires b < 8
  {
    x - Bit(b)
  }

  /** Setting bit `b` with `|=` sets that bit and keeps every other one. */
  lemma OrBit(x: bv8, b: nat, c: nat)
    requires b < 8 && c < 8
    ensures IsSet(SetBit(x, b), c) <==> (c == b || IsSet(x, c))
  {
  }

  /** Subtracting the value of a set bit clears that bit and keeps every other one. */
  lemma SubSetBit(x: bv8, b: nat, c: nat)
    requires b < 8 && c < 8 && IsSet(x, b)
    ensures IsSet(SubBit(x, b), c) <==> (c != b && IsSet(x, c))
  {
  }

  /** Subtracting the value of a clear bit borrows: that bit becomes set
      and the byte changes. */
  lemma SubClearBit(x: bv8, b: nat)
    requires b < 8 && !IsSet(x, b)
    ensures IsSet(SubBit(x, b), b)
    ensures SubBit(x, b) != x
  {
  }
}
