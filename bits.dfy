/*
 * Bit-level vocabulary of the engine: a bitboard is a 64-bit word whose bit n
 * stands for square n; square n lies on row n / 8 and column n % 8.
 * Squares are `bv8`, the width the engine uses for square indices.
 */
module Bits {

  /** Square `d` is a member of bitboard `x`. */
  predicate Has(x: bv64, d: bv8)
    requires d < 64
  {
    (x >> d) & 1 == 1
  }

  function Row(d: bv8): bv8 { d / 8 }

  function Col(d: bv8): bv8 { d % 8 }

  /** `get_nth_bit`: the n-th bit of `num` as a 0/1 byte. */
  function GetNthBit(num: bv64, n: bv8): (r: bv8)
    requires n < 64
    ensures r == 0 || r == 1
    ensures r == 1 <==> Has(num, n)
  {
    ((num >> n) & 1) as bv8
  }

  /** `ClearRank(k)`: every square except those of row k. */
  function ClearRank(k: bv8): bv64
    requires k < 8
  {
    match k
    case 0 => 18446744073709551360
    case 1 => 18446744073709486335
    case 2 => 18446744073692839935
    case 3 => 18446744069431361535
    case 4 => 18446742978492891135
    case 5 => 18446463698244468735
    case 6 => 18374967954648334335
    case 7 => 72057594037927935
  }

  /** `ClearFile(k)`: every square except those of column 7 - k. */
  function ClearFile(k: bv8): bv64
    requires k < 8
  {
    match k
    case 0 => 9187201950435737471
    case 1 => 13816973012072644543
    case 2 => 16131858542891098079
    case 3 => 17289301308300324847
    case 4 => 17868022691004938231
    case 5 => 18157383382357244923
    case 6 => 18302063728033398269
    case 7 => 18374403900871474942
  }

  lemma ClearRankBits(k: bv8, d: bv8)
    requires k < 8 && d < 64
    ensures Has(ClearRank(k), d) <==> Row(d) != k
  {
  }

  lemma ClearFileBits(k: bv8, d: bv8)
    requires k < 8 && d < 64
    ensures Has(ClearFile(k), d) <==> Col(d) != 7 - k
  {
  }

  /** `1 << n` is the bitboard holding square n alone. */
  lemma SingleBits(n: bv8, d: bv8)
    requires n < 64 && d < 64
    ensures Has(1 << n, d) <==> d == n
  {
  }

  lemma AndBits(x: bv64, y: bv64, d: bv8)
    requires d < 64
    ensures Has(x & y, d) <==> Has(x, d) && Has(y, d)
  {
  }

  lemma OrBits(x: bv64, y: bv64, d: bv8)
    requires d < 64
    ensures Has(x | y, d) <==> Has(x, d) || Has(y, d)
  {
  }

  /** `OrBits` for a word already known to be the union. */
  lemma UnionBits(x: bv64, y: bv64, z: bv64, d: bv8)
    requires d < 64 && x == y | z
    ensures Has(x, d) <==> Has(y, d) || Has(z, d)
  {
    OrBits(y, z, d);
  }

  /** Equal words hold the same squares. */
  lemma SameBits(x: bv64, y: bv64, d: bv8)
    requires d < 64 && x == y
    ensures Has(x, d) <==> Has(y, d)
  {
  }

  /** The empty bitboard holds no square. */
  lemma ZeroBits(d: bv8)
    requires d < 64
    ensures !Has(0, d)
  {
  }

  lemma AndNotBits(x: bv64, y: bv64, d: bv8)
    requires d < 64
    ensures Has(x & !y, d) <==> Has(x, d) && !Has(y, d)
  {
  }
}
