/*
 * Board state of the engine: twelve bitboards indexed by side and piece type,
 * the side to move, the piece value derived from a square, and the piece glyph.
 */
module Board {
  import opened Bits

  datatype Option<T> = None | Some(value: T)

  /** Side indices (`Side::BLACK`, `Side::WHITE`). */
  const BLACK: nat := 0
  const WHITE: nat := 1

  /** Piece type indices (`PieceType::PAWN` .. `PieceType::KING`). */
  const PAWN: nat := 0
  const BISHOP: nat := 1
  const KNIGHT: nat := 2
  const ROOK: nat := 3
  const QUEEN: nat := 4
  const KING: nat := 5

  /** The side that moves after `side` has moved. */
  function Opponent(side: nat): (r: nat)
    ensures r < 2 && r != side
    ensures side < 2 ==> r + side == 1
  {
    if side == WHITE then BLACK else WHITE
  }

  /** A piece as the locator reports it; both fields are plain indices. */
  datatype Piece = Piece(pieceType: nat, side: nat)

  predicate ValidPiece(p: Piece) { p.pieceType < 6 && p.side < 2 }

  function ToAsciiUpper(c: char): char
  {
    if 'a' <= c <= 'z' then (c as int - 32) as char else c
  }

  /** `Piece::get_char`: lower-case letter for a black piece, upper-case for a white one. */
  function GetChar(p: Piece): (c: char)
    ensures c == '-' <==> p.pieceType >= 6
    ensures p.pieceType < 6 ==> c == (if p.side == WHITE then "PBNRQK" else "pbnrqk")[p.pieceType]
  {
    var lower :=
      if p.pieceType == PAWN then 'p'
      else if p.pieceType == KNIGHT then 'n'
      else if p.pieceType == BISHOP then 'b'
      else if p.pieceType == ROOK then 'r'
      else if p.pieceType == QUEEN then 'q'
      else if p.pieceType == KING then 'k'
      else '-';
    if p.side == WHITE then ToAsciiUpper(lower) else lower
  }

  /** Passing the turn twice gives it back to a side. */
  lemma OpponentTwice(side: nat)
    requires side < 2
    ensures Opponent(Opponent(side)) == side
  {
  }

  /** Distinct pieces of the board are drawn with distinct glyphs. */
  lemma GlyphsDistinct(p: Piece, q: Piece)
    requires ValidPiece(p) && ValidPiece(q)
    requires GetChar(p) == GetChar(q)
    ensures p == q
  {
  }

  /** `[[u64; 6]; 2]`: `board[side][pieceType]`. */
  type Board = b: seq<seq<bv64>> | |b| == 2 && |b[0]| == 6 && |b[1]| == 6
    witness [[0, 0, 0, 0, 0, 0], [0, 0, 0, 0, 0, 0]]

  /** Two boards with the same twelve bitboards are equal. */
  lemma BoardExt(b1: Board, b2: Board)
    requires forall s: nat, t: nat :: s < 2 && t < 6 ==> b1[s][t] == b2[s][t]
    ensures b1 == b2
  {
    assert b1[0] == b2[0];
    assert b1[1] == b2[1];
  }

  /** A copy of the engine state (`Chess` is `Copy`). */
  datatype Position = Position(board: Board, turn: nat)

  /** OR of the first n bitboards of `row`, folded from 0 in index order as the engine's loops do. */
  function UnionUpTo(row: seq<bv64>, n: nat): bv64
    requires n <= |row|
  {
    if n == 0 then 0 else UnionUpTo(row, n - 1) | row[n - 1]
  }

  /** All squares held by one side: the OR of its six bitboards. */
  function Occupancy(row: seq<bv64>): bv64
    requires |row| == 6
  {
    UnionUpTo(row, 6)
  }

  lemma UnionUpToStep(row: seq<bv64>, n: nat)
    requires 0 < n <= |row|
    ensures UnionUpTo(row, n) == UnionUpTo(row, n - 1) | row[n - 1]
  {
  }

  /** One more step of the fold. */
  lemma UnionUpToNext(row: seq<bv64>, n: nat, acc: bv64, x: bv64)
    requires n < |row| && acc == UnionUpTo(row, n) && x == row[n]
    ensures acc | x == UnionUpTo(row, n + 1)
  {
  }

  /** A square held by one of the first n bitboards is in their union ... */
  lemma {:induction false} UnionUpToHolds(row: seq<bv64>, n: nat, t: nat, d: bv8)
    requires t < n <= |row| && d < 64 && Has(row[t], d)
    ensures Has(UnionUpTo(row, n), d)
  {
    UnionUpToStep(row, n);
    UnionBits(UnionUpTo(row, n), UnionUpTo(row, n - 1), row[n - 1], d);
    if t < n - 1 {
      UnionUpToHolds(row, n - 1, t, d);
    }
  }

  /** ... and a square in their union is held by one of them. */
  lemma {:induction false} UnionUpToWitness(row: seq<bv64>, n: nat, d: bv8) returns (t: nat)
    requires n <= |row| && d < 64 && Has(UnionUpTo(row, n), d)
    ensures t < n && Has(row[t], d)
  {
    if n == 0 {
      ZeroBits(d);
      assert false;
    }
    UnionUpToStep(row, n);
    UnionBits(UnionUpTo(row, n), UnionUpTo(row, n - 1), row[n - 1], d);
    if Has(row[n - 1], d) {
      t := n - 1;
    } else {
      t := UnionUpToWitness(row, n - 1, d);
    }
  }

  /** A square held by one of the side's bitboards is in its occupancy ... */
  lemma OccupancyHolds(row: seq<bv64>, t: nat, d: bv8)
    requires |row| == 6 && t < 6 && d < 64 && Has(row[t], d)
    ensures Has(Occupancy(row), d)
  {
    UnionUpToHolds(row, 6, t, d);
  }

  /** ... and a square in the occupancy is held by one of the side's bitboards. */
  lemma OccupancyWitness(row: seq<bv64>, d: bv8) returns (t: nat)
    requires |row| == 6 && d < 64 && Has(Occupancy(row), d)
    ensures t < 6 && Has(row[t], d)
  {
    t := UnionUpToWitness(row, 6, d);
  }

  /** Bitboards (s1, t1) and (s2, t2) share no square. */
  ghost predicate Apart(b: Board, s1: nat, t1: nat, s2: nat, t2: nat)
    requires s1 < 2 && t1 < 6 && s2 < 2 && t2 < 6
  {
    b[s1][t1] & b[s2][t2] == 0
  }

  /** No square is held by two of the twelve bitboards. */
  ghost predicate Disjoint(b: Board)
  {
    forall s1: nat, t1: nat, s2: nat, t2: nat ::
      s1 < 2 && t1 < 6 && s2 < 2 && t2 < 6 && (s1 != s2 || t1 != t2) ==> Apart(b, s1, t1, s2, t2)
  }

  /** Bitboard (s1, t1) shares no square with any other bitboard. */
  ghost predicate DisjointFrom(b: Board, s1: nat, t1: nat)
    requires s1 < 2 && t1 < 6
  {
    forall s2: nat, t2: nat :: s2 < 2 && t2 < 6 && (s1 != s2 || t1 != t2) ==> Apart(b, s1, t1, s2, t2)
  }

  lemma DisjointByRows(b: Board)
    requires forall s: nat, t: nat :: s < 2 && t < 6 ==> DisjointFrom(b, s, t)
    ensures Disjoint(b)
  {
    forall s1: nat, t1: nat, s2: nat, t2: nat | s1 < 2 && t1 < 6 && s2 < 2 && t2 < 6 && (s1 != s2 || t1 != t2)
      ensures Apart(b, s1, t1, s2, t2)
    {
      assert DisjointFrom(b, s1, t1);
    }
  }

  /** (s1, t1) is scanned before (s2, t2): sides in order, piece types in order within a side. */
  predicate Before(s1: nat, t1: nat, s2: nat, t2: nat)
  {
    s1 < s2 || (s1 == s2 && t1 < t2)
  }

  /** The locator's nested scan, resumed at side s and piece type t. */
  function Scan(b: Board, i: bv8, s: nat, t: nat): (r: Option<Piece>)
    requires i < 64 && s <= 2 && t <= 6
    ensures r.Some? ==> ValidPiece(r.value) && Has(b[r.value.side][r.value.pieceType], i)
    decreases 2 - s, 6 - t
  {
    if s == 2 then None
    else if t == 6 then Scan(b, i, s + 1, 0)
    else if Has(b[s][t], i) then Some(Piece(t, s))
    else Scan(b, i, s, t + 1)
  }

  /** `get_piece_at`: the first (side, type) holding square i, BLACK before WHITE, PAWN to KING. */
  function PieceAt(b: Board, i: bv8): (r: Option<Piece>)
    requires i < 64
    ensures r.Some? ==> ValidPiece(r.value) && Has(b[r.value.side][r.value.pieceType], i)
  {
    Scan(b, i, 0, 0)
  }

  lemma {:induction false} ScanFinds(b: Board, i: bv8, s: nat, t: nat)
    requires i < 64 && s <= 2 && t <= 6
    ensures Scan(b, i, s, t).None? <==>
      forall s': nat, t': nat :: s' < 2 && t' < 6 && !Before(s', t', s, t) ==> !Has(b[s'][t'], i)
    ensures Scan(b, i, s, t).Some? ==>
      var p := Scan(b, i, s, t).value;
      ValidPiece(p) && !Before(p.side, p.pieceType, s, t) && Has(b[p.side][p.pieceType], i) &&
      forall s': nat, t': nat :: s' < 2 && t' < 6 && !Before(s', t', s, t) && Before(s', t', p.side, p.pieceType)
        ==> !Has(b[s'][t'], i)
    decreases 2 - s, 6 - t
  {
    if s == 2 {
    } else if t == 6 {
      ScanFinds(b, i, s + 1, 0);
    } else if !Has(b[s][t], i) {
      ScanFinds(b, i, s, t + 1);
    }
  }

  /** The locator reports nothing exactly when no bitboard holds square i. */
  lemma PieceAtNone(b: Board, i: bv8)
    requires i < 64
    ensures PieceAt(b, i).None? <==> forall s: nat, t: nat :: s < 2 && t < 6 ==> !Has(b[s][t], i)
  {
    ScanFinds(b, i, 0, 0);
  }

  /** Otherwise it reports a bitboard holding square i, and every bitboard scanned before it lacks i. */
  lemma PieceAtFirst(b: Board, i: bv8)
    requires i < 64 && PieceAt(b, i).Some?
    ensures ValidPiece(PieceAt(b, i).value)
    ensures Has(b[PieceAt(b, i).value.side][PieceAt(b, i).value.pieceType], i)
    ensures forall s: nat, t: nat :: s < 2 && t < 6 && Before(s, t, PieceAt(b, i).value.side, PieceAt(b, i).value.pieceType)
              ==> !Has(b[s][t], i)
  {
    ScanFinds(b, i, 0, 0);
  }

  /** On a disjoint board a square held by one bitboard is held by no other. */
  lemma DisjointOwner(b: Board, s1: nat, t1: nat, s2: nat, t2: nat, i: bv8)
    requires s1 < 2 && t1 < 6 && s2 < 2 && t2 < 6 && i < 64
    requires Disjoint(b) && Has(b[s1][t1], i) && Has(b[s2][t2], i)
    ensures s1 == s2 && t1 == t2
  {
    if s1 != s2 || t1 != t2 {
      DisjointExcludes(b, s1, t1, s2, t2, i);
    }
  }

  lemma DisjointExcludes(b: Board, s1: nat, t1: nat, s2: nat, t2: nat, i: bv8)
    requires s1 < 2 && t1 < 6 && s2 < 2 && t2 < 6 && (s1 != s2 || t1 != t2) && i < 64
    requires Disjoint(b) && Has(b[s1][t1], i)
    ensures !Has(b[s2][t2], i)
  {
    assert Apart(b, s1, t1, s2, t2);
    AndBits(b[s1][t1], b[s2][t2], i);
  }

  /** On a disjoint board the locator reports the unique owner of the square. */
  lemma PieceAtOwner(b: Board, i: bv8, s: nat, t: nat)
    requires i < 64 && s < 2 && t < 6
    requires Disjoint(b) && Has(b[s][t], i)
    ensures PieceAt(b, i) == Some(Piece(t, s))
  {
    PieceAtNone(b, i);
    PieceAtFirst(b, i);
    var p := PieceAt(b, i).value;
    DisjointOwner(b, s, t, p.side, p.pieceType, i);
  }

  /** `Chess::new`: the engine's (non-standard) opening position. */
  function StartPosition(): Position
  {
    Position(
      [ [ 71776119061217280, 2594073385365405696, 4755801206503243776,
          9295429630892703744, 1152921504606846976, 549755813888 ],
        [ 65280, 0, 66, 0, 0, 8 ] ],
      WHITE)
  }

  lemma StartWhiteDisjoint(t: nat)
    requires t < 6
    ensures DisjointFrom(StartPosition().board, WHITE, t)
  {
    if t == 0 {
    } else if t == 1 {
    } else if t == 2 {
    } else if t == 3 {
    } else if t == 4 {
    } else {
    }
  }

  lemma StartBlackPawnsToKnights(t: nat)
    requires t < 3
    ensures DisjointFrom(StartPosition().board, BLACK, t)
  {
    if t == 0 {
    } else if t == 1 {
    } else {
    }
  }

  lemma StartBlackRooksToKing(t: nat)
    requires 3 <= t < 6
    ensures DisjointFrom(StartPosition().board, BLACK, t)
  {
    if t == 3 {
    } else if t == 4 {
    } else {
    }
  }

  /** The opening position has no square held twice, and WHITE moves first. */
  lemma StartDisjoint()
    ensures Disjoint(StartPosition().board)
    ensures StartPosition().turn == WHITE
  {
    var b := StartPosition().board;
    forall s: nat, t: nat | s < 2 && t < 6
      ensures DisjointFrom(b, s, t)
    {
      if s == WHITE {
        StartWhiteDisjoint(t);
      } else if t < 3 {
        StartBlackPawnsToKnights(t);
      } else {
        StartBlackRooksToKing(t);
      }
    }
    DisjointByRows(b);
  }

  /** Squares of the white army at the start. */
  lemma StartWhiteSquares(d: bv8)
    requires d < 64
    ensures var w := StartPosition().board[WHITE];
      (Has(w[PAWN], d) <==> 8 <= d <= 15) &&
      (Has(w[KNIGHT], d) <==> d == 1 || d == 6) &&
      (Has(w[KING], d) <==> d == 3) &&
      w[BISHOP] == 0 && w[ROOK] == 0 && w[QUEEN] == 0
  {
  }

  /** Squares of the black army at the start (its king stands on square 39). */
  lemma StartBlackPieces(d: bv8)
    requires d < 64
    ensures var k := StartPosition().board[BLACK];
      (Has(k[PAWN], d) <==> 48 <= d <= 55) &&
      (Has(k[ROOK], d) <==> d == 56 || d == 63) &&
      (Has(k[KNIGHT], d) <==> d == 57 || d == 62)
  {
  }

  lemma StartBlackOfficers(d: bv8)
    requires d < 64
    ensures var k := StartPosition().board[BLACK];
      (Has(k[BISHOP], d) <==> d == 58 || d == 61) &&
      (Has(k[QUEEN], d) <==> d == 60) &&
      (Has(k[KING], d) <==> d == 39)
  {
  }
}
