/*
 * Position-level move generation: the four pseudo-move generators read their
 * origin and occupancies from a board, and `legal_moves` dispatches on the
 * piece found on the origin square.
 */
module Moves {
  import opened Bits
  import opened Board
  import opened MoveGen

  /** The origin mask of a generator: `0 | (1 << n)` for `Some(n)`, the given bitboard for `None`. */
  function Origin(i: Option<bv8>, whole: bv64): bv64
    requires i.Some? ==> i.value < 64
  {
    match i
    case Some(n) => 0 | (1 << n)
    case None => whole
  }

  lemma OriginSingle(n: bv8, whole: bv64)
    requires n < 64
    ensures Origin(Some(n), whole) == 1 << n
  {
  }

  /** `get_king_pseudo_moves`: king steps from the origin, minus the squares of `side`. */
  function KingPseudoMoves(b: Board, i: Option<bv8>, side: nat): bv64
    requires side < 2 && (i.Some? ==> i.value < 64)
  {
    KingTargets(Origin(i, b[side][KING]), Occupancy(b[side]))
  }

  /** `get_knight_pseudo_moves`: knight jumps from the origin, minus the squares of `side`. */
  function KnightPseudoMoves(b: Board, i: Option<bv8>, side: nat): bv64
    requires side < 2 && (i.Some? ==> i.value < 64)
  {
    KnightTargets(Origin(i, b[side][KNIGHT]), Occupancy(b[side]))
  }

  /** `get_white_pawn_pseudo_moves`; without an origin square it starts from every white pawn. */
  function WhitePawnPseudoMoves(b: Board, i: Option<bv8>): bv64
    requires i.Some? ==> i.value < 64
  {
    WhitePawnTargets(Origin(i, b[WHITE][PAWN]), Occupancy(b[WHITE]), Occupancy(b[BLACK]))
  }

  /** `get_black_pawn_pseudo_moves`; without an origin square it starts from every black piece. */
  function BlackPawnPseudoMoves(b: Board, i: Option<bv8>): bv64
    requires i.Some? ==> i.value < 64
  {
    BlackPawnTargets(Origin(i, Occupancy(b[BLACK])), Occupancy(b[WHITE]), Occupancy(b[BLACK]))
  }

  /** `legal_moves`: the pseudo-moves of the piece on square i, if it belongs to `turn`. */
  function LegalMoves(b: Board, i: bv8, turn: nat): bv64
    requires i < 64
  {
    match PieceAt(b, i)
    case Some(piece) =>
      if piece.side != turn then 0
      else if piece.pieceType == KING then KingPseudoMoves(b, Some(i), piece.side)
      else if piece.pieceType == KNIGHT then KnightPseudoMoves(b, Some(i), piece.side)
      else if piece.pieceType == PAWN && piece.side == WHITE then WhitePawnPseudoMoves(b, Some(i))
      else if piece.pieceType == PAWN && piece.side == BLACK then BlackPawnPseudoMoves(b, Some(i))
      else 0
    case None => 0
  }

  /** An empty square, a piece of the other side, or a bishop, rook or queen yields no move. */
  lemma LegalMovesZero(b: Board, i: bv8, turn: nat)
    requires i < 64
    requires PieceAt(b, i).None? || PieceAt(b, i).value.side != turn ||
             PieceAt(b, i).value.pieceType in {BISHOP, ROOK, QUEEN}
    ensures LegalMoves(b, i, turn) == 0
  {
  }

  /** Only a king, knight or pawn of the side to move has moves. */
  lemma LegalMovesMover(b: Board, i: bv8, turn: nat, d: bv8)
    requires i < 64 && d < 64 && Has(LegalMoves(b, i, turn), d)
    ensures PieceAt(b, i).Some? && PieceAt(b, i).value.side == turn
    ensures PieceAt(b, i).value.pieceType in {PAWN, KNIGHT, KING}
  {
    if PieceAt(b, i).None? || PieceAt(b, i).value.side != turn ||
       PieceAt(b, i).value.pieceType in {BISHOP, ROOK, QUEEN} {
      LegalMovesZero(b, i, turn);
      ZeroBits(d);
      assert false;
    }
  }

  lemma LegalMovesKingMask(b: Board, i: bv8, turn: nat)
    requires i < 64 && PieceAt(b, i) == Some(Piece(KING, turn))
    ensures turn < 2 && LegalMoves(b, i, turn) == KingTargets(1 << i, Occupancy(b[turn]))
  {
    OriginSingle(i, b[turn][KING]);
  }

  /** A king of the side to move goes one step in any direction, onto any square its own side does not hold. */
  lemma LegalMovesKing(b: Board, i: bv8, turn: nat, d: bv8)
    requires i < 64 && d < 64 && PieceAt(b, i) == Some(Piece(KING, turn))
    ensures turn < 2
    ensures Has(LegalMoves(b, i, turn), d) <==> KingStep(i, d) && !Has(Occupancy(b[turn]), d)
  {
    LegalMovesKingMask(b, i, turn);
    SameBits(LegalMoves(b, i, turn), KingTargets(1 << i, Occupancy(b[turn])), d);
    KingTargetsExact(i, Occupancy(b[turn]), d);
  }

  lemma LegalMovesKnightMask(b: Board, i: bv8, turn: nat)
    requires i < 64 && PieceAt(b, i) == Some(Piece(KNIGHT, turn))
    ensures turn < 2 && LegalMoves(b, i, turn) == KnightTargets(1 << i, Occupancy(b[turn]))
  {
    OriginSingle(i, b[turn][KNIGHT]);
  }

  /** A knight of the side to move jumps to any on-board knight square its own side does not hold. */
  lemma LegalMovesKnight(b: Board, i: bv8, turn: nat, d: bv8)
    requires i < 64 && d < 64 && PieceAt(b, i) == Some(Piece(KNIGHT, turn))
    ensures turn < 2
    ensures Has(LegalMoves(b, i, turn), d) <==> KnightStep(i, d) && !Has(Occupancy(b[turn]), d)
  {
    LegalMovesKnightMask(b, i, turn);
    SameBits(LegalMoves(b, i, turn), KnightTargets(1 << i, Occupancy(b[turn])), d);
    KnightTargetsExact(i, Occupancy(b[turn]), d);
  }

  lemma LegalMovesWhitePawnMask(b: Board, i: bv8)
    requires i < 64 && PieceAt(b, i) == Some(Piece(PAWN, WHITE))
    ensures LegalMoves(b, i, WHITE) == WhitePawnTargets(1 << i, Occupancy(b[WHITE]), Occupancy(b[BLACK]))
  {
    OriginSingle(i, b[WHITE][PAWN]);
  }

  /** The moves of a white pawn, with the engine's clipping of the diagonals and of the double push. */
  lemma LegalMovesWhitePawn(b: Board, i: bv8, d: bv8)
    requires i < 64 && d < 64 && PieceAt(b, i) == Some(Piece(PAWN, WHITE))
    ensures var white, black := Occupancy(b[WHITE]), Occupancy(b[BLACK]);
      Has(LegalMoves(b, i, WHITE), d) <==>
      (d == i + 8 && !Has(white, d) && !Has(black, d)) ||
      (d == i + 16 && Row(i) == 1 && !Has(white, i + 8) && !Has(black, d)) ||
      (d == i + 7 && Col(i) != 7 && Has(black, d)) ||
      (d == i + 9 && Col(i) != 0 && Has(black, d))
  {
    LegalMovesWhitePawnMask(b, i);
    SameBits(LegalMoves(b, i, WHITE), WhitePawnTargets(1 << i, Occupancy(b[WHITE]), Occupancy(b[BLACK])), d);
    WhitePawnTargetsExact(i, Occupancy(b[WHITE]), Occupancy(b[BLACK]), d);
  }

  lemma LegalMovesBlackPawnMask(b: Board, i: bv8)
    requires i < 64 && PieceAt(b, i) == Some(Piece(PAWN, BLACK))
    ensures LegalMoves(b, i, BLACK) == BlackPawnTargets(1 << i, Occupancy(b[WHITE]), Occupancy(b[BLACK]))
  {
    OriginSingle(i, Occupancy(b[BLACK]));
  }

  /** The moves of a black pawn: pushes towards row 0, double push from row 6, captures on both diagonals. */
  lemma LegalMovesBlackPawn(b: Board, i: bv8, d: bv8)
    requires i < 64 && d < 64 && PieceAt(b, i) == Some(Piece(PAWN, BLACK))
    ensures var white, black := Occupancy(b[WHITE]), Occupancy(b[BLACK]);
      Has(LegalMoves(b, i, BLACK), d) <==>
      (d + 8 == i && !Has(black, d) && !Has(white, d)) ||
      (d + 16 == i && Row(i) == 6 && !Has(black, d + 8) && !Has(white, d)) ||
      (d + 7 == i && Col(i) != 7 && Has(white, d)) ||
      (d + 9 == i && Col(i) != 0 && Has(white, d))
  {
    LegalMovesBlackPawnMask(b, i);
    SameBits(LegalMoves(b, i, BLACK), BlackPawnTargets(1 << i, Occupancy(b[WHITE]), Occupancy(b[BLACK])), d);
    BlackPawnTargetsExact(i, Occupancy(b[WHITE]), Occupancy(b[BLACK]), d);
  }
}
