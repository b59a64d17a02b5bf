/*
 * A played move keeps the twelve bitboards disjoint, provided the target is
 * not a square of the mover's own side.
 */
module KeepDisjoint {
  import opened Bits
  import opened Board
  import opened Moves
  import opened Play
  import opened PlayFacts

  // ---------------------------------------------------------------------------
  // Any board change of the shape of a move

  /** Bitboard (s, t) of r is that of b without square `to`. */
  ghost predicate ClearedAt(b: Board, r: Board, to: bv8, s: nat, t: nat)
    requires to < 64 && s < 2 && t < 6
  {
    r[s][t] == b[s][t] & !(1 << to)
  }

  /** Bitboard (s, t) of r is that of b moved from `from` to `to`. */
  ghost predicate MovedAt(b: Board, r: Board, from: bv8, to: bv8, s: nat, t: nat)
    requires from < 64 && to < 64 && s < 2 && t < 6
  {
    r[s][t] == Moved(b[s][t], from, to)
  }

  lemma PairMoved(b: Board, r: Board, ms: nat, mt: nat, from: bv8, to: bv8, s: nat, t: nat)
    requires from < 64 && to < 64 && ms < 2 && mt < 6 && s < 2 && t < 6
    requires MovedAt(b, r, from, to, ms, mt) && ClearedAt(b, r, to, s, t) && Apart(b, ms, mt, s, t)
    ensures Apart(r, ms, mt, s, t)
  {
  }

  lemma PairMovedSwapped(b: Board, r: Board, ms: nat, mt: nat, from: bv8, to: bv8, s: nat, t: nat)
    requires from < 64 && to < 64 && ms < 2 && mt < 6 && s < 2 && t < 6
    requires MovedAt(b, r, from, to, ms, mt) && ClearedAt(b, r, to, s, t) && Apart(b, s, t, ms, mt)
    ensures Apart(r, s, t, ms, mt)
  {
  }

  lemma PairCleared(b: Board, r: Board, to: bv8, s1: nat, t1: nat, s2: nat, t2: nat)
    requires to < 64 && s1 < 2 && t1 < 6 && s2 < 2 && t2 < 6
    requires ClearedAt(b, r, to, s1, t1) && ClearedAt(b, r, to, s2, t2) && Apart(b, s1, t1, s2, t2)
    ensures Apart(r, s1, t1, s2, t2)
  {
  }

  /** One pair of bitboards after a move-shaped change. */
  lemma PairAfter(b: Board, r: Board, ms: nat, mt: nat, from: bv8, to: bv8, s1: nat, t1: nat, s2: nat, t2: nat)
    requires from < 64 && to < 64 && ms < 2 && mt < 6 && s1 < 2 && t1 < 6 && s2 < 2 && t2 < 6 && (s1 != s2 || t1 != t2)
    requires MovedAt(b, r, from, to, ms, mt) && Apart(b, s1, t1, s2, t2)
    requires (s1 != ms || t1 != mt) ==> ClearedAt(b, r, to, s1, t1)
    requires (s2 != ms || t2 != mt) ==> ClearedAt(b, r, to, s2, t2)
    ensures Apart(r, s1, t1, s2, t2)
  {
    if s1 == ms && t1 == mt {
      PairMoved(b, r, ms, mt, from, to, s2, t2);
    } else if s2 == ms && t2 == mt {
      PairMovedSwapped(b, r, ms, mt, from, to, s1, t1);
    } else {
      PairCleared(b, r, to, s1, t1, s2, t2);
    }
  }

  /**
   * If one bitboard is moved from `from` to `to` and every other bitboard loses
   * square `to`, a disjoint board stays disjoint.
   */
  lemma MoveKeepsDisjoint(b: Board, r: Board, ms: nat, mt: nat, from: bv8, to: bv8)
    requires from < 64 && to < 64 && ms < 2 && mt < 6 && Disjoint(b)
    requires MovedAt(b, r, from, to, ms, mt)
    requires forall s: nat, t: nat :: s < 2 && t < 6 && (s != ms || t != mt) ==> ClearedAt(b, r, to, s, t)
    ensures Disjoint(r)
  {
    forall s1: nat, t1: nat, s2: nat, t2: nat | s1 < 2 && t1 < 6 && s2 < 2 && t2 < 6 && (s1 != s2 || t1 != t2)
      ensures Apart(r, s1, t1, s2, t2)
    {
      PairAfter(b, r, ms, mt, from, to, s1, t1, s2, t2);
    }
  }

  // ---------------------------------------------------------------------------
  // `move_piece` has that shape

  /** Clearing a square a word does not hold leaves the word as it is. */
  lemma ClearAbsent(x: bv64, to: bv8)
    requires to < 64 && !Has(x, to)
    ensures x & !(1 << to) == x
  {
  }

  /** Either (s, t) is the bitboard of the removed piece, or it does not hold the target. */
  ghost predicate Covered(b: Board, removed: Option<Piece>, to: bv8, s: nat, t: nat)
    requires to < 64 && s < 2 && t < 6
  {
    removed == Some(Piece(t, s)) || !Has(b[s][t], to)
  }

  lemma CoveredOwn(b: Board, piece: Piece, to: bv8, t: nat)
    requires ValidPiece(piece) && to < 64 && t < 6
    requires !Has(Occupancy(b[piece.side]), to)
    ensures !Has(b[piece.side][t], to)
  {
    if Has(b[piece.side][t], to) {
      OccupancyHolds(b[piece.side], t, to);
    }
  }

  lemma CoveredHeld(b: Board, piece: Piece, from: bv8, to: bv8, t: nat)
    requires ValidPiece(piece) && from < 64 && to < 64 && t < 6 && Disjoint(b)
    requires Has(b[Opponent(piece.side)][t], to)
    ensures Removed(b, piece, from, to) == Some(Piece(t, Opponent(piece.side)))
  {
    OccupancyHolds(b[Opponent(piece.side)], t, to);
    RemovedIff(b, piece, from, to);
    PieceAtOwner(b, to, Opponent(piece.side), t);
  }

  /**
   * On a disjoint board, with the target not a square of the mover's side,
   * every bitboard holding the target is the one the removal clears.
   */
  lemma CoveredAll(b: Board, piece: Piece, from: bv8, to: bv8, s: nat, t: nat)
    requires ValidPiece(piece) && from < 64 && to < 64 && s < 2 && t < 6 && Disjoint(b)
    requires !Has(Occupancy(b[piece.side]), to)
    ensures Covered(b, Removed(b, piece, from, to), to, s, t)
  {
    if s == piece.side {
      CoveredOwn(b, piece, to, t);
    } else if Has(b[s][t], to) {
      CoveredHeld(b, piece, from, to, t);
    }
  }

  lemma ClearedRemoved(p: Position, piece: Piece, from: bv8, to: bv8, s: nat, t: nat)
    requires ValidPiece(piece) && from < 64 && to < 64 && s < 2 && t < 6
    requires s != piece.side || t != piece.pieceType
    ensures ClearedAt(p.board, PlayMove(p, piece, from, to, Some(Piece(t, s))).board, to, s, t)
  {
    PlayMoveCell(p, piece, from, to, Some(Piece(t, s)), s, t);
  }

  lemma ClearedFree(p: Position, piece: Piece, from: bv8, to: bv8, removed: Option<Piece>, s: nat, t: nat)
    requires ValidPiece(piece) && from < 64 && to < 64 && s < 2 && t < 6
    requires removed.Some? ==> ValidPiece(removed.value)
    requires s != piece.side || t != piece.pieceType
    requires removed != Some(Piece(t, s)) && !Has(p.board[s][t], to)
    ensures ClearedAt(p.board, PlayMove(p, piece, from, to, removed).board, to, s, t)
  {
    PlayMoveCell(p, piece, from, to, removed, s, t);
    ClearAbsent(p.board[s][t], to);
  }

  /** A covered bitboard other than the mover's ends up as the old one minus the target square. */
  lemma ClearedCell(p: Position, piece: Piece, from: bv8, to: bv8, removed: Option<Piece>, s: nat, t: nat)
    requires ValidPiece(piece) && from < 64 && to < 64 && s < 2 && t < 6
    requires removed.Some? ==> ValidPiece(removed.value)
    requires s != piece.side || t != piece.pieceType
    requires Covered(p.board, removed, to, s, t)
    ensures ClearedAt(p.board, PlayMove(p, piece, from, to, removed).board, to, s, t)
  {
    if removed == Some(Piece(t, s)) {
      ClearedRemoved(p, piece, from, to, s, t);
    } else {
      ClearedFree(p, piece, from, to, removed, s, t);
    }
  }

  /** After an accepted move, every bitboard but the mover's has lost the target square. */
  lemma ApplyMoveCleared(p: Position, from: bv8, to: bv8, s: nat, t: nat)
    requires from < 64 && to < 64 && s < 2 && t < 6
    requires Disjoint(p.board) && Has(LegalMoves(p.board, from, p.turn), to)
    requires !Has(Occupancy(p.board[p.turn]), to)
    requires PieceAt(p.board, from) != Some(Piece(t, s))
    ensures ClearedAt(p.board, ApplyMove(p, from, to).board, to, s, t)
  {
    ApplyMoveAccepted(p, from, to);
    var piece := PieceAt(p.board, from).value;
    CoveredAll(p.board, piece, from, to, s, t);
    ClearedCell(p, piece, from, to, Removed(p.board, piece, from, to), s, t);
  }

  /** After an accepted move, the mover's bitboard is moved. */
  lemma ApplyMoveMoved(p: Position, from: bv8, to: bv8)
    requires from < 64 && to < 64 && Has(LegalMoves(p.board, from, p.turn), to)
    ensures PieceAt(p.board, from).Some?
    ensures var piece := PieceAt(p.board, from).value;
      MovedAt(p.board, ApplyMove(p, from, to).board, from, to, piece.side, piece.pieceType)
  {
    ApplyMoveAccepted(p, from, to);
    var piece := PieceAt(p.board, from).value;
    PlayMoveCell(p, piece, from, to, Removed(p.board, piece, from, to), piece.side, piece.pieceType);
  }

  /**
   * An accepted move onto a square the mover's side does not hold keeps a
   * disjoint board disjoint.
   */
  lemma ApplyMoveKeepsDisjoint(p: Position, from: bv8, to: bv8)
    requires from < 64 && to < 64
    requires Disjoint(p.board) && Has(LegalMoves(p.board, from, p.turn), to)
    requires !Has(Occupancy(p.board[p.turn]), to)
    ensures Disjoint(ApplyMove(p, from, to).board)
  {
    ApplyMoveMoved(p, from, to);
    var piece := PieceAt(p.board, from).value;
    var r := ApplyMove(p, from, to).board;
    forall s: nat, t: nat | s < 2 && t < 6 && (s != piece.side || t != piece.pieceType)
      ensures ClearedAt(p.board, r, to, s, t)
    {
      ApplyMoveCleared(p, from, to, s, t);
    }
    MoveKeepsDisjoint(p.board, r, piece.side, piece.pieceType, from, to);
  }

  // ---------------------------------------------------------------------------
  // The hypothesis on the target is needed

  /**
   * A white pawn on square 8 and a white knight on square 24, white to move:
   * the double push checks square 16 against the white pieces, square 24 only
   * against the black ones.
   */
  function DoublePushBoard(): Position
  {
    Position([[0, 0, 0, 0, 0, 0], [256, 0, 16777216, 0, 0, 0]], WHITE)
  }

  lemma DoublePushApart(s1: nat, t1: nat, s2: nat, t2: nat)
    requires s1 < 2 && t1 < 6 && s2 < 2 && t2 < 6 && (s1 != s2 || t1 != t2)
    ensures Apart(DoublePushBoard().board, s1, t1, s2, t2)
  {
  }

  lemma DoublePushDisjoint()
    ensures Disjoint(DoublePushBoard().board)
  {
    forall s1: nat, t1: nat, s2: nat, t2: nat | s1 < 2 && t1 < 6 && s2 < 2 && t2 < 6 && (s1 != s2 || t1 != t2)
      ensures Apart(DoublePushBoard().board, s1, t1, s2, t2)
    {
      DoublePushApart(s1, t1, s2, t2);
    }
  }

  lemma DoublePushLegal()
    ensures Has(LegalMoves(DoublePushBoard().board, 8, WHITE), 24)
  {
  }

  lemma DoublePushResult()
    ensures var r := ApplyMove(DoublePushBoard(), 8, 24).board;
      Has(r[WHITE][PAWN], 24) && Has(r[WHITE][KNIGHT], 24)
  {
  }

  /** A legal move onto a square of the mover's own side can leave a square held twice. */
  lemma DoublePushBreaksDisjoint()
    ensures Disjoint(DoublePushBoard().board)
    ensures Has(LegalMoves(DoublePushBoard().board, 8, DoublePushBoard().turn), 24)
    ensures !Disjoint(ApplyMove(DoublePushBoard(), 8, 24).board)
  {
    DoublePushDisjoint();
    DoublePushLegal();
    DoublePushResult();
    var r := ApplyMove(DoublePushBoard(), 8, 24).board;
    AndBits(r[WHITE][PAWN], r[WHITE][KNIGHT], 24);
    ZeroBits(24);
    assert !Apart(r, WHITE, PAWN, WHITE, KNIGHT);
  }
}
