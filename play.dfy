/*
 * `move_piece`: a move is played only if the target is among the legal moves
 * of the origin square. When the opponent holds the target, the target is
 * cleared from the bitboard the locator reports there (on a disjoint board,
 * the opponent's piece); then the moving bitboard is updated and the turn
 * passes to the other side.
 */
module Play {
  import opened Bits
  import opened Board
  import opened Moves

  /** `(x & !(1 << from)) | (1 << to)`: bitboard x with square `from` vacated and square `to` taken. */
  function Moved(x: bv64, from: bv8, to: bv8): bv64
    requires from < 64 && to < 64
  {
    (x & !(1 << from)) | (1 << to)
  }

  lemma MovedTo(x: bv64, from: bv8, to: bv8)
    requires from < 64 && to < 64
    ensures Has(Moved(x, from, to), to)
  {
  }

  lemma MovedFrom(x: bv64, from: bv8, to: bv8)
    requires from < 64 && to < 64 && from != to
    ensures !Has(Moved(x, from, to), from)
  {
  }

  lemma MovedElsewhere(x: bv64, from: bv8, to: bv8, d: bv8)
    requires from < 64 && to < 64 && d < 64 && d != from && d != to
    ensures Has((x & !(1 << from)) | (1 << to), d) <==> Has(x, d)
  {
  }

  /** The moved bitboard holds `to`, no longer holds `from`, and is unchanged elsewhere. */
  lemma MovedBits(x: bv64, from: bv8, to: bv8, d: bv8)
    requires from < 64 && to < 64 && d < 64
    ensures Has(Moved(x, from, to), d) <==> d == to || (d != from && Has(x, d))
  {
    if d == to {
      MovedTo(x, from, to);
    } else if d == from {
      MovedFrom(x, from, to);
    } else {
      MovedElsewhere(x, from, to, d);
    }
  }

  /** Clearing the target first makes no difference to the moved bitboard. */
  lemma MovedAfterClear(x: bv64, from: bv8, to: bv8)
    requires from < 64 && to < 64
    ensures Moved(x & !(1 << to), from, to) == Moved(x, from, to)
  {
  }

  /** `board[s][t] = v`, all other bitboards untouched. */
  function SetCell(b: Board, s: nat, t: nat, v: bv64): (r: Board)
    requires s < 2 && t < 6
    ensures r[s][t] == v
    ensures forall s': nat, t': nat :: s' < 2 && t' < 6 && (s' != s || t' != t) ==> r[s'][t'] == b[s'][t']
  {
    b[s := b[s][t := v]]
  }

  /**
   * The occupancy of side s as `move_piece` builds it: the mover's side has the
   * mover's bitboard, already moved, OR-ed in.
   */
  function MarkedOccupancy(b: Board, piece: Piece, from: bv8, to: bv8, s: nat): bv64
    requires ValidPiece(piece) && from < 64 && to < 64 && s < 2
  {
    if s == piece.side then Occupancy(b[s]) | Moved(b[piece.side][piece.pieceType], from, to)
    else Occupancy(b[s])
  }

  lemma MarkedMover(b: Board, piece: Piece, from: bv8, to: bv8)
    requires ValidPiece(piece) && from < 64 && to < 64
    ensures MarkedOccupancy(b, piece, from, to, piece.side) ==
      Occupancy(b[piece.side]) | Moved(b[piece.side][piece.pieceType], from, to)
  {
  }

  lemma MarkedOther(b: Board, piece: Piece, from: bv8, to: bv8)
    requires ValidPiece(piece) && from < 64 && to < 64
    ensures MarkedOccupancy(b, piece, from, to, Opponent(piece.side)) == Occupancy(b[Opponent(piece.side)])
  {
  }

  /** The two occupancies `move_piece` builds when WHITE moves. */
  lemma MarkWhite(b: Board, piece: Piece, from: bv8, to: bv8, white: bv64, black: bv64, moved: bv64)
    requires ValidPiece(piece) && from < 64 && to < 64 && piece.side == WHITE
    requires white == Occupancy(b[WHITE]) && black == Occupancy(b[BLACK])
    requires moved == Moved(b[WHITE][piece.pieceType], from, to)
    ensures white | moved == MarkedOccupancy(b, piece, from, to, WHITE)
    ensures black == MarkedOccupancy(b, piece, from, to, BLACK)
  {
  }

  /** The two occupancies `move_piece` builds when BLACK moves. */
  lemma MarkBlack(b: Board, piece: Piece, from: bv8, to: bv8, white: bv64, black: bv64, moved: bv64)
    requires ValidPiece(piece) && from < 64 && to < 64 && piece.side == BLACK
    requires white == Occupancy(b[WHITE]) && black == Occupancy(b[BLACK])
    requires moved == Moved(b[BLACK][piece.pieceType], from, to)
    ensures white == MarkedOccupancy(b, piece, from, to, WHITE)
    ensures black | moved == MarkedOccupancy(b, piece, from, to, BLACK)
  {
  }

  /** The removal test: target bit of the marked white occupancy equals that of the marked black one. */
  predicate CaptureTest(b: Board, piece: Piece, from: bv8, to: bv8)
    requires ValidPiece(piece) && from < 64 && to < 64
  {
    GetNthBit(MarkedOccupancy(b, piece, from, to, WHITE), to) ==
    GetNthBit(MarkedOccupancy(b, piece, from, to, BLACK), to)
  }

  /** The removal test succeeds exactly when the opponent holds the target square. */
  lemma CaptureTestIff(b: Board, piece: Piece, from: bv8, to: bv8)
    requires ValidPiece(piece) && from < 64 && to < 64
    ensures CaptureTest(b, piece, from, to) <==> Has(Occupancy(b[Opponent(piece.side)]), to)
  {
    var s := piece.side;
    var moved := Moved(b[s][piece.pieceType], from, to);
    MovedBits(b[s][piece.pieceType], from, to, to);
    MarkedMover(b, piece, from, to);
    UnionBits(MarkedOccupancy(b, piece, from, to, s), Occupancy(b[s]), moved, to);
    MarkedOther(b, piece, from, to);
    SameBits(MarkedOccupancy(b, piece, from, to, Opponent(s)), Occupancy(b[Opponent(s)]), to);
  }

  /** When the removal test succeeds, `get_piece_at(to).unwrap()` finds a piece. */
  lemma CaptureDefined(b: Board, piece: Piece, from: bv8, to: bv8)
    requires ValidPiece(piece) && from < 64 && to < 64
    ensures CaptureTest(b, piece, from, to) ==> PieceAt(b, to).Some?
  {
    CaptureTestIff(b, piece, from, to);
    if CaptureTest(b, piece, from, to) {
      var t := OccupancyWitness(b[Opponent(piece.side)], to);
      PieceAtNone(b, to);
    }
  }

  /** The removal step: clear the target square from the bitboard of `removed`, if any. */
  function Capture(b: Board, removed: Option<Piece>, to: bv8): Board
    requires to < 64 && (removed.Some? ==> ValidPiece(removed.value))
  {
    match removed
    case Some(q) => SetCell(b, q.side, q.pieceType, b[q.side][q.pieceType] & !(1 << to))
    case None => b
  }

  /**
   * The accepted part of `move_piece` for the piece found on `from`: clear the
   * target square from the bitboard of `removed`, the piece the removal test
   * had the locator report (if any), then move the mover's bitboard and pass
   * the turn.
   */
  function PlayMove(p: Position, piece: Piece, from: bv8, to: bv8, removed: Option<Piece>): Position
    requires ValidPiece(piece) && from < 64 && to < 64
    requires removed.Some? ==> ValidPiece(removed.value)
  {
    var captured := Capture(p.board, removed, to);
    Position(
      SetCell(captured, piece.side, piece.pieceType, Moved(captured[piece.side][piece.pieceType], from, to)),
      Opponent(p.turn))
  }

  /** The piece `move_piece` removes: `get_piece_at(to).unwrap()` when the removal test succeeds. */
  function Removed(b: Board, piece: Piece, from: bv8, to: bv8): (r: Option<Piece>)
    requires ValidPiece(piece) && from < 64 && to < 64
    ensures r.Some? ==> ValidPiece(r.value)
  {
    if CaptureTest(b, piece, from, to) then
      CaptureDefined(b, piece, from, to);
      Some(PieceAt(b, to).value)
    else None
  }

  /** `move_piece`. */
  function ApplyMove(p: Position, from: bv8, to: bv8): Position
    requires from < 64 && to < 64
  {
    if GetNthBit(LegalMoves(p.board, from, p.turn), to) == 0 then p
    else
      match PieceAt(p.board, from)
      case Some(piece) => PlayMove(p, piece, from, to, Removed(p.board, piece, from, to))
      case None => p
  }

  // One lemma per case of `PlayMoveCell` below: the mover alone, the mover that
  // is also the removed piece, the mover beside the removed piece (other side or
  // same side), the removed piece, and a bystander. A precondition fixes the
  // case in each, so no proof over the 64-bit words has to split cases, which
  // keeps each of them well inside the solver's resource limit.

  lemma CellMoverAlone(p: Position, piece: Piece, from: bv8, to: bv8)
    requires ValidPiece(piece) && from < 64 && to < 64
    ensures PlayMove(p, piece, from, to, None).board[piece.side][piece.pieceType] ==
      Moved(p.board[piece.side][piece.pieceType], from, to)
  {
  }

  lemma CellMoverRemoved(p: Position, piece: Piece, from: bv8, to: bv8)
    requires ValidPiece(piece) && from < 64 && to < 64
    ensures PlayMove(p, piece, from, to, Some(piece)).board[piece.side][piece.pieceType] ==
      Moved(p.board[piece.side][piece.pieceType], from, to)
  {
    MovedAfterClear(p.board[piece.side][piece.pieceType], from, to);
  }

  lemma CellMoverBesideSide(p: Position, piece: Piece, from: bv8, to: bv8, q: Piece)
    requires ValidPiece(piece) && from < 64 && to < 64 && ValidPiece(q) && q.side != piece.side
    ensures PlayMove(p, piece, from, to, Some(q)).board[piece.side][piece.pieceType] ==
      Moved(p.board[piece.side][piece.pieceType], from, to)
  {
  }

  lemma CellMoverBesideType(p: Position, piece: Piece, from: bv8, to: bv8, q: Piece)
    requires ValidPiece(piece) && from < 64 && to < 64 && ValidPiece(q) && q.side == piece.side && q.pieceType != piece.pieceType
    ensures PlayMove(p, piece, from, to, Some(q)).board[piece.side][piece.pieceType] ==
      Moved(p.board[piece.side][piece.pieceType], from, to)
  {
  }

  lemma CellRemovedSide(p: Position, piece: Piece, from: bv8, to: bv8, q: Piece)
    requires ValidPiece(piece) && from < 64 && to < 64 && ValidPiece(q) && q.side != piece.side
    ensures PlayMove(p, piece, from, to, Some(q)).board[q.side][q.pieceType] ==
      p.board[q.side][q.pieceType] & !(1 << to)
  {
  }

  lemma CellRemovedType(p: Position, piece: Piece, from: bv8, to: bv8, q: Piece)
    requires ValidPiece(piece) && from < 64 && to < 64 && ValidPiece(q) && q.side == piece.side && q.pieceType != piece.pieceType
    ensures PlayMove(p, piece, from, to, Some(q)).board[q.side][q.pieceType] ==
      p.board[q.side][q.pieceType] & !(1 << to)
  {
  }

  lemma CellOtherNoneSide(p: Position, piece: Piece, from: bv8, to: bv8, s: nat, t: nat)
    requires ValidPiece(piece) && from < 64 && to < 64 && s < 2 && t < 6 && s != piece.side
    ensures PlayMove(p, piece, from, to, None).board[s][t] == p.board[s][t]
  {
  }

  lemma CellOtherNoneType(p: Position, piece: Piece, from: bv8, to: bv8, t: nat)
    requires ValidPiece(piece) && from < 64 && to < 64 && t < 6 && t != piece.pieceType
    ensures PlayMove(p, piece, from, to, None).board[piece.side][t] == p.board[piece.side][t]
  {
  }

  lemma CellOtherSomeSS(p: Position, piece: Piece, from: bv8, to: bv8, q: Piece, s: nat, t: nat)
    requires ValidPiece(piece) && from < 64 && to < 64 && s < 2 && t < 6 && ValidPiece(q)
    requires s != piece.side && s != q.side
    ensures PlayMove(p, piece, from, to, Some(q)).board[s][t] == p.board[s][t]
  {
  }
  lemma CellOtherSomeST(p: Position, piece: Piece, from: bv8, to: bv8, q: Piece, s: nat, t: nat)
    requires ValidPiece(piece) && from < 64 && to < 64 && s < 2 && t < 6 && ValidPiece(q)
    requires s != piece.side && s == q.side && t != q.pieceType
    ensures PlayMove(p, piece, from, to, Some(q)).board[s][t] == p.board[s][t]
  {
  }
  lemma CellOtherSomeTS(p: Position, piece: Piece, from: bv8, to: bv8, q: Piece, s: nat, t: nat)
    requires ValidPiece(piece) && from < 64 && to < 64 && s < 2 && t < 6 && ValidPiece(q)
    requires s == piece.side && t != piece.pieceType && s != q.side
    ensures PlayMove(p, piece, from, to, Some(q)).board[s][t] == p.board[s][t]
  {
  }
  lemma CellOtherSomeTT(p: Position, piece: Piece, from: bv8, to: bv8, q: Piece, s: nat, t: nat)
    requires ValidPiece(piece) && from < 64 && to < 64 && s < 2 && t < 6 && ValidPiece(q)
    requires s == piece.side && t != piece.pieceType && s == q.side && t != q.pieceType
    ensures PlayMove(p, piece, from, to, Some(q)).board[s][t] == p.board[s][t]
  {
  }

  /** Each bitboard after `PlayMove`, and the turn. */
  lemma PlayMoveCell(p: Position, piece: Piece, from: bv8, to: bv8, removed: Option<Piece>, s: nat, t: nat)
    requires ValidPiece(piece) && from < 64 && to < 64 && s < 2 && t < 6
    requires removed.Some? ==> ValidPiece(removed.value)
    ensures var r := PlayMove(p, piece, from, to, removed);
      r.turn == Opponent(p.turn) &&
      r.board[s][t] ==
        if s == piece.side && t == piece.pieceType then Moved(p.board[s][t], from, to)
        else if removed == Some(Piece(t, s)) then p.board[s][t] & !(1 << to)
        else p.board[s][t]
  {
    var ms, mt := piece.side, piece.pieceType;
    if s == ms && t == mt {
      match removed
      case None => CellMoverAlone(p, piece, from, to);
      case Some(q) =>
        if q == piece {
          CellMoverRemoved(p, piece, from, to);
        } else if q.side != ms {
          CellMoverBesideSide(p, piece, from, to, q);
        } else {
          CellMoverBesideType(p, piece, from, to, q);
        }
    } else if removed == Some(Piece(t, s)) {
      if s != ms {
        CellRemovedSide(p, piece, from, to, Piece(t, s));
      } else {
        CellRemovedType(p, piece, from, to, Piece(t, s));
      }
    } else {
      match removed
      case None =>
        if s != ms {
          CellOtherNoneSide(p, piece, from, to, s, t);
        } else {
          CellOtherNoneType(p, piece, from, to, t);
        }
      case Some(q) =>
        if s != ms && s != q.side {
          CellOtherSomeSS(p, piece, from, to, q, s, t);
        } else if s != ms {
          CellOtherSomeST(p, piece, from, to, q, s, t);
        } else if s != q.side {
          CellOtherSomeTS(p, piece, from, to, q, s, t);
        } else {
          CellOtherSomeTT(p, piece, from, to, q, s, t);
        }
    }
  }
}

module PlayFacts {
  import opened Bits
  import opened Board
  import opened Moves
  import opened Play

  /** A move outside the legal moves of the origin leaves the game untouched. */
  lemma ApplyMoveRejected(p: Position, from: bv8, to: bv8)
    requires from < 64 && to < 64 && !Has(LegalMoves(p.board, from, p.turn), to)
    ensures ApplyMove(p, from, to) == p
  {
  }

  /** A piece of the side not to move never moves. */
  lemma ApplyMoveOffTurn(p: Position, from: bv8, to: bv8)
    requires from < 64 && to < 64
    requires PieceAt(p.board, from).Some? && PieceAt(p.board, from).value.side != p.turn
    ensures ApplyMove(p, from, to) == p
  {
    LegalMovesZero(p.board, from, p.turn);
    ZeroBits(to);
    ApplyMoveRejected(p, from, to);
  }

  /** The piece `move_piece` removes is the one the locator reports on the target, if the opponent holds it. */
  lemma RemovedIff(b: Board, piece: Piece, from: bv8, to: bv8)
    requires ValidPiece(piece) && from < 64 && to < 64
    ensures Removed(b, piece, from, to) == if Has(Occupancy(b[Opponent(piece.side)]), to) then PieceAt(b, to) else None
  {
    CaptureTestIff(b, piece, from, to);
    CaptureDefined(b, piece, from, to);
  }

  /**
   * An accepted move is played by the piece the locator reports on the origin,
   * a king, knight or pawn of the side to move; `get_piece_at(from)` cannot
   * come back empty here.
   */
  lemma ApplyMoveAccepted(p: Position, from: bv8, to: bv8)
    requires from < 64 && to < 64 && Has(LegalMoves(p.board, from, p.turn), to)
    ensures PieceAt(p.board, from).Some?
    ensures var piece := PieceAt(p.board, from).value;
      piece.side == p.turn && piece.pieceType in {PAWN, KNIGHT, KING} &&
      ApplyMove(p, from, to) == PlayMove(p, piece, from, to, Removed(p.board, piece, from, to))
  {
    LegalMovesMover(p.board, from, p.turn, to);
  }

  /**
   * An accepted move: the mover's bitboard is moved, the bitboard of the
   * removed piece loses the target square, every other bitboard is kept, and
   * the turn passes to the other side.
   */
  lemma ApplyMoveEffect(p: Position, from: bv8, to: bv8, s: nat, t: nat)
    requires from < 64 && to < 64 && s < 2 && t < 6
    requires Has(LegalMoves(p.board, from, p.turn), to)
    ensures PieceAt(p.board, from).Some?
    ensures var piece := PieceAt(p.board, from).value;
      var r := ApplyMove(p, from, to);
      r.turn == Opponent(p.turn) && r.turn != p.turn &&
      r.board[s][t] ==
        if s == piece.side && t == piece.pieceType then Moved(p.board[s][t], from, to)
        else if Removed(p.board, piece, from, to) == Some(Piece(t, s)) then p.board[s][t] & !(1 << to)
        else p.board[s][t]
  {
    ApplyMoveAccepted(p, from, to);
    var piece := PieceAt(p.board, from).value;
    PlayMoveCell(p, piece, from, to, Removed(p.board, piece, from, to), s, t);
  }
}
