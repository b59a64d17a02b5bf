/*
 * The `Chess` struct: twelve bitboards updated in place and the side to move.
 * Each method is proved against the position-level function of the same name.
 */
module Game {
  import opened Bits
  import opened Board
  import MoveGen
  import Moves
  import Play
  import PlayFacts

  class Chess {
    /** `board[side][pieceType]`. */
    const board: array2<bv64>
    /** The side to move. */
    var turn: nat

    ghost predicate Valid()
      reads this
    {
      board.Length0 == 2 && board.Length1 == 6
    }

    /** The engine state as a value. */
    function Snapshot(): Position
      reads this, board
      requires Valid()
    {
      Position(
        [ [board[0, 0], board[0, 1], board[0, 2], board[0, 3], board[0, 4], board[0, 5]],
          [board[1, 0], board[1, 1], board[1, 2], board[1, 3], board[1, 4], board[1, 5]] ],
        turn)
    }

    lemma SnapshotCell(s: nat, t: nat)
      requires Valid() && s < 2 && t < 6
      ensures Snapshot().board[s][t] == board[s, t]
    {
    }

    /** `Chess::new`. */
    constructor ()
      ensures Valid() && fresh(board)
      ensures Snapshot() == StartPosition()
    {
      var a := new bv64[2, 6]((s, t) => 0);
      a[WHITE, PAWN] := 65280;
      a[WHITE, BISHOP] := 36;
      a[WHITE, KNIGHT] := 66;
      a[WHITE, ROOK] := 129;
      a[WHITE, QUEEN] := 16;
      a[WHITE, KING] := 8;

      a[WHITE, BISHOP] := 0;
      a[WHITE, ROOK] := 0;
      a[WHITE, QUEEN] := 0;

      a[BLACK, PAWN] := 71776119061217280;
      a[BLACK, BISHOP] := 2594073385365405696;
      a[BLACK, KNIGHT] := 4755801206503243776;
      a[BLACK, ROOK] := 9295429630892703744;
      a[BLACK, QUEEN] := 1152921504606846976;
      a[BLACK, KING] := 549755813888;

      board := a;
      turn := WHITE;
    }

    /** `get_piece_at`: scan BLACK then WHITE, PAWN to KING, for a bitboard holding square i. */
    method GetPieceAt(i: bv8) returns (r: Option<Piece>)
      requires Valid() && i < 64
      ensures r == PieceAt(Snapshot().board, i)
    {
      ghost var b := Snapshot().board;
      for s := 0 to 2
        invariant Scan(b, i, s, 0) == PieceAt(b, i)
      {
        for t := 0 to 6
          invariant Scan(b, i, s, t) == PieceAt(b, i)
        {
          SnapshotCell(s, t);
          if (board[s, t] >> i) & 1 == 1 {
            return Some(Piece(t, s));
          }
        }
      }
      return None;
    }

    /** The loop `own_side = own_side | pieces` over the bitboards of one side. */
    method OwnSide(side: nat) returns (own: bv64)
      requires Valid() && side < 2
      ensures own == Occupancy(Snapshot().board[side])
    {
      own := 0;
      for t := 0 to 6
        invariant own == UnionUpTo(Snapshot().board[side], t)
      {
        var pieces := board[side, t];
        SnapshotCell(side, t);
        UnionUpToNext(Snapshot().board[side], t, own, pieces);
        own := own | pieces;
      }
    }

    /** The loop that ORs up the white and the black bitboards side by side. */
    method BothSides() returns (white: bv64, black: bv64)
      requires Valid()
      ensures white == Occupancy(Snapshot().board[WHITE])
      ensures black == Occupancy(Snapshot().board[BLACK])
    {
      white, black := 0, 0;
      for index := 0 to 6
        invariant white == UnionUpTo(Snapshot().board[WHITE], index)
        invariant black == UnionUpTo(Snapshot().board[BLACK], index)
      {
        var pieces, others := board[WHITE, index], board[BLACK, index];
        SnapshotCell(WHITE, index);
        SnapshotCell(BLACK, index);
        UnionUpToNext(Snapshot().board[WHITE], index, white, pieces);
        UnionUpToNext(Snapshot().board[BLACK], index, black, others);
        white := white | pieces;
        black := black | others;
      }
    }

    /** `get_king_pseudo_moves`. */
    method KingPseudoMoves(i: Option<bv8>, side: nat) returns (r: bv64)
      requires Valid() && side < 2 && (i.Some? ==> i.value < 64)
      ensures r == Moves.KingPseudoMoves(Snapshot().board, i, side)
    {
      var ownSide := OwnSide(side);
      var kingPos: bv64;
      match i {
        case Some(n) => kingPos := 0 | (1 << n);
        case None => SnapshotCell(side, KING); kingPos := board[side, KING];
      }
      r := MoveGen.KingTargets(kingPos, ownSide);
    }

    /** `get_knight_pseudo_moves`. */
    method KnightPseudoMoves(i: Option<bv8>, side: nat) returns (r: bv64)
      requires Valid() && side < 2 && (i.Some? ==> i.value < 64)
      ensures r == Moves.KnightPseudoMoves(Snapshot().board, i, side)
    {
      var ownSide := OwnSide(side);
      var knightsPos: bv64;
      match i {
        case Some(n) => knightsPos := 0 | (1 << n);
        case None => SnapshotCell(side, KNIGHT); knightsPos := board[side, KNIGHT];
      }
      r := MoveGen.KnightTargets(knightsPos, ownSide);
    }

    /** `get_white_pawn_pseudo_moves`. */
    method WhitePawnPseudoMoves(i: Option<bv8>) returns (r: bv64)
      requires Valid() && (i.Some? ==> i.value < 64)
      ensures r == Moves.WhitePawnPseudoMoves(Snapshot().board, i)
    {
      var whitePieces, blackPieces := BothSides();
      var pawnsPos: bv64;
      match i {
        case Some(n) => pawnsPos := 0 | (1 << n);
        case None => SnapshotCell(WHITE, PAWN); pawnsPos := board[WHITE, PAWN];
      }
      r := MoveGen.WhitePawnTargets(pawnsPos, whitePieces, blackPieces);
    }

    /** `get_black_pawn_pseudo_moves`; without an origin square it starts from every black piece. */
    method BlackPawnPseudoMoves(i: Option<bv8>) returns (r: bv64)
      requires Valid() && (i.Some? ==> i.value < 64)
      ensures r == Moves.BlackPawnPseudoMoves(Snapshot().board, i)
    {
      var whitePieces, blackPieces := BothSides();
      var pawnsPos: bv64;
      match i {
        case Some(n) => pawnsPos := 0 | (1 << n);
        case None => pawnsPos := blackPieces;
      }
      r := MoveGen.BlackPawnTargets(pawnsPos, whitePieces, blackPieces);
    }

    /** `legal_moves`. */
    method LegalMoves(i: bv8, turn: nat) returns (r: bv64)
      requires Valid() && i < 64
      ensures r == Moves.LegalMoves(Snapshot().board, i, turn)
    {
      var found := GetPieceAt(i);
      match found {
        case Some(piece) =>
          if piece.side != turn {
            r := 0;
          } else if piece.pieceType == KING {
            r := KingPseudoMoves(Some(i), piece.side);
          } else if piece.pieceType == KNIGHT {
            r := KnightPseudoMoves(Some(i), piece.side);
          } else if piece.pieceType == PAWN && piece.side == WHITE {
            r := WhitePawnPseudoMoves(Some(i));
          } else if piece.pieceType == PAWN && piece.side == BLACK {
            r := BlackPawnPseudoMoves(Some(i));
          } else {
            r := 0;
          }
        case None => r := 0;
      }
    }

    /** `self.board[s][t] = v`. */
    method SetBitboard(s: nat, t: nat, v: bv64)
      requires Valid() && s < 2 && t < 6
      modifies board
      ensures Valid()
      ensures Snapshot() == old(Snapshot()).(board := Play.SetCell(old(Snapshot()).board, s, t, v))
    {
      ghost var b0 := Snapshot().board;
      board[s, t] := v;
      ghost var r := Play.SetCell(b0, s, t, v);
      forall s': nat, t': nat | s' < 2 && t' < 6
        ensures Snapshot().board[s'][t'] == r[s'][t']
      {
        SnapshotCell(s', t');
      }
      BoardExt(Snapshot().board, r);
    }

    /**
     * The removal test of `move_piece`: OR the mover's moved bitboard into its
     * side's occupancy and compare the target bit of both sides.
     */
    method RemovalTest(piece: Piece, from: bv8, to: bv8) returns (capture: bool)
      requires Valid() && ValidPiece(piece) && from < 64 && to < 64
      ensures capture == Play.CaptureTest(Snapshot().board, piece, from, to)
    {
      ghost var b := Snapshot().board;
      var side, pieceType := piece.side, piece.pieceType;
      var whitePieces, blackPieces := BothSides();
      SnapshotCell(side, pieceType);
      var moved := (board[side, pieceType] & !(1 << from)) | (1 << to);
      if side == WHITE {
        Play.MarkWhite(b, piece, from, to, whitePieces, blackPieces, moved);
        whitePieces := whitePieces | moved;
      } else {
        Play.MarkBlack(b, piece, from, to, whitePieces, blackPieces, moved);
        blackPieces := blackPieces | moved;
      }
      capture := GetNthBit(whitePieces, to) == GetNthBit(blackPieces, to);
    }

    /** The removal step of `move_piece`. */
    method RemoveTarget(piece: Piece, from: bv8, to: bv8)
      requires Valid() && ValidPiece(piece) && from < 64 && to < 64
      modifies board
      ensures Valid()
      ensures Snapshot() == old(Snapshot()).(board :=
        Play.Capture(old(Snapshot()).board, Play.Removed(old(Snapshot()).board, piece, from, to), to))
    {
      ghost var p := Snapshot();
      var capture := RemovalTest(piece, from, to);
      if capture {
        Play.CaptureDefined(p.board, piece, from, to);
        var removedPiece := GetPieceAt(to);
        var q := removedPiece.value;
        SnapshotCell(q.side, q.pieceType);
        var cleared := board[q.side, q.pieceType] & !(1 << to);
        SetBitboard(q.side, q.pieceType, cleared);
      }
    }

    /** The part of `move_piece` after the piece on `from` has been found. */
    method PlayPiece(piece: Piece, from: bv8, to: bv8)
      requires Valid() && ValidPiece(piece) && from < 64 && to < 64
      modifies this, board
      ensures Valid()
      ensures Snapshot() ==
        Play.PlayMove(old(Snapshot()), piece, from, to, Play.Removed(old(Snapshot()).board, piece, from, to))
    {
      var side, pieceType := piece.side, piece.pieceType;
      RemoveTarget(piece, from, to);
      SnapshotCell(side, pieceType);
      var moved := (board[side, pieceType] & !(1 << from)) | (1 << to);
      SetBitboard(side, pieceType, moved);
      turn := if turn == WHITE then BLACK else WHITE;
    }

    /**
     * `move_piece`: ignore a move outside the legal moves of the origin; else
     * clear the target from the bitboard of the piece the removal test finds
     * there, move the mover's bitboard and pass the turn.
     */
    method MovePiece(from: bv8, to: bv8)
      requires Valid() && from < 64 && to < 64
      modifies this, board
      ensures Valid() && Snapshot() == Play.ApplyMove(old(Snapshot()), from, to)
    {
      ghost var p := Snapshot();
      var moves := LegalMoves(from, turn);
      if GetNthBit(moves, to) == 0 {
        PlayFacts.ApplyMoveRejected(p, from, to);
        return;
      }
      PlayFacts.ApplyMoveAccepted(p, from, to);
      var found := GetPieceAt(from);
      match found {
        case None => assert false;
        case Some(piece) => PlayPiece(piece, from, to);
      }
    }
  }
}
