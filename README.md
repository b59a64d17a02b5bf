# Bitboard chess engine — Dafny model

This project models the rules core of a small bitboard chess engine, `src/chess.rs`.

**State.** A `Chess` value holds twelve 64-bit bitboards, `board[side][pieceType]`, and the side to move.
- Sides are `BLACK = 0` and `WHITE = 1`.
- Piece types run `PAWN = 0` to `KING = 5`.
- Bit n of a bitboard stands for square n, on row n / 8 and column n % 8.

**Operations the engine offers:**
- `get_piece_at` finds the piece on a square.
- `legal_moves` gives the target mask of the piece on a square. Only kings, knights and pawns have move generators.
- `move_piece` plays a move if its target is in that mask.
  - When the opponent holds the target, it clears the target from the bitboard that `get_piece_at` reports there. On a disjoint board that is the opponent's piece. On a board where the target is held twice, the locator scans BLACK first, so a black mover can clear its own piece and leave the white one.
  - It then moves the mover's bitboard and passes the turn.

**Modules:**
- `Bits` covers bitboard membership, `get_nth_bit` and the two mask tables `CLEAR_RANK` and `CLEAR_FILE`.
- `Board` covers:
  - the constants, the piece value and its glyph;
  - the board as a value (`Position`, since `Chess` is `Copy`);
  - the occupancy folds;
  - the square locator `PieceAt`;
  - disjointness of the twelve bitboards;
  - the opening position.
- `MoveGen` holds the shift-and-mask expressions of the four generators. Each is characterised square by square in geometric terms: king steps, knight jumps and pawn pushes and captures.
- `Moves` reads the generators' inputs off a board and defines `legal_moves`.
- `Play` and `PlayFacts` define `move_piece` on values (`ApplyMove`) and prove what a rejected move and an accepted move do.
- `KeepDisjoint` proves that an accepted move keeps the bitboards disjoint when its target is not held by the mover's own side. It also gives a concrete position where a legal double push lands on the mover's own knight.
- `Game` is the engine object itself. Class `Chess` keeps the bitboards in an `array2<bv64>` and the turn in a field. Its methods:
  - run the engine's loops (the nested scan of `get_piece_at`, the occupancy folds);
  - update the array in place (`move_piece`);
  - are each proved equal to the value-level function through `Snapshot()`.

Squares are `bv8` and bitboards `bv64`, the widths the engine uses.

**Engine behaviour modelled as written:**
- The white pawn's diagonals pair the column masks the opposite way from the king and the black pawn. A white pawn on column 0 can therefore capture on square n + 7, the last column of its own row, and a pawn on column 7 on n + 9.
- The double push checks the skipped square only against the mover's own side, and the landing square only against the opponent.
- The generators' whole-board `None` branches are kept. The black pawn's `None` branch starts from every black piece.
- The opening position is the engine's own:
  - white has no bishops, rooks or queen;
  - the black king stands on square 39.

## Model

| member | source | states |
|---|---|---|
| `Bits.GetNthBit` | src/chess.rs:83-85 | the result is 0 or 1, and it is 1 exactly when square n is in the bitboard |
| `Bits.ClearRankBits` | src/chess.rs:1-10 | `CLEAR_RANK[k]` holds exactly the squares off row k |
| `Bits.ClearFileBits` | src/chess.rs:12-21 | `CLEAR_FILE[k]` holds exactly the squares off column 7 - k |
| `Board.Opponent` | src/chess.rs:306-310 | the side that moves next is a side and differs from the side that moved; for a side, the two add up to 1 |
| `Board.PieceAt` | src/chess.rs:121-130 | the value-level locator: a reported piece is a valid (type, side) pair whose bitboard holds the square |
| `Board.GetChar` | src/chess.rs:65-80 | the glyph is `-` exactly for an unknown piece type; otherwise it is the letter `p b n r q k` of the piece type (indexed PAWN to KING), upper case for a white piece and lower case for a black one |
| `Board.GlyphsDistinct` | src/chess.rs:65-80 | two pieces of the board with the same glyph are the same piece |
| `Board.PieceAtNone` | src/chess.rs:121-130 | the locator reports nothing exactly when no bitboard holds the square |
| `Board.PieceAtFirst` | src/chess.rs:121-130 | otherwise it reports a bitboard holding the square, and every bitboard scanned before it (BLACK before WHITE, PAWN to KING) lacks the square |
| `Board.PieceAtOwner` | src/chess.rs:121-130 | on a disjoint board the locator reports the unique bitboard holding the square |
| `Board.OccupancyHolds` | src/chess.rs:155-158 | a square on one of a side's bitboards is in the side's folded occupancy |
| `Board.OccupancyWitness` | src/chess.rs:155-158 | a square in a side's folded occupancy is on one of its bitboards |
| `Board.StartDisjoint` | src/chess.rs:94-119 | `Board.StartPosition`, the value-level `Chess::new`: the opening position has twelve pairwise disjoint bitboards, and WHITE moves first |
| `Board.StartWhiteSquares` | src/chess.rs:96-105 | white pawns on 8-15, knights on 1 and 6, king on 3; bishops, rooks and queen empty |
| `Board.StartBlackPieces` | src/chess.rs:107-110 | black pawns on 48-55, rooks on 56 and 63, knights on 57 and 62 |
| `Board.StartBlackOfficers` | src/chess.rs:108-113 | black bishops on 58 and 61, queen on 60, king on 39 |
| `MoveGen.KingTargetsExact` | src/chess.rs:165-179 | `MoveGen.KingTargets`, the expression of `get_king_pseudo_moves`: from a single square n, the king mask holds exactly the squares d other than n with row and column each at most 1 away, less the own side's squares; it never wraps between columns 0 and 7 |
| `MoveGen.KnightTargetsExact` | src/chess.rs:193-214 | `MoveGen.KnightTargets`, the expression of `get_knight_pseudo_moves`: from a single square n, the knight mask holds exactly the on-board squares offset by (1, 2) or (2, 1) in rows and columns, less the own side's squares |
| `MoveGen.WhitePawnTargetsExact` | src/chess.rs:231-240 | `MoveGen.WhitePawnTargets`, the expression of `get_white_pawn_pseudo_moves`: from a single square n, the white pawn mask holds exactly the following. n + 8 if neither side holds it. n + 16 from row 1 if white does not hold n + 8 and black does not hold n + 16. n + 7 if n is not on column 7 and black holds it. n + 9 if n is not on column 0 and black holds it. |
| `MoveGen.BlackPawnTargetsExact` | src/chess.rs:257-266 | `MoveGen.BlackPawnTargets`, the expression of `get_black_pawn_pseudo_moves`: from a single square n, the black pawn mask holds exactly the following. n - 8 if neither side holds it. n - 16 from row 6 if black does not hold n - 8 and white does not hold n - 16. n - 7 if n is not on column 7 and white holds it. n - 9 if n is not on column 0 and white holds it. |
| `Moves.LegalMovesZero` | src/chess.rs:132-151 | `Moves.LegalMoves`, the value-level `legal_moves`: the mask is 0 on an empty square, for a piece of the side not to move, and for a bishop, rook or queen |
| `Moves.LegalMovesMover` | src/chess.rs:132-151 | a square in the mask means the origin holds a king, knight or pawn of the side to move |
| `Moves.LegalMovesKing` | src/chess.rs:137-138 | a king of the side to move targets exactly its neighbouring squares that its own side does not hold |
| `Moves.LegalMovesKnight` | src/chess.rs:139-140 | a knight of the side to move targets exactly its on-board jump squares that its own side does not hold |
| `Moves.LegalMovesWhitePawn` | src/chess.rs:141-142 | a white pawn's targets are exactly the push, double-push and diagonal squares that `WhitePawnTargetsExact` lists, with the board's occupancies |
| `Moves.LegalMovesBlackPawn` | src/chess.rs:143-144 | the same for a black pawn, toward row 0 |
| `Play.MovedBits` | src/chess.rs:305 | the moved bitboard holds `to`, no longer holds `from`, and is unchanged on every other square |
| `Play.CaptureTestIff` | src/chess.rs:284-299 | the removal test (target bit of the white occupancy, with the mover's moved bitboard OR-ed into its side, equal to that of the black one) succeeds exactly when the opponent holds the target |
| `Play.CaptureDefined` | src/chess.rs:299-300 | when the removal test succeeds, `get_piece_at(to)` finds a piece, so the `unwrap` cannot fail |
| `Play.PlayMoveCell` | src/chess.rs:298-310 | after the accepted part of a move, each bitboard is one of three things. The mover's is moved. The removed piece's has lost the target. Every other is unchanged. The turn passes to the other side. |
| `PlayFacts.ApplyMoveRejected` | src/chess.rs:269-272 | `Play.ApplyMove`, the value-level `move_piece`: a target outside the origin's legal moves leaves bitboards and turn unchanged |
| `PlayFacts.ApplyMoveOffTurn` | src/chess.rs:269-272 | a piece of the side not to move never moves |
| `PlayFacts.RemovedIff` | src/chess.rs:298-303 | the piece removed is the one the locator reports on the target when the opponent holds the target, and none otherwise |
| `PlayFacts.ApplyMoveAccepted` | src/chess.rs:273-282 | an accepted move is played by the piece the locator reports on the origin, a king, knight or pawn of the side to move; the `None` branch cannot be taken |
| `PlayFacts.ApplyMoveEffect` | src/chess.rs:269-311 | on an accepted move the mover's bitboard clears `from` and sets `to`, and the removed piece's bitboard clears `to`. Every other bitboard is unchanged and the turn changes side. |
| `KeepDisjoint.ApplyMoveCleared` | src/chess.rs:298-303 | on a disjoint board, with a target the mover's side does not hold, every bitboard but the mover's is its old value without the target square |
| `KeepDisjoint.ApplyMoveKeepsDisjoint` | src/chess.rs:269-311 | on a disjoint board, an accepted move onto a square the mover's side does not hold leaves the twelve bitboards disjoint |
| `KeepDisjoint.DoublePushBreaksDisjoint` | src/chess.rs:231-233 | there is a disjoint position (white pawn on 8, white knight on 24) where the double push to 24 is legal and the result holds square 24 on two bitboards |
| `Game.Chess.constructor` | src/chess.rs:94-119 | the successive assignments of `Chess::new` produce the opening position, with WHITE to move |
| `Game.Chess.GetPieceAt` | src/chess.rs:121-130 | the nested scan with early return yields the locator's result |
| `Game.Chess.OwnSide` | src/chess.rs:155-158 | the `own_side` loop yields the OR of the side's six bitboards |
| `Game.Chess.BothSides` | src/chess.rs:219-224 | the side-by-side loop yields the white and the black occupancies |
| `Game.Chess.KingPseudoMoves` | src/chess.rs:153-180 | `get_king_pseudo_moves` on the object equals the value-level generator, for `Some` and `None` origins |
| `Game.Chess.KnightPseudoMoves` | src/chess.rs:182-215 | `get_knight_pseudo_moves` on the object equals the value-level generator |
| `Game.Chess.WhitePawnPseudoMoves` | src/chess.rs:217-241 | `get_white_pawn_pseudo_moves` on the object equals the value-level generator |
| `Game.Chess.BlackPawnPseudoMoves` | src/chess.rs:243-267 | `get_black_pawn_pseudo_moves` on the object equals the value-level generator, whose `None` origin is every black piece |
| `Game.Chess.LegalMoves` | src/chess.rs:132-151 | `legal_moves` on the object equals the value-level dispatch |
| `Game.Chess.SetBitboard` | src/chess.rs:301-302 | assigning one bitboard of the array changes that bitboard of the snapshot and nothing else |
| `Game.Chess.RemovalTest` | src/chess.rs:284-299 | the object's removal test equals the value-level removal test |
| `Game.Chess.RemoveTarget` | src/chess.rs:298-303 | clears the target square from the bitboard of the removed piece, if any, and changes nothing else |
| `Game.Chess.PlayPiece` | src/chess.rs:305-310 | after the removal, moves the mover's bitboard in place and passes the turn |
| `Game.Chess.MovePiece` | src/chess.rs:269-311 | `move_piece` updates the object in place to exactly the value-level `ApplyMove` of its old state |

## Left out

- `src/main.rs` is not part of this model. It holds the window, texture loading, drawing, mouse-to-square mapping in floating point and the frame loop.
- The commented-out `PieceColor` and `Piece` enums (src/chess.rs:23-37) are dead code.
- Shift amounts of 64 or more panic in a debug build of the engine. Squares are therefore required to be below 64: `requires i < 64`, `from < 64`, `to < 64`. Neither the panic nor release-mode masking of the shift amount is modelled.
- `Chess` being `Copy` is modelled by reading the object without modifying it. `legal_moves` and the generators are methods that change nothing. Aliasing of copies is not modelled.
- `Piece::new` (src/chess.rs:61-63) is the `Piece` datatype constructor.
- The `None` branch of `move_piece` after an accepted move (src/chess.rs:281) is proved unreachable (`PlayFacts.ApplyMoveAccepted`). In `Game.Chess.MovePiece` the branch is kept as `assert false`, so it has no effect to model.
- Sliding pieces (bishop, rook, queen), check, castling, en passant, promotion and game end are not in the engine. The model adds none of them.
- KeepDisjoint.ApplyMoveKeepsDisjoint: requires that the mover's own side does not hold the target. The engine does not keep disjointness without this, because its double push can land on an own piece; `KeepDisjoint.DoublePushBreaksDisjoint` exhibits such a move.
- KeepDisjoint.ApplyMoveCleared: requires a disjoint board and a target the mover's side does not hold, as for `ApplyMoveKeepsDisjoint`. Without them, `PlayFacts.ApplyMoveEffect` and `PlayFacts.RemovedIff` still describe every bitboard.
