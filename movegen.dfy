/*
 * Pseudo-move generators: straight-line shift-and-mask expressions over an
 * origin bitboard and the occupancy of each side, and the geometry they compute.
 */
module MoveGen {
  import opened Bits
  import opened Board

  // ---------------------------------------------------------------------------
  // Board geometry

  /** Distance between two rows or two columns. */
  function Dist(a: bv8, b: bv8): bv8
  {
    if a >= b then a - b else b - a
  }

  /** d is one king step from n: Chebyshev distance 1. */
  predicate KingStep(n: bv8, d: bv8)
  {
    d != n && Dist(Row(n), Row(d)) <= 1 && Dist(Col(n), Col(d)) <= 1
  }

  /** d is one knight jump from n: offsets (1, 2) or (2, 1) in rows and columns. */
  predicate KnightStep(n: bv8, d: bv8)
  {
    (Dist(Row(n), Row(d)) == 1 && Dist(Col(n), Col(d)) == 2) ||
    (Dist(Row(n), Row(d)) == 2 && Dist(Col(n), Col(d)) == 1)
  }

  // ---------------------------------------------------------------------------
  // The mask expressions

  /** The eight king steps of `get_king_pseudo_moves` from origin mask `kingPos`, before the own-side mask. */
  function KingMoves(kingPos: bv64): bv64
  {
    var kingClip1 := kingPos & ClearFile(0);
    var kingClip2 := kingPos & ClearFile(7);
    var s1 := kingClip2 << 7;
    var s2 := kingPos << 8;
    var s3 := kingClip1 << 9;
    var s4 := kingClip1 << 1;
    var s5 := kingClip1 >> 7;
    var s6 := kingPos >> 8;
    var s7 := kingClip2 >> 9;
    var s8 := kingClip2 >> 1;
    s1 | s2 | s3 | s4 | s5 | s6 | s7 | s8
  }

  /** `get_king_pseudo_moves`' result: the king steps minus the squares of the own side. */
  function KingTargets(kingPos: bv64, ownSide: bv64): bv64
  {
    KingMoves(kingPos) & !ownSide
  }

  /** The eight knight jumps of `get_knight_pseudo_moves` from origin mask `knightsPos`. */
  function KnightMoves(knightsPos: bv64): bv64
  {
    var s1Clip := ClearFile(7) & ClearFile(6);
    var s2Clip := ClearFile(7);
    var s3Clip := ClearFile(0);
    var s4Clip := ClearFile(0) & ClearFile(1);
    var s5Clip := ClearFile(0) & ClearFile(1);
    var s6Clip := ClearFile(0);
    var s7Clip := ClearFile(7);
    var s8Clip := ClearFile(7) & ClearFile(6);
    var s1 := (knightsPos & s1Clip) << 6;
    var s2 := (knightsPos & s2Clip) << 15;
    var s3 := (knightsPos & s3Clip) << 17;
    var s4 := (knightsPos & s4Clip) << 10;
    var s5 := (knightsPos & s5Clip) >> 6;
    var s6 := (knightsPos & s6Clip) >> 15;
    var s7 := (knightsPos & s7Clip) >> 17;
    var s8 := (knightsPos & s8Clip) >> 10;
    s1 | s2 | s3 | s4 | s5 | s6 | s7 | s8
  }

  /** `get_knight_pseudo_moves`' result: the knight jumps minus the squares of the own side. */
  function KnightTargets(knightsPos: bv64, ownSide: bv64): bv64
  {
    KnightMoves(knightsPos) & !ownSide
  }

  /** The expression of `get_white_pawn_pseudo_moves`, from origin mask `pawnsPos`. */
  function WhitePawnTargets(pawnsPos: bv64, whitePieces: bv64, blackPieces: bv64): bv64
  {
    var oneStep := (pawnsPos << 8) & !whitePieces;
    var twoStep := (oneStep & !ClearRank(2)) << 8;
    var validMoves := (oneStep | twoStep) & !blackPieces;
    var leftAttack := (pawnsPos & ClearFile(0)) << 7;
    var rightAttack := (pawnsPos & ClearFile(7)) << 9;
    var attacks := (leftAttack | rightAttack) & blackPieces;
    validMoves | attacks
  }

  /** The expression of `get_black_pawn_pseudo_moves`, from origin mask `pawnsPos`. */
  function BlackPawnTargets(pawnsPos: bv64, whitePieces: bv64, blackPieces: bv64): bv64
  {
    var oneStep := (pawnsPos >> 8) & !blackPieces;
    var twoStep := (oneStep & !ClearRank(5)) >> 8;
    var validMoves := (oneStep | twoStep) & !whitePieces;
    var rightAttack := (pawnsPos & ClearFile(0)) >> 7;
    var leftAttack := (pawnsPos & ClearFile(7)) >> 9;
    var attacks := (leftAttack | rightAttack) & whitePieces;
    validMoves | attacks
  }

  // ---------------------------------------------------------------------------
  // What the expressions compute for a single origin square n.
  // The king and knight steps are characterised one origin column at a time:
  // with the column fixed by a precondition each clipped shift is either always
  // or never present, and the solver settles one column quickly, whereas a
  // single lemma over all columns is beyond its resource limit. The `Exact`
  // lemmas dispatch on the column.


  lemma KingMovesFromCol0(n: bv8, d: bv8)
    requires n < 64 && d < 64 && Col(n) == 0
    ensures Has(KingMoves(1 << n), d) <==> KingStep(n, d)
  {
  }

  lemma KingMovesFromCol1(n: bv8, d: bv8)
    requires n < 64 && d < 64 && Col(n) == 1
    ensures Has(KingMoves(1 << n), d) <==> KingStep(n, d)
  {
  }

  lemma KingMovesFromCol2(n: bv8, d: bv8)
    requires n < 64 && d < 64 && Col(n) == 2
    ensures Has(KingMoves(1 << n), d) <==> KingStep(n, d)
  {
  }

  lemma KingMovesFromCol3(n: bv8, d: bv8)
    requires n < 64 && d < 64 && Col(n) == 3
    ensures Has(KingMoves(1 << n), d) <==> KingStep(n, d)
  {
  }

  lemma KingMovesFromCol4(n: bv8, d: bv8)
    requires n < 64 && d < 64 && Col(n) == 4
    ensures Has(KingMoves(1 << n), d) <==> KingStep(n, d)
  {
  }

  lemma KingMovesFromCol5(n: bv8, d: bv8)
    requires n < 64 && d < 64 && Col(n) == 5
    ensures Has(KingMoves(1 << n), d) <==> KingStep(n, d)
  {
  }

  lemma KingMovesFromCol6(n: bv8, d: bv8)
    requires n < 64 && d < 64 && Col(n) == 6
    ensures Has(KingMoves(1 << n), d) <==> KingStep(n, d)
  {
  }

  lemma KingMovesFromCol7(n: bv8, d: bv8)
    requires n < 64 && d < 64 && Col(n) == 7
    ensures Has(KingMoves(1 << n), d) <==> KingStep(n, d)
  {
  }

  lemma KingMovesExact(n: bv8, d: bv8)
    requires n < 64 && d < 64
    ensures Has(KingMoves(1 << n), d) <==> KingStep(n, d)
  {
    if Col(n) == 0 {
      KingMovesFromCol0(n, d);
    } else if Col(n) == 1 {
      KingMovesFromCol1(n, d);
    } else if Col(n) == 2 {
      KingMovesFromCol2(n, d);
    } else if Col(n) == 3 {
      KingMovesFromCol3(n, d);
    } else if Col(n) == 4 {
      KingMovesFromCol4(n, d);
    } else if Col(n) == 5 {
      KingMovesFromCol5(n, d);
    } else if Col(n) == 6 {
      KingMovesFromCol6(n, d);
    } else {
      KingMovesFromCol7(n, d);
    }
  }

  lemma KingTargetsBits(kingPos: bv64, own: bv64, d: bv8)
    requires d < 64
    ensures Has(KingTargets(kingPos, own), d) <==> Has(KingMoves(kingPos), d) && !Has(own, d)
  {
    AndNotBits(KingMoves(kingPos), own, d);
  }

  /** The king mask from n is the Chebyshev-distance-1 neighbourhood of n minus `own`; it never wraps. */
  lemma KingTargetsExact(n: bv8, own: bv64, d: bv8)
    requires n < 64 && d < 64
    ensures Has(KingTargets(1 << n, own), d) <==> KingStep(n, d) && !Has(own, d)
  {
    KingMovesExact(n, d);
    KingTargetsBits(1 << n, own, d);
  }

  lemma KnightMovesFromCol0(n: bv8, d: bv8)
    requires n < 64 && d < 64 && Col(n) == 0
    ensures Has(KnightMoves(1 << n), d) <==> KnightStep(n, d)
  {
  }

  lemma KnightMovesFromCol1(n: bv8, d: bv8)
    requires n < 64 && d < 64 && Col(n) == 1
    ensures Has(KnightMoves(1 << n), d) <==> KnightStep(n, d)
  {
  }

  lemma KnightMovesFromCol2(n: bv8, d: bv8)
    requires n < 64 && d < 64 && Col(n) == 2
    ensures Has(KnightMoves(1 << n), d) <==> KnightStep(n, d)
  {
  }

  lemma KnightMovesFromCol3(n: bv8, d: bv8)
    requires n < 64 && d < 64 && Col(n) == 3
    ensures Has(KnightMoves(1 << n), d) <==> KnightStep(n, d)
  {
  }

  lemma KnightMovesFromCol4(n: bv8, d: bv8)
    requires n < 64 && d < 64 && Col(n) == 4
    ensures Has(KnightMoves(1 << n), d) <==> KnightStep(n, d)
  {
  }

  lemma KnightMovesFromCol5(n: bv8, d: bv8)
    requires n < 64 && d < 64 && Col(n) == 5
    ensures Has(KnightMoves(1 << n), d) <==> KnightStep(n, d)
  {
  }

  lemma KnightMovesFromCol6(n: bv8, d: bv8)
    requires n < 64 && d < 64 && Col(n) == 6
    ensures Has(KnightMoves(1 << n), d) <==> KnightStep(n, d)
  {
  }

  lemma KnightMovesFromCol7(n: bv8, d: bv8)
    requires n < 64 && d < 64 && Col(n) == 7
    ensures Has(KnightMoves(1 << n), d) <==> KnightStep(n, d)
  {
  }

  lemma KnightMovesExact(n: bv8, d: bv8)
    requires n < 64 && d < 64
    ensures Has(KnightMoves(1 << n), d) <==> KnightStep(n, d)
  {
    if Col(n) == 0 {
      KnightMovesFromCol0(n, d);
    } else if Col(n) == 1 {
      KnightMovesFromCol1(n, d);
    } else if Col(n) == 2 {
      KnightMovesFromCol2(n, d);
    } else if Col(n) == 3 {
      KnightMovesFromCol3(n, d);
    } else if Col(n) == 4 {
      KnightMovesFromCol4(n, d);
    } else if Col(n) == 5 {
      KnightMovesFromCol5(n, d);
    } else if Col(n) == 6 {
      KnightMovesFromCol6(n, d);
    } else {
      KnightMovesFromCol7(n, d);
    }
  }

  lemma KnightTargetsBits(knightsPos: bv64, own: bv64, d: bv8)
    requires d < 64
    ensures Has(KnightTargets(knightsPos, own), d) <==> Has(KnightMoves(knightsPos), d) && !Has(own, d)
  {
    AndNotBits(KnightMoves(knightsPos), own, d);
  }

  /** The knight mask from n is the on-board knight jumps from n minus `own`; it never wraps. */
  lemma KnightTargetsExact(n: bv8, own: bv64, d: bv8)
    requires n < 64 && d < 64
    ensures Has(KnightTargets(1 << n, own), d) <==> KnightStep(n, d) && !Has(own, d)
  {
    KnightMovesExact(n, d);
    KnightTargetsBits(1 << n, own, d);
  }

  // The pawn expressions are characterised for any set of origins `pos`, one
  // part at a time, then for a single origin square n.

  lemma WhiteValidMovesBits(pos: bv64, white: bv64, black: bv64, d: bv8)
    requires d < 64
    ensures var oneStep := (pos << 8) & !white;
      Has((oneStep | ((oneStep & !ClearRank(2)) << 8)) & !black, d) <==>
      ((d >= 8 && Has(pos, d - 8) && !Has(white, d)) ||
       (d >= 16 && Has(pos, d - 16) && !Has(white, d - 8) && Row(d) == 3)) && !Has(black, d)
  {
  }

  lemma WhiteAttacksBits(pos: bv64, black: bv64, d: bv8)
    requires d < 64
    ensures Has((((pos & ClearFile(0)) << 7) | ((pos & ClearFile(7)) << 9)) & black, d) <==>
      Has(black, d) &&
      ((d >= 7 && Has(pos, d - 7) && Col(d - 7) != 7) || (d >= 9 && Has(pos, d - 9) && Col(d - 9) != 0))
  {
  }

  lemma WhitePawnTargetsSplit(pos: bv64, white: bv64, black: bv64)
    ensures WhitePawnTargets(pos, white, black) ==
      ((((pos << 8) & !white) | ((((pos << 8) & !white) & !ClearRank(2)) << 8)) & !black) |
      ((((pos & ClearFile(0)) << 7) | ((pos & ClearFile(7)) << 9)) & black)
  {
  }

  /** The white pawn mask for any set of origins `pos`. */
  lemma WhitePawnTargetsBits(pos: bv64, white: bv64, black: bv64, d: bv8)
    requires d < 64
    ensures Has(WhitePawnTargets(pos, white, black), d) <==>
      (d >= 8 && Has(pos, d - 8) && !Has(white, d) && !Has(black, d)) ||
      (d >= 16 && Has(pos, d - 16) && Row(d) == 3 && !Has(white, d - 8) && !Has(black, d)) ||
      (Has(black, d) &&
       ((d >= 7 && Has(pos, d - 7) && Col(d - 7) != 7) || (d >= 9 && Has(pos, d - 9) && Col(d - 9) != 0)))
  {
    WhitePawnTargetsSplit(pos, white, black);
    UnionBits(WhitePawnTargets(pos, white, black),
      (((pos << 8) & !white) | ((((pos << 8) & !white) & !ClearRank(2)) << 8)) & !black,
      (((pos & ClearFile(0)) << 7) | ((pos & ClearFile(7)) << 9)) & black, d);
    WhiteValidMovesBits(pos, white, black, d);
    WhiteAttacksBits(pos, black, d);
  }

  /**
   * The white pawn mask from n: the single push onto an empty square, the double push
   * from row 1 over a square free of white pieces onto a square free of black pieces,
   * and the n + 7 / n + 9 squares held by black. The diagonals are clipped as written:
   * n + 7 is offered from column 0 (where it lies on row(n)) and n + 9 from column 7
   * (where it lies on row(n) + 2), while n + 7 from column 7 and n + 9 from column 0 are not.
   */
  lemma WhitePawnTargetsExact(n: bv8, white: bv64, black: bv64, d: bv8)
    requires n < 64 && d < 64
    ensures Has(WhitePawnTargets(1 << n, white, black), d) <==>
      (d == n + 8 && !Has(white, d) && !Has(black, d)) ||
      (d == n + 16 && Row(n) == 1 && !Has(white, n + 8) && !Has(black, d)) ||
      (d == n + 7 && Col(n) != 7 && Has(black, d)) ||
      (d == n + 9 && Col(n) != 0 && Has(black, d))
  {
    WhitePawnTargetsBits(1 << n, white, black, d);
    if d >= 7 { SingleBits(n, d - 7); }
    if d >= 8 { SingleBits(n, d - 8); }
    if d >= 9 { SingleBits(n, d - 9); }
    if d >= 16 { SingleBits(n, d - 16); }
  }

  lemma BlackValidMovesBits(pos: bv64, white: bv64, black: bv64, d: bv8)
    requires d < 64
    ensures var oneStep := (pos >> 8) & !black;
      Has((oneStep | ((oneStep & !ClearRank(5)) >> 8)) & !white, d) <==>
      ((d < 56 && Has(pos, d + 8) && !Has(black, d)) ||
       (d < 48 && Has(pos, d + 16) && !Has(black, d + 8) && Row(d) == 4)) && !Has(white, d)
  {
  }

  lemma BlackAttacksBits(pos: bv64, white: bv64, d: bv8)
    requires d < 64
    ensures Has((((pos & ClearFile(7)) >> 9) | ((pos & ClearFile(0)) >> 7)) & white, d) <==>
      Has(white, d) &&
      ((d < 57 && Has(pos, d + 7) && Col(d + 7) != 7) || (d < 55 && Has(pos, d + 9) && Col(d + 9) != 0))
  {
  }

  lemma BlackPawnTargetsSplit(pos: bv64, white: bv64, black: bv64)
    ensures BlackPawnTargets(pos, white, black) ==
      ((((pos >> 8) & !black) | ((((pos >> 8) & !black) & !ClearRank(5)) >> 8)) & !white) |
      ((((pos & ClearFile(7)) >> 9) | ((pos & ClearFile(0)) >> 7)) & white)
  {
  }

  /** The black pawn mask for any set of origins `pos`. */
  lemma BlackPawnTargetsBits(pos: bv64, white: bv64, black: bv64, d: bv8)
    requires d < 64
    ensures Has(BlackPawnTargets(pos, white, black), d) <==>
      (d < 56 && Has(pos, d + 8) && !Has(black, d) && !Has(white, d)) ||
      (d < 48 && Has(pos, d + 16) && Row(d) == 4 && !Has(black, d + 8) && !Has(white, d)) ||
      (Has(white, d) &&
       ((d < 57 && Has(pos, d + 7) && Col(d + 7) != 7) || (d < 55 && Has(pos, d + 9) && Col(d + 9) != 0)))
  {
    BlackPawnTargetsSplit(pos, white, black);
    UnionBits(BlackPawnTargets(pos, white, black),
      (((pos >> 8) & !black) | ((((pos >> 8) & !black) & !ClearRank(5)) >> 8)) & !white,
      (((pos & ClearFile(7)) >> 9) | ((pos & ClearFile(0)) >> 7)) & white, d);
    BlackValidMovesBits(pos, white, black, d);
    BlackAttacksBits(pos, white, d);
  }

  /**
   * The black pawn mask from n: the single push onto an empty square, the double push
   * from row 6 over a square free of black pieces onto a square free of white pieces,
   * and the diagonal squares n - 7 (not from column 7) and n - 9 (not from column 0)
   * held by white.
   */
  lemma BlackPawnTargetsExact(n: bv8, white: bv64, black: bv64, d: bv8)
    requires n < 64 && d < 64
    ensures Has(BlackPawnTargets(1 << n, white, black), d) <==>
      (d + 8 == n && !Has(black, d) && !Has(white, d)) ||
      (d + 16 == n && Row(n) == 6 && !Has(black, d + 8) && !Has(white, d)) ||
      (d + 7 == n && Col(n) != 7 && Has(white, d)) ||
      (d + 9 == n && Col(n) != 0 && Has(white, d))
  {
    BlackPawnTargetsBits(1 << n, white, black, d);
    if d < 57 { SingleBits(n, d + 7); }
    if d < 56 { SingleBits(n, d + 8); }
    if d < 55 { SingleBits(n, d + 9); }
    if d < 48 { SingleBits(n, d + 16); }
  }
}
