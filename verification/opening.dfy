/** The starting position: its text, and exactly the twenty moves that it allows. */
module Openings {
  import opened Pieces
  import opened Squares
  import opened Rules
  import opened Zobrist
  import opened Invariant
  import opened Evaluation
  import opened Fen
  import opened Trees
  import opened ChessHandlers

  const BLACK_ROW: seq<int> := [BR, BN, BB, BQ, BK, BB, BN, BR]
  const BLACK_PAWNS: seq<int> := [BP, BP, BP, BP, BP, BP, BP, BP]
  const WHITE_PAWNS: seq<int> := [WP, WP, WP, WP, WP, WP, WP, WP]
  const WHITE_ROW: seq<int> := [WR, WN, WB, WQ, WK, WB, WN, WR]

  const START_GRID: Grid :=
    [BLACK_ROW, BLACK_PAWNS, EMPTY_ROW, EMPTY_ROW, EMPTY_ROW, EMPTY_ROW, WHITE_PAWNS, WHITE_ROW]

  const START_POSITION: Pos := Pos(START_GRID, WHITE, 15, OFFBOARD, OFFBOARD)

  const START_TEXT: string := "rnbqkbnr/pppppppp/8/8/8/8/PPPPPPPP/RNBQKBNR w KQkq -"

  lemma StartShape()
    ensures Shape(START_GRID) && Hashable(START_POSITION)
    ensures forall c :: 0 <= c < 8 ==>
              && At(START_GRID, 0, c) == BLACK_ROW[c] && At(START_GRID, 1, c) == BP && At(START_GRID, 6, c) == WP
              && At(START_GRID, 7, c) == WHITE_ROW[c]
    ensures forall r, c :: On(r, c) && 2 <= r <= 5 ==> At(START_GRID, r, c) == NOPIECE
  {
  }

  // ----- It is well formed -----

  lemma RowOfEight(p: int, row: seq<int>, r: int)
    requires |row| == 8
    ensures RowSum(IsA(p), row, r, 8)
         == Unit(row[0] == p) + Unit(row[1] == p) + Unit(row[2] == p) + Unit(row[3] == p)
            + Unit(row[4] == p) + Unit(row[5] == p) + Unit(row[6] == p) + Unit(row[7] == p)
  {
    assert RowSum(IsA(p), row, r, 1) == Unit(row[0] == p);
    assert RowSum(IsA(p), row, r, 2) == RowSum(IsA(p), row, r, 1) + Unit(row[1] == p);
    assert RowSum(IsA(p), row, r, 3) == RowSum(IsA(p), row, r, 2) + Unit(row[2] == p);
    assert RowSum(IsA(p), row, r, 4) == RowSum(IsA(p), row, r, 3) + Unit(row[3] == p);
    assert RowSum(IsA(p), row, r, 5) == RowSum(IsA(p), row, r, 4) + Unit(row[4] == p);
    assert RowSum(IsA(p), row, r, 6) == RowSum(IsA(p), row, r, 5) + Unit(row[5] == p);
    assert RowSum(IsA(p), row, r, 7) == RowSum(IsA(p), row, r, 6) + Unit(row[6] == p);
  }

  lemma StartCounts(p: int)
    requires IsPiece(p)
    ensures Shape(START_GRID)
    ensures Count(START_GRID, p) == if IsPawn(p) then 8 else if IsKing(p) || p == WQ || p == BQ then 1 else 2
  {
    StartShape();
    hide RowSum, Sum;
    EightRows(IsA(p), START_GRID);
    RowOfEight(p, BLACK_ROW, 0);
    RowOfEight(p, BLACK_PAWNS, 1);
    RowOfEight(p, EMPTY_ROW, 2);
    RowOfEight(p, EMPTY_ROW, 3);
    RowOfEight(p, EMPTY_ROW, 4);
    RowOfEight(p, EMPTY_ROW, 5);
    RowOfEight(p, WHITE_PAWNS, 6);
    RowOfEight(p, WHITE_ROW, 7);
  }

  /** The first two rows as black has set them up. */
  ghost predicate BlackAtHome(sq: Grid)
    requires Shape(sq)
  {
    forall c :: 0 <= c < 8 ==> At(sq, 0, c) == BLACK_ROW[c] && At(sq, 1, c) == BP
  }

  ghost predicate WhiteAtHome(sq: Grid)
    requires Shape(sq)
  {
    forall c :: 0 <= c < 8 ==> At(sq, 7, c) == WHITE_ROW[c] && At(sq, 6, c) == WP
  }

  /** A row without gaps next to a piece hides everything beyond it. */
  lemma BlockedAhead(sq: Grid, pr: int, pc: int, r: int, c: int, wall: int)
    requires Shape(sq) && On(pr, pc) && On(r, c) && 0 <= wall < 8 && ((wall == pr + 1 && r > wall) || (wall == pr - 1 && r < wall))
    requires Diagonal(pr, pc, r, c) || Straight(pr, pc, r, c)
    requires forall y :: 0 <= y < 8 ==> At(sq, wall, y) != NOPIECE
    ensures !Clear(sq, pr, pc, r, c)
  {
    var y := pc + Sgn(c - pc);
    assert OnRay(pr, pc, Sgn(r - pr), Sgn(c - pc), wall, y) && Dist(pr, pc, wall, y) < Dist(pr, pc, r, c);
    assert On(wall, y) && At(sq, wall, y) != NOPIECE;
  }

  /** Behind their pawns, black's pieces attack nothing beyond the third row from the top. */
  lemma BlackReach(sq: Grid, pr: int, pc: int, r: int, c: int)
    requires Shape(sq) && BlackAtHome(sq) && 0 <= pr <= 1 && On(pr, pc) && On(r, c)
    ensures Attacks(sq, At(sq, pr, pc), pr, pc, r, c) ==> r <= 2
  {
    hide Clear;
    if pr == 0 && r > 2 && (Diagonal(pr, pc, r, c) || Straight(pr, pc, r, c)) {
      BlockedAhead(sq, pr, pc, r, c, 1);
    }
  }

  /** White's pieces leave their two rows only as pawns and knights, and attack nothing beyond the third row from below. */
  lemma WhiteReach(sq: Grid, pr: int, pc: int, r: int, c: int)
    requires Shape(sq) && WhiteAtHome(sq) && 6 <= pr <= 7 && On(pr, pc) && On(r, c)
    ensures Attacks(sq, At(sq, pr, pc), pr, pc, r, c) && r < 6 ==>
              r == 5 && (pr == 6 || (IsKnight(At(sq, pr, pc)) && Abs(c - pc) == 1))
  {
    hide Clear;
    if pr == 7 && r < 6 && (Diagonal(pr, pc, r, c) || Straight(pr, pc, r, c)) {
      BlockedAhead(sq, pr, pc, r, c, 6);
    }
  }

  lemma StartWellFormed()
    ensures WellFormed(START_POSITION)
  {
    StartShape();
    forall p | IsPiece(p)
      ensures Count(START_GRID, p) == if IsPawn(p) then 8 else if IsKing(p) || p == WQ || p == BQ then 1 else 2
    {
      StartCounts(p);
    }
    StartUnchecked();
    StartRights();
    hide Count, InCheck, Has, Attacked;
    assert NoEdgePawns(START_GRID);
  }

  lemma StartRights()
    ensures Shape(START_GRID) && CastleTruthful(START_POSITION)
  {
    StartShape();
    hide Has;
  }

  lemma StartUnchecked()
    ensures Shape(START_GRID) && !InCheck(START_GRID, BLACK)
  {
    StartShape();
    hide Attacks;
    forall r, c, pr, pc | On(r, c) && On(pr, pc) && KingAttackedOn(START_GRID, r, c, BLACK)
      ensures !AttackedFrom(START_GRID, pr, pc, r, c, WHITE)
    {
      if AttackedFrom(START_GRID, pr, pc, r, c, WHITE) {
        WhiteReach(START_GRID, pr, pc, r, c);
      }
    }
  }

  // ----- Its text -----

  lemma EmptyRowText(sq: Grid, r: int)
    requires Shape(sq) && 0 <= r < 8 && forall c :: 0 <= c < 8 ==> At(sq, r, c) == NOPIECE
    ensures RowText(sq, r, 0, 0) == "8"
  {
    assert RowText(sq, r, 8, 8) == "8";
    assert RowText(sq, r, 4, 4) == RowText(sq, r, 5, 5) == RowText(sq, r, 6, 6) == RowText(sq, r, 7, 7) == "8";
    assert RowText(sq, r, 0, 0) == RowText(sq, r, 1, 1) == RowText(sq, r, 2, 2) == RowText(sq, r, 3, 3);
  }

  lemma {:induction false} FullRowText(sq: Grid, r: int, c: int)
    requires Shape(sq) && 0 <= r < 8 && 0 <= c <= 8 && forall c :: 0 <= c < 8 ==> At(sq, r, c) != NOPIECE
    ensures |RowText(sq, r, c, 0)| == 8 - c
    ensures forall k :: 0 <= k < 8 - c ==> RowText(sq, r, c, 0)[k] == Letter(At(sq, r, c + k))
    decreases 8 - c
  {
    hide Letter;
    if c < 8 {
      FullRowText(sq, r, c + 1);
      assert RowText(sq, r, c, 0) == [Letter(At(sq, r, c))] + RowText(sq, r, c + 1, 0);
    }
  }

  lemma Eight(s: string)
    requires |s| == 8
    ensures s == [s[0], s[1], s[2], s[3], s[4], s[5], s[6], s[7]]
  {
  }

  lemma StartRows()
    ensures Shape(START_GRID)
    ensures RowText(START_GRID, 0, 0, 0) == "rnbqkbnr" && RowText(START_GRID, 1, 0, 0) == "pppppppp"
    ensures RowText(START_GRID, 6, 0, 0) == "PPPPPPPP" && RowText(START_GRID, 7, 0, 0) == "RNBQKBNR"
    ensures forall r :: 2 <= r <= 5 ==> RowText(START_GRID, r, 0, 0) == "8"
  {
    hide RowText;
    StartShape();
    FullRowText(START_GRID, 0, 0);
    FullRowText(START_GRID, 1, 0);
    FullRowText(START_GRID, 6, 0);
    FullRowText(START_GRID, 7, 0);
    Eight(RowText(START_GRID, 0, 0, 0));
    Eight(RowText(START_GRID, 1, 0, 0));
    Eight(RowText(START_GRID, 6, 0, 0));
    Eight(RowText(START_GRID, 7, 0, 0));
    forall r | 2 <= r <= 5
      ensures RowText(START_GRID, r, 0, 0) == "8"
    {
      EmptyRowText(START_GRID, r);
    }
  }

  lemma RowsFrom(sq: Grid, r: int)
    requires Shape(sq) && 0 <= r < 8
    ensures RowsText(sq, r) == if r == 7 then RowText(sq, r, 0, 0) else RowText(sq, r, 0, 0) + ("/" + RowsText(sq, r + 1))
  {
    hide RowText;
  }

  lemma StartPlacement()
    ensures Shape(START_GRID)
    ensures RowsText(START_GRID, 0) == "rnbqkbnr" + ("/" + ("pppppppp" + ("/" + ("8" + ("/" + ("8" + ("/" + ("8" + ("/" +
                                       ("8" + ("/" + ("PPPPPPPP" + ("/" + "RNBQKBNR")))))))))))))
  {
    StartShape();
    StartRows();
    hide RowText, RowsText;
    RowsFrom(START_GRID, 7);
    RowsFrom(START_GRID, 6);
    RowsFrom(START_GRID, 5);
    RowsFrom(START_GRID, 4);
    RowsFrom(START_GRID, 3);
    RowsFrom(START_GRID, 2);
    RowsFrom(START_GRID, 1);
    RowsFrom(START_GRID, 0);
  }

  const LOWER_ROWS: string := "8/8/8/8/PPPPPPPP/RNBQKBNR"

  lemma LowerLetters()
    ensures LOWER_ROWS == "8" + ("/" + ("8" + ("/" + ("8" + ("/" + ("8" + ("/" + ("PPPPPPPP" + ("/" + "RNBQKBNR")))))))))
  {
    assert "PPPPPPPP" + ("/" + "RNBQKBNR") == "PPPPPPPP/RNBQKBNR";
  }

  lemma StartLetters()
    ensures START_TEXT == "rnbqkbnr" + ("/" + ("pppppppp" + ("/" + LOWER_ROWS))) + (" w " + ("KQkq" + (" " + "-")))
  {
    assert "rnbqkbnr" + ("/" + ("pppppppp" + ("/" + LOWER_ROWS))) == "rnbqkbnr/pppppppp/8/8/8/8/PPPPPPPP/RNBQKBNR";
    assert " w " + ("KQkq" + (" " + "-")) == " w KQkq -";
  }

  /** The starting position is printed as every chess program prints it, up to the move counters. */
  lemma StartText()
    ensures Hashable(START_POSITION) && Text(START_POSITION) == START_TEXT
  {
    StartShape();
    StartPlacement();
    LowerLetters();
    StartLetters();
    hide RowsText, LOWER_ROWS;
    assert CastleText(15) == "KQkq";
  }

  /** Main result: that text is read as the starting position. */
  lemma StartIsRead()
    ensures Shape(START.pos.sq) && Parse(START_TEXT, START) == Accepted(START_POSITION)
  {
    hide Parse, Text, WellFormed;
    StartWellFormed();
    StartText();
    FenRoundTrip(START_POSITION);
  }

  // ----- Its moves -----

  /** A pawn one or two squares straight on, or a knight over the pawns. */
  ghost predicate OpeningMove(m: Move) {
    && On(m.fr, m.fc) && On(m.tr, m.tc) && Shape(START_GRID)
    && m == MoveOf(START_POSITION, m.fr, m.fc, m.tr, m.tc, NOPIECE)
    && (|| (m.fr == 6 && m.tc == m.fc && (m.tr == 5 || m.tr == 4))
        || (m.fr == 7 && (m.fc == 1 || m.fc == 6) && m.tr == 5 && Abs(m.tc - m.fc) == 1))
  }

  lemma OpeningIsPseudoLegal(m: Move)
    requires Shape(START_GRID) && OpeningMove(m)
    ensures PseudoLegal(START_POSITION, m) && Appliable(START_POSITION, m) && !m.ep && !m.castle && m.prom == NOPIECE
  {
    StartShape();
    hide Attacked, Has, CastleRule;
  }

  lemma OnlyOpeningMoves(m: Move)
    requires Shape(START_GRID)
    ensures PseudoLegal(START_POSITION, m) ==> OpeningMove(m)
  {
    StartShape();
    hide Attacks, Attacked, Has;
    if PseudoLegal(START_POSITION, m) {
      WhiteReach(START_GRID, m.fr, m.fc, m.tr, m.tc);
    }
  }

  /** No white move lets black's undeveloped pieces reach the white king. */
  lemma OpeningIsSafe(m: Move)
    requires Shape(START_GRID) && OpeningMove(m) && Appliable(START_POSITION, m) && !m.ep && !m.castle && m.prom == NOPIECE
    ensures !InCheck(SquaresAfter(START_POSITION, m), WHITE)
  {
    hide Attacks, MoveOf, Appliable;
    var after := SquaresAfter(START_POSITION, m);
    OpeningLeaves(m);
    forall r, c, pr, pc | On(r, c) && On(pr, pc) && At(after, r, c) == WK
      ensures !AttackedFrom(after, pr, pc, r, c, BLACK)
    {
      if AttackedFrom(after, pr, pc, r, c, BLACK) {
        BlackReach(after, pr, pc, r, c);
      }
    }
  }

  lemma OpeningLeaves(m: Move)
    requires Shape(START_GRID) && OpeningMove(m) && Appliable(START_POSITION, m) && !m.ep && !m.castle && m.prom == NOPIECE
    ensures var after := SquaresAfter(START_POSITION, m);
            && BlackAtHome(after)
            && (forall r, c :: On(r, c) && r > 1 ==> At(after, r, c) == NOPIECE || PceCol(At(after, r, c)) == WHITE)
            && (forall r, c :: On(r, c) && At(after, r, c) == WK ==> r == 7)
  {
    StartShape();
    hide MoveOf, Appliable;
  }

  /** Main result: the legal moves of the starting position are the sixteen pawn moves and the four knight moves. */
  lemma OpeningMoves(m: Move)
    ensures WellFormed(START_POSITION)
    ensures Legal(START_POSITION, m) <==> OpeningMove(m)
  {
    StartWellFormed();
    StartShape();
    OnlyOpeningMoves(m);
    if OpeningMove(m) {
      OpeningIsPseudoLegal(m);
      OpeningIsSafe(m);
    }
    hide WellFormed, PseudoLegal, OpeningMove, InCheck, SquaresAfter;
  }

  ghost function Opening(fr: int, fc: int, tr: int, tc: int): Move
    requires Shape(START_GRID) && On(fr, fc) && On(tr, tc)
  {
    MoveOf(START_POSITION, fr, fc, tr, tc, NOPIECE)
  }

  /** The opening moves in a row: single steps, double steps, knights. */
  ghost function Nth(i: nat): (m: Move)
    requires Shape(START_GRID) && i < 20
  {
    if i < 8 then Opening(6, i, 5, i) else if i < 16 then Opening(6, i - 8, 4, i - 8)
    else if i == 16 then Opening(7, 1, 5, 0) else if i == 17 then Opening(7, 1, 5, 2)
    else if i == 18 then Opening(7, 6, 5, 5) else Opening(7, 6, 5, 7)
  }

  lemma NthIsOpening(i: nat)
    requires Shape(START_GRID) && i < 20
    ensures OpeningMove(Nth(i)) && forall j: nat :: j < i ==> Nth(j) != Nth(i)
  {
  }

  lemma OpeningIsNth(m: Move)
    requires Shape(START_GRID) && OpeningMove(m)
    ensures exists i: nat :: i < 20 && m == Nth(i)
  {
    hide MoveOf;
    var i := if m.fr == 6 then (if m.tr == 5 then m.fc else m.fc + 8)
             else if m.fc == 1 then (if m.tc == 0 then 16 else 17) else (if m.tc == 5 then 18 else 19);
    assert m == Nth(i);
  }

  ghost function FirstMoves(n: nat): set<Move>
    requires Shape(START_GRID) && n <= 20
  {
    set i: nat | i < n :: Nth(i)
  }

  lemma {:induction false} FirstMovesCount(n: nat)
    requires Shape(START_GRID) && n <= 20
    ensures |FirstMoves(n)| == n
  {
    hide Nth, OpeningMove;
    if n > 0 {
      FirstMovesCount(n - 1);
      NthIsOpening(n - 1);
      assert FirstMoves(n) == FirstMoves(n - 1) + {Nth(n - 1)};
    }
  }

  /** There are twenty of them. */
  lemma TwentyOpenings()
    ensures WellFormed(START_POSITION) && |LegalMoves(START_POSITION)| == 20
  {
    StartWellFormed();
    StartShape();
    hide WellFormed, Legal, Nth, OpeningMove;
    forall m
      ensures m in LegalMoves(START_POSITION) <==> m in FirstMoves(20)
    {
      OpeningMoves(m);
      if OpeningMove(m) {
        OpeningIsNth(m);
      }
      if m in FirstMoves(20) {
        var i: nat :| i < 20 && m == Nth(i);
        NthIsOpening(i);
      }
    }
    assert LegalMoves(START_POSITION) == FirstMoves(20);
    FirstMovesCount(20);
  }

  /** The queen's knight goes to c3: the request for it is accepted on the starting text. */
  lemma KnightOpens()
    ensures Shape(START.pos.sq) && Parse(START_TEXT, START) == Accepted(START_POSITION)
    ensures WellFormed(START_POSITION) && Accepts(START_POSITION, "7152")
  {
    StartIsRead();
    StartWellFormed();
    StartShape();
    var m := MoveOf(START_POSITION, 7, 1, 5, 2, NOPIECE);
    assert FourCoords("7152") && Chosen(START_POSITION, "7152") == m;
    OpeningMoves(m);
    hide WellFormed, Legal, Parse;
  }

  /** With all pieces on the board the evaluation counts the middlegame alone. */
  lemma StartIsMiddlegame()
    ensures Shape(START_GRID) && Sum(PHASE_CELL, START_GRID) == 24
    ensures StaticEval(START_POSITION) == Sum(MgCell(START_GRID), START_GRID)
  {
    StartShape();
    hide Sum, PHASE_CELL, MgCell, StaticEval;
    PhaseByCounts(START_GRID);
    StartCounts(WN);
    StartCounts(BN);
    StartCounts(WB);
    StartCounts(BB);
    StartCounts(WR);
    StartCounts(BR);
    StartCounts(WQ);
    StartCounts(BQ);
    EvaluationIsBlend(START_POSITION);
  }

  // ----- A pawn ending -----

  /** Both kings at home and a white pawn on a2. */
  ghost function PawnEnding(): (sq: Grid)
    ensures Shape(sq)
    ensures forall r, c :: On(r, c) ==>
              At(sq, r, c) == if r == 0 && c == 4 then BK else if r == 7 && c == 4 then WK
                              else if r == 6 && c == 0 then WP else NOPIECE
  {
    Put(Put(Put(EMPTY_GRID, 0, 4, BK), 7, 4, WK), 6, 0, WP)
  }

  lemma EmptyEndgame()
    ensures Shape(EMPTY_GRID) && Sum(EG_CELL, EMPTY_GRID) == 0
  {
    SumEqual(EG_CELL, NOTHING, EMPTY_GRID);
    NothingSums(EMPTY_GRID);
  }

  lemma PawnEndingSum()
    ensures Sum(EG_CELL, PawnEnding()) == 107
  {
    hide Sum, EG_CELL;
    EmptyEndgame();
    SumPut(EG_CELL, EMPTY_GRID, 0, 4, BK);
    SumPut(EG_CELL, Put(EMPTY_GRID, 0, 4, BK), 7, 4, WK);
    SumPut(EG_CELL, Put(Put(EMPTY_GRID, 0, 4, BK), 7, 4, WK), 6, 0, WP);
    PawnEndingCells();
  }

  lemma PawnEndingCells()
    ensures EG_CELL(6, 0, WP) == 107 && EG_CELL(0, 4, BK) == -EG_CELL(7, 4, WK)
    ensures EG_CELL(6, 0, NOPIECE) == EG_CELL(0, 4, NOPIECE) == EG_CELL(7, 4, NOPIECE) == 0
  {
    EgOf(6, 0, WP);
    EgOf(0, 4, BK);
    EgOf(7, 4, WK);
    assert EG_PAWN[6] == [13, 8, 8, 10, 13, 0, 2, -7];
  }

  /** There the evaluation is the endgame value of the pawn, 94 and 13 for its square; the kings cancel out. */
  lemma PawnEndingValue(side: int)
    requires IsSide(side)
    ensures StaticEval(Pos(PawnEnding(), side, 0, OFFBOARD, OFFBOARD)) == if side == WHITE then 107 else -107
  {
    hide Sum, MgCell, EG_CELL, PHASE_CELL, StaticEval, PawnEnding;
    PawnEndingSum();
    EvaluationIsBlend(Pos(PawnEnding(), side, 0, OFFBOARD, OFFBOARD));
  }
}
