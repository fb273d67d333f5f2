/** What a legal move does to each square, to the rights and to the en passant square, in the words of the Laws of Chess. */
module Effects {
  import opened Pieces
  import opened Squares
  import opened Rules
  import opened Invariant

  /** The king moves two squares along its row. */
  ghost predicate Castles(pos: Pos, m: Move)
    requires Shape(pos.sq) && On(m.fr, m.fc)
  {
    IsKing(At(pos.sq, m.fr, m.fc)) && Abs(m.tc - m.fc) == 2
  }

  /** A pawn leaves its column although there is nothing to take on its target. */
  ghost predicate TakesInPassing(pos: Pos, m: Move)
    requires Shape(pos.sq) && On(m.fr, m.fc) && On(m.tr, m.tc)
  {
    IsPawn(At(pos.sq, m.fr, m.fc)) && m.tc != m.fc && At(pos.sq, m.tr, m.tc) == NOPIECE
  }

  /** The row on which the pieces of a side start. */
  function BackRow(side: int): int { if side == WHITE then 7 else 0 }

  /** The column of the corner towards which the king moves. */
  function Corner(m: Move): int { if m.tc > m.fc then 7 else 0 }

  /** The square the king crosses. */
  function Crossed(m: Move): int { (m.fc + m.tc) / 2 }

  /** What stands on a square after the move. */
  ghost function Lands(pos: Pos, m: Move, r: int, c: int): int
    requires Shape(pos.sq) && On(m.fr, m.fc) && On(m.tr, m.tc) && On(r, c)
  {
    if r == m.tr && c == m.tc then (if m.prom == NOPIECE then At(pos.sq, m.fr, m.fc) else m.prom)
    else if r == m.fr && c == m.fc then NOPIECE
    else if Castles(pos, m) && r == m.fr && c == Crossed(m) then At(pos.sq, m.fr, Corner(m))
    else if Castles(pos, m) && r == m.fr && c == Corner(m) then NOPIECE
    else if TakesInPassing(pos, m) && r == m.fr && c == m.tc then NOPIECE
    else At(pos.sq, r, c)
  }

  lemma MoveKinds(pos: Pos, m: Move)
    requires WellFormed(pos) && PseudoLegal(pos, m)
    ensures Appliable(pos, m) && (m.castle <==> Castles(pos, m)) && (m.ep <==> TakesInPassing(pos, m))
  {
    MoveFacts(pos, m);
    if Castles(pos, m) {
      assert CastleRule(pos, m);
      CastlingKingHome(pos, m);
    }
  }

  /** Main result: castling moves the corner rook to the square the king has crossed, an en passant capture empties the
      square beside the start of the pawn, and no move changes anything else but its two ends. */
  lemma MoveChanges(pos: Pos, m: Move)
    requires WellFormed(pos) && Legal(pos, m)
    ensures Shape(Apply(pos, m).sq) && forall r, c :: On(r, c) ==> At(Apply(pos, m).sq, r, c) == Lands(pos, m, r, c)
    ensures Castles(pos, m) ==>
              m.fr == m.tr == BackRow(pos.side) && m.fc == 4 && At(pos.sq, m.fr, Corner(m)) == RookOf(pos.side)
    ensures TakesInPassing(pos, m) ==> At(pos.sq, m.fr, m.tc) == PawnOf(Other(pos.side)) && Abs(m.tr - m.fr) == 1
  {
    MoveFacts(pos, m);
    MoveKinds(pos, m);
    hide WellFormed, PseudoLegal, Count, InCheck;
  }

  /** The right to castle towards a corner. */
  function RightTowards(side: int, corner: int): bv4 {
    if side == WHITE then (if corner == 7 then WKCA else WQCA) else (if corner == 7 then BKCA else BQCA)
  }

  lemma RightUntouched(pos: Pos, m: Move, side: int, corner: int)
    requires Appliable(pos, m) && IsSide(side) && (corner == 0 || corner == 7)
    ensures Has(CastleAfter(pos, m), RightTowards(side, corner))
       <==> && Has(pos.castle, RightTowards(side, corner)) && !Touches(m, BackRow(side), corner)
            && !(IsKing(At(pos.sq, m.fr, m.fc)) && pos.side == side)
  {
    CastleAfterHas(pos, m);
    hide CastleAfter, Has, Touches;
  }

  lemma RightAtHome(pos: Pos, side: int, corner: int)
    requires WellFormed(pos) && IsSide(side) && (corner == 0 || corner == 7) && Has(pos.castle, RightTowards(side, corner))
    ensures At(pos.sq, BackRow(side), 4) == KingOf(side) && At(pos.sq, BackRow(side), corner) == RookOf(side)
    ensures forall r, c :: On(r, c) && At(pos.sq, r, c) == KingOf(side) ==> r == BackRow(side) && c == 4
  {
    forall r, c | On(r, c) && At(pos.sq, r, c) == KingOf(side)
      ensures r == BackRow(side) && c == 4
    {
      CountUnique(pos.sq, BackRow(side), 4, r, c, KingOf(side));
    }
  }

  /** A castling right survives a legal move exactly if king and rook are still on their squares. */
  lemma RightKept(pos: Pos, m: Move, side: int, corner: int)
    requires WellFormed(pos) && Legal(pos, m) && IsSide(side) && (corner == 0 || corner == 7)
    ensures var after, right, back := Apply(pos, m), RightTowards(side, corner), BackRow(side);
            Has(after.castle, right)
            <==> && Has(pos.castle, right)
                 && At(after.sq, back, 4) == KingOf(side) && At(after.sq, back, corner) == RookOf(side)
  {
    hide Legal, PseudoLegal, WellFormed, CastleAfter, SquaresAfter, Has, RightTowards;
    LegalAppliesTo(pos, m);
    RightUntouched(pos, m, side, corner);
    MoveChanges(pos, m);
    StartAndEnd(pos, m);
    if Has(pos.castle, RightTowards(side, corner)) {
      RightAtHome(pos, side, corner);
    }
  }

  lemma LegalAppliesTo(pos: Pos, m: Move)
    requires WellFormed(pos) && Legal(pos, m)
    ensures Appliable(pos, m) && Apply(pos, m).castle == CastleAfter(pos, m)
  {
    hide WellFormed, PseudoLegal, CastleAfter, SquaresAfter, InCheck;
  }

  lemma StartAndEnd(pos: Pos, m: Move)
    requires WellFormed(pos) && Legal(pos, m)
    ensures On(m.fr, m.fc) && On(m.tr, m.tc) && (m.fr != m.tr || m.fc != m.tc)
    ensures Owned(At(pos.sq, m.fr, m.fc), pos.side)
    ensures !Owned(At(pos.sq, m.tr, m.tc), pos.side) && !IsKing(At(pos.sq, m.tr, m.tc))
    ensures m.prom != NOPIECE ==> IsPawn(At(pos.sq, m.fr, m.fc)) && PromotesTo(pos.side, m.prom)
  {
    MoveFacts(pos, m);
    hide InCheck, EpTruthful, Count;
  }

  /** The move passes to the other side, and only a pawn that has moved two rows leaves an en passant square: the one it
      has passed over. */
  lemma PassedOver(pos: Pos, m: Move)
    requires WellFormed(pos) && Legal(pos, m)
    ensures var after := Apply(pos, m);
            && IsSide(after.side) && after.side != pos.side
            && (if IsPawn(At(pos.sq, m.fr, m.fc)) && Abs(m.tr - m.fr) == 2
                then after.epR == (m.fr + m.tr) / 2 && after.epC == m.fc else after.epR == after.epC == OFFBOARD)
  {
    MoveFacts(pos, m);
    hide WellFormed, InCheck, Count, CastleAfter, SquaresAfter;
  }

  /** A pawn promotes exactly on the rows at the edge, to a knight, bishop, rook or queen of its own colour. */
  lemma PromotionMeans(pos: Pos, m: Move)
    requires WellFormed(pos) && Legal(pos, m)
    ensures m.prom != NOPIECE <==> IsPawn(At(pos.sq, m.fr, m.fc)) && (m.tr == 0 || m.tr == 7)
    ensures m.prom != NOPIECE ==>
              Owned(m.prom, pos.side) && (IsKnight(m.prom) || DoDiag(m.prom) || DoVert(m.prom))
  {
    hide InCheck, EpTruthful, Count, Clear, CastleRule;
  }

  // ----- When castling is legal -----

  /** On boards that differ only in one row, a piece outside that row attacks its squares alike. */
  lemma AttackFromOutside(a: Grid, b: Grid, p: int, pr: int, pc: int, r: int, c: int)
    requires Shape(a) && Shape(b) && On(pr, pc) && On(r, c) && pr != r
    requires forall x, y :: On(x, y) && x != r ==> At(a, x, y) == At(b, x, y)
    ensures Attacks(a, p, pr, pc, r, c) <==> Attacks(b, p, pr, pc, r, c)
  {
    if Diagonal(pr, pc, r, c) || Straight(pr, pc, r, c) {
      forall x, y | On(x, y) && OnRay(pr, pc, Sgn(r - pr), Sgn(c - pc), x, y) && Dist(pr, pc, x, y) < Dist(pr, pc, r, c)
        ensures At(a, x, y) == At(b, x, y)
      {
        assert x != r;
      }
    }
  }

  /** A piece in the same row attacks nothing beyond an occupied square. */
  lemma Blocked(sq: Grid, p: int, r: int, pc: int, c: int, between: int)
    requires Shape(sq) && On(r, pc) && On(r, c) && On(r, between) && At(sq, r, between) != NOPIECE
    requires (pc < between < c || c < between < pc) && IsPiece(p) && Abs(c - pc) > 2
    ensures !Attacks(sq, p, r, pc, r, c)
  {
    assert OnRay(r, pc, 0, Sgn(c - pc), r, between);
  }

  /** The king's target is attacked after castling exactly if it is before. */
  lemma TargetAttacked(pos: Pos, m: Move)
    requires WellFormed(pos) && PseudoLegal(pos, m) && Castles(pos, m) && Appliable(pos, m)
    ensures Attacked(SquaresAfter(pos, m), m.tr, m.tc, Other(pos.side)) <==> Attacked(pos.sq, m.tr, m.tc, Other(pos.side))
  {
    var after, enemy := SquaresAfter(pos, m), Other(pos.side);
    CastlingPath(pos, m);
    hide WellFormed, PseudoLegal, SquaresAfter, Attacks;
    forall pr, pc | On(pr, pc)
      ensures AttackedFrom(after, pr, pc, m.tr, m.tc, enemy) <==> AttackedFrom(pos.sq, pr, pc, m.tr, m.tc, enemy)
    {
      if pr != m.tr {
        AttackFromOutside(after, pos.sq, At(pos.sq, pr, pc), pr, pc, m.tr, m.tc);
      } else if Owned(At(pos.sq, pr, pc), enemy) {
        Blocked(pos.sq, At(pos.sq, pr, pc), pr, pc, m.tc, 4);
        Blocked(after, At(pos.sq, pr, pc), pr, pc, m.tc, Crossed(m));
      }
    }
  }

  /** The back row before and after castling. */
  lemma CastlingPath(pos: Pos, m: Move)
    requires WellFormed(pos) && PseudoLegal(pos, m) && Castles(pos, m) && Appliable(pos, m)
    ensures m.fr == m.tr == BackRow(pos.side) && m.fc == 4 && (m.tc == 2 || m.tc == 6)
    ensures At(pos.sq, m.fr, 4) == KingOf(pos.side) && At(pos.sq, m.fr, Corner(m)) == RookOf(pos.side)
    ensures forall c :: (4 < c < Corner(m) || Corner(m) < c < 4) ==> At(pos.sq, m.fr, c) == NOPIECE
    ensures At(SquaresAfter(pos, m), m.fr, Crossed(m)) == RookOf(pos.side)
    ensures At(SquaresAfter(pos, m), m.tr, m.tc) == KingOf(pos.side) && OneKingEach(SquaresAfter(pos, m))
    ensures forall x, y :: On(x, y) && x != m.tr ==> At(SquaresAfter(pos, m), x, y) == At(pos.sq, x, y)
    ensures forall y :: 0 <= y < 8 && Owned(At(SquaresAfter(pos, m), m.tr, y), Other(pos.side)) ==>
              At(SquaresAfter(pos, m), m.tr, y) == At(pos.sq, m.tr, y)
    ensures forall y :: 0 <= y < 8 && Owned(At(pos.sq, m.tr, y), Other(pos.side)) ==>
              At(SquaresAfter(pos, m), m.tr, y) == At(pos.sq, m.tr, y)
  {
    MoveKinds(pos, m);
    MoveFacts(pos, m);
    RoomAfter(pos, m);
    hide Count, InCheck, EpTruthful, Attacked;
  }

  /** Main result: Article 3.8.2. A king at home may castle exactly if the right is held, all squares between king and rook
      are empty, and no enemy piece attacks the square the king stands on, crosses or reaches. */
  lemma CastlingIsLegalIff(pos: Pos, tc: int)
    requires WellFormed(pos) && (tc == 2 || tc == 6) && At(pos.sq, BackRow(pos.side), 4) == KingOf(pos.side)
    ensures var m, back := MoveOf(pos, BackRow(pos.side), 4, BackRow(pos.side), tc, NOPIECE), BackRow(pos.side);
            Legal(pos, m)
            <==> && Has(pos.castle, RightTowards(pos.side, Corner(m)))
                 && (forall c :: (4 < c < Corner(m) || Corner(m) < c < 4) ==> At(pos.sq, back, c) == NOPIECE)
                 && (forall c :: (4 <= c <= tc || tc <= c <= 4) ==> !Attacked(pos.sq, back, c, Other(pos.side)))
  {
    hide WellFormed, PseudoLegal, Attacked, SquaresAfter, Has, RightTowards, InCheck, Legal, Appliable;
    WellShaped(pos);
    var back := BackRow(pos.side);
    var m := MoveOf(pos, back, 4, back, tc, NOPIECE);
    assert m.fr == m.tr == back && m.fc == 4 && m.tc == tc;
    CastlingPseudoLegal(pos, m);
    LegalMeans(pos, m);
    ThreeSquares(pos.sq, back, tc, Other(pos.side));
    if PseudoLegal(pos, m) {
      CastlingCheck(pos, m);
    }
  }

  lemma CastlingCheck(pos: Pos, m: Move)
    requires WellFormed(pos) && PseudoLegal(pos, m) && Castles(pos, m) && Appliable(pos, m)
    ensures InCheck(SquaresAfter(pos, m), pos.side) <==> Attacked(pos.sq, m.tr, m.tc, Other(pos.side))
  {
    hide WellFormed, PseudoLegal, Attacked, SquaresAfter, InCheck, OneKingEach;
    CastlingPath(pos, m);
    TargetAttacked(pos, m);
    WellShaped(pos);
    InCheckThere(SquaresAfter(pos, m), m.tr, m.tc, pos.side);
  }

  lemma ThreeSquares(sq: Grid, r: int, tc: int, enemy: int)
    requires Shape(sq) && 0 <= r < 8 && (tc == 2 || tc == 6)
    ensures (forall c :: (4 <= c <= tc || tc <= c <= 4) ==> !Attacked(sq, r, c, enemy))
       <==> !Attacked(sq, r, 4, enemy) && !Attacked(sq, r, (4 + tc) / 2, enemy) && !Attacked(sq, r, tc, enemy)
  {
    hide Attacked;
  }

  lemma LegalMeans(pos: Pos, m: Move)
    requires WellFormed(pos)
    ensures Legal(pos, m) <==> PseudoLegal(pos, m) && Appliable(pos, m) && !InCheck(SquaresAfter(pos, m), pos.side)
  {
    hide WellFormed, PseudoLegal, SquaresAfter, InCheck, CastleAfter;
  }

  lemma CastlingPseudoLegal(pos: Pos, m: Move)
    requires WellFormed(pos) && (m.tc == 2 || m.tc == 6) && At(pos.sq, BackRow(pos.side), 4) == KingOf(pos.side)
    requires m == MoveOf(pos, BackRow(pos.side), 4, BackRow(pos.side), m.tc, NOPIECE)
    ensures Castles(pos, m)
    ensures PseudoLegal(pos, m)
       <==> && Has(pos.castle, RightTowards(pos.side, Corner(m)))
            && (forall c :: (4 < c < Corner(m) || Corner(m) < c < 4) ==> At(pos.sq, m.fr, c) == NOPIECE)
            && !Attacked(pos.sq, m.fr, 4, Other(pos.side)) && !Attacked(pos.sq, m.fr, Crossed(m), Other(pos.side))
    ensures PseudoLegal(pos, m) ==> Appliable(pos, m)
  {
    hide Count, InCheck, EpTruthful, Attacked, Has;
  }
}
