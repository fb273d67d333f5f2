/** Every legal move keeps a well-formed position well formed. */
module Invariant {
  import opened Pieces
  import opened Squares
  import opened Rules

  lemma WellShaped(pos: Pos)
    requires WellFormed(pos)
    ensures Shape(pos.sq) && IsSide(pos.side)
  {
  }

  lemma EpWithinBoard(pos: Pos)
    requires WellFormed(pos)
    ensures Shape(pos.sq) && ((pos.epR == OFFBOARD && pos.epC == OFFBOARD) || On(pos.epR, pos.epC))
  {
  }

  /** A move that could take a king shows that this king is attacked. */
  lemma KingTaken(pos: Pos, m: Move)
    requires Shape(pos.sq) && IsSide(pos.side) && PseudoLegal(pos, m)
    ensures m.cap == KingOf(Other(pos.side)) ==> InCheck(pos.sq, Other(pos.side))
  {
    if m.cap == KingOf(Other(pos.side)) {
      assert AttackedFrom(pos.sq, m.fr, m.fc, m.tr, m.tc, pos.side);
      assert KingAttackedOn(pos.sq, m.tr, m.tc, Other(pos.side));
    }
  }

  /** A king that keeps a castling right stands at home. */
  lemma CastlingKingHome(pos: Pos, m: Move)
    requires WellFormed(pos) && PseudoLegal(pos, m)
    requires IsKing(At(pos.sq, m.fr, m.fc)) && CastleRule(pos, m)
    ensures m.fr == HomeRow(pos.side) && m.fc == 4 && m.castle
  {
    CountUnique(pos.sq, m.fr, m.fc, HomeRow(pos.side), 4, KingOf(pos.side));
  }

  ghost predicate EpFacts(pos: Pos, m: Move)
    requires Shape(pos.sq) && IsSide(pos.side) && On(m.fr, m.fc) && On(m.tr, m.tc)
  {
    && At(pos.sq, m.fr, m.fc) == PawnOf(pos.side)
    && m.fr == EpFromRow(pos.side) == EpVictimRow(pos.side, m.tr)
    && m.tc != m.fc
    && At(pos.sq, m.fr, m.tc) == PawnOf(Other(pos.side))
    && m.cap == NOPIECE && m.prom == NOPIECE && !m.castle && !m.start
  }

  ghost predicate CastleFacts(pos: Pos, m: Move)
    requires Shape(pos.sq) && IsSide(pos.side) && On(m.fr, m.fc) && On(m.tr, m.tc)
  {
    && At(pos.sq, m.fr, m.fc) == KingOf(pos.side)
    && m.fr == m.tr == HomeRow(pos.side) && m.fc == 4 && (m.tc == 2 || m.tc == 6)
    && At(pos.sq, m.fr, RookFrom(m.tc)) == RookOf(pos.side)
    && At(pos.sq, m.fr, RookTo(m.tc)) == NOPIECE
    && m.cap == NOPIECE && m.prom == NOPIECE && !m.ep && !m.start
  }

  /** An en passant key is an en passant capture, and only a diagonal step onto the square gets it. */
  lemma EpMove(pos: Pos, m: Move)
    requires WellFormed(pos) && PseudoLegal(pos, m) && m.ep
    ensures EpFacts(pos, m)
  {
    var p := At(pos.sq, m.fr, m.fc);
    assert p == PawnOf(pos.side);
    assert At(pos.sq, EpFromRow(pos.side), pos.epC) == PawnOf(Other(pos.side));
  }

  lemma CastleMove(pos: Pos, m: Move)
    requires WellFormed(pos) && PseudoLegal(pos, m) && m.castle
    ensures CastleFacts(pos, m)
  {
    assert Abs(m.tc - m.fc) == 2;
    assert CastleRule(pos, m);
    CastlingKingHome(pos, m);
  }

  /** What kind of move a pseudo-legal move in a well-formed position can be. */
  lemma MoveFacts(pos: Pos, m: Move)
    requires WellFormed(pos) && PseudoLegal(pos, m)
    ensures Appliable(pos, m) && Packable(m)
    ensures m.fr != m.tr || m.fc != m.tc
    ensures m.ep ==> EpFacts(pos, m)
    ensures m.castle ==> CastleFacts(pos, m)
    ensures m.cap != NOPIECE ==> Owned(m.cap, Other(pos.side)) && !IsKing(m.cap)
    ensures m.prom != NOPIECE ==> At(pos.sq, m.fr, m.fc) == PawnOf(pos.side) && PromotesTo(pos.side, m.prom)
    ensures m.start ==> At(pos.sq, m.fr, m.fc) == PawnOf(pos.side) && m.fr == PawnRow(pos.side)
                        && m.tc == m.fc && m.tr == m.fr + 2 * Forward(pos.side) && m.prom == NOPIECE
                        && At(pos.sq, m.fr + Forward(pos.side), m.fc) == NOPIECE && m.cap == NOPIECE
  {
    if m.ep { EpMove(pos, m); }
    if m.castle { CastleMove(pos, m); }
    KingTaken(pos, m);
  }

  // ----- Preservation -----

  function Unit(b: bool): int { if b then 1 else 0 }

  /** Piece counts move only by the capture and the promotion. */
  lemma CountAfter(pos: Pos, m: Move, p: int)
    requires WellFormed(pos) && PseudoLegal(pos, m) && IsPiece(p)
    ensures Appliable(pos, m)
    ensures Count(SquaresAfter(pos, m), p)
         == Count(pos.sq, p) - Unit(p == At(pos.sq, m.fr, m.fc)) + Unit(p == Placed(pos, m))
            - Unit(p == m.cap) - Unit(m.ep && p == PawnOf(Other(pos.side)))
  {
    MoveFacts(pos, m);
    var side := SideEffects(pos, m);
    if m.ep {
      CountPut(pos.sq, EpVictimRow(pos.side, m.tr), m.tc, NOPIECE, p);
    } else if m.castle {
      var home := HomeRow(pos.side);
      CountPut(pos.sq, home, RookFrom(m.tc), NOPIECE, p);
      CountPut(Put(pos.sq, home, RookFrom(m.tc), NOPIECE), home, RookTo(m.tc), RookOf(pos.side), p);
    }
    CountPut(side, m.fr, m.fc, NOPIECE, p);
    CountPut(Put(side, m.fr, m.fc, NOPIECE), m.tr, m.tc, Placed(pos, m), p);
  }

  lemma RoomAfter(pos: Pos, m: Move)
    requires WellFormed(pos) && PseudoLegal(pos, m)
    ensures Appliable(pos, m) && Room(SquaresAfter(pos, m)) && OneKingEach(SquaresAfter(pos, m))
  {
    MoveFacts(pos, m);
    forall p | IsPiece(p)
      ensures Count(SquaresAfter(pos, m), p)
           == Count(pos.sq, p) - Unit(p == At(pos.sq, m.fr, m.fc)) + Unit(p == Placed(pos, m))
              - Unit(p == m.cap) - Unit(m.ep && p == PawnOf(Other(pos.side)))
    {
      CountAfter(pos, m, p);
    }
  }

  lemma NoEdgePawnsAfter(pos: Pos, m: Move)
    requires WellFormed(pos) && PseudoLegal(pos, m)
    ensures Appliable(pos, m) && NoEdgePawns(SquaresAfter(pos, m))
  {
    MoveFacts(pos, m);
  }

  lemma CastleAfterHas(pos: Pos, m: Move)
    requires Appliable(pos, m)
    ensures var king := IsKing(At(pos.sq, m.fr, m.fc)); var after := CastleAfter(pos, m);
            && (Has(after, WKCA) == (Has(pos.castle, WKCA) && !(king && pos.side == WHITE) && !Touches(m, 7, 7)))
            && (Has(after, WQCA) == (Has(pos.castle, WQCA) && !(king && pos.side == WHITE) && !Touches(m, 7, 0)))
            && (Has(after, BKCA) == (Has(pos.castle, BKCA) && !(king && pos.side == BLACK) && !Touches(m, 0, 7)))
            && (Has(after, BQCA) == (Has(pos.castle, BQCA) && !(king && pos.side == BLACK) && !Touches(m, 0, 0)))
  {
  }

  lemma CastleTruthfulAfter(pos: Pos, m: Move)
    requires WellFormed(pos) && PseudoLegal(pos, m)
    ensures Appliable(pos, m) && CastleTruthful(Apply(pos, m))
  {
    hide Count, Attacked, EpTruthful;
    MoveFacts(pos, m);
    CastleAfterHas(pos, m);
  }

  lemma EpTruthfulAfter(pos: Pos, m: Move)
    requires WellFormed(pos) && PseudoLegal(pos, m)
    ensures Appliable(pos, m) && EpTruthful(Apply(pos, m))
  {
    MoveFacts(pos, m);
  }

  /** Main result: a legal move leads from a well-formed position to a well-formed position. */
  lemma LegalKeepsWellFormed(pos: Pos, m: Move)
    requires WellFormed(pos) && Legal(pos, m)
    ensures WellFormed(Apply(pos, m))
  {
    RoomAfter(pos, m);
    NoEdgePawnsAfter(pos, m);
    CastleTruthfulAfter(pos, m);
    EpTruthfulAfter(pos, m);
  }

  // ----- Room in the ten-slot piece lists -----

  /** Every square of g that holds a p holds a p in sq as well. */
  ghost predicate NoMore(g: Grid, sq: Grid, p: int)
    requires Shape(g) && Shape(sq)
  {
    forall x, y :: On(x, y) && At(g, x, y) == p ==> At(sq, x, y) == p
  }

  lemma CountNoMore(g: Grid, sq: Grid, p: int)
    requires Shape(g) && Shape(sq) && NoMore(g, sq, p)
    ensures Count(g, p) <= Count(sq, p)
  {
    SumBounds(IsA(p), g, IsA(p), sq);
  }

  /** A piece of sq that is missing in g fits back in. */
  lemma CountMissing(g: Grid, sq: Grid, r: int, c: int, p: int)
    requires Shape(g) && Shape(sq) && NoMore(g, sq, p) && On(r, c) && IsPiece(p)
    requires At(sq, r, c) == p && At(g, r, c) != p
    ensures Count(g, p) < Count(sq, p)
  {
    CountNoMore(Put(g, r, c, p), sq, p);
    CountPut(g, r, c, p, p);
  }

  lemma AtMostTen(sq: Grid, p: int)
    requires Shape(sq) && Room(sq) && OneKingEach(sq) && IsPiece(p)
    ensures 0 <= Count(sq, p) <= 10
  {
    CountNonNegative(sq, WP);
    CountNonNegative(sq, BP);
    CountNonNegative(sq, p);
    hide Sum;
  }

  lemma ReturnFits(g: Grid, pos: Pos, r: int, c: int, p: int)
    requires WellFormed(pos) && Shape(g) && NoMore(g, pos.sq, p) && On(r, c) && IsPiece(p)
    requires At(pos.sq, r, c) == p && At(g, r, c) != p
    ensures Count(g, p) < 10
  {
    CountMissing(g, pos.sq, r, c, p);
    AtMostTen(pos.sq, p);
  }

  /** The piece that a move puts down finds a free slot: a promoting pawn gave one up. */
  lemma PlacementFits(pos: Pos, m: Move, g: Grid)
    requires WellFormed(pos) && PseudoLegal(pos, m) && Appliable(pos, m)
    requires g == Put(Put(SideEffects(pos, m), m.fr, m.fc, NOPIECE), m.tr, m.tc, NOPIECE)
    ensures Count(g, Placed(pos, m)) < 10
  {
    MoveFacts(pos, m);
    var p := At(pos.sq, m.fr, m.fc);
    if m.prom == NOPIECE {
      assert NoMore(g, pos.sq, p);
      ReturnFits(g, pos, m.fr, m.fc, p);
    } else {
      assert NoMore(g, pos.sq, m.prom);
      CountNoMore(g, pos.sq, m.prom);
      CountPresent(pos.sq, m.fr, m.fc, p);
    }
  }

  lemma PutTwice(sq: Grid, r: int, c: int, p: int, q: int)
    requires Shape(sq) && On(r, c) && IsCell(p) && IsCell(q)
    ensures Put(Put(sq, r, c, p), r, c, q) == Put(sq, r, c, q)
    ensures At(sq, r, c) == q ==> Put(sq, r, c, q) == sq
  {
    SameGrid(Put(Put(sq, r, c, p), r, c, q), Put(sq, r, c, q));
    if At(sq, r, c) == q {
      SameGrid(Put(sq, r, c, q), sq);
    }
  }

  /** The chain of cleared rights in makeMove computes CastleAfter. */
  function ClearedRights(castle: bv4, king: bool, side: int, m: Move): bv4 {
    var a := if king && side == WHITE then Without(Without(castle, WKCA), WQCA)
             else if king then Without(Without(castle, BKCA), BQCA) else castle;
    var b := if Touches(m, 0, 0) then Without(a, BQCA) else a;
    var c := if Touches(m, 0, 7) then Without(b, BKCA) else b;
    var d := if Touches(m, 7, 0) then Without(c, WQCA) else c;
    if Touches(m, 7, 7) then Without(d, WKCA) else d
  }

  lemma ClearedRightsAreCastleAfter(pos: Pos, m: Move)
    requires Appliable(pos, m)
    ensures ClearedRights(pos.castle, IsKing(At(pos.sq, m.fr, m.fc)), pos.side, m) == CastleAfter(pos, m)
  {
    hide Touches;
  }

  /** Moving victims and rooks out of the way touches neither end of the move. */
  lemma SideEffectsHere(pos: Pos, m: Move)
    requires WellFormed(pos) && PseudoLegal(pos, m) && Appliable(pos, m)
    ensures At(SideEffects(pos, m), m.fr, m.fc) == At(pos.sq, m.fr, m.fc)
    ensures At(SideEffects(pos, m), m.tr, m.tc) == At(pos.sq, m.tr, m.tc)
  {
    MoveFacts(pos, m);
  }

  lemma MoverPresent(pos: Pos, m: Move)
    requires WellFormed(pos) && PseudoLegal(pos, m)
    ensures On(m.fr, m.fc) && At(pos.sq, m.fr, m.fc) != NOPIECE
  {
  }

  /** With one king of the colour, being in check is being attacked where that king stands. */
  lemma InCheckThere(sq: Grid, r: int, c: int, side: int)
    requires Shape(sq) && On(r, c) && OneKingEach(sq) && IsSide(side) && At(sq, r, c) == KingOf(side)
    ensures InCheck(sq, side) <==> Attacked(sq, r, c, Other(side))
  {
    if Attacked(sq, r, c, Other(side)) {
      assert KingAttackedOn(sq, r, c, side);
    }
    if InCheck(sq, side) {
      var x, y :| On(x, y) && KingAttackedOn(sq, x, y, side);
      CountUnique(sq, r, c, x, y, KingOf(side));
    }
  }

  lemma CastleAfterLess(pos: Pos, m: Move)
    requires Appliable(pos, m)
    ensures CastleAfter(pos, m) & pos.castle == CastleAfter(pos, m)
  {
  }

  /** Hashing the recorded rights back in, one by one. */
  function RestoredRights(after: bv4, castle: bv4): bv4 {
    var a := if Has(castle, WKCA) then With(after, WKCA) else after;
    var b := if Has(castle, WQCA) then With(a, WQCA) else a;
    var c := if Has(castle, BKCA) then With(b, BKCA) else b;
    if Has(castle, BQCA) then With(c, BQCA) else c
  }

  lemma RightsRestored(after: bv4, castle: bv4)
    requires after & castle == after
    ensures RestoredRights(after, castle) == castle
  {
  }

  /** The board with only the two ends of the move changed. */
  ghost function EndsOnly(pos: Pos, m: Move): (g: Grid)
    requires Appliable(pos, m)
    ensures Shape(g)
  {
    Put(Put(pos.sq, m.fr, m.fc, NOPIECE), m.tr, m.tc, Placed(pos, m))
  }

  /** The old board with both ends of the move emptied. */
  ghost function Lifted(pos: Pos, m: Move): (g: Grid)
    requires Appliable(pos, m)
    ensures Shape(g)
  {
    Put(Put(pos.sq, m.fr, m.fc, NOPIECE), m.tr, m.tc, NOPIECE)
  }

  /** From there the piece and its victim, put back, restore the old position. */
  lemma Homecoming(pos: Pos, m: Move)
    requires WellFormed(pos) && PseudoLegal(pos, m) && Appliable(pos, m)
    ensures var g, p := Lifted(pos, m), At(pos.sq, m.fr, m.fc);
            && At(g, m.fr, m.fc) == NOPIECE && At(g, m.tr, m.tc) == NOPIECE && IsPiece(p) && Count(g, p) < 10
            && var g' := Put(g, m.fr, m.fc, p);
               && At(g', m.tr, m.tc) == NOPIECE
               && (m.cap == NOPIECE ==> g' == pos.sq)
               && (m.cap != NOPIECE ==> IsPiece(m.cap) && Count(g', m.cap) < 10 && Put(g', m.tr, m.tc, m.cap) == pos.sq)
  {
    MoveFacts(pos, m);
    var g, p := Lifted(pos, m), At(pos.sq, m.fr, m.fc);
    hide PseudoLegal, WellFormed, Count;
    ReturnFits(g, pos, m.fr, m.fc, p);
    var g' := Put(g, m.fr, m.fc, p);
    if m.cap == NOPIECE {
      SameGrid(g', pos.sq);
    } else {
      ReturnFits(g', pos, m.tr, m.tc, m.cap);
      SameGrid(Put(g', m.tr, m.tc, m.cap), pos.sq);
    }
  }

  /** Removing whatever the move put down empties its target. */
  lemma LiftAgain(pos: Pos, m: Move, p: int)
    requires Appliable(pos, m) && IsCell(p)
    ensures Put(EndsOnly(pos, m), m.tr, m.tc, NOPIECE) == Lifted(pos, m)
    ensures Put(Put(Lifted(pos, m), m.tr, m.tc, p), m.tr, m.tc, NOPIECE) == Lifted(pos, m)
  {
    PutTwice(Put(pos.sq, m.fr, m.fc, NOPIECE), m.tr, m.tc, Placed(pos, m), NOPIECE);
    PutTwice(Put(pos.sq, m.fr, m.fc, NOPIECE), m.tr, m.tc, NOPIECE, p);
    PutTwice(Put(pos.sq, m.fr, m.fc, NOPIECE), m.tr, m.tc, p, NOPIECE);
  }

  /** Putting the victim or the rook back leaves a board where only the ends of the move differ. */
  lemma OthersHomecoming(pos: Pos, m: Move)
    requires WellFormed(pos) && PseudoLegal(pos, m) && Appliable(pos, m)
    ensures var g := SquaresAfter(pos, m);
            && (m.ep ==>
                  var r, p := EpVictimRow(pos.side, m.tr), PawnOf(Other(pos.side));
                  On(r, m.tc) && At(g, r, m.tc) == NOPIECE && Count(g, p) < 10 && Put(g, r, m.tc, p) == EndsOnly(pos, m))
            && (m.castle ==>
                  var home, rook := HomeRow(pos.side), RookOf(pos.side);
                  At(g, home, RookTo(m.tc)) == rook
                  && var g' := Put(g, home, RookTo(m.tc), NOPIECE);
                     At(g', home, RookFrom(m.tc)) == NOPIECE && Count(g', rook) < 10
                     && Put(g', home, RookFrom(m.tc), rook) == EndsOnly(pos, m))
            && (!m.ep && !m.castle ==> g == EndsOnly(pos, m))
  {
    MoveFacts(pos, m);
    hide PseudoLegal, WellFormed, Count;
    var g := SquaresAfter(pos, m);
    if m.ep {
      var r, p := EpVictimRow(pos.side, m.tr), PawnOf(Other(pos.side));
      ReturnFits(g, pos, r, m.tc, p);
      SameGrid(Put(g, r, m.tc, p), EndsOnly(pos, m));
    } else if m.castle {
      var home, rook := HomeRow(pos.side), RookOf(pos.side);
      var g' := Put(g, home, RookTo(m.tc), NOPIECE);
      ReturnFits(g', pos, home, RookFrom(m.tc), rook);
      SameGrid(Put(g', home, RookFrom(m.tc), rook), EndsOnly(pos, m));
    }
  }

  /** Lifting the mover and its victim leaves room to put the piece down. */
  lemma LiftForMove(pos: Pos, m: Move)
    requires WellFormed(pos) && PseudoLegal(pos, m) && Appliable(pos, m)
    ensures var g := SideEffects(pos, m);
            var g' := Put(g, m.fr, m.fc, NOPIECE);
            var g'' := Put(g', m.tr, m.tc, NOPIECE);
            && At(g, m.fr, m.fc) != NOPIECE
            && (m.cap != NOPIECE ==> At(g', m.tr, m.tc) != NOPIECE)
            && (m.cap == NOPIECE ==> g'' == g')
            && At(g'', m.tr, m.tc) == NOPIECE
            && IsPiece(Placed(pos, m)) && Count(g'', Placed(pos, m)) < 10
            && Put(g'', m.tr, m.tc, Placed(pos, m)) == SquaresAfter(pos, m)
  {
    MoveFacts(pos, m);
    MoverPresent(pos, m);
    SideEffectsHere(pos, m);
    hide WellFormed, PseudoLegal, SideEffects, Count;
    var g' := Put(SideEffects(pos, m), m.fr, m.fc, NOPIECE);
    PutTwice(g', m.tr, m.tc, NOPIECE, Placed(pos, m));
    PutTwice(g', m.tr, m.tc, NOPIECE, NOPIECE);
    PlacementFits(pos, m, Put(g', m.tr, m.tc, NOPIECE));
  }
}
