/** The attacks of the pieces, held against Articles 3.2 to 3.8 of the Laws of Chess. */
module AttackLaws {
  import opened Pieces
  import opened Squares
  import opened Rules

  /** Article 3.6: a knight goes to the nearest squares that are not on the same row, column or diagonal. */
  lemma KnightLaw(sq: Grid, p: int, r: int, c: int, tr: int, tc: int)
    requires Shape(sq) && IsKnight(p)
    ensures Attacks(sq, p, r, c, tr, tc)
       <==> Dist(r, c, tr, tc) == 2 && !Diagonal(r, c, tr, tc) && !Straight(r, c, tr, tc)
  {
  }

  /** Articles 3.2 to 3.4: a queen attacks what a rook or a bishop in its place would. */
  lemma QueenLaw(sq: Grid, r: int, c: int, tr: int, tc: int)
    requires Shape(sq)
    ensures Attacks(sq, WQ, r, c, tr, tc) <==> Attacks(sq, WR, r, c, tr, tc) || Attacks(sq, WB, r, c, tr, tc)
  {
    hide Clear;
  }

  /** A rook keeps its row or column, a bishop the colour of its squares, and no square is attacked by both. */
  lemma RookAndBishop(sq: Grid, r: int, c: int, tr: int, tc: int)
    requires Shape(sq)
    ensures Attacks(sq, WR, r, c, tr, tc) ==> (tr == r || tc == c) && (tr != r || tc != c)
    ensures Attacks(sq, WB, r, c, tr, tc) ==> (r + c - tr - tc) % 2 == 0 && tr != r && tc != c
  {
    hide Clear;
    assert tr - r == tc - c ==> r + c - tr - tc == 2 * (r - tr);
    assert tr - r == c - tc ==> r + c - tr - tc == 0;
  }

  /** The colour of a piece matters for pawns only. */
  lemma ColourBlind(sq: Grid, p: int, r: int, c: int, tr: int, tc: int)
    requires Shape(sq) && 0 < p <= WK
    ensures Attacks(sq, p, r, c, tr, tc) <==> Attacks(sq, p + 6, r, c, tr, tc)
  {
    hide Clear;
  }

  /** A white pawn attacks a square exactly if a black pawn there would attack it: each strikes one row ahead, one column
      aside. */
  lemma PawnLaw(sq: Grid, r: int, c: int, tr: int, tc: int)
    requires Shape(sq)
    ensures Attacks(sq, WP, r, c, tr, tc) <==> Attacks(sq, BP, tr, tc, r, c)
    ensures Attacks(sq, WP, r, c, tr, tc) <==> tr == r - 1 && (tc == c - 1 || tc == c + 1)
  {
  }

  /** Article 3.8.1: a king attacks the adjoining squares. */
  lemma KingLaw(sq: Grid, p: int, r: int, c: int, tr: int, tc: int)
    requires Shape(sq) && IsKing(p)
    ensures Attacks(sq, p, r, c, tr, tc) <==> Attacks(sq, WQ, r, c, tr, tc) && Dist(r, c, tr, tc) == 1
  {
  }

  lemma RaysMeet(r: int, c: int, tr: int, tc: int, x: int, y: int)
    requires Diagonal(r, c, tr, tc) || Straight(r, c, tr, tc)
    ensures OnRay(r, c, Sgn(tr - r), Sgn(tc - c), x, y) && Dist(r, c, x, y) < Dist(r, c, tr, tc)
       <==> OnRay(tr, tc, Sgn(r - tr), Sgn(c - tc), x, y) && Dist(tr, tc, x, y) < Dist(tr, tc, r, c)
  {
  }

  lemma ClearBothWays(sq: Grid, r: int, c: int, tr: int, tc: int)
    requires Shape(sq) && (Diagonal(r, c, tr, tc) || Straight(r, c, tr, tc)) && Clear(sq, r, c, tr, tc)
    ensures Clear(sq, tr, tc, r, c)
  {
    hide OnRay, Dist, Sgn, Diagonal, Straight;
    forall x, y | On(x, y) && OnRay(tr, tc, Sgn(r - tr), Sgn(c - tc), x, y) && Dist(tr, tc, x, y) < Dist(tr, tc, r, c)
      ensures At(sq, x, y) == NOPIECE
    {
      RaysMeet(r, c, tr, tc, x, y);
    }
  }

  /** Article 3.5: whoever is not a pawn is attacked from where it attacks, because what stands between stands between. */
  lemma AttackIsMutual(sq: Grid, p: int, r: int, c: int, tr: int, tc: int)
    requires Shape(sq) && IsPiece(p) && !IsPawn(p)
    ensures Attacks(sq, p, r, c, tr, tc) ==> Attacks(sq, p, tr, tc, r, c)
  {
    hide Clear;
    if Attacks(sq, p, r, c, tr, tc) && (DoDiag(p) || DoVert(p)) {
      ClearBothWays(sq, r, c, tr, tc);
    }
  }

  /** The square before the last on a line. */
  lemma LastStep(r: int, c: int, tr: int, tc: int)
    requires On(r, c) && On(tr, tc) && Dist(r, c, tr, tc) > 1 && (Diagonal(r, c, tr, tc) || Straight(r, c, tr, tc))
    ensures var x, y := tr - Sgn(tr - r), tc - Sgn(tc - c);
            && On(x, y) && OnRay(r, c, Sgn(tr - r), Sgn(tc - c), x, y) && Dist(r, c, x, y) == Dist(r, c, tr, tc) - 1
            && Sgn(x - r) == Sgn(tr - r) && Sgn(y - c) == Sgn(tc - c)
            && (Diagonal(r, c, x, y) <==> Diagonal(r, c, tr, tc)) && (Straight(r, c, x, y) <==> Straight(r, c, tr, tc))
  {
  }

  lemma SameDistance(r: int, c: int, dr: int, dc: int, x: int, y: int, u: int, v: int)
    requires OnRay(r, c, dr, dc, x, y) && OnRay(r, c, dr, dc, u, v) && Dist(r, c, x, y) == Dist(r, c, u, v)
    ensures x == u && y == v
  {
  }

  lemma ClearStep(sq: Grid, r: int, c: int, tr: int, tc: int, x: int, y: int)
    requires Shape(sq) && On(x, y) && OnRay(r, c, Sgn(tr - r), Sgn(tc - c), x, y)
    requires Dist(r, c, x, y) == Dist(r, c, tr, tc) - 1 && Sgn(x - r) == Sgn(tr - r) && Sgn(y - c) == Sgn(tc - c)
    ensures Clear(sq, r, c, tr, tc) <==> Clear(sq, r, c, x, y) && At(sq, x, y) == NOPIECE
  {
    hide OnRay, Dist, Sgn;
    if Clear(sq, r, c, x, y) && At(sq, x, y) == NOPIECE {
      forall u, v | On(u, v) && OnRay(r, c, Sgn(tr - r), Sgn(tc - c), u, v) && Dist(r, c, u, v) < Dist(r, c, tr, tc)
        ensures At(sq, u, v) == NOPIECE
      {
        if Dist(r, c, u, v) == Dist(r, c, x, y) {
          SameDistance(r, c, Sgn(tr - r), Sgn(tc - c), x, y, u, v);
        }
      }
    }
  }

  /** Article 3.5: a slider attacks a square further off exactly if it attacks the square before it and that one is empty. */
  lemma SliderLaw(sq: Grid, p: int, r: int, c: int, tr: int, tc: int)
    requires Shape(sq) && On(r, c) && On(tr, tc) && (DoDiag(p) || DoVert(p)) && Dist(r, c, tr, tc) > 1
    requires Diagonal(r, c, tr, tc) || Straight(r, c, tr, tc)
    ensures var x, y := tr - Sgn(tr - r), tc - Sgn(tc - c);
            On(x, y) && (Attacks(sq, p, r, c, tr, tc) <==> Attacks(sq, p, r, c, x, y) && At(sq, x, y) == NOPIECE)
  {
    hide Clear, OnRay, Dist, Sgn, Diagonal, Straight;
    var x, y := tr - Sgn(tr - r), tc - Sgn(tc - c);
    LastStep(r, c, tr, tc);
    ClearStep(sq, r, c, tr, tc, x, y);
  }
}
