/** Positions, attacks, pseudo-legal moves and their effect, stated declaratively.
    Rows run from 0 (rank 8) to 7 (rank 1); white pawns move towards row 0. */
module Rules {
  import opened Pieces
  import opened Squares

  const WKCA: bv4 := 8
  const WQCA: bv4 := 4
  const BKCA: bv4 := 2
  const BQCA: bv4 := 1

  datatype Pos = Pos(sq: Grid, side: int, castle: bv4, epR: int, epC: int)

  /** The cleared board. */
  function ClearPosition(): Pos { Pos(EMPTY_GRID, WHITE, 0, OFFBOARD, OFFBOARD) }

  predicate Has(castle: bv4, right: bv4) { castle & right != 0 }

  function With(castle: bv4, right: bv4): bv4 { castle | right }

  function Without(castle: bv4, right: bv4): bv4 { (right ^ 15) & castle }

  // ----- Geometry -----

  function Abs(x: int): int { if x < 0 then -x else x }

  function Max(x: int, y: int): int { if x < y then y else x }

  function Sgn(x: int): int { if x < 0 then -1 else if x == 0 then 0 else 1 }

  /** Steps of a king between two squares. */
  function Dist(r: int, c: int, x: int, y: int): int { Max(Abs(x - r), Abs(y - c)) }

  predicate IsDir(dr: int, dc: int) { -1 <= dr <= 1 && -1 <= dc <= 1 && !(dr == 0 && dc == 0) }

  /** k steps along one axis of a direction. */
  function Along(d: int, k: int): int { if d == 0 then 0 else if d > 0 then k else -k }

  /** (x, y) lies on the open ray that leaves (r, c) in direction (dr, dc). */
  predicate OnRay(r: int, c: int, dr: int, dc: int, x: int, y: int) {
    var k := Dist(r, c, x, y);
    k > 0 && x == r + Along(dr, k) && y == c + Along(dc, k)
  }

  predicate Diagonal(r: int, c: int, tr: int, tc: int) { tr != r && Abs(tr - r) == Abs(tc - c) }

  predicate Straight(r: int, c: int, tr: int, tc: int) { (tr == r) != (tc == c) }

  predicate KnightJump(r: int, c: int, tr: int, tc: int) {
    || (Abs(tr - r) == 1 && Abs(tc - c) == 2)
    || (Abs(tr - r) == 2 && Abs(tc - c) == 1)
  }

  /** All squares strictly between two squares on a common line are empty. */
  ghost predicate Clear(sq: Grid, r: int, c: int, tr: int, tc: int)
    requires Shape(sq)
  {
    forall x, y :: On(x, y) && OnRay(r, c, Sgn(tr - r), Sgn(tc - c), x, y) && Dist(r, c, x, y) < Dist(r, c, tr, tc)
                   ==> At(sq, x, y) == NOPIECE
  }

  /** Piece p on (r, c) attacks (tr, tc). */
  ghost predicate Attacks(sq: Grid, p: int, r: int, c: int, tr: int, tc: int)
    requires Shape(sq)
  {
    if p == WP then tr == r - 1 && Abs(tc - c) == 1
    else if p == BP then tr == r + 1 && Abs(tc - c) == 1
    else if IsKnight(p) then KnightJump(r, c, tr, tc)
    else if IsKing(p) then Dist(r, c, tr, tc) == 1
    else
      && ((DoDiag(p) && Diagonal(r, c, tr, tc)) || (DoVert(p) && Straight(r, c, tr, tc)))
      && Clear(sq, r, c, tr, tc)
  }

  predicate Owned(p: int, side: int) { IsPiece(p) && PceCol(p) == side }

  /** A piece of colour col, standing on (pr, pc), attacks (r, c). */
  ghost predicate AttackedFrom(sq: Grid, pr: int, pc: int, r: int, c: int, col: int)
    requires Shape(sq) && On(pr, pc)
  {
    Owned(At(sq, pr, pc), col) && Attacks(sq, At(sq, pr, pc), pr, pc, r, c)
  }

  ghost predicate Attacked(sq: Grid, r: int, c: int, col: int)
    requires Shape(sq)
  {
    exists pr, pc :: On(pr, pc) && AttackedFrom(sq, pr, pc, r, c, col)
  }

  ghost predicate KingAttackedOn(sq: Grid, r: int, c: int, side: int)
    requires Shape(sq) && On(r, c)
  {
    At(sq, r, c) == KingOf(side) && Attacked(sq, r, c, Other(side))
  }

  ghost predicate InCheck(sq: Grid, side: int)
    requires Shape(sq)
  {
    exists r, c :: On(r, c) && KingAttackedOn(sq, r, c, side)
  }

  // ----- Pseudo-legal moves -----

  /** The unique record with the given squares and promotion: getMove fills in the other fields. */
  function MoveOf(pos: Pos, fr: int, fc: int, tr: int, tc: int, prom: int): Move
    requires Shape(pos.sq) && On(fr, fc) && On(tr, tc)
  {
    var p := At(pos.sq, fr, fc);
    Move(fr, fc, tr, tc, At(pos.sq, tr, tc),
         IsPawn(p) && tr == pos.epR && tc == pos.epC && (fr == 3 || fr == 4),
         IsPawn(p) && Abs(tr - fr) == 2,
         prom,
         IsKing(p) && fc == 4 && (tc == 2 || tc == 6))
  }

  function Forward(side: int): int { if side == WHITE then -1 else 1 }

  function HomeRow(side: int): int { if side == WHITE then 7 else 0 }

  function PawnRow(side: int): int { if side == WHITE then 6 else 1 }

  function LastRow(side: int): int { if side == WHITE then 0 else 7 }

  /** The row from which a pawn of the side captures en passant. */
  function EpFromRow(side: int): int { if side == WHITE then 3 else 4 }

  predicate PromotesTo(side: int, p: int) {
    if side == WHITE then p == WN || p == WB || p == WR || p == WQ
    else p == BN || p == BB || p == BR || p == BQ
  }

  ghost predicate Empty(sq: Grid, r: int, c: int)
    requires Shape(sq)
  {
    On(r, c) && At(sq, r, c) == NOPIECE
  }

  ghost predicate EnemyOn(sq: Grid, r: int, c: int, side: int)
    requires Shape(sq)
  {
    On(r, c) && Owned(At(sq, r, c), Other(side))
  }

  ghost predicate PawnRule(pos: Pos, m: Move)
    requires Shape(pos.sq) && IsSide(pos.side) && On(m.tr, m.tc)
  {
    var f := Forward(pos.side);
    && (|| (m.tc == m.fc && m.tr == m.fr + f && Empty(pos.sq, m.tr, m.tc))
        || (m.tc == m.fc && m.fr == PawnRow(pos.side) && m.tr == m.fr + 2 * f
            && Empty(pos.sq, m.fr + f, m.fc) && Empty(pos.sq, m.tr, m.tc))
        || (Attacks(pos.sq, PawnOf(pos.side), m.fr, m.fc, m.tr, m.tc) && EnemyOn(pos.sq, m.tr, m.tc, pos.side))
        || (Attacks(pos.sq, PawnOf(pos.side), m.fr, m.fc, m.tr, m.tc)
            && m.fr == EpFromRow(pos.side) && m.tr == pos.epR && m.tc == pos.epC))
    && (if m.tr == LastRow(pos.side) then PromotesTo(pos.side, m.prom) else m.prom == NOPIECE)
  }

  ghost predicate CastleRule(pos: Pos, m: Move)
    requires Shape(pos.sq) && IsSide(pos.side)
  {
    var right := if pos.side == WHITE then WKCA else BKCA;
    var left := if pos.side == WHITE then WQCA else BQCA;
    var enemy := Other(pos.side);
    && m.tr == m.fr
    && (|| (m.tc == m.fc + 2 && Has(pos.castle, right)
            && Empty(pos.sq, m.fr, m.fc + 1) && Empty(pos.sq, m.fr, m.fc + 2)
            && !Attacked(pos.sq, m.fr, m.fc, enemy) && !Attacked(pos.sq, m.fr, m.fc + 1, enemy))
        || (m.tc == m.fc - 2 && Has(pos.castle, left)
            && Empty(pos.sq, m.fr, m.fc - 1) && Empty(pos.sq, m.fr, m.fc - 2) && Empty(pos.sq, m.fr, m.fc - 3)
            && !Attacked(pos.sq, m.fr, m.fc, enemy) && !Attacked(pos.sq, m.fr, m.fc - 1, enemy)))
  }

  /** A move that obeys the rules of movement, whatever happens to the mover's king. */
  ghost predicate PseudoLegal(pos: Pos, m: Move)
    requires Shape(pos.sq) && IsSide(pos.side)
  {
    && On(m.fr, m.fc) && On(m.tr, m.tc)
    && m == MoveOf(pos, m.fr, m.fc, m.tr, m.tc, m.prom)
    && var p := At(pos.sq, m.fr, m.fc);
       && Owned(p, pos.side)
       && if IsPawn(p) then PawnRule(pos, m)
          else
            && m.prom == NOPIECE
            && (|| (Attacks(pos.sq, p, m.fr, m.fc, m.tr, m.tc) && !Owned(At(pos.sq, m.tr, m.tc), pos.side))
                || (IsKing(p) && CastleRule(pos, m)))
  }

  /** Captures and en passant captures. */
  predicate IsCapture(m: Move) { m.cap != NOPIECE || m.ep }

  // ----- Making a move -----

  /** The square of the pawn that an en passant capture removes. */
  function EpVictimRow(side: int, tr: int): int { if side == WHITE then tr + 1 else tr - 1 }

  function RookFrom(tc: int): int { if tc == 2 then 0 else 7 }

  function RookTo(tc: int): int { if tc == 2 then 3 else 5 }

  ghost predicate Appliable(pos: Pos, m: Move) {
    && Shape(pos.sq) && IsSide(pos.side)
    && On(m.fr, m.fc) && On(m.tr, m.tc) && IsCell(m.prom)
    && (m.ep ==> On(EpVictimRow(pos.side, m.tr), m.tc))
  }

  ghost function SideEffects(pos: Pos, m: Move): (sq: Grid)
    requires Appliable(pos, m)
    ensures Shape(sq)
  {
    if m.ep then Put(pos.sq, EpVictimRow(pos.side, m.tr), m.tc, NOPIECE)
    else if m.castle then
      Put(Put(pos.sq, HomeRow(pos.side), RookFrom(m.tc), NOPIECE),
          HomeRow(pos.side), RookTo(m.tc), RookOf(pos.side))
    else pos.sq
  }

  ghost function Placed(pos: Pos, m: Move): (p: int)
    requires Appliable(pos, m)
    ensures IsCell(p)
  {
    if m.prom != NOPIECE then m.prom else At(pos.sq, m.fr, m.fc)
  }

  ghost function SquaresAfter(pos: Pos, m: Move): (sq: Grid)
    requires Appliable(pos, m)
    ensures Shape(sq)
  {
    Put(Put(SideEffects(pos, m), m.fr, m.fc, NOPIECE), m.tr, m.tc, Placed(pos, m))
  }

  predicate Touches(m: Move, r: int, c: int) { (m.fr == r && m.fc == c) || (m.tr == r && m.tc == c) }

  /** A right goes when its king moves or when its rook's home square is touched. */
  ghost function CastleAfter(pos: Pos, m: Move): bv4
    requires Appliable(pos, m)
  {
    var king := IsKing(At(pos.sq, m.fr, m.fc));
    Keep(pos.castle, WKCA, !(king && pos.side == WHITE) && !Touches(m, 7, 7))
    | Keep(pos.castle, WQCA, !(king && pos.side == WHITE) && !Touches(m, 7, 0))
    | Keep(pos.castle, BKCA, !(king && pos.side == BLACK) && !Touches(m, 0, 7))
    | Keep(pos.castle, BQCA, !(king && pos.side == BLACK) && !Touches(m, 0, 0))
  }

  function Keep(castle: bv4, right: bv4, keep: bool): bv4 { if keep then castle & right else 0 }

  ghost function Apply(pos: Pos, m: Move): (pos': Pos)
    requires Appliable(pos, m)
    ensures Shape(pos'.sq) && pos'.side == Other(pos.side)
  {
    Pos(SquaresAfter(pos, m), Other(pos.side), CastleAfter(pos, m),
        if m.start then EpVictimRow(pos.side, m.tr) else OFFBOARD,
        if m.start then m.tc else OFFBOARD)
  }

  // ----- Well-formed positions -----

  ghost predicate OneKingEach(sq: Grid)
    requires Shape(sq)
  {
    Count(sq, WK) == 1 && Count(sq, BK) == 1
  }

  ghost predicate NoEdgePawns(sq: Grid)
    requires Shape(sq)
  {
    forall r, c :: On(r, c) && IsPawn(At(sq, r, c)) ==> 1 <= r <= 6
  }

  ghost predicate CastleTruthful(pos: Pos)
    requires Shape(pos.sq)
  {
    && (Has(pos.castle, WKCA) ==> At(pos.sq, 7, 4) == WK && At(pos.sq, 7, 7) == WR)
    && (Has(pos.castle, WQCA) ==> At(pos.sq, 7, 4) == WK && At(pos.sq, 7, 0) == WR)
    && (Has(pos.castle, BKCA) ==> At(pos.sq, 0, 4) == BK && At(pos.sq, 0, 7) == BR)
    && (Has(pos.castle, BQCA) ==> At(pos.sq, 0, 4) == BK && At(pos.sq, 0, 0) == BR)
  }

  /** The enemy pawn that may be captured en passant stands directly past the empty square. */
  ghost predicate EpTruthful(pos: Pos)
    requires Shape(pos.sq)
  {
    || (pos.epR == OFFBOARD && pos.epC == OFFBOARD)
    || (&& 0 <= pos.epC < 8
        && pos.epR == (if pos.side == WHITE then 2 else 5)
        && At(pos.sq, pos.epR, pos.epC) == NOPIECE
        && At(pos.sq, EpFromRow(pos.side), pos.epC) == PawnOf(Other(pos.side)))
  }

  /** Pawns that promote never need more than the ten list slots of a piece type. */
  ghost predicate Room(sq: Grid)
    requires Shape(sq)
  {
    && (forall p :: WP <= p <= WQ ==> Count(sq, p) + (if p == WP then 0 else Count(sq, WP)) <= 10)
    && (forall p :: BP <= p <= BQ ==> Count(sq, p) + (if p == BP then 0 else Count(sq, BP)) <= 10)
  }

  /** What every position of a game satisfies. */
  ghost predicate WellFormed(pos: Pos) {
    && Shape(pos.sq) && IsSide(pos.side)
    && OneKingEach(pos.sq)
    && NoEdgePawns(pos.sq)
    && CastleTruthful(pos)
    && EpTruthful(pos)
    && Room(pos.sq)
    && !InCheck(pos.sq, Other(pos.side))
  }

  /** A move is legal when it leaves the mover's king out of check. */
  ghost predicate Legal(pos: Pos, m: Move)
    requires WellFormed(pos)
  {
    PseudoLegal(pos, m) && Appliable(pos, m) && !InCheck(Apply(pos, m).sq, pos.side)
  }
}
