/** The move lists of generateMoves and generateCaptures as values, and what they contain. */
module Generators {
  import opened Pieces
  import opened Squares
  import opened Rules
  import opened Invariant
  import opened Rays
  import opened Boards

  // ----- Lists -----

  function Captures(s: seq<Move>): seq<Move> {
    if s == [] then [] else (if IsCapture(s[0]) then [s[0]] else []) + Captures(s[1..])
  }

  lemma {:induction false} CapturesConcat(a: seq<Move>, b: seq<Move>)
    ensures Captures(a + b) == Captures(a) + Captures(b)
  {
    hide IsCapture;
    if a == [] {
      assert a + b == b;
    } else {
      assert (a + b)[0] == a[0] && (a + b)[1..] == a[1..] + b;
      CapturesConcat(a[1..], b);
    }
  }

  lemma {:induction false} CapturesMembers(s: seq<Move>)
    ensures forall m :: m in Captures(s) <==> m in s && IsCapture(m)
    ensures NoDup(s) ==> NoDup(Captures(s))
  {
    if s != [] {
      CapturesMembers(s[1..]);
      assert s == [s[0]] + s[1..];
      if NoDup(s) {
        assert NoDup(s[1..]);
        assert s[0] !in s[1..];
        NoDupConcat(if IsCapture(s[0]) then [s[0]] else [], Captures(s[1..]));
      }
    }
  }

  lemma NoDupConcat<T>(a: seq<T>, b: seq<T>)
    requires NoDup(a) && NoDup(b) && forall x :: x in a ==> x !in b
    ensures NoDup(a + b)
  {
    forall i, j | 0 <= i < j < |a + b|
      ensures (a + b)[i] != (a + b)[j]
    {
      if i < |a| <= j {
        assert a[i] in a && b[j - |a|] in b;
      }
    }
  }

  // ----- One piece -----

  ghost function To(pos: Pos, r: int, c: int, x: int, y: int): Move
    requires Shape(pos.sq) && On(r, c) && On(x, y)
  {
    MoveOf(pos, r, c, x, y, NOPIECE)
  }

  ghost predicate Free(pos: Pos, x: int, y: int)
    requires Shape(pos.sq) && On(x, y)
  {
    !Owned(At(pos.sq, x, y), pos.side)
  }

  ghost function RayMoves(pos: Pos, r: int, c: int, ir: int, ic: int, dr: int, dc: int): seq<Move>
    requires Shape(pos.sq) && On(r, c) && IsDir(dr, dc)
    decreases Left(ir, ic, dr, dc)
  {
    if !On(ir, ic) then []
    else if At(pos.sq, ir, ic) == NOPIECE then [To(pos, r, c, ir, ic)] + RayMoves(pos, r, c, ir + dr, ic + dc, dr, dc)
    else if PceCol(At(pos.sq, ir, ic)) != pos.side then [To(pos, r, c, ir, ic)]
    else []
  }

  ghost function RayCaptures(pos: Pos, r: int, c: int, ir: int, ic: int, dr: int, dc: int): seq<Move>
    requires Shape(pos.sq) && On(r, c) && IsDir(dr, dc)
    decreases Left(ir, ic, dr, dc)
  {
    if !On(ir, ic) then []
    else if At(pos.sq, ir, ic) == NOPIECE then RayCaptures(pos, r, c, ir + dr, ic + dc, dr, dc)
    else if PceCol(At(pos.sq, ir, ic)) != pos.side then [To(pos, r, c, ir, ic)]
    else []
  }

  ghost function StepMove(pos: Pos, r: int, c: int, dr: int, dc: int): seq<Move>
    requires Shape(pos.sq) && On(r, c)
  {
    if On(r + dr, c + dc) && Free(pos, r + dr, c + dc) then [To(pos, r, c, r + dr, c + dc)] else []
  }

  ghost function StepCapture(pos: Pos, r: int, c: int, dr: int, dc: int): seq<Move>
    requires Shape(pos.sq) && On(r, c)
  {
    if On(r + dr, c + dc) && At(pos.sq, r + dr, c + dc) != NOPIECE && Free(pos, r + dr, c + dc)
    then [To(pos, r, c, r + dr, c + dc)] else []
  }

  type Dir = (int, int)

  const KNIGHT_DIRS: seq<Dir> := [(-1, 2), (2, -1), (-2, 1), (1, -2), (-1, -2), (-2, -1), (2, 1), (1, 2)]
  const KING_DIRS: seq<Dir> := [(-1, -1), (-1, 0), (-1, 1), (0, 1), (1, 1), (1, 0), (1, -1), (0, -1)]
  const DIAG_DIRS: seq<Dir> := [(1, 1), (-1, 1), (1, -1), (-1, -1)]
  const VERT_DIRS: seq<Dir> := [(0, 1), (0, -1), (-1, 0), (1, 0)]

  predicate Slides(p: int) { DoDiag(p) || DoVert(p) }

  /** The directions in the order in which the generators try them. */
  function Dirs(p: int): (ds: seq<Dir>) {
    if IsKnight(p) then KNIGHT_DIRS
    else if IsKing(p) then KING_DIRS
    else (if DoDiag(p) then DIAG_DIRS else []) + (if DoVert(p) then VERT_DIRS else [])
  }

  ghost predicate DirsOk(p: int, ds: seq<Dir>) { Slides(p) ==> forall d :: d in ds ==> IsDir(d.0, d.1) }

  lemma DirsAreDirections(p: int)
    ensures DirsOk(p, Dirs(p))
    ensures NoDup(Dirs(p))
  {
    if IsKnight(p) {
      assert NoDup(KNIGHT_DIRS);
    } else if IsKing(p) {
      assert NoDup(KING_DIRS);
    } else {
      NoDupConcat(DIAG_DIRS, VERT_DIRS);
      assert DIAG_DIRS + [] == DIAG_DIRS && [] + VERT_DIRS == VERT_DIRS;
    }
  }

  ghost function Chunk(pos: Pos, p: int, r: int, c: int, d: Dir): seq<Move>
    requires Shape(pos.sq) && On(r, c) && (Slides(p) ==> IsDir(d.0, d.1))
  {
    if Slides(p) then RayMoves(pos, r, c, r + d.0, c + d.1, d.0, d.1) else StepMove(pos, r, c, d.0, d.1)
  }

  ghost function CaptureChunk(pos: Pos, p: int, r: int, c: int, d: Dir): seq<Move>
    requires Shape(pos.sq) && On(r, c) && (Slides(p) ==> IsDir(d.0, d.1))
  {
    if Slides(p) then RayCaptures(pos, r, c, r + d.0, c + d.1, d.0, d.1) else StepCapture(pos, r, c, d.0, d.1)
  }

  ghost function Fan(pos: Pos, p: int, r: int, c: int, ds: seq<Dir>, n: nat): seq<Move>
    requires Shape(pos.sq) && On(r, c) && n <= |ds| && DirsOk(p, ds)
  {
    if n == 0 then [] else Fan(pos, p, r, c, ds, n - 1) + Chunk(pos, p, r, c, ds[n - 1])
  }

  ghost function CaptureFan(pos: Pos, p: int, r: int, c: int, ds: seq<Dir>, n: nat): seq<Move>
    requires Shape(pos.sq) && On(r, c) && n <= |ds| && DirsOk(p, ds)
  {
    if n == 0 then [] else CaptureFan(pos, p, r, c, ds, n - 1) + CaptureChunk(pos, p, r, c, ds[n - 1])
  }

  ghost function Castles(pos: Pos, r: int, c: int): seq<Move>
    requires Shape(pos.sq) && IsSide(pos.side) && On(r, c)
  {
    CastleTo(pos, r, c, c + 2) + CastleTo(pos, r, c, c - 2)
  }

  ghost function CastleTo(pos: Pos, r: int, c: int, y: int): seq<Move>
    requires Shape(pos.sq) && IsSide(pos.side) && On(r, c)
  {
    if On(r, y) && CastleRule(pos, To(pos, r, c, r, y)) then [To(pos, r, c, r, y)] else []
  }

  function PromotionRow(side: int): int { if side == WHITE then 1 else 6 }

  ghost function PawnTo(pos: Pos, r: int, c: int, x: int, y: int): seq<Move>
    requires Shape(pos.sq) && On(r, c) && On(x, y)
  {
    if r == PromotionRow(pos.side) then
      if pos.side == WHITE then
        [MoveOf(pos, r, c, x, y, WN), MoveOf(pos, r, c, x, y, WB), MoveOf(pos, r, c, x, y, WR), MoveOf(pos, r, c, x, y, WQ)]
      else
        [MoveOf(pos, r, c, x, y, BN), MoveOf(pos, r, c, x, y, BB), MoveOf(pos, r, c, x, y, BR), MoveOf(pos, r, c, x, y, BQ)]
    else [To(pos, r, c, x, y)]
  }

  ghost function PawnPushes(pos: Pos, r: int, c: int): seq<Move>
    requires Shape(pos.sq) && On(r, c)
  {
    var f := Forward(pos.side);
    if Empty(pos.sq, r + f, c) then
      PawnTo(pos, r, c, r + f, c)
      + if r == PawnRow(pos.side) && Empty(pos.sq, r + 2 * f, c) then [To(pos, r, c, r + 2 * f, c)] else []
    else []
  }

  ghost function PawnTakes(pos: Pos, r: int, c: int, dc: int): seq<Move>
    requires Shape(pos.sq) && On(r, c)
  {
    var f := Forward(pos.side);
    if EnemyOn(pos.sq, r + f, c + dc, pos.side) then PawnTo(pos, r, c, r + f, c + dc) else []
  }

  ghost function PawnEp(pos: Pos, r: int, c: int, dc: int): seq<Move>
    requires Shape(pos.sq) && On(r, c)
  {
    var f := Forward(pos.side);
    if On(r + f, c + dc) && r == EpFromRow(pos.side) && pos.epR == r + f && pos.epC == c + dc
    then [To(pos, r, c, r + f, c + dc)] else []
  }

  ghost function PawnCaptures(pos: Pos, r: int, c: int): seq<Move>
    requires Shape(pos.sq) && On(r, c)
  {
    PawnTakes(pos, r, c, -1) + PawnTakes(pos, r, c, 1) + PawnEp(pos, r, c, -1) + PawnEp(pos, r, c, 1)
  }

  /** The moves of one piece, in the order of generateMoves. */
  ghost function PieceMoves(pos: Pos, p: int, r: int, c: int): seq<Move>
    requires Shape(pos.sq) && IsSide(pos.side) && On(r, c)
  {
    DirsAreDirections(p);
    if IsPawn(p) then PawnPushes(pos, r, c) + PawnCaptures(pos, r, c)
    else Fan(pos, p, r, c, Dirs(p), |Dirs(p)|) + if IsKing(p) then Castles(pos, r, c) else []
  }

  /** The captures of one piece, in the order of generateCaptures. */
  ghost function PieceCaptures(pos: Pos, p: int, r: int, c: int): seq<Move>
    requires Shape(pos.sq) && IsSide(pos.side) && On(r, c)
  {
    DirsAreDirections(p);
    if IsPawn(p) then PawnCaptures(pos, r, c) else CaptureFan(pos, p, r, c, Dirs(p), |Dirs(p)|)
  }

  // ----- The whole list -----

  ghost predicate Places(list: seq<Place>) { forall i :: 0 <= i < |list| ==> On(list[i].0, list[i].1) }

  ghost function ListMoves(pos: Pos, p: int, list: seq<Place>, n: nat): seq<Move>
    requires Shape(pos.sq) && IsSide(pos.side) && n <= |list| && Places(list)
  {
    if n == 0 then [] else ListMoves(pos, p, list, n - 1) + PieceMoves(pos, p, list[n - 1].0, list[n - 1].1)
  }

  ghost function ListCaptures(pos: Pos, p: int, list: seq<Place>, n: nat): seq<Move>
    requires Shape(pos.sq) && IsSide(pos.side) && n <= |list| && Places(list)
  {
    if n == 0 then [] else ListCaptures(pos, p, list, n - 1) + PieceCaptures(pos, p, list[n - 1].0, list[n - 1].1)
  }

  ghost predicate AllPlaces(lists: seq<seq<Place>>) { |lists| == 12 && forall p :: IsPiece(p) ==> Places(lists[p]) }

  /** The moves of the piece types lo..hi. */
  ghost function TypeMoves(pos: Pos, lists: seq<seq<Place>>, lo: int, hi: int): seq<Move>
    requires Shape(pos.sq) && IsSide(pos.side) && AllPlaces(lists) && 0 <= lo && hi < 12
    decreases hi - lo
  {
    if hi < lo then [] else TypeMoves(pos, lists, lo, hi - 1) + ListMoves(pos, hi, lists[hi], |lists[hi]|)
  }

  ghost function TypeCaptures(pos: Pos, lists: seq<seq<Place>>, lo: int, hi: int): seq<Move>
    requires Shape(pos.sq) && IsSide(pos.side) && AllPlaces(lists) && 0 <= lo && hi < 12
    decreases hi - lo
  {
    if hi < lo then [] else TypeCaptures(pos, lists, lo, hi - 1) + ListCaptures(pos, hi, lists[hi], |lists[hi]|)
  }

  function LowPiece(side: int): int { if side == WHITE then WP else BP }

  function HighPiece(side: int): int { if side == WHITE then WK else BK }

  ghost function AllMoves(pos: Pos, lists: seq<seq<Place>>): seq<Move>
    requires Shape(pos.sq) && IsSide(pos.side) && AllPlaces(lists)
  {
    TypeMoves(pos, lists, LowPiece(pos.side), HighPiece(pos.side))
  }

  ghost function AllCaptures(pos: Pos, lists: seq<seq<Place>>): seq<Move>
    requires Shape(pos.sq) && IsSide(pos.side) && AllPlaces(lists)
  {
    TypeCaptures(pos, lists, LowPiece(pos.side), HighPiece(pos.side))
  }

  lemma IndexedPlaces(sq: Grid, lists: seq<seq<Place>>)
    requires Shape(sq) && Indexed(sq, lists)
    ensures AllPlaces(lists)
  {
    forall p, i | IsPiece(p) && 0 <= i < |lists[p]|
      ensures On(lists[p][i].0, lists[p][i].1)
    {
      assert (lists[p][i].0, lists[p][i].1) in lists[p];
    }
  }

  // ----- Exactness, piece by piece -----

  lemma {:induction false} RayMembers(pos: Pos, r: int, c: int, ir: int, ic: int, dr: int, dc: int, m: Move)
    requires Shape(pos.sq) && IsSide(pos.side) && On(r, c) && IsDir(dr, dc)
    ensures m in RayMoves(pos, r, c, ir, ic, dr, dc)
       <==> On(m.tr, m.tc) && m == To(pos, r, c, m.tr, m.tc) && Free(pos, m.tr, m.tc)
            && Reaches(pos.sq, ir, ic, dr, dc, m.tr, m.tc)
    decreases Left(ir, ic, dr, dc)
  {
    if On(ir, ic) && At(pos.sq, ir, ic) == NOPIECE {
      RayMembers(pos, r, c, ir + dr, ic + dc, dr, dc, m);
    }
  }

  /** The target lies in direction d: exactly one step for jumpers, somewhere along the ray for sliders. */
  predicate Towards(p: int, r: int, c: int, d: Dir, x: int, y: int) {
    if Slides(p) then Sgn(x - r) == d.0 && Sgn(y - c) == d.1 else x - r == d.0 && y - c == d.1
  }

  /** Knights and kings: the directions are all their jumps. Sliders: the directions fit the piece. */
  lemma DirKinds(p: int, d: Dir)
    requires IsPiece(p) && !IsPawn(p)
    ensures IsKnight(p) ==> (d in Dirs(p) <==> KnightJump(0, 0, d.0, d.1))
    ensures IsKing(p) ==> (d in Dirs(p) <==> Dist(0, 0, d.0, d.1) == 1)
    ensures Slides(p) ==> (d in Dirs(p) <==> IsDir(d.0, d.1) && if d.0 == 0 || d.1 == 0 then DoVert(p) else DoDiag(p))
  {
  }

  lemma ChunkMembers(pos: Pos, p: int, r: int, c: int, d: Dir, m: Move)
    requires Shape(pos.sq) && IsSide(pos.side) && On(r, c) && d in Dirs(p) && IsPiece(p) && !IsPawn(p)
    requires Slides(p) ==> IsDir(d.0, d.1)
    ensures m in Chunk(pos, p, r, c, d)
       <==> On(m.tr, m.tc) && m == To(pos, r, c, m.tr, m.tc) && Free(pos, m.tr, m.tc)
            && Towards(p, r, c, d, m.tr, m.tc) && Attacks(pos.sq, p, r, c, m.tr, m.tc)
  {
    hide Dirs, Reaches, Clear;
    DirKinds(p, d);
    if Slides(p) {
      RayMembers(pos, r, c, r + d.0, c + d.1, d.0, d.1, m);
      if On(m.tr, m.tc) {
        hide Diagonal, Straight, To;
        LineWalk(pos.sq, r, c, d.0, d.1, m.tr, m.tc);
        DirectionKind(r, c, m.tr, m.tc);
      }
    }
  }

  lemma {:induction false} FanMembers(pos: Pos, p: int, r: int, c: int, n: nat, m: Move)
    requires Shape(pos.sq) && IsSide(pos.side) && On(r, c) && IsPiece(p) && !IsPawn(p)
    requires n <= |Dirs(p)| && DirsOk(p, Dirs(p))
    ensures m in Fan(pos, p, r, c, Dirs(p), n)
       <==> exists i :: 0 <= i < n && m in Chunk(pos, p, r, c, Dirs(p)[i])
  {
    hide Chunk, Dirs;
    if n > 0 {
      FanMembers(pos, p, r, c, n - 1, m);
    }
  }

  /** Whatever a piece attacks lies in one of its directions. */
  lemma SomeDirection(sq: Grid, p: int, r: int, c: int, x: int, y: int) returns (i: int)
    requires Shape(sq) && IsPiece(p) && !IsPawn(p) && Attacks(sq, p, r, c, x, y)
    ensures 0 <= i < |Dirs(p)| && Towards(p, r, c, Dirs(p)[i], x, y)
  {
    var d := if Slides(p) then (Sgn(x - r), Sgn(y - c)) else (x - r, y - c);
    hide Dirs, Clear;
    DirectionKind(r, c, x, y);
    DirKinds(p, d);
    assert d in Dirs(p);
    i :| 0 <= i < |Dirs(p)| && Dirs(p)[i] == d;
  }

  /** The fan holds exactly the moves to attacked squares not held by the own side. */
  lemma FanIsAttacks(pos: Pos, p: int, r: int, c: int, m: Move)
    requires Shape(pos.sq) && IsSide(pos.side) && On(r, c) && IsPiece(p) && !IsPawn(p) && DirsOk(p, Dirs(p))
    ensures m in Fan(pos, p, r, c, Dirs(p), |Dirs(p)|)
       <==> On(m.tr, m.tc) && m == To(pos, r, c, m.tr, m.tc) && Free(pos, m.tr, m.tc)
            && Attacks(pos.sq, p, r, c, m.tr, m.tc)
  {
    hide Attacks, Towards, Chunk, Dirs;
    FanMembers(pos, p, r, c, |Dirs(p)|, m);
    if m in Fan(pos, p, r, c, Dirs(p), |Dirs(p)|) {
      var i :| 0 <= i < |Dirs(p)| && m in Chunk(pos, p, r, c, Dirs(p)[i]);
      ChunkMembers(pos, p, r, c, Dirs(p)[i], m);
    }
    if On(m.tr, m.tc) && m == To(pos, r, c, m.tr, m.tc) && Free(pos, m.tr, m.tc) && Attacks(pos.sq, p, r, c, m.tr, m.tc) {
      var i := SomeDirection(pos.sq, p, r, c, m.tr, m.tc);
      ChunkMembers(pos, p, r, c, Dirs(p)[i], m);
    }
  }

  predicate PromotionFits(pos: Pos, r: int, prom: int) {
    if r == PromotionRow(pos.side) then PromotesTo(pos.side, prom) else prom == NOPIECE
  }

  lemma PawnToMembers(pos: Pos, r: int, c: int, x: int, y: int, m: Move)
    requires Shape(pos.sq) && IsSide(pos.side) && On(r, c) && On(x, y)
    ensures m in PawnTo(pos, r, c, x, y)
       <==> m == MoveOf(pos, r, c, x, y, m.prom) && PromotionFits(pos, r, m.prom)
  {
  }

  ghost predicate FromTo(pos: Pos, r: int, c: int, m: Move)
    requires Shape(pos.sq) && On(r, c)
  {
    On(m.tr, m.tc) && m == MoveOf(pos, r, c, m.tr, m.tc, m.prom)
  }

  lemma PawnPushMembers(pos: Pos, r: int, c: int, m: Move)
    requires WellFormed(pos) && On(r, c) && At(pos.sq, r, c) == PawnOf(pos.side)
    ensures m in PawnPushes(pos, r, c)
       <==> FromTo(pos, r, c, m) && PromotionFits(pos, r, m.prom) && m.tc == c
            && var f := Forward(pos.side);
               && Empty(pos.sq, r + f, c)
               && (m.tr == r + f || (m.tr == r + 2 * f && r == PawnRow(pos.side) && Empty(pos.sq, m.tr, c)))
  {
    hide PawnTo;
    var f := Forward(pos.side);
    if On(r + f, c) { PawnToMembers(pos, r, c, r + f, c, m); }
  }

  lemma PawnTakeMembers(pos: Pos, r: int, c: int, dc: int, m: Move)
    requires WellFormed(pos) && On(r, c)
    ensures m in PawnTakes(pos, r, c, dc)
       <==> FromTo(pos, r, c, m) && PromotionFits(pos, r, m.prom)
            && m.tr == r + Forward(pos.side) && m.tc == c + dc && EnemyOn(pos.sq, m.tr, m.tc, pos.side)
  {
    hide PawnTo;
    var f := Forward(pos.side);
    if On(r + f, c + dc) { PawnToMembers(pos, r, c, r + f, c + dc, m); }
  }

  lemma PawnEpMembers(pos: Pos, r: int, c: int, dc: int, m: Move)
    requires WellFormed(pos) && On(r, c)
    ensures m in PawnEp(pos, r, c, dc)
       <==> FromTo(pos, r, c, m) && PromotionFits(pos, r, m.prom)
            && m.tr == r + Forward(pos.side) && m.tc == c + dc
            && r == EpFromRow(pos.side) && m.tr == pos.epR && m.tc == pos.epC
  {
  }

  lemma PawnMembers(pos: Pos, r: int, c: int, m: Move)
    requires WellFormed(pos) && On(r, c) && At(pos.sq, r, c) == PawnOf(pos.side)
    ensures m in PawnPushes(pos, r, c) + PawnCaptures(pos, r, c) <==> PseudoLegal(pos, m) && m.fr == r && m.fc == c
  {
    assert 1 <= r <= 6;
    PawnPushMembers(pos, r, c, m);
    PawnTakeMembers(pos, r, c, -1, m);
    PawnTakeMembers(pos, r, c, 1, m);
    PawnEpMembers(pos, r, c, -1, m);
    PawnEpMembers(pos, r, c, 1, m);
    hide WellFormed, PawnPushes, PawnTakes, PawnEp;
    assert m in PawnPushes(pos, r, c) + PawnCaptures(pos, r, c) <==>
           m in PawnPushes(pos, r, c) || m in PawnTakes(pos, r, c, -1) || m in PawnTakes(pos, r, c, 1)
           || m in PawnEp(pos, r, c, -1) || m in PawnEp(pos, r, c, 1);
  }

  /** One piece: generated iff pseudo-legal. */
  lemma PieceMembers(pos: Pos, r: int, c: int, m: Move)
    requires WellFormed(pos) && On(r, c) && Owned(At(pos.sq, r, c), pos.side)
    ensures m in PieceMoves(pos, At(pos.sq, r, c), r, c) <==> PseudoLegal(pos, m) && m.fr == r && m.fc == c
  {
    var p := At(pos.sq, r, c);
    DirsAreDirections(p);
    if IsPawn(p) {
      PawnMembers(pos, r, c, m);
    } else {
      hide Attacks, CastleRule, Fan, Dirs, InCheck, Room;
      FanIsAttacks(pos, p, r, c, m);
    }
  }

  // ----- No move twice -----

  lemma {:induction false} RayNoDup(pos: Pos, r: int, c: int, ir: int, ic: int, dr: int, dc: int)
    requires Shape(pos.sq) && IsSide(pos.side) && On(r, c) && IsDir(dr, dc)
    ensures NoDup(RayMoves(pos, r, c, ir, ic, dr, dc))
    decreases Left(ir, ic, dr, dc)
  {
    if On(ir, ic) && At(pos.sq, ir, ic) == NOPIECE {
      var rest := RayMoves(pos, r, c, ir + dr, ic + dc, dr, dc);
      RayNoDup(pos, r, c, ir + dr, ic + dc, dr, dc);
      var head := To(pos, r, c, ir, ic);
      RayMembers(pos, r, c, ir + dr, ic + dc, dr, dc, head);
      ReachesIsClearLine(pos.sq, ir, ic, dr, dc, ir, ic);
      NoDupConcat([head], rest);
    }
  }

  lemma {:induction false} FanNoDup(pos: Pos, p: int, r: int, c: int, n: nat)
    requires Shape(pos.sq) && IsSide(pos.side) && On(r, c) && IsPiece(p) && !IsPawn(p)
    requires n <= |Dirs(p)| && DirsOk(p, Dirs(p))
    ensures NoDup(Fan(pos, p, r, c, Dirs(p), n))
  {
    hide Dirs, RayMoves, Reaches, Attacks, Towards;
    if n > 0 {
      var d := Dirs(p)[n - 1];
      FanNoDup(pos, p, r, c, n - 1);
      if Slides(p) {
        RayNoDup(pos, r, c, r + d.0, c + d.1, d.0, d.1);
      }
      forall m | m in Fan(pos, p, r, c, Dirs(p), n - 1)
        ensures m !in Chunk(pos, p, r, c, d)
      {
        FanMembers(pos, p, r, c, n - 1, m);
        var i :| 0 <= i < n - 1 && m in Chunk(pos, p, r, c, Dirs(p)[i]);
        hide Chunk;
        ChunkMembers(pos, p, r, c, Dirs(p)[i], m);
        ChunkMembers(pos, p, r, c, d, m);
        DirsAreDirections(p);
        assert Dirs(p)[i] != d;
        OneDirection(p, r, c, Dirs(p)[i], d, m.tr, m.tc);
      }
      NoDupConcat(Fan(pos, p, r, c, Dirs(p), n - 1), Chunk(pos, p, r, c, d));
    }
  }

  lemma OneDirection(p: int, r: int, c: int, d: Dir, e: Dir, x: int, y: int)
    requires d != e
    ensures !(Towards(p, r, c, d, x, y) && Towards(p, r, c, e, x, y))
  {
  }

  lemma PawnNoDup(pos: Pos, r: int, c: int)
    requires WellFormed(pos) && On(r, c) && At(pos.sq, r, c) == PawnOf(pos.side)
    ensures NoDup(PawnPushes(pos, r, c) + PawnCaptures(pos, r, c))
  {
    var f := Forward(pos.side);
    var pushes, left, right := PawnPushes(pos, r, c), PawnTakes(pos, r, c, -1), PawnTakes(pos, r, c, 1);
    var epLeft, epRight := PawnEp(pos, r, c, -1), PawnEp(pos, r, c, 1);
    PushesNoDup(pos, r, c);
    forall m
      ensures m in pushes ==> m.tc == c
      ensures m in left ==> m.tc == c - 1 && EnemyOn(pos.sq, m.tr, m.tc, pos.side)
      ensures m in right ==> m.tc == c + 1 && EnemyOn(pos.sq, m.tr, m.tc, pos.side)
      ensures m in epLeft ==> m.tc == c - 1 && Empty(pos.sq, m.tr, m.tc)
      ensures m in epRight ==> m.tc == c + 1 && Empty(pos.sq, m.tr, m.tc)
    {
      PawnPushMembers(pos, r, c, m);
      PawnTakeMembers(pos, r, c, -1, m);
      PawnTakeMembers(pos, r, c, 1, m);
      PawnEpMembers(pos, r, c, -1, m);
      PawnEpMembers(pos, r, c, 1, m);
    }
    TakesNoDup(pos, r, c, -1);
    TakesNoDup(pos, r, c, 1);
    hide PawnPushes, PawnTakes, PawnEp, WellFormed;
    NoDupConcat(left, right);
    NoDupConcat(left + right, epLeft);
    NoDupConcat(left + right + epLeft, epRight);
    NoDupConcat(pushes, left + right + epLeft + epRight);
  }

  lemma PushesNoDup(pos: Pos, r: int, c: int)
    requires Shape(pos.sq) && IsSide(pos.side) && On(r, c)
    ensures NoDup(PawnPushes(pos, r, c))
  {
    var f := Forward(pos.side);
    if Empty(pos.sq, r + f, c) {
      PawnToNoDup(pos, r, c, r + f, c);
    }
  }

  lemma TakesNoDup(pos: Pos, r: int, c: int, dc: int)
    requires Shape(pos.sq) && IsSide(pos.side) && On(r, c)
    ensures NoDup(PawnTakes(pos, r, c, dc)) && NoDup(PawnEp(pos, r, c, dc))
  {
    var f := Forward(pos.side);
    if On(r + f, c + dc) {
      PawnToNoDup(pos, r, c, r + f, c + dc);
    }
  }

  lemma PawnToNoDup(pos: Pos, r: int, c: int, x: int, y: int)
    requires Shape(pos.sq) && On(r, c) && On(x, y)
    ensures NoDup(PawnTo(pos, r, c, x, y))
  {
  }

  lemma CastlesNoDup(pos: Pos, r: int, c: int)
    requires Shape(pos.sq) && IsSide(pos.side) && On(r, c)
    ensures NoDup(Castles(pos, r, c))
  {
    hide CastleRule;
  }

  lemma CastleIsNoStep(pos: Pos, r: int, c: int, m: Move)
    requires Shape(pos.sq) && IsSide(pos.side) && On(r, c) && m in Castles(pos, r, c)
    ensures !Attacks(pos.sq, KingOf(pos.side), r, c, m.tr, m.tc)
  {
    hide CastleRule;
  }

  lemma KingNoDup(pos: Pos, r: int, c: int)
    requires WellFormed(pos) && On(r, c) && At(pos.sq, r, c) == KingOf(pos.side)
    ensures DirsOk(KingOf(pos.side), KING_DIRS)
    ensures NoDup(Fan(pos, KingOf(pos.side), r, c, KING_DIRS, |KING_DIRS|) + Castles(pos, r, c))
  {
    var p := KingOf(pos.side);
    DirsAreDirections(p);
    hide Fan, OneKingEach, CastleRule, Attacks, Room, InCheck;
    FanNoDup(pos, p, r, c, |KING_DIRS|);
    var fan := Fan(pos, p, r, c, KING_DIRS, |KING_DIRS|);
    forall m | m in Castles(pos, r, c)
      ensures m !in fan
    {
      FanIsAttacks(pos, p, r, c, m);
      CastleIsNoStep(pos, r, c, m);
    }
    CastlesNoDup(pos, r, c);
    NoDupConcat(fan, Castles(pos, r, c));
  }

  lemma PieceNoDup(pos: Pos, r: int, c: int)
    requires WellFormed(pos) && On(r, c) && Owned(At(pos.sq, r, c), pos.side)
    ensures NoDup(PieceMoves(pos, At(pos.sq, r, c), r, c))
  {
    var p := At(pos.sq, r, c);
    DirsAreDirections(p);
    hide WellFormed, Fan, Castles, PawnPushes, PawnCaptures;
    if IsPawn(p) {
      PawnNoDup(pos, r, c);
    } else if IsKing(p) {
      KingNoDup(pos, r, c);
    } else {
      FanNoDup(pos, p, r, c, |Dirs(p)|);
      var fan := Fan(pos, p, r, c, Dirs(p), |Dirs(p)|);
      assert fan + [] == fan;
    }
  }

  // ----- Captures are the filtered moves -----

  lemma NoCaptures(s: seq<Move>)
    requires forall m :: m in s ==> !IsCapture(m)
    ensures Captures(s) == []
  {
  }

  lemma OnlyCaptures(s: seq<Move>)
    requires forall m :: m in s ==> IsCapture(m)
    ensures Captures(s) == s
  {
    if s != [] {
      OnlyCaptures(s[1..]);
      assert s == [s[0]] + s[1..];
    }
  }

  lemma {:induction false} RayFiltered(pos: Pos, r: int, c: int, ir: int, ic: int, dr: int, dc: int)
    requires Shape(pos.sq) && On(r, c) && IsDir(dr, dc) && !IsPawn(At(pos.sq, r, c))
    ensures RayCaptures(pos, r, c, ir, ic, dr, dc) == Captures(RayMoves(pos, r, c, ir, ic, dr, dc))
    decreases Left(ir, ic, dr, dc)
  {
    if On(ir, ic) && At(pos.sq, ir, ic) == NOPIECE {
      RayFiltered(pos, r, c, ir + dr, ic + dc, dr, dc);
      CapturesConcat([To(pos, r, c, ir, ic)], RayMoves(pos, r, c, ir + dr, ic + dc, dr, dc));
    }
  }

  lemma ChunkFiltered(pos: Pos, p: int, r: int, c: int, d: Dir)
    requires Shape(pos.sq) && On(r, c) && (Slides(p) ==> IsDir(d.0, d.1)) && !IsPawn(At(pos.sq, r, c))
    ensures CaptureChunk(pos, p, r, c, d) == Captures(Chunk(pos, p, r, c, d))
  {
    hide RayMoves, RayCaptures;
    if Slides(p) {
      RayFiltered(pos, r, c, r + d.0, c + d.1, d.0, d.1);
    }
  }

  lemma {:induction false} FanFiltered(pos: Pos, p: int, r: int, c: int, ds: seq<Dir>, n: nat)
    requires Shape(pos.sq) && On(r, c) && n <= |ds| && DirsOk(p, ds) && !IsPawn(At(pos.sq, r, c))
    ensures CaptureFan(pos, p, r, c, ds, n) == Captures(Fan(pos, p, r, c, ds, n))
  {
    hide Chunk, CaptureChunk;
    if n > 0 {
      var d := ds[n - 1];
      FanFiltered(pos, p, r, c, ds, n - 1);
      CapturesConcat(Fan(pos, p, r, c, ds, n - 1), Chunk(pos, p, r, c, d));
      ChunkFiltered(pos, p, r, c, d);
    }
  }

  lemma PawnFiltered(pos: Pos, r: int, c: int)
    requires WellFormed(pos) && On(r, c) && At(pos.sq, r, c) == PawnOf(pos.side)
    ensures PawnCaptures(pos, r, c) == Captures(PawnPushes(pos, r, c) + PawnCaptures(pos, r, c))
  {
    forall m
      ensures m in PawnPushes(pos, r, c) ==> !IsCapture(m)
      ensures m in PawnCaptures(pos, r, c) ==> IsCapture(m)
    {
      PawnPushMembers(pos, r, c, m);
      PawnTakeMembers(pos, r, c, -1, m);
      PawnTakeMembers(pos, r, c, 1, m);
      PawnEpMembers(pos, r, c, -1, m);
      PawnEpMembers(pos, r, c, 1, m);
    }
    hide PawnPushes, PawnCaptures;
    CapturesConcat(PawnPushes(pos, r, c), PawnCaptures(pos, r, c));
    NoCaptures(PawnPushes(pos, r, c));
    OnlyCaptures(PawnCaptures(pos, r, c));
  }

  lemma KingFiltered(pos: Pos, r: int, c: int)
    requires Shape(pos.sq) && IsSide(pos.side) && On(r, c) && IsKing(At(pos.sq, r, c))
    ensures Captures(Castles(pos, r, c)) == []
  {
    NoCaptures(Castles(pos, r, c));
  }

  lemma PieceFiltered(pos: Pos, r: int, c: int)
    requires WellFormed(pos) && On(r, c) && Owned(At(pos.sq, r, c), pos.side)
    ensures PieceCaptures(pos, At(pos.sq, r, c), r, c) == Captures(PieceMoves(pos, At(pos.sq, r, c), r, c))
  {
    var p := At(pos.sq, r, c);
    DirsAreDirections(p);
    if IsPawn(p) {
      hide PawnPushes, PawnCaptures;
      PawnFiltered(pos, r, c);
    } else {
      hide WellFormed, Fan, CaptureFan, Castles, Dirs;
      var fan, castles := Fan(pos, p, r, c, Dirs(p), |Dirs(p)|), if IsKing(p) then Castles(pos, r, c) else [];
      FanFiltered(pos, p, r, c, Dirs(p), |Dirs(p)|);
      CapturesConcat(fan, castles);
      if IsKing(p) { KingFiltered(pos, r, c); }
    }
  }

  // ----- The whole list -----

  /** A list of one piece type, as the board keeps it. */
  ghost predicate Listing(pos: Pos, p: int, list: seq<Place>)
    requires Shape(pos.sq)
  {
    && Owned(p, pos.side) && NoDup(list) && Places(list)
    && forall i :: 0 <= i < |list| ==> At(pos.sq, list[i].0, list[i].1) == p
  }

  lemma {:induction false} ListMembers(pos: Pos, p: int, list: seq<Place>, n: nat, m: Move)
    requires WellFormed(pos) && n <= |list| && Listing(pos, p, list)
    ensures m in ListMoves(pos, p, list, n) <==> PseudoLegal(pos, m) && (m.fr, m.fc) in list[..n]
  {
    hide WellFormed, PseudoLegal, PieceMoves;
    if n > 0 {
      ListMembers(pos, p, list, n - 1, m);
      PieceMembers(pos, list[n - 1].0, list[n - 1].1, m);
      assert list[..n] == list[..n - 1] + [list[n - 1]];
    }
  }

  lemma {:induction false} ListNoDup(pos: Pos, p: int, list: seq<Place>, n: nat)
    requires WellFormed(pos) && n <= |list| && Listing(pos, p, list)
    ensures NoDup(ListMoves(pos, p, list, n))
  {
    hide WellFormed, PseudoLegal, PieceMoves;
    WellShaped(pos);
    if n > 0 {
      var r, c := list[n - 1].0, list[n - 1].1;
      ListNoDup(pos, p, list, n - 1);
      PieceNoDup(pos, r, c);
      forall m | m in ListMoves(pos, p, list, n - 1)
        ensures m !in PieceMoves(pos, p, r, c)
      {
        ListMembers(pos, p, list, n - 1, m);
        PieceMembers(pos, r, c, m);
      }
      NoDupConcat(ListMoves(pos, p, list, n - 1), PieceMoves(pos, p, r, c));
    }
  }

  lemma {:induction false} ListFiltered(pos: Pos, p: int, list: seq<Place>, n: nat)
    requires WellFormed(pos) && n <= |list| && Listing(pos, p, list)
    ensures ListCaptures(pos, p, list, n) == Captures(ListMoves(pos, p, list, n))
  {
    hide WellFormed, PieceMoves, PieceCaptures;
    WellShaped(pos);
    if n > 0 {
      ListFiltered(pos, p, list, n - 1);
      PieceFiltered(pos, list[n - 1].0, list[n - 1].1);
      CapturesConcat(ListMoves(pos, p, list, n - 1), PieceMoves(pos, p, list[n - 1].0, list[n - 1].1));
    }
  }

  lemma IndexedListing(pos: Pos, lists: seq<seq<Place>>, p: int)
    requires WellFormed(pos) && Indexed(pos.sq, lists) && Owned(p, pos.side)
    ensures AllPlaces(lists) && Listing(pos, p, lists[p])
  {
    IndexedPlaces(pos.sq, lists);
    forall i | 0 <= i < |lists[p]|
      ensures At(pos.sq, lists[p][i].0, lists[p][i].1) == p
    {
      assert (lists[p][i].0, lists[p][i].1) in lists[p];
    }
  }

  lemma {:induction false} TypeMembers(pos: Pos, lists: seq<seq<Place>>, lo: int, hi: int, m: Move)
    requires WellFormed(pos) && Indexed(pos.sq, lists) && AllPlaces(lists)
    requires 0 <= lo && hi < 12 && forall p :: lo <= p <= hi ==> Owned(p, pos.side)
    ensures m in TypeMoves(pos, lists, lo, hi)
       <==> PseudoLegal(pos, m) && lo <= At(pos.sq, m.fr, m.fc) <= hi
    decreases hi - lo
  {
    hide WellFormed, ListMoves;
    if lo <= hi {
      TypeMembers(pos, lists, lo, hi - 1, m);
      IndexedListing(pos, lists, hi);
      ListMembers(pos, hi, lists[hi], |lists[hi]|, m);
      assert lists[hi][..|lists[hi]|] == lists[hi];
    }
  }

  lemma {:induction false} TypeNoDup(pos: Pos, lists: seq<seq<Place>>, lo: int, hi: int)
    requires WellFormed(pos) && Indexed(pos.sq, lists) && AllPlaces(lists)
    requires 0 <= lo && hi < 12 && forall p :: lo <= p <= hi ==> Owned(p, pos.side)
    ensures NoDup(TypeMoves(pos, lists, lo, hi))
    ensures TypeCaptures(pos, lists, lo, hi) == Captures(TypeMoves(pos, lists, lo, hi))
    decreases hi - lo
  {
    hide WellFormed, PseudoLegal, ListMoves, ListCaptures;
    WellShaped(pos);
    if lo <= hi {
      var list := lists[hi];
      TypeNoDup(pos, lists, lo, hi - 1);
      IndexedListing(pos, lists, hi);
      ListNoDup(pos, hi, list, |list|);
      ListFiltered(pos, hi, list, |list|);
      forall m | m in TypeMoves(pos, lists, lo, hi - 1)
        ensures m !in ListMoves(pos, hi, list, |list|)
      {
        TypeMembers(pos, lists, lo, hi - 1, m);
        TypeMembers(pos, lists, hi, hi, m);
      }
      NoDupConcat(TypeMoves(pos, lists, lo, hi - 1), ListMoves(pos, hi, list, |list|));
      CapturesConcat(TypeMoves(pos, lists, lo, hi - 1), ListMoves(pos, hi, list, |list|));
    }
  }

  /** Main result: the generated list holds exactly the pseudo-legal moves, none twice, and the
      capture list is its subsequence of captures and en passant moves. */
  lemma GeneratedExactly(pos: Pos, lists: seq<seq<Place>>)
    requires WellFormed(pos) && Indexed(pos.sq, lists)
    ensures AllPlaces(lists)
    ensures forall m :: m in AllMoves(pos, lists) <==> PseudoLegal(pos, m)
    ensures NoDup(AllMoves(pos, lists))
    ensures AllCaptures(pos, lists) == Captures(AllMoves(pos, lists))
  {
    IndexedPlaces(pos.sq, lists);
    forall m
      ensures m in AllMoves(pos, lists) <==> PseudoLegal(pos, m)
    {
      TypeMembers(pos, lists, LowPiece(pos.side), HighPiece(pos.side), m);
    }
    TypeNoDup(pos, lists, LowPiece(pos.side), HighPiece(pos.side));
  }

  /** An attack on an enemy piece is a move that takes it. */
  lemma AttackIsMove(pos: Pos, pr: int, pc: int, r: int, c: int) returns (m: Move)
    requires WellFormed(pos) && On(pr, pc) && On(r, c)
    requires Owned(At(pos.sq, r, c), Other(pos.side)) && AttackedFrom(pos.sq, pr, pc, r, c, pos.side)
    ensures PseudoLegal(pos, m) && m.tr == r && m.tc == c
  {
    hide Clear, InCheck, Room, OneKingEach, CastleTruthful, EpTruthful, CastleRule;
    var p := At(pos.sq, pr, pc);
    var queen := if pos.side == WHITE then WQ else BQ;
    m := MoveOf(pos, pr, pc, r, c, if IsPawn(p) && r == LastRow(pos.side) then queen else NOPIECE);
  }

  lemma MoveIsAttack(pos: Pos, m: Move)
    requires WellFormed(pos) && PseudoLegal(pos, m) && m.cap != NOPIECE
    ensures AttackedFrom(pos.sq, m.fr, m.fc, m.tr, m.tc, pos.side)
  {
    hide Clear, InCheck, Room, OneKingEach;
  }

  /** The attack test and the generator agree on every square the opponent holds. */
  lemma AttackedIffTakeable(pos: Pos, r: int, c: int)
    requires WellFormed(pos) && On(r, c) && Owned(At(pos.sq, r, c), Other(pos.side))
    ensures Attacked(pos.sq, r, c, pos.side) <==> exists m :: PseudoLegal(pos, m) && m.tr == r && m.tc == c
  {
    if Attacked(pos.sq, r, c, pos.side) {
      var pr, pc :| On(pr, pc) && AttackedFrom(pos.sq, pr, pc, r, c, pos.side);
      var m := AttackIsMove(pos, pr, pc, r, c);
    }
    if m :| PseudoLegal(pos, m) && m.tr == r && m.tc == c {
      MoveIsAttack(pos, m);
    }
  }
}
