/** Attack tests, making and unmaking moves on the shared board (src/chess/movegen.cpp). */
module Movegens {
  import opened Pieces
  import opened Squares
  import opened Rules
  import opened Zobrist
  import opened Invariant
  import opened Games
  import opened Rays
  import opened Boards
  import opened Generators
  import opened Trees

  /** None of the first n squares of a piece list attacks (r, c). */
  ghost predicate NoHit(sq: Grid, p: int, list: seq<Place>, n: int, r: int, c: int)
    requires Shape(sq) && n <= |list|
  {
    forall j :: 0 <= j < n ==> !Attacks(sq, p, list[j].0, list[j].1, r, c)
  }

  lemma SearchedAll(sq: Grid, lists: seq<seq<Place>>, r: int, c: int, col: int)
    requires Shape(sq) && Indexed(sq, lists) && IsSide(col)
    requires forall p :: LowPiece(col) <= p <= HighPiece(col) ==> NoHit(sq, p, lists[p], |lists[p]|, r, c)
    ensures !Attacked(sq, r, c, col)
  {
    forall pr, pc | On(pr, pc)
      ensures !AttackedFrom(sq, pr, pc, r, c, col)
    {
      var p := At(sq, pr, pc);
      if Owned(p, col) {
        assert (pr, pc) in lists[p];
        var j :| 0 <= j < |lists[p]| && lists[p][j] == (pr, pc);
        assert NoHit(sq, p, lists[p], |lists[p]|, r, c);
      }
    }
  }

  lemma AttackFound(sq: Grid, pr: int, pc: int, r: int, c: int, col: int)
    requires Shape(sq) && On(pr, pc) && AttackedFrom(sq, pr, pc, r, c, col)
    ensures Attacked(sq, r, c, col)
  {
  }

  /** A list of keys, decoded. */
  ghost function Decoded(ks: seq<Key>): (ms: seq<Move>)
    ensures |ms| == |ks| && forall i :: 0 <= i < |ks| ==> ms[i] == Decode(ks[i])
  {
    seq(|ks|, i requires 0 <= i < |ks| => Decode(ks[i]))
  }

  lemma DecodedSnoc(ks: seq<Key>, k: Key)
    ensures Decoded(ks + [k]) == Decoded(ks) + [Decode(k)]
  {
  }

  /** Keys that getMove packs: never the sentinel, and recovered from their fields. */
  ghost predicate WellPacked(ks: seq<Key>) {
    forall k :: k in ks ==> k != NOMOVE && Packable(Decode(k)) && Encode(Decode(k)) == k
  }

  lemma NoDirections(pos: Pos, p: int, r: int, c: int, ds: seq<Dir>)
    requires Shape(pos.sq) && On(r, c) && IsPiece(p) && (ds == Dirs(p) || !Slides(p))
    ensures DirsOk(p, ds) && Fan(pos, p, r, c, ds, 0) == [] && CaptureFan(pos, p, r, c, ds, 0) == []
  {
    DirsAreDirections(p);
  }

  lemma FanSnoc(base: seq<Move>, pos: Pos, p: int, r: int, c: int, ds: seq<Dir>, n: nat)
    requires Shape(pos.sq) && On(r, c) && DirsOk(p, ds) && n < |ds|
    ensures Slides(p) ==> IsDir(ds[n].0, ds[n].1)
    ensures base + Fan(pos, p, r, c, ds, n + 1) == (base + Fan(pos, p, r, c, ds, n)) + Chunk(pos, p, r, c, ds[n])
    ensures base + CaptureFan(pos, p, r, c, ds, n + 1)
         == (base + CaptureFan(pos, p, r, c, ds, n)) + CaptureChunk(pos, p, r, c, ds[n])
  {
    hide Chunk, CaptureChunk;
    assert ds[n] in ds;
  }

  /** A king that may castle has its whole castling path on the board. */
  lemma CastlingAtHome(pos: Pos, r: int, c: int)
    requires WellFormed(pos) && On(r, c) && At(pos.sq, r, c) == KingOf(pos.side)
    ensures Has(pos.castle, if pos.side == WHITE then WKCA else BKCA) ==> r == HomeRow(pos.side) && c == 4
    ensures Has(pos.castle, if pos.side == WHITE then WQCA else BQCA) ==> r == HomeRow(pos.side) && c == 4
  {
    hide InCheck, Room, Count;
    if At(pos.sq, HomeRow(pos.side), 4) == KingOf(pos.side) {
      CountUnique(pos.sq, r, c, HomeRow(pos.side), 4, KingOf(pos.side));
    }
  }

  lemma PawnBetween(pos: Pos, r: int, c: int)
    requires WellFormed(pos) && On(r, c)
    ensures IsPawn(At(pos.sq, r, c)) ==> 1 <= r <= 6
  {
  }

  lemma PieceMovesParts(base: seq<Move>, pos: Pos, p: int, r: int, c: int)
    requires Shape(pos.sq) && IsSide(pos.side) && On(r, c) && IsPiece(p)
    ensures DirsOk(p, Dirs(p))
    ensures IsPawn(p) ==> base + PieceMoves(pos, p, r, c) == (base + PawnPushes(pos, r, c)) + PawnCaptures(pos, r, c)
    ensures IsKnight(p) ==> Dirs(p) == KNIGHT_DIRS
    ensures IsKing(p) ==> Dirs(p) == KING_DIRS
    ensures IsKing(p) ==>
              base + PieceMoves(pos, p, r, c) == (base + Fan(pos, p, r, c, Dirs(p), |Dirs(p)|)) + Castles(pos, r, c)
    ensures !IsPawn(p) && !IsKing(p) ==> PieceMoves(pos, p, r, c) == Fan(pos, p, r, c, Dirs(p), |Dirs(p)|)
  {
    DirsAreDirections(p);
    hide Fan, Castles, PawnPushes, PawnCaptures;
  }

  lemma NothingDecoded()
    ensures Decoded([]) == [] && WellPacked([])
  {
  }

  lemma Listed(sq: Grid, lists: seq<seq<Place>>, p: int, j: int)
    requires Shape(sq) && Indexed(sq, lists) && IsPiece(p) && 0 <= j < |lists[p]|
    ensures On(lists[p][j].0, lists[p][j].1) && At(sq, lists[p][j].0, lists[p][j].1) == p
  {
    assert (lists[p][j].0, lists[p][j].1) in lists[p];
  }

  lemma RayAssoc(base: seq<Move>, pos: Pos, r: int, c: int, ir: int, ic: int, dr: int, dc: int)
    requires Shape(pos.sq) && On(r, c) && IsDir(dr, dc) && On(ir, ic) && At(pos.sq, ir, ic) == NOPIECE
    ensures base + RayMoves(pos, r, c, ir, ic, dr, dc)
         == (base + [MoveOf(pos, r, c, ir, ic, NOPIECE)]) + RayMoves(pos, r, c, ir + dr, ic + dc, dr, dc)
  {
    hide MoveOf;
  }

  lemma PawnToAssoc(base: seq<Move>, pos: Pos, r: int, c: int, x: int, y: int)
    requires Shape(pos.sq) && IsSide(pos.side) && On(r, c) && On(x, y)
    ensures base + PawnTo(pos, r, c, x, y) ==
              if r != PromotionRow(pos.side) then base + [MoveOf(pos, r, c, x, y, NOPIECE)]
              else
                var p := if pos.side == WHITE then WN else BN;
                base + [MoveOf(pos, r, c, x, y, p)] + [MoveOf(pos, r, c, x, y, p + 1)]
                     + [MoveOf(pos, r, c, x, y, p + 2)] + [MoveOf(pos, r, c, x, y, p + 3)]
  {
    hide MoveOf;
  }

  lemma ListMovesSnoc(base: seq<Move>, pos: Pos, p: int, list: seq<Place>, n: nat)
    requires Shape(pos.sq) && IsSide(pos.side) && n < |list| && Places(list)
    ensures base + ListMoves(pos, p, list, n + 1)
         == (base + ListMoves(pos, p, list, n)) + PieceMoves(pos, p, list[n].0, list[n].1)
  {
    hide PieceMoves;
  }

  lemma ListCapturesSnoc(base: seq<Move>, pos: Pos, p: int, list: seq<Place>, n: nat)
    requires Shape(pos.sq) && IsSide(pos.side) && n < |list| && Places(list)
    ensures base + ListCaptures(pos, p, list, n + 1)
         == (base + ListCaptures(pos, p, list, n)) + PieceCaptures(pos, p, list[n].0, list[n].1)
  {
    hide PieceCaptures;
  }

  lemma SliderDirs(p: int)
    requires Slides(p)
    ensures var ds := Dirs(p); var n := if DoDiag(p) then 4 else 0;
            && |ds| == n + (if DoVert(p) then 4 else 0)
            && (DoDiag(p) ==> ds[0] == (1, 1) && ds[1] == (-1, 1) && ds[2] == (1, -1) && ds[3] == (-1, -1))
            && (DoVert(p) ==> ds[n] == (0, 1) && ds[n + 1] == (0, -1) && ds[n + 2] == (-1, 0) && ds[n + 3] == (1, 0))
  {
  }

  /** The legal ones among the first n moves of a list. */
  ghost function LegalAmong(pos: Pos, ms: seq<Move>, n: nat): (s: set<Move>)
    requires WellFormed(pos) && n <= |ms|
    ensures forall m :: m in s ==> Legal(pos, m)
  {
    set m | m in ms[..n] && Legal(pos, m)
  }

  lemma LegalAmongStep(pos: Pos, ms: seq<Move>, n: nat)
    requires WellFormed(pos) && n < |ms| && NoDup(ms)
    ensures ms[n] !in LegalAmong(pos, ms, n)
    ensures LegalAmong(pos, ms, n + 1) == LegalAmong(pos, ms, n) + if Legal(pos, ms[n]) then {ms[n]} else {}
  {
    hide WellFormed, Legal;
    assert ms[..n + 1] == ms[..n] + [ms[n]];
  }

  lemma LegalAmongAll(pos: Pos, ms: seq<Move>)
    requires WellFormed(pos) && forall m :: m in ms <==> PseudoLegal(pos, m)
    ensures LegalAmong(pos, ms, |ms|) == LegalMoves(pos)
  {
    hide WellFormed, PseudoLegal;
    assert ms[..|ms|] == ms;
  }

  lemma NoneLegal(pos: Pos, ms: seq<Move>)
    requires WellFormed(pos) && forall m :: m in ms <==> PseudoLegal(pos, m)
    ensures LegalMoves(pos) == {} <==> forall j :: 0 <= j < |ms| ==> !Legal(pos, ms[j])
  {
    hide WellFormed, PseudoLegal;
    if LegalMoves(pos) == {} {
      forall j | 0 <= j < |ms|
        ensures !Legal(pos, ms[j])
      {
        assert ms[j] !in LegalMoves(pos);
      }
    }
    if forall j :: 0 <= j < |ms| ==> !Legal(pos, ms[j]) {
      forall m
        ensures m !in LegalMoves(pos)
      {
        if m in ms {
          var j :| 0 <= j < |ms| && ms[j] == m;
        }
      }
    }
  }

  lemma KingPresent(pos: Pos)
    requires WellFormed(pos)
    ensures OneKingEach(pos.sq) && IsSide(pos.side)
  {
  }

  lemma NoLines(pos: Pos, ms: seq<Move>, d: nat)
    requires WellFormed(pos) && d > 0
    ensures LegalAmong(pos, ms, 0) == {} && LinesFrom(pos, {}, d) == {}
  {
  }

  class Movegen {
    const board: Board
    var leafNodes: nat

    ghost predicate Valid()
      reads board, board.Repr
    {
      board.Valid() && this !in board.Repr
    }

    constructor (keys: Keys)
      requires KeysOk(keys) && keys.base == 0
      ensures Valid() && fresh(board) && fresh(board.Repr)
      ensures board.keys == board.random == keys && board.State() == Game(ClearPosition(), [], 0)
    {
      board := new Board(keys);
      leafNodes := 0;
    }

    // ----- Attacks -----

    method Walk(pceR: int, pceC: int, dr: int, dc: int, r: int, c: int) returns (hit: bool)
      requires board.Valid() && On(pceR, pceC) && IsDir(dr, dc)
      ensures hit <==> Reaches(board.sq, pceR + dr, pceC + dc, dr, dc, r, c)
    {
      hide KeysOk, KeyOf, Indexed, Material, Hashable;
      var indexR, indexC := pceR + dr, pceC + dc;
      while On(indexR, indexC)
        invariant Reaches(board.sq, indexR, indexC, dr, dc, r, c)
             <==> Reaches(board.sq, pceR + dr, pceC + dc, dr, dc, r, c)
        decreases Left(indexR, indexC, dr, dc)
      {
        if r == indexR && c == indexC {
          return true;
        } else if board.GetPce(indexR, indexC) != NOPIECE {
          return false;
        }
        indexR, indexC := indexR + dr, indexC + dc;
      }
      return false;
    }

    method DiagonalWalks(pceR: int, pceC: int, r: int, c: int) returns (hit: bool)
      requires board.Valid() && On(pceR, pceC) && On(r, c)
      ensures hit <==> Diagonal(pceR, pceC, r, c) && Clear(board.sq, pceR, pceC, r, c)
    {
      hide Reaches, Clear, Diagonal, Straight, KeysOk, KeyOf, Indexed, Material, Hashable;
      DirectionKind(pceR, pceC, r, c);
      ghost var sq := board.sq;
      LineWalk(sq, pceR, pceC, 1, 1, r, c);
      LineWalk(sq, pceR, pceC, 1, -1, r, c);
      LineWalk(sq, pceR, pceC, -1, 1, r, c);
      LineWalk(sq, pceR, pceC, -1, -1, r, c);
      var downRight := Walk(pceR, pceC, 1, 1, r, c);
      if downRight { return true; }
      var downLeft := Walk(pceR, pceC, 1, -1, r, c);
      if downLeft { return true; }
      var upRight := Walk(pceR, pceC, -1, 1, r, c);
      if upRight { return true; }
      hit := Walk(pceR, pceC, -1, -1, r, c);
    }

    method StraightWalks(pceR: int, pceC: int, r: int, c: int) returns (hit: bool)
      requires board.Valid() && On(pceR, pceC) && On(r, c)
      ensures hit <==> Straight(pceR, pceC, r, c) && Clear(board.sq, pceR, pceC, r, c)
    {
      hide Reaches, Clear, Diagonal, Straight, KeysOk, KeyOf, Indexed, Material, Hashable;
      DirectionKind(pceR, pceC, r, c);
      ghost var sq := board.sq;
      LineWalk(sq, pceR, pceC, 0, 1, r, c);
      LineWalk(sq, pceR, pceC, 0, -1, r, c);
      LineWalk(sq, pceR, pceC, -1, 0, r, c);
      LineWalk(sq, pceR, pceC, 1, 0, r, c);
      var right := Walk(pceR, pceC, 0, 1, r, c);
      if right { return true; }
      var left := Walk(pceR, pceC, 0, -1, r, c);
      if left { return true; }
      var up := Walk(pceR, pceC, -1, 0, r, c);
      if up { return true; }
      hit := Walk(pceR, pceC, 1, 0, r, c);
    }

    /** The switch over the piece type: does a piece i on (pceR, pceC) attack (r, c)? */
    method Hits(i: int, pceR: int, pceC: int, r: int, c: int) returns (hit: bool)
      requires board.Valid() && IsPiece(i) && On(pceR, pceC) && On(r, c)
      ensures hit <==> Attacks(board.sq, i, pceR, pceC, r, c)
    {
      hide Board.Valid;
      if i == WP {
        return (r == pceR - 1 && c == pceC - 1) || (r == pceR - 1 && c == pceC + 1);
      } else if i == BP {
        return (r == pceR + 1 && c == pceC - 1) || (r == pceR + 1 && c == pceC + 1);
      } else if i == WN || i == BN {
        return (pceR >= 1 && pceC <= 5 && r == pceR - 1 && c == pceC + 2)
            || (pceR <= 5 && pceC >= 1 && r == pceR + 2 && c == pceC - 1)
            || (pceR >= 2 && pceC <= 6 && r == pceR - 2 && c == pceC + 1)
            || (pceR <= 6 && pceC >= 2 && r == pceR + 1 && c == pceC - 2)
            || (pceR >= 1 && pceC >= 2 && r == pceR - 1 && c == pceC - 2)
            || (pceR >= 2 && pceC >= 1 && r == pceR - 2 && c == pceC - 1)
            || (pceR <= 5 && pceC <= 6 && r == pceR + 2 && c == pceC + 1)
            || (pceR <= 6 && pceC <= 5 && r == pceR + 1 && c == pceC + 2);
      } else if IsKing(i) {
        return (pceR >= 1 && pceC >= 1 && r == pceR - 1 && c == pceC - 1)
            || (pceR >= 1 && r == pceR - 1 && c == pceC)
            || (pceR >= 1 && pceC <= 6 && r == pceR - 1 && c == pceC + 1)
            || (pceC <= 6 && r == pceR && c == pceC + 1)
            || (pceR <= 6 && pceC <= 6 && r == pceR + 1 && c == pceC + 1)
            || (pceR <= 6 && r == pceR + 1 && c == pceC)
            || (pceR <= 6 && pceC >= 1 && r == pceR + 1 && c == pceC - 1)
            || (pceC >= 1 && r == pceR && c == pceC - 1);
      } else {
        if DoDiag(i) {
          hit := DiagonalWalks(pceR, pceC, r, c);
          if hit { return true; }
        }
        if DoVert(i) {
          hit := StraightWalks(pceR, pceC, r, c);
          if hit { return true; }
        }
        return false;
      }
    }

    /** Is (r, c) attacked by a piece of the colour opposite to side? */
    method SquareAttacked(r: int, c: int, side: int) returns (hit: bool)
      requires board.Valid() && On(r, c) && IsSide(side)
      ensures hit <==> Attacked(board.sq, r, c, Other(side))
    {
      hide Board.Valid, Indexed, Attacks, Attacked;
      ListLengths();
      var col := Other(side);
      var lBound, uBound := LowPiece(col), HighPiece(col);
      var i := uBound;
      while i >= lBound
        invariant lBound - 1 <= i <= uBound
        invariant forall p :: i < p <= uBound ==> NoHit(board.sq, p, board.lists[p], |board.lists[p]|, r, c)
      {
        var j := 0;
        while j < board.pceNum[i]
          invariant 0 <= j <= |board.lists[i]|
          invariant NoHit(board.sq, i, board.lists[i], j, r, c)
        {
          var h := EntryHits(i, j, r, c, col);
          if h {
            return true;
          }
          j := j + 1;
        }
        i := i - 1;
      }
      SearchedAll(board.sq, board.lists, r, c, col);
      return false;
    }

    lemma ListLengths()
      requires board.Valid()
      ensures Shape(board.sq) && Indexed(board.sq, board.lists) && |board.lists| == 12 && board.pceNum.Length == 12
      ensures forall p :: 0 <= p < 12 ==> board.pceNum[p] == |board.lists[p]|
    {
      hide KeysOk, KeyOf, Material, Hashable;
    }

    /** The test for one entry of a piece list. */
    method EntryHits(i: int, j: nat, r: int, c: int, ghost col: int) returns (hit: bool)
      requires board.Valid() && On(r, c) && Owned(i, col) && IsPiece(i) && j < |board.lists[i]|
      ensures hit <==> Attacks(board.sq, i, board.lists[i][j].0, board.lists[i][j].1, r, c)
      ensures hit ==> Attacked(board.sq, r, c, col)
    {
      hide KeysOk, KeyOf, Material, Hashable, Attacks, Attacked;
      var pceR, pceC := board.pListR[10 * i + j], board.pListC[10 * i + j];
      assert (pceR, pceC) == board.lists[i][j];
      assert (pceR, pceC) in board.lists[i];
      hit := Hits(i, pceR, pceC, r, c);
      if hit {
        AttackFound(board.sq, pceR, pceC, r, c, col);
      }
    }

    // ----- Making and unmaking -----

    /** En passant victims leave and castling rooks jump before the moving piece does. */
    method MoveOthers(k: Key)
      requires Valid() && WellFormed(board.Position()) && PseudoLegal(board.Position(), Decode(k))
      modifies board`posKey, board`material, board`sq, board`lists,
               board.mBoard, board.pceNum, board.pListR, board.pListC
      ensures Valid() && old(Appliable(board.Position(), Decode(k)))
      ensures board.sq == old(SideEffects(board.Position(), Decode(k)))
    {
      hide KeysOk, KeyOf, Indexed, Material, InCheck, Decode, Count, EpTruthful, CastleTruthful;
      ghost var pos, m := board.Position(), Decode(k);
      DecodeFields(k);
      MoveFacts(pos, m);
      var side, tR, tC := board.side, ToR(k), ToC(k);
      if IsEnpasMove(k) {
        if side == WHITE {
          board.RemovePiece(tR + 1, tC);
        } else {
          board.RemovePiece(tR - 1, tC);
        }
      } else if IsCastleMove(k) {
        var home := if side == WHITE then 7 else 0;
        var rook := if side == WHITE then WR else BR;
        if tC == 2 {
          board.RemovePiece(home, 0);
          ReturnFits(board.sq, pos, home, 0, rook);
          board.AddPiece(home, 3, rook);
        } else {
          board.RemovePiece(home, 7);
          ReturnFits(board.sq, pos, home, 7, rook);
          board.AddPiece(home, 5, rook);
        }
      }
    }
  
    /** Kings lose both rights; a move from or to a rook's home square loses that rook's right. */
    method ClearRights(k: Key, pce: int, ghost pos: Pos)
      requires Valid() && Appliable(pos, Decode(k)) && pce == At(pos.sq, FromR(k), FromC(k))
      requires pos.castle == board.castlePerm && pos.side == board.side
      modifies board`castlePerm, board`posKey
      ensures Valid() && board.castlePerm == CastleAfter(pos, Decode(k))
    {
      hide Boards.Board.Valid, Without, Decode, CastleAfter;
      DecodeFields(k);
      ClearedRightsAreCastleAfter(pos, Decode(k));
      var fR, fC, tR, tC := FromR(k), FromC(k), ToR(k), ToC(k);
      if IsKing(pce) {
        if board.side == WHITE {
          board.HashOutCastle(WKCA);
          board.HashOutCastle(WQCA);
        } else {
          board.HashOutCastle(BKCA);
          board.HashOutCastle(BQCA);
        }
      }
      if (fR == 0 && fC == 0) || (tR == 0 && tC == 0) {
        board.HashOutCastle(BQCA);
      }
      if (fR == 0 && fC == 7) || (tR == 0 && tC == 7) {
        board.HashOutCastle(BKCA);
      }
      if (fR == 7 && fC == 0) || (tR == 7 && tC == 0) {
        board.HashOutCastle(WQCA);
      }
      if (fR == 7 && fC == 7) || (tR == 7 && tC == 7) {
        board.HashOutCastle(WKCA);
      }
    }

    /** The old en passant square goes, rights are cleared, and a double pawn step leaves a new square. */
    method UpdateRights(k: Key, pce: int, ghost pos: Pos)
      requires Valid() && Appliable(pos, Decode(k)) && pce == At(pos.sq, FromR(k), FromC(k))
      requires pos.castle == board.castlePerm && pos.side == board.side
      requires IsPawnstartMove(k) ==> On(EpVictimRow(pos.side, ToR(k)), ToC(k))
      modifies board`castlePerm, board`posKey, board`enpasSquareR, board`enpasSquareC
      ensures Valid() && board.castlePerm == CastleAfter(pos, Decode(k))
      ensures board.enpasSquareR == (if IsPawnstartMove(k) then EpVictimRow(pos.side, ToR(k)) else OFFBOARD)
      ensures board.enpasSquareC == (if IsPawnstartMove(k) then ToC(k) else OFFBOARD)
    {
      hide Boards.Board.Valid, Decode, CastleAfter;
      board.HashOutEp();
      ClearRights(k, pce, pos);
      if IsPawnstartMove(k) {
        if board.side == WHITE {
          board.HashInEp(ToR(k) + 1, ToC(k));
        } else {
          board.HashInEp(ToR(k) - 1, ToC(k));
        }
      }
    }

    /** Lifts the moving piece and its victim, and puts down the piece or its promotion. */
    method MovePiece(k: Key, pce: int, ghost pos: Pos)
      requires Valid() && WellFormed(pos) && PseudoLegal(pos, Decode(k)) && Appliable(pos, Decode(k))
      requires pce == At(pos.sq, FromR(k), FromC(k)) && board.sq == SideEffects(pos, Decode(k))
      modifies board`posKey, board`material, board`sq, board`lists,
               board.mBoard, board.pceNum, board.pListR, board.pListC
      ensures Valid() && board.sq == SquaresAfter(pos, Decode(k))
    {
      hide Boards.Board.Valid, Decode, WellFormed, PseudoLegal, Count, SideEffects, SquaresAfter;
      DecodeFields(k);
      LiftForMove(pos, Decode(k));
      board.RemovePiece(FromR(k), FromC(k));
      if Captured(k) != NOPIECE {
        board.RemovePiece(ToR(k), ToC(k));
      }
      if Promoted(k) != NOPIECE {
        board.AddPiece(ToR(k), ToC(k), Promoted(k));
      } else {
        board.AddPiece(ToR(k), ToC(k), pce);
      }
    }

    /** Victims come back and castling rooks jump home. */
    method UnmoveOthers(k: Key, ghost pos: Pos)
      requires Valid() && WellFormed(pos) && PseudoLegal(pos, Decode(k)) && Appliable(pos, Decode(k))
      requires board.sq == SquaresAfter(pos, Decode(k)) && board.side == pos.side
      modifies board`posKey, board`material, board`sq, board`lists,
               board.mBoard, board.pceNum, board.pListR, board.pListC
      ensures Valid() && board.sq == EndsOnly(pos, Decode(k))
    {
      hide Boards.Board.Valid, Decode, Count, WellFormed, PseudoLegal, SquaresAfter, EndsOnly;
      DecodeFields(k);
      MoveFacts(pos, Decode(k));
      OthersHomecoming(pos, Decode(k));
      var tR, tC := ToR(k), ToC(k);
      if IsEnpasMove(k) {
        if board.side == WHITE {
          board.AddPiece(tR + 1, tC, BP);
        } else {
          board.AddPiece(tR - 1, tC, WP);
        }
      } else if IsCastleMove(k) {
        var home := if board.side == WHITE then 7 else 0;
        var rook := if board.side == WHITE then WR else BR;
        if tC == 2 {
          board.RemovePiece(home, 3);
          board.AddPiece(home, 0, rook);
        } else {
          board.RemovePiece(home, 5);
          board.AddPiece(home, 7, rook);
        }
      }
    }

    /** En passant square and rights come back from the history record. */
    method RestoreRights(last: History)
      requires Valid() && EpOnBoard(last.enpasSquareR, last.enpasSquareC)
      requires board.castlePerm & last.castlePerm == board.castlePerm
      modifies board`castlePerm, board`posKey, board`enpasSquareR, board`enpasSquareC
      ensures Valid() && board.castlePerm == last.castlePerm
      ensures board.enpasSquareR == last.enpasSquareR && board.enpasSquareC == last.enpasSquareC
    {
      hide Boards.Board.Valid, With, Has;
      RightsRestored(board.castlePerm, last.castlePerm);
      board.HashOutEp();
      if last.enpasSquareR != OFFBOARD {
        board.HashInEp(last.enpasSquareR, last.enpasSquareC);
      }
      if Has(last.castlePerm, WKCA) {
        board.HashInCastle(WKCA);
      }
      if Has(last.castlePerm, WQCA) {
        board.HashInCastle(WQCA);
      }
      if Has(last.castlePerm, BKCA) {
        board.HashInCastle(BKCA);
      }
      if Has(last.castlePerm, BQCA) {
        board.HashInCastle(BQCA);
      }
    }

    /** A promoted piece is replaced by the pawn it came from. */
    method Demote(k: Key, pce: int, ghost pos: Pos)
      requires Valid() && WellFormed(pos) && PseudoLegal(pos, Decode(k)) && Appliable(pos, Decode(k))
      requires pce == At(pos.sq, FromR(k), FromC(k))
      requires board.sq == EndsOnly(pos, Decode(k))
      modifies board`posKey, board`material, board`sq, board`lists,
               board.mBoard, board.pceNum, board.pListR, board.pListC
      ensures Valid() && At(board.sq, ToR(k), ToC(k)) == pce
      ensures Put(board.sq, ToR(k), ToC(k), NOPIECE) == Lifted(pos, Decode(k))
    {
      hide Boards.Board.Valid, Decode, Count, WellFormed, PseudoLegal, Lifted;
      DecodeFields(k);
      MoveFacts(pos, Decode(k));
      Homecoming(pos, Decode(k));
      LiftAgain(pos, Decode(k), pce);
      if Promoted(k) != NOPIECE {
        board.RemovePiece(ToR(k), ToC(k));
        if PceCol(pce) == WHITE {
          board.AddPiece(ToR(k), ToC(k), WP);
        } else {
          board.AddPiece(ToR(k), ToC(k), BP);
        }
      }
    }

    /** The piece goes home and its victim returns. */
    method UnmovePiece(k: Key, pce: int, ghost pos: Pos)
      requires Valid() && WellFormed(pos) && PseudoLegal(pos, Decode(k)) && Appliable(pos, Decode(k))
      requires pce == At(pos.sq, FromR(k), FromC(k))
      requires board.sq == EndsOnly(pos, Decode(k))
      modifies board`posKey, board`material, board`sq, board`lists,
               board.mBoard, board.pceNum, board.pListR, board.pListC
      ensures Valid() && board.sq == pos.sq
    {
      hide Boards.Board.Valid, Decode, Count, WellFormed, PseudoLegal, Lifted, EndsOnly;
      DecodeFields(k);
      MoveFacts(pos, Decode(k));
      MoverPresent(pos, Decode(k));
      Homecoming(pos, Decode(k));
      Demote(k, pce, pos);
      board.RemovePiece(ToR(k), ToC(k));
      if Promoted(k) == NOPIECE {
        board.AddPiece(FromR(k), FromC(k), pce);
      } else {
        board.AddPiece(FromR(k), FromC(k), if PceCol(pce) == WHITE then WP else BP);
      }
      if Captured(k) != NOPIECE {
        board.AddPiece(ToR(k), ToC(k), Captured(k));
      }
    }

    /** The position part of takeBack. */
    method Retreat(lastState: History, ghost g: Game, ghost made: Key)
      requires Valid() && WellFormed(g.pos) && PseudoLegal(g.pos, Decode(made)) && Appliable(g.pos, Decode(made))
      requires board.Position() == Apply(g.pos, Decode(made)) && RecordOf(g, made, lastState)
      modifies board`posKey, board`material, board`sq, board`lists, board`castlePerm,
               board`enpasSquareR, board`enpasSquareC, board`side,
               board.mBoard, board.pceNum, board.pListR, board.pListC
      ensures Valid() && board.Position() == g.pos
    {
      hide Boards.Board.Valid, Decode, WellFormed, PseudoLegal, SquaresAfter, CastleAfter, EndsOnly;
      EpWithinBoard(g.pos);
      CastleAfterLess(g.pos, Decode(made));
      board.ChangeSide();
      UnmoveOthers(lastState.move, g.pos);
      RestoreRights(lastState);
      UnmovePiece(lastState.move, lastState.pce, g.pos);
    }

    /** Takes back the last move: the game is again the one it was made in. */
    method TakeBack(ghost g: Game, ghost made: Key)
      requires Valid() && WellFormed(g.pos) && 0 <= g.fifty <= |g.past| && board.hisPly > 0
      requires PseudoLegal(g.pos, Decode(made)) && Appliable(g.pos, Decode(made))
      requires board.State() == Play(board.keys, g, made)
      modifies board.Repr
      ensures board.keys == old(board.keys)
      ensures Valid() && board.State() == g && board.hisPly == old(board.hisPly) - 1
    {
      hide KeysOk, KeyOf, Indexed, Material, Decode, PseudoLegal, WellFormed, Play, Apply, Hashable, Record,
           Boards.Board.GridStored, Boards.Board.ListsStored;
      WellFormedHashable(g.pos);
      var lastState := board.history[board.hisPly - 1];
      PlayFacts(board.keys, g, made);
      assert lastState == Record(board.keys, g, made);
      Retreat(lastState, g, made);
      board.PopHistory();
    }

    /** The position part of makeMove: squares, rights, en passant square and side. */
    method Advance(k: Key, pce: int)
      requires Valid() && WellFormed(board.Position()) && PseudoLegal(board.Position(), Decode(k))
      requires On(FromR(k), FromC(k)) && pce == At(board.sq, FromR(k), FromC(k))
      modifies board`posKey, board`material, board`sq, board`lists, board`castlePerm,
               board`enpasSquareR, board`enpasSquareC, board`side,
               board.mBoard, board.pceNum, board.pListR, board.pListC
      ensures Valid() && old(Appliable(board.Position(), Decode(k)))
      ensures board.Position() == old(Apply(board.Position(), Decode(k)))
    {
      hide Boards.Board.Valid, Decode, WellFormed, PseudoLegal, SquaresAfter, SideEffects, CastleAfter;
      ghost var pos, m := board.Position(), Decode(k);
      DecodeFields(k);
      MoveFacts(pos, m);
      MoveOthers(k);
      UpdateRights(k, pce, pos);
      MovePiece(k, pce, pos);
      board.ChangeSide();
    }

    /** Everything makeMove does before it looks at the king. */
    method Execute(k: Key)
      requires Valid() && WellFormed(board.Position()) && PseudoLegal(board.Position(), Decode(k))
      requires board.hisPly < MAXGAMELENGTH
      modifies board.Repr
      ensures board.keys == old(board.keys)
      ensures Valid() && old(Appliable(board.Position(), Decode(k))) && board.hisPly == old(board.hisPly) + 1
      ensures board.State() == old(Play(board.keys, board.State(), k))
    {
      hide KeysOk, KeyOf, Indexed, Material, Decode, WellFormed, PseudoLegal, Apply, Hashable,
           Boards.Board.GridStored, Boards.Board.ListsStored;
      DecodeFields(k);
      MoverPresent(board.Position(), Decode(k));
      var pce := board.GetPce(FromR(k), FromC(k));
      board.PushHistory(k);
      Advance(k, pce);
      if Captured(k) != NOPIECE || pce == WP || pce == BP {
        board.UpdateFiftyMove();
      }
    }

    /** Makes the move unless it leaves the mover's king attacked; then nothing has changed. */
    method MakeMove(k: Key) returns (ok: bool)
      requires Valid() && WellFormed(board.Position()) && PseudoLegal(board.Position(), Decode(k))
      requires board.hisPly < MAXGAMELENGTH
      modifies board.Repr
      ensures board.keys == old(board.keys)
      ensures Valid()
      ensures ok <==> old(Legal(board.Position(), Decode(k)))
      ensures ok ==> board.State() == old(Play(board.keys, board.State(), k))
      ensures ok ==> WellFormed(board.Position())
      ensures !ok ==> board.State() == old(board.State())
      ensures board.hisPly == old(board.hisPly) + if ok then 1 else 0
    {
      hide KeysOk, KeyOf, Indexed, Material, Decode, PseudoLegal, EpTruthful, CastleTruthful, NoEdgePawns, Room, InCheck,
           SquaresAfter, CastleAfter, Boards.Board.GridStored, Boards.Board.ListsStored;
      ghost var g := board.State();
      RoomAfter(g.pos, Decode(k));
      var side := board.side;
      Execute(k);
      var kingR, kingC := board.GetKingR(side), board.GetKingC(side);
      var attacked := SquareAttacked(kingR, kingC, side);
      InCheckThere(board.sq, kingR, kingC, side);
      if attacked {
        TakeBack(g, k);
        return false;
      }
      LegalKeepsWellFormed(g.pos, Decode(k));
      return true;
    }
  
    // ----- Generating moves -----

    /** Packs a move key bit field by bit field. */
    method GetMove(sR: int, sC: int, eR: int, eC: int, promoted: int) returns (moveKey: Key)
      requires board.Valid() && On(sR, sC) && On(eR, eC) && 0 < promoted < 16
      ensures Decode(moveKey) == MoveOf(board.Position(), sR, sC, eR, eC, promoted)
      ensures moveKey != NOMOVE && Packable(Decode(moveKey)) && Encode(Decode(moveKey)) == moveKey
    {
      hide KeysOk, KeyOf, Indexed, Material, Hashable, Boards.Board.ListsStored, Decode, Bits;
      DecodeEncode(MoveOf(board.Position(), sR, sC, eR, eC, promoted));
      var capturedPce := board.GetPce(eR, eC);
      var pawnMove := IsPawn(board.GetPce(sR, sC));
      var ep := pawnMove && eR == board.enpasSquareR && eC == board.enpasSquareC && (sR == 3 || sR == 4);
      var start := pawnMove && Abs(eR - sR) == 2;
      var castle := IsKing(board.GetPce(sR, sC)) && sC == 4 && (eC == 2 || eC == 6);
      moveKey := PackSteps(sR, sC, eR, eC, capturedPce, ep, start, promoted, castle);
    }

    method PackSteps(sR: int, sC: int, eR: int, eC: int, cap: int, ep: bool, start: bool, promoted: int, castle: bool)
      returns (moveKey: Key)
      requires Packable(Move(sR, sC, eR, eC, cap, ep, start, promoted, castle))
      ensures moveKey == Pack(sR, sC, eR, eC, cap, ep, start, promoted, castle)
    {
      hide Bits;
      moveKey := 0;
      moveKey := moveKey | Bits(sR);
      moveKey := moveKey | (Bits(sC) << 3);
      moveKey := moveKey | (Bits(eR) << 6);
      moveKey := moveKey | (Bits(eC) << 9);
      moveKey := moveKey | (Bits(cap) << 12);
      if ep {
        moveKey := moveKey | (1 << 16);
      }
      if start {
        moveKey := moveKey | (1 << 17);
      }
      moveKey := moveKey | (Bits(promoted) << 18);
      if castle {
        moveKey := moveKey | (1 << 22);
      }
    }
  
    method Push(ms: seq<Key>, r: int, c: int, x: int, y: int, promoted: int) returns (out: seq<Key>)
      requires board.Valid() && On(r, c) && On(x, y) && 0 < promoted < 16
      ensures Decoded(out) == Decoded(ms) + [MoveOf(board.Position(), r, c, x, y, promoted)]
      ensures WellPacked(ms) ==> WellPacked(out)
    {
      hide Board.Valid, Decode, MoveOf, Packable, Encode;
      var k := GetMove(r, c, x, y, promoted);
      DecodedSnoc(ms, k);
      out := ms + [k];
    }

    method WalkMoves(ms: seq<Key>, r: int, c: int, dr: int, dc: int) returns (out: seq<Key>)
      requires board.Valid() && On(r, c) && IsDir(dr, dc)
      ensures Decoded(out) == Decoded(ms) + RayMoves(board.Position(), r, c, r + dr, c + dc, dr, dc)
      ensures WellPacked(ms) ==> WellPacked(out)
    {
      hide KeysOk, KeyOf, Indexed, Material, Hashable, Decode, Decoded, WellPacked, MoveOf;
      out := ms;
      var indexR, indexC := r + dr, c + dc;
      while On(indexR, indexC)
        invariant WellPacked(ms) ==> WellPacked(out)
        invariant Decoded(out) + RayMoves(board.Position(), r, c, indexR, indexC, dr, dc)
               == Decoded(ms) + RayMoves(board.Position(), r, c, r + dr, c + dc, dr, dc)
        decreases Left(indexR, indexC, dr, dc)
      {
        var pce := board.GetPce(indexR, indexC);
        if pce == NOPIECE {
          RayAssoc(Decoded(out), board.Position(), r, c, indexR, indexC, dr, dc);
          out := Push(out, r, c, indexR, indexC, NOPIECE);
        } else {
          if PceCol(pce) != board.side {
            out := Push(out, r, c, indexR, indexC, NOPIECE);
          }
          return;
        }
        indexR, indexC := indexR + dr, indexC + dc;
      }
    }

    method WalkCaptures(ms: seq<Key>, r: int, c: int, dr: int, dc: int) returns (out: seq<Key>)
      requires board.Valid() && On(r, c) && IsDir(dr, dc)
      ensures Decoded(out) == Decoded(ms) + RayCaptures(board.Position(), r, c, r + dr, c + dc, dr, dc)
      ensures WellPacked(ms) ==> WellPacked(out)
    {
      hide KeysOk, KeyOf, Indexed, Material, Hashable, Decode, Decoded, WellPacked;
      out := ms;
      var indexR, indexC := r + dr, c + dc;
      while On(indexR, indexC)
        invariant WellPacked(ms) ==> WellPacked(out)
        invariant Decoded(out) + RayCaptures(board.Position(), r, c, indexR, indexC, dr, dc)
               == Decoded(ms) + RayCaptures(board.Position(), r, c, r + dr, c + dc, dr, dc)
        decreases Left(indexR, indexC, dr, dc)
      {
        var pce := board.GetPce(indexR, indexC);
        if pce != NOPIECE {
          if PceCol(pce) != board.side {
            out := Push(out, r, c, indexR, indexC, NOPIECE);
          }
          return;
        }
        indexR, indexC := indexR + dr, indexC + dc;
      }
    }

    method TryStep(ms: seq<Key>, r: int, c: int, dr: int, dc: int) returns (out: seq<Key>)
      requires board.Valid() && On(r, c)
      ensures Decoded(out) == Decoded(ms) + StepMove(board.Position(), r, c, dr, dc)
      ensures WellPacked(ms) ==> WellPacked(out)
    {
      hide KeysOk, KeyOf, Indexed, Material, Hashable, Decode, Decoded, WellPacked;
      out := ms;
      if On(r + dr, c + dc) {
        var pce := board.GetPce(r + dr, c + dc);
        if pce == NOPIECE || PceCol(pce) != board.side {
          out := Push(out, r, c, r + dr, c + dc, NOPIECE);
        }
      }
    }

    method TryTake(ms: seq<Key>, r: int, c: int, dr: int, dc: int) returns (out: seq<Key>)
      requires board.Valid() && On(r, c)
      ensures Decoded(out) == Decoded(ms) + StepCapture(board.Position(), r, c, dr, dc)
      ensures WellPacked(ms) ==> WellPacked(out)
    {
      hide KeysOk, KeyOf, Indexed, Material, Hashable, Decode, Decoded, WellPacked;
      out := ms;
      if On(r + dr, c + dc) {
        var pce := board.GetPce(r + dr, c + dc);
        if pce != NOPIECE && PceCol(pce) != board.side {
          out := Push(out, r, c, r + dr, c + dc, NOPIECE);
        }
      }
    }
  
    /** One direction of a piece: one step for knights and kings, a walk for sliders. */
    method MoveTowards(ghost base: seq<Move>, ms: seq<Key>, p: int, r: int, c: int, ghost ds: seq<Dir>, ghost n: nat, dr: int, dc: int)
      returns (out: seq<Key>)
      requires board.Valid() && On(r, c) && DirsOk(p, ds) && n < |ds| && ds[n] == (dr, dc)
      requires Decoded(ms) == base + Fan(board.Position(), p, r, c, ds, n)
      ensures Decoded(out) == base + Fan(board.Position(), p, r, c, ds, n + 1)
      ensures WellPacked(ms) ==> WellPacked(out)
    {
      hide KeysOk, KeyOf, Indexed, Material, Hashable, Decode, Decoded, Fan, CaptureFan, RayMoves, RayCaptures,
           StepMove, StepCapture, WellPacked;
      FanSnoc(base, board.Position(), p, r, c, ds, n);
      if Slides(p) {
        out := WalkMoves(ms, r, c, dr, dc);
      } else {
        out := TryStep(ms, r, c, dr, dc);
      }
    }

    lemma PositionFacts()
      requires board.Valid()
      ensures Shape(board.sq) && IsSide(board.side)
    {
      hide KeysOk, KeyOf, Indexed, Material;
    }

    method KnightMoves(ms: seq<Key>, p: int, r: int, c: int) returns (out: seq<Key>)
      requires board.Valid() && On(r, c) && IsKnight(p)
      ensures DirsOk(p, KNIGHT_DIRS)
      ensures Decoded(out) == Decoded(ms) + Fan(board.Position(), p, r, c, KNIGHT_DIRS, |KNIGHT_DIRS|)
      ensures WellPacked(ms) ==> WellPacked(out)
    {
      hide Board.Valid, Decode, Fan, Decoded, WellPacked;
      PositionFacts();
      NoDirections(board.Position(), p, r, c, KNIGHT_DIRS);
      ghost var base := Decoded(ms);
      out := ms;
      out := MoveTowards(base, out, p, r, c, KNIGHT_DIRS, 0, -1, 2);
      out := MoveTowards(base, out, p, r, c, KNIGHT_DIRS, 1, 2, -1);
      out := MoveTowards(base, out, p, r, c, KNIGHT_DIRS, 2, -2, 1);
      out := MoveTowards(base, out, p, r, c, KNIGHT_DIRS, 3, 1, -2);
      out := MoveTowards(base, out, p, r, c, KNIGHT_DIRS, 4, -1, -2);
      out := MoveTowards(base, out, p, r, c, KNIGHT_DIRS, 5, -2, -1);
      out := MoveTowards(base, out, p, r, c, KNIGHT_DIRS, 6, 2, 1);
      out := MoveTowards(base, out, p, r, c, KNIGHT_DIRS, 7, 1, 2);
    }

    method KingMoves(ms: seq<Key>, p: int, r: int, c: int) returns (out: seq<Key>)
      requires board.Valid() && On(r, c) && IsKing(p)
      ensures DirsOk(p, KING_DIRS)
      ensures Decoded(out) == Decoded(ms) + Fan(board.Position(), p, r, c, KING_DIRS, |KING_DIRS|)
      ensures WellPacked(ms) ==> WellPacked(out)
    {
      hide Board.Valid, Decode, Fan, Decoded, WellPacked;
      PositionFacts();
      NoDirections(board.Position(), p, r, c, KING_DIRS);
      ghost var base := Decoded(ms);
      out := ms;
      out := MoveTowards(base, out, p, r, c, KING_DIRS, 0, -1, -1);
      out := MoveTowards(base, out, p, r, c, KING_DIRS, 1, -1, 0);
      out := MoveTowards(base, out, p, r, c, KING_DIRS, 2, -1, 1);
      out := MoveTowards(base, out, p, r, c, KING_DIRS, 3, 0, 1);
      out := MoveTowards(base, out, p, r, c, KING_DIRS, 4, 1, 1);
      out := MoveTowards(base, out, p, r, c, KING_DIRS, 5, 1, 0);
      out := MoveTowards(base, out, p, r, c, KING_DIRS, 6, 1, -1);
      out := MoveTowards(base, out, p, r, c, KING_DIRS, 7, 0, -1);
    }

    method SliderMoves(ms: seq<Key>, p: int, r: int, c: int) returns (out: seq<Key>)
      requires board.Valid() && On(r, c) && Slides(p)
      ensures DirsOk(p, Dirs(p))
      ensures Decoded(out) == Decoded(ms) + Fan(board.Position(), p, r, c, Dirs(p), |Dirs(p)|)
      ensures WellPacked(ms) ==> WellPacked(out)
    {
      hide KeysOk, KeyOf, Indexed, Material, Hashable, Decode, Fan, Decoded, Dirs, WellPacked;
      DirsAreDirections(p);
      SliderDirs(p);
      NoDirections(board.Position(), p, r, c, Dirs(p));
      ghost var base, ds := Decoded(ms), Dirs(p);
      out := ms;
      if DoDiag(p) {
        out := MoveTowards(base, out, p, r, c, ds, 0, 1, 1);
        out := MoveTowards(base, out, p, r, c, ds, 1, -1, 1);
        out := MoveTowards(base, out, p, r, c, ds, 2, 1, -1);
        out := MoveTowards(base, out, p, r, c, ds, 3, -1, -1);
      }
      if DoVert(p) {
        ghost var n := if DoDiag(p) then 4 else 0;
        out := MoveTowards(base, out, p, r, c, ds, n, 0, 1);
        out := MoveTowards(base, out, p, r, c, ds, n + 1, 0, -1);
        out := MoveTowards(base, out, p, r, c, ds, n + 2, -1, 0);
        out := MoveTowards(base, out, p, r, c, ds, n + 3, 1, 0);
      }
    }

    /** One direction of a piece: one step for knights and kings, a walk for sliders. */
    method TakeTowards(ghost base: seq<Move>, ms: seq<Key>, p: int, r: int, c: int, ghost ds: seq<Dir>, ghost n: nat, dr: int, dc: int)
      returns (out: seq<Key>)
      requires board.Valid() && On(r, c) && DirsOk(p, ds) && n < |ds| && ds[n] == (dr, dc)
      requires Decoded(ms) == base + CaptureFan(board.Position(), p, r, c, ds, n)
      ensures Decoded(out) == base + CaptureFan(board.Position(), p, r, c, ds, n + 1)
      ensures WellPacked(ms) ==> WellPacked(out)
    {
      hide KeysOk, KeyOf, Indexed, Material, Hashable, Decode, Decoded, Fan, CaptureFan, RayMoves, RayCaptures,
           StepMove, StepCapture, WellPacked;
      FanSnoc(base, board.Position(), p, r, c, ds, n);
      if Slides(p) {
        out := WalkCaptures(ms, r, c, dr, dc);
      } else {
        out := TryTake(ms, r, c, dr, dc);
      }
    }

    method KnightTakes(ms: seq<Key>, p: int, r: int, c: int) returns (out: seq<Key>)
      requires board.Valid() && On(r, c) && IsKnight(p)
      ensures DirsOk(p, KNIGHT_DIRS)
      ensures Decoded(out) == Decoded(ms) + CaptureFan(board.Position(), p, r, c, KNIGHT_DIRS, |KNIGHT_DIRS|)
      ensures WellPacked(ms) ==> WellPacked(out)
    {
      hide Board.Valid, Decode, CaptureFan, Decoded, WellPacked;
      PositionFacts();
      NoDirections(board.Position(), p, r, c, KNIGHT_DIRS);
      ghost var base := Decoded(ms);
      out := ms;
      out := TakeTowards(base, out, p, r, c, KNIGHT_DIRS, 0, -1, 2);
      out := TakeTowards(base, out, p, r, c, KNIGHT_DIRS, 1, 2, -1);
      out := TakeTowards(base, out, p, r, c, KNIGHT_DIRS, 2, -2, 1);
      out := TakeTowards(base, out, p, r, c, KNIGHT_DIRS, 3, 1, -2);
      out := TakeTowards(base, out, p, r, c, KNIGHT_DIRS, 4, -1, -2);
      out := TakeTowards(base, out, p, r, c, KNIGHT_DIRS, 5, -2, -1);
      out := TakeTowards(base, out, p, r, c, KNIGHT_DIRS, 6, 2, 1);
      out := TakeTowards(base, out, p, r, c, KNIGHT_DIRS, 7, 1, 2);
    }

    method KingTakes(ms: seq<Key>, p: int, r: int, c: int) returns (out: seq<Key>)
      requires board.Valid() && On(r, c) && IsKing(p)
      ensures DirsOk(p, KING_DIRS)
      ensures Decoded(out) == Decoded(ms) + CaptureFan(board.Position(), p, r, c, KING_DIRS, |KING_DIRS|)
      ensures WellPacked(ms) ==> WellPacked(out)
    {
      hide Board.Valid, Decode, CaptureFan, Decoded, WellPacked;
      PositionFacts();
      NoDirections(board.Position(), p, r, c, KING_DIRS);
      ghost var base := Decoded(ms);
      out := ms;
      out := TakeTowards(base, out, p, r, c, KING_DIRS, 0, -1, -1);
      out := TakeTowards(base, out, p, r, c, KING_DIRS, 1, -1, 0);
      out := TakeTowards(base, out, p, r, c, KING_DIRS, 2, -1, 1);
      out := TakeTowards(base, out, p, r, c, KING_DIRS, 3, 0, 1);
      out := TakeTowards(base, out, p, r, c, KING_DIRS, 4, 1, 1);
      out := TakeTowards(base, out, p, r, c, KING_DIRS, 5, 1, 0);
      out := TakeTowards(base, out, p, r, c, KING_DIRS, 6, 1, -1);
      out := TakeTowards(base, out, p, r, c, KING_DIRS, 7, 0, -1);
    }

    method SliderTakes(ms: seq<Key>, p: int, r: int, c: int) returns (out: seq<Key>)
      requires board.Valid() && On(r, c) && Slides(p)
      ensures DirsOk(p, Dirs(p))
      ensures Decoded(out) == Decoded(ms) + CaptureFan(board.Position(), p, r, c, Dirs(p), |Dirs(p)|)
      ensures WellPacked(ms) ==> WellPacked(out)
    {
      hide KeysOk, KeyOf, Indexed, Material, Hashable, Decode, CaptureFan, Decoded, Dirs, WellPacked;
      DirsAreDirections(p);
      SliderDirs(p);
      NoDirections(board.Position(), p, r, c, Dirs(p));
      ghost var base, ds := Decoded(ms), Dirs(p);
      out := ms;
      if DoDiag(p) {
        out := TakeTowards(base, out, p, r, c, ds, 0, 1, 1);
        out := TakeTowards(base, out, p, r, c, ds, 1, -1, 1);
        out := TakeTowards(base, out, p, r, c, ds, 2, 1, -1);
        out := TakeTowards(base, out, p, r, c, ds, 3, -1, -1);
      }
      if DoVert(p) {
        ghost var n := if DoDiag(p) then 4 else 0;
        out := TakeTowards(base, out, p, r, c, ds, n, 0, 1);
        out := TakeTowards(base, out, p, r, c, ds, n + 1, 0, -1);
        out := TakeTowards(base, out, p, r, c, ds, n + 2, -1, 0);
        out := TakeTowards(base, out, p, r, c, ds, n + 3, 1, 0);
      }
    }
  
    method CastleMoves(ms: seq<Key>, r: int, c: int) returns (out: seq<Key>)
      requires board.Valid() && WellFormed(board.Position()) && On(r, c) && At(board.sq, r, c) == KingOf(board.side)
      ensures Decoded(out) == Decoded(ms) + Castles(board.Position(), r, c)
      ensures WellPacked(ms) ==> WellPacked(out)
    {
      hide KeysOk, KeyOf, Indexed, Material, Decode, Decoded, WellFormed, CastleTo, WellPacked;
      var side := PceCol(board.GetPce(r, c));
      out := KingCastle(ms, r, c, side, Has(board.castlePerm, if board.side == WHITE then WKCA else BKCA));
      out := QueenCastle(out, r, c, side, Has(board.castlePerm, if board.side == WHITE then WQCA else BQCA));
    }

    method KingCastle(ms: seq<Key>, r: int, c: int, side: int, right: bool) returns (out: seq<Key>)
      requires board.Valid() && WellFormed(board.Position()) && On(r, c) && At(board.sq, r, c) == KingOf(board.side)
      requires side == board.side && right == Has(board.castlePerm, if board.side == WHITE then WKCA else BKCA)
      ensures Decoded(out) == Decoded(ms) + CastleTo(board.Position(), r, c, c + 2)
      ensures WellPacked(ms) ==> WellPacked(out)
    {
      hide KeysOk, KeyOf, Indexed, Material, Decode, Decoded, Attacked, InCheck, Room, WellPacked;
      CastlingAtHome(board.Position(), r, c);
      assert Decoded(ms) + [] == Decoded(ms);
      out := ms;
      if right && board.GetPce(r, c + 1) == NOPIECE && board.GetPce(r, c + 2) == NOPIECE {
        var here := SquareAttacked(r, c, side);
        var next := SquareAttacked(r, c + 1, side);
        if !here && !next {
          out := Push(out, r, c, r, c + 2, NOPIECE);
        }
      }
    }

    method QueenCastle(ms: seq<Key>, r: int, c: int, side: int, right: bool) returns (out: seq<Key>)
      requires board.Valid() && WellFormed(board.Position()) && On(r, c) && At(board.sq, r, c) == KingOf(board.side)
      requires side == board.side && right == Has(board.castlePerm, if board.side == WHITE then WQCA else BQCA)
      ensures Decoded(out) == Decoded(ms) + CastleTo(board.Position(), r, c, c - 2)
      ensures WellPacked(ms) ==> WellPacked(out)
    {
      hide KeysOk, KeyOf, Indexed, Material, Decode, Decoded, Attacked, InCheck, Room, WellPacked;
      CastlingAtHome(board.Position(), r, c);
      assert Decoded(ms) + [] == Decoded(ms);
      out := ms;
      if right && board.GetPce(r, c - 1) == NOPIECE && board.GetPce(r, c - 2) == NOPIECE && board.GetPce(r, c - 3) == NOPIECE {
        var here := SquareAttacked(r, c, side);
        var next := SquareAttacked(r, c - 1, side);
        if !here && !next {
          out := Push(out, r, c, r, c - 2, NOPIECE);
        }
      }
    }

    /** A pawn step: four promotions from the last row but one, a plain move otherwise. */
    method PushPawnMove(ms: seq<Key>, r: int, c: int, x: int, y: int) returns (out: seq<Key>)
      requires board.Valid() && On(r, c) && On(x, y)
      ensures Decoded(out) == Decoded(ms) + PawnTo(board.Position(), r, c, x, y)
      ensures WellPacked(ms) ==> WellPacked(out)
    {
      hide KeysOk, KeyOf, Indexed, Material, Decode, Decoded, MoveOf, WellPacked, PawnTo;
      PawnToAssoc(Decoded(ms), board.Position(), r, c, x, y);
      if board.side == WHITE {
        if r == 1 {
          out := Push(ms, r, c, x, y, WN);
          out := Push(out, r, c, x, y, WB);
          out := Push(out, r, c, x, y, WR);
          out := Push(out, r, c, x, y, WQ);
        } else {
          out := Push(ms, r, c, x, y, NOPIECE);
        }
      } else {
        if r == 6 {
          out := Push(ms, r, c, x, y, BN);
          out := Push(out, r, c, x, y, BB);
          out := Push(out, r, c, x, y, BR);
          out := Push(out, r, c, x, y, BQ);
        } else {
          out := Push(ms, r, c, x, y, NOPIECE);
        }
      }
    }

    method PushPawnSteps(ms: seq<Key>, r: int, c: int) returns (out: seq<Key>)
      requires board.Valid() && On(r, c) && 1 <= r <= 6
      ensures Decoded(out) == Decoded(ms) + PawnPushes(board.Position(), r, c)
      ensures WellPacked(ms) ==> WellPacked(out)
    {
      hide KeysOk, KeyOf, Indexed, Material, Decode, Decoded, PawnTo, MoveOf, WellPacked;
      assert Decoded(ms) + [] == Decoded(ms);
      out := ms;
      var f := Forward(board.side);
      if board.GetPce(r + f, c) == NOPIECE {
        out := PushPawnMove(out, r, c, r + f, c);
        ghost var one := PawnTo(board.Position(), r, c, r + f, c);
        assert (Decoded(ms) + one) + [] == Decoded(ms) + one;
        if r == PawnRow(board.side) && board.GetPce(r + 2 * f, c) == NOPIECE {
          out := Push(out, r, c, r + 2 * f, c, NOPIECE);
        }
      }
    }

    method TakeWithPawn(ms: seq<Key>, r: int, c: int, dc: int) returns (out: seq<Key>)
      requires board.Valid() && On(r, c) && 1 <= r <= 6 && (dc == -1 || dc == 1)
      ensures Decoded(out) == Decoded(ms) + PawnTakes(board.Position(), r, c, dc)
      ensures WellPacked(ms) ==> WellPacked(out)
    {
      hide KeysOk, KeyOf, Indexed, Material, Decode, Decoded, PawnTo, WellPacked;
      assert Decoded(ms) + [] == Decoded(ms);
      out := ms;
      var f := Forward(board.side);
      if c != (if dc < 0 then 0 else 7) {
        var pce := board.GetPce(r + f, c + dc);
        if pce != NOPIECE && PceCol(pce) != board.side {
          out := PushPawnMove(out, r, c, r + f, c + dc);
        }
      }
    }

    method TakeEnPassant(ms: seq<Key>, r: int, c: int, dc: int) returns (out: seq<Key>)
      requires board.Valid() && On(r, c) && 1 <= r <= 6 && (dc == -1 || dc == 1)
      ensures Decoded(out) == Decoded(ms) + PawnEp(board.Position(), r, c, dc)
      ensures WellPacked(ms) ==> WellPacked(out)
    {
      hide KeysOk, KeyOf, Indexed, Material, Decode, Decoded, MoveOf, WellPacked;
      assert Decoded(ms) + [] == Decoded(ms);
      out := ms;
      var f := Forward(board.side);
      if c != (if dc < 0 then 0 else 7) && r == EpFromRow(board.side)
         && board.enpasSquareC == c + dc && board.enpasSquareR == r + f {
        out := Push(out, r, c, r + f, c + dc, NOPIECE);
      }
    }

    method PushPawnCaptures(ms: seq<Key>, r: int, c: int) returns (out: seq<Key>)
      requires board.Valid() && On(r, c) && 1 <= r <= 6
      ensures Decoded(out) == Decoded(ms) + PawnCaptures(board.Position(), r, c)
      ensures WellPacked(ms) ==> WellPacked(out)
    {
      hide KeysOk, KeyOf, Indexed, Material, Decode, Decoded, PawnTakes, PawnEp, WellPacked;
      out := TakeWithPawn(ms, r, c, -1);
      out := TakeWithPawn(out, r, c, 1);
      out := TakeEnPassant(out, r, c, -1);
      out := TakeEnPassant(out, r, c, 1);
    }

    /** The switch of generateMoves: all moves of the piece i on (r, c). */
    method GenerateFrom(ms: seq<Key>, i: int, r: int, c: int) returns (out: seq<Key>)
      requires board.Valid() && WellFormed(board.Position()) && On(r, c)
      requires At(board.sq, r, c) == i && Owned(i, board.side)
      ensures Decoded(out) == Decoded(ms) + PieceMoves(board.Position(), i, r, c)
      ensures WellPacked(ms) ==> WellPacked(out)
    {
      PawnBetween(board.Position(), r, c);
      hide KeysOk, KeyOf, Indexed, Material, Decode, Decoded, Fan, Castles, PawnPushes, PawnCaptures, WellFormed,
           PieceMoves, Dirs, WellPacked, KnightJump, Boards.Board.GridStored, Boards.Board.ListsStored;
      PieceMovesParts(Decoded(ms), board.Position(), i, r, c);
      if i == WP || i == BP {
        out := PushPawnSteps(ms, r, c);
        out := PushPawnCaptures(out, r, c);
      } else {
        out := GenerateFromOfficer(ms, i, r, c);
      }
    }

    method GenerateFromOfficer(ms: seq<Key>, i: int, r: int, c: int) returns (out: seq<Key>)
      requires board.Valid() && WellFormed(board.Position()) && On(r, c)
      requires At(board.sq, r, c) == i && Owned(i, board.side) && !IsPawn(i)
      ensures Decoded(out) == Decoded(ms) + PieceMoves(board.Position(), i, r, c)
      ensures WellPacked(ms) ==> WellPacked(out)
    {
      hide KeysOk, KeyOf, Indexed, Material, Decode, Decoded, Fan, Castles, WellFormed, PieceMoves, Dirs, WellPacked,
           Boards.Board.GridStored, Boards.Board.ListsStored;
      PieceMovesParts(Decoded(ms), board.Position(), i, r, c);
      if i == WN || i == BN {
        out := KnightMoves(ms, i, r, c);
      } else if IsKing(i) {
        out := KingMoves(ms, i, r, c);
        out := CastleMoves(out, r, c);
      } else {
        out := SliderMoves(ms, i, r, c);
      }
    }

    /** The switch of generateCaptures. */
    method GenerateCapturesFrom(ms: seq<Key>, i: int, r: int, c: int) returns (out: seq<Key>)
      requires board.Valid() && WellFormed(board.Position()) && On(r, c)
      requires At(board.sq, r, c) == i && Owned(i, board.side)
      ensures Decoded(out) == Decoded(ms) + PieceCaptures(board.Position(), i, r, c)
      ensures WellPacked(ms) ==> WellPacked(out)
    {
      PawnBetween(board.Position(), r, c);
      hide KeysOk, KeyOf, Indexed, Material, Decode, Decoded, CaptureFan, PawnCaptures, WellFormed, WellPacked;
      if i == WP || i == BP {
        out := PushPawnCaptures(ms, r, c);
      } else if i == WN || i == BN {
        out := KnightTakes(ms, i, r, c);
      } else if IsKing(i) {
        out := KingTakes(ms, i, r, c);
      } else {
        out := SliderTakes(ms, i, r, c);
      }
    }
  
    /** The inner loop: all pieces of type i. */
    method PushList(ms: seq<Key>, i: int) returns (out: seq<Key>)
      requires board.Valid() && WellFormed(board.Position()) && Owned(i, board.side) && AllPlaces(board.lists)
      ensures Decoded(out) == Decoded(ms) + ListMoves(board.Position(), i, board.lists[i], |board.lists[i]|)
      ensures WellPacked(ms) ==> WellPacked(out)
    {
      hide KeysOk, KeyOf, Material, Decode, Decoded, PieceMoves, WellFormed, Indexed, WellPacked;
      ghost var pos, list := board.Position(), board.lists[i];
      out := ms;
      assert Decoded(ms) + [] == Decoded(ms);
      var j := 0;
      while j < board.pceNum[i]
        invariant 0 <= j <= |list|
        invariant WellPacked(ms) ==> WellPacked(out)
        invariant Decoded(out) == Decoded(ms) + ListMoves(pos, i, list, j)
      {
        var r, c := board.pListR[10 * i + j], board.pListC[10 * i + j];
        Listed(board.sq, board.lists, i, j);
        ListMovesSnoc(Decoded(ms), pos, i, list, j);
        out := GenerateFrom(out, i, r, c);
        j := j + 1;
      }
    }

    /** The inner loop: all pieces of type i. */
    method PushListCaptures(ms: seq<Key>, i: int) returns (out: seq<Key>)
      requires board.Valid() && WellFormed(board.Position()) && Owned(i, board.side) && AllPlaces(board.lists)
      ensures Decoded(out) == Decoded(ms) + ListCaptures(board.Position(), i, board.lists[i], |board.lists[i]|)
      ensures WellPacked(ms) ==> WellPacked(out)
    {
      hide KeysOk, KeyOf, Material, Decode, Decoded, PieceCaptures, WellFormed, Indexed, WellPacked;
      ghost var pos, list := board.Position(), board.lists[i];
      out := ms;
      assert Decoded(ms) + [] == Decoded(ms);
      var j := 0;
      while j < board.pceNum[i]
        invariant 0 <= j <= |list|
        invariant WellPacked(ms) ==> WellPacked(out)
        invariant Decoded(out) == Decoded(ms) + ListCaptures(pos, i, list, j)
      {
        var r, c := board.pListR[10 * i + j], board.pListC[10 * i + j];
        Listed(board.sq, board.lists, i, j);
        ListCapturesSnoc(Decoded(ms), pos, i, list, j);
        out := GenerateCapturesFrom(out, i, r, c);
        j := j + 1;
      }
    }

    method GenerateMoves() returns (moveList: seq<Key>)
      requires board.Valid() && WellFormed(board.Position())
      ensures AllPlaces(board.lists) && Decoded(moveList) == AllMoves(board.Position(), board.lists)
      ensures forall m :: m in Decoded(moveList) <==> PseudoLegal(board.Position(), m)
      ensures NoDup(Decoded(moveList)) && WellPacked(moveList)
    {
      hide KeysOk, KeyOf, Material, Decode, Decoded, WellFormed, Indexed, WellPacked, PseudoLegal, NoDup, ListMoves, ListCaptures,
           Boards.Board.GridStored, Boards.Board.ListsStored, IsCapture;
      IndexedPlaces(board.sq, board.lists);
      ghost var pos, lists := board.Position(), board.lists;
      var lBound, uBound := LowPiece(board.side), HighPiece(board.side);
      moveList := [];
      NothingDecoded();
      var i := lBound;
      while i <= uBound
        invariant lBound <= i <= uBound + 1
        invariant WellPacked(moveList)
        invariant Decoded(moveList) == TypeMoves(pos, lists, lBound, i - 1)
      {
        moveList := PushList(moveList, i);
        i := i + 1;
      }
      GeneratedExactly(board.Position(), board.lists);
    }

    method GenerateCaptures() returns (moveList: seq<Key>)
      requires board.Valid() && WellFormed(board.Position())
      ensures AllPlaces(board.lists) && Decoded(moveList) == AllCaptures(board.Position(), board.lists)
      ensures forall m :: m in Decoded(moveList) <==> PseudoLegal(board.Position(), m) && IsCapture(m)
      ensures NoDup(Decoded(moveList)) && WellPacked(moveList)
    {
      hide KeysOk, KeyOf, Material, Decode, Decoded, WellFormed, Indexed, WellPacked, PseudoLegal, NoDup, ListMoves, ListCaptures,
           Boards.Board.GridStored, Boards.Board.ListsStored, IsCapture;
      IndexedPlaces(board.sq, board.lists);
      ghost var pos, lists := board.Position(), board.lists;
      var lBound, uBound := LowPiece(board.side), HighPiece(board.side);
      moveList := [];
      NothingDecoded();
      var i := lBound;
      while i <= uBound
        invariant lBound <= i <= uBound + 1
        invariant WellPacked(moveList)
        invariant Decoded(moveList) == TypeCaptures(pos, lists, lBound, i - 1)
      {
        moveList := PushListCaptures(moveList, i);
        i := i + 1;
      }
      GeneratedExactly(board.Position(), board.lists);
      CapturesMembers(AllMoves(board.Position(), board.lists));
    }

    // ----- Walking the game tree -----

    /** Tries a move and takes it back. */
    method IsLegal(k: Key) returns (ok: bool)
      requires Valid() && WellFormed(board.Position()) && PseudoLegal(board.Position(), Decode(k))
      requires board.hisPly < MAXGAMELENGTH
      modifies board.Repr
      ensures board.keys == old(board.keys)
      ensures Valid() && board.State() == old(board.State()) && board.hisPly == old(board.hisPly)
      ensures ok <==> old(Legal(board.Position(), Decode(k)))
    {
      hide Decode, WellFormed, PseudoLegal, Play, Boards.Board.GridStored, Boards.Board.ListsStored, Indexed, KeysOk,
           Material, KeyOf;
      ghost var g := board.State();
      ok := MakeMove(k);
      if ok {
        TakeBack(g, k);
      }
    }

    /** -1: not over; 2: stalemate; otherwise the side that has given mate. */
    method GameWinner() returns (winner: int)
      requires Valid() && WellFormed(board.Position()) && board.hisPly < MAXGAMELENGTH
      modifies board.Repr
      ensures board.keys == old(board.keys)
      ensures Valid() && board.State() == old(board.State())
      ensures winner == if old(LegalMoves(board.Position())) != {} then -1
                        else if old(InCheck(board.sq, board.side)) then old(Other(board.side)) else 2
    {
      hide Decode, Decoded, WellFormed, Legal, PseudoLegal, InCheck, Boards.Board.GridStored, Boards.Board.ListsStored,
           Indexed, KeysOk, Material, KeyOf, AllMoves, AllPlaces, WellPacked, NoDup;
      var numMoves := 0;
      var moves := GenerateMoves();
      ghost var g := board.State();
      ghost var pos, ms := g.pos, Decoded(moves);
      var i := 0;
      while i < |moves|
        invariant 0 <= i <= |moves| && Valid() && board.keys == old(board.keys) && board.State() == g && board.hisPly == old(board.hisPly)
        invariant numMoves >= 0
        invariant numMoves == 0 <==> forall j :: 0 <= j < i ==> !Legal(pos, ms[j])
      {
        assert ms[i] in ms;
        var ok := IsLegal(moves[i]);
        if ok {
          numMoves := numMoves + 1;
        }
        i := i + 1;
      }
      NoneLegal(pos, ms);
      if numMoves == 0 {
        var inCheck := SideInCheck();
        if !inCheck {
          return 2;
        }
        return Other(board.side);
      }
      return -1;
    }

    /** Is the king of the side to move attacked? */
    method SideInCheck() returns (inCheck: bool)
      requires board.Valid() && WellFormed(board.Position())
      ensures inCheck <==> InCheck(board.sq, board.side)
    {
      KingPresent(board.Position());
      hide WellFormed, Attacked, InCheck, OneKingEach, KeysOk, KeyOf, Material;
      var kingR, kingC := board.GetKingR(board.side), board.GetKingC(board.side);
      inCheck := SquareAttacked(kingR, kingC, board.side);
      InCheckThere(board.sq, kingR, kingC, board.side);
    }

    /** Counts the legal lines of the given depth and leaves the game as it was. */
    method Perft(depth: nat)
      requires Valid() && WellFormed(board.Position()) && board.hisPly + depth <= MAXGAMELENGTH
      modifies this`leafNodes, board.Repr
      ensures board.keys == old(board.keys)
      ensures Valid() && board.State() == old(board.State()) && board.hisPly == old(board.hisPly)
      ensures leafNodes == old(leafNodes) + |old(Lines(board.Position(), depth))|
      decreases depth, 1
    {
      hide Decode, Decoded, WellFormed, Legal, PseudoLegal, LinesFrom, LegalAmong, Boards.Board.GridStored,
           Boards.Board.ListsStored, Indexed, KeysOk, Material, KeyOf, LinesAfter, AllMoves, AllPlaces, WellPacked,
           NoDup;
      if depth == 0 {
        leafNodes := leafNodes + 1;
      } else {
        var moves := GenerateMoves();
        ghost var g := board.State();
        ghost var pos, ms := g.pos, Decoded(moves);
        NoLines(pos, ms, depth);
        var i := 0;
        while i < |moves|
          invariant 0 <= i <= |moves| && Valid() && board.keys == old(board.keys) && board.State() == g && board.hisPly == old(board.hisPly)
          invariant leafNodes == old(leafNodes) + |LinesFrom(pos, LegalAmong(pos, ms, i), depth)|
        {
          assert ms[i] in ms;
          PerftMove(moves[i], depth);
          LegalAmongStep(pos, ms, i);
          CountStep(pos, ms, i, depth);
          i := i + 1;
        }
        LegalAmongAll(pos, ms);
      }
    }

    method PerftMove(k: Key, depth: nat)
      requires Valid() && WellFormed(board.Position()) && board.hisPly + depth <= MAXGAMELENGTH
      requires depth > 0 && PseudoLegal(board.Position(), Decode(k))
      modifies this`leafNodes, board.Repr
      ensures board.keys == old(board.keys)
      ensures Valid() && board.State() == old(board.State()) && board.hisPly == old(board.hisPly)
      ensures leafNodes == old(leafNodes) + if old(Legal(board.Position(), Decode(k)))
                                            then |old(LinesAfter(board.Position(), Decode(k), depth - 1))| else 0
      decreases depth, 0
    {
      hide Decode, WellFormed, PseudoLegal, Play, Lines, Boards.Board.GridStored, Boards.Board.ListsStored, Indexed,
           KeysOk, Material, KeyOf;
      ghost var g := board.State();
      WellFormedHashable(g.pos);
      var ok := MakeMove(k);
      if ok {
        PlayFacts(board.keys, g, k);
        Perft(depth - 1);
        TakeBack(g, k);
      }
    }
  }

  lemma CountStep(pos: Pos, ms: seq<Move>, n: nat, d: nat)
    requires WellFormed(pos) && n < |ms| && NoDup(ms) && d > 0
    ensures |LinesFrom(pos, LegalAmong(pos, ms, n + 1), d)|
         == |LinesFrom(pos, LegalAmong(pos, ms, n), d)| + if Legal(pos, ms[n]) then |LinesAfter(pos, ms[n], d - 1)| else 0
  {
    hide WellFormed, Legal, LinesFrom, LegalAmong;
    LegalAmongStep(pos, ms, n);
    if Legal(pos, ms[n]) {
      LinesFromAdd(pos, LegalAmong(pos, ms, n), ms[n], d);
    } else {
      assert LegalAmong(pos, ms, n) + {} == LegalAmong(pos, ms, n);
    }
  }
}
