/** Walking a ray square by square agrees with the geometric notion of a clear line. */
module Rays {
  import opened Pieces
  import opened Squares
  import opened Rules

  /** Squares left on a walk, the current one included. */
  function Left(r: int, c: int, dr: int, dc: int): nat {
    if !On(r, c) then 0
    else if dr > 0 then 8 - r
    else if dr < 0 then r + 1
    else if dc > 0 then 8 - c
    else c + 1
  }

  /** The walk that starts on (ir, ic) and stops at the first piece passes (x, y). */
  ghost predicate Reaches(sq: Grid, ir: int, ic: int, dr: int, dc: int, x: int, y: int)
    requires Shape(sq) && IsDir(dr, dc)
    decreases Left(ir, ic, dr, dc)
  {
    On(ir, ic) && ((ir == x && ic == y) || (At(sq, ir, ic) == NOPIECE && Reaches(sq, ir + dr, ic + dc, dr, dc, x, y)))
  }

  ghost predicate ClearRay(sq: Grid, r: int, c: int, dr: int, dc: int, n: int)
    requires Shape(sq)
  {
    forall u, v :: On(u, v) && OnRay(r, c, dr, dc, u, v) && Dist(r, c, u, v) < n ==> At(sq, u, v) == NOPIECE
  }

  lemma RayStep(r: int, c: int, dr: int, dc: int, x: int, y: int)
    requires IsDir(dr, dc)
    ensures OnRay(r, c, dr, dc, x, y) <==> (x == r + dr && y == c + dc) || OnRay(r + dr, c + dc, dr, dc, x, y)
    ensures OnRay(r + dr, c + dc, dr, dc, x, y) ==> Dist(r, c, x, y) == Dist(r + dr, c + dc, x, y) + 1
    ensures OnRay(r, c, dr, dc, x, y) && On(r, c) && On(x, y) ==> On(r + dr, c + dc)
  {
  }

  lemma ClearStep(sq: Grid, r: int, c: int, dr: int, dc: int, n: int)
    requires Shape(sq) && IsDir(dr, dc) && n >= 1 && On(r + dr, c + dc)
    ensures ClearRay(sq, r, c, dr, dc, n + 1)
       <==> At(sq, r + dr, c + dc) == NOPIECE && ClearRay(sq, r + dr, c + dc, dr, dc, n)
  {
    forall u, v | On(u, v)
      ensures OnRay(r, c, dr, dc, u, v) <==> (u == r + dr && v == c + dc) || OnRay(r + dr, c + dc, dr, dc, u, v)
      ensures OnRay(r + dr, c + dc, dr, dc, u, v) ==> Dist(r, c, u, v) == Dist(r + dr, c + dc, u, v) + 1
    {
      RayStep(r, c, dr, dc, u, v);
    }
    RayStep(r, c, dr, dc, r + dr, c + dc);
    assert Dist(r, c, r + dr, c + dc) == 1;
    hide OnRay, Dist;
    if At(sq, r + dr, c + dc) == NOPIECE && ClearRay(sq, r + dr, c + dc, dr, dc, n) {
      assert ClearRay(sq, r, c, dr, dc, n + 1);
    }
    if ClearRay(sq, r, c, dr, dc, n + 1) {
      assert ClearRay(sq, r + dr, c + dc, dr, dc, n);
    }
  }

  lemma NextSquare(sq: Grid, r: int, c: int, dr: int, dc: int)
    requires Shape(sq) && IsDir(dr, dc)
    ensures ClearRay(sq, r, c, dr, dc, Dist(r, c, r + dr, c + dc))
  {
  }

  lemma FarEnough(r: int, c: int, dr: int, dc: int, x: int, y: int)
    requires OnRay(r, c, dr, dc, x, y)
    ensures Dist(r, c, x, y) >= 1
  {
  }

  lemma DirectionKind(r: int, c: int, x: int, y: int)
    ensures Diagonal(r, c, x, y) ==> Sgn(x - r) != 0 && Sgn(y - c) != 0
    ensures Straight(r, c, x, y) ==> (Sgn(x - r) == 0) != (Sgn(y - c) == 0)
  {
  }

  /** A walk from the next square reaches exactly the squares joined by a clear line. */
  lemma {:induction false} ReachesIsClearLine(sq: Grid, r: int, c: int, dr: int, dc: int, x: int, y: int)
    requires Shape(sq) && IsDir(dr, dc) && On(r, c) && On(x, y)
    ensures Reaches(sq, r + dr, c + dc, dr, dc, x, y)
       <==> OnRay(r, c, dr, dc, x, y) && ClearRay(sq, r, c, dr, dc, Dist(r, c, x, y))
    decreases Left(r + dr, c + dc, dr, dc)
  {
    hide OnRay, Dist, ClearRay;
    RayStep(r, c, dr, dc, x, y);
    var n, m := r + dr, c + dc;
    if On(n, m) {
      if x == n && y == m {
        NextSquare(sq, r, c, dr, dc);
      } else {
        ReachesIsClearLine(sq, n, m, dr, dc, x, y);
        if OnRay(n, m, dr, dc, x, y) {
          FarEnough(n, m, dr, dc, x, y);
          ClearStep(sq, r, c, dr, dc, Dist(n, m, x, y));
        }
      }
    }
  }

  lemma RayDirection(r: int, c: int, dr: int, dc: int, x: int, y: int)
    requires IsDir(dr, dc)
    ensures OnRay(r, c, dr, dc, x, y) ==> Sgn(x - r) == dr && Sgn(y - c) == dc
    ensures OnRay(r, c, dr, dc, x, y) ==> (Diagonal(r, c, x, y) <==> dr != 0 && dc != 0)
    ensures OnRay(r, c, dr, dc, x, y) ==> (Straight(r, c, x, y) <==> dr == 0 || dc == 0)
    ensures Sgn(x - r) == dr && Sgn(y - c) == dc && (Diagonal(r, c, x, y) || Straight(r, c, x, y)) ==>
              OnRay(r, c, dr, dc, x, y)
  {
  }

  /** The square is reached by one particular walk: the one in its own direction. */
  lemma LineWalk(sq: Grid, r: int, c: int, dr: int, dc: int, x: int, y: int)
    requires Shape(sq) && IsDir(dr, dc) && On(r, c) && On(x, y)
    ensures Reaches(sq, r + dr, c + dc, dr, dc, x, y)
       <==> Sgn(x - r) == dr && Sgn(y - c) == dc && (Diagonal(r, c, x, y) || Straight(r, c, x, y)) && Clear(sq, r, c, x, y)
  {
    ReachesIsClearLine(sq, r, c, dr, dc, x, y);
    RayDirection(r, c, dr, dc, x, y);
    hide OnRay, Dist, Diagonal, Straight, Reaches;
  }

  /** Empty squares on a walk before the first piece or the edge. */
  function RayLength(sq: Grid, ir: int, ic: int, dr: int, dc: int): (n: nat)
    requires Shape(sq) && IsDir(dr, dc)
    ensures n <= 8
    ensures n <= Left(ir, ic, dr, dc)
    decreases Left(ir, ic, dr, dc)
  {
    if !On(ir, ic) || At(sq, ir, ic) != NOPIECE then 0 else 1 + RayLength(sq, ir + dr, ic + dc, dr, dc)
  }

  function ExposedVert(sq: Grid, r: int, c: int): nat
    requires Shape(sq)
  {
    RayLength(sq, r - 1, c, -1, 0) + RayLength(sq, r + 1, c, 1, 0)
  }

  /** Reach of a queen on the square, rows excepted: a measure of king safety. */
  function Exposed(sq: Grid, r: int, c: int): nat
    requires Shape(sq)
  {
    RayLength(sq, r + 1, c + 1, 1, 1) + RayLength(sq, r - 1, c + 1, -1, 1)
    + RayLength(sq, r + 1, c - 1, 1, -1) + RayLength(sq, r - 1, c - 1, -1, -1)
    + ExposedVert(sq, r, c)
  }

  /** The first n squares from (r, c) in a direction are on the board and empty, and the next is not. */
  ghost predicate FreeFor(sq: Grid, r: int, c: int, dr: int, dc: int, n: nat)
    requires Shape(sq)
  {
    && (forall k :: 0 < k <= n ==> Empty(sq, r + Along(dr, k), c + Along(dc, k)))
    && !Empty(sq, r + Along(dr, n + 1), c + Along(dc, n + 1))
  }

  lemma AlongStep(d: int, k: int)
    requires -1 <= d <= 1 && k > 0
    ensures Along(d, k) == d + Along(d, k - 1) && Along(d, 0) == 0 && Along(d, 1) == d
  {
  }

  lemma FreeStep(sq: Grid, r: int, c: int, dr: int, dc: int, n: nat)
    requires Shape(sq) && IsDir(dr, dc) && Empty(sq, r + dr, c + dc) && FreeFor(sq, r + dr, c + dc, dr, dc, n)
    ensures FreeFor(sq, r, c, dr, dc, n + 1)
  {
    hide Empty, Along;
    AlongStep(dr, n + 2);
    AlongStep(dc, n + 2);
    forall k | 0 < k <= n + 1
      ensures Empty(sq, r + Along(dr, k), c + Along(dc, k))
    {
      AlongStep(dr, k);
      AlongStep(dc, k);
      assert k > 1 ==> Empty(sq, r + dr + Along(dr, k - 1), c + dc + Along(dc, k - 1));
    }
  }

  lemma {:induction false} RayLengthMeans(sq: Grid, r: int, c: int, dr: int, dc: int)
    requires Shape(sq) && IsDir(dr, dc)
    ensures FreeFor(sq, r, c, dr, dc, RayLength(sq, r + dr, c + dc, dr, dc))
    decreases Left(r + dr, c + dc, dr, dc)
  {
    if Empty(sq, r + dr, c + dc) {
      RayLengthMeans(sq, r + dr, c + dc, dr, dc);
      FreeStep(sq, r, c, dr, dc, RayLength(sq, r + dr + dr, c + dc + dc, dr, dc));
    } else {
      NotFree(sq, r, c, dr, dc);
    }
  }

  lemma NotFree(sq: Grid, r: int, c: int, dr: int, dc: int)
    requires Shape(sq) && IsDir(dr, dc) && !Empty(sq, r + dr, c + dc)
    ensures FreeFor(sq, r, c, dr, dc, 0)
  {
    hide Empty;
  }

  /** The squares a rook would cover up and down its column, and those with the four diagonals. */
  lemma LinesSeen(sq: Grid, r: int, c: int)
    requires Shape(sq)
    ensures exists up: nat, down: nat ::
              FreeFor(sq, r, c, -1, 0, up) && FreeFor(sq, r, c, 1, 0, down) && ExposedVert(sq, r, c) == up + down
    ensures exists a: nat, b: nat, d: nat, e: nat ::
              && FreeFor(sq, r, c, -1, -1, a) && FreeFor(sq, r, c, -1, 1, b) && FreeFor(sq, r, c, 1, -1, d)
              && FreeFor(sq, r, c, 1, 1, e) && Exposed(sq, r, c) == a + b + d + e + ExposedVert(sq, r, c)
  {
    hide FreeFor, RayLength;
    RayLengthMeans(sq, r, c, -1, 0);
    RayLengthMeans(sq, r, c, 1, 0);
    RayLengthMeans(sq, r, c, -1, -1);
    RayLengthMeans(sq, r, c, -1, 1);
    RayLengthMeans(sq, r, c, 1, -1);
    RayLengthMeans(sq, r, c, 1, 1);
  }

  // ----- Seen from the other side -----

  function Swapped(p: int): int { if IsPiece(p) then (if p <= WK then p + 6 else p - 6) else p }

  function MirrorRow(row: seq<int>): (row': seq<int>)
    ensures |row'| == |row| && forall c :: 0 <= c < |row| ==> row'[c] == Swapped(row[c])
  {
    seq(|row|, c requires 0 <= c < |row| => Swapped(row[c]))
  }

  /** Rows reversed and colours exchanged. */
  function Mirror(sq: Grid): (g: Grid)
    requires Shape(sq)
    ensures Shape(g)
    ensures forall r, c :: On(r, c) ==> At(g, r, c) == Swapped(At(sq, 7 - r, c))
  {
    var g := [MirrorRow(sq[7]), MirrorRow(sq[6]), MirrorRow(sq[5]), MirrorRow(sq[4]),
              MirrorRow(sq[3]), MirrorRow(sq[2]), MirrorRow(sq[1]), MirrorRow(sq[0])];
    assert forall r :: 0 <= r < 8 ==> g[r] == MirrorRow(sq[7 - r]);
    assert forall r, c :: On(r, c) ==> g[r][c] == Swapped(At(sq, 7 - r, c));
    g
  }

  lemma {:induction false} RayLengthMirror(sq: Grid, ir: int, ic: int, dr: int, dc: int)
    requires Shape(sq) && IsDir(dr, dc)
    ensures RayLength(Mirror(sq), ir, ic, dr, dc) == RayLength(sq, 7 - ir, ic, -dr, dc)
    decreases Left(ir, ic, dr, dc)
  {
    hide Mirror, RayLength, Left, Swapped, Shape, IsDir;
    LengthStep(Mirror(sq), ir, ic, dr, dc);
    LengthStep(sq, 7 - ir, ic, -dr, dc);
    EmptyMirror(sq, ir, ic);
    if On(ir, ic) && At(Mirror(sq), ir, ic) == NOPIECE {
      RayLengthMirror(sq, ir + dr, ic + dc, dr, dc);
      assert 7 - (ir + dr) == 7 - ir + -dr;
    }
  }

  lemma LengthStep(sq: Grid, ir: int, ic: int, dr: int, dc: int)
    requires Shape(sq) && IsDir(dr, dc)
    ensures IsDir(-dr, dc)
    ensures On(ir, ic) && At(sq, ir, ic) == NOPIECE ==> Left(ir + dr, ic + dc, dr, dc) < Left(ir, ic, dr, dc)
    ensures RayLength(sq, ir, ic, dr, dc)
         == if !On(ir, ic) || At(sq, ir, ic) != NOPIECE then 0 else 1 + RayLength(sq, ir + dr, ic + dc, dr, dc)
  {
  }

  lemma EmptyMirror(sq: Grid, r: int, c: int)
    requires Shape(sq)
    ensures Shape(Mirror(sq))
    ensures On(r, c) ==> (At(Mirror(sq), r, c) == NOPIECE <==> At(sq, 7 - r, c) == NOPIECE)
  {
    hide Mirror;
  }

  lemma ExposedMirror(sq: Grid, r: int, c: int)
    requires Shape(sq)
    ensures ExposedVert(Mirror(sq), r, c) == ExposedVert(sq, 7 - r, c)
    ensures Exposed(Mirror(sq), r, c) == Exposed(sq, 7 - r, c)
  {
    hide Mirror, RayLength;
    RayLengthMirror(sq, r - 1, c, -1, 0);
    RayLengthMirror(sq, r + 1, c, 1, 0);
    RayLengthMirror(sq, r + 1, c + 1, 1, 1);
    RayLengthMirror(sq, r - 1, c + 1, -1, 1);
    RayLengthMirror(sq, r + 1, c - 1, 1, -1);
    RayLengthMirror(sq, r - 1, c - 1, -1, -1);
  }
}
