/** Static evaluation (src/chess/defs.cpp): tables, tapered score, its bound and its symmetry. */
module Evaluation {
  import opened Pieces
  import opened Squares
  import opened Rules
  import opened Rays
  import opened Zobrist
  import opened Boards

  type Table = seq<seq<int>>

  /** Eight rows of eight entries between -n and n. */
  predicate Within(t: Table, n: int) {
    |t| == 8 && RowWithin(t[0], n) && RowWithin(t[1], n) && RowWithin(t[2], n) && RowWithin(t[3], n)
    && RowWithin(t[4], n) && RowWithin(t[5], n) && RowWithin(t[6], n) && RowWithin(t[7], n)
  }

  predicate RowWithin(s: seq<int>, n: int) {
    |s| == 8 && Bounded(s[0], n) && Bounded(s[1], n) && Bounded(s[2], n) && Bounded(s[3], n)
    && Bounded(s[4], n) && Bounded(s[5], n) && Bounded(s[6], n) && Bounded(s[7], n)
  }

  predicate Bounded(x: int, n: int) { -n <= x <= n }

  const MG_PAWN: Table := [
    [0, 0, 0, 0, 0, 0, 0, 0],
    [98, 134, 61, 95, 68, 126, 34, -11],
    [-6, 7, 26, 31, 65, 56, 25, -20],
    [-14, 13, 6, 21, 23, 12, 17, -23],
    [-27, -2, -5, 12, 17, 6, 10, -25],
    [-26, -4, -4, -10, 3, 3, 33, -12],
    [-35, -1, -20, -23, -15, 24, 38, -22],
    [0, 0, 0, 0, 0, 0, 0, 0]
  ]

  const EG_PAWN: Table := [
    [0, 0, 0, 0, 0, 0, 0, 0],
    [178, 173, 158, 134, 147, 132, 165, 187],
    [94, 100, 85, 67, 56, 53, 82, 84],
    [32, 24, 13, 5, -2, 4, 17, 17],
    [13, 9, -3, -7, -7, -8, 3, -1],
    [4, 7, -6, 1, 0, -5, -1, -8],
    [13, 8, 8, 10, 13, 0, 2, -7],
    [0, 0, 0, 0, 0, 0, 0, 0]
  ]

  const MG_KNIGHT: Table := [
    [-167, -89, -34, -49, 61, -97, -15, -107],
    [-73, -41, 72, 36, 23, 62, 7, -17],
    [-47, 60, 37, 65, 84, 129, 73, 44],
    [-9, 17, 19, 53, 37, 69, 18, 22],
    [-13, 4, 16, 13, 28, 19, 21, -8],
    [-23, -9, 12, 10, 19, 17, 25, -16],
    [-29, -53, -12, -3, -1, 18, -14, -19],
    [-105, -21, -58, -33, -17, -28, -19, -23]
  ]

  const EG_KNIGHT: Table := [
    [-58, -38, -13, -28, -31, -27, -63, -99],
    [-25, -8, -25, -2, -9, -25, -24, -52],
    [-24, -20, 10, 9, -1, -9, -19, -41],
    [-17, 3, 22, 22, 22, 11, 8, -18],
    [-18, -6, 16, 25, 16, 17, 4, -18],
    [-23, -3, -1, 15, 10, -3, -20, -22],
    [-42, -20, -10, -5, -2, -20, -23, -44],
    [-29, -51, -23, -15, -22, -18, -50, -64]
  ]

  const MG_BISHOP: Table := [
    [-29, 4, -82, -37, -25, -42, 7, -8],
    [-26, 16, -18, -13, 30, 59, 18, -47],
    [-16, 37, 43, 40, 35, 50, 37, -2],
    [-4, 5, 19, 50, 37, 37, 7, -2],
    [-6, 13, 13, 26, 34, 12, 10, 4],
    [0, 15, 15, 15, 14, 27, 18, 10],
    [4, 15, 16, 0, 7, 21, 33, 1],
    [-33, -3, -14, -21, -13, -12, -39, -21]
  ]

  const EG_BISHOP: Table := [
    [-14, -21, -11, -8, -7, -9, -17, -24],
    [-8, -4, 7, -12, -3, -13, -4, -14],
    [2, -8, 0, -1, -2, 6, 0, 4],
    [-3, 9, 12, 9, 14, 10, 3, 2],
    [-6, 3, 13, 19, 7, 10, -3, -9],
    [-12, -3, 8, 10, 13, 3, -7, -15],
    [-14, -18, -7, -1, 4, -9, -15, -27],
    [-23, -9, -23, -5, -9, -16, -5, -17]
  ]

  const MG_ROOK: Table := [
    [32, 42, 32, 51, 63, 9, 31, 43],
    [27, 32, 58, 62, 80, 67, 26, 44],
    [-5, 19, 26, 36, 17, 45, 61, 16],
    [-24, -11, 7, 26, 24, 35, -8, -20],
    [-36, -26, -12, -1, 9, -7, 6, -23],
    [-45, -25, -16, -17, 3, 0, -5, -33],
    [-44, -16, -20, -9, -1, 11, -6, -71],
    [-19, -13, 1, 17, 16, 7, -37, -26]
  ]

  const EG_ROOK: Table := [
    [13, 10, 18, 15, 12, 12, 8, 5],
    [11, 13, 13, 11, -3, 3, 8, 3],
    [7, 7, 7, 5, 4, -3, -5, -3],
    [4, 3, 13, 1, 2, 1, -1, 2],
    [3, 5, 8, 4, -5, -6, -8, -11],
    [-4, 0, -5, -1, -7, -12, -8, -16],
    [-6, -6, 0, 2, -9, -9, -11, -3],
    [-9, 2, 3, -1, -5, -13, 4, -20]
  ]

  const MG_QUEEN: Table := [
    [-28, 0, 29, 12, 59, 44, 43, 45],
    [-24, -39, -5, 1, -16, 57, 28, 54],
    [-13, -17, 7, 8, 29, 56, 47, 57],
    [-27, -27, -16, -16, -1, 17, -2, 1],
    [-9, -26, -9, -10, -2, -4, 3, -3],
    [-14, 2, -11, -2, -5, 2, 14, 5],
    [-35, -8, 11, 2, 8, 15, -3, 1],
    [-1, -18, -9, 10, -15, -25, -31, -50]
  ]

  const EG_QUEEN: Table := [
    [-9, 22, 22, 27, 27, 19, 10, 20],
    [-17, 20, 32, 41, 58, 25, 30, 0],
    [-20, 6, 9, 49, 47, 35, 19, 9],
    [3, 22, 24, 45, 57, 40, 57, 36],
    [-18, 28, 19, 47, 31, 34, 39, 23],
    [-16, -27, 15, 6, 9, 17, 10, 5],
    [-22, -23, -30, -16, -16, -23, -36, -32],
    [-33, -28, -22, -43, -5, -32, -20, -41]
  ]

  const MG_KING: Table := [
    [-65, 23, 16, -15, -56, -34, 2, 13],
    [29, -1, -20, -7, -8, -4, -38, -29],
    [-9, 24, 2, -16, -20, 6, 22, -22],
    [-17, -20, -12, -27, -30, -25, -14, -36],
    [-49, -1, -27, -39, -46, -44, -33, -51],
    [-14, -14, -22, -46, -44, -30, -15, -27],
    [1, 7, -8, -64, -43, -16, 9, 8],
    [-15, 36, 12, -54, 8, -28, 24, 14]
  ]

  const EG_KING: Table := [
    [-74, -35, -18, -18, -11, 15, 4, -17],
    [-12, 17, 14, 17, 17, 38, 23, 11],
    [10, 17, 23, 15, 20, 45, 44, 13],
    [-8, 22, 24, 27, 26, 33, 26, 3],
    [-18, -4, 21, 24, 27, 23, 9, -11],
    [-19, -3, 11, 21, 23, 16, 7, -9],
    [-27, -11, 4, 13, 14, 4, -5, -17],
    [-53, -34, -21, -11, -28, -14, -24, -43]
  ]

  function Entry(t: Table, r: int, c: int): int {
    if 0 <= r < |t| && 0 <= c < |t[r]| then t[r][c] else 0
  }

  /** The white piece type of a piece. */
  function Kind(p: int): int { if p <= WK then p else p - 6 }

  function MgTable(kind: int): Table {
    if kind == WP then MG_PAWN else if kind == WN then MG_KNIGHT else if kind == WB then MG_BISHOP
    else if kind == WR then MG_ROOK else if kind == WQ then MG_QUEEN else MG_KING
  }

  function EgTable(kind: int): Table {
    if kind == WP then EG_PAWN else if kind == WN then EG_KNIGHT else if kind == WB then EG_BISHOP
    else if kind == WR then EG_ROOK else if kind == WQ then EG_QUEEN else EG_KING
  }

  function MgWorth(kind: int): int {
    if kind == WP then 82 else if kind == WN then 337 else if kind == WB then 365
    else if kind == WR then 477 else if kind == WQ then 1025 else 0
  }

  function EgWorth(kind: int): int {
    if kind == WP then 94 else if kind == WN then 281 else if kind == WB then 297
    else if kind == WR then 512 else if kind == WQ then 936 else 0
  }

  function PhaseWorth(kind: int): int {
    if kind == WN || kind == WB then 1 else if kind == WR then 2 else if kind == WQ then 4 else 0
  }

  /** The tables are written from white's side; black reads them upside down. */
  function TableRow(p: int, r: int): int { if p <= WK then r else 7 - r }

  function Signed(p: int, x: int): int { if p <= WK then x else -x }

  function MgBonus(sq: Grid, p: int, r: int, c: int): int
    requires Shape(sq)
  {
    if Kind(p) == WR then ExposedVert(sq, r, c) * 3
    else if Kind(p) == WK then -(Exposed(sq, r, c) * 3)
    else 0
  }

  function MgCell(sq: Grid): Weight
    requires Shape(sq)
  {
    (r: int, c: int, p: int) =>
      if IsPiece(p)
      then Signed(p, MgWorth(Kind(p)) + Entry(MgTable(Kind(p)), TableRow(p, r), c) + MgBonus(sq, p, r, c))
      else 0
  }

  const EG_CELL: Weight := (r: int, c: int, p: int) =>
    if IsPiece(p) then Signed(p, EgWorth(Kind(p)) + Entry(EgTable(Kind(p)), TableRow(p, r), c)) else 0

  const PHASE_CELL: Weight := (r: int, c: int, p: int) => if IsPiece(p) then PhaseWorth(Kind(p)) else 0

  /** C++ division by a positive number: rounds towards zero. */
  function TruncDiv(a: int, b: int): int
    requires b > 0
  {
    if a >= 0 then a / b else -((-a) / b)
  }

  function Tapered(mg: int, eg: int, phase: int): int {
    var mgPhase := if phase > 24 then 24 else phase;
    TruncDiv(mg * mgPhase + eg * (24 - mgPhase), 24)
  }

  /** The evaluation as a function of the position alone. */
  function Score(sq: Grid): int
    requires Shape(sq)
  {
    Tapered(Sum(MgCell(sq), sq), Sum(EG_CELL, sq), Sum(PHASE_CELL, sq))
  }

  function StaticEval(pos: Pos): int
    requires Shape(pos.sq)
  {
    if pos.side == WHITE then Score(pos.sq) else -Score(pos.sq)
  }

  // ----- Colour symmetry -----

  lemma EightRows(w: Weight, sq: Grid)
    requires Shape(sq)
    ensures Sum(w, sq) == RowSum(w, sq[0], 0, 8) + RowSum(w, sq[1], 1, 8) + RowSum(w, sq[2], 2, 8) + RowSum(w, sq[3], 3, 8)
                        + RowSum(w, sq[4], 4, 8) + RowSum(w, sq[5], 5, 8) + RowSum(w, sq[6], 6, 8) + RowSum(w, sq[7], 7, 8)
  {
    assert RowsSum(w, sq, 1) == RowSum(w, sq[0], 0, 8);
    assert RowsSum(w, sq, 2) == RowsSum(w, sq, 1) + RowSum(w, sq[1], 1, 8);
    assert RowsSum(w, sq, 3) == RowsSum(w, sq, 2) + RowSum(w, sq[2], 2, 8);
    assert RowsSum(w, sq, 4) == RowsSum(w, sq, 3) + RowSum(w, sq[3], 3, 8);
    assert RowsSum(w, sq, 5) == RowsSum(w, sq, 4) + RowSum(w, sq[4], 4, 8);
    assert RowsSum(w, sq, 6) == RowsSum(w, sq, 5) + RowSum(w, sq[5], 5, 8);
    assert RowsSum(w, sq, 7) == RowsSum(w, sq, 6) + RowSum(w, sq[6], 6, 8);
  }

  /** On the mirrored board w weighs every piece as v weighs its original. */
  ghost predicate Mirrored(w: Weight, v: Weight, sq: Grid, r: int, c: int)
    requires Shape(sq) && On(r, c)
  {
    w(7 - r, c, Swapped(At(sq, r, c))) == v(r, c, At(sq, r, c))
  }

  lemma {:induction false} RowSumMirror(w: Weight, v: Weight, sq: Grid, r: int, n: nat)
    requires Shape(sq) && 0 <= r < 8 && n <= 8
    requires forall c :: 0 <= c < 8 ==> Mirrored(w, v, sq, r, c)
    ensures RowSum(w, Mirror(sq)[7 - r], 7 - r, n) == RowSum(v, sq[r], r, n)
  {
    if n > 0 {
      RowSumMirror(w, v, sq, r, n - 1);
      assert Mirrored(w, v, sq, r, n - 1);
      assert At(Mirror(sq), 7 - r, n - 1) == Swapped(At(sq, r, n - 1));
      hide Mirror;
    }
  }

  lemma SumMirror(w: Weight, v: Weight, sq: Grid)
    requires Shape(sq)
    requires forall r, c :: On(r, c) ==> Mirrored(w, v, sq, r, c)
    ensures Sum(w, Mirror(sq)) == Sum(v, sq)
  {
    hide Mirror, RowSum, Sum;
    EightRows(w, Mirror(sq));
    EightRows(v, sq);
    RowSumMirror(w, v, sq, 0, 8);
    RowSumMirror(w, v, sq, 1, 8);
    RowSumMirror(w, v, sq, 2, 8);
    RowSumMirror(w, v, sq, 3, 8);
    RowSumMirror(w, v, sq, 4, 8);
    RowSumMirror(w, v, sq, 5, 8);
    RowSumMirror(w, v, sq, 6, 8);
    RowSumMirror(w, v, sq, 7, 8);
  }

  lemma TruncDivOdd(a: int, b: int)
    requires b > 0
    ensures TruncDiv(-a, b) == -TruncDiv(a, b)
  {
  }

  lemma TaperedOdd(mg: int, eg: int, phase: int)
    ensures Tapered(-mg, -eg, phase) == -Tapered(mg, eg, phase)
  {
    var k := if phase > 24 then 24 else phase;
    TruncDivOdd(mg * k + eg * (24 - k), 24);
    assert (-mg) * k + (-eg) * (24 - k) == -(mg * k + eg * (24 - k));
  }

  lemma SwappedFacts(p: int, r: int)
    requires IsPiece(p) && 0 <= r < 8
    ensures IsPiece(Swapped(p)) && Kind(Swapped(p)) == Kind(p)
    ensures TableRow(Swapped(p), 7 - r) == TableRow(p, r)
    ensures forall x :: Signed(Swapped(p), x) == -Signed(p, x)
  {
  }

  lemma CellMirror(sq: Grid, r: int, c: int)
    requires Shape(sq) && On(r, c)
    ensures Mirrored(MgCell(Mirror(sq)), Scale(-1, MgCell(sq)), sq, r, c)
    ensures Mirrored(EG_CELL, Scale(-1, EG_CELL), sq, r, c)
    ensures Mirrored(PHASE_CELL, PHASE_CELL, sq, r, c)
  {
    hide Mirror, Entry, Exposed, ExposedVert, MgTable, EgTable, MgWorth, EgWorth, PhaseWorth;
    var p := At(sq, r, c);
    ExposedMirror(sq, 7 - r, c);
    if IsPiece(p) {
      SwappedFacts(p, r);
      hide Swapped, Kind, TableRow, Signed;
    }
  }

  lemma ScoreMirror(sq: Grid)
    requires Shape(sq)
    ensures Score(Mirror(sq)) == -Score(sq)
  {
    hide Mirror, Sum, MgCell, Scale;
    forall r, c | On(r, c)
      ensures Mirrored(MgCell(Mirror(sq)), Scale(-1, MgCell(sq)), sq, r, c)
      ensures Mirrored(EG_CELL, Scale(-1, EG_CELL), sq, r, c)
      ensures Mirrored(PHASE_CELL, PHASE_CELL, sq, r, c)
    {
      CellMirror(sq, r, c);
    }
    SumMirror(MgCell(Mirror(sq)), Scale(-1, MgCell(sq)), sq);
    SumMirror(EG_CELL, Scale(-1, EG_CELL), sq);
    SumMirror(PHASE_CELL, PHASE_CELL, sq);
    SumLinear(MgCell(sq), MgCell(sq), -1, sq);
    SumLinear(EG_CELL, EG_CELL, -1, sq);
    TaperedOdd(Sum(MgCell(sq), sq), Sum(EG_CELL, sq), Sum(PHASE_CELL, sq));
  }

  /** Main result: the evaluation does not know which colour is which. */
  lemma EvaluationIsColourBlind(pos: Pos, pos': Pos)
    requires Shape(pos.sq) && IsSide(pos.side)
    requires pos'.sq == Mirror(pos.sq) && pos'.side == Other(pos.side)
    ensures StaticEval(pos') == StaticEval(pos)
  {
    hide Mirror, Score;
    ScoreMirror(pos.sq);
  }

  // ----- Bound -----

  lemma MgTablesWithin()
    ensures Within(MG_PAWN, 134) && Within(MG_KNIGHT, 167) && Within(MG_BISHOP, 82)
    ensures Within(MG_ROOK, 80) && Within(MG_QUEEN, 59) && Within(MG_KING, 65)
  {
  }

  lemma EgTablesWithin()
    ensures Within(EG_PAWN, 187) && Within(EG_KNIGHT, 99) && Within(EG_BISHOP, 27)
    ensures Within(EG_ROOK, 20) && Within(EG_QUEEN, 58) && Within(EG_KING, 74)
  {
  }

  /** No piece of the kind contributes more than this, to either score. */
  function Cap(kind: int): int {
    if kind == WP then 281 else if kind == WN then 504 else if kind == WB then 447
    else if kind == WR then 605 else if kind == WQ then 1084 else 209
  }

  const CAP_CELL: Weight := (r: int, c: int, p: int) => if IsPiece(p) then Cap(Kind(p)) else 0

  lemma EntryWithin(t: Table, n: int, r: int, c: int)
    requires Within(t, n) && n >= 0
    ensures -n <= Entry(t, r, c) <= n
  {
  }

  lemma MgEntryWithin(kind: int, r: int, c: int)
    ensures var n := if kind == WP then 134 else if kind == WN then 167 else if kind == WB then 82
                     else if kind == WR then 80 else if kind == WQ then 59 else 65;
            -n <= Entry(MgTable(kind), r, c) <= n
  {
    MgTablesWithin();
    hide Within, Entry;
    EntryWithin(MgTable(kind), if kind == WP then 134 else if kind == WN then 167 else if kind == WB then 82
                               else if kind == WR then 80 else if kind == WQ then 59 else 65, r, c);
  }

  lemma EgEntryWithin(kind: int, r: int, c: int)
    ensures var n := if kind == WP then 187 else if kind == WN then 99 else if kind == WB then 27
                     else if kind == WR then 20 else if kind == WQ then 58 else 74;
            -n <= Entry(EgTable(kind), r, c) <= n
  {
    EgTablesWithin();
    hide Within, Entry;
    EntryWithin(EgTable(kind), if kind == WP then 187 else if kind == WN then 99 else if kind == WB then 27
                               else if kind == WR then 20 else if kind == WQ then 58 else 74, r, c);
  }

  lemma CellWithin(sq: Grid, r: int, c: int, p: int)
    requires Shape(sq) && IsCell(p)
    ensures -CAP_CELL(r, c, p) <= MgCell(sq)(r, c, p) <= CAP_CELL(r, c, p)
    ensures -CAP_CELL(r, c, p) <= EG_CELL(r, c, p) <= CAP_CELL(r, c, p)
  {
    hide Entry, RayLength, MgTable, EgTable;
    if IsPiece(p) {
      MgEntryWithin(Kind(p), TableRow(p, r), c);
      EgEntryWithin(Kind(p), TableRow(p, r), c);
    }
  }

  function Limit(n: nat): int {
    if n == 0 then 0
    else Limit(n - 1) + if IsKing(n - 1) then Cap(Kind(n - 1)) else 10 * Cap(Kind(n - 1))
  }

  lemma LimitOfAll()
    ensures Limit(12) == 58838
  {
    assert Limit(1) == 2810;
    assert Limit(2) == 7850;
    assert Limit(3) == 12320;
    assert Limit(4) == 18370;
    assert Limit(5) == 29210;
    assert Limit(6) == 29419;
    assert Limit(7) == 32229;
    assert Limit(8) == 37269;
    assert Limit(9) == 41739;
    assert Limit(10) == 47789;
    assert Limit(11) == 58629;
  }

  /** Ten pieces of each type and one king a side bound the sum of the caps. */
  lemma {:induction false} CapsLimited(sq: Grid, n: nat)
    requires Shape(sq) && n <= 12
    requires forall p :: IsPiece(p) ==> Count(sq, p) <= if IsKing(p) then 1 else 10
    ensures Sum(UpTo(CAP_CELL, n), sq) <= Limit(n)
  {
    hide Sum;
    if n == 0 {
      SumEqual(UpTo(CAP_CELL, 0), NOTHING, sq);
      NothingSums(sq);
    } else {
      var p := n - 1;
      CapsLimited(sq, p);
      SumUpTo(CAP_CELL, p, sq);
      SumEqual(Only(CAP_CELL, p), Scale(Cap(Kind(p)), IsA(p)), sq);
      SumLinear(IsA(p), IsA(p), Cap(Kind(p)), sq);
      AtMost(Cap(Kind(p)), Count(sq, p), if IsKing(p) then 1 else 10);
    }
  }

  lemma AtMost(k: int, x: int, y: int)
    requires 0 <= k && x <= y
    ensures k * x <= k * y
  {
  }

  ghost predicate FullSets(sq: Grid)
    requires Shape(sq)
  {
    forall p :: IsPiece(p) ==> 0 <= Count(sq, p) <= if IsKing(p) then 1 else 10
  }

  lemma SumsLimited(sq: Grid)
    requires Shape(sq) && FullSets(sq)
    ensures -58838 <= Sum(MgCell(sq), sq) <= 58838
    ensures -58838 <= Sum(EG_CELL, sq) <= 58838
    ensures 0 <= Sum(PHASE_CELL, sq)
  {
    hide Sum, Count, MgCell, Limit;
    CapsLimited(sq, 12);
    LimitOfAll();
    SumEqual(CAP_CELL, UpTo(CAP_CELL, 12), sq);
    SumLinear(CAP_CELL, CAP_CELL, -1, sq);
    forall r, c | On(r, c)
      ensures Below(MgCell(sq), At(sq, r, c), CAP_CELL, At(sq, r, c), r, c)
      ensures Below(EG_CELL, At(sq, r, c), CAP_CELL, At(sq, r, c), r, c)
      ensures Below(Scale(-1, CAP_CELL), At(sq, r, c), MgCell(sq), At(sq, r, c), r, c)
      ensures Below(Scale(-1, CAP_CELL), At(sq, r, c), EG_CELL, At(sq, r, c), r, c)
    {
      CellWithin(sq, r, c, At(sq, r, c));
    }
    SumBounds(MgCell(sq), sq, CAP_CELL, sq);
    SumBounds(EG_CELL, sq, CAP_CELL, sq);
    SumBounds(Scale(-1, CAP_CELL), sq, MgCell(sq), sq);
    SumBounds(Scale(-1, CAP_CELL), sq, EG_CELL, sq);
    SumBounds(NOTHING, sq, PHASE_CELL, sq);
    NothingSums(sq);
  }

  lemma TaperedLimited(mg: int, eg: int, phase: int, n: int)
    requires -n <= mg <= n && -n <= eg <= n && 0 <= phase
    ensures -n <= Tapered(mg, eg, phase) <= n
  {
    var k := if phase > 24 then 24 else phase;
    AtMost(k, mg, n);
    AtMost(k, -n, mg);
    AtMost(24 - k, eg, n);
    AtMost(24 - k, -n, eg);
    assert k * n + (24 - k) * n == 24 * n;
    assert k * (-n) + (24 - k) * (-n) == -(24 * n);
    var a := mg * k + eg * (24 - k);
    assert -(24 * n) <= a <= 24 * n;
  }

  const MATE: int := 90000

  /** Main result: material scores stay clear of mate scores. */
  lemma EvaluationBelowMate(pos: Pos)
    requires Shape(pos.sq) && FullSets(pos.sq)
    ensures -MATE < StaticEval(pos) < MATE
  {
    hide Sum, MgCell, Count, FullSets, Tapered;
    SumsLimited(pos.sq);
    TaperedLimited(Sum(MgCell(pos.sq), pos.sq), Sum(EG_CELL, pos.sq), Sum(PHASE_CELL, pos.sq), 58838);
  }

  // ----- What the score means -----

  /** The score as white sees it. */
  function WhiteValue(pos: Pos): int
    requires Shape(pos.sq)
  {
    if pos.side == WHITE then StaticEval(pos) else -StaticEval(pos)
  }

  function Magnitude(x: int): nat { if x < 0 then -x else x }

  lemma {:induction false} BlendOf(mg: int, eg: int, phase: int)
    requires 0 <= phase
    ensures phase == 0 ==> Tapered(mg, eg, phase) == eg
    ensures phase >= 24 ==> Tapered(mg, eg, phase) == mg
    ensures phase <= 24 ==>
              var v, weighted := Tapered(mg, eg, phase), mg * phase + eg * (24 - phase);
              Magnitude(24 * v - weighted) < 24 && Magnitude(24 * v) <= Magnitude(weighted)
  {
    TruncMeans(mg * (if phase > 24 then 24 else phase) + eg * (24 - if phase > 24 then 24 else phase));
  }

  /** Division that rounds towards zero: the nearest multiple that is not larger in absolute value. */
  lemma TruncMeans(a: int)
    ensures var v := TruncDiv(a, 24); Magnitude(24 * v - a) < 24 && Magnitude(24 * v) <= Magnitude(a)
    ensures a % 24 == 0 ==> 24 * TruncDiv(a, 24) == a
  {
  }

  /** The phase counts the pieces: one for a knight or bishop, two for a rook, four for a queen. */
  lemma PhaseByCounts(sq: Grid)
    requires Shape(sq)
    ensures Sum(PHASE_CELL, sq)
         == Count(sq, WN) + Count(sq, BN) + Count(sq, WB) + Count(sq, BB)
            + 2 * (Count(sq, WR) + Count(sq, BR)) + 4 * (Count(sq, WQ) + Count(sq, BQ))
  {
    hide Sum, Count, PHASE_CELL, Only, UpTo, SideSum;
    SidesAreAll(sq);
    SidePhase(sq, WP);
    SidePhase(sq, BP);
  }

  lemma SidePhase(sq: Grid, pawn: int)
    requires Shape(sq) && (pawn == WP || pawn == BP)
    ensures SideSum(PHASE_CELL, pawn, sq)
         == Count(sq, pawn + 1) + Count(sq, pawn + 2) + 2 * Count(sq, pawn + 3) + 4 * Count(sq, pawn + 4)
  {
    hide Sum, Only, PHASE_CELL, Count;
    TypePhase(sq, pawn);
    TypePhase(sq, pawn + 1);
    TypePhase(sq, pawn + 2);
    TypePhase(sq, pawn + 3);
    TypePhase(sq, pawn + 4);
    TypePhase(sq, pawn + 5);
  }

  lemma TypePhase(sq: Grid, p: int)
    requires Shape(sq) && IsPiece(p)
    ensures Sum(Only(PHASE_CELL, p), sq) == PhaseWorth(Kind(p)) * Count(sq, p)
  {
    SumEqual(Only(PHASE_CELL, p), Scale(PhaseWorth(Kind(p)), IsA(p)), sq);
    SumLinear(IsA(p), IsA(p), PhaseWorth(Kind(p)), sq);
    hide Sum;
  }

  /** Main result: with pawns and kings only the score is the endgame sum, with phase 24 or more the middlegame sum, and in
      between the weighted mean of the two, rounded towards zero, as the side to move sees it. */
  lemma EvaluationIsBlend(pos: Pos)
    requires Shape(pos.sq) && IsSide(pos.side)
    ensures var mg, eg, phase := Sum(MgCell(pos.sq), pos.sq), Sum(EG_CELL, pos.sq), Sum(PHASE_CELL, pos.sq);
            var v := WhiteValue(pos);
            && phase >= 0
            && ((forall r, c :: On(r, c) && IsPiece(At(pos.sq, r, c)) ==> IsPawn(At(pos.sq, r, c)) || IsKing(At(pos.sq, r, c)))
                ==> v == eg)
            && (phase >= 24 ==> v == mg)
            && (phase <= 24 ==>
                  var weighted := mg * phase + eg * (24 - phase);
                  Magnitude(24 * v - weighted) < 24 && Magnitude(24 * v) <= Magnitude(weighted))
    ensures pos.side == WHITE ==> StaticEval(pos) == WhiteValue(pos)
    ensures pos.side == BLACK ==> StaticEval(pos) == -WhiteValue(pos)
  {
    hide Sum, MgCell, EG_CELL, Tapered, Magnitude;
    NothingSums(pos.sq);
    SumBounds(NOTHING, pos.sq, PHASE_CELL, pos.sq);
    BlendOf(Sum(MgCell(pos.sq), pos.sq), Sum(EG_CELL, pos.sq), Sum(PHASE_CELL, pos.sq));
    if forall r, c :: On(r, c) && IsPiece(At(pos.sq, r, c)) ==> IsPawn(At(pos.sq, r, c)) || IsKing(At(pos.sq, r, c)) {
      SumEqual(PHASE_CELL, NOTHING, pos.sq);
    }
  }

  // ----- What a piece is worth -----

  predicate RowAtLeast(s: seq<int>, n: int) {
    && |s| == 8 && s[0] >= n && s[1] >= n && s[2] >= n && s[3] >= n && s[4] >= n && s[5] >= n && s[6] >= n && s[7] >= n
  }

  predicate TableAtLeast(t: Table, n: int) {
    && |t| == 8 && RowAtLeast(t[0], n) && RowAtLeast(t[1], n) && RowAtLeast(t[2], n) && RowAtLeast(t[3], n)
    && RowAtLeast(t[4], n) && RowAtLeast(t[5], n) && RowAtLeast(t[6], n) && RowAtLeast(t[7], n)
  }

  lemma PawnTablesLow()
    ensures TableAtLeast(MG_PAWN, -35) && TableAtLeast(EG_PAWN, -8)
  {
  }

  lemma PawnTables(r: int, c: int)
    ensures Entry(MgTable(WP), r, c) >= -35 && Entry(EgTable(WP), r, c) >= -8
  {
    PawnTablesLow();
    hide MG_PAWN, EG_PAWN;
  }

  /** Every piece but the king counts for its own side, in the middlegame and in the endgame. */
  lemma PiecesCountForTheirSide(sq: Grid, r: int, c: int, p: int)
    requires Shape(sq) && IsPiece(p) && !IsKing(p)
    ensures PceCol(p) == WHITE ==> MgCell(sq)(r, c, p) > 0 && EG_CELL(r, c, p) > 0
    ensures PceCol(p) == BLACK ==> MgCell(sq)(r, c, p) < 0 && EG_CELL(r, c, p) < 0
  {
    hide Entry, RayLength, MgTable, EgTable;
    MgEntryWithin(Kind(p), TableRow(p, r), c);
    EgEntryWithin(Kind(p), TableRow(p, r), c);
    PawnTables(TableRow(p, r), c);
  }

  /** In the endgame a pawn is worth more the nearer it is to its last row. */
  lemma PawnsGainOnTheWay(c: int, side: int)
    requires 0 <= c < 8 && IsSide(side)
    ensures var last, f := LastRow(side), Forward(side);
            var near, further, far := EG_CELL(last - 1 * f, c, PawnOf(side)), EG_CELL(last - 2 * f, c, PawnOf(side)),
                                      EG_CELL(last - 3 * f, c, PawnOf(side));
            if side == WHITE then near > further > far > 0 else near < further < far < 0
  {
    hide EG_PAWN, Entry, EG_CELL;
    AllClimb();
    assert Climbs(c);
    PawnValue(1, c, side);
    PawnValue(2, c, side);
    PawnValue(3, c, side);
  }

  lemma PawnValue(k: int, c: int, side: int)
    requires IsSide(side)
    ensures EG_CELL(LastRow(side) - k * Forward(side), c, PawnOf(side))
         == if side == WHITE then 94 + Entry(EG_PAWN, k, c) else -(94 + Entry(EG_PAWN, k, c))
  {
    hide EG_PAWN, Entry;
    assert LastRow(side) - k * Forward(side) == if side == WHITE then k else 7 - k;
    assert EgTable(WP) == EG_PAWN;
    EgOf(k, c, WP);
    EgOf(7 - k, c, BP);
  }

  lemma EgOf(r: int, c: int, p: int)
    requires IsPiece(p)
    ensures EG_CELL(r, c, p) == Signed(p, EgWorth(Kind(p)) + Entry(EgTable(Kind(p)), TableRow(p, r), c))
  {
    hide Entry, EgTable, EgWorth, Signed;
  }

  predicate Climbs(c: int)
    requires 0 <= c < 8
  {
    Entry(EG_PAWN, 1, c) > Entry(EG_PAWN, 2, c) > Entry(EG_PAWN, 3, c) > -94
  }

  lemma AllClimb()
    ensures Climbs(0) && Climbs(1) && Climbs(2) && Climbs(3) && Climbs(4) && Climbs(5) && Climbs(6) && Climbs(7)
  {
  }

  lemma MgOf(sq: Grid, r: int, c: int, p: int)
    requires Shape(sq) && IsPiece(p)
    ensures MgCell(sq)(r, c, p) == Signed(p, MgWorth(Kind(p)) + Entry(MgTable(Kind(p)), TableRow(p, r), c) + MgBonus(sq, p, r, c))
  {
    hide Entry, Exposed, ExposedVert, MgTable, MgWorth, MgBonus, Signed;
  }

  /** A rook gains three points for every empty square it sees up and down its column; a king loses three for every empty
      square it sees there and on its diagonals. */
  lemma OpenLines(a: Grid, b: Grid, r: int, c: int, side: int)
    requires Shape(a) && Shape(b) && IsSide(side)
    ensures var gain := 3 * (ExposedVert(a, r, c) - ExposedVert(b, r, c));
            MgCell(a)(r, c, RookOf(side)) - MgCell(b)(r, c, RookOf(side)) == if side == WHITE then gain else -gain
    ensures var loss := 3 * (Exposed(a, r, c) - Exposed(b, r, c));
            MgCell(a)(r, c, KingOf(side)) - MgCell(b)(r, c, KingOf(side)) == if side == WHITE then -loss else loss
  {
    hide Entry, Exposed, ExposedVert, MgTable, MgWorth, MgCell;
    MgOf(a, r, c, RookOf(side));
    MgOf(b, r, c, RookOf(side));
    MgOf(a, r, c, KingOf(side));
    MgOf(b, r, c, KingOf(side));
  }

  // ----- The evaluation loops -----

  /** What one piece adds: worth, table entry and, for rooks, the file bonus. */
  method PieceTerms(b: Board, p: int, r: int, c: int) returns (mg: int, eg: int, phase: int)
    requires b.Valid() && IsPiece(p) && !IsKing(p)
    ensures mg == MgCell(b.sq)(r, c, p) && eg == EG_CELL(r, c, p) && phase == PHASE_CELL(r, c, p)
  {
    hide KeysOk, KeyOf, Material, Hashable, Indexed, Entry, MgTable, EgTable, ExposedVert, Exposed;
    var k := Kind(p);
    var bonus := 0;
    if k == WR {
      var open := b.SqExposedVert(r, c);
      bonus := open * 3;
    }
    if p <= WK {
      mg := MgWorth(k) + Entry(MgTable(k), r, c) + bonus;
      eg := EgWorth(k) + Entry(EgTable(k), r, c);
    } else {
      mg := -MgWorth(k) - Entry(MgTable(k), 7 - r, c) - bonus;
      eg := -EgWorth(k) - Entry(EgTable(k), 7 - r, c);
    }
    phase := PhaseWorth(k);
  }

  /** What the next entry of a piece list adds. */
  method EntryTerms(b: Board, p: int, j: nat, ghost sq: Grid, ghost list: seq<Place>)
    returns (mg: int, eg: int, phase: int)
    requires b.Valid() && IsPiece(p) && !IsKing(p) && b.sq == sq && b.lists[p] == list && j < |list|
    ensures var (r, c) := list[j]; mg == MgCell(sq)(r, c, p) && eg == EG_CELL(r, c, p) && phase == PHASE_CELL(r, c, p)
  {
    hide KeysOk, KeyOf, Material, Hashable, Indexed, MgCell, EG_CELL, PHASE_CELL;
    mg, eg, phase := PieceTerms(b, p, b.pListR[10 * p + j], b.pListC[10 * p + j]);
  }

  lemma ListLength(b: Board, p: int)
    requires b.Valid() && IsPiece(p)
    ensures b.pceNum.Length == 12 && |b.lists| == 12 && b.pceNum[p] == |b.lists[p]| && Shape(b.sq)
  {
    hide KeysOk, KeyOf, Material, Hashable, Indexed;
  }

  /** One of the loops over a piece type. */
  method AddPieces(b: Board, p: int, ghost sq: Grid, mg: int, eg: int, phase: int)
    returns (mg': int, eg': int, phase': int)
    requires b.Valid() && IsPiece(p) && !IsKing(p) && b.sq == sq
    ensures mg' == mg + Sum(Only(MgCell(sq), p), sq)
    ensures eg' == eg + Sum(Only(EG_CELL, p), sq)
    ensures phase' == phase + Sum(Only(PHASE_CELL, p), sq)
  {
    hide Board.Valid, MgCell, EG_CELL, PHASE_CELL, Sum, Only;
    ListLength(b, p);
    ghost var list := b.lists[p];
    ListSumsAreSums(b, p, sq);
    mg', eg', phase' := mg, eg, phase;
    var j := 0;
    while j < b.pceNum[p]
      invariant 0 <= j <= |list|
      invariant mg' == mg + ListSum(MgCell(sq), p, list, j)
      invariant eg' == eg + ListSum(EG_CELL, p, list, j)
      invariant phase' == phase + ListSum(PHASE_CELL, p, list, j)
    {
      var x, y, z := EntryTerms(b, p, j, sq, list);
      mg', eg', phase' := mg' + x, eg' + y, phase' + z;
      j := j + 1;
    }
  }

  lemma ListSumsAreSums(b: Board, p: int, sq: Grid)
    requires b.Valid() && IsPiece(p) && b.sq == sq
    ensures var list := b.lists[p];
            && Sum(Only(MgCell(sq), p), sq) == ListSum(MgCell(sq), p, list, |list|)
            && Sum(Only(EG_CELL, p), sq) == ListSum(EG_CELL, p, list, |list|)
            && Sum(Only(PHASE_CELL, p), sq) == ListSum(PHASE_CELL, p, list, |list|)
  {
    hide KeysOk, KeyOf, Material, Hashable, Indexed, MgCell, EG_CELL, PHASE_CELL, Sum, Only, ListSum;
    ListOnBoard(sq, b.lists, p);
    ListSumIsSum(MgCell(sq), p, b.lists[p], sq);
    ListSumIsSum(EG_CELL, p, b.lists[p], sq);
    ListSumIsSum(PHASE_CELL, p, b.lists[p], sq);
  }

  /** The king terms: table entry and the penalty for open lines; a king adds nothing to the phase. */
  method AddKing(b: Board, color: int, ghost sq: Grid, mg: int, eg: int) returns (mg': int, eg': int)
    requires b.Valid() && IsSide(color) && b.sq == sq && OneKingEach(sq)
    ensures mg' == mg + Sum(Only(MgCell(sq), KingOf(color)), sq)
    ensures eg' == eg + Sum(Only(EG_CELL, KingOf(color)), sq)
    ensures Sum(Only(PHASE_CELL, KingOf(color)), sq) == 0
  {
    hide KeysOk, KeyOf, Material, Hashable, Indexed, Entry, MgTable, EgTable, ExposedVert, Exposed, Sum;
    var kR, kC := b.GetKingR(color), b.GetKingC(color);
    var open := b.SqExposed(kR, kC);
    if color == WHITE {
      mg' := mg + Entry(MgTable(WK), kR, kC) - open * 3;
      eg' := eg + Entry(EgTable(WK), kR, kC);
    } else {
      mg' := mg - Entry(MgTable(WK), 7 - kR, kC) + open * 3;
      eg' := eg - Entry(EgTable(WK), 7 - kR, kC);
    }
    OnlyKing(MgCell(b.sq), color, kR, kC, b.sq);
    OnlyKing(EG_CELL, color, kR, kC, b.sq);
    OnlyKing(PHASE_CELL, color, kR, kC, b.sq);
  }

  lemma OnlyKing(w: Weight, color: int, r: int, c: int, sq: Grid)
    requires Shape(sq) && OneKingEach(sq) && IsSide(color) && On(r, c) && At(sq, r, c) == KingOf(color)
    ensures Sum(Only(w, KingOf(color)), sq) == w(r, c, KingOf(color))
  {
    forall x, y | On(x, y) && (x != r || y != c)
      ensures Same(Only(w, KingOf(color)), NOTHING, x, y, At(sq, x, y))
    {
      if At(sq, x, y) == KingOf(color) {
        CountUnique(sq, r, c, x, y, KingOf(color));
      }
    }
    SumSingle(Only(w, KingOf(color)), r, c, sq);
  }

  lemma ListOnBoard(sq: Grid, lists: seq<seq<Place>>, p: int)
    requires Shape(sq) && Indexed(sq, lists) && IsPiece(p)
    ensures |lists| == 12
    ensures forall i, j :: 0 <= i < j < |lists[p]| ==> lists[p][i] != lists[p][j]
    ensures forall r, c :: (r, c) in lists[p] <==> On(r, c) && At(sq, r, c) == p
    ensures forall i :: 0 <= i < |lists[p]| ==> On(lists[p][i].0, lists[p][i].1)
  {
    forall i | 0 <= i < |lists[p]|
      ensures On(lists[p][i].0, lists[p][i].1)
    {
      assert (lists[p][i].0, lists[p][i].1) in lists[p];
    }
  }

  /** What the six types of one colour add; the first is its pawn. */
  ghost function SideSum(w: Weight, pawn: int, sq: Grid): int
    requires Shape(sq)
  {
    Sum(Only(w, pawn), sq) + Sum(Only(w, pawn + 1), sq) + Sum(Only(w, pawn + 2), sq)
    + Sum(Only(w, pawn + 3), sq) + Sum(Only(w, pawn + 4), sq) + Sum(Only(w, pawn + 5), sq)
  }

  /** Adding up type by type reaches the sum over all pieces. */
  lemma TypeByType(w: Weight, sq: Grid)
    requires Shape(sq)
    requires forall r, c :: On(r, c) ==> Same(w, UpTo(w, 12), r, c, At(sq, r, c))
    ensures Sum(w, sq) == SideSum(w, WP, sq) + SideSum(w, BP, sq)
  {
    SumEqual(w, UpTo(w, 12), sq);
    NothingBelow(w, sq);
    SixTypes(w, WP, sq);
    SixTypes(w, BP, sq);
  }

  lemma SixTypes(w: Weight, pawn: int, sq: Grid)
    requires Shape(sq)
    ensures Sum(UpTo(w, pawn + 6), sq) == Sum(UpTo(w, pawn), sq) + SideSum(w, pawn, sq)
  {
    hide Sum, UpTo, Only;
    SumUpTo(w, pawn, sq);
    SumUpTo(w, pawn + 1, sq);
    SumUpTo(w, pawn + 2, sq);
    SumUpTo(w, pawn + 3, sq);
    SumUpTo(w, pawn + 4, sq);
    SumUpTo(w, pawn + 5, sq);
  }

  lemma NothingBelow(w: Weight, sq: Grid)
    requires Shape(sq)
    ensures Sum(UpTo(w, 0), sq) == 0
  {
    hide Sum;
    SumEqual(UpTo(w, 0), NOTHING, sq);
    NothingSums(sq);
  }

  /** The loops over the pieces of one colour. */
  method AddSide(b: Board, color: int, ghost sq: Grid, mg: int, eg: int, phase: int)
    returns (mg': int, eg': int, phase': int)
    requires b.Valid() && IsSide(color) && b.sq == sq && OneKingEach(sq)
    ensures mg' == mg + SideSum(MgCell(sq), PawnOf(color), sq)
    ensures eg' == eg + SideSum(EG_CELL, PawnOf(color), sq)
    ensures phase' == phase + SideSum(PHASE_CELL, PawnOf(color), sq)
  {
    hide Board.Valid, Sum, Only, MgCell, EG_CELL, PHASE_CELL, OneKingEach;
    var pawn := if color == WHITE then WP else BP;
    mg', eg', phase' := AddPieces(b, pawn, sq, mg, eg, phase);
    mg', eg', phase' := AddPieces(b, pawn + 1, sq, mg', eg', phase');
    mg', eg', phase' := AddPieces(b, pawn + 2, sq, mg', eg', phase');
    mg', eg', phase' := AddPieces(b, pawn + 3, sq, mg', eg', phase');
    mg', eg', phase' := AddPieces(b, pawn + 4, sq, mg', eg', phase');
    mg', eg' := AddKing(b, color, sq, mg', eg');
  }

  /** static_eval computes the score of the position, whatever the order of the piece lists. */
  method Evaluate(b: Board) returns (score: int)
    requires b.Valid() && OneKingEach(b.sq)
    ensures score == StaticEval(b.Position())
  {
    hide Board.Valid, Sum, MgCell, EG_CELL, PHASE_CELL, TruncDiv, OneKingEach, SideSum;
    var mg, eg, phase := AddSide(b, WHITE, b.sq, 0, 0, 0);
    mg, eg, phase := AddSide(b, BLACK, b.sq, mg, eg, phase);
    ListLength(b, WP);
    SidesAreAll(b.sq);
    var mgPhase := phase;
    if mgPhase > 24 {
      mgPhase := 24;
    }
    var egPhase := 24 - mgPhase;
    score := TruncDiv(mg * mgPhase + eg * egPhase, 24);
    if b.side != WHITE {
      score := -score;
    }
  }

  lemma SidesAreAll(sq: Grid)
    requires Shape(sq)
    ensures Sum(MgCell(sq), sq) == SideSum(MgCell(sq), WP, sq) + SideSum(MgCell(sq), BP, sq)
    ensures Sum(EG_CELL, sq) == SideSum(EG_CELL, WP, sq) + SideSum(EG_CELL, BP, sq)
    ensures Sum(PHASE_CELL, sq) == SideSum(PHASE_CELL, WP, sq) + SideSum(PHASE_CELL, BP, sq)
  {
    hide Sum, MgCell, EG_CELL, PHASE_CELL, SideSum;
    CellsUpTo(sq);
    TypeByType(MgCell(sq), sq);
    TypeByType(EG_CELL, sq);
    TypeByType(PHASE_CELL, sq);
  }

  lemma CellsUpTo(sq: Grid)
    requires Shape(sq)
    ensures forall r, c :: On(r, c) ==> Same(MgCell(sq), UpTo(MgCell(sq), 12), r, c, At(sq, r, c))
    ensures forall r, c :: On(r, c) ==> Same(EG_CELL, UpTo(EG_CELL, 12), r, c, At(sq, r, c))
    ensures forall r, c :: On(r, c) ==> Same(PHASE_CELL, UpTo(PHASE_CELL, 12), r, c, At(sq, r, c))
  {
  }
}
