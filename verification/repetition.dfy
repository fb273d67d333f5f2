/** Whole games: what every reachable position satisfies, and why the repetition window is enough. */
module Repetition {
  import opened Pieces
  import opened Squares
  import opened Rules
  import opened Zobrist
  import opened Invariant
  import opened Games
  import opened Trees
  import Boards

  /** A game from a starting position, move by move. */
  datatype Run = Start(pos: Pos) | Step(prev: Run, m: Move)

  ghost predicate LegalRun(r: Run)
    decreases r, 0
  {
    match r
    case Start(pos) => WellFormed(pos)
    case Step(prev, m) => LegalRun(prev) && Legal(End(prev), m)
  }

  /** Main result: every position of every game is well formed. */
  ghost function End(r: Run): (pos: Pos)
    requires LegalRun(r)
    ensures WellFormed(pos)
    decreases r, 1
  {
    match r
    case Start(pos) => pos
    case Step(prev, m) =>
      LegalKeepsWellFormed(End(prev), m);
      Apply(End(prev), m)
  }

  function Length(r: Run): nat {
    match r
    case Start(_) => 0
    case Step(prev, _) => Length(prev) + 1
  }

  /** The position after the first i moves. */
  ghost function PosAt(r: Run, i: nat): (pos: Pos)
    requires LegalRun(r) && i <= Length(r)
    ensures WellFormed(pos)
  {
    if i == Length(r) then End(r) else PosAt(r.prev, i)
  }

  /** The game record that makeMove builds along the run. */
  ghost function Recorded(keys: Keys, r: Run): (g: Game)
    requires KeysOk(keys) && LegalRun(r)
    ensures g.pos == End(r) && |g.past| == Length(r) && Live(keys, g)
  {
    match r
    case Start(pos) => Game(pos, [], 0)
    case Step(prev, m) => Next(keys, Recorded(keys, prev), m)
  }

  // ----- The potential -----

  /** One for every piece, and for pawns also the distance to the promotion row. */
  const POTENTIAL_CELL: Weight := (r: int, c: int, p: int) =>
    if p == WP then 1 + r else if p == BP then 8 - r else if IsPiece(p) then 1 else 0

  ghost function Potential(pos: Pos): int
    requires Shape(pos.sq)
  {
    Sum(POTENTIAL_CELL, pos.sq)
  }

  /** The potential never rises, and falls exactly on captures and pawn moves. */
  lemma PotentialFalls(pos: Pos, m: Move)
    requires WellFormed(pos) && PseudoLegal(pos, m)
    ensures Appliable(pos, m)
    ensures Irreversible(pos, m) ==> Potential(Apply(pos, m)) < Potential(pos)
    ensures !Irreversible(pos, m) ==> Potential(Apply(pos, m)) == Potential(pos)
  {
    SumAfter(POTENTIAL_CELL, pos, m);
    MoveFacts(pos, m);
    MoverPresent(pos, m);
    PawnAdvances(pos, m);
    hide WellFormed, PseudoLegal, Sum, CastleAfter;
  }

  lemma PawnAdvances(pos: Pos, m: Move)
    requires WellFormed(pos) && PseudoLegal(pos, m)
    ensures At(pos.sq, m.fr, m.fc) == WP ==> m.tr < m.fr
    ensures At(pos.sq, m.fr, m.fc) == BP ==> m.tr > m.fr
  {
  }

  // ----- The window -----

  /** The fifty-move mark is the index after the last irreversible move. */
  lemma {:induction false} PotentialOverWindow(keys: Keys, r: Run, i: nat)
    requires KeysOk(keys) && LegalRun(r) && i <= Length(r)
    ensures i < Recorded(keys, r).fifty ==> Potential(PosAt(r, i)) > Potential(End(r))
    ensures i >= Recorded(keys, r).fifty ==> Potential(PosAt(r, i)) == Potential(End(r))
  {
    hide WellFormed, Legal, Potential, PseudoLegal, Irreversible, Recorded, End, LegalRun;
    if i < Length(r) {
      LastMove(r);
      LastRecord(keys, r);
      PotentialFalls(End(r.prev), r.m);
      PotentialOverWindow(keys, r.prev, i);
    }
  }

  lemma LastMove(r: Run)
    requires LegalRun(r) && r.Step?
    ensures LegalRun(r.prev) && WellFormed(End(r.prev)) && PseudoLegal(End(r.prev), r.m) && Appliable(End(r.prev), r.m)
    ensures Hashable(End(r.prev)) && On(r.m.fr, r.m.fc) && Packable(r.m) && Decode(Encode(r.m)) == r.m
    ensures End(r) == Apply(End(r.prev), r.m)
  {
    LegalAppliable(End(r.prev), r.m);
    hide WellFormed, PseudoLegal, Apply, Encode, Decode;
  }

  lemma LastRecord(keys: Keys, r: Run)
    requires KeysOk(keys) && LegalRun(r) && r.Step? && LegalRun(r.prev)
    requires Hashable(End(r.prev)) && On(r.m.fr, r.m.fc) && Packable(r.m) && Decode(Encode(r.m)) == r.m
    ensures Recorded(keys, r).fifty == if Irreversible(End(r.prev), r.m) then Length(r) else Recorded(keys, r.prev).fifty
    ensures Recorded(keys, r).past == Recorded(keys, r.prev).past + [Record(keys, Recorded(keys, r.prev), Encode(r.m))]
  {
    hide WellFormed, PseudoLegal, Irreversible, Apply, Encode, Decode;
  }

  /** Each history record holds the key of the position it was made in. */
  lemma {:induction false} RecordedKeys(keys: Keys, r: Run, i: nat)
    requires KeysOk(keys) && LegalRun(r) && i < Length(r)
    ensures Hashable(PosAt(r, i))
    ensures Recorded(keys, r).past[i].posKey == KeyOf(keys, PosAt(r, i))
  {
    hide WellFormed, Legal, Potential, PseudoLegal, Irreversible, Apply, Encode, Decode, Recorded, End, LegalRun, Hashable, KeyOf;
    WellFormedHashable(PosAt(r, i));
    LastMove(r);
    LastRecord(keys, r);
    if i < Length(r) - 1 {
      RecordedKeys(keys, r.prev, i);
    }
  }

  /** Hash collisions aside: a recorded position with the current key is the current position. */
  ghost predicate NoCollision(keys: Keys, r: Run)
    requires KeysOk(keys) && LegalRun(r)
  {
    && Hashable(End(r))
    && forall i :: 0 <= i < Length(r) ==>
         (Recorded(keys, r).past[i].posKey == KeyOf(keys, End(r)) ==> PosAt(r, i) == End(r))
  }

  /** Does the i-th recorded position repeat the current one? */
  ghost predicate Occurs(r: Run, i: nat)
    requires LegalRun(r)
  {
    i < Length(r) && PosAt(r, i) == End(r)
  }

  /** Main result: no position before the fifty-move mark can come back, so the window misses nothing. */
  lemma {:induction false} WindowIsEnough(keys: Keys, r: Run, from: nat)
    requires KeysOk(keys) && LegalRun(r) && NoCollision(keys, r) && from <= Recorded(keys, r).fifty
    ensures var g := Recorded(keys, r);
            Repeats(g.past, from, KeyOf(keys, g.pos)) == Repeats(g.past, g.fifty, KeyOf(keys, g.pos))
    decreases Length(r) - from
  {
    hide LegalRun, WellFormed, Potential, KeyOf, Hashable, Recorded, End, PosAt;
    var g := Recorded(keys, r);
    if from < g.fifty {
      PotentialOverWindow(keys, r, from);
      WindowIsEnough(keys, r, from + 1);
    }
  }

  /** Counting keys from an index on: at least one, at least two. */
  lemma {:induction false} RepeatsMeaning(past: seq<History>, from: nat, k: bv32)
    requires from <= |past|
    ensures Repeats(past, from, k) >= 1 <==> exists i :: from <= i < |past| && past[i].posKey == k
    ensures Repeats(past, from, k) >= 2 <==> exists i, j :: from <= i < j < |past| && past[i].posKey == k && past[j].posKey == k
    decreases |past| - from
  {
    if from < |past| {
      RepeatsMeaning(past, from + 1, k);
      if past[from].posKey == k && Repeats(past, from + 1, k) >= 1 {
        var j :| from + 1 <= j < |past| && past[j].posKey == k;
        assert past[from].posKey == k && past[j].posKey == k;
      }
    }
  }

  /** Main result: the repetition test of the search holds iff the position, with its en passant square, has occurred at
      least twice before in the whole game. Article 9.2 of the Laws of Chess counts more: see OccursIff. */
  lemma RepetitionIsThirdOccurrence(keys: Keys, r: Run)
    requires KeysOk(keys) && LegalRun(r) && NoCollision(keys, r)
    ensures var g := Recorded(keys, r);
            Repeats(g.past, g.fifty, KeyOf(keys, g.pos)) >= 2
            <==> exists i: nat, j: nat :: i < j && Occurs(r, i) && Occurs(r, j)
  {
    hide LegalRun, WellFormed, KeyOf, Hashable, Recorded, End, PosAt, Repeats;
    var g := Recorded(keys, r);
    var k := KeyOf(keys, g.pos);
    WindowIsEnough(keys, r, 0);
    RepeatsMeaning(g.past, 0, k);
    forall i | 0 <= i < Length(r)
      ensures g.past[i].posKey == k <==> Occurs(r, i)
    {
      RecordedKeys(keys, r, i);
    }
    if Repeats(g.past, 0, k) >= 2 {
      var i, j :| 0 <= i < j < |g.past| && g.past[i].posKey == k && g.past[j].posKey == k;
      assert Occurs(r, i) && Occurs(r, j);
    }
    if i: nat, j: nat :| i < j && Occurs(r, i) && Occurs(r, j) {
      assert g.past[i].posKey == k && g.past[j].posKey == k;
    }
  }

  // ----- When the search calls a draw -----

  function MoveAt(r: Run, i: nat): Move
    requires i < Length(r)
  {
    if i == Length(r) - 1 then r.m else MoveAt(r.prev, i)
  }

  /** The move after the first i moves neither lands on a piece nor moves a pawn. */
  ghost predicate Quiet(r: Run, i: nat)
    requires LegalRun(r) && i < Length(r)
  {
    var sq, m := PosAt(r, i).sq, MoveAt(r, i);
    On(m.fr, m.fc) && On(m.tr, m.tc) && At(sq, m.tr, m.tc) == NOPIECE && !IsPawn(At(sq, m.fr, m.fc))
  }

  lemma LastQuiet(r: Run)
    requires LegalRun(r) && r.Step? && LegalRun(r.prev) && On(r.m.fr, r.m.fc)
    ensures Quiet(r, Length(r) - 1) <==> !Irreversible(End(r.prev), r.m)
  {
    hide WellFormed, InCheck, End, LegalRun, PawnRule, CastleRule;
    LastMove(r);
    assert PosAt(r, Length(r) - 1) == End(r.prev);
    assert r.m == MoveOf(End(r.prev), r.m.fr, r.m.fc, r.m.tr, r.m.tc, r.m.prom);
  }

  /** The fifty-move mark is at most i exactly if all moves from there on are quiet. */
  lemma {:induction false} MarkMeans(keys: Keys, r: Run, i: nat)
    requires KeysOk(keys) && LegalRun(r) && i <= Length(r)
    ensures Recorded(keys, r).fifty <= i <==> forall j: nat :: i <= j < Length(r) ==> Quiet(r, j)
  {
    hide WellFormed, Legal, PseudoLegal, Irreversible, Recorded, End, LegalRun, PosAt, Quiet, MoveAt, Appliable, Apply,
         Hashable, Packable, Encode, Decode, Record;
    if i < Length(r) {
      LastMove(r);
      LastRecord(keys, r);
      LastQuiet(r);
      MarkMeans(keys, r.prev, i);
      SameEarlier(r);
      assert Quiet(r, Length(r) - 1) || Recorded(keys, r).fifty == Length(r);
    }
  }

  lemma SameEarlier(r: Run)
    requires LegalRun(r) && r.Step? && LegalRun(r.prev)
    ensures forall j: nat :: j < Length(r.prev) ==> (Quiet(r, j) <==> Quiet(r.prev, j))
  {
    hide WellFormed, LegalRun, End;
  }

  /** Main result: the search calls a draw exactly if the position, with its en passant square, has occurred at least twice
      before in the whole game, or if none of the last hundred moves has captured or moved a pawn. */
  lemma DrawnExactly(keys: Keys, r: Run)
    requires KeysOk(keys) && LegalRun(r) && NoCollision(keys, r)
    ensures Hashable(End(r))
    ensures Drawn(keys, Recorded(keys, r))
       <==> || (exists i: nat, j: nat :: i < j && Occurs(r, i) && Occurs(r, j))
            || (Length(r) >= 100 && forall j: nat :: Length(r) - 100 <= j < Length(r) ==> Quiet(r, j))
  {
    hide LegalRun, WellFormed, KeyOf, Hashable, Recorded, End, PosAt, Repeats, Quiet, Occurs;
    RepetitionIsThirdOccurrence(keys, r);
    if Length(r) >= 100 {
      MarkMeans(keys, r, Length(r) - 100);
    }
  }

  // ----- The rule of the game -----

  /** Article 9.2: the same side to move, the same pieces on the same squares and the same possible moves. */
  ghost predicate SameByRules(p: Pos, q: Pos)
    requires WellFormed(p) && WellFormed(q)
  {
    p.sq == q.sq && p.side == q.side && p.castle == q.castle && LegalMoves(p) == LegalMoves(q)
  }

  ghost predicate TakesEnPassant(p: Pos)
    requires WellFormed(p)
  {
    exists m :: Legal(p, m) && m.ep
  }

  /** An en passant square tells positions apart by the rules exactly if a legal move captures there. */
  lemma SameByRulesIff(p: Pos, q: Pos)
    requires WellFormed(p) && WellFormed(q) && p.sq == q.sq && p.side == q.side && p.castle == q.castle
    ensures SameByRules(p, q) <==> p == q || (!TakesEnPassant(p) && !TakesEnPassant(q))
  {
    hide WellFormed, Legal;
    forall m
      ensures Legal(p, m) && m.ep && Legal(q, m) ==> p == q
      ensures Legal(p, m) && !m.ep && !TakesEnPassant(q) ==> Legal(q, m)
      ensures Legal(q, m) && !m.ep && !TakesEnPassant(p) ==> Legal(p, m)
    {
      SameMove(p, q, m);
      SameMove(q, p, m);
    }
  }

  /** Apart from en passant captures the legal moves do not depend on the en passant square. */
  lemma SameMove(p: Pos, q: Pos, m: Move)
    requires WellFormed(p) && WellFormed(q) && p.sq == q.sq && p.side == q.side && p.castle == q.castle
    ensures Legal(p, m) && m.ep && Legal(q, m) ==> p == q
    ensures Legal(p, m) && !m.ep ==> Legal(q, m)
  {
    hide InCheck, OneKingEach, Room, NoEdgePawns, CastleTruthful, Attacked;
  }

  /** By the rules, does the position after i moves repeat the current one? */
  ghost predicate OccursByRules(r: Run, i: nat)
    requires LegalRun(r)
  {
    i < Length(r) && SameByRules(PosAt(r, i), End(r))
  }

  /** Where the two counts differ: only positions in which nothing can be captured en passant are missed, and exactly
      those whose en passant square is another one. */
  lemma OccursIff(r: Run, i: nat)
    requires LegalRun(r) && i < Length(r)
    ensures var p, q := PosAt(r, i), End(r);
            && (Occurs(r, i) <==> OccursByRules(r, i) && p.epR == q.epR && p.epC == q.epC)
            && (OccursByRules(r, i) && !Occurs(r, i) ==> !TakesEnPassant(p) && !TakesEnPassant(q))
  {
    hide LegalRun, WellFormed, End, PosAt, TakesEnPassant;
    var p, q := PosAt(r, i), End(r);
    if p.sq == q.sq && p.side == q.side && p.castle == q.castle {
      SameByRulesIff(p, q);
    }
  }

  // ----- A third occurrence that the search does not see -----

  /** Two kings on the last row and a white pawn that has, or has not, just advanced two squares. */
  ghost function Shuffle(w: int, b: int, side: int, ep: bool): (pos: Pos)
    requires 0 <= w <= 1 && 6 <= b <= 7
    ensures Shape(pos.sq) && pos.side == side && pos.castle == 0
    ensures pos.epR == (if ep then 5 else OFFBOARD) && pos.epC == (if ep then 3 else OFFBOARD)
    ensures forall r, c :: On(r, c) ==>
              At(pos.sq, r, c) == if r == 0 && c == w then WK else if r == 0 && c == b then BK
                                  else if r == 4 && c == 3 then WP else NOPIECE
  {
    Pos(Put(Put(Put(EMPTY_GRID, 0, w, WK), 0, b, BK), 4, 3, WP), side, 0,
        if ep then 5 else OFFBOARD, if ep then 3 else OFFBOARD)
  }

  lemma ShuffleCounts(w: int, b: int, side: int, ep: bool, p: int)
    requires 0 <= w <= 1 && 6 <= b <= 7 && IsPiece(p)
    ensures Count(Shuffle(w, b, side, ep).sq, p) == if p == WK || p == BK || p == WP then 1 else 0
  {
    Boards.EmptyIndexed();
    hide Count;
    CountPut(EMPTY_GRID, 0, w, WK, p);
    CountPut(Put(EMPTY_GRID, 0, w, WK), 0, b, BK, p);
    CountPut(Put(Put(EMPTY_GRID, 0, w, WK), 0, b, BK), 4, 3, WP, p);
  }

  lemma ShuffleUnchecked(w: int, b: int, side: int, ep: bool, king: int)
    requires 0 <= w <= 1 && 6 <= b <= 7 && IsSide(king)
    ensures !InCheck(Shuffle(w, b, side, ep).sq, king) && NoEdgePawns(Shuffle(w, b, side, ep).sq)
  {
    hide Count;
  }

  lemma ShuffleWellFormed(w: int, b: int, side: int, ep: bool)
    requires 0 <= w <= 1 && 6 <= b <= 7 && IsSide(side) && (ep ==> side == BLACK)
    ensures WellFormed(Shuffle(w, b, side, ep)) && !TakesEnPassant(Shuffle(w, b, side, ep))
  {
    hide Count, InCheck, Shuffle;
    var pos := Shuffle(w, b, side, ep);
    ShuffleUnchecked(w, b, side, ep, Other(side));
    forall p | IsPiece(p)
      ensures Count(pos.sq, p) == if p == WK || p == BK || p == WP then 1 else 0
    {
      ShuffleCounts(w, b, side, ep, p);
    }
  }

  /** Where n moves have brought the cycle of four: each king steps aside and back. */
  function Phase(n: nat): (k: nat)
    ensures k < 4
  {
    if n == 0 || Phase(n - 1) == 3 then 0 else Phase(n - 1) + 1
  }

  lemma {:induction false} PhaseIs(n: nat)
    ensures Phase(n) == n % 4
  {
    if n > 0 {
      PhaseIs(n - 1);
    }
  }

  function WhiteKing(n: nat): (w: int)
    ensures 0 <= w <= 1
  {
    if Phase(n) < 2 then 0 else 1
  }

  function BlackKing(n: nat): (b: int)
    ensures 6 <= b <= 7
  {
    if Phase(n) == 0 || Phase(n) == 3 then 7 else 6
  }

  function Mover(n: nat): int { if Phase(n) == 0 || Phase(n) == 2 then BLACK else WHITE }

  ghost function ShuffleAt(n: nat): Pos { Shuffle(WhiteKing(n), BlackKing(n), Mover(n), n == 0) }

  ghost function ShuffleMove(n: nat): Move {
    if Mover(n) == BLACK then MoveOf(ShuffleAt(n), 0, BlackKing(n), 0, BlackKing(n + 1), NOPIECE)
    else MoveOf(ShuffleAt(n), 0, WhiteKing(n), 0, WhiteKing(n + 1), NOPIECE)
  }

  ghost function ShuffleRun(n: nat): Run {
    if n == 0 then Start(ShuffleAt(0)) else Step(ShuffleRun(n - 1), ShuffleMove(n - 1))
  }

  /** A king steps to the neighbouring square of its row. */
  lemma KingSteps(w: int, b: int, side: int, ep: bool, fc: int, tc: int)
    requires 0 <= w <= 1 && 6 <= b <= 7 && IsSide(side) && (ep ==> side == BLACK)
    requires if side == BLACK then fc == b && tc == 13 - b else fc == w && tc == 1 - w
    ensures var pos := Shuffle(w, b, side, ep);
            var m := MoveOf(pos, 0, fc, 0, tc, NOPIECE);
            && m == Move(0, fc, 0, tc, NOPIECE, false, false, NOPIECE, false) && At(pos.sq, 0, fc) == KingOf(side)
            && PseudoLegal(pos, m) && Appliable(pos, m)
  {
    hide Shuffle, CastleRule;
    assert Attacks(Shuffle(w, b, side, ep).sq, KingOf(side), 0, fc, 0, tc);
  }

  lemma ShuffleNext(w: int, b: int, side: int, ep: bool, w': int, b': int, m: Move)
    requires 0 <= w <= 1 && 6 <= b <= 7 && 0 <= w' <= 1 && 6 <= b' <= 7 && IsSide(side)
    requires if side == BLACK then w' == w && b' == 13 - b else w' == 1 - w && b' == b
    requires m == if side == BLACK then Move(0, b, 0, b', NOPIECE, false, false, NOPIECE, false)
                  else Move(0, w, 0, w', NOPIECE, false, false, NOPIECE, false)
    ensures Appliable(Shuffle(w, b, side, ep), m)
    ensures Apply(Shuffle(w, b, side, ep), m) == Shuffle(w', b', Other(side), false)
  {
    hide Shuffle, CastleAfter;
    var pos, next := Shuffle(w, b, side, ep), Shuffle(w', b', Other(side), false);
    NoRightsLeft(pos, m);
    SameGrid(SquaresAfter(pos, m), next.sq);
  }

  lemma NoRightsLeft(pos: Pos, m: Move)
    requires Appliable(pos, m) && pos.castle == 0
    ensures CastleAfter(pos, m) == 0
  {
  }

  lemma ColumnsNext(n: nat)
    ensures IsSide(Mover(n)) && Mover(n + 1) == Other(Mover(n)) && (n == 0 ==> Mover(n) == BLACK)
    ensures if Mover(n) == BLACK then WhiteKing(n + 1) == WhiteKing(n) && BlackKing(n + 1) == 13 - BlackKing(n)
            else WhiteKing(n + 1) == 1 - WhiteKing(n) && BlackKing(n + 1) == BlackKing(n)
  {
  }

  lemma ShuffleStep(n: nat)
    ensures WellFormed(ShuffleAt(n)) && Legal(ShuffleAt(n), ShuffleMove(n))
    ensures Apply(ShuffleAt(n), ShuffleMove(n)) == ShuffleAt(n + 1)
  {
    hide WellFormed, Shuffle, PseudoLegal, InCheck, Appliable, Apply, WhiteKing, BlackKing, Mover, MoveOf;
    var w, b, side, w', b' := WhiteKing(n), BlackKing(n), Mover(n), WhiteKing(n + 1), BlackKing(n + 1);
    ColumnsNext(n);
    ShuffleWellFormed(w, b, side, n == 0);
    ShuffleUnchecked(w', b', Other(side), false, side);
    KingSteps(w, b, side, n == 0, if side == BLACK then b else w, if side == BLACK then b' else w');
    ShuffleNext(w, b, side, n == 0, w', b', ShuffleMove(n));
  }

  lemma {:induction false} ShuffleRunFacts(n: nat)
    ensures LegalRun(ShuffleRun(n)) && Length(ShuffleRun(n)) == n && End(ShuffleRun(n)) == ShuffleAt(n)
    ensures forall i: nat :: i <= n ==> PosAt(ShuffleRun(n), i) == ShuffleAt(i)
  {
    hide WellFormed, Legal, Apply, ShuffleAt, ShuffleMove;
    ShuffleStep(0);
    if n > 0 {
      ShuffleRunFacts(n - 1);
      ShuffleStep(n - 1);
    }
  }

  /** When the kings are back, the rules have seen the position after every four moves; the search has missed the first. */
  lemma ShuffleOccurs(n: nat, i: nat)
    requires 0 < n && n % 4 == 0 && i < n && LegalRun(ShuffleRun(n)) && i < Length(ShuffleRun(n))
    ensures OccursByRules(ShuffleRun(n), i) <==> i % 4 == 0
    ensures Occurs(ShuffleRun(n), i) <==> i % 4 == 0 && i != 0
  {
    hide WellFormed, LegalRun, End, PosAt, ShuffleRun, TakesEnPassant, Shuffle, LegalMoves, Length, Phase;
    ShuffleRunFacts(n);
    PhaseIs(i);
    PhaseIs(n);
    var p, q := ShuffleAt(i), ShuffleAt(n);
    ShuffleWellFormed(WhiteKing(i), BlackKing(i), Mover(i), i == 0);
    ShuffleWellFormed(WhiteKing(n), BlackKing(n), Mover(n), false);
    if i % 4 == 0 {
      SameGrid(p.sq, q.sq);
      SameByRulesIff(p, q);
    } else {
      assert p.side != q.side || At(p.sq, 0, 0) != At(q.sq, 0, 0);
    }
  }

  /** The exception is real: the kings step aside and back, and the search sees the third occurrence four moves late. */
  lemma ThirdTimeUnseen(keys: Keys, n: nat)
    requires KeysOk(keys) && 0 < n && n % 4 == 0 && LegalRun(ShuffleRun(n)) && NoCollision(keys, ShuffleRun(n))
    ensures (exists i: nat, j: nat :: i < j && OccursByRules(ShuffleRun(n), i) && OccursByRules(ShuffleRun(n), j)) <==> n >= 8
    ensures var g := Recorded(keys, ShuffleRun(n));
            Repeats(g.past, g.fifty, KeyOf(keys, g.pos)) >= 2 <==> n >= 12
  {
    hide WellFormed, LegalRun, KeyOf, KeysOk, Recorded, End, PosAt, ShuffleRun, SameByRules, Repeats, NoCollision, Length;
    var r := ShuffleRun(n);
    ShuffleRunFacts(n);
    RepetitionIsThirdOccurrence(keys, r);
    forall i: nat | i < n
      ensures OccursByRules(r, i) <==> i % 4 == 0
      ensures Occurs(r, i) <==> i % 4 == 0 && i != 0
    {
      ShuffleOccurs(n, i);
    }
    if n >= 8 {
      assert OccursByRules(r, 0) && OccursByRules(r, 4);
    }
    if n >= 12 {
      assert Occurs(r, 4) && Occurs(r, 8);
    }
  }
}
