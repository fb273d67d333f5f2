/** The game tree as values: legal moves, lines, and the unpruned negamax value of a position. */
module Trees {
  import opened Pieces
  import opened Squares
  import opened Rules
  import opened Zobrist
  import opened Invariant
  import opened Games
  import opened Boards
  import opened Evaluation

  // ----- Legal moves -----

  ghost function Candidates(pos: Pos): set<Move>
    requires Shape(pos.sq)
  {
    set fr, fc, tr, tc, prom | 0 <= fr < 8 && 0 <= fc < 8 && 0 <= tr < 8 && 0 <= tc < 8 && 0 <= prom <= 12
      :: MoveOf(pos, fr, fc, tr, tc, prom)
  }

  ghost function LegalMoves(pos: Pos): (s: set<Move>)
    requires WellFormed(pos)
    ensures forall m :: m in s <==> Legal(pos, m)
  {
    assert forall m :: Legal(pos, m) ==> m in Candidates(pos) by {
      forall m | Legal(pos, m)
        ensures m in Candidates(pos)
      {
        IsCandidate(pos, m);
      }
    }
    set m | m in Candidates(pos) && Legal(pos, m)
  }

  lemma IsCandidate(pos: Pos, m: Move)
    requires WellFormed(pos) && Legal(pos, m)
    ensures m in Candidates(pos)
  {
    assert m == MoveOf(pos, m.fr, m.fc, m.tr, m.tc, m.prom);
    MoveFacts(pos, m);
  }

  ghost function LegalCaptures(pos: Pos): (s: set<Move>)
    requires WellFormed(pos)
    ensures forall m :: m in s <==> Legal(pos, m) && IsCapture(m)
  {
    set m | m in LegalMoves(pos) && IsCapture(m)
  }

  lemma LegalAppliable(pos: Pos, m: Move)
    requires WellFormed(pos) && Legal(pos, m)
    ensures Packable(m) && Decode(Encode(m)) == m && Appliable(pos, m)
    ensures WellFormed(Apply(pos, m)) && Hashable(pos)
  {
    MoveFacts(pos, m);
    DecodeEncode(m);
    LegalKeepsWellFormed(pos, m);
  }

  /** The game after a legal move. */
  ghost function Next(keys: Keys, g: Game, m: Move): (g': Game)
    requires KeysOk(keys) && WellFormed(g.pos) && Legal(g.pos, m)
    ensures WellFormed(g'.pos) && g'.pos == Apply(g.pos, m)
    ensures |g'.past| == |g.past| + 1
    ensures 0 <= g.fifty <= |g.past| ==> 0 <= g'.fifty <= |g'.past|
  {
    LegalAppliable(g.pos, m);
    Play(keys, g, Encode(m))
  }

  // ----- Captures shrink the board -----

  const ONE_PIECE: Weight := (r: int, c: int, p: int) => if IsPiece(p) then 1 else 0

  ghost function PieceCount(sq: Grid): nat
    requires Shape(sq)
  {
    PieceCountNonNegative(sq);
    Sum(ONE_PIECE, sq)
  }

  lemma PieceCountNonNegative(sq: Grid)
    requires Shape(sq)
    ensures Sum(ONE_PIECE, sq) >= 0
  {
    SumBounds(NOTHING, sq, ONE_PIECE, sq);
    NothingSums(sq);
  }

  /** A fold after a move, square by square. */
  lemma SumAfter(w: Weight, pos: Pos, m: Move)
    requires WellFormed(pos) && PseudoLegal(pos, m) && w(m.tr, m.tc, NOPIECE) == 0 && w(m.fr, m.fc, NOPIECE) == 0
    ensures Appliable(pos, m)
    ensures Sum(w, SquaresAfter(pos, m))
         == Sum(w, pos.sq) - w(m.fr, m.fc, At(pos.sq, m.fr, m.fc)) - w(m.tr, m.tc, m.cap) + w(m.tr, m.tc, Placed(pos, m))
            + (if m.ep then w(m.fr, m.tc, NOPIECE) - w(m.fr, m.tc, PawnOf(Other(pos.side))) else 0)
            + (if m.castle then
                 w(m.fr, RookTo(m.tc), RookOf(pos.side)) - w(m.fr, RookTo(m.tc), NOPIECE)
                 + w(m.fr, RookFrom(m.tc), NOPIECE) - w(m.fr, RookFrom(m.tc), RookOf(pos.side))
               else 0)
  {
    MoveFacts(pos, m);
    SideEffectsHere(pos, m);
    hide PseudoLegal, WellFormed, Sum;
    if m.ep {
      SumPut(w, pos.sq, EpVictimRow(pos.side, m.tr), m.tc, NOPIECE);
    } else if m.castle {
      var home := HomeRow(pos.side);
      SumPut(w, pos.sq, home, RookFrom(m.tc), NOPIECE);
      SumPut(w, Put(pos.sq, home, RookFrom(m.tc), NOPIECE), home, RookTo(m.tc), RookOf(pos.side));
    }
    var side := SideEffects(pos, m);
    SumPut(w, side, m.fr, m.fc, NOPIECE);
    SumPut(w, Put(side, m.fr, m.fc, NOPIECE), m.tr, m.tc, Placed(pos, m));
  }

  /** Moves never add a piece, and exactly captures remove one. */
  lemma CaptureShrinks(pos: Pos, m: Move)
    requires WellFormed(pos) && PseudoLegal(pos, m)
    ensures Appliable(pos, m)
    ensures PieceCount(SquaresAfter(pos, m)) == PieceCount(pos.sq) - if IsCapture(m) then 1 else 0
  {
    MoveFacts(pos, m);
    MoverPresent(pos, m);
    hide PseudoLegal, WellFormed, Sum;
    SumAfter(ONE_PIECE, pos, m);
  }

  // ----- Maximum of a finite set -----

  lemma Inhabited(s: set<int>)
    ensures s != {} ==> exists y :: y in s
  {
    if !exists y :: y in s {
      assert s == {};
    }
  }

  ghost function MaxOf(s: set<int>): (x: int)
    requires s != {}
    ensures x in s && forall y :: y in s ==> y <= x
  {
    Inhabited(s);
    var y :| y in s;
    if s == {y} then y
    else
      var z := MaxOf(s - {y});
      assert forall u :: u in s ==> u == y || u in s - {y};
      if z < y then y else z
  }

  const ONE: Weight := (r: int, c: int, p: int) => 1

  lemma {:induction false} RowOfOnes(row: seq<int>, r: int, n: nat)
    requires n <= |row|
    ensures RowSum(ONE, row, r, n) == n
  {
    if n > 0 {
      RowOfOnes(row, r, n - 1);
    }
  }

  lemma {:induction false} RowsOfOnes(sq: Grid, n: nat)
    requires Shape(sq) && n <= 8
    ensures RowsSum(ONE, sq, n) == 8 * n
  {
    if n > 0 {
      RowsOfOnes(sq, n - 1);
      RowOfOnes(sq[n - 1], n - 1, 8);
    }
  }

  lemma AtMostOneEach(sq: Grid)
    requires Shape(sq)
    ensures PieceCount(sq) <= 64
  {
    SumBounds(ONE_PIECE, sq, ONE, sq);
    RowsOfOnes(sq, 8);
  }

  // ----- The plain values that the searches must compute -----

  /** Threefold repetition inside the fifty-move window, or fifty moves without capture or pawn move. */
  ghost predicate Drawn(keys: Keys, g: Game)
    requires KeysOk(keys) && Hashable(g.pos) && 0 <= g.fifty <= |g.past|
  {
    Repeats(g.past, g.fifty, KeyOf(keys, g.pos)) >= 2 || |g.past| - g.fifty >= 100
  }

  ghost predicate Live(keys: Keys, g: Game) { KeysOk(keys) && WellFormed(g.pos) && 0 <= g.fifty <= |g.past| }

  /** Quiescence: stand pat or take, with no cut-offs. */
  ghost function Quiesce(keys: Keys, g: Game): int
    requires Live(keys, g)
    decreases PieceCount(g.pos.sq), 2
  {
    WellFormedHashable(g.pos);
    if Drawn(keys, g) then 0 else MaxOf({StaticEval(g.pos)} + QuiesceReplies(keys, g))
  }

  ghost function QuiesceReplies(keys: Keys, g: Game): (s: set<int>)
    requires Live(keys, g)
    ensures forall m :: Legal(g.pos, m) && IsCapture(m) ==> QuiesceChild(keys, g, m) in s
    ensures forall x :: x in s ==> exists m :: Legal(g.pos, m) && IsCapture(m) && QuiesceChild(keys, g, m) == x
    decreases PieceCount(g.pos.sq), 1
  {
    set m | m in LegalCaptures(g.pos) :: QuiesceChild(keys, g, m)
  }

  ghost function QuiesceChild(keys: Keys, g: Game, m: Move): int
    requires Live(keys, g) && Legal(g.pos, m) && IsCapture(m)
    decreases PieceCount(g.pos.sq), 0
  {
    CaptureShrinks(g.pos, m);
    -Quiesce(keys, Next(keys, g, m))
  }

  const MAXDEPTH: int := 32

  ghost function SomeMove(s: set<Move>): (m: Move)
    requires s != {}
    ensures m in s
  {
    var m :| m in s;
    m
  }

  /** Plain negamax over all legal moves, with the draw rules, mates and quiescence leaves of the search. */
  ghost function Negamax(keys: Keys, g: Game, depth: int): int
    requires Live(keys, g)
    decreases if depth < 0 then 0 else depth, 2
  {
    WellFormedHashable(g.pos);
    if depth <= 0 || depth >= MAXDEPTH then Quiesce(keys, g)
    else if Drawn(keys, g) then 0
    else if LegalMoves(g.pos) == {} then (if InCheck(g.pos.sq, g.pos.side) then -MATE - depth else 0)
    else
      assert NegamaxChild(keys, g, SomeMove(LegalMoves(g.pos)), depth) in NegamaxReplies(keys, g, depth);
      MaxOf(NegamaxReplies(keys, g, depth))
  }

  ghost function NegamaxReplies(keys: Keys, g: Game, depth: int): (s: set<int>)
    requires Live(keys, g) && depth > 0
    ensures forall m :: Legal(g.pos, m) ==> NegamaxChild(keys, g, m, depth) in s
    ensures forall x :: x in s ==> exists m :: Legal(g.pos, m) && NegamaxChild(keys, g, m, depth) == x
    decreases depth, 1
  {
    set m | m in LegalMoves(g.pos) :: NegamaxChild(keys, g, m, depth)
  }

  /** The value of a move: minus the value of the position it leads to, one ply shallower. */
  ghost function NegamaxChild(keys: Keys, g: Game, m: Move, depth: int): int
    requires Live(keys, g) && Legal(g.pos, m) && depth > 0
    decreases depth, 0
  {
    -Negamax(keys, Next(keys, g, m), depth - 1)
  }

  /** Negamax with a legal move is the best child value. */
  lemma NegamaxIsBest(keys: Keys, g: Game, depth: int) returns (best: Move)
    requires Live(keys, g) && 0 < depth < MAXDEPTH && Hashable(g.pos) && !Drawn(keys, g) && LegalMoves(g.pos) != {}
    ensures Legal(g.pos, best) && NegamaxChild(keys, g, best, depth) == Negamax(keys, g, depth)
    ensures forall m :: Legal(g.pos, m) ==> NegamaxChild(keys, g, m, depth) <= Negamax(keys, g, depth)
  {
    hide NegamaxChild, NegamaxReplies, Drawn, Legal, InCheck, WellFormed;
    assert Negamax(keys, g, depth) in NegamaxReplies(keys, g, depth);
    best :| Legal(g.pos, best) && NegamaxChild(keys, g, best, depth) == Negamax(keys, g, depth);
  }

  /** Quiescence is the better of standing pat and the best capture. */
  lemma QuiesceIsBest(keys: Keys, g: Game)
    requires Live(keys, g) && Hashable(g.pos) && !Drawn(keys, g)
    ensures StaticEval(g.pos) <= Quiesce(keys, g)
    ensures forall m :: Legal(g.pos, m) && IsCapture(m) ==> QuiesceChild(keys, g, m) <= Quiesce(keys, g)
    ensures Quiesce(keys, g) == StaticEval(g.pos)
         || exists m :: Legal(g.pos, m) && IsCapture(m) && QuiesceChild(keys, g, m) == Quiesce(keys, g)
  {
    hide QuiesceChild, QuiesceReplies, Drawn, Legal, StaticEval, IsCapture, WellFormed;
    var all := {StaticEval(g.pos)} + QuiesceReplies(keys, g);
    assert Quiesce(keys, g) == MaxOf(all) && StaticEval(g.pos) in all;
    forall m | Legal(g.pos, m) && IsCapture(m)
      ensures QuiesceChild(keys, g, m) <= Quiesce(keys, g)
    {
      assert QuiesceChild(keys, g, m) in all;
    }
  }

  // ----- Bounds -----

  lemma WellFormedFullSets(pos: Pos)
    requires WellFormed(pos)
    ensures FullSets(pos.sq)
  {
    hide Sum, InCheck, NoEdgePawns, CastleTruthful, EpTruthful;
    forall p | IsPiece(p)
      ensures 0 <= Count(pos.sq, p) <= if IsKing(p) then 1 else 10
    {
      AtMostTen(pos.sq, p);
    }
  }

  lemma EdgeValues(keys: Keys, g: Game, depth: int)
    requires Live(keys, g) && Hashable(g.pos)
    ensures Drawn(keys, g) ==> Quiesce(keys, g) == 0
    ensures depth <= 0 || depth >= MAXDEPTH ==> Negamax(keys, g, depth) == Quiesce(keys, g)
    ensures 0 < depth < MAXDEPTH && Drawn(keys, g) ==> Negamax(keys, g, depth) == 0
    ensures 0 < depth < MAXDEPTH && !Drawn(keys, g) && LegalMoves(g.pos) == {} ==>
              Negamax(keys, g, depth) == if InCheck(g.pos.sq, g.pos.side) then -MATE - depth else 0
  {
    hide Legal, Drawn, InCheck, WellFormed;
  }

  lemma ChildValues(keys: Keys, g: Game, m: Move, depth: int)
    requires Live(keys, g) && Legal(g.pos, m)
    ensures Live(keys, Next(keys, g, m))
    ensures depth > 0 ==> NegamaxChild(keys, g, m, depth) == -Negamax(keys, Next(keys, g, m), depth - 1)
    ensures IsCapture(m) ==> QuiesceChild(keys, g, m) == -Quiesce(keys, Next(keys, g, m))
    ensures IsCapture(m) ==> PieceCount(Next(keys, g, m).pos.sq) < PieceCount(g.pos.sq)
  {
    hide WellFormed, PseudoLegal, PieceCount, Negamax, Quiesce, IsCapture, Play;
    CaptureShrinks(g.pos, m);
  }

  lemma {:induction false} QuiesceBounded(keys: Keys, g: Game)
    requires Live(keys, g)
    ensures -MATE < Quiesce(keys, g) < MATE
    decreases PieceCount(g.pos.sq)
  {
    hide WellFormed, Legal, Drawn, PieceCount, Hashable, FullSets, StaticEval, Quiesce, QuiesceChild, Next, IsCapture;
    WellFormedHashable(g.pos);
    WellShaped(g.pos);
    WellFormedFullSets(g.pos);
    EvaluationBelowMate(g.pos);
    EdgeValues(keys, g, 0);
    if !Drawn(keys, g) {
      QuiesceIsBest(keys, g);
      if Quiesce(keys, g) != StaticEval(g.pos) {
        var m :| Legal(g.pos, m) && IsCapture(m) && QuiesceChild(keys, g, m) == Quiesce(keys, g);
        ChildValues(keys, g, m, 0);
        QuiesceBounded(keys, Next(keys, g, m));
      }
    }
  }

  /** Mate scores of a depth below MAXDEPTH stay inside the infinite window of the root. */
  lemma {:induction false} NegamaxBounded(keys: Keys, g: Game, depth: int)
    requires Live(keys, g)
    ensures -MATE - MAXDEPTH < Negamax(keys, g, depth) < MATE + MAXDEPTH
    decreases if depth < 0 then 0 else depth
  {
    hide WellFormed, Legal, Drawn, PieceCount, Hashable, Quiesce, Negamax, NegamaxChild, Next, InCheck;
    WellFormedHashable(g.pos);
    EdgeValues(keys, g, depth);
    QuiesceBounded(keys, g);
    if 0 < depth < MAXDEPTH && !Drawn(keys, g) && LegalMoves(g.pos) != {} {
      var m := NegamaxIsBest(keys, g, depth);
      ChildValues(keys, g, m, depth);
      NegamaxBounded(keys, Next(keys, g, m), depth - 1);
    }
  }

  // ----- Lines of legal moves -----

  /** All lines of d legal moves. */
  ghost function Lines(pos: Pos, d: nat): set<seq<Move>>
    requires WellFormed(pos)
    decreases d, 1
  {
    if d == 0 then {[]} else LinesFrom(pos, LegalMoves(pos), d)
  }

  /** The lines whose first move is in s. */
  ghost function LinesFrom(pos: Pos, s: set<Move>, d: nat): set<seq<Move>>
    requires WellFormed(pos) && d > 0 && forall m :: m in s ==> Legal(pos, m)
    decreases d, 0
  {
    set m, l | m in s && l in LinesAfter(pos, m, d - 1) :: Cons(m, l)
  }

  ghost function LinesAfter(pos: Pos, m: Move, d: nat): set<seq<Move>>
    requires WellFormed(pos) && Legal(pos, m)
    decreases d, 2
  {
    LegalAppliable(pos, m);
    Lines(Apply(pos, m), d)
  }

  function Cons(m: Move, l: seq<Move>): (s: seq<Move>)
    ensures |s| == |l| + 1 && s[0] == m && s[1..] == l
  {
    [m] + l
  }

  ghost function ConsAll(m: Move, t: set<seq<Move>>): set<seq<Move>> { set l | l in t :: Cons(m, l) }

  lemma {:induction false} ConsCount(m: Move, t: set<seq<Move>>)
    ensures |ConsAll(m, t)| == |t|
  {
    if t != {} {
      var l :| l in t;
      ConsCount(m, t - {l});
      var rest := ConsAll(m, t - {l});
      assert ConsAll(m, t) == rest + {Cons(m, l)};
      forall k | k in t - {l}
        ensures Cons(m, k) != Cons(m, l)
      {
        assert Cons(m, k)[1..] != Cons(m, l)[1..];
      }
      assert Cons(m, l) !in rest;
    }
  }

  ghost function LinesBy(pos: Pos, m: Move, d: nat): set<seq<Move>>
    requires WellFormed(pos) && d > 0 && Legal(pos, m)
  {
    ConsAll(m, LinesAfter(pos, m, d - 1))
  }

  lemma LinesFromSplit(pos: Pos, s: set<Move>, m: Move, d: nat)
    requires WellFormed(pos) && d > 0 && (forall x :: x in s ==> Legal(pos, x)) && Legal(pos, m)
    ensures LinesFrom(pos, s + {m}, d) == LinesFrom(pos, s, d) + LinesBy(pos, m, d)
  {
    hide WellFormed, Legal, LinesAfter, Cons;
    forall l | l in LinesFrom(pos, s + {m}, d)
      ensures l in LinesFrom(pos, s, d) + LinesBy(pos, m, d)
    {
      var x, k :| x in s + {m} && k in LinesAfter(pos, x, d - 1) && l == Cons(x, k);
      if x == m { assert l in LinesBy(pos, m, d); } else { assert l in LinesFrom(pos, s, d); }
    }
  }

  /** One more first move adds the lines that follow it. */
  lemma LinesFromAdd(pos: Pos, s: set<Move>, m: Move, d: nat)
    requires WellFormed(pos) && d > 0 && (forall x :: x in s ==> Legal(pos, x)) && Legal(pos, m) && m !in s
    ensures |LinesFrom(pos, s + {m}, d)| == |LinesFrom(pos, s, d)| + |LinesAfter(pos, m, d - 1)|
  {
    hide WellFormed, Legal, LinesAfter;
    LinesFromSplit(pos, s, m, d);
    ConsCount(m, LinesAfter(pos, m, d - 1));
    var old', more := LinesFrom(pos, s, d), LinesBy(pos, m, d);
    forall l | l in old'
      ensures l !in more
    {
      assert l[0] in s;
    }
    assert old' !! more;
    assert |old' + more| == |old'| + |more|;
  }
}
