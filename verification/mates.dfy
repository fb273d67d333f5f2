/** What the scores beyond MATE mean: a forced mate and its distance. */
module Mates {
  import opened Pieces
  import opened Squares
  import opened Rules
  import opened Zobrist
  import opened Games
  import opened Evaluation
  import opened Trees
  import opened PvTables

  /** The side to move can mate within n moves of either side, whatever the other side plays. */
  ghost predicate ForcesMate(keys: Keys, g: Game, n: nat)
    requires Live(keys, g)
    decreases n, 1
  {
    WellFormedHashable(g.pos);
    n > 0 && !Drawn(keys, g) && SomeMoveMates(keys, g, n)
  }

  ghost predicate SomeMoveMates(keys: Keys, g: Game, n: nat)
    requires Live(keys, g) && n > 0
    decreases n, 0
  {
    exists m :: Legal(g.pos, m) && IsMated(keys, Next(keys, g, m), n - 1)
  }

  /** The side to move is mated, or cannot help being mated within n moves of either side. */
  ghost predicate IsMated(keys: Keys, g: Game, n: nat)
    requires Live(keys, g)
    decreases n, 1
  {
    WellFormedHashable(g.pos);
    && !Drawn(keys, g)
    && if LegalMoves(g.pos) == {} then InCheck(g.pos.sq, g.pos.side) else n > 0 && NoMoveHelps(keys, g, n)
  }

  ghost predicate NoMoveHelps(keys: Keys, g: Game, n: nat)
    requires Live(keys, g) && n > 0
    decreases n, 0
  {
    forall m :: Legal(g.pos, m) ==> ForcesMate(keys, Next(keys, g, m), n - 1)
  }

  /** With d plies to go no score is further from 0 than a mate on the board. */
  lemma {:induction false} WithinMate(keys: Keys, g: Game, d: nat)
    requires Live(keys, g) && d < MAXDEPTH
    ensures -MATE - d <= Negamax(keys, g, d) < MATE + if d == 0 then 1 else d
    decreases d
  {
    hide WellFormed, Legal, Drawn, PieceCount, Hashable, Quiesce, Negamax, NegamaxChild, Next, InCheck;
    WellFormedHashable(g.pos);
    EdgeValues(keys, g, d);
    QuiesceBounded(keys, g);
    if d > 0 && !Drawn(keys, g) && LegalMoves(g.pos) != {} {
      var m := NegamaxIsBest(keys, g, d);
      ChildValues(keys, g, m, d);
      WithinMate(keys, Next(keys, g, m), d - 1);
    }
  }

  lemma ForcesMeans(keys: Keys, g: Game, n: nat)
    requires Live(keys, g) && Hashable(g.pos)
    ensures ForcesMate(keys, g, n) <==> n > 0 && !Drawn(keys, g) && SomeMoveMates(keys, g, n)
    ensures IsMated(keys, g, n) <==>
              && !Drawn(keys, g)
              && if LegalMoves(g.pos) == {} then InCheck(g.pos.sq, g.pos.side) else n > 0 && NoMoveHelps(keys, g, n)
    ensures LegalMoves(g.pos) == {} && n > 0 ==> !SomeMoveMates(keys, g, n)
  {
    hide WellFormed, Legal, Drawn, InCheck, Next;
  }

  /** The scores of mates within n of d plies are right. */
  ghost predicate Scored(keys: Keys, g: Game, d: nat, n: nat)
    requires Live(keys, g)
  {
    && (Negamax(keys, g, d) >= MATE + d - n <==> ForcesMate(keys, g, n))
    && (Negamax(keys, g, d) <= -(MATE + d - n) <==> IsMated(keys, g, n))
  }

  /** From the replies to the position, where a move is to be chosen. */
  lemma BestReply(keys: Keys, g: Game, d: nat, n: nat)
    requires Live(keys, g) && 0 < n < d < MAXDEPTH && Hashable(g.pos) && !Drawn(keys, g) && LegalMoves(g.pos) != {}
    requires forall m :: Legal(g.pos, m) ==> Live(keys, Next(keys, g, m)) && Scored(keys, Next(keys, g, m), d - 1, n - 1)
    ensures Negamax(keys, g, d) >= MATE + d - n <==> SomeMoveMates(keys, g, n)
  {
    hide WellFormed, Legal, Drawn, Hashable, Negamax, NegamaxChild, Next, ForcesMate, IsMated, LegalMoves;
    var best := NegamaxIsBest(keys, g, d);
    forall m | Legal(g.pos, m)
      ensures NegamaxChild(keys, g, m, d) >= MATE + d - n <==> IsMated(keys, Next(keys, g, m), n - 1)
    {
      ChildValues(keys, g, m, d);
    }
  }

  lemma WorstReply(keys: Keys, g: Game, d: nat, n: nat)
    requires Live(keys, g) && 0 < n < d < MAXDEPTH && Hashable(g.pos) && !Drawn(keys, g) && LegalMoves(g.pos) != {}
    requires forall m :: Legal(g.pos, m) ==> Live(keys, Next(keys, g, m)) && Scored(keys, Next(keys, g, m), d - 1, n - 1)
    ensures Negamax(keys, g, d) <= -(MATE + d - n) <==> NoMoveHelps(keys, g, n)
  {
    hide WellFormed, Legal, Drawn, Hashable, Negamax, NegamaxChild, Next, ForcesMate, IsMated, LegalMoves;
    var best := NegamaxIsBest(keys, g, d);
    forall m | Legal(g.pos, m)
      ensures NegamaxChild(keys, g, m, d) <= -(MATE + d - n) <==> ForcesMate(keys, Next(keys, g, m), n - 1)
    {
      ChildValues(keys, g, m, d);
    }
  }

  /** Now or never: with no ply to spare only a mate on the board counts. */
  lemma ScoredAtOnce(keys: Keys, g: Game, d: nat)
    requires Live(keys, g) && 0 < d < MAXDEPTH && Hashable(g.pos) && !Drawn(keys, g) && LegalMoves(g.pos) != {}
    ensures -(MATE + d) < Negamax(keys, g, d) < MATE + d
  {
    hide WellFormed, Legal, Drawn, Hashable, Negamax, NegamaxChild, Next, LegalMoves;
    var best := NegamaxIsBest(keys, g, d);
    WithinMate(keys, g, d);
    ChildValues(keys, g, best, d);
    WithinMate(keys, Next(keys, g, best), d - 1);
  }

  /** Main result: a search of d plies scores MATE + k or more exactly if the side to move can force mate within d - k plies,
      and -MATE - k or less exactly if it cannot help being mated within d - k plies: nearer mates score higher. */
  lemma {:induction false} MateScores(keys: Keys, g: Game, d: nat, n: nat)
    requires Live(keys, g) && n < d < MAXDEPTH
    ensures Negamax(keys, g, d) >= MATE + d - n <==> ForcesMate(keys, g, n)
    ensures Negamax(keys, g, d) <= -(MATE + d - n) <==> IsMated(keys, g, n)
    decreases d
  {
    hide WellFormed, Legal, Drawn, Hashable, Negamax, NegamaxChild, Next, InCheck, ForcesMate, IsMated, SomeMoveMates,
         NoMoveHelps, LegalMoves;
    WellFormedHashable(g.pos);
    EdgeValues(keys, g, d);
    ForcesMeans(keys, g, n);
    if !Drawn(keys, g) && LegalMoves(g.pos) != {} {
      if n == 0 {
        ScoredAtOnce(keys, g, d);
      } else {
        forall m | Legal(g.pos, m)
          ensures Live(keys, Next(keys, g, m)) && Scored(keys, Next(keys, g, m), d - 1, n - 1)
        {
          ChildValues(keys, g, m, d);
          MateScores(keys, Next(keys, g, m), d - 1, n - 1);
        }
        BestReply(keys, g, d, n);
        WorstReply(keys, g, d, n);
      }
    }
  }

  /** A move that attains the score of a forced mate forces it: it leaves the other side mated within one ply less. */
  lemma PrincipalMoveMates(keys: Keys, g: Game, d: nat, n: nat, k: Key)
    requires Live(keys, g) && n < d < MAXDEPTH && ForcesMate(keys, g, n) && Attains(keys, g, d, k, Negamax(keys, g, d))
    ensures n > 0 && Live(keys, Next(keys, g, Decode(k))) && IsMated(keys, Next(keys, g, Decode(k)), n - 1)
  {
    hide WellFormed, Legal, Drawn, Hashable, Negamax, NegamaxChild, Next, InCheck, IsMated, Decode;
    MateScores(keys, g, d, n);
    ChildValues(keys, g, Decode(k), d);
    MateScores(keys, Next(keys, g, Decode(k)), d - 1, n - 1);
  }
}
