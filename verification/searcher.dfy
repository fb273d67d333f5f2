/** Alpha-beta and quiescence search on the shared board (src/chess/searcher.cpp). */
module Searchers {
  import opened Pieces
  import opened Squares
  import opened Rules
  import opened Zobrist
  import opened Invariant
  import opened Games
  import opened Boards
  import opened Generators
  import opened Evaluation
  import opened Trees
  import opened Movegens
  import opened PvTables

  const INFINITE: int := 100000

  /** For each reading of the clock, whether time is up. */
  type Clock = nat -> bool

  /** What a search result says about the true value: exact inside the window, a bound outside. */
  predicate Window(alpha: int, beta: int, value: int, result: int) {
    && (value <= alpha ==> result <= alpha)
    && (value >= beta ==> result >= beta)
    && (alpha < value < beta ==> result == value)
  }

  // ----- What the loops add up to -----

  /** No legal move is worth more than alpha except those still in the list. */
  ghost predicate NoneBetter(keys: Keys, g: Game, depth: int, ms: seq<Move>, alpha: int)
    requires Live(keys, g) && depth > 0
  {
    forall m :: Legal(g.pos, m) ==> m in ms || NegamaxChild(keys, g, m, depth) <= alpha
  }

  lemma NegamaxExact(keys: Keys, g: Game, depth: int, alpha0: int, alpha: int, beta: int, best: Move)
    requires Live(keys, g) && 0 < depth < MAXDEPTH && Hashable(g.pos) && !Drawn(keys, g) && LegalMoves(g.pos) != {}
    requires NoneBetter(keys, g, depth, [], alpha) && alpha0 <= alpha < beta
    requires alpha == alpha0 || (Legal(g.pos, best) && NegamaxChild(keys, g, best, depth) == alpha)
    ensures Window(alpha0, beta, Negamax(keys, g, depth), alpha)
  {
    hide NegamaxChild, Negamax, Drawn, Legal, WellFormed;
    var m := NegamaxIsBest(keys, g, depth);
  }

  lemma AttainedBy(keys: Keys, g: Game, depth: int, k: Key, value: int)
    requires Live(keys, g) && depth > 0 && k != NOMOVE
    requires Legal(g.pos, Decode(k)) && NegamaxChild(keys, g, Decode(k), depth) == value
    ensures Attains(keys, g, depth, k, value)
  {
    hide NegamaxChild, Legal, WellFormed, Decode;
  }

  lemma ExactAtTheEnd(keys: Keys, g: Game, depth: int, alpha0: int, alpha: int, beta: int, best: Key)
    requires Live(keys, g) && 0 < depth < MAXDEPTH && Hashable(g.pos) && !Drawn(keys, g) && LegalMoves(g.pos) != {}
    requires NoneBetter(keys, g, depth, [], alpha) && alpha0 <= alpha < beta
    requires alpha != alpha0 ==> Attains(keys, g, depth, best, alpha)
    ensures Window(alpha0, beta, Negamax(keys, g, depth), alpha)
    ensures alpha != alpha0 ==> alpha == Negamax(keys, g, depth)
  {
    hide NegamaxChild, Negamax, Drawn, Legal, WellFormed, Decode, NoneBetter;
    NegamaxExact(keys, g, depth, alpha0, alpha, beta, Decode(best));
    if alpha != alpha0 {
      NegamaxCutoff(keys, g, depth, Decode(best));
    }
  }

  lemma NegamaxCutoff(keys: Keys, g: Game, depth: int, m: Move)
    requires Live(keys, g) && 0 < depth < MAXDEPTH && Hashable(g.pos) && !Drawn(keys, g) && Legal(g.pos, m)
    ensures NegamaxChild(keys, g, m, depth) <= Negamax(keys, g, depth)
  {
    hide NegamaxChild, Negamax, Drawn, Legal, WellFormed;
    assert m in LegalMoves(g.pos);
    var best := NegamaxIsBest(keys, g, depth);
  }

  ghost predicate NoneBetterCapture(keys: Keys, g: Game, ms: seq<Move>, alpha: int)
    requires Live(keys, g)
  {
    forall m :: Legal(g.pos, m) && IsCapture(m) ==> m in ms || QuiesceChild(keys, g, m) <= alpha
  }

  /** alpha is the stand-pat score, or the old bound, or the value of some capture. */
  ghost predicate Attained(keys: Keys, g: Game, alpha0: int, alpha: int, best: Move)
    requires Live(keys, g)
  {
    || alpha == alpha0
    || alpha == StaticEval(g.pos)
    || (Legal(g.pos, best) && IsCapture(best) && QuiesceChild(keys, g, best) == alpha)
  }

  lemma QuiesceExact(keys: Keys, g: Game, alpha0: int, alpha: int, beta: int, best: Move)
    requires Live(keys, g) && Hashable(g.pos) && !Drawn(keys, g)
    requires NoneBetterCapture(keys, g, [], alpha) && StaticEval(g.pos) <= alpha && alpha0 <= alpha < beta
    requires Attained(keys, g, alpha0, alpha, best)
    ensures Window(alpha0, beta, Quiesce(keys, g), alpha)
  {
    hide QuiesceChild, Quiesce, Drawn, Legal, StaticEval, WellFormed;
    QuiesceIsBest(keys, g);
  }

  /** A child searched with the mirrored window bounds the move from the mover's side. */
  lemma FlipWindow(alpha: int, beta: int, value: int, result: int)
    requires Window(-beta, -alpha, value, result)
    ensures Window(alpha, beta, -value, -result)
  {
  }

  /** Playing the key of a legal move is the next position of the tree. */
  lemma PlayIsNext(keys: Keys, g: Game, k: Key)
    requires Live(keys, g) && Legal(g.pos, Decode(k)) && Encode(Decode(k)) == k
    ensures Hashable(g.pos) && Appliable(g.pos, Decode(k))
    ensures Play(keys, g, k) == Next(keys, g, Decode(k)) && Live(keys, Next(keys, g, Decode(k)))
    ensures PieceCount(Next(keys, g, Decode(k)).pos.sq) == PieceCount(g.pos.sq) - if IsCapture(Decode(k)) then 1 else 0
  {
    hide Decode, Encode, Play, WellFormed, PseudoLegal, Apply, PieceCount;
    LegalAppliable(g.pos, Decode(k));
    CaptureShrinks(g.pos, Decode(k));
    PlayFacts(keys, g, k);
  }

  /** There is a move to choose and no draw is due. */
  ghost predicate Open(keys: Keys, g: Game)
    requires Live(keys, g)
  {
    LegalMoves(g.pos) != {} && Hashable(g.pos) && !Drawn(keys, g)
  }

  lemma OpenFacts(keys: Keys, g: Game)
    requires Live(keys, g)
    ensures Open(keys, g) ==> LegalMoves(g.pos) != {} && Hashable(g.pos) && !Drawn(keys, g)
  {
    hide WellFormed, Hashable, Drawn;
  }

  /** Among the first n numbers none is above the one at the index, and no earlier one is as high. */
  ghost predicate Leads(ps: seq<int>, n: nat, at: int) {
    && 0 <= at < n <= |ps|
    && (forall j :: 0 <= j < n ==> ps[j] <= ps[at])
    && (forall j :: 0 <= j < at ==> ps[j] < ps[at])
  }

  lemma LeadsNext(ps: seq<int>, n: nat, at: int)
    requires n < |ps| && (n > 0 ==> Leads(ps, n, at))
    ensures n == 0 || ps[n] > ps[at] ==> Leads(ps, n + 1, n)
    ensures n > 0 && ps[n] <= ps[at] ==> Leads(ps, n + 1, at)
  {
  }

  lemma NotTheSentinel(li: seq<Key>, i: nat)
    requires WellPacked(li) && i < |li|
    ensures li[i] in li && li[i] != NOMOVE
  {
    hide Decode, Encode, Packable;
    assert li[i] in li;
  }

  /** The plies alpha-beta searches before quiescence: depths out of range go to quiescence at once. */
  function Plies(depth: int): nat { if 0 < depth < MAXDEPTH then depth else 0 }

  /** What a piece is worth, whoever owns it. */
  function Value(p: int): int { if IsPiece(p) then Abs(Worth(p)) else 0 }

  // ----- The searcher -----

  class Searcher {
    const gen: Movegen

    var nodes: nat
    var failHigh: nat
    var failHighFirst: nat

    var searchDepth: int
    var stop: bool
    /** The clock is arbitrary; it has been read so many times. */
    const clock: Clock
    var ticks: nat
    var rootPosKey: bv32
    const pvTable: array<PVNode>
    const killerMoves: array<Key>
    const historyMoves: array<int>

    ghost predicate Valid()
      reads gen.board, gen.board.Repr
    {
      && gen.Valid()
      && pvTable.Length == TTABLEENTRIES && killerMoves.Length == 2 * MAXDEPTH + 1 && historyMoves.Length == 14 * 64
      && {this, gen, pvTable, killerMoves, historyMoves} !! gen.board.Repr
    }

    ghost function State(): Game
      requires Valid()
      reads gen.board, gen.board.Repr
    {
      gen.board.State()
    }

    /** The variation table is not initialised: it starts with whatever the memory holds. */
    constructor (keys: Keys, memory: seq<PVNode>, clock: Clock)
      requires KeysOk(keys) && keys.base == 0 && |memory| == TTABLEENTRIES
      ensures Valid() && fresh(gen) && fresh(gen.board) && fresh(gen.board.Repr)
      ensures gen.board.keys == gen.board.random == keys && State() == Game(ClearPosition(), [], 0)
      ensures !stop && searchDepth == 1 && rootPosKey == gen.board.posKey
      ensures fresh(pvTable) && fresh(killerMoves) && fresh(historyMoves)
      ensures pvTable[..] == memory && this.clock == clock && ticks == 0
    {
      hide KeysOk, KeyOf, Indexed, Material, Hashable, Boards.Board.GridStored, Boards.Board.ListsStored;
      gen := new Movegen(keys);
      pvTable := new PVNode[TTABLEENTRIES](i requires 0 <= i < TTABLEENTRIES => memory[i]);
      killerMoves := new Key[2 * MAXDEPTH + 1];
      historyMoves := new int[14 * 64];
      this.clock := clock;
      ticks := 0;
      new;
      PrepSearch();
    }

    /** Clears the history table and the counters and remembers the root position. */
    method PrepSearch()
      requires Valid()
      modifies this, historyMoves
      ensures Valid()
      ensures forall i :: 0 <= i < historyMoves.Length ==> historyMoves[i] == 0
      ensures nodes == failHigh == failHighFirst == 0 && !stop && searchDepth == 1 && rootPosKey == gen.board.posKey
      ensures ticks == old(ticks)
    {
      hide KeysOk, KeyOf, Indexed, Material;
      for i := 0 to 14 * 64
        modifies historyMoves
        invariant forall j :: 0 <= j < i ==> historyMoves[j] == 0
      {
        historyMoves[i] := 0;
      }
      nodes, failHigh, failHighFirst := 0, 0, 0;
      stop := false;
      searchDepth := 1;
      rootPosKey := gen.board.posKey;
    }

    // ----- Tables -----

    /** The stored principal move of the current position, or NOMOVE. */
    function GetPvMove(): Key
      requires Valid()
      reads gen.board, gen.board.Repr, pvTable
    {
      var node := pvTable[Slot(gen.board.posKey)];
      if node.posKey == gen.board.posKey then node.move else NOMOVE
    }

    /** The key is the key of the position, whatever else the board stores. */
    lemma KeyHere()
      requires Valid()
      ensures KeysOk(gen.board.keys) && Hashable(State().pos) && gen.board.posKey == KeyOf(gen.board.keys, State().pos)
    {
      hide KeysOk, KeyOf, Indexed, Material, Hashable, Boards.Board.GridStored, Boards.Board.ListsStored;
    }

    /** The slot of the current position is free for its own entry. */
    ghost predicate Unguarded()
      requires Valid()
      reads this`rootPosKey, gen.board, gen.board.Repr, pvTable
    {
      OpenSlot(rootPosKey, pvTable[..], gen.board.posKey)
    }

    ghost function PvNode(): PVNode
      requires Valid()
      reads gen.board, gen.board.Repr, pvTable
    {
      EntryOf(pvTable[..], gen.board.posKey)
    }

    /** getPvMove attains the value exactly when the slot is free, and the entry is then exact. */
    ghost predicate Answered(g: Game, depth: int, value: int)
      requires Valid() && Live(gen.board.keys, g) && depth > 0
      reads this`rootPosKey, gen.board, gen.board.Repr, pvTable
    {
      && (Unguarded() <==> Attains(gen.board.keys, g, depth, GetPvMove(), value))
      && (Unguarded() ==> ExactAt(gen.board.keys, g, depth, PvNode()))
    }

    lemma PvMoveIsLookup()
      requires Valid()
      ensures GetPvMove() == Lookup(pvTable[..], gen.board.posKey)
    {
      hide Slot, Boards.Board.Valid;
    }

    /** Overwrites the slot unless it holds the root and another position wants it. */
    method StorePvMove(move: Key, score: int)
      requires Valid() && move != NOMOVE && !stop
      modifies pvTable
      ensures pvTable[..] == StoreIn(rootPosKey, old(pvTable[..]), PVNode(gen.board.posKey, move, score))
    {
      hide Slot, KeysOk, KeyOf, Indexed, Material, Hashable;
      var i := Slot(gen.board.posKey);
      if pvTable[i].posKey == rootPosKey {
        if rootPosKey == gen.board.posKey {
          pvTable[i] := PVNode(gen.board.posKey, move, score);
        }
      } else {
        pvTable[i] := PVNode(gen.board.posKey, move, score);
      }
    }

    method StoreKillerMove(move: Key, depth: int)
      requires Valid() && 0 <= depth < MAXDEPTH && !stop
      modifies killerMoves
      ensures killerMoves[..] == old(killerMoves[..])[depth + MAXDEPTH := old(killerMoves[depth])][depth := move]
    {
      killerMoves[depth + MAXDEPTH] := killerMoves[depth];
      killerMoves[depth] := move;
    }

    /** The key's piece stands on its square and its fields index the history table. */
    ghost predicate OnBoard(move: Key)
      requires Valid()
      reads gen.board, gen.board.Repr
    {
      Packable(Decode(move)) && IsCell(Captured(move)) && On(FromR(move), FromC(move)) && On(ToR(move), ToC(move))
      && At(gen.board.sq, FromR(move), FromC(move)) != NOPIECE
    }

    function HistoryIndex(move: Key): (i: int)
      requires Valid() && OnBoard(move)
      reads gen.board, gen.board.Repr
      ensures 0 <= i < historyMoves.Length
    {
      64 * gen.board.GetPce(FromR(move), FromC(move)) + 8 * ToR(move) + ToC(move)
    }

    method StoreHistoryMove(move: Key, score: int)
      requires Valid() && OnBoard(move) && !stop
      modifies historyMoves
      ensures var i := HistoryIndex(move); historyMoves[..] == old(historyMoves[..])[i := old(historyMoves[i]) + score]
    {
      var i := HistoryIndex(move);
      historyMoves[i] := historyMoves[i] + score;
    }

    /** Principal move first, then captures by victim and attacker, killers, and history. */
    function MovePriority(move: Key, depth: int): int
      requires Valid() && OnBoard(move) && -1 <= depth < MAXDEPTH
      reads gen.board, gen.board.Repr, pvTable, killerMoves, historyMoves
    {
      var cap := Captured(move);
      if GetPvMove() == move then 400000
      else if cap != NOPIECE then
        var pce := gen.board.GetPce(FromR(move), FromC(move));
        250000 + Abs(Worth(cap)) * 10 + (1000 - Abs(Worth(pce)))
        - (if Abs(Worth(cap)) < Abs(Worth(pce)) then 100000 else 0)
      else if depth != -1 && move == killerMoves[depth] then 125000
      else if depth != -1 && move == killerMoves[depth + MAXDEPTH] then 100000
      else historyMoves[HistoryIndex(move)]
    }

    // ----- The order of the moves -----

    ghost predicate Quiet(k: Key) { Captured(k) == NOPIECE }

    /** The capture takes a piece worth at least as much as the one that takes. */
    ghost predicate GoodCapture(k: Key)
      requires Valid() && OnBoard(k)
      reads gen.board, gen.board.Repr
    {
      IsPiece(Captured(k)) && !IsKing(Captured(k)) && Value(Captured(k)) >= Value(At(gen.board.sq, FromR(k), FromC(k)))
    }

    ghost predicate Killer(k: Key, depth: int)
      requires Valid() && -1 <= depth < MAXDEPTH
      reads gen.board, gen.board.Repr, killerMoves
    {
      depth != -1 && (k == killerMoves[depth] || k == killerMoves[depth + MAXDEPTH])
    }

    ghost function History(k: Key): int
      requires Valid() && OnBoard(k)
      reads gen.board, gen.board.Repr, historyMoves
    {
      historyMoves[HistoryIndex(k)]
    }

    /** The principal move comes before every capture and killer, and before another move exactly while its history score
        is below 400000. */
    lemma PrincipalFirst(k: Key, other: Key, depth: int)
      requires Valid() && OnBoard(k) && OnBoard(other) && -1 <= depth < MAXDEPTH
      requires k == GetPvMove() && other != k && !IsKing(Captured(other))
      ensures MovePriority(k, depth) > MovePriority(other, depth)
         <==> !Quiet(other) || Killer(other, depth) || History(other) < 400000
    {
      hide Boards.Board.Valid, Decode, HistoryIndex, GetPvMove;
      MoverOnBoard(other);
    }

    /** Then a capture that loses no value comes before the killers, and before another quiet move while its history score
        is at most 250000. */
    lemma GoodCapturesNext(k: Key, other: Key, depth: int)
      requires Valid() && OnBoard(k) && OnBoard(other) && -1 <= depth < MAXDEPTH
      requires k != GetPvMove() && other != GetPvMove() && GoodCapture(k) && Quiet(other)
      ensures Killer(other, depth) || History(other) <= 250000 ==> MovePriority(k, depth) > MovePriority(other, depth)
    {
      hide Boards.Board.Valid, Decode, HistoryIndex, GetPvMove;
      MoverOnBoard(k);
    }

    /** Among such captures the dearer victim comes first, and for equal victims the cheaper attacker. */
    lemma VictimThenAttacker(k: Key, other: Key, depth: int)
      requires Valid() && OnBoard(k) && OnBoard(other) && -1 <= depth < MAXDEPTH
      requires k != GetPvMove() && other != GetPvMove() && GoodCapture(k) && GoodCapture(other)
      ensures var victim, victim' := Value(Captured(k)), Value(Captured(other));
              var taker, taker' := Value(At(gen.board.sq, FromR(k), FromC(k))), Value(At(gen.board.sq, FromR(other), FromC(other)));
              victim > victim' || (victim == victim' && taker < taker') ==> MovePriority(k, depth) > MovePriority(other, depth)
    {
      hide Boards.Board.Valid, Decode, HistoryIndex, GetPvMove, Worth;
      MoverOnBoard(k);
      MoverOnBoard(other);
    }

    /** The first killer comes before the second, and each before another quiet move exactly while its history score is low. */
    lemma KillersThen(k: Key, other: Key, depth: int)
      requires Valid() && OnBoard(k) && OnBoard(other) && 0 <= depth < MAXDEPTH
      requires k != GetPvMove() && other != GetPvMove() && Quiet(k) && Quiet(other) && k != other
      ensures k == killerMoves[depth] && Killer(other, depth) ==> MovePriority(k, depth) > MovePriority(other, depth)
      ensures k == killerMoves[depth] && !Killer(other, depth) ==>
                (MovePriority(k, depth) > MovePriority(other, depth) <==> History(other) < 125000)
      ensures k != killerMoves[depth] && k == killerMoves[depth + MAXDEPTH] && !Killer(other, depth) ==>
                (MovePriority(k, depth) > MovePriority(other, depth) <==> History(other) < 100000)
    {
      hide Boards.Board.Valid, Decode, HistoryIndex, GetPvMove;
    }

    lemma MoverOnBoard(k: Key)
      requires Valid() && OnBoard(k)
      ensures IsPiece(At(gen.board.sq, FromR(k), FromC(k))) && IsCell(Captured(k))
      ensures gen.board.GetPce(FromR(k), FromC(k)) == At(gen.board.sq, FromR(k), FromC(k))
      ensures forall p :: IsPiece(p) && !IsKing(p) ==> 100 <= Value(p) <= 1000
      ensures forall p :: IsKing(p) ==> Value(p) == 50000
      ensures forall p, q :: IsPiece(p) && IsPiece(q) && !IsKing(p) && !IsKing(q) && Value(p) > Value(q) ==> Value(p) >= Value(q) + 225
    {
      hide KeysOk, KeyOf, Indexed, Material, Hashable, Decode;
    }

    ghost predicate AllOnBoard(li: seq<Key>)
      requires Valid()
      reads gen.board, gen.board.Repr
    {
      forall j :: 0 <= j < |li| ==> OnBoard(li[j])
    }

    ghost function Priorities(li: seq<Key>, depth: int): (ps: seq<int>)
      requires Valid() && -1 <= depth < MAXDEPTH && AllOnBoard(li)
      reads gen.board, gen.board.Repr, pvTable, killerMoves, historyMoves
      ensures |ps| == |li| && forall j :: 0 <= j < |li| ==> ps[j] == MovePriority(li[j], depth)
      decreases |li|
    {
      hide MovePriority, OnBoard, Valid;
      if li == [] then [] else Priorities(li[..|li| - 1], depth) + [MovePriority(li[|li| - 1], depth)]
    }

    /** Removes and returns the first entry of highest priority. */
    method PickNextMove(li: seq<Key>, depth: int) returns (bestMove: Key, rest: seq<Key>, ghost at: nat)
      requires Valid() && li != [] && -1 <= depth < MAXDEPTH
      requires WellPacked(li) && AllOnBoard(li)
      ensures at < |li| && bestMove == li[at] && rest == li[..at] + li[at + 1..]
      ensures Leads(Priorities(li, depth), |li|, at)
    {
      hide MovePriority, Decode, OnBoard, Valid, Slot, Leads, Priorities, WellPacked;
      ghost var ps := Priorities(li, depth);
      bestMove := NOMOVE;
      var toBeDeleted := 0;
      var i := 0;
      while i < |li|
        invariant 0 <= i <= |li|
        invariant i == 0 ==> bestMove == NOMOVE
        invariant i > 0 ==> toBeDeleted < i && bestMove == li[toBeDeleted] && bestMove != NOMOVE && Leads(ps, i, toBeDeleted)
      {
        NotTheSentinel(li, i);
        LeadsNext(ps, i, toBeDeleted);
        if bestMove == NOMOVE || MovePriority(li[i], depth) > MovePriority(bestMove, depth) {
          bestMove := li[i];
          toBeDeleted := i;
        }
        i := i + 1;
      }
      at := toBeDeleted;
      rest := li[..toBeDeleted] + li[toBeDeleted + 1..];
    }

    /** The clock runs out between two of its readings. */
    ghost predicate Fired(from: nat, to: nat) { exists i :: from <= i < to && clock(i) }

    /** Reads the clock, which alone may stop the search; nothing here restarts it. */
    method CheckTime()
      modifies this`stop, this`ticks
      ensures ticks == old(ticks) + 1 && (stop <==> old(stop) || Fired(old(ticks), ticks))
    {
      if clock(ticks) {
        stop := true;
      }
      ticks := ticks + 1;
    }

    /** The draw test of both searches: the position a third time, or a hundred plies without progress. */
    method DrawDue() returns (draw: bool)
      requires Valid() && Live(gen.board.keys, State()) && Hashable(State().pos)
      ensures draw <==> Drawn(gen.board.keys, State())
    {
      hide KeysOk, KeyOf, Indexed, Material, Hashable, WellFormed, Boards.Board.GridStored, Boards.Board.ListsStored;
      var rep := gen.board.NumRep();
      draw := rep >= 2 || gen.board.hisPly - gen.board.fiftyMove >= 100;
    }

    /** Keys of pseudo-legal moves move pieces that are there. */
    lemma ReadyToPick(g: Game, ks: seq<Key>)
      requires Valid() && State() == g && WellFormed(g.pos)
      requires MovesLeft(g, ks) || CapturesLeft(g, ks)
      ensures WellPacked(ks) && AllOnBoard(ks) && forall k :: k in ks ==> OnBoard(k)
    {
      hide Decode, Encode, WellFormed, PseudoLegal, KeysOk, KeyOf, Indexed, Material;
      forall k | k in ks
        ensures OnBoard(k)
      {
        DecodeFields(k);
        MoveFacts(g.pos, Decode(k));
        MoverPresent(g.pos, Decode(k));
      }
    }

    // ----- Quiescence -----

    /** Makes a capture, searches the reply, and takes it back. */
    method SearchCapture(k: Key, alpha: int, beta: int) returns (made: bool, moveScore: int)
      requires Valid() && Live(gen.board.keys, State()) && alpha < beta
      requires PseudoLegal(State().pos, Decode(k)) && IsCapture(Decode(k)) && Encode(Decode(k)) == k
      requires gen.board.hisPly + PieceCount(gen.board.sq) <= MAXGAMELENGTH
      modifies this`nodes, this`failHigh, this`failHighFirst, this`stop, this`ticks, gen.board.Repr
      ensures gen.board.keys == old(gen.board.keys)
      ensures Valid() && State() == old(State()) && gen.board.hisPly == old(gen.board.hisPly)
      ensures old(ticks) <= ticks && (stop <==> old(stop) || Fired(old(ticks), ticks))
      ensures made <==> old(Legal(State().pos, Decode(k)))
      ensures made && !stop ==> Window(alpha, beta, old(QuiesceChild(gen.board.keys, State(), Decode(k))), moveScore)
      decreases PieceCount(gen.board.sq), 0
    {
      hide Decode, Encode, Play, WellFormed, PseudoLegal, Legal, PieceCount, Quiesce, Boards.Board.GridStored,
           Boards.Board.ListsStored, Indexed, KeysOk, KeyOf, Material, Hashable;
      ghost var keys, g := gen.board.keys, State();
      moveScore := 0;
      CaptureShrinks(g.pos, Decode(k));
      made := gen.MakeMove(k);
      if made {
        PlayIsNext(keys, g, k);
        var reply := Quiescence(-beta, -alpha);
        if !stop {
          FlipWindow(alpha, beta, Quiesce(keys, Next(keys, g, Decode(k))), reply);
        }
        moveScore := -reply;
        gen.TakeBack(g, k);
      }
    }
  
    method Quiescence(alpha0: int, beta: int) returns (score: int)
      requires Valid() && Live(gen.board.keys, State()) && alpha0 < beta
      requires gen.board.hisPly + PieceCount(gen.board.sq) <= MAXGAMELENGTH
      modifies this`nodes, this`failHigh, this`failHighFirst, this`stop, this`ticks, gen.board.Repr
      ensures gen.board.keys == old(gen.board.keys)
      ensures Valid() && State() == old(State()) && gen.board.hisPly == old(gen.board.hisPly)
      ensures old(ticks) <= ticks && (stop <==> old(stop) || Fired(old(ticks), ticks))
      ensures !stop ==> Window(alpha0, beta, old(Quiesce(gen.board.keys, State())), score)
      decreases PieceCount(gen.board.sq), 2
    {
      hide WellFormed, PieceCount, Quiesce, QuiesceChild, StaticEval, Boards.Board.Valid, OneKingEach, Drawn, Hashable;
      ghost var keys, g := gen.board.keys, State();
      WellFormedHashable(g.pos);
      if nodes % 2048 == 0 {
        CheckTime();
      }
      nodes := nodes + 1;
      var draw := DrawDue();
      if draw {
        EdgeValues(keys, g, 0);
        return 0;
      }
      KingPresent(g.pos);
      var stand := Evaluate(gen.board);
      QuiesceIsBest(keys, g);
      if stand >= beta {
        return beta;
      }
      score := QuiesceLoop(alpha0, if stand >= alpha0 then stand else alpha0, beta);
    }
  
    /** The capture loop of quiescence, entered with alpha raised to the stand-pat score. */
    method QuiesceLoop(ghost alpha0: int, alpha1: int, beta: int) returns (score: int)
      requires Valid() && Live(gen.board.keys, State()) && Hashable(State().pos) && !Drawn(gen.board.keys, State())
      requires alpha0 <= alpha1 < beta && StaticEval(State().pos) <= alpha1
      requires alpha1 == alpha0 || alpha1 == StaticEval(State().pos)
      requires gen.board.hisPly + PieceCount(gen.board.sq) <= MAXGAMELENGTH
      modifies this`nodes, this`failHigh, this`failHighFirst, this`stop, this`ticks, gen.board.Repr
      ensures gen.board.keys == old(gen.board.keys)
      ensures Valid() && State() == old(State()) && gen.board.hisPly == old(gen.board.hisPly)
      ensures old(ticks) <= ticks && (stop <==> old(stop) || Fired(old(ticks), ticks))
      ensures !stop ==> Window(alpha0, beta, old(Quiesce(gen.board.keys, State())), score)
      decreases PieceCount(gen.board.sq), 1
    {
      hide Decode, Encode, WellFormed, PseudoLegal, Legal, PieceCount, Quiesce, QuiesceChild, StaticEval, NoDup, IsCapture,
           Drawn, Decoded, Boards.Board.Valid, AllMoves, AllCaptures, AllPlaces, WellPacked, CapturesLeft, NoneBetterCapture,
           OnBoard, AllOnBoard, MovePriority, Priorities, Leads;
      ghost var keys, g := gen.board.keys, State();
      var alpha, movesMade := alpha1, 0;
      ghost var best := Decode(NOMOVE);
      var captureList := gen.GenerateCaptures();
      CapturesToGo(keys, g, captureList, alpha);
      while captureList != []
        invariant Valid() && State() == g && gen.board.keys == keys && gen.board.hisPly == old(gen.board.hisPly)
        invariant old(ticks) <= ticks && (stop <==> old(stop) || Fired(old(ticks), ticks))
        invariant alpha1 <= alpha < beta
        invariant CapturesLeft(g, captureList)
        invariant NoneBetterCapture(keys, g, Decoded(captureList), alpha)
        invariant Attained(keys, g, alpha0, alpha, best)
        decreases |captureList|
      {
        ReadyToPick(g, captureList);
        var nextMove, rest, at := PickNextMove(captureList, -1);
        assert nextMove in captureList;
        ghost var before, bound := captureList, alpha;
        captureList := rest;
        CapturePicked(g, before, at);
        var made, moveScore := SearchCapture(nextMove, alpha, beta);
        if made {
          movesMade := movesMade + 1;
          if stop {
            return 0;
          }
          if moveScore > alpha {
            if moveScore >= beta {
              if movesMade == 1 {
                failHighFirst := failHighFirst + 1;
              }
              failHigh := failHigh + 1;
              QuiesceIsBest(keys, g);
              return beta;
            }
            alpha := moveScore;
            best := Decode(nextMove);
          }
        }
        CaptureDone(keys, g, before, at, bound, alpha);
      }
      QuiesceExact(keys, g, alpha0, alpha, beta, best);
      return alpha;
    }

    // ----- Alpha-beta -----

    /** Makes a move, searches the reply one ply shallower, and takes it back. */
    method SearchMove(k: Key, alpha: int, beta: int, depth: int) returns (made: bool, moveScore: int)
      requires Valid() && Live(gen.board.keys, State()) && alpha < beta && 0 < depth < MAXDEPTH
      requires PseudoLegal(State().pos, Decode(k)) && Encode(Decode(k)) == k
      requires gen.board.hisPly + depth + PieceCount(gen.board.sq) <= MAXGAMELENGTH
      modifies this`nodes, this`failHigh, this`failHighFirst, this`stop, this`ticks, pvTable, killerMoves, historyMoves, gen.board.Repr
      ensures gen.board.keys == old(gen.board.keys)
      ensures Valid() && State() == old(State()) && gen.board.hisPly == old(gen.board.hisPly)
      ensures old(ticks) <= ticks && (stop <==> old(stop) || Fired(old(ticks), ticks))
      ensures old(stop) ==> unchanged(pvTable, killerMoves, historyMoves)
      ensures made <==> old(Legal(State().pos, Decode(k)))
      ensures !made ==> unchanged(pvTable, killerMoves, historyMoves) && stop == old(stop)
      ensures made && !stop ==> Window(alpha, beta, old(NegamaxChild(gen.board.keys, State(), Decode(k), depth)), moveScore)
      ensures Grown(gen.board.keys, old(State()), depth, rootPosKey, old(pvTable[..]), pvTable[..])
      decreases depth, 0
    {
      hide Grown,
           Decode, Encode, Play, WellFormed, PseudoLegal, Legal, PieceCount, Negamax, Boards.Board.GridStored,
           Boards.Board.ListsStored, Indexed, KeysOk, KeyOf, Material, Hashable;
      ghost var keys, g := gen.board.keys, State();
      moveScore := 0;
      NothingGrown(keys, g, depth, rootPosKey, pvTable[..]);
      made := gen.MakeMove(k);
      if made {
        PlayIsNext(keys, g, k);
        var reply := AlphaBeta(-beta, -alpha, depth - 1);
        if !stop {
          FlipWindow(alpha, beta, Negamax(keys, Next(keys, g, Decode(k)), depth - 1), reply);
        }
        GrownDeeper(keys, Next(keys, g, Decode(k)), Plies(depth - 1), depth - 1, rootPosKey, old(pvTable[..]), pvTable[..]);
        GrownFromReply(keys, g, Decode(k), depth, rootPosKey, old(pvTable[..]), pvTable[..]);
        moveScore := -reply;
        gen.TakeBack(g, k);
      }
    }

    /** Alpha-beta returns the plain negamax value, seen through the window, and leaves the game as it was. */
    method AlphaBeta(alpha0: int, beta: int, depth: int) returns (score: int)
      requires Valid() && Live(gen.board.keys, State()) && alpha0 < beta
      requires gen.board.hisPly + Plies(depth) + PieceCount(gen.board.sq) <= MAXGAMELENGTH
      modifies this`nodes, this`failHigh, this`failHighFirst, this`stop, this`ticks, pvTable, killerMoves, historyMoves, gen.board.Repr
      ensures gen.board.keys == old(gen.board.keys)
      ensures Valid() && State() == old(State()) && gen.board.hisPly == old(gen.board.hisPly)
      ensures old(ticks) <= ticks && (stop <==> old(stop) || Fired(old(ticks), ticks))
      ensures old(stop) ==> unchanged(pvTable, killerMoves, historyMoves)
      ensures depth <= 0 || depth >= MAXDEPTH ==> unchanged(pvTable, killerMoves, historyMoves)
      ensures !stop ==> Window(alpha0, beta, old(Negamax(gen.board.keys, State(), depth)), score)
      ensures Grown(gen.board.keys, old(State()), Plies(depth), rootPosKey, old(pvTable[..]), pvTable[..])
      ensures !stop && 0 < depth < MAXDEPTH && alpha0 < score < beta && old(Open(gen.board.keys, State())) ==>
                Answered(old(State()), depth, score)
      decreases Plies(depth), 2
    {
      hide Grown, Answered, Open, WellFormed, PieceCount, Negamax, Boards.Board.Valid, InCheck, Quiesce, Drawn, Hashable;
      ghost var keys, g := gen.board.keys, State();
      WellFormedHashable(g.pos);
      EdgeValues(keys, g, depth);
      NothingGrown(keys, g, Plies(depth), rootPosKey, pvTable[..]);
      OpenFacts(keys, g);
      if depth <= 0 || depth >= MAXDEPTH {
        score := Quiescence(alpha0, beta);
        return;
      }
      if nodes % 2048 == 0 {
        CheckTime();
      }
      nodes := nodes + 1;
      var draw := DrawDue();
      if draw {
        return 0;
      }
      var inCheck := gen.SideInCheck();
      score := AlphaBetaLoop(alpha0, beta, depth, inCheck);
    }

    /** Statistics, and the killer and history tables for quiet moves. */
    method RecordCutoff(nextMove: Key, movesMade: int, depth: int)
      requires Valid() && OnBoard(nextMove) && 0 < depth < MAXDEPTH && !stop
      modifies this`failHigh, this`failHighFirst, killerMoves, historyMoves
      ensures Valid() && State() == old(State())
      ensures failHigh == old(failHigh) + 1 && failHighFirst == old(failHighFirst) + if movesMade == 1 then 1 else 0
      ensures killerMoves[..] ==
                if Captured(nextMove) != NOPIECE then old(killerMoves[..])
                else old(killerMoves[..])[depth + MAXDEPTH := old(killerMoves[depth])][depth := nextMove]
      ensures historyMoves[..] ==
                if Captured(nextMove) != NOPIECE then old(historyMoves[..])
                else old(historyMoves[..])[HistoryIndex(nextMove) := old(historyMoves[HistoryIndex(nextMove)]) + depth * depth]
    {
      hide KeysOk, KeyOf, Indexed, Material, Hashable, Decode, HistoryIndex;
      if movesMade == 1 {
        failHighFirst := failHighFirst + 1;
      }
      failHigh := failHigh + 1;
      if Captured(nextMove) == NOPIECE {
        StoreKillerMove(nextMove, depth);
        StoreHistoryMove(nextMove, depth * depth);
      }
    }

    method AlphaBetaLoop(alpha0: int, beta: int, depth: int, inCheck: bool) returns (score: int)
      requires Valid() && Live(gen.board.keys, State()) && Hashable(State().pos) && !Drawn(gen.board.keys, State())
      requires alpha0 < beta && 0 < depth < MAXDEPTH && (inCheck <==> InCheck(State().pos.sq, State().pos.side))
      requires gen.board.hisPly + depth + PieceCount(gen.board.sq) <= MAXGAMELENGTH
      modifies this`nodes, this`failHigh, this`failHighFirst, this`stop, this`ticks, pvTable, killerMoves, historyMoves, gen.board.Repr
      ensures gen.board.keys == old(gen.board.keys)
      ensures Valid() && State() == old(State()) && gen.board.hisPly == old(gen.board.hisPly)
      ensures old(ticks) <= ticks && (stop <==> old(stop) || Fired(old(ticks), ticks))
      ensures old(stop) ==> unchanged(pvTable, killerMoves, historyMoves)
      ensures !stop ==> Window(alpha0, beta, old(Negamax(gen.board.keys, State(), depth)), score)
      ensures Grown(gen.board.keys, old(State()), depth, rootPosKey, old(pvTable[..]), pvTable[..])
      ensures !stop && alpha0 < score < beta && old(LegalMoves(State().pos)) != {} ==> Answered(old(State()), depth, score)
      decreases depth, 1
    {
      hide Grown, Answered, Attains, Decode, Encode, WellFormed, PseudoLegal, Legal, PieceCount, Negamax, NegamaxChild,
           NoDup, Drawn,
           Decoded, InCheck, AllMoves, AllPlaces, WellPacked, MovesLeft, NoneBetter, AllLeft, OnBoard, AllOnBoard, MovePriority,
           HistoryIndex, Slot, Priorities, Leads, Boards.Board.Valid;
      ghost var keys, g := gen.board.keys, State();
      var alpha, bestMove, movesMade := alpha0, NOMOVE, 0;
      var moveList := gen.GenerateMoves();
      MovesToGo(keys, g, depth, moveList, alpha);
      NothingGrown(keys, g, depth, rootPosKey, pvTable[..]);
      while moveList != []
        invariant Valid() && State() == g && gen.board.keys == keys && gen.board.hisPly == old(gen.board.hisPly)
        invariant old(ticks) <= ticks && (stop <==> old(stop) || Fired(old(ticks), ticks))
        invariant alpha0 <= alpha < beta && movesMade >= 0
        invariant MovesLeft(g, moveList)
        invariant NoneBetter(keys, g, depth, Decoded(moveList), alpha)
        invariant alpha != alpha0 ==> Attains(keys, g, depth, bestMove, alpha)
        invariant movesMade == 0 ==> unchanged(pvTable, killerMoves, historyMoves)
        invariant movesMade == 0 ==> alpha == alpha0 && AllLeft(g, Decoded(moveList))
        invariant movesMade > 0 ==> !stop && LegalMoves(g.pos) != {}
        invariant Grown(keys, g, depth, rootPosKey, old(pvTable[..]), pvTable[..])
        decreases |moveList|
      {
        ReadyToPick(g, moveList);
        var nextMove, rest, at := PickNextMove(moveList, depth);
        assert nextMove in moveList;
        ghost var before, bound := moveList, alpha;
        moveList := rest;
        MovePicked(g, before, at);
        ghost var table := pvTable[..];
        var made, moveScore := SearchMove(nextMove, alpha, beta, depth);
        GrownTwice(keys, g, depth, rootPosKey, old(pvTable[..]), table, pvTable[..]);
        if made {
          movesMade := movesMade + 1;
          if stop {
            return 0;
          }
          assert Decode(nextMove) in LegalMoves(g.pos);
          if moveScore > alpha {
            if moveScore >= beta {
              ReadyToPick(g, before);
              RecordCutoff(nextMove, movesMade, depth);
              NegamaxCutoff(keys, g, depth, Decode(nextMove));
              return beta;
            }
            alpha := moveScore;
            bestMove := nextMove;
            AttainedBy(keys, g, depth, bestMove, alpha);
          }
        }
        MoveDone(keys, g, depth, before, at, bound, alpha);
      }
      if movesMade == 0 {
        NothingLeft(keys, g, depth);
        return if inCheck then -MATE - depth else 0;
      }
      ExactAtTheEnd(keys, g, depth, alpha0, alpha, beta, bestMove);
      if alpha != alpha0 {
        StoreBest(g, bestMove, alpha, depth, old(pvTable[..]));
      }
      return alpha;
    }

    /** Storing the exact result of a position; it lands in the table unless the slot is guarded. */
    method StoreBest(ghost g: Game, bestMove: Key, score: int, depth: int, ghost before: seq<PVNode>)
      requires Valid() && State() == g && Live(gen.board.keys, g) && 0 < depth < MAXDEPTH && !stop
      requires Attains(gen.board.keys, g, depth, bestMove, score) && score == Negamax(gen.board.keys, g, depth)
      requires Grown(gen.board.keys, g, depth, rootPosKey, before, pvTable[..])
      modifies pvTable
      ensures Valid() && Answered(g, depth, score)
      ensures Grown(gen.board.keys, g, depth, rootPosKey, before, pvTable[..])
    {
      hide Grown, Slot, KeysOk, KeyOf, Hashable, WellFormed, Legal, NegamaxChild, Negamax, Boards.Board.Valid;
      ghost var table := pvTable[..];
      KeyHere();
      StorePvMove(bestMove, score);
      GrownByStore(gen.board.keys, g, depth, rootPosKey, table, pvTable[..], PVNode(gen.board.posKey, bestMove, score));
      GrownTwice(gen.board.keys, g, depth, rootPosKey, before, table, pvTable[..]);
    }

    // ----- The root -----

    /** One iteration at the root with the full window: the exact value, and a best move kept unless the slot is guarded. */
    method SearchRoot(depth: int) returns (score: int)
      requires Valid() && Live(gen.board.keys, State())
      requires gen.board.hisPly + Plies(depth) + PieceCount(gen.board.sq) <= MAXGAMELENGTH
      modifies this`nodes, this`failHigh, this`failHighFirst, this`stop, this`ticks, pvTable, killerMoves, historyMoves, gen.board.Repr
      ensures gen.board.keys == old(gen.board.keys)
      ensures Valid() && State() == old(State()) && gen.board.hisPly == old(gen.board.hisPly)
      ensures gen.board.posKey == old(gen.board.posKey)
      ensures old(ticks) <= ticks && (stop <==> old(stop) || Fired(old(ticks), ticks))
      ensures !stop ==> score == old(Negamax(gen.board.keys, State(), depth))
      ensures Grown(gen.board.keys, old(State()), Plies(depth), rootPosKey, old(pvTable[..]), pvTable[..])
      ensures !stop && 0 < depth < MAXDEPTH && old(Open(gen.board.keys, State())) ==> Answered(old(State()), depth, score)
      ensures !stop && 0 < depth < MAXDEPTH && old(Open(gen.board.keys, State()))
              && (rootPosKey == gen.board.posKey || Unheard(gen.board.keys, old(State()), depth - 1, rootPosKey)) ==>
                (old(Unguarded()) <==> Attains(gen.board.keys, old(State()), depth, GetPvMove(), score))
    {
      hide WellFormed, Legal, PieceCount, Negamax, Boards.Board.GridStored, Boards.Board.ListsStored, Indexed, KeysOk,
           KeyOf, Material, Hashable, Slot, Open, Attains,
           Grown, Answered;
      ghost var keys, g := gen.board.keys, State();
      NegamaxBounded(keys, g, depth);
      score := AlphaBeta(-INFINITE, INFINITE, depth);
      GuardKept(g, depth, old(pvTable[..]));
      if !stop && 0 < depth < MAXDEPTH && old(Open(gen.board.keys, State())) {
        AnsweredMeans(g, depth, score);
      }
    }

    /** Whether the slot is open can be told before the search. */
    lemma GuardKept(g: Game, depth: int, before: seq<PVNode>)
      requires Valid() && State() == g && Live(gen.board.keys, g) && |before| == TTABLEENTRIES
      requires Grown(gen.board.keys, g, Plies(depth), rootPosKey, before, pvTable[..])
      ensures 0 < depth < MAXDEPTH && (rootPosKey == gen.board.posKey || Unheard(gen.board.keys, g, depth - 1, rootPosKey)) ==>
                (Unguarded() <==> OpenSlot(rootPosKey, before, gen.board.posKey))
    {
      hide Slot, KeysOk, KeyOf, Hashable, WellFormed, Boards.Board.Valid, Grown, Unheard, OpenSlot;
      KeyHere();
      if 0 < depth < MAXDEPTH && (rootPosKey == gen.board.posKey || Unheard(gen.board.keys, g, depth - 1, rootPosKey)) {
        SlotOpenIff(gen.board.keys, g, depth, rootPosKey, before, pvTable[..]);
      }
    }

    lemma AnsweredMeans(g: Game, depth: int, value: int)
      requires Valid() && Live(gen.board.keys, g) && depth > 0
      ensures Answered(g, depth, value) ==> (Unguarded() <==> Attains(gen.board.keys, g, depth, GetPvMove(), value))
    {
      hide Slot, KeysOk, Boards.Board.Valid, Attains, ExactAt, OpenSlot;
    }

    /** Iterative deepening: one completed iteration after another until the clock or the depth limit. However it ends,
        what completed iterations have put into the table is not lost. */
    method Deepen() returns (score: int)
      requires Valid() && Live(gen.board.keys, State()) && 1 <= searchDepth < MAXDEPTH
      requires gen.board.hisPly + MAXDEPTH - 1 + PieceCount(gen.board.sq) <= MAXGAMELENGTH
      modifies this`nodes, this`failHigh, this`failHighFirst, this`stop, this`ticks, this`searchDepth,
               pvTable, killerMoves, historyMoves, gen.board.Repr
      ensures gen.board.keys == old(gen.board.keys)
      ensures Valid() && State() == old(State()) && gen.board.posKey == old(gen.board.posKey)
      ensures old(ticks) <= ticks && (stop <==> old(stop) || Fired(old(ticks), ticks))
      ensures old(searchDepth) <= searchDepth <= MAXDEPTH + 1 && (searchDepth <= MAXDEPTH ==> stop)
      ensures searchDepth > old(searchDepth) ==> score == Negamax(gen.board.keys, old(State()), searchDepth - 1)
      ensures Grown(gen.board.keys, old(State()), Reach(searchDepth), rootPosKey, old(pvTable[..]), pvTable[..])
      ensures searchDepth > old(searchDepth) && old(Open(gen.board.keys, State())) ==>
                Harvest(gen.board.keys, old(State()), rootPosKey, pvTable[..], searchDepth - 1, Reach(searchDepth))
    {
      hide WellFormed, Legal, PieceCount, Negamax, Boards.Board.Valid, Slot, Open, Attains, GetPvMove, Grown, ExactAt,
           Harvest, Hashable,
           Answered, Unheard;
      ghost var keys, g, table := gen.board.keys, State(), pvTable[..];
      ghost var first, open := searchDepth, Open(keys, g);
      score := 0;
      NothingGrown(keys, g, Reach(searchDepth), rootPosKey, table);
      while true
        invariant Valid() && State() == g && gen.board.keys == keys && gen.board.hisPly == old(gen.board.hisPly) && gen.board.posKey == old(gen.board.posKey)
        invariant old(ticks) <= ticks && (stop <==> old(stop) || Fired(old(ticks), ticks))
        invariant first <= searchDepth <= MAXDEPTH + 1
        invariant searchDepth > first ==> score == Negamax(keys, g, searchDepth - 1) && !stop
        invariant Grown(keys, g, Reach(searchDepth), rootPosKey, table, pvTable[..])
        invariant searchDepth > first && open ==>
                    Harvest(keys, g, rootPosKey, pvTable[..], searchDepth - 1, Reach(searchDepth))
        decreases MAXDEPTH + 1 - searchDepth
      {
        ghost var before := pvTable[..];
        var tempScore := SearchRoot(searchDepth);
        IterationDone(g, searchDepth, before);
        GrownTwice(keys, g, Reach(searchDepth), rootPosKey, table, before, pvTable[..]);
        if !stop && searchDepth <= MAXDEPTH {
          score := tempScore;
          GrownDeeper(keys, g, Reach(searchDepth), Reach(searchDepth + 1), rootPosKey, table, pvTable[..]);
        } else {
          break;
        }
        searchDepth := searchDepth + 1;
      }
    }

    /** What one more iteration, completed or not, leaves in the table. */
    lemma IterationDone(g: Game, depth: int, before: seq<PVNode>)
      requires Valid() && State() == g && Live(gen.board.keys, g) && |before| == TTABLEENTRIES
      requires Grown(gen.board.keys, g, Plies(depth), rootPosKey, before, pvTable[..]) && depth > 0
      ensures Grown(gen.board.keys, g, Reach(depth), rootPosKey, before, pvTable[..])
      ensures Harvest(gen.board.keys, g, rootPosKey, before, depth - 1, Reach(depth)) ==>
                Harvest(gen.board.keys, g, rootPosKey, pvTable[..], depth - 1, Reach(depth))
      ensures depth < MAXDEPTH && Answered(g, depth, Negamax(gen.board.keys, g, depth)) ==>
                Harvest(gen.board.keys, g, rootPosKey, pvTable[..], depth, Reach(depth + 1))
      ensures depth >= MAXDEPTH && Harvest(gen.board.keys, g, rootPosKey, before, depth - 1, Reach(depth)) ==>
                Harvest(gen.board.keys, g, rootPosKey, pvTable[..], depth, Reach(depth + 1))
    {
      hide Slot, KeysOk, KeyOf, Hashable, WellFormed, Boards.Board.Valid, Grown, Harvest, Answered, Negamax;
      var keys := gen.board.keys;
      GrownDeeper(keys, g, Plies(depth), Reach(depth), rootPosKey, before, pvTable[..]);
      if Harvest(keys, g, rootPosKey, before, depth - 1, Reach(depth)) {
        HarvestKept(keys, g, Plies(depth), rootPosKey, before, pvTable[..], depth - 1, Reach(depth));
      }
      if depth < MAXDEPTH {
        AnswerHarvested(g, depth);
      } else {
        HarvestLater(keys, g, rootPosKey, pvTable[..], depth - 1, depth, Reach(depth));
      }
    }

    lemma AnswerHarvested(g: Game, depth: int)
      requires Valid() && State() == g && Live(gen.board.keys, g) && 0 < depth < MAXDEPTH
      ensures Answered(g, depth, Negamax(gen.board.keys, g, depth)) ==>
                Harvest(gen.board.keys, g, rootPosKey, pvTable[..], depth, Reach(depth + 1))
    {
      hide Slot, KeysOk, KeyOf, Hashable, WellFormed, Boards.Board.Valid, ExactAt, Harvest, Attains, Negamax;
      KeyHere();
      PvMoveIsLookup();
      if Answered(g, depth, Negamax(gen.board.keys, g, depth)) {
        HarvestOfIteration(gen.board.keys, g, depth, rootPosKey, pvTable[..]);
        HarvestDeeper(gen.board.keys, g, rootPosKey, pvTable[..], depth, depth, Reach(depth + 1));
      }
    }
  }

  /** The keys still to be searched are proper keys of captures in the position. */
  ghost predicate CapturesLeft(g: Game, ks: seq<Key>)
    requires Shape(g.pos.sq) && IsSide(g.pos.side)
  {
    WellPacked(ks) && forall k :: k in ks ==> PseudoLegal(g.pos, Decode(k)) && IsCapture(Decode(k))
  }

  /** The keys still to be searched are proper keys of moves in the position. */
  ghost predicate MovesLeft(g: Game, ks: seq<Key>)
    requires Shape(g.pos.sq) && IsSide(g.pos.side)
  {
    WellPacked(ks) && forall k :: k in ks ==> PseudoLegal(g.pos, Decode(k))
  }

  /** Every legal move is still in the list. */
  ghost predicate AllLeft(g: Game, ms: seq<Move>)
    requires WellFormed(g.pos)
  {
    forall m :: Legal(g.pos, m) ==> m in ms
  }

  lemma MovesToGo(keys: Keys, g: Game, depth: int, ks: seq<Key>, alpha: int)
    requires Live(keys, g) && depth > 0 && WellPacked(ks)
    requires forall m :: m in Decoded(ks) <==> PseudoLegal(g.pos, m)
    ensures MovesLeft(g, ks) && NoneBetter(keys, g, depth, Decoded(ks), alpha) && AllLeft(g, Decoded(ks))
  {
    hide Decode, Encode, WellFormed, PseudoLegal, Decoded, NegamaxChild, WellPacked;
    WellShaped(g.pos);
    forall k | k in ks
      ensures PseudoLegal(g.pos, Decode(k))
    {
      DecodedMember(ks, k);
    }
  }

  lemma MovePicked(g: Game, ks: seq<Key>, at: nat)
    requires Shape(g.pos.sq) && IsSide(g.pos.side) && at < |ks| && MovesLeft(g, ks)
    ensures MovesLeft(g, ks[..at] + ks[at + 1..])
    ensures PseudoLegal(g.pos, Decode(ks[at])) && Encode(Decode(ks[at])) == ks[at] && ks[at] != NOMOVE
  {
    hide Decode, Encode, PseudoLegal, IsCapture, Packable;
    var rest := ks[..at] + ks[at + 1..];
    RestOf(ks, at);
    forall k | k in rest
      ensures k != NOMOVE && Packable(Decode(k)) && Encode(Decode(k)) == k && PseudoLegal(g.pos, Decode(k))
    {
      assert k in ks;
    }
    assert ks[at] in ks;
  }

  lemma MoveDone(keys: Keys, g: Game, depth: int, ks: seq<Key>, at: nat, bound: int, alpha: int)
    requires Live(keys, g) && depth > 0 && at < |ks| && NoneBetter(keys, g, depth, Decoded(ks), bound) && bound <= alpha
    requires Legal(g.pos, Decode(ks[at])) ==> NegamaxChild(keys, g, Decode(ks[at]), depth) <= alpha
    ensures NoneBetter(keys, g, depth, Decoded(ks[..at] + ks[at + 1..]), alpha)
    ensures AllLeft(g, Decoded(ks)) && !Legal(g.pos, Decode(ks[at])) ==> AllLeft(g, Decoded(ks[..at] + ks[at + 1..]))
  {
    hide Decode, WellFormed, Legal, NegamaxChild;
    forall m | Legal(g.pos, m) && m in Decoded(ks) && m != Decode(ks[at])
      ensures m in Decoded(ks[..at] + ks[at + 1..])
    {
      DecodedRest(ks, at, m);
    }
  }

  lemma NothingLeft(keys: Keys, g: Game, depth: int)
    requires Live(keys, g) && 0 < depth < MAXDEPTH && Hashable(g.pos) && !Drawn(keys, g) && AllLeft(g, [])
    ensures LegalMoves(g.pos) == {}
    ensures Negamax(keys, g, depth) == if InCheck(g.pos.sq, g.pos.side) then -MATE - depth else 0
  {
    hide Legal, Drawn, InCheck, WellFormed;
    forall m
      ensures m !in LegalMoves(g.pos)
    {
      assert !Legal(g.pos, m);
    }
  }

  lemma DecodedMember(ks: seq<Key>, k: Key)
    requires k in ks
    ensures Decode(k) in Decoded(ks)
  {
    var i :| 0 <= i < |ks| && ks[i] == k;
    assert Decoded(ks)[i] == Decode(k);
  }

  lemma CapturesToGo(keys: Keys, g: Game, ks: seq<Key>, alpha: int)
    requires Live(keys, g) && WellPacked(ks)
    requires forall m :: m in Decoded(ks) <==> PseudoLegal(g.pos, m) && IsCapture(m)
    ensures CapturesLeft(g, ks) && NoneBetterCapture(keys, g, Decoded(ks), alpha)
  {
    hide Decode, Encode, WellFormed, PseudoLegal, IsCapture, Decoded, QuiesceChild, WellPacked;
    WellShaped(g.pos);
    forall k | k in ks
      ensures PseudoLegal(g.pos, Decode(k)) && IsCapture(Decode(k))
    {
      DecodedMember(ks, k);
    }
  }

  lemma CapturePicked(g: Game, ks: seq<Key>, at: nat)
    requires Shape(g.pos.sq) && IsSide(g.pos.side) && at < |ks| && CapturesLeft(g, ks)
    ensures CapturesLeft(g, ks[..at] + ks[at + 1..])
    ensures PseudoLegal(g.pos, Decode(ks[at])) && IsCapture(Decode(ks[at])) && Encode(Decode(ks[at])) == ks[at]
  {
    hide Decode, Encode, PseudoLegal, IsCapture, Packable;
    var rest := ks[..at] + ks[at + 1..];
    RestOf(ks, at);
    forall k | k in rest
      ensures k != NOMOVE && Packable(Decode(k)) && Encode(Decode(k)) == k && PseudoLegal(g.pos, Decode(k)) && IsCapture(Decode(k))
    {
      assert k in ks;
    }
    assert ks[at] in ks;
  }

  /** Dropping a key whose move is no better than alpha loses nothing. */
  lemma CaptureDone(keys: Keys, g: Game, ks: seq<Key>, at: nat, bound: int, alpha: int)
    requires Live(keys, g) && at < |ks| && NoneBetterCapture(keys, g, Decoded(ks), bound) && bound <= alpha
    requires Legal(g.pos, Decode(ks[at])) && IsCapture(Decode(ks[at])) ==> QuiesceChild(keys, g, Decode(ks[at])) <= alpha
    ensures NoneBetterCapture(keys, g, Decoded(ks[..at] + ks[at + 1..]), alpha)
  {
    hide Decode, WellFormed, Legal, IsCapture, QuiesceChild;
    var rest := ks[..at] + ks[at + 1..];
    forall m | Legal(g.pos, m) && IsCapture(m)
      ensures m in Decoded(rest) || QuiesceChild(keys, g, m) <= alpha
    {
      if m in Decoded(ks) && m != Decode(ks[at]) {
        DecodedRest(ks, at, m);
      }
    }
  }

  lemma RestOf(s: seq<Key>, at: nat)
    requires at < |s|
    ensures forall x :: x in s[..at] + s[at + 1..] ==> x in s
  {
    var rest := s[..at] + s[at + 1..];
    forall x | x in rest
      ensures x in s
    {
      var i :| 0 <= i < |rest| && rest[i] == x;
      assert s[if i < at then i else i + 1] == x;
    }
  }

  lemma DecodedRest(ks: seq<Key>, at: nat, m: Move)
    requires at < |ks| && m in Decoded(ks) && m != Decode(ks[at])
    ensures m in Decoded(ks[..at] + ks[at + 1..])
  {
    hide Decode;
    var i :| 0 <= i < |ks| && Decoded(ks)[i] == m;
    var rest := ks[..at] + ks[at + 1..];
    assert Decoded(rest)[if i < at then i else i - 1] == m;
  }
}
