/** The engine's answer to a FEN text: the handler's use of the searcher (handle_ai in src/chess_handler.cc). */
module Engines {
  import opened Pieces
  import opened Squares
  import opened Rules
  import opened Zobrist
  import opened Invariant
  import opened Games
  import opened Fen
  import opened Boards
  import opened Trees
  import opened PvTables
  import opened Searchers
  import opened ChessHandlers

  /** One run of the engine on a text: the move it finds, its score and the depth it completed, for any content of the
      uninitialised table and any clock. The searcher is prepared before the text is read, so the protected key is that of
      the cleared board. */
  method Recommend(keys: Keys, fen: string, memory: seq<PVNode>, clock: Clock) returns (move: Key, score: int, depth: nat)
    requires KeysOk(keys) && keys.base == 0 && Parse(fen, START).Accepted? && WellFormed(Parse(fen, START).pos)
    requires |memory| == TTABLEENTRIES
    ensures var g, ks := Game(Parse(fen, START).pos, [], 0), keys.(base := Stray(keys, CastleField(fen)));
            && Live(ks, g) && Hashable(g.pos)
            && Recommended(ks, g, keys.side, memory, move, score, depth)
    ensures (forall i :: !clock(i)) ==> depth == MAXDEPTH
  {
    hide KeyOf, WellFormed, Parse, Legal, Indexed, Material, Hashable, Stray, CastleField, Recommended, Boards.Board.GridStored,
         Boards.Board.ListsStored;
    ghost var g, ks := Game(Parse(fen, START).pos, [], 0), keys.(base := Stray(keys, CastleField(fen)));
    WellFormedHashable(g.pos);
    ClearBoardForms(keys);
    XorZero(keys.side);
    StraySmall(keys, CastleField(fen));
    var s := new Searcher(keys, memory, clock);
    var ok := s.gen.board.ParseFen(fen);
    move, score, depth := RunSearch(s);
  }

  /** The deepening search on a position that has just been set up, and the move it leaves in the table. */
  method RunSearch(s: Searcher) returns (move: Key, score: int, depth: nat)
    requires s.Valid() && WellFormed(s.State().pos) && s.gen.board.hisPly == 0 && s.searchDepth == 1 && !s.stop
    modifies s, s.pvTable, s.killerMoves, s.historyMoves, s.gen.board.Repr
    ensures old(Live(s.gen.board.keys, s.State()) && Hashable(s.State().pos))
    ensures Recommended(old(s.gen.board.keys), old(s.State()), old(s.rootPosKey), old(s.pvTable[..]), move, score, depth)
    ensures (forall i :: !s.clock(i)) ==> depth == MAXDEPTH
  {
    hide KeyOf, WellFormed, KeysOk, Hashable, InTree, NoTwin, Open, PieceCount, Harvest, Lookup, Grown, Recommended, Negamax,
         Boards.Board.GridStored, Boards.Board.ListsStored, Indexed, Material;
    ghost var keys, g, memory := s.gen.board.keys, s.State(), s.pvTable[..];
    WellShaped(g.pos);
    AtMostOneEach(g.pos.sq);
    s.KeyHere();
    score := s.Deepen();
    s.KeyHere();
    s.PvMoveIsLookup();
    move := s.GetPvMove();
    depth := s.searchDepth - 1;
    DeepenedIsRecommended(keys, g, s.rootPosKey, memory, s.pvTable[..], score, depth);
  }

  /** What can be said of a recommendation without knowing the clock. */
  ghost predicate Recommended(keys: Keys, g: Game, guard: bv32, memory: seq<PVNode>, move: Key, score: int, depth: nat)
    requires Live(keys, g) && Hashable(g.pos) && |memory| == TTABLEENTRIES
  {
    var key, d := KeyOf(keys, g.pos), Reach(depth + 1);
    && (depth > 0 ==> score == Negamax(keys, g, depth))
    && (!OpenSlot(guard, memory, key) ==> move == NOMOVE)
    && (NoTwin(keys, g, d - 1) && (EntryOf(memory, key).posKey != key || (depth > 0 && Open(keys, g))) ==>
          move == NOMOVE || Legal(g.pos, Decode(move)))
    && (NoTwin(keys, g, d - 1) && depth > 0 && Open(keys, g) && guard == key ==> move != NOMOVE)
    && (depth >= MAXDEPTH - 1 && Open(keys, g) && (guard == key || Unheard(keys, g, d - 1, guard)) ==>
          (OpenSlot(guard, memory, key) <==> Attains(keys, g, MAXDEPTH - 1, move, Negamax(keys, g, MAXDEPTH - 1))))
  }

  lemma DeepenedIsRecommended(keys: Keys, g: Game, guard: bv32, memory: seq<PVNode>, table: seq<PVNode>, score: int, depth: nat)
    requires Live(keys, g) && Hashable(g.pos) && |memory| == |table| == TTABLEENTRIES
    requires depth > 0 ==> score == Negamax(keys, g, depth)
    requires Grown(keys, g, Reach(depth + 1), guard, memory, table)
    requires depth > 0 && Open(keys, g) ==> Harvest(keys, g, guard, table, depth, Reach(depth + 1))
    ensures Recommended(keys, g, guard, memory, Lookup(table, KeyOf(keys, g.pos)), score, depth)
  {
    hide KeysOk, KeyOf, WellFormed, Legal, Hashable, InTree, NoTwin, Open, Harvest, Lookup, Grown, Negamax, OpenSlot, EntryOf;
    var key, d := KeyOf(keys, g.pos), Reach(depth + 1);
    if !OpenSlot(guard, memory, key) {
      GuardedFindsNothing(keys, g, d, guard, memory, table);
    }
    if NoTwin(keys, g, d - 1) {
      if EntryOf(memory, key).posKey != key {
        FoundIsLegal(keys, g, d, guard, memory, table);
      }
      if depth > 0 && Open(keys, g) {
        HarvestIsSafe(keys, g, guard, table, depth, d);
      }
    }
    if depth >= MAXDEPTH - 1 && Open(keys, g) && (guard == key || Unheard(keys, g, d - 1, guard)) {
      SlotOpenIff(keys, g, d, guard, memory, table);
      DeepestAttains(keys, g, guard, table, depth, d);
    }
  }

  lemma DeepestAttains(keys: Keys, g: Game, guard: bv32, table: seq<PVNode>, depth: nat, d: int)
    requires Live(keys, g) && Hashable(g.pos) && |table| == TTABLEENTRIES && depth >= MAXDEPTH - 1
    requires Harvest(keys, g, guard, table, depth, d)
    ensures OpenSlot(guard, table, KeyOf(keys, g.pos))
       <==> Attains(keys, g, MAXDEPTH - 1, Lookup(table, KeyOf(keys, g.pos)), Negamax(keys, g, MAXDEPTH - 1))
  {
    hide KeysOk, KeyOf, WellFormed, Legal, Hashable, FromTree, Lookup, Negamax, OpenSlot, EntryOf, Attains;
  }

  // ----- A root whose slot is guarded by the key of the cleared board -----

  function Zeros(n: nat): (s: seq<bv32>)
    ensures |s| == n && forall i :: 0 <= i < n ==> s[i] == 0
  {
    seq(n, _ => 0)
  }

  function ZeroRows(n: nat): (s: seq<seq<bv32>>)
    ensures |s| == 8 && forall i :: 0 <= i < 8 ==> s[i] == Zeros(n)
  {
    seq(8, _ => Zeros(n))
  }

  function ZeroTable(): (s: seq<seq<seq<bv32>>>)
    ensures |s| == 8 && forall i :: 0 <= i < 8 ==> s[i] == ZeroRows(12)
  {
    seq(8, _ => ZeroRows(12))
  }

  /** Random keys that all came out as 0, except that of white to move. */
  function SideOnly(): Keys { Keys(100000, Zeros(4), ZeroRows(8), ZeroTable(), 0) }

  ghost predicate OnlySide(keys: Keys) {
    && KeysOk(keys) && keys.base == 0 && keys.side != 0 && Slot(keys.side) == Slot(0)
    && (forall r, c, p :: On(r, c) && IsCell(p) ==> CellKey(keys, r, c, p) == 0)
  }

  lemma SideOnlyOk()
    ensures OnlySide(SideOnly())
  {
    hide Zeros, ZeroRows, ZeroTable;
    assert Slot(100000) == 0 == Slot(0);
    hide Slot;
  }

  lemma {:induction false} RowKeyZero(keys: Keys, sq: Grid, r: int, n: nat)
    requires OnlySide(keys) && Shape(sq) && 0 <= r < 8 && n <= 8
    ensures RowKey(keys, sq, r, n) == 0
  {
    XorZero(0);
    hide Xor, CellKey, KeysOk;
    if n > 0 {
      RowKeyZero(keys, sq, r, n - 1);
    }
  }

  lemma {:induction false} RowsKeyZero(keys: Keys, sq: Grid, n: nat)
    requires OnlySide(keys) && Shape(sq) && n <= 8
    ensures RowsKey(keys, sq, n) == 0
  {
    XorZero(0);
    hide Xor, RowKey, KeysOk, CellKey;
    if n > 0 {
      RowsKeyZero(keys, sq, n - 1);
      RowKeyZero(keys, sq, n - 1, 8);
    }
  }

  /** The key of a position with black to move, no rights and no en passant square. */
  lemma PlainKeyZero(keys: Keys, pos: Pos)
    requires OnlySide(keys) && Hashable(pos) && pos.side == BLACK && pos.castle == 0 && pos.epR == OFFBOARD
    ensures KeyOf(keys, pos) == 0
  {
    RowsKeyZero(keys, pos.sq, 8);
    XorZero(0);
    assert CastleKey(keys, 0) == 0;
    hide RowsKey, Xor, KeysOk, CastleKey;
  }

  lemma LonePawnOpen(keys: Keys)
    requires KeysOk(keys)
    ensures Live(keys, Game(LonePawn(), [], 0)) && Open(keys, Game(LonePawn(), [], 0)) && Hashable(LonePawn())
  {
    LonePawnWellFormed();
    WellFormedHashable(LonePawn());
    BlackPromotionRefused();
    hide KeysOk, KeyOf, WellFormed, Legal, LonePawn, MoveOf, Hashable;
    assert MoveOf(LonePawn(), 6, 3, 7, 3, BQ) in LegalMoves(LonePawn());
  }

  /** A position with a move to choose whose slot holds the protected key of the cleared board: a search of any depth,
      stopped or not, leaves getPvMove without a move. SideOnly is such a set of keys. */
  lemma GuardedRoot(keys: Keys, memory: seq<PVNode>, after: seq<PVNode>, d: int)
    requires OnlySide(keys) && |memory| == TTABLEENTRIES && memory[Slot(0)].posKey == keys.side
    requires Live(keys, Game(LonePawn(), [], 0)) && Grown(keys, Game(LonePawn(), [], 0), d, keys.side, memory, after)
    ensures Open(keys, Game(LonePawn(), [], 0)) && Hashable(LonePawn()) && |after| == TTABLEENTRIES
    ensures Lookup(after, KeyOf(keys, LonePawn())) == NOMOVE
  {
    LonePawnOpen(keys);
    PlainKeyZero(keys, LonePawn());
    hide KeysOk, KeyOf, WellFormed, LonePawn, Grown, Hashable, Lookup, Slot, CellKey, Open, FromTree;
    SlotAfterwards(keys, Game(LonePawn(), [], 0), d, keys.side, memory, after, Slot(0));
    GuardedFindsNothing(keys, Game(LonePawn(), [], 0), d, keys.side, memory, after);
  }
}
