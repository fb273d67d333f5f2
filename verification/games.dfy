/** A game in progress: the position, the records of the moves made, and the fifty-move mark. */
module Games {
  import opened Pieces
  import opened Squares
  import opened Rules
  import opened Zobrist
  import opened Invariant

  const MAXGAMELENGTH: int := 1024

  datatype History = History(posKey: bv32, move: Key, pce: int, castlePerm: bv4,
                             enpasSquareR: int, enpasSquareC: int, fiftyMove: int)

  datatype Game = Game(pos: Pos, past: seq<History>, fifty: int)

  /** What pushHistory stores before a move is made. */
  ghost function Record(keys: Keys, g: Game, k: Key): History
    requires KeysOk(keys) && Hashable(g.pos) && On(FromR(k), FromC(k))
  {
    History(KeyOf(keys, g.pos), k, At(g.pos.sq, FromR(k), FromC(k)), g.pos.castle, g.pos.epR, g.pos.epC, g.fifty)
  }

  /** A capture or a pawn move. En passant keys carry no captured piece, but a pawn moves. */
  ghost predicate Irreversible(pos: Pos, m: Move)
    requires Shape(pos.sq) && On(m.fr, m.fc)
  {
    m.cap != NOPIECE || IsPawn(At(pos.sq, m.fr, m.fc))
  }

  /** The game after the move with key k. */
  ghost function Play(keys: Keys, g: Game, k: Key): Game
    requires KeysOk(keys) && Hashable(g.pos) && Appliable(g.pos, Decode(k))
  {
    Game(Apply(g.pos, Decode(k)), g.past + [Record(keys, g, k)],
         if Irreversible(g.pos, Decode(k)) then |g.past| + 1 else g.fifty)
  }

  /** The part of a record that takeBack reads. */
  ghost predicate RecordOf(g: Game, k: Key, h: History)
    requires Shape(g.pos.sq) && On(FromR(k), FromC(k))
  {
    h.move == k && h.pce == At(g.pos.sq, FromR(k), FromC(k)) && h.castlePerm == g.pos.castle
    && h.enpasSquareR == g.pos.epR && h.enpasSquareC == g.pos.epC && h.fiftyMove == g.fifty
  }

  lemma PlayFacts(keys: Keys, g: Game, k: Key)
    requires KeysOk(keys) && Hashable(g.pos) && Appliable(g.pos, Decode(k))
    ensures var g', m := Play(keys, g, k), Decode(k);
            && On(FromR(k), FromC(k))
            && g'.past == g.past + [Record(keys, g, k)]
            && RecordOf(g, k, Record(keys, g, k))
            && g'.pos == Apply(g.pos, m)
            && g'.pos.sq == SquaresAfter(g.pos, m) && g'.pos.side == Other(g.pos.side)
            && g'.pos.castle == CastleAfter(g.pos, m)
  {
  }

  lemma WellFormedHashable(pos: Pos)
    requires WellFormed(pos)
    ensures Hashable(pos)
  {
  }

  /** Earlier records from index `from` on whose key is k. */
  function Repeats(past: seq<History>, from: int, k: bv32): (n: nat)
    requires 0 <= from <= |past|
    ensures n <= |past| - from
    decreases |past| - from
  {
    if from == |past| then 0 else (if past[from].posKey == k then 1 else 0) + Repeats(past, from + 1, k)
  }
}
