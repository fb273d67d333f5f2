/** The move request of the chess handler: a FEN text and four digits in, the new FEN text and a verdict out. */
module ChessHandlers {
  import opened Pieces
  import opened Squares
  import opened Rules
  import opened Zobrist
  import opened Invariant
  import opened Games
  import opened Effects
  import opened Fen
  import opened Boards
  import opened Generators
  import opened Trees
  import opened Movegens

  datatype Reply = BadRequest(reason: string) | Played(fen: string, verdict: char)

  const INVALID_FEN: string := "Invalid fen"
  const INVALID_MOVE: string := "Invalid move, please try again!"

  function Coord(ch: char): int { ch as int - '0' as int }

  /** What follows the plus sign names a start square and an end square. */
  predicate FourCoords(ds: string) { |ds| == 4 && On(Coord(ds[0]), Coord(ds[1])) && On(Coord(ds[2]), Coord(ds[3])) }

  /** The promotion piece the handler fills in: a queen, but only for white. */
  function AutoQueen(p: int, tr: int): int { if tr == 0 && p == WP then WQ else NOPIECE }

  ghost function Chosen(pos: Pos, ds: string): Move
    requires Shape(pos.sq) && FourCoords(ds)
  {
    var fr, fc, tr, tc := Coord(ds[0]), Coord(ds[1]), Coord(ds[2]), Coord(ds[3]);
    MoveOf(pos, fr, fc, tr, tc, AutoQueen(At(pos.sq, fr, fc), tr))
  }

  ghost predicate Accepts(pos: Pos, ds: string)
    requires WellFormed(pos)
  {
    FourCoords(ds) && Legal(pos, Chosen(pos, ds))
  }

  /** x: the game goes on; d: draw; w, b: the side that has won. */
  ghost function Verdict(pos: Pos): char
    requires WellFormed(pos)
  {
    if LegalMoves(pos) != {} then 'x'
    else if !InCheck(pos.sq, pos.side) then 'd'
    else if pos.side == BLACK then 'w' else 'b'
  }

  ghost function After(pos: Pos, ds: string): (pos': Pos)
    requires WellFormed(pos) && Accepts(pos, ds)
    ensures WellFormed(pos') && Hashable(pos')
  {
    LegalKeepsWellFormed(pos, Chosen(pos, ds));
    Apply(pos, Chosen(pos, ds))
  }

  ghost function Answer(pos: Pos, ds: string): Reply
    requires WellFormed(pos)
  {
    if Accepts(pos, ds) then Played(Text(After(pos, ds)), Verdict(After(pos, ds))) else BadRequest(INVALID_MOVE)
  }

  /** A request for a move: refused for a bad FEN text, otherwise answered by MovePieces. */
  method HandleMove(keys: Keys, fen: string, ds: string) returns (reply: Reply)
    requires KeysOk(keys) && keys.base == 0 && !Parse(fen, START).Corrupt?
    requires Parse(fen, START).Accepted? ==> WellFormed(Parse(fen, START).pos)
    ensures reply == match Parse(fen, START)
                     case Accepted(pos) => Answer(pos, ds)
                     case _ => BadRequest(INVALID_FEN)
  {
    hide KeysOk, WellFormed, Answer, Parse;
    var b := new Board(keys);
    var ok := b.ParseFen(fen);
    if !ok {
      return BadRequest(INVALID_FEN);
    }
    reply := MovePieces(keys, fen, ds);
  }

  method MovePieces(keys: Keys, fen: string, ds: string) returns (reply: Reply)
    requires KeysOk(keys) && keys.base == 0 && Parse(fen, START).Accepted? && WellFormed(Parse(fen, START).pos)
    ensures reply == Answer(Parse(fen, START).pos, ds)
  {
    hide KeysOk, KeyOf, WellFormed, Parse, After, Verdict, Legal, Text, Indexed, Material, Boards.Board.GridStored,
         Boards.Board.ListsStored;
    if |ds| != 4 {
      return BadRequest(INVALID_MOVE);
    }
    var startRow, startCol, endRow, endCol := Coord(ds[0]), Coord(ds[1]), Coord(ds[2]), Coord(ds[3]);
    if startRow < 0 || startRow > 7 || endRow < 0 || endRow > 7 || startCol < 0 || startCol > 7 || endCol < 0 || endCol > 7 {
      return BadRequest(INVALID_MOVE);
    }
    var m := new Movegen(keys);
    var parsed := m.board.ParseFen(fen);
    reply := TryMove(m, ds);
  }

  /** The move part of the request, on a freshly parsed board. */
  method TryMove(m: Movegen, ds: string) returns (reply: Reply)
    requires m.Valid() && WellFormed(m.board.Position()) && m.board.hisPly == 0 && FourCoords(ds)
    modifies m.board.Repr
    ensures reply == old(Answer(m.board.Position(), ds))
  {
    hide KeysOk, KeyOf, WellFormed, PseudoLegal, Legal, Text, Decode, Decoded, Apply, Indexed, Material, InCheck, MoveOf,
         AllMoves, AllPlaces, NoDup, Hashable, Verdict, WellPacked, Packable, Encode, Boards.Board.Valid;
    ghost var pos := m.board.Position();
    WellShaped(pos);
    var startRow, startCol, endRow, endCol := Coord(ds[0]), Coord(ds[1]), Coord(ds[2]), Coord(ds[3]);
    var piece := NOPIECE;
    if endRow == 0 && m.board.GetPce(startRow, startCol) == WP {
      piece := WQ;
    }
    var moves := m.GenerateMoves();
    var userMove := m.GetMove(startRow, startCol, endRow, endCol, piece);
    var isPseudoLegal := IsListed(moves, userMove);
    WellPackedMember(moves, userMove);
    assert Decode(userMove) == Chosen(pos, ds);
    LegalIsPseudoLegal(pos, Chosen(pos, ds));
    var result := false;
    if isPseudoLegal {
      result := m.MakeMove(userMove);
    }
    if !result {
      return BadRequest(INVALID_MOVE);
    }
    reply := Describe(m);
  }

  method IsListed(moves: seq<Key>, k: Key) returns (found: bool)
    ensures found <==> k in moves
  {
    found := false;
    var i := 0;
    while i < |moves|
      invariant 0 <= i <= |moves|
      invariant k !in moves[..i]
    {
      if moves[i] == k {
        return true;
      }
      i := i + 1;
    }
  }

  method Describe(m: Movegen) returns (reply: Reply)
    requires m.Valid() && WellFormed(m.board.Position()) && m.board.hisPly < MAXGAMELENGTH
    modifies m.board.Repr
    ensures Hashable(old(m.board.Position()))
    ensures reply == Played(Text(old(m.board.Position())), old(Verdict(m.board.Position())))
  {
    hide KeysOk, KeyOf, WellFormed, Text, InCheck, Indexed, Material, Boards.Board.GridStored, Boards.Board.ListsStored;
    var newFen := m.board.GetFen();
    var gameResult := m.GameWinner();
    var verdict := if gameResult == 0 then 'w' else if gameResult == 1 then 'b' else if gameResult == 2 then 'd' else 'x';
    reply := Played(newFen, verdict);
  }

  lemma LegalIsPseudoLegal(pos: Pos, m: Move)
    requires WellFormed(pos)
    ensures Legal(pos, m) ==> PseudoLegal(pos, m)
  {
  }

  lemma WellPackedMember(ms: seq<Key>, k: Key)
    requires WellPacked(ms) && Packable(Decode(k)) && Encode(Decode(k)) == k
    ensures k in ms <==> Decode(k) in Decoded(ms)
  {
    hide Decode, Encode;
    if Decode(k) in Decoded(ms) {
      var i :| 0 <= i < |ms| && Decode(ms[i]) == Decode(k);
      assert ms[i] in ms && Packable(Decode(ms[i])) && Encode(Decode(ms[i])) == ms[i];
    }
    if k in ms {
      var i :| 0 <= i < |ms| && ms[i] == k;
      assert Decoded(ms)[i] == Decode(k);
    }
  }

  // ----- Which moves the handler accepts -----

  /** Own pieces other than the king on one square stop and give checks to their own king alike. */
  lemma ChecksCarryOver(a: Grid, b: Grid, r: int, c: int, side: int)
    requires Shape(a) && Shape(b) && On(r, c) && IsSide(side)
    requires forall x, y :: On(x, y) && !(x == r && y == c) ==> At(a, x, y) == At(b, x, y)
    requires Owned(At(a, r, c), side) && !IsKing(At(a, r, c)) && Owned(At(b, r, c), side)
    ensures InCheck(a, side) ==> InCheck(b, side)
  {
    if InCheck(a, side) {
      var kr, kc :| On(kr, kc) && KingAttackedOn(a, kr, kc, side);
      var pr, pc :| On(pr, pc) && AttackedFrom(a, pr, pc, kr, kc, Other(side));
      assert AttackedFrom(b, pr, pc, kr, kc, Other(side));
      assert KingAttackedOn(b, kr, kc, side);
    }
  }

  /** Whether a promotion is legal does not depend on the piece chosen. */
  lemma PromotionChoiceIsFree(pos: Pos, m: Move, prom: int)
    requires WellFormed(pos) && Legal(pos, m) && m.prom != NOPIECE && PromotesTo(pos.side, prom)
    ensures Legal(pos, m.(prom := prom))
  {
    var m' := m.(prom := prom);
    assert PseudoLegal(pos, m');
    MoveFacts(pos, m);
    MoveFacts(pos, m');
    hide WellFormed, PseudoLegal, InCheck, MoveOf, SideEffects;
    ChecksCarryOver(SquaresAfter(pos, m'), SquaresAfter(pos, m), m.tr, m.tc, pos.side);
  }

  /** The move between the two squares of a request, with a given promotion piece, is legal. */
  ghost predicate LegalAs(pos: Pos, ds: string, prom: int)
    requires WellFormed(pos) && FourCoords(ds)
  {
    Legal(pos, MoveOf(pos, Coord(ds[0]), Coord(ds[1]), Coord(ds[2]), Coord(ds[3]), prom))
  }

  ghost predicate BlackPromotes(pos: Pos, ds: string)
    requires WellFormed(pos) && FourCoords(ds)
  {
    At(pos.sq, Coord(ds[0]), Coord(ds[1])) == BP && Coord(ds[2]) == 7
  }

  lemma LegalChosen(pos: Pos, ds: string, prom: int)
    requires WellFormed(pos) && FourCoords(ds) && LegalAs(pos, ds, prom)
    ensures Accepts(pos, ds) <==> !BlackPromotes(pos, ds)
  {
    var fr, fc, tr, tc := Coord(ds[0]), Coord(ds[1]), Coord(ds[2]), Coord(ds[3]);
    var m := MoveOf(pos, fr, fc, tr, tc, prom);
    LegalIsPseudoLegal(pos, m);
    LegalIsPseudoLegal(pos, Chosen(pos, ds));
    hide Coord, WellFormed;
    if At(pos.sq, fr, fc) == WP && tr == 0 {
      hide Legal;
      PromotionChoiceIsFree(pos, m, WQ);
    } else if m.prom == NOPIECE {
      assert Chosen(pos, ds) == m;
    }
  }

  /** Main result: the handler accepts exactly the square pairs of legal moves, except black's promotions. */
  lemma AcceptedExactly(pos: Pos, ds: string)
    requires WellFormed(pos) && FourCoords(ds)
    ensures Accepts(pos, ds) <==> (exists prom :: LegalAs(pos, ds, prom)) && !BlackPromotes(pos, ds)
  {
    var chosen := AutoQueen(At(pos.sq, Coord(ds[0]), Coord(ds[1])), Coord(ds[2]));
    assert Accepts(pos, ds) <==> LegalAs(pos, ds, chosen);
    if prom :| LegalAs(pos, ds, prom) {
      LegalChosen(pos, ds, prom);
    }
  }

  /** Main result: the verdict after an accepted move, from the side that has moved: w or b if it has mated, d if it has
      left the other side no move out of check, x if the other side can move. */
  lemma VerdictMeans(pos: Pos, ds: string)
    requires WellFormed(pos) && Accepts(pos, ds)
    ensures var after, v := After(pos, ds), Verdict(After(pos, ds));
            var stuck, mated := (forall m :: !Legal(after, m)), InCheck(after.sq, Other(pos.side));
            && (v == 'w' <==> pos.side == WHITE && stuck && mated) && (v == 'b' <==> pos.side == BLACK && stuck && mated)
            && (v == 'd' <==> stuck && !mated) && (v == 'x' <==> !stuck)
  {
    hide WellFormed, Legal, InCheck, Chosen;
    WellShaped(pos);
    var after := After(pos, ds);
    if LegalMoves(after) != {} {
      var m :| m in LegalMoves(after);
    }
  }

  /** Main result: the piece that has moved stands on the target, or a white queen if a white pawn has reached its last row;
      the start is empty. */
  lemma MovedPieceStands(pos: Pos, ds: string)
    requires WellFormed(pos) && Accepts(pos, ds)
    ensures var after, p := After(pos, ds).sq, At(pos.sq, Coord(ds[0]), Coord(ds[1]));
            var q := At(after, Coord(ds[2]), Coord(ds[3]));
            && At(after, Coord(ds[0]), Coord(ds[1])) == NOPIECE && Owned(p, pos.side)
            && if IsPawn(p) && pos.side == WHITE && Coord(ds[2]) == 0 then Owned(q, WHITE) && DoDiag(q) && DoVert(q) else q == p
  {
    hide WellFormed, Coord, InCheck;
    var m := Chosen(pos, ds);
    StartAndEnd(pos, m);
    MoveChanges(pos, m);
    hide Legal, Apply;
  }

  /** Two bare kings in the corners of rank 8 and a black pawn one step from promotion. */
  ghost function LonePawn(): (pos: Pos)
    ensures Shape(pos.sq) && pos.side == BLACK && pos.castle == 0 && pos.epR == OFFBOARD && pos.epC == OFFBOARD
    ensures forall r, c :: On(r, c) ==>
              At(pos.sq, r, c) == if r == 0 && c == 0 then WK else if r == 0 && c == 7 then BK
                                  else if r == 6 && c == 3 then BP else NOPIECE
  {
    Pos(Put(Put(Put(EMPTY_GRID, 0, 0, WK), 0, 7, BK), 6, 3, BP), BLACK, 0, OFFBOARD, OFFBOARD)
  }

  lemma LonePawnCounts(p: int)
    requires IsPiece(p)
    ensures Count(LonePawn().sq, p) == if p == WK || p == BK || p == BP then 1 else 0
  {
    EmptyIndexed();
    hide Count;
    CountPut(EMPTY_GRID, 0, 0, WK, p);
    CountPut(Put(EMPTY_GRID, 0, 0, WK), 0, 7, BK, p);
    CountPut(Put(Put(EMPTY_GRID, 0, 0, WK), 0, 7, BK), 6, 3, BP, p);
  }

  lemma LonePawnUnchecked()
    ensures !InCheck(LonePawn().sq, WHITE) && NoEdgePawns(LonePawn().sq)
  {
    hide Count;
  }

  lemma LonePawnWellFormed()
    ensures WellFormed(LonePawn())
  {
    hide Count, InCheck, LonePawn;
    LonePawnUnchecked();
    forall p | IsPiece(p)
      ensures Count(LonePawn().sq, p) == if p == WK || p == BK || p == BP then 1 else 0
    {
      LonePawnCounts(p);
    }
  }

  /** The exception is real: a legal promotion of black's that the handler refuses. */
  lemma BlackPromotionRefused()
    ensures WellFormed(LonePawn()) && FourCoords("6373")
    ensures LegalAs(LonePawn(), "6373", BQ) && !Accepts(LonePawn(), "6373")
  {
    LonePawnWellFormed();
    hide WellFormed, Count;
    var pos := LonePawn();
    var m := MoveOf(pos, 6, 3, 7, 3, BQ);
    assert PseudoLegal(pos, m);
    assert Legal(pos, m);
    AcceptedExactly(pos, "6373");
  }

  /** A well-formed position whose printed castling field is empty. */
  lemma LonePawnField()
    ensures WellFormed(LonePawn()) && Hashable(LonePawn())
    ensures CastleField(Text(LonePawn())) == "" && StandardCastleField(LonePawn().castle) == "-"
  {
    LonePawnWellFormed();
    WellFormedHashable(LonePawn());
    hide WellFormed, Hashable, Text, CastleField, CastleText;
    CastleFieldOfText(LonePawn());
    LettersOnly(0);
  }

  // ----- A game played request by request -----

  /** The FEN text after a list of requests, each sent with the text of the previous answer; none if one is refused. */
  ghost predicate Served(fen: string, requests: seq<string>, last: string)
    decreases |requests|
  {
    if requests == [] then last == fen
    else
      exists next, verdict :: Replies(fen, requests[0], Played(next, verdict)) && Served(next, requests[1..], last)
  }

  /** What HandleMove answers. */
  ghost predicate Replies(fen: string, ds: string, reply: Reply) {
    match Parse(fen, START)
    case Accepted(pos) => WellFormed(pos) && reply == Answer(pos, ds)
    case _ => false
  }

  /** The position after the same moves on one board that is kept throughout. */
  ghost predicate Reached(pos: Pos, requests: seq<string>, last: Pos)
    requires WellFormed(pos)
    decreases |requests|
  {
    if requests == [] then last == pos
    else Accepts(pos, requests[0]) && Reached(After(pos, requests[0]), requests[1..], last)
  }

  lemma RepliesToText(pos: Pos, ds: string, reply: Reply)
    requires WellFormed(pos) && Hashable(pos)
    ensures Replies(Text(pos), ds, reply) <==> reply == Answer(pos, ds)
  {
    hide WellFormed, Answer, Parse, Text;
    FenRoundTrip(pos);
  }

  /** Main result: a game sent move by move as FEN text visits the same positions as one continuous board. */
  lemma {:induction false} RequestsFollowTheGame(pos: Pos, requests: seq<string>, last: string)
    requires WellFormed(pos) && Hashable(pos)
    ensures Served(Text(pos), requests, last)
       <==> exists end :: Reached(pos, requests, end) && WellFormed(end) && Hashable(end) && last == Text(end)
    decreases |requests|
  {
    hide WellFormed, Text, Hashable, Accepts, After, Verdict, Replies;
    if requests == [] {
      if last == Text(pos) {
        assert Reached(pos, requests, pos);
      }
    } else if Accepts(pos, requests[0]) {
      var pos' := After(pos, requests[0]);
      RequestsFollowTheGame(pos', requests[1..], last);
      RepliesToText(pos, requests[0], Answer(pos, requests[0]));
      assert forall end :: Reached(pos, requests, end) <==> Reached(pos', requests[1..], end);
      if Served(Text(pos), requests, last) {
        var next, verdict :| Replies(Text(pos), requests[0], Played(next, verdict)) && Served(next, requests[1..], last);
        RepliesToText(pos, requests[0], Played(next, verdict));
      }
    } else {
      if Served(Text(pos), requests, last) {
        var next, verdict :| Replies(Text(pos), requests[0], Played(next, verdict)) && Served(next, requests[1..], last);
        RepliesToText(pos, requests[0], Played(next, verdict));
        assert false;
      }
    }
  }
}
