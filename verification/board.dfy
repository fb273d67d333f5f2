/** The mutable board of src/chess/board.cpp: one position kept in several redundant forms. */
module Boards {
  import opened Pieces
  import opened Squares
  import opened Rules
  import opened Fen
  import opened Zobrist
  import opened Games
  import opened Rays

  type Place = (int, int)

  ghost predicate NoDup<T>(s: seq<T>) { forall i, j :: 0 <= i < j < |s| ==> s[i] != s[j] }

  /** The piece lists hold exactly the squares of each piece type, each once. */
  ghost predicate Indexed(sq: Grid, lists: seq<seq<Place>>)
    requires Shape(sq)
  {
    && |lists| == 12
    && (forall p :: IsPiece(p) ==> NoDup(lists[p]) && |lists[p]| == Count(sq, p))
    && (forall p, r, c :: IsPiece(p) ==> ((r, c) in lists[p] <==> On(r, c) && At(sq, r, c) == p))
  }

  /** Deleting entry j by moving the last entry into its place. */
  function SwapRemove<T>(s: seq<T>, j: int): (t: seq<T>)
    requires 0 <= j < |s|
    ensures |t| == |s| - 1
  {
    s[j := s[|s| - 1]][..|s| - 1]
  }

  lemma SwapRemoveKeepsTheRest<T>(s: seq<T>, j: int)
    requires 0 <= j < |s| && NoDup(s)
    ensures NoDup(SwapRemove(s, j))
    ensures forall x :: x in SwapRemove(s, j) <==> x in s && x != s[j]
  {
    var t := SwapRemove(s, j);
    forall x | x in s && x != s[j]
      ensures x in t
    {
      var i :| 0 <= i < |s| && s[i] == x;
      assert t[if i == |s| - 1 then j else i] == x;
    }
  }

  lemma IndexedAdd(sq: Grid, lists: seq<seq<Place>>, r: int, c: int, p: int)
    requires Shape(sq) && Indexed(sq, lists) && On(r, c) && IsPiece(p) && At(sq, r, c) == NOPIECE
    ensures Indexed(Put(sq, r, c, p), lists[p := lists[p] + [(r, c)]])
  {
    var lists' := lists[p := lists[p] + [(r, c)]];
    assert (r, c) !in lists[p];
    forall q | IsPiece(q)
      ensures NoDup(lists'[q]) && |lists'[q]| == Count(Put(sq, r, c, p), q)
    {
      CountPut(sq, r, c, p, q);
    }
  }

  lemma IndexedRemove(sq: Grid, lists: seq<seq<Place>>, r: int, c: int, j: int)
    requires Shape(sq) && Indexed(sq, lists) && On(r, c) && At(sq, r, c) != NOPIECE
    requires var p := At(sq, r, c); 0 <= j < |lists[p]| && lists[p][j] == (r, c)
    ensures var p := At(sq, r, c); Indexed(Put(sq, r, c, NOPIECE), lists[p := SwapRemove(lists[p], j)])
  {
    var p := At(sq, r, c);
    var lists' := lists[p := SwapRemove(lists[p], j)];
    SwapRemoveKeepsTheRest(lists[p], j);
    forall q | IsPiece(q)
      ensures NoDup(lists'[q]) && |lists'[q]| == Count(Put(sq, r, c, NOPIECE), q)
    {
      CountPut(sq, r, c, NOPIECE, q);
    }
  }

  lemma ListLength(sq: Grid, lists: seq<seq<Place>>, p: int)
    requires Shape(sq) && Indexed(sq, lists) && IsPiece(p)
    ensures |lists| == 12 && |lists[p]| == Count(sq, p)
  {
  }

  lemma ListEntry(sq: Grid, lists: seq<seq<Place>>, r: int, c: int) returns (j: int)
    requires Shape(sq) && Indexed(sq, lists) && On(r, c) && At(sq, r, c) != NOPIECE
    ensures |lists| == 12
    ensures var p := At(sq, r, c); 0 <= j < |lists[p]| && lists[p][j] == (r, c) && NoDup(lists[p])
  {
    var p := At(sq, r, c);
    assert (r, c) in lists[p];
    j :| 0 <= j < |lists[p]| && lists[p][j] == (r, c);
  }

  const EMPTY_LISTS: seq<seq<Place>> := [[], [], [], [], [], [], [], [], [], [], [], []]

  lemma {:induction false} EmptyRowKey(keys: Keys, r: int, n: nat)
    requires KeysOk(keys) && Shape(EMPTY_GRID) && 0 <= r < 8 && n <= 8
    ensures RowKey(keys, EMPTY_GRID, r, n) == 0
  {
    if n > 0 {
      EmptyRowKey(keys, r, n - 1);
    }
  }

  lemma {:induction false} EmptyRowsKey(keys: Keys, n: nat)
    requires KeysOk(keys) && Shape(EMPTY_GRID) && n <= 8
    ensures RowsKey(keys, EMPTY_GRID, n) == 0
  {
    if n > 0 {
      EmptyRowsKey(keys, n - 1);
      EmptyRowKey(keys, n - 1, 8);
    }
  }

  lemma EmptySums(w: Weight)
    requires forall r, c :: On(r, c) ==> Below(w, NOPIECE, NOTHING, NOPIECE, r, c) && Below(NOTHING, NOPIECE, w, NOPIECE, r, c)
    ensures Shape(EMPTY_GRID) && Sum(w, EMPTY_GRID) == 0
  {
    SumBounds(w, EMPTY_GRID, NOTHING, EMPTY_GRID);
    SumBounds(NOTHING, EMPTY_GRID, w, EMPTY_GRID);
    RowsZero(EMPTY_GRID, 8);
  }

  lemma EmptyIndexed()
    ensures Shape(EMPTY_GRID) && Indexed(EMPTY_GRID, EMPTY_LISTS)
  {
    forall p | IsPiece(p)
      ensures Count(EMPTY_GRID, p) == 0
    {
      hide Sum;
      EmptySums(IsA(p));
    }
    hide Count;
  }

  /** On the cleared board every redundant form is trivial, and the key is that of white to move. */
  lemma ClearBoardForms(keys: Keys)
    requires KeysOk(keys)
    ensures Hashable(ClearPosition())
    ensures KeyOf(keys, ClearPosition()) == Xor(keys.base, keys.side)
    ensures Material(EMPTY_GRID) == 0
    ensures Indexed(EMPTY_GRID, EMPTY_LISTS)
  {
    hide RowsKey, Sum, Indexed, Xor;
    EmptyRowsKey(keys, 8);
    EmptySums(WORTH_OF);
    EmptyIndexed();
    XorZero(SideKey(keys, WHITE));
    XorZero(0);
  }

  class Board {
    const random: Keys

    var posKey: bv32
    var castlePerm: bv4
    const mBoard: array2<int>
    var side: int
    const pceNum: array<int>
    const pListR: array<int>
    const pListC: array<int>
    var enpasSquareR: int
    var enpasSquareC: int
    var material: int
    const history: array<History>
    var hisPly: int
    var fiftyMove: int

    /** The random keys together with what the position key is off by. */
    ghost var keys: Keys
    ghost var sq: Grid
    ghost var lists: seq<seq<Place>>
    ghost const Repr: set<object>

    ghost predicate Fixed() {
      && KeysOk(random) && random.base == 0
      && mBoard.Length0 == 8 && mBoard.Length1 == 8
      && pceNum.Length == 12 && pListR.Length == 120 && pListC.Length == 120
      && history.Length == MAXGAMELENGTH
      && pceNum != pListR && pceNum != pListC && pListR != pListC
      && Repr == {this, mBoard, pceNum, pListR, pListC, history}
    }

    /** The array of squares stores the grid. */
    ghost predicate GridStored()
      requires Fixed()
      reads this`sq, mBoard
    {
      Shape(sq) && forall r, c :: On(r, c) ==> mBoard[r, c] == At(sq, r, c)
    }

    /** The count and coordinate arrays store the piece lists, ten slots for each piece type. */
    ghost predicate ListsStored()
      requires Fixed()
      reads this`lists, pceNum, pListR, pListC
    {
      && |lists| == 12
      && (forall p :: IsPiece(p) ==> pceNum[p] == |lists[p]| <= 10)
      && (forall p, j :: IsPiece(p) && 0 <= j < |lists[p]| ==>
            pListR[10 * p + j] == lists[p][j].0 && pListC[10 * p + j] == lists[p][j].1)
    }

    ghost function Position(): Pos
      reads this
    {
      Pos(sq, side, castlePerm, enpasSquareR, enpasSquareC)
    }

    /** Every redundant form agrees with the position. */
    ghost predicate Valid()
      reads this, Repr
    {
      && Fixed() && GridStored() && ListsStored()
      && KeysOk(keys) && keys == random.(base := keys.base)
      && Indexed(sq, lists)
      && Hashable(Position())
      && posKey == KeyOf(keys, Position())
      && material == Material(sq)
      && 0 <= fiftyMove <= hisPly <= MAXGAMELENGTH
    }

    ghost function State(): Game
      requires Valid()
      reads this, Repr
    {
      Game(Position(), history[..hisPly], fiftyMove)
    }

    constructor (keys: Keys)
      requires KeysOk(keys) && keys.base == 0
      ensures Valid() && fresh(Repr) && this.keys == random == keys
      ensures State() == Game(ClearPosition(), [], 0)
    {
      hide KeysOk, KeyOf, Indexed, Material, Hashable, GridStored, ListsStored;
      random := keys;
      mBoard := new int[8, 8];
      pceNum := new int[12];
      pListR := new int[120];
      pListC := new int[120];
      history := new History[MAXGAMELENGTH];
      Repr := {this, mBoard, pceNum, pListR, pListC, history};
      new;
      ClearBoard();
    }

    method ClearBoard()
      requires Fixed()
      modifies this, mBoard, pceNum
      ensures Valid() && State() == Game(ClearPosition(), [], 0) && keys == random
    {
      hide KeysOk, KeyOf, Indexed, Material, GridStored, ListsStored;
      side := WHITE;
      hisPly, fiftyMove := 0, 0;
      material := 0;
      enpasSquareC, enpasSquareR := OFFBOARD, OFFBOARD;
      castlePerm := 0;
      posKey := random.side;
      keys := random;
      ClearSquares();
      ClearLists();
      XorZero(random.side);
      ClearBoardForms(keys);
    }

    method ClearSquares()
      requires Fixed()
      modifies this`sq, mBoard
      ensures GridStored() && sq == EMPTY_GRID
    {
      for i := 0 to 8
        modifies mBoard
        invariant forall r, c :: On(r, c) && r < i ==> mBoard[r, c] == NOPIECE
      {
        for j := 0 to 8
          modifies mBoard
          invariant forall r, c :: On(r, c) && (r < i || (r == i && c < j)) ==> mBoard[r, c] == NOPIECE
        {
          mBoard[i, j] := NOPIECE;
        }
      }
      sq := EMPTY_GRID;
    }

    method ClearLists()
      requires Fixed()
      modifies this`lists, pceNum
      ensures ListsStored() && lists == EMPTY_LISTS
    {
      for i := 0 to 12
        modifies pceNum
        invariant forall p :: 0 <= p < i ==> pceNum[p] == 0
      {
        pceNum[i] := 0;
      }
      lists := EMPTY_LISTS;
    }

    lemma Basics()
      requires Valid()
      ensures Shape(sq) && Fixed() && KeysOk(random) && random == random.(base := 0) && 0 <= hisPly <= history.Length
    {
    }

    /** Sets up the position that a FEN text describes; a rejected text leaves the pieces read so far. */
    method ParseFen(fen: string) returns (ok: bool)
      requires Valid() && Parse(fen, START) != Corrupt
      modifies this, mBoard, pceNum, pListR, pListC
      ensures Valid()
      ensures ok == Parse(fen, START).Accepted?
      ensures ok ==> State() == Game(Parse(fen, START).pos, [], 0)
      ensures ok ==> keys == random.(base := Stray(random, CastleField(fen)))
    {
      hide KeysOk, KeyOf, Indexed, Material, GridStored, ListsStored, Xor, Count, Has, With, PieceOf, RightOf, EpRow,
           EpCol, Put, EpOnBoard, From,
           Letters, Stray, Times, FieldLeft, CastleField, Valid, Fixed, Fits;
      Basics();
      ClearBoard();
      Basics();
      FromFrom(fen, 0, 0);
      ghost var read := "";
      NoLetters(random);
      FieldStart(fen);
      var section, r, c, i := 0, 0, 0, 0;
      while i < |fen|
        invariant 0 <= i && Valid() && Shape(sq) && hisPly == 0 && fiftyMove == 0
        invariant section <= 1 ==> side == WHITE
        invariant section <= 3 ==> enpasSquareR == OFFBOARD
        invariant Parse(From(fen, i), Scan(section, r, c, Position())) == Parse(fen, START)
        invariant Letters(castlePerm, read) && keys == random.(base := Stray(random, read))
        invariant section >= 0 && (section <= 1 ==> read == "")
        invariant FieldLeft(section, read, From(fen, i)) == CastleField(fen)
      {
        FromFrom(fen, i, 1);
        FromFrom(fen, i, 2);
        FieldStep(section, read, From(fen, i));
        if section == 0 {
          var ok0;
          ok0, section, r, c := ParseSquare(fen[i], r, c, From(fen, i));
          if !ok0 {
            return false;
          }
        } else if section == 1 {
          if fen[i] == 'w' {
            section := section + 1;
            i := i + 1;
          } else if fen[i] == 'b' {
            ParseSide();
            section := section + 1;
            i := i + 1;
          }
        } else if section == 2 {
          var ok2;
          ok2, section, read := ParseCastle(fen[i], r, c, From(fen, i), read);
          if !ok2 {
            return false;
          }
        } else if section == 3 {
          if fen[i] != '-' {
            FromNext(fen, i);
            HashInEp(EpRow(fen[i + 1]), EpCol(fen[i]));
          }
          section := section + 1;
        }
        i := i + 1;
      }
      FromFrom(fen, i, 0);
      FieldDone(section, read);
      return true;
    }

    /** One character of the first field. */
    method ParseSquare(ch: char, r: int, c: int, ghost s: string) returns (ok: bool, section: int, r': int, c': int)
      requires Valid() && s != [] && ch == s[0] && Parse(s, Scan(0, r, c, Position())) != Corrupt
      modifies this`posKey, this`material, this`sq, this`lists, mBoard, pceNum, pListR, pListC
      ensures Valid() && Shape(sq) && section == (if ch == ' ' then 1 else 0)
      ensures old(Parse(s, Scan(0, r, c, Position())))
           == if ok then Parse(From(s, 1), Scan(section, r', c', Position())) else Rejected
    {
      hide KeysOk, KeyOf, Indexed, Material, GridStored, ListsStored, PieceOf, Put, EpOnBoard, From, Valid, Fixed, Fits;
      Basics();
      ok, section, r', c' := true, 0, r, c;
      if ch == ' ' {
        section := 1;
      } else if ch == '/' {
        c' := 0;
        r' := r + 1;
      } else if '1' <= ch <= '8' {
        c' := c + (ch as int - '0' as int);
      } else if PieceOf(ch) != NOPIECE {
        FitsHere(sq, r, c, PieceOf(ch));
        AddPiece(r, c, PieceOf(ch));
        c' := c + 1;
        Basics();
      } else {
        ok := false;
      }
    }

    /** One character of the third field; read is what has been read of it. */
    method ParseCastle(ch: char, ghost r: int, ghost c: int, ghost s: string, ghost read: string)
      returns (ok: bool, section: int, ghost read': string)
      requires Valid() && s != [] && ch == s[0] && Letters(castlePerm, read) && keys == random.(base := Stray(random, read))
      modifies this`castlePerm, this`posKey, this`keys
      ensures Valid() && section == (if ch == ' ' then 3 else 2) && read' == (if ch == ' ' then read else read + [ch])
      ensures ok ==> Letters(castlePerm, read') && keys == random.(base := Stray(random, read'))
      ensures old(Parse(s, Scan(2, r, c, Position())))
           == if ok then Parse(From(s, 1), Scan(section, r, c, Position())) else Rejected
    {
      hide KeysOk, KeyOf, Indexed, Material, GridStored, ListsStored, RightOf, EpOnBoard, From, Valid, Fixed, Letters,
           Stray, Times, Has, With;
      Basics();
      ok, section, read' := true, 2, read + [ch];
      if ch == ' ' {
        section, read' := 3, read;
      } else if ch == '-' {
        AddDash(random, castlePerm, read);
      } else if RightOf(ch) != 0 {
        ParseRight(ch, read);
      } else {
        ok := false;
      }
    }

    method ParseSide()
      requires Valid() && side == WHITE
      modifies this`side, this`posKey
      ensures Valid() && side == BLACK
    {
      hide Xor, KeyOf, KeysOk, GridStored, ListsStored, Indexed, Sum;
      KeySide(keys, Position());
      side := BLACK;
      posKey := Xor(posKey, random.side);
    }

    /** Flips the key of a right even if it is already held. */
    method ParseRight(ch: char, ghost read: string)
      requires Valid() && RightOf(ch) != 0 && Letters(castlePerm, read) && keys == random.(base := Stray(random, read))
      modifies this`castlePerm, this`posKey, this`keys
      ensures Valid() && castlePerm == With(old(castlePerm), RightOf(ch))
      ensures Letters(castlePerm, read + [ch]) && keys == random.(base := Stray(random, read + [ch]))
    {
      hide KeysOk, Xor, KeyOf, KeyOfRight, Has, With, GridStored, ListsStored, Indexed, Sum, Letters, Stray, Times,
           RightOf, IsRight;
      ghost var right := RightOf(ch);
      LetterKeys(random, ch);
      AddLetter(castlePerm, read, ch);
      StrayStep(random, read, ch);
      SameRightKey(random, keys, right);
      KeyRight(keys, Position(), right);
      ghost var held := Has(castlePerm, right);
      posKey := Xor(posKey, KeyOfRight(random, RightOf(ch)));
      castlePerm := With(castlePerm, RightOf(ch));
      RightKeySmall(random, right);
      KeyBase(keys, Position(), KeyOfRight(random, right));
      if held {
        keys := keys.(base := Xor(keys.base, KeyOfRight(random, right)));
      }
    }

    method GetFen() returns (fen: string)
      requires Valid()
      ensures fen == Text(Position())
    {
      hide KeysOk, KeyOf, Indexed, Material, GridStored, ListsStored, RowText, RowsText, SideText, CastleText, EpText;
      fen := "";
      for r := 0 to 8
        invariant if r < 8 then fen + RowsText(sq, r) == RowsText(sq, 0) else fen == RowsText(sq, 0)
      {
        RowsTextFront(sq, r, fen);
        var row := RowFen(r);
        fen := fen + row;
        if r != 7 {
          fen := fen + "/";
        }
      }
      var sideFen := SideFen();
      var castleFen := CastleFen();
      var epFen := EpFen();
      fen := fen + (sideFen + (castleFen + (" " + epFen)));
    }

    /** One row of getFen: runs of empty squares are printed as their length. */
    method RowFen(r: int) returns (fen: string)
      requires Valid() && 0 <= r < 8
      ensures fen == RowText(sq, r, 0, 0)
    {
      hide KeysOk, KeyOf, Indexed, Material, GridStored, ListsStored, Digit, Letter, RowText;
      fen := "";
      var numSpaces := 0;
      for c := 0 to 8
        invariant 0 <= numSpaces <= c
        invariant fen + RowText(sq, r, c, numSpaces) == RowText(sq, r, 0, 0)
      {
        RowTextFront(sq, r, c, numSpaces, fen);
        var pce := GetPce(r, c);
        if pce != NOPIECE {
          var spaces := SpacesFen(numSpaces);
          fen := fen + spaces;
          numSpaces := 0;
          fen := fen + [Letter(pce)];
        } else {
          numSpaces := numSpaces + 1;
        }
      }
      RowTextEnd(sq, r, numSpaces);
      var rest := SpacesFen(numSpaces);
      fen := fen + rest;
    }

    /** The length of a run of empty squares, if there is one. */
    method SpacesFen(numSpaces: int) returns (fen: string)
      requires 0 <= numSpaces <= 8
      ensures fen == Spaces(numSpaces)
    {
      fen := "";
      if numSpaces != 0 {
        fen := fen + [Digit(numSpaces)];
      }
    }

    method SideFen() returns (fen: string)
      requires Valid()
      ensures fen == SideText(side)
    {
      if side == WHITE {
        fen := " w ";
      } else {
        fen := " b ";
      }
    }

    method CastleFen() returns (fen: string)
      requires Valid()
      ensures fen == CastleText(castlePerm)
    {
      hide Has;
      fen := "";
      if Has(castlePerm, WKCA) {
        fen := fen + "K";
      }
      if Has(castlePerm, WQCA) {
        fen := fen + "Q";
      }
      if Has(castlePerm, BKCA) {
        fen := fen + "k";
      }
      if Has(castlePerm, BQCA) {
        fen := fen + "q";
      }
    }

    method EpFen() returns (fen: string)
      requires Valid()
      ensures fen == EpText(side, enpasSquareR, enpasSquareC)
    {
      if enpasSquareR != OFFBOARD {
        fen := ['a' + (enpasSquareC as char)];
        if side == WHITE {
          fen := fen + "6";
        } else {
          fen := fen + "3";
        }
      } else {
        fen := "-";
      }
    }

    function GetPce(r: int, c: int): (p: int)
      requires Valid() && On(r, c)
      reads this, Repr
      ensures p == At(sq, r, c)
    {
      mBoard[r, c]
    }

    function GetKingR(color: int): (r: int)
      requires Valid() && IsSide(color) && OneKingEach(sq)
      reads this, Repr
      ensures var c := pListC[10 * KingOf(color)]; On(r, c) && At(sq, r, c) == KingOf(color)
    {
      assert (lists[KingOf(color)][0].0, lists[KingOf(color)][0].1) in lists[KingOf(color)];
      pListR[10 * KingOf(color)]
    }

    function GetKingC(color: int): (c: int)
      requires Valid() && IsSide(color) && OneKingEach(sq)
      reads this, Repr
      ensures On(GetKingR(color), c) && At(sq, GetKingR(color), c) == KingOf(color)
    {
      pListC[10 * KingOf(color)]
    }

    method AddPiece(r: int, c: int, pce: int)
      requires Valid() && On(r, c) && IsPiece(pce)
      requires At(sq, r, c) == NOPIECE && Count(sq, pce) < 10
      modifies this`posKey, this`material, this`sq, this`lists, mBoard, pceNum, pListR, pListC
      ensures Valid()
      ensures sq == Put(old(sq), r, c, pce)
    {
      hide Xor, KeyOf, CellFlip, CellKey, Material, Indexed, KeysOk, ListsStored, Worth, Count;
      SameKeys(random, keys, r, c, pce);
      ListLength(sq, lists, pce);
      IndexedAdd(sq, lists, r, c, pce);
      MaterialPut(sq, r, c, pce);
      KeyPut(keys, Position(), r, c, pce);
      FlipOne(keys, r, c, pce);
      mBoard[r, c] := pce;
      Enlist(r, c, pce);
      posKey := Xor(posKey, CellKey(random, r, c, pce));
      material := material + Worth(pce);
      sq := Put(sq, r, c, pce);
    }

    /** The list part of addPiece: fill the next slot. */
    method Enlist(r: int, c: int, pce: int)
      requires Fixed() && ListsStored() && IsPiece(pce) && |lists[pce]| < 10
      modifies this`lists, pceNum, pListR, pListC
      ensures ListsStored()
      ensures lists == old(lists)[pce := old(lists)[pce] + [(r, c)]]
    {
      hide KeysOk;
      pListR[10 * pce + pceNum[pce]] := r;
      pListC[10 * pce + pceNum[pce]] := c;
      pceNum[pce] := pceNum[pce] + 1;
      lists := lists[pce := lists[pce] + [(r, c)]];
    }

    /** Removes the piece on (r, c); its list entry is overwritten by the last one. */
    method RemovePiece(r: int, c: int)
      requires Valid() && On(r, c) && At(sq, r, c) != NOPIECE
      modifies this`posKey, this`material, this`sq, this`lists, mBoard, pceNum, pListR, pListC
      ensures Valid()
      ensures sq == Put(old(sq), r, c, NOPIECE)
    {
      hide Xor, KeyOf, CellFlip, CellKey, Material, Indexed, KeysOk, ListsStored, Worth;
      var pce := mBoard[r, c];
      SameKeys(random, keys, r, c, pce);
      ghost var j := ListEntry(sq, lists, r, c);
      IndexedRemove(sq, lists, r, c, j);
      MaterialPut(sq, r, c, pce);
      KeyPut(keys, Position(), r, c, NOPIECE);
      FlipOne(keys, r, c, pce);
      posKey := Xor(posKey, CellKey(random, r, c, pce));
      Unlist(r, c, pce, j);
      mBoard[r, c] := NOPIECE;
      material := material - Worth(pce);
      sq := Put(sq, r, c, NOPIECE);
    }

    /** The list part of removePiece: decrement, search, swap with the last entry. */
    method Unlist(r: int, c: int, pce: int, ghost j: int)
      requires Fixed() && ListsStored() && IsPiece(pce) && NoDup(lists[pce])
      requires 0 <= j < |lists[pce]| && lists[pce][j] == (r, c)
      modifies this`lists, pceNum, pListR, pListC
      ensures ListsStored()
      ensures lists == old(lists)[pce := SwapRemove(old(lists)[pce], j)]
    {
      hide KeysOk;
      pceNum[pce] := pceNum[pce] - 1;
      var last := 10 * pce + pceNum[pce];
      var i := 10 * pce;
      while i < last
        invariant 10 * pce <= i <= 10 * pce + j
      {
        if r == pListR[i] && c == pListC[i] {
          assert lists[pce][i - 10 * pce] == (r, c);
          pListR[i], pListR[last] := pListR[last], pListR[i];
          pListC[i], pListC[last] := pListC[last], pListC[i];
          break;
        }
        i := i + 1;
      }
      lists := lists[pce := SwapRemove(lists[pce], j)];
    }

    method PushHistory(k: Key)
      requires Valid() && On(FromR(k), FromC(k)) && At(sq, FromR(k), FromC(k)) != NOPIECE
      requires hisPly < MAXGAMELENGTH
      modifies this`hisPly, history
      ensures Valid()
      ensures hisPly == old(hisPly) + 1
      ensures history[..hisPly] == old(history[..hisPly]) + [old(Record(keys, State(), k))]
    {
      hide KeyOf, KeysOk, ListsStored, Indexed, Sum;
      var h := History(posKey, k, mBoard[FromR(k), FromC(k)], castlePerm, enpasSquareR, enpasSquareC, fiftyMove);
      history[hisPly] := h;
      hisPly := hisPly + 1;
    }

    method PopHistory()
      requires Valid() && hisPly > 0
      requires 0 <= history[hisPly - 1].fiftyMove < hisPly
      modifies this`hisPly, this`fiftyMove
      ensures Valid()
      ensures hisPly == old(hisPly) - 1
      ensures fiftyMove == history[hisPly].fiftyMove
    {
      hide KeyOf, KeysOk, ListsStored, Indexed, Sum, GridStored;
      hisPly := hisPly - 1;
      fiftyMove := history[hisPly].fiftyMove;
    }

    method UpdateFiftyMove()
      requires Valid()
      modifies this`fiftyMove
      ensures Valid() && fiftyMove == hisPly
    {
      hide KeyOf, KeysOk, ListsStored, Indexed, Sum, GridStored;
      fiftyMove := hisPly;
    }

    method HashInCastle(right: bv4)
      requires Valid() && IsRight(right)
      modifies this`castlePerm, this`posKey
      ensures Valid() && castlePerm == With(old(castlePerm), right)
    {
      hide KeysOk, IsRight, Xor, KeyOf, KeyOfRight, Has, With, GridStored, ListsStored, Indexed, Sum;
      SameRightKey(random, keys, right);
      KeyRight(keys, Position(), right);
      HasAfter(castlePerm, right, right);
      var newPerm := With(castlePerm, right);
      if castlePerm != newPerm {
        castlePerm := newPerm;
        posKey := Xor(posKey, KeyOfRight(random, right));
      }
    }

    method HashOutCastle(right: bv4)
      requires Valid() && IsRight(right)
      modifies this`castlePerm, this`posKey
      ensures Valid() && castlePerm == Without(old(castlePerm), right)
    {
      hide KeysOk, IsRight, Xor, KeyOf, KeyOfRight, Has, Without, GridStored, ListsStored, Indexed, Sum;
      SameRightKey(random, keys, right);
      KeyRight(keys, Position(), right);
      HasAfter(castlePerm, right, right);
      var newPerm := Without(castlePerm, right);
      if castlePerm != newPerm {
        castlePerm := newPerm;
        posKey := Xor(posKey, KeyOfRight(random, right));
      }
    }

    method HashInEp(r: int, c: int)
      requires Valid() && On(r, c) && enpasSquareR == OFFBOARD
      modifies this`enpasSquareR, this`enpasSquareC, this`posKey
      ensures Valid() && enpasSquareR == r && enpasSquareC == c
    {
      hide Xor, KeyOf, KeysOk, GridStored, ListsStored, Indexed, Sum;
      SameKeys(random, keys, r, c, NOPIECE);
      EpFlip(keys, Position(), r, c);
      posKey := Xor(posKey, EpKey(random, r, c));
      enpasSquareR := r;
      enpasSquareC := c;
    }

    method HashOutEp()
      requires Valid()
      modifies this`enpasSquareR, this`enpasSquareC, this`posKey
      ensures Valid() && enpasSquareR == OFFBOARD && enpasSquareC == OFFBOARD
    {
      hide Xor, KeyOf, KeysOk, GridStored, ListsStored, Indexed, Sum;
      if enpasSquareR != OFFBOARD {
        SameKeys(random, keys, enpasSquareR, enpasSquareC, NOPIECE);
        EpFlip(keys, Position(), enpasSquareR, enpasSquareC);
        posKey := Xor(posKey, EpKey(random, enpasSquareR, enpasSquareC));
        enpasSquareR := OFFBOARD;
        enpasSquareC := OFFBOARD;
      }
    }

    method ChangeSide()
      requires Valid()
      modifies this`side, this`posKey
      ensures Valid() && side == Other(old(side))
    {
      hide Xor, KeyOf, KeysOk, GridStored, ListsStored, Indexed, Sum;
      KeySide(keys, Position());
      side := if side == WHITE then BLACK else WHITE;
      posKey := Xor(posKey, random.side);
    }

    method CountRay(r: int, c: int, dr: int, dc: int) returns (sqs: nat)
      requires Valid() && IsDir(dr, dc)
      ensures sqs == RayLength(sq, r + dr, c + dc, dr, dc)
    {
      hide KeysOk, KeyOf, Indexed, Material, Hashable;
      sqs := 0;
      var indexR, indexC := r + dr, c + dc;
      while On(indexR, indexC)
        invariant sqs + RayLength(sq, indexR, indexC, dr, dc) == RayLength(sq, r + dr, c + dc, dr, dc)
        decreases Left(indexR, indexC, dr, dc)
      {
        if GetPce(indexR, indexC) == NOPIECE {
          sqs := sqs + 1;
        } else {
          break;
        }
        indexR, indexC := indexR + dr, indexC + dc;
      }
    }

    method SqExposedVert(r: int, c: int) returns (sqs: nat)
      requires Valid()
      ensures sqs == ExposedVert(sq, r, c)
    {
      var up := CountRay(r, c, -1, 0);
      var down := CountRay(r, c, 1, 0);
      sqs := up + down;
    }

    method SqExposed(r: int, c: int) returns (sqs: nat)
      requires Valid()
      ensures sqs == Exposed(sq, r, c)
    {
      var downRight := CountRay(r, c, 1, 1);
      var upRight := CountRay(r, c, -1, 1);
      var downLeft := CountRay(r, c, 1, -1);
      var upLeft := CountRay(r, c, -1, -1);
      var vert := SqExposedVert(r, c);
      sqs := downRight + upRight + downLeft + upLeft + vert;
    }

    /** The repetition count over the window since the fifty-move mark, cut off at two. */
    method NumRep() returns (n: int)
      requires Valid()
      ensures var all := Repeats(history[..hisPly], fiftyMove, KeyOf(keys, Position()));
              n == if all < 2 then all else 2
    {
      var repCount := 0;
      if hisPly != 0 {
        var i := hisPly - 1;
        while i >= fiftyMove
          invariant fiftyMove - 1 <= i < hisPly
          invariant 0 <= repCount < 2
          invariant repCount == Repeats(history[..hisPly], i + 1, posKey)
        {
          if posKey == history[i].posKey {
            repCount := repCount + 1;
          }
          if repCount >= 2 {
            RepeatsMonotone(history[..hisPly], fiftyMove, i, posKey);
            return repCount;
          }
          i := i - 1;
        }
      } else {
        return 0;
      }
      return repCount;
    }
  }

  lemma {:induction false} RepeatsMonotone(past: seq<History>, from: int, i: int, k: bv32)
    requires 0 <= from <= i <= |past|
    ensures Repeats(past, from, k) >= Repeats(past, i, k)
    decreases i - from
  {
    if from < i {
      RepeatsMonotone(past, from + 1, i, k);
    }
  }
}
