/** FEN text: what getFen prints, what parseFen reads, and their round trip. */
module Fen {
  import opened Pieces
  import opened Squares
  import opened Rules
  import opened Zobrist
  import opened Invariant

  // ----- Printing -----

  const PCE_CHAR: string := "PNBRQKpnbrqk"

  function Letter(p: int): char
    requires IsPiece(p)
  {
    PCE_CHAR[p]
  }

  function Digit(n: int): char
    requires 1 <= n <= 8
  {
    '0' + (n as char)
  }

  function Spaces(n: int): string
    requires 0 <= n <= 8
  {
    if n == 0 then [] else [Digit(n)]
  }

  /** The text of row r from column c on, with n empty squares before c not yet printed. */
  ghost function RowText(sq: Grid, r: int, c: int, n: int): string
    requires Shape(sq) && 0 <= r < 8 && 0 <= n <= c <= 8
    decreases 8 - c
  {
    if c == 8 then Spaces(n)
    else if At(sq, r, c) != NOPIECE then Spaces(n) + [Letter(At(sq, r, c))] + RowText(sq, r, c + 1, 0)
    else RowText(sq, r, c + 1, n + 1)
  }

  ghost function RowsText(sq: Grid, r: int): string
    requires Shape(sq) && 0 <= r < 8
    decreases 8 - r
  {
    RowText(sq, r, 0, 0) + if r == 7 then [] else "/" + RowsText(sq, r + 1)
  }

  function SideText(side: int): string { if side == WHITE then " w " else " b " }

  function RightText(castle: bv4, right: bv4, ch: char): string { if Has(castle, right) then [ch] else [] }

  /** One letter for each right; no `-` when no right is left. */
  function CastleText(castle: bv4): string {
    RightText(castle, WKCA, 'K') + RightText(castle, WQCA, 'Q') + RightText(castle, BKCA, 'k') + RightText(castle, BQCA, 'q')
  }

  function EpText(side: int, epR: int, epC: int): string
    requires EpOnBoard(epR, epC)
  {
    if epR != OFFBOARD then ['a' + (epC as char)] + (if side == WHITE then "6" else "3") else "-"
  }

  ghost function Text(pos: Pos): string
    requires Hashable(pos)
  {
    RowsText(pos.sq, 0) + (SideText(pos.side) + (CastleText(pos.castle) + (" " + EpText(pos.side, pos.epR, pos.epC))))
  }

  // ----- Parsing -----

  /** Where the parser stands: its section, row and column, and the position so far. */
  datatype Scan = Scan(section: int, r: int, c: int, pos: Pos)

  const START: Scan := Scan(0, 0, 0, ClearPosition())

  /** Corrupt: the text puts a piece off the board, names an en passant square off the board, or gives an eleventh piece
      of a type, which would go into the list slots of the next type (past the arrays for the black king). */
  datatype Outcome = Accepted(pos: Pos) | Rejected | Corrupt

  function PieceOf(ch: char): (p: int)
    ensures IsCell(p)
  {
    if ch == 'P' then WP else if ch == 'N' then WN else if ch == 'B' then WB else if ch == 'R' then WR
    else if ch == 'Q' then WQ else if ch == 'K' then WK else if ch == 'p' then BP else if ch == 'n' then BN
    else if ch == 'b' then BB else if ch == 'r' then BR else if ch == 'q' then BQ else if ch == 'k' then BK
    else NOPIECE
  }

  function RightOf(ch: char): bv4 {
    if ch == 'K' then WKCA else if ch == 'Q' then WQCA else if ch == 'k' then BKCA else if ch == 'q' then BQCA else 0
  }

  function EpCol(ch: char): int { ch as int - 'a' as int }

  function EpRow(ch: char): int { 8 - (ch as int - '0' as int) }

  /** The text after its first k characters. */
  function From(s: string, k: nat): (t: string)
    ensures k > 0 && s != [] ==> |t| < |s|
  {
    if k <= |s| then s[k..] else []
  }

  lemma FromFrom(s: string, i: nat, k: nat)
    ensures From(From(s, i), k) == From(s, i + k)
    ensures From(s, 0) == s && (From(s, i) == [] <==> i >= |s|)
    ensures i < |s| ==> From(s, i)[0] == s[i]
  {
  }

  lemma FromNext(s: string, i: nat)
    ensures i < |s| && |From(s, i)| != 1 ==> i + 1 < |s| && |From(s, i)| > 1 && From(s, i)[1] == s[i + 1]
  {
  }

  /** The square is on the board and free, and the piece list has a slot left. */
  ghost predicate Fits(sq: Grid, r: int, c: int, p: int)
    requires Shape(sq) && IsPiece(p)
  {
    On(r, c) && At(sq, r, c) == NOPIECE && Count(sq, p) < 10
  }

  lemma FitsHere(sq: Grid, r: int, c: int, p: int)
    requires Shape(sq) && IsPiece(p)
    ensures Fits(sq, r, c, p) <==> On(r, c) && At(sq, r, c) == NOPIECE && Count(sq, p) < 10
  {
    hide Count;
  }

  /** The loop of parseFen on the text that is left. */
  ghost function Parse(s: string, st: Scan): Outcome
    requires Shape(st.pos.sq)
    decreases |s|
  {
    if s == [] then Accepted(st.pos)
    else if st.section == 0 then ParsePiece(s, st)
    else if st.section == 1 then
      if s[0] == 'w' then Parse(From(s, 2), st.(section := 2))
      else if s[0] == 'b' then Parse(From(s, 2), st.(section := 2, pos := st.pos.(side := BLACK)))
      else Parse(From(s, 1), st)
    else if st.section == 2 then
      if s[0] == ' ' then Parse(From(s, 1), st.(section := 3))
      else if s[0] == '-' then Parse(From(s, 1), st)
      else if RightOf(s[0]) == 0 then Rejected
      else Parse(From(s, 1), st.(pos := st.pos.(castle := With(st.pos.castle, RightOf(s[0])))))
    else if st.section == 3 then
      if s[0] == '-' then Parse(From(s, 1), st.(section := 4))
      else if |s| == 1 || !On(EpRow(s[1]), EpCol(s[0])) then Corrupt
      else Parse(From(s, 1), st.(section := 4, pos := st.pos.(epR := EpRow(s[1]), epC := EpCol(s[0]))))
    else Parse(From(s, 1), st)
  }

  ghost function ParsePiece(s: string, st: Scan): Outcome
    requires Shape(st.pos.sq) && s != []
    decreases |s|, 0
  {
    if s[0] == ' ' then Parse(From(s, 1), st.(section := 1))
    else if s[0] == '/' then Parse(From(s, 1), st.(r := st.r + 1, c := 0))
    else if '1' <= s[0] <= '8' then Parse(From(s, 1), st.(c := st.c + (s[0] as int - '0' as int)))
    else if PieceOf(s[0]) == NOPIECE then Rejected
    else if !Fits(st.pos.sq, st.r, st.c, PieceOf(s[0])) then Corrupt
    else Parse(From(s, 1), st.(c := st.c + 1, pos := st.pos.(sq := Put(st.pos.sq, st.r, st.c, PieceOf(s[0])))))
  }

  // ----- The castling field and the key -----

  function AfterBlank(s: string): string
    decreases |s|
  {
    if s == [] then [] else if s[0] == ' ' then From(s, 1) else AfterBlank(From(s, 1))
  }

  function AfterSide(s: string): string
    decreases |s|
  {
    if s == [] then [] else if s[0] == 'w' || s[0] == 'b' then From(s, 2) else AfterSide(From(s, 1))
  }

  function UpToBlank(s: string): string
    decreases |s|
  {
    if s == [] || s[0] == ' ' then [] else [s[0]] + UpToBlank(From(s, 1))
  }

  /** The third field of a FEN text. */
  function CastleField(fen: string): string { UpToBlank(AfterSide(AfterBlank(fen))) }

  function Times(ch: char, s: string): nat {
    if s == [] then 0 else Times(ch, s[..|s| - 1]) + if s[|s| - 1] == ch then 1 else 0
  }

  /** A letter that occurs an even number of times, but not never, leaves its right set and its key out. */
  function RepeatKey(keys: Keys, field: string, ch: char, i: int): bv32
    requires KeysOk(keys) && 0 <= i < 4
  {
    Leftover(Times(ch, field), keys.castle[i])
  }

  function Leftover(n: nat, k: bv32): bv32 { if n > 0 && n % 2 == 0 then k else 0 }

  lemma OneMoreFlip(n: nat, k: bv32)
    ensures Leftover(n + 1, k) == if n > 0 then Xor(Leftover(n, k), k) else Leftover(n, k)
  {
    hide Xor;
    XorZero(k);
  }

  /** What the key is off by after a castling field has been read. */
  function Stray(keys: Keys, field: string): bv32
    requires KeysOk(keys)
  {
    Quad(RepeatKey(keys, field, 'K', 0), RepeatKey(keys, field, 'Q', 1),
         RepeatKey(keys, field, 'k', 2), RepeatKey(keys, field, 'q', 3))
  }

  lemma TimesMore(ch: char, s: string, c: char)
    ensures Times(ch, s + [c]) == Times(ch, s) + if c == ch then 1 else 0
  {
    assert (s + [c])[..|s|] == s;
  }

  lemma RepeatStep(keys: Keys, s: string, c: char, ch: char, i: int)
    requires KeysOk(keys) && 0 <= i < 4
    ensures RepeatKey(keys, s + [c], ch, i)
         == if c == ch && Times(ch, s) > 0 then Xor(RepeatKey(keys, s, ch, i), keys.castle[i]) else RepeatKey(keys, s, ch, i)
  {
    hide Xor, Times, Leftover;
    TimesMore(ch, s, c);
    OneMoreFlip(Times(ch, s), keys.castle[i]);
  }

  lemma LetterKeys(keys: Keys, c: char)
    requires KeysOk(keys)
    ensures RightOf(c) != 0 <==> c == 'K' || c == 'Q' || c == 'k' || c == 'q'
    ensures RightOf(c) != 0 ==>
              IsRight(RightOf(c))
              && KeyOfRight(keys, RightOf(c)) == keys.castle[if c == 'K' then 0 else if c == 'Q' then 1 else if c == 'k' then 2 else 3]
  {
  }

  /** One more letter: nothing changes for a first letter, and its key is flipped for a repeated one. */
  lemma StrayStep(keys: Keys, s: string, c: char)
    requires KeysOk(keys)
    ensures RightOf(c) == 0 || Times(c, s) == 0 ==> Stray(keys, s + [c]) == Stray(keys, s)
    ensures RightOf(c) != 0 && Times(c, s) > 0 ==>
              IsRight(RightOf(c)) && Stray(keys, s + [c]) == Xor(Stray(keys, s), KeyOfRight(keys, RightOf(c)))
  {
    LetterKeys(keys, c);
    hide Xor, Times, KeysOk, Quad, RepeatKey, RightOf, KeyOfRight, IsRight;
    RepeatStep(keys, s, c, 'K', 0);
    RepeatStep(keys, s, c, 'Q', 1);
    RepeatStep(keys, s, c, 'k', 2);
    RepeatStep(keys, s, c, 'q', 3);
    if RightOf(c) != 0 && Times(c, s) > 0 {
      QuadFlip(RepeatKey(keys, s, 'K', 0), RepeatKey(keys, s, 'Q', 1), RepeatKey(keys, s, 'k', 2), RepeatKey(keys, s, 'q', 3),
               KeyOfRight(keys, RightOf(c)));
    }
  }

  lemma QuadFlip(a: bv32, b: bv32, c: bv32, d: bv32, k: bv32)
    ensures Quad(Xor(a, k), b, c, d) == Xor(Quad(a, b, c, d), k)
    ensures Quad(a, Xor(b, k), c, d) == Xor(Quad(a, b, c, d), k)
    ensures Quad(a, b, Xor(c, k), d) == Xor(Quad(a, b, c, d), k)
    ensures Quad(a, b, c, Xor(d, k)) == Xor(Quad(a, b, c, d), k)
  {
    hide Xor;
    XorLaws(a, b, k);
    XorLaws(Xor(a, b), Xor(c, d), k);
    XorLaws(c, d, k);
  }

  lemma StraySmall(keys: Keys, s: string)
    requires KeysOk(keys)
    ensures Small(Stray(keys, s))
  {
    var a, b, d, e := RepeatKey(keys, s, 'K', 0), RepeatKey(keys, s, 'Q', 1), RepeatKey(keys, s, 'k', 2), RepeatKey(keys, s, 'q', 3);
    hide Xor;
    assert Small(a) && Small(b) && Small(d) && Small(e);
    XorSmall(a, b);
    XorSmall(d, e);
    XorSmall(Xor(a, b), Xor(d, e));
  }

  /** The rights held are those whose letters have been read. */
  ghost predicate Letters(castle: bv4, read: string) {
    && (Has(castle, WKCA) <==> Times('K', read) > 0) && (Has(castle, WQCA) <==> Times('Q', read) > 0)
    && (Has(castle, BKCA) <==> Times('k', read) > 0) && (Has(castle, BQCA) <==> Times('q', read) > 0)
  }

  lemma NoLetters(keys: Keys)
    requires KeysOk(keys)
    ensures Letters(0, "") && Stray(keys, "") == 0
  {
    XorZero(0);
  }

  lemma AddDash(keys: Keys, castle: bv4, read: string)
    requires KeysOk(keys) && Letters(castle, read)
    ensures Letters(castle, read + ['-']) && Stray(keys, read + ['-']) == Stray(keys, read)
  {
    TimesMore('K', read, '-');
    TimesMore('Q', read, '-');
    TimesMore('k', read, '-');
    TimesMore('q', read, '-');
    StrayStep(keys, read, '-');
    hide Times, Stray;
  }

  lemma AddLetter(castle: bv4, read: string, c: char)
    requires Letters(castle, read) && RightOf(c) != 0
    ensures Letters(With(castle, RightOf(c)), read + [c])
    ensures Has(castle, RightOf(c)) <==> Times(c, read) > 0
  {
    TimesMore('K', read, c);
    TimesMore('Q', read, c);
    TimesMore('k', read, c);
    TimesMore('q', read, c);
    HasAfter(castle, RightOf(c), WKCA);
    HasAfter(castle, RightOf(c), WQCA);
    HasAfter(castle, RightOf(c), BKCA);
    HasAfter(castle, RightOf(c), BQCA);
    hide Times, Has, With;
  }

  /** The castling field, from the section the parser stands in and the text that is left. */
  function FieldLeft(section: int, read: string, s: string): string {
    if section == 0 then CastleField(s)
    else if section == 1 then UpToBlank(AfterSide(s))
    else if section == 2 then read + UpToBlank(s)
    else read
  }

  lemma FieldStep(section: int, read: string, s: string)
    requires s != [] && section >= 0 && (section <= 1 ==> read == "")
    ensures section == 0 ==> FieldLeft(0, read, s) == FieldLeft(if s[0] == ' ' then 1 else 0, read, From(s, 1))
    ensures section == 1 ==> FieldLeft(1, read, s) == if s[0] == 'w' || s[0] == 'b' then FieldLeft(2, read, From(s, 2))
                                                      else FieldLeft(1, read, From(s, 1))
    ensures section == 2 ==> FieldLeft(2, read, s) == if s[0] == ' ' then FieldLeft(3, read, From(s, 1))
                                                      else FieldLeft(2, read + [s[0]], From(s, 1))
    ensures section >= 3 ==> FieldLeft(section, read, s) == FieldLeft(section, read, From(s, 1)) == FieldLeft(4, read, From(s, 1))
  {
    hide From;
    assert section == 2 && s[0] != ' ' ==> read + UpToBlank(s) == read + [s[0]] + UpToBlank(From(s, 1));
    assert section == 2 && s[0] == ' ' ==> read + UpToBlank(s) == read;
    assert section <= 1 ==> read + UpToBlank(From(s, 2)) == UpToBlank(From(s, 2));
  }

  lemma FieldStart(fen: string)
    ensures FieldLeft(0, "", fen) == CastleField(fen)
  {
  }

  lemma FieldDone(section: int, read: string)
    requires section >= 0 && (section <= 1 ==> read == "")
    ensures FieldLeft(section, read, "") == read
  {
    assert read + "" == read;
  }

  lemma RightKeySmall(keys: Keys, right: bv4)
    requires KeysOk(keys) && IsRight(right)
    ensures Small(KeyOfRight(keys, right))
  {
  }

  /** Main result: after reading a text the key is the key of the position iff the keys of the rights whose letters occur
      an even number of times, but not never, cancel out. */
  lemma KeyTrueIff(keys: Keys, fen: string, pos: Pos)
    requires KeysOk(keys) && keys.base == 0 && Hashable(pos)
    ensures Small(Stray(keys, CastleField(fen)))
    ensures KeyOf(keys.(base := Stray(keys, CastleField(fen))), pos) == KeyOf(keys, pos) <==> Stray(keys, CastleField(fen)) == 0
  {
    hide Xor, KeyOf, Stray, CastleField;
    var d := Stray(keys, CastleField(fen));
    StraySmall(keys, CastleField(fen));
    KeyBase(keys, pos, d);
    XorZero(d);
    XorMoves(KeyOf(keys, pos), d);
  }

  /** Letters that occur an odd number of times, or never, do no harm. */
  lemma OddIsHarmless(keys: Keys, field: string)
    requires KeysOk(keys)
    requires forall ch :: ch in "KQkq" && Times(ch, field) > 0 ==> Times(ch, field) % 2 == 1
    ensures Stray(keys, field) == 0
  {
    hide Times;
    assert 'K' in "KQkq" && 'Q' in "KQkq" && 'k' in "KQkq" && 'q' in "KQkq";
    XorZero(0);
  }

  lemma TwoOfOne()
    ensures Times('K', "KK") == 2 && Times('Q', "KK") == 0 && Times('k', "KK") == 0 && Times('q', "KK") == 0
  {
    assert "KK"[..1] == "K" && "K"[..0] == "";
  }

  /** A text with a castling letter twice is accepted with that right, and its key is off by the key of the right. */
  lemma RepeatedLetter(keys: Keys)
    requires KeysOk(keys)
    ensures Shape(EMPTY_GRID)
    ensures Parse(" w KK", START) == Accepted(ClearPosition().(castle := WKCA))
    ensures Stray(keys, CastleField(" w KK")) == keys.castle[0]
  {
    assert From(" w KK", 1) == "w KK" && From("w KK", 2) == "KK" && From("KK", 1) == "K" && From("K", 1) == "";
    assert AfterSide("w KK") == "KK" && UpToBlank("K") == "K" && UpToBlank("KK") == "KK";
    TwoOfOne();
    XorZero(keys.castle[0]);
    XorZero(0);
    var held := Scan(2, 0, 0, ClearPosition().(castle := WKCA));
    assert With(0, WKCA) == WKCA && With(WKCA, WKCA) == WKCA;
    hide Xor, Times, With;
    assert Parse("KK", Scan(2, 0, 0, ClearPosition())) == Parse("K", held) == Parse("", held);
  }

  // ----- Round trip -----

  /** The squares before (r, c) in reading order, on an otherwise empty board. */
  ghost function Prefix(sq: Grid, r: int, c: int): (g: Grid)
    requires Shape(sq) && 0 <= r < 8 && 0 <= c <= 8
    ensures Shape(g)
    ensures forall x, y :: On(x, y) ==> At(g, x, y) == if x < r || (x == r && y < c) then At(sq, x, y) else NOPIECE
    decreases r, c
  {
    if c > 0 then Put(Prefix(sq, r, c - 1), r, c - 1, At(sq, r, c - 1))
    else if r > 0 then Prefix(sq, r - 1, 8)
    else EMPTY_GRID
  }

  lemma PrefixOfEmptySquare(sq: Grid, r: int, c: int)
    requires Shape(sq) && On(r, c) && At(sq, r, c) == NOPIECE
    ensures Prefix(sq, r, c + 1) == Prefix(sq, r, c)
  {
    SameGrid(Prefix(sq, r, c + 1), Prefix(sq, r, c));
  }

  lemma PrefixNextRow(sq: Grid, r: int)
    requires Shape(sq) && 0 <= r < 7
    ensures Prefix(sq, r + 1, 0) == Prefix(sq, r, 8)
  {
  }

  lemma PrefixIsAll(sq: Grid)
    requires Shape(sq)
    ensures Prefix(sq, 7, 8) == sq
  {
    SameGrid(Prefix(sq, 7, 8), sq);
  }

  /** The next piece of a printed board finds its square free and a slot in its list. */
  lemma NextFits(sq: Grid, r: int, c: int)
    requires Shape(sq) && Room(sq) && OneKingEach(sq) && On(r, c) && At(sq, r, c) != NOPIECE
    ensures Fits(Prefix(sq, r, c), r, c, At(sq, r, c))
  {
    hide Count, Prefix;
    var p := At(sq, r, c);
    assert NoMore(Prefix(sq, r, c), sq, p);
    CountMissing(Prefix(sq, r, c), sq, r, c, p);
    AtMostTen(sq, p);
  }

  lemma LetterReads(p: int)
    requires IsPiece(p)
    ensures PieceOf(Letter(p)) == p
    ensures Letter(p) != ' ' && Letter(p) != '/' && !('1' <= Letter(p) <= '8')
  {
  }

  lemma SpacesRead(n: int, rest: string, st: Scan)
    requires Shape(st.pos.sq) && 0 <= n <= 8 && st.section == 0
    ensures Parse(Spaces(n) + rest, st) == Parse(rest, st.(c := st.c + n))
  {
    if n == 0 {
      assert Spaces(n) + rest == rest;
    } else {
      assert From(Spaces(n) + rest, 1) == rest;
    }
  }

  lemma LetterRead(p: int, rest: string, st: Scan)
    requires Shape(st.pos.sq) && IsPiece(p) && st.section == 0 && Fits(st.pos.sq, st.r, st.c, p)
    ensures Parse([Letter(p)] + rest, st)
         == Parse(rest, st.(c := st.c + 1, pos := st.pos.(sq := Put(st.pos.sq, st.r, st.c, p))))
  {
    hide Count;
    LetterReads(p);
    hide PieceOf;
    assert From([Letter(p)] + rest, 1) == rest;
  }

  /** Reading the rest of a printed row fills in the rest of the row. */
  lemma {:induction false} RowReads(sq: Grid, r: int, c: int, n: int, rest: string, st: Scan)
    requires Shape(sq) && Room(sq) && OneKingEach(sq) && 0 <= r < 8 && 0 <= n <= c <= 8
    requires st.section == 0 && st.r == r && st.c == c - n && st.pos.sq == Prefix(sq, r, c)
    ensures Parse(RowText(sq, r, c, n) + rest, st)
         == Parse(rest, st.(c := 8, pos := st.pos.(sq := Prefix(sq, r, 8))))
    decreases 8 - c
  {
    hide Room, OneKingEach, Parse, Fits, Letter, Spaces;
    if c == 8 {
      SpacesRead(n, rest, st);
    } else if At(sq, r, c) != NOPIECE {
      var p, tail := At(sq, r, c), RowText(sq, r, c + 1, 0) + rest;
      assert RowText(sq, r, c, n) + rest == Spaces(n) + ([Letter(p)] + tail);
      SpacesRead(n, [Letter(p)] + tail, st);
      NextFits(sq, r, c);
      LetterRead(p, tail, st.(c := c));
      var g := Put(Prefix(sq, r, c), r, c, p);
      assert g == Prefix(sq, r, c + 1);
      RowReads(sq, r, c + 1, 0, rest, st.(c := c + 1, pos := st.pos.(sq := g)));
    } else {
      PrefixOfEmptySquare(sq, r, c);
      RowReads(sq, r, c + 1, n + 1, rest, st);
    }
  }

  lemma SlashRead(rest: string, st: Scan)
    requires Shape(st.pos.sq) && st.section == 0
    ensures Parse("/" + rest, st) == Parse(rest, st.(r := st.r + 1, c := 0))
  {
    assert From("/" + rest, 1) == rest;
  }

  lemma RowTextFront(sq: Grid, r: int, c: int, n: int, front: string)
    requires Shape(sq) && On(r, c) && 0 <= n <= c
    ensures front + RowText(sq, r, c, n)
         == if At(sq, r, c) != NOPIECE then front + Spaces(n) + [Letter(At(sq, r, c))] + RowText(sq, r, c + 1, 0)
            else front + RowText(sq, r, c + 1, n + 1)
  {
    hide Spaces, Letter;
  }

  lemma RowTextEnd(sq: Grid, r: int, n: int)
    requires Shape(sq) && 0 <= r < 8 && 0 <= n <= 8
    ensures RowText(sq, r, 8, n) == Spaces(n)
  {
  }

  lemma RowsTextTail(sq: Grid, r: int, rest: string)
    requires Shape(sq) && 0 <= r < 8
    ensures RowsText(sq, r) + rest == RowText(sq, r, 0, 0) + if r == 7 then rest else "/" + (RowsText(sq, r + 1) + rest)
  {
    hide RowText;
  }

  lemma RowsTextFront(sq: Grid, r: int, front: string)
    requires Shape(sq) && 0 <= r < 8
    ensures front + RowsText(sq, r)
         == if r == 7 then front + RowText(sq, r, 0, 0) else front + RowText(sq, r, 0, 0) + "/" + RowsText(sq, r + 1)
  {
    hide RowText;
  }

  lemma {:induction false} RowsRead(sq: Grid, r: int, rest: string, st: Scan)
    requires Shape(sq) && Room(sq) && OneKingEach(sq) && 0 <= r < 8
    requires st.section == 0 && st.r == r && st.c == 0 && st.pos.sq == Prefix(sq, r, 0)
    ensures Parse(RowsText(sq, r) + rest, st) == Parse(rest, st.(r := 7, c := 8, pos := st.pos.(sq := sq)))
    decreases 8 - r
  {
    if r < 7 {
      PrefixNextRow(sq, r);
    }
    PrefixIsAll(sq);
    RowsTextTail(sq, r, rest);
    hide Room, OneKingEach, Parse, RowText, RowsText, Prefix;
    var after := st.(c := 8, pos := st.pos.(sq := Prefix(sq, r, 8)));
    if r == 7 {
      RowReads(sq, r, 0, 0, rest, st);
    } else {
      var tail := RowsText(sq, r + 1) + rest;
      RowReads(sq, r, 0, 0, "/" + tail, st);
      SlashRead(tail, after);
      RowsRead(sq, r + 1, rest, after.(r := r + 1, c := 0));
    }
  }

  lemma SideReads(side: int, rest: string, st: Scan)
    requires Shape(st.pos.sq) && IsSide(side) && st.section == 0 && st.pos.side == WHITE
    ensures Parse(SideText(side) + rest, st) == Parse(rest, st.(section := 2, pos := st.pos.(side := side)))
  {
    var s, st' := SideText(side) + rest, st.(section := 1);
    assert From(s, 1)[0] == s[1];
    assert From(From(s, 1), 2) == rest;
    assert Parse(s, st) == Parse(From(s, 1), st');
  }

  lemma RightReads(castle: bv4, right: bv4, ch: char, rest: string, st: Scan)
    requires Shape(st.pos.sq) && st.section == 2 && right != 0 && RightOf(ch) == right
    ensures Parse(RightText(castle, right, ch) + rest, st)
         == Parse(rest, st.(pos := st.pos.(castle := if Has(castle, right) then With(st.pos.castle, right) else st.pos.castle)))
  {
    var s := RightText(castle, right, ch) + rest;
    if Has(castle, right) {
      assert From(s, 1) == rest;
    } else {
      assert s == rest;
    }
  }

  /** The rights collected by reading a printed castling field, one letter after the other. */
  function Reread(castle: bv4): bv4 {
    var a := if Has(castle, WKCA) then With(0, WKCA) else 0;
    var b := if Has(castle, WQCA) then With(a, WQCA) else a;
    var c := if Has(castle, BKCA) then With(b, BKCA) else b;
    if Has(castle, BQCA) then With(c, BQCA) else c
  }

  lemma RereadIsSame(castle: bv4)
    ensures Reread(castle) == castle
  {
  }

  lemma CastleReads(castle: bv4, rest: string, st: Scan)
    requires Shape(st.pos.sq) && st.section == 2 && st.pos.castle == 0
    ensures Parse(CastleText(castle) + rest, st) == Parse(rest, st.(pos := st.pos.(castle := castle)))
  {
    var a := if Has(castle, WKCA) then With(0, WKCA) else 0;
    var b := if Has(castle, WQCA) then With(a, WQCA) else a;
    var c := if Has(castle, BKCA) then With(b, BKCA) else b;
    RereadIsSame(castle);
    hide Parse, Has, With, RightText;
    var q := RightText(castle, BQCA, 'q') + rest;
    var kq := RightText(castle, BKCA, 'k') + q;
    var Qkq := RightText(castle, WQCA, 'Q') + kq;
    assert CastleText(castle) + rest == RightText(castle, WKCA, 'K') + Qkq;
    RightReads(castle, WKCA, 'K', Qkq, st);
    RightReads(castle, WQCA, 'Q', kq, st.(pos := st.pos.(castle := a)));
    RightReads(castle, BKCA, 'k', q, st.(pos := st.pos.(castle := b)));
    RightReads(castle, BQCA, 'q', rest, st.(pos := st.pos.(castle := c)));
  }

  /** The en passant row is not printed but derived: it is right exactly because the square is truthful. */
  lemma EpReads(pos: Pos, st: Scan)
    requires Shape(pos.sq) && EpTruthful(pos) && IsSide(pos.side)
    requires st.section == 2 && st.pos == pos.(epR := OFFBOARD, epC := OFFBOARD)
    ensures EpOnBoard(pos.epR, pos.epC)
    ensures Parse(" " + EpText(pos.side, pos.epR, pos.epC), st) == Accepted(pos)
  {
    var e := EpText(pos.side, pos.epR, pos.epC);
    var st' := st.(section := 3);
    assert From(" " + e, 1) == e;
    assert Parse(" " + e, st) == Parse(e, st');
    if pos.epR == OFFBOARD {
      assert Parse(e, st') == Parse([], st'.(section := 4));
    } else {
      assert EpRow(e[1]) == pos.epR && EpCol(e[0]) == pos.epC;
      var done := Scan(4, st.r, st.c, pos);
      assert From(e, 1) == [e[1]];
      assert Parse(e, st') == Parse([e[1]], done);
      assert Parse([e[1]], done) == Parse([], done);
    }
  }

  /** Main result: reading back the text of a well-formed position gives the same position. */
  lemma FenRoundTrip(pos: Pos)
    requires WellFormed(pos)
    ensures Hashable(pos) && Shape(START.pos.sq)
    ensures Parse(Text(pos), START) == Accepted(pos)
  {
    hide Parse, RowsText, SideText, CastleText, EpText, Room, OneKingEach, EpTruthful, CastleTruthful, NoEdgePawns, InCheck;
    EpWithinBoard(pos);
    var ep := " " + EpText(pos.side, pos.epR, pos.epC);
    var castle := CastleText(pos.castle) + ep;
    var side := SideText(pos.side) + castle;
    var st := Scan(0, 7, 8, Pos(pos.sq, WHITE, 0, OFFBOARD, OFFBOARD));
    RowsRead(pos.sq, 0, side, START);
    SideReads(pos.side, castle, st);
    var st2 := Scan(2, 7, 8, Pos(pos.sq, pos.side, 0, OFFBOARD, OFFBOARD));
    CastleReads(pos.castle, ep, st2);
    EpReads(pos, Scan(2, 7, 8, pos.(epR := OFFBOARD, epC := OFFBOARD)));
  }

  /** Two well-formed positions with the same text are the same position. */
  lemma TextIsInjective(a: Pos, b: Pos)
    requires WellFormed(a) && WellFormed(b) && Hashable(a) && Hashable(b) && Text(a) == Text(b)
    ensures a == b
  {
    hide WellFormed, Text, Parse;
    FenRoundTrip(a);
    FenRoundTrip(b);
  }

  // ----- The key after a round trip -----

  predicate Blankless(s: string) { forall i :: 0 <= i < |s| ==> s[i] != ' ' }

  lemma {:induction false} RowBlankless(sq: Grid, r: int, c: int, n: int)
    requires Shape(sq) && 0 <= r < 8 && 0 <= n <= c <= 8
    ensures Blankless(RowText(sq, r, c, n))
    decreases 8 - c
  {
    if c < 8 {
      RowBlankless(sq, r, c + 1, if At(sq, r, c) != NOPIECE then 0 else n + 1);
      if At(sq, r, c) != NOPIECE {
        LetterReads(At(sq, r, c));
      }
    }
  }

  lemma {:induction false} RowsBlankless(sq: Grid, r: int)
    requires Shape(sq) && 0 <= r < 8
    ensures Blankless(RowsText(sq, r))
    decreases 8 - r
  {
    hide RowText;
    RowBlankless(sq, r, 0, 0);
    if r < 7 {
      RowsBlankless(sq, r + 1);
    }
  }

  lemma {:induction false} PastBlankless(s: string, rest: string)
    requires Blankless(s)
    ensures AfterBlank(s + " " + rest) == rest && UpToBlank(s + " " + rest) == s
    decreases |s|
  {
    var t := s + " " + rest;
    if s == [] {
      assert t[0] == ' ' && From(t, 1) == rest;
    } else {
      assert t[0] == s[0] && From(t, 1) == s[1..] + " " + rest;
      PastBlankless(s[1..], rest);
    }
  }

  lemma CastleTextOnce(castle: bv4)
    ensures Blankless(CastleText(castle))
    ensures forall ch :: ch in "KQkq" ==> Times(ch, CastleText(castle)) <= 1
  {
    hide Has;
    var a := RightText(castle, WKCA, 'K');
    var b := a + RightText(castle, WQCA, 'Q');
    var c := b + RightText(castle, BKCA, 'k');
    forall ch | ch in "KQkq"
      ensures Times(ch, CastleText(castle)) <= 1
    {
      TimesRight(ch, "", castle, WKCA, 'K');
      TimesRight(ch, a, castle, WQCA, 'Q');
      TimesRight(ch, b, castle, BKCA, 'k');
      TimesRight(ch, c, castle, BQCA, 'q');
      assert "" + a == a;
      hide Times, RightText;
    }
  }

  lemma TimesRight(ch: char, s: string, castle: bv4, right: bv4, c: char)
    ensures Times(ch, s + RightText(castle, right, c)) <= Times(ch, s) + if c == ch then 1 else 0
  {
    if Has(castle, right) {
      TimesMore(ch, s, c);
    } else {
      assert s + [] == s;
    }
  }

  lemma PastSide(ch: char, tail: string)
    requires ch == 'w' || ch == 'b'
    ensures AfterSide([ch, ' '] + tail) == tail
  {
    assert From([ch, ' '] + tail, 2) == tail;
  }

  lemma TextParts(pos: Pos, ch: char)
    requires Hashable(pos) && ch == if pos.side == WHITE then 'w' else 'b'
    ensures Text(pos) == RowsText(pos.sq, 0) + " "
                         + ([ch, ' '] + (CastleText(pos.castle) + " " + EpText(pos.side, pos.epR, pos.epC)))
  {
    hide RowsText, CastleText, EpText;
    assert SideText(pos.side) == [' ', ch, ' '];
  }

  lemma CastleFieldOfText(pos: Pos)
    requires Hashable(pos)
    ensures CastleField(Text(pos)) == CastleText(pos.castle)
  {
    RowsBlankless(pos.sq, 0);
    CastleTextOnce(pos.castle);
    hide Text, RowsText, CastleText, EpText, Times, Blankless, AfterBlank, AfterSide, UpToBlank;
    var ch := if pos.side == WHITE then 'w' else 'b';
    var ep, castle := EpText(pos.side, pos.epR, pos.epC), CastleText(pos.castle);
    TextParts(pos, ch);
    PastBlankless(RowsText(pos.sq, 0), [ch, ' '] + (castle + " " + ep));
    PastSide(ch, castle + " " + ep);
    PastBlankless(castle, ep);
  }

  /** Main result: a printed text names each right at most once, so reading it back restores the key as well. */
  lemma TextKeepsKey(keys: Keys, pos: Pos)
    requires KeysOk(keys) && Hashable(pos)
    ensures Stray(keys, CastleField(Text(pos))) == 0
  {
    hide Text, Stray, CastleField, KeysOk, Times, Hashable;
    CastleFieldOfText(pos);
    CastleTextOnce(pos.castle);
    OddIsHarmless(keys, CastleText(pos.castle));
  }

  // ----- The castling field of the PGN Specification -----

  /** Section 16.1.3.3 of the PGN Specification: a dash when neither side can castle any more. */
  function StandardCastleField(castle: bv4): string { if castle == 0 then "-" else CastleText(castle) }

  lemma LettersOnly(castle: bv4)
    ensures CastleText(castle) == "" <==> castle == 0
    ensures '-' !in CastleText(castle)
  {
  }

  /** Main result: the castling field of a printed text is the standard's exactly if some right is left. */
  lemma StandardIff(pos: Pos)
    requires Hashable(pos)
    ensures CastleField(Text(pos)) == StandardCastleField(pos.castle) <==> pos.castle != 0
  {
    hide Text, CastleField, CastleText;
    CastleFieldOfText(pos);
    LettersOnly(pos.castle);
  }
}
