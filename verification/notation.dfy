/** What a FEN text says, read off the text alone: sections 16.1.3.1 to 16.1.3.4 of the PGN Specification. */
module Notation {
  import opened Pieces
  import opened Squares
  import opened Rules
  import opened Zobrist
  import opened Invariant
  import opened Effects
  import opened Fen

  // ----- Reading a text without a parser -----

  function UpToSlash(s: string): string {
    if s == [] || s[0] == '/' then [] else [s[0]] + UpToSlash(s[1..])
  }

  function PastSlash(s: string): string {
    if s == [] then [] else if s[0] == '/' then s[1..] else PastSlash(s[1..])
  }

  /** The text of a row: the rows stand between slashes, from rank 8 down. */
  function RankText(s: string, r: nat): string
    decreases r
  {
    if r == 0 then UpToSlash(s) else RankText(PastSlash(s), r - 1)
  }

  function Dots(n: nat): (s: string)
    ensures |s| == n && forall i :: 0 <= i < n ==> s[i] == '.'
  {
    seq(n, _ => '.')
  }

  /** A digit stands for that many empty squares. */
  function Expand(s: string): string {
    if s == [] then [] else (if '1' <= s[0] <= '8' then Dots(s[0] as int - '0' as int) else [s[0]]) + Expand(s[1..])
  }

  function CharAt(row: string, i: int): char { if 0 <= i < |row| then row[i] else '.' }

  /** What the text shows r rows down and c columns on; a dot for an empty square. */
  function Shown(s: string, r: int, c: int): char { if r < 0 then '.' else CharAt(Expand(RankText(s, r)), c) }

  /** The letters of the pieces, by how the pieces move, with white in capitals. */
  predicate Means(ch: char, p: int) {
    && IsPiece(p)
    && (ch in "Nn" <==> IsKnight(p)) && (ch in "Kk" <==> IsKing(p)) && (ch in "Pp" <==> IsPawn(p))
    && (ch in "Bb" <==> DoDiag(p) && !DoVert(p)) && (ch in "Rr" <==> DoVert(p) && !DoDiag(p))
    && (ch in "Qq" <==> DoDiag(p) && DoVert(p))
    && (ch in "PNBRQK" <==> PceCol(p) == WHITE) && (ch in "pnbrqk" <==> PceCol(p) == BLACK)
  }

  lemma PieceMeans(ch: char)
    ensures PieceOf(ch) != NOPIECE ==> Means(ch, PieceOf(ch)) && ch != '.'
  {
  }

  // ----- Squares -----

  ghost predicate AsShown(ch: char, p: int) { if ch == '.' then p == NOPIECE else Means(ch, p) }

  /** Nothing stands at the cursor or behind it in reading order. */
  ghost predicate Unread(st: Scan)
    requires Shape(st.pos.sq)
  {
    forall x, y :: On(x, y) && (x > st.r || (x == st.r && y >= st.c)) ==> At(st.pos.sq, x, y) == NOPIECE
  }

  lemma {:induction false} LaterKeepsSquares(s: string, st: Scan)
    requires Shape(st.pos.sq) && st.section > 0
    ensures Parse(s, st).Accepted? ==> Parse(s, st).pos.sq == st.pos.sq
    decreases |s|
  {
    if s != [] {
      LaterKeepsSquares(From(s, 1), st);
      LaterKeepsSquares(From(s, 1), st.(section := 3));
      LaterKeepsSquares(From(s, 1), st.(section := 4));
      if st.section == 1 {
        LaterKeepsSquares(From(s, 2), st.(section := 2));
        LaterKeepsSquares(From(s, 2), st.(section := 2, pos := st.pos.(side := BLACK)));
      } else if st.section == 2 {
        LaterKeepsSquares(From(s, 1), st.(pos := st.pos.(castle := With(st.pos.castle, RightOf(s[0])))));
      } else if st.section == 3 && |s| > 1 {
        LaterKeepsSquares(From(s, 1), st.(section := 4, pos := st.pos.(epR := EpRow(s[1]), epC := EpCol(s[0]))));
      }
    }
  }

  lemma ShownStep(s: string, r: int, c: int)
    requires s != []
    ensures s[0] == '/' ==> Shown(s, r, c) == if r == 0 then '.' else Shown(s[1..], r - 1, c)
    ensures '1' <= s[0] <= '8' ==>
              var n := s[0] as int - '0' as int;
              Shown(s, r, c) == if r == 0 then (if c < n then '.' else Shown(s[1..], 0, c - n)) else Shown(s[1..], r, c)
    ensures s[0] != '/' && !('1' <= s[0] <= '8') ==>
              Shown(s, r, c) == if r == 0 then (if c < 0 then '.' else if c == 0 then s[0] else Shown(s[1..], 0, c - 1))
                                else Shown(s[1..], r, c)
  {
    if s[0] == '/' {
      assert RankText(s, 0) == "";
    } else {
      assert Expand(RankText(s, 0)) ==
             (if '1' <= s[0] <= '8' then Dots(s[0] as int - '0' as int) else [s[0]]) + Expand(RankText(s[1..], 0)) by {
        assert RankText(s, 0)[1..] == RankText(s[1..], 0);
      }
    }
  }

  /** The square (x, y) of the position that the text s completes. */
  ghost predicate SquareRead(s: string, st: Scan, x: int, y: int, p: int)
    requires Shape(st.pos.sq) && On(x, y)
  {
    if x < st.r || (x == st.r && y < st.c) then p == At(st.pos.sq, x, y)
    else AsShown(Shown(UpToBlank(s), x - st.r, if x == st.r then y - st.c else y), p)
  }

  lemma {:induction false} SquaresShown(s: string, st: Scan, x: int, y: int)
    requires Shape(st.pos.sq) && st.section == 0 && st.c >= 0 && Unread(st) && On(x, y)
    ensures Parse(s, st).Accepted? ==> Shape(Parse(s, st).pos.sq) && SquareRead(s, st, x, y, At(Parse(s, st).pos.sq, x, y))
    decreases |s|
  {
    hide Means, Shown, Fits, PieceOf;
    if s == [] || s[0] == ' ' {
      NothingShown(x - st.r, if x == st.r then y - st.c else y);
      if s != [] {
        LaterKeepsSquares(From(s, 1), st.(section := 1));
      }
    } else {
      var t := UpToBlank(s);
      assert t[0] == s[0] && t[1..] == UpToBlank(From(s, 1));
      ShownStep(t, x - st.r, if x == st.r then y - st.c else y);
      if s[0] == '/' {
        SquaresShown(From(s, 1), st.(r := st.r + 1, c := 0), x, y);
      } else if '1' <= s[0] <= '8' {
        SquaresShown(From(s, 1), st.(c := st.c + (s[0] as int - '0' as int)), x, y);
      } else {
        PieceMeans(s[0]);
        if PieceOf(s[0]) != NOPIECE && Fits(st.pos.sq, st.r, st.c, PieceOf(s[0])) {
          FitsHere(st.pos.sq, st.r, st.c, PieceOf(s[0]));
          var next := st.(c := st.c + 1, pos := st.pos.(sq := Put(st.pos.sq, st.r, st.c, PieceOf(s[0]))));
          assert Parse(s, st) == Parse(From(s, 1), next);
          SquaresShown(From(s, 1), next, x, y);
        }
      }
    }
  }

  lemma NothingShown(r: int, c: int)
    ensures Shown("", r, c) == '.'
    decreases r
  {
    if r > 0 {
      NothingShown(r - 1, c);
    }
  }

  // ----- Side, rights and en passant square -----

  /** The first letter that names a side; white if there is none. */
  function SideLetter(s: string): char {
    if s == [] then 'w' else if s[0] == 'w' || s[0] == 'b' then s[0] else SideLetter(s[1..])
  }

  /** The letter of the right to castle towards a corner: K for the right-hand one, Q for the left-hand one. */
  function CastleLetter(side: int, corner: int): char {
    if side == WHITE then (if corner == 7 then 'K' else 'Q') else (if corner == 7 then 'k' else 'q')
  }

  ghost predicate RightMeans(field: string, before: bv4, castle: bv4, side: int, corner: int) {
    Has(castle, RightTowards(side, corner)) <==> Has(before, RightTowards(side, corner)) || CastleLetter(side, corner) in field
  }

  ghost predicate RightsMean(field: string, before: bv4, castle: bv4) {
    && RightMeans(field, before, castle, WHITE, 7) && RightMeans(field, before, castle, WHITE, 0)
    && RightMeans(field, before, castle, BLACK, 7) && RightMeans(field, before, castle, BLACK, 0)
  }

  /** Columns are lettered from the left, rows numbered from the bottom. */
  ghost predicate EpMeans(field: string, epR: int, epC: int) {
    if field == "" || field[0] == '-' then epR == epC == OFFBOARD
    else On(epR, epC) && |field| > 1 && field[0] == "abcdefgh"[epC] && field[1] == "87654321"[epR]
  }

  lemma ReadsSquareName(s: string)
    ensures |s| > 1 && s[0] != '-' && On(EpRow(s[1]), EpCol(s[0])) ==> EpMeans(s, EpRow(s[1]), EpCol(s[0]))
  {
  }

  lemma {:induction false} RestIgnored(s: string, st: Scan)
    requires Shape(st.pos.sq) && st.section >= 4
    ensures Parse(s, st) == Accepted(st.pos)
    decreases |s|
  {
    if s != [] {
      RestIgnored(From(s, 1), st);
    }
  }

  lemma EpFieldRead(s: string, st: Scan)
    requires Shape(st.pos.sq) && st.section == 3 && st.pos.epR == st.pos.epC == OFFBOARD
    ensures Parse(s, st).Accepted? ==>
              var pos := Parse(s, st).pos;
              pos.side == st.pos.side && pos.castle == st.pos.castle && EpMeans(s, pos.epR, pos.epC)
  {
    hide EpMeans, EpRow, EpCol;
    ReadsSquareName(s);
    EpAbsent(s);
    RestIgnored(From(s, 1), st.(section := 4));
    if |s| > 1 {
      RestIgnored(From(s, 1), st.(section := 4, pos := st.pos.(epR := EpRow(s[1]), epC := EpCol(s[0]))));
    }
  }

  lemma EpAbsent(s: string)
    ensures s == "" || s[0] == '-' ==> EpMeans(s, OFFBOARD, OFFBOARD)
  {
  }

  lemma OneMoreLetter(field: string, ch: char, before: bv4, castle: bv4)
    requires RightOf(ch) != 0 && RightsMean(field, With(before, RightOf(ch)), castle)
    ensures RightsMean([ch] + field, before, castle)
  {
    HasAfter(before, RightOf(ch), WKCA);
    HasAfter(before, RightOf(ch), WQCA);
    HasAfter(before, RightOf(ch), BKCA);
    HasAfter(before, RightOf(ch), BQCA);
    hide Has, With;
  }

  lemma {:induction false} CastleFieldRead(s: string, st: Scan)
    requires Shape(st.pos.sq) && st.section == 2 && st.pos.epR == st.pos.epC == OFFBOARD
    ensures Parse(s, st).Accepted? ==>
              var pos := Parse(s, st).pos;
              && pos.side == st.pos.side && RightsMean(UpToBlank(s), st.pos.castle, pos.castle)
              && EpMeans(AfterBlank(s), pos.epR, pos.epC)
    decreases |s|
  {
    hide EpMeans, RightOf, With, RightsMean;
    NothingMore(st.pos.castle);
    EpAbsent("");
    if s != [] {
      if s[0] == ' ' {
        EpFieldRead(From(s, 1), st.(section := 3));
      } else if s[0] == '-' {
        CastleFieldRead(From(s, 1), st);
        if Parse(s, st).Accepted? {
          DashMore(UpToBlank(From(s, 1)), st.pos.castle, Parse(s, st).pos.castle);
        }
      } else if RightOf(s[0]) != 0 {
        var next := st.(pos := st.pos.(castle := With(st.pos.castle, RightOf(s[0]))));
        CastleFieldRead(From(s, 1), next);
        if Parse(s, st).Accepted? {
          OneMoreLetter(UpToBlank(From(s, 1)), s[0], st.pos.castle, Parse(s, st).pos.castle);
        }
      }
    }
  }

  lemma NothingMore(castle: bv4)
    ensures RightsMean("", castle, castle)
  {
  }

  lemma DashMore(field: string, before: bv4, castle: bv4)
    requires RightsMean(field, before, castle)
    ensures RightsMean(['-'] + field, before, castle)
  {
  }

  lemma {:induction false} SideFieldRead(s: string, st: Scan)
    requires Shape(st.pos.sq) && st.section == 1 && st.pos.side == WHITE && st.pos.epR == st.pos.epC == OFFBOARD
    ensures Parse(s, st).Accepted? ==>
              var pos := Parse(s, st).pos;
              && pos.side == (if SideLetter(s) == 'w' then WHITE else BLACK)
              && RightsMean(UpToBlank(AfterSide(s)), st.pos.castle, pos.castle)
              && EpMeans(AfterBlank(AfterSide(s)), pos.epR, pos.epC)
    decreases |s|
  {
    hide EpMeans, RightsMean;
    NothingMore(st.pos.castle);
    EpAbsent("");
    if s != [] {
      if s[0] == 'w' {
        CastleFieldRead(From(s, 2), st.(section := 2));
      } else if s[0] == 'b' {
        CastleFieldRead(From(s, 2), st.(section := 2, pos := st.pos.(side := BLACK)));
      } else {
        SideFieldRead(From(s, 1), st);
      }
    }
  }

  lemma {:induction false} FieldsRead(s: string, st: Scan)
    requires Shape(st.pos.sq) && st.section == 0 && st.pos.side == WHITE && st.pos.epR == st.pos.epC == OFFBOARD
    ensures Parse(s, st).Accepted? ==>
              var pos := Parse(s, st).pos;
              && pos.side == (if SideLetter(AfterBlank(s)) == 'w' then WHITE else BLACK)
              && RightsMean(CastleField(s), st.pos.castle, pos.castle)
              && EpMeans(AfterBlank(AfterSide(AfterBlank(s))), pos.epR, pos.epC)
    decreases |s|
  {
    hide EpMeans, RightsMean, Fits, PieceOf, AfterSide, UpToBlank, SideLetter;
    if s == [] {
      NoFields(st.pos.castle);
    } else if s[0] == ' ' {
      SideFieldRead(From(s, 1), st.(section := 1));
    } else if s[0] == '/' {
      FieldsRead(From(s, 1), st.(r := st.r + 1, c := 0));
    } else if '1' <= s[0] <= '8' {
      FieldsRead(From(s, 1), st.(c := st.c + (s[0] as int - '0' as int)));
    } else if PieceOf(s[0]) != NOPIECE && Fits(st.pos.sq, st.r, st.c, PieceOf(s[0])) {
      FitsHere(st.pos.sq, st.r, st.c, PieceOf(s[0]));
      FieldsRead(From(s, 1), st.(c := st.c + 1, pos := st.pos.(sq := Put(st.pos.sq, st.r, st.c, PieceOf(s[0])))));
    }
  }

  lemma NoFields(castle: bv4)
    ensures SideLetter("") == 'w' && UpToBlank(AfterSide("")) == "" && AfterBlank(AfterSide("")) == ""
    ensures RightsMean("", castle, castle) && EpMeans("", OFFBOARD, OFFBOARD)
  {
  }

  // ----- The whole text -----

  /** w names the side whose pawns go towards lower rows. */
  ghost predicate SideMeans(ch: char, pos: Pos)
    requires Shape(pos.sq)
  {
    && IsSide(pos.side)
    && (forall r, c, x, y :: Attacks(pos.sq, PawnOf(pos.side), r, c, x, y) ==> (x < r <==> ch == 'w') && x != r)
    && Attacks(pos.sq, PawnOf(pos.side), 4, 4, if ch == 'w' then 3 else 5, 3)
    && forall m :: PseudoLegal(pos, m) && IsPawn(At(pos.sq, m.fr, m.fc)) ==> (m.tr < m.fr <==> ch == 'w') && m.tr != m.fr
  }

  /** The position is the one the text describes. */
  ghost predicate Describes(fen: string, pos: Pos)
    requires Shape(pos.sq)
  {
    && (forall r, c :: On(r, c) ==> AsShown(Shown(UpToBlank(fen), r, c), At(pos.sq, r, c)))
    && SideMeans(SideLetter(AfterBlank(fen)), pos)
    && RightsMean(CastleField(fen), 0, pos.castle)
    && EpMeans(AfterBlank(AfterSide(AfterBlank(fen))), pos.epR, pos.epC)
  }

  /** Main result: every accepted text describes the position that it is read as. */
  lemma ParseMeans(fen: string)
    ensures Shape(START.pos.sq)
    ensures Parse(fen, START).Accepted? ==> Shape(Parse(fen, START).pos.sq) && Describes(fen, Parse(fen, START).pos)
  {
    hide Parse, Shown, AsShown, CastleField, RightsMean, EpMeans, SideLetter, AfterBlank, AfterSide, UpToBlank;
    FieldsRead(fen, START);
    if Parse(fen, START).Accepted? {
      SquaresShown(fen, START, 0, 0);
      var pos := Parse(fen, START).pos;
      forall r, c | On(r, c)
        ensures AsShown(Shown(UpToBlank(fen), r, c), At(pos.sq, r, c))
      {
        SquaresShown(fen, START, r, c);
      }
      PawnsGo(pos);
    }
  }

  lemma PawnsGo(pos: Pos)
    requires Shape(pos.sq) && IsSide(pos.side)
    ensures SideMeans(if pos.side == WHITE then 'w' else 'b', pos)
  {
  }

  /** Main result: the text printed for a well-formed position describes it. */
  lemma TextMeans(pos: Pos)
    requires WellFormed(pos)
    ensures Hashable(pos) && Describes(Text(pos), pos)
  {
    hide WellFormed, Parse, Text, Describes;
    FenRoundTrip(pos);
    ParseMeans(Text(pos));
  }

  /** Main result: a text describes at most one position, so what it is read as is the position it describes. */
  lemma DescribedOnce(fen: string, p: Pos, q: Pos)
    requires Shape(p.sq) && Shape(q.sq) && Describes(fen, p) && Describes(fen, q)
    ensures p == q
  {
    hide Shown, CastleField, SideLetter, AfterBlank, AfterSide, UpToBlank, Means, RightsMean, EpMeans, SideMeans;
    forall r, c | On(r, c)
      ensures At(p.sq, r, c) == At(q.sq, r, c)
    {
      MeansOnce(Shown(UpToBlank(fen), r, c), At(p.sq, r, c), At(q.sq, r, c));
    }
    SameGrid(p.sq, q.sq);
    SideOnce(SideLetter(AfterBlank(fen)), p, q);
    RightsOnce(CastleField(fen), 0, p.castle, q.castle);
    EpOnce(AfterBlank(AfterSide(AfterBlank(fen))), p.epR, p.epC, q.epR, q.epC);
  }

  lemma MeansOnce(ch: char, p: int, q: int)
    ensures Means(ch, p) && Means(ch, q) ==> p == q
  {
  }

  lemma SideOnce(ch: char, p: Pos, q: Pos)
    requires Shape(p.sq) && Shape(q.sq) && SideMeans(ch, p) && SideMeans(ch, q)
    ensures p.side == q.side
  {
    hide PseudoLegal;
  }

  lemma RightsOnce(field: string, before: bv4, a: bv4, b: bv4)
    requires RightsMean(field, before, a) && RightsMean(field, before, b)
    ensures a == b
  {
    hide Has;
    RightsDetermine(a, b);
  }

  lemma RightsDetermine(a: bv4, b: bv4)
    requires (Has(a, WKCA) <==> Has(b, WKCA)) && (Has(a, WQCA) <==> Has(b, WQCA))
    requires (Has(a, BKCA) <==> Has(b, BKCA)) && (Has(a, BQCA) <==> Has(b, BQCA))
    ensures a == b
  {
  }

  lemma EpOnce(field: string, r: int, c: int, x: int, y: int)
    requires EpMeans(field, r, c) && EpMeans(field, x, y)
    ensures r == x && c == y
  {
  }

  // ----- Runs of empty squares -----

  predicate IsCount(ch: char) { '1' <= ch <= '8' }

  /** No digit follows another: every run of empty squares is one digit. */
  predicate RunsAreWhole(s: string) { forall i :: 0 <= i < |s| - 1 ==> !(IsCount(s[i]) && IsCount(s[i + 1])) }

  lemma {:induction false} RowRuns(sq: Grid, r: int, c: int, n: int)
    requires Shape(sq) && 0 <= r < 8 && 0 <= n <= c <= 8
    ensures RunsAreWhole(RowText(sq, r, c, n))
    decreases 8 - c
  {
    hide Letter;
    if c < 8 {
      RowRuns(sq, r, c + 1, if At(sq, r, c) != NOPIECE then 0 else n + 1);
      if At(sq, r, c) != NOPIECE {
        LetterReads(At(sq, r, c));
      }
    }
  }

  /** The placement field of a printed text never puts two digits side by side. */
  lemma {:induction false} RowsRuns(sq: Grid, r: int)
    requires Shape(sq) && 0 <= r < 8
    ensures RunsAreWhole(RowsText(sq, r))
    decreases 8 - r
  {
    hide RowText;
    RowRuns(sq, r, 0, 0);
    if r < 7 {
      RowsRuns(sq, r + 1);
    }
  }
}
