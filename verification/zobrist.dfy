/** Position keys and material as functions of the position alone. */
module Zobrist {
  import opened Pieces
  import opened Squares
  import opened Rules

  /** The random keys: non-negative 31-bit numbers, fixed when the board is built; and what position keys are off by,
      which is 0 unless a FEN text has repeated castling letters. */
  datatype Keys = Keys(side: bv32, castle: seq<bv32>, ep: seq<seq<bv32>>, pce: seq<seq<seq<bv32>>>, base: bv32)

  predicate Small(k: bv32) { k < 0x8000_0000 }

  ghost predicate KeysOk(keys: Keys) {
    && Small(keys.side) && Small(keys.base)
    && |keys.castle| == 4 && (forall i :: 0 <= i < 4 ==> Small(keys.castle[i]))
    && |keys.ep| == 8 && (forall r :: 0 <= r < 8 ==> |keys.ep[r]| == 8)
    && (forall r, c :: On(r, c) ==> Small(keys.ep[r][c]))
    && |keys.pce| == 8 && (forall r :: 0 <= r < 8 ==> |keys.pce[r]| == 8)
    && (forall r, c :: On(r, c) ==> |keys.pce[r][c]| == 12)
    && (forall r, c, p :: On(r, c) && IsPiece(p) ==> Small(keys.pce[r][c][p]))
  }

  /** The key of a piece on a square; empty squares contribute nothing. */
  function CellKey(keys: Keys, r: int, c: int, p: int): bv32
    requires KeysOk(keys) && On(r, c) && IsCell(p)
  {
    if p == NOPIECE then 0 else keys.pce[r][c][p]
  }

  function Xor(a: bv32, b: bv32): bv32 { a ^ b }

  function RowKey(keys: Keys, sq: Grid, r: int, n: nat): bv32
    requires KeysOk(keys) && Shape(sq) && 0 <= r < 8 && n <= 8
  {
    if n == 0 then 0 else Xor(RowKey(keys, sq, r, n - 1), CellKey(keys, r, n - 1, At(sq, r, n - 1)))
  }

  function RowsKey(keys: Keys, sq: Grid, n: nat): bv32
    requires KeysOk(keys) && Shape(sq) && n <= 8
  {
    if n == 0 then 0 else Xor(RowsKey(keys, sq, n - 1), RowKey(keys, sq, n - 1, 8))
  }

  function RightKey(keys: Keys, castle: bv4, right: bv4, i: int): bv32
    requires KeysOk(keys) && 0 <= i < 4
  {
    if Has(castle, right) then keys.castle[i] else 0
  }

  function CastleKey(keys: Keys, castle: bv4): bv32
    requires KeysOk(keys)
  {
    Quad(RightKey(keys, castle, WKCA, 0), RightKey(keys, castle, WQCA, 1),
         RightKey(keys, castle, BKCA, 2), RightKey(keys, castle, BQCA, 3))
  }

  predicate EpOnBoard(epR: int, epC: int) { (epR == OFFBOARD && epC == OFFBOARD) || On(epR, epC) }

  function EpKey(keys: Keys, epR: int, epC: int): bv32
    requires KeysOk(keys) && EpOnBoard(epR, epC)
  {
    if epR == OFFBOARD then 0 else keys.ep[epR][epC]
  }

  function SideKey(keys: Keys, side: int): bv32 { if side == WHITE then Xor(keys.base, keys.side) else keys.base }

  ghost predicate Hashable(pos: Pos) { Shape(pos.sq) && EpOnBoard(pos.epR, pos.epC) && IsSide(pos.side) }

  /** The key from scratch: pieces, active rights, en passant square and white to move. */
  function KeyOf(keys: Keys, pos: Pos): bv32
    requires KeysOk(keys) && Hashable(pos)
  {
    Xor(Xor(RowsKey(keys, pos.sq, 8), CastleKey(keys, pos.castle)),
        Xor(EpKey(keys, pos.epR, pos.epC), SideKey(keys, pos.side)))
  }

  // ----- XOR arithmetic -----

  lemma XorRaw(a: bv32, b: bv32, d: bv32)
    ensures (a ^ d) ^ b == (a ^ b) ^ d
    ensures a ^ (b ^ d) == (a ^ b) ^ d
    ensures a ^ (a ^ b) == b && a ^ b == b ^ a && a ^ 0 == a && 0 ^ a == a
  {
  }

  lemma XorLaws(a: bv32, b: bv32, d: bv32)
    ensures Xor(a, b) == Xor(b, a)
    ensures Xor(Xor(a, d), b) == Xor(Xor(a, b), d)
    ensures Xor(a, Xor(b, d)) == Xor(Xor(a, b), d)
    ensures Xor(a, Xor(a, b)) == b
    ensures Xor(a, 0) == a == Xor(0, a)
  {
    XorRaw(a, b, d);
  }

  /** What a change of one square does to a key. */
  function CellFlip(keys: Keys, r: int, c: int, p: int, q: int): bv32
    requires KeysOk(keys) && On(r, c) && IsCell(p) && IsCell(q)
  {
    Xor(CellKey(keys, r, c, p), CellKey(keys, r, c, q))
  }

  lemma FlipOne(keys: Keys, r: int, c: int, p: int)
    requires KeysOk(keys) && On(r, c) && IsPiece(p)
    ensures CellFlip(keys, r, c, NOPIECE, p) == CellKey(keys, r, c, p) == CellFlip(keys, r, c, p, NOPIECE)
  {
    hide Xor;
    XorLaws(CellKey(keys, r, c, p), 0, 0);
  }

  lemma {:induction false} RowKeyPut(keys: Keys, sq: Grid, i: int, n: nat, r: int, c: int, p: int)
    requires KeysOk(keys) && Shape(sq) && 0 <= i < 8 && n <= 8 && On(r, c) && IsCell(p)
    ensures RowKey(keys, Put(sq, r, c, p), i, n)
         == if i == r && c < n then Xor(RowKey(keys, sq, i, n), CellFlip(keys, r, c, At(sq, r, c), p))
            else RowKey(keys, sq, i, n)
  {
    hide Xor, CellKey;
    if n > 0 {
      RowKeyPut(keys, sq, i, n - 1, r, c, p);
      var before, old', flip := RowKey(keys, sq, i, n - 1), CellKey(keys, i, n - 1, At(sq, i, n - 1)),
                                CellFlip(keys, r, c, At(sq, r, c), p);
      XorLaws(before, old', flip);
      if i == r && c == n - 1 {
        XorLaws(old', CellKey(keys, r, c, p), 0);
      }
    }
  }

  lemma {:induction false} RowsKeyPut(keys: Keys, sq: Grid, n: nat, r: int, c: int, p: int)
    requires KeysOk(keys) && Shape(sq) && n <= 8 && On(r, c) && IsCell(p)
    ensures RowsKey(keys, Put(sq, r, c, p), n)
         == if r < n then Xor(RowsKey(keys, sq, n), CellFlip(keys, r, c, At(sq, r, c), p))
            else RowsKey(keys, sq, n)
  {
    hide Xor, CellFlip;
    if n > 0 {
      RowsKeyPut(keys, sq, n - 1, r, c, p);
      RowKeyPut(keys, sq, n - 1, 8, r, c, p);
      XorLaws(RowsKey(keys, sq, n - 1), RowKey(keys, sq, n - 1, 8), CellFlip(keys, r, c, At(sq, r, c), p));
    }
  }

  /** Changing one square XORs its old contribution out and the new one in. */
  lemma KeyPut(keys: Keys, pos: Pos, r: int, c: int, p: int)
    requires KeysOk(keys) && Hashable(pos) && On(r, c) && IsCell(p)
    ensures KeyOf(keys, pos.(sq := Put(pos.sq, r, c, p)))
         == Xor(KeyOf(keys, pos), CellFlip(keys, r, c, At(pos.sq, r, c), p))
  {
    hide Xor, CellFlip, CastleKey, EpKey, SideKey;
    RowsKeyPut(keys, pos.sq, 8, r, c, p);
    var pieces, rest := RowsKey(keys, pos.sq, 8), Xor(EpKey(keys, pos.epR, pos.epC), SideKey(keys, pos.side));
    var flip := CellFlip(keys, r, c, At(pos.sq, r, c), p);
    XorLaws(pieces, CastleKey(keys, pos.castle), flip);
    XorLaws(Xor(pieces, CastleKey(keys, pos.castle)), rest, flip);
  }

  lemma XorRegroup(a: bv32, c: bv32, c': bv32, e: bv32)
    ensures Xor(Xor(a, c'), e) == Xor(Xor(Xor(a, c), e), Xor(c, c'))
  {
    hide Xor;
    XorLaws(Xor(a, c), e, Xor(c, c'));
    XorLaws(a, c, Xor(c, c'));
    XorLaws(c, c', 0);
  }

  lemma KeyCastle(keys: Keys, pos: Pos, castle: bv4)
    requires KeysOk(keys) && Hashable(pos)
    ensures KeyOf(keys, pos.(castle := castle))
         == Xor(KeyOf(keys, pos), Xor(CastleKey(keys, pos.castle), CastleKey(keys, castle)))
  {
    hide Xor, RowsKey, CastleKey, EpKey, SideKey;
    XorRegroup(RowsKey(keys, pos.sq, 8), CastleKey(keys, pos.castle), CastleKey(keys, castle),
               Xor(EpKey(keys, pos.epR, pos.epC), SideKey(keys, pos.side)));
  }

  lemma KeyEp(keys: Keys, pos: Pos, epR: int, epC: int)
    requires KeysOk(keys) && Hashable(pos) && EpOnBoard(epR, epC)
    ensures KeyOf(keys, pos.(epR := epR, epC := epC))
         == Xor(KeyOf(keys, pos), Xor(EpKey(keys, pos.epR, pos.epC), EpKey(keys, epR, epC)))
  {
    hide Xor, RowsKey, CastleKey, EpKey, SideKey;
    var a, s := Xor(RowsKey(keys, pos.sq, 8), CastleKey(keys, pos.castle)), SideKey(keys, pos.side);
    var e, e' := EpKey(keys, pos.epR, pos.epC), EpKey(keys, epR, epC);
    XorLaws(a, e, s);
    XorLaws(a, e', s);
    XorRegroup(a, e, e', s);
  }

  /** Putting down or taking away a piece flips its own random number. */
  lemma PieceFlip(keys: Keys, pos: Pos, r: int, c: int, p: int)
    requires KeysOk(keys) && Hashable(pos) && On(r, c) && IsPiece(p)
    ensures At(pos.sq, r, c) == NOPIECE ==> KeyOf(keys, pos.(sq := Put(pos.sq, r, c, p))) == Xor(KeyOf(keys, pos), keys.pce[r][c][p])
    ensures At(pos.sq, r, c) == p ==> KeyOf(keys, pos.(sq := Put(pos.sq, r, c, NOPIECE))) == Xor(KeyOf(keys, pos), keys.pce[r][c][p])
  {
    hide Xor, KeyOf;
    KeyPut(keys, pos, r, c, p);
    KeyPut(keys, pos, r, c, NOPIECE);
    FlipOne(keys, r, c, p);
  }

  /** Setting the en passant square, or clearing it, flips the random number of that square. */
  lemma EpFlip(keys: Keys, pos: Pos, epR: int, epC: int)
    requires KeysOk(keys) && Hashable(pos) && On(epR, epC)
    ensures pos.epR == OFFBOARD ==>
              KeyOf(keys, pos.(epR := epR, epC := epC)) == Xor(KeyOf(keys, pos), keys.ep[epR][epC])
    ensures pos.epR == epR && pos.epC == epC ==>
              KeyOf(keys, pos.(epR := OFFBOARD, epC := OFFBOARD)) == Xor(KeyOf(keys, pos), keys.ep[epR][epC])
  {
    hide Xor, KeyOf;
    KeyEp(keys, pos, epR, epC);
    KeyEp(keys, pos, OFFBOARD, OFFBOARD);
    XorLaws(EpKey(keys, epR, epC), 0, 0);
  }

  lemma KeySide(keys: Keys, pos: Pos)
    requires KeysOk(keys) && Hashable(pos)
    ensures KeyOf(keys, pos.(side := Other(pos.side))) == Xor(KeyOf(keys, pos), keys.side)
  {
    hide Xor, RowsKey, CastleKey, EpKey;
    var a, e := Xor(RowsKey(keys, pos.sq, 8), CastleKey(keys, pos.castle)), EpKey(keys, pos.epR, pos.epC);
    KeyTail(a, e, SideKey(keys, pos.side), keys.side);
    XorLaws(keys.base, keys.side, keys.side);
    XorMoves(keys.base, keys.side);
  }

  lemma KeyTail(a: bv32, e: bv32, s: bv32, d: bv32)
    ensures Xor(a, Xor(e, Xor(s, d))) == Xor(Xor(a, Xor(e, s)), d)
  {
    hide Xor;
    XorLaws(e, s, d);
    XorLaws(a, Xor(e, s), d);
  }

  /** Shifting the base shifts every position key. */
  lemma KeyBase(keys: Keys, pos: Pos, d: bv32)
    requires KeysOk(keys) && Small(d) && Hashable(pos)
    ensures KeysOk(keys.(base := Xor(keys.base, d)))
    ensures KeyOf(keys.(base := Xor(keys.base, d)), pos) == Xor(KeyOf(keys, pos), d)
  {
    var keys' := keys.(base := Xor(keys.base, d));
    XorSmall(keys.base, d);
    BaseShift(keys, d, pos.side);
    SamePieces(keys, keys', pos.sq, 8);
    SameCastle(keys, keys', pos.castle);
    SameKeys(keys, keys', pos.epR, pos.epC, NOPIECE);
    hide Xor, RowsKey, CastleKey, SideKey, KeysOk;
    var a, e := Xor(RowsKey(keys, pos.sq, 8), CastleKey(keys, pos.castle)), EpKey(keys, pos.epR, pos.epC);
    KeyTail(a, e, SideKey(keys, pos.side), d);
  }

  lemma BaseShift(keys: Keys, d: bv32, side: int)
    ensures SideKey(keys.(base := Xor(keys.base, d)), side) == Xor(SideKey(keys, side), d)
  {
    hide Xor;
    XorLaws(keys.base, keys.side, d);
  }

  lemma SameCastle(keys: Keys, keys': Keys, castle: bv4)
    requires KeysOk(keys) && KeysOk(keys') && keys' == keys.(base := keys'.base)
    ensures CastleKey(keys', castle) == CastleKey(keys, castle)
  {
    hide Xor, Has, Quad;
  }

  lemma {:induction false} SamePiecesInRow(keys: Keys, keys': Keys, sq: Grid, r: int, n: nat)
    requires KeysOk(keys) && KeysOk(keys') && Shape(sq) && 0 <= r < 8 && n <= 8 && keys' == keys.(base := keys'.base)
    ensures RowKey(keys', sq, r, n) == RowKey(keys, sq, r, n)
  {
    hide Xor;
    if n > 0 {
      SamePiecesInRow(keys, keys', sq, r, n - 1);
    }
  }

  lemma {:induction false} SamePieces(keys: Keys, keys': Keys, sq: Grid, n: nat)
    requires KeysOk(keys) && KeysOk(keys') && Shape(sq) && n <= 8 && keys' == keys.(base := keys'.base)
    ensures RowsKey(keys', sq, n) == RowsKey(keys, sq, n)
  {
    hide Xor, RowKey;
    if n > 0 {
      SamePieces(keys, keys', sq, n - 1);
      SamePiecesInRow(keys, keys', sq, n - 1, 8);
    }
  }

  function RightIndex(right: bv4): int {
    if right == WKCA then 0 else if right == WQCA then 1 else if right == BKCA then 2 else 3
  }

  predicate IsRight(right: bv4) { right == WKCA || right == WQCA || right == BKCA || right == BQCA }

  function KeyOfRight(keys: Keys, right: bv4): bv32
    requires KeysOk(keys) && IsRight(right)
  {
    keys.castle[RightIndex(right)]
  }

  lemma XorCancelRaw(a: bv32, x: bv32, b: bv32)
    ensures (a ^ b) ^ (x ^ b) == a ^ x
    ensures (b ^ a) ^ (b ^ x) == a ^ x
  {
  }

  lemma XorCancel(a: bv32, x: bv32, b: bv32)
    ensures Xor(Xor(a, b), Xor(x, b)) == Xor(a, x)
    ensures Xor(Xor(b, a), Xor(b, x)) == Xor(a, x)
  {
    XorCancelRaw(a, x, b);
  }

  function Quad(a: bv32, b: bv32, c: bv32, d: bv32): bv32 { Xor(Xor(a, b), Xor(c, d)) }

  lemma XorQuad(a: bv32, b: bv32, c: bv32, d: bv32, x: bv32)
    ensures Xor(Quad(a, b, c, d), Quad(x, b, c, d)) == Xor(a, x)
    ensures Xor(Quad(a, b, c, d), Quad(a, x, c, d)) == Xor(b, x)
    ensures Xor(Quad(a, b, c, d), Quad(a, b, x, d)) == Xor(c, x)
    ensures Xor(Quad(a, b, c, d), Quad(a, b, c, x)) == Xor(d, x)
  {
    hide Xor;
    XorCancel(Xor(a, b), Xor(x, b), Xor(c, d));
    XorCancel(Xor(a, b), Xor(a, x), Xor(c, d));
    XorCancel(Xor(c, d), Xor(x, d), Xor(a, b));
    XorCancel(Xor(c, d), Xor(c, x), Xor(a, b));
    XorCancel(a, x, b);
    XorCancel(b, x, a);
    XorCancel(c, x, d);
    XorCancel(d, x, c);
  }

  /** Clearing or setting one right leaves the others alone. */
  lemma HasAfter(castle: bv4, right: bv4, other: bv4)
    requires IsRight(right) && IsRight(other)
    ensures Has(Without(castle, right), other) == (Has(castle, other) && other != right)
    ensures Has(With(castle, right), other) == (Has(castle, other) || other == right)
    ensures castle == Without(castle, right) <==> !Has(castle, right)
    ensures castle == With(castle, right) <==> Has(castle, right)
  {
  }

  lemma XorZero(a: bv32)
    ensures Xor(a, 0) == a == Xor(0, a) && Xor(a, a) == 0
  {
  }

  /** Adding or dropping one right flips exactly the key of that right. */
  lemma CastleFlip(keys: Keys, castle: bv4, right: bv4)
    requires KeysOk(keys) && IsRight(right)
    ensures Xor(CastleKey(keys, castle), CastleKey(keys, Without(castle, right)))
         == if Has(castle, right) then KeyOfRight(keys, right) else 0
    ensures Xor(CastleKey(keys, castle), CastleKey(keys, With(castle, right)))
         == if Has(castle, right) then 0 else KeyOfRight(keys, right)
  {
    HasAfter(castle, right, WKCA);
    HasAfter(castle, right, WQCA);
    HasAfter(castle, right, BKCA);
    HasAfter(castle, right, BQCA);
    var k, has := KeyOfRight(keys, right), Has(castle, right);
    hide Xor, Has, Quad, With, Without;
    var a, b := RightKey(keys, castle, WKCA, 0), RightKey(keys, castle, WQCA, 1);
    var c, d := RightKey(keys, castle, BKCA, 2), RightKey(keys, castle, BQCA, 3);
    XorQuad(a, b, c, d, 0);
    XorQuad(a, b, c, d, k);
    XorZero(k);
    XorZero(0);
  }

  lemma KeyRight(keys: Keys, pos: Pos, right: bv4)
    requires KeysOk(keys) && Hashable(pos) && IsRight(right)
    ensures KeyOf(keys, pos.(castle := Without(pos.castle, right)))
         == if Has(pos.castle, right) then Xor(KeyOf(keys, pos), KeyOfRight(keys, right)) else KeyOf(keys, pos)
    ensures KeyOf(keys, pos.(castle := With(pos.castle, right)))
         == if Has(pos.castle, right) then KeyOf(keys, pos) else Xor(KeyOf(keys, pos), KeyOfRight(keys, right))
  {
    KeyCastle(keys, pos, Without(pos.castle, right));
    KeyCastle(keys, pos, With(pos.castle, right));
    CastleFlip(keys, pos.castle, right);
    XorZero(KeyOf(keys, pos));
    hide Xor, KeyOf, CastleKey, Has, With, Without;
  }

  lemma XorMoves(a: bv32, k: bv32)
    ensures Xor(Xor(a, k), k) == a
    ensures Xor(a, k) == a <==> k == 0
  {
  }

  /** The base is no part of the single keys. */
  lemma SameKeys(keys: Keys, keys': Keys, r: int, c: int, p: int)
    requires KeysOk(keys) && KeysOk(keys') && keys' == keys.(base := keys'.base)
    ensures On(r, c) && IsCell(p) ==> CellKey(keys, r, c, p) == CellKey(keys', r, c, p)
    ensures On(r, c) ==> EpKey(keys, r, c) == EpKey(keys', r, c)
    ensures keys.side == keys'.side
  {
  }

  lemma SameRightKey(keys: Keys, keys': Keys, right: bv4)
    requires KeysOk(keys) && KeysOk(keys') && IsRight(right) && keys' == keys.(base := keys'.base)
    ensures KeyOfRight(keys', right) == KeyOfRight(keys, right)
  {
  }

  // ----- Keys stay non-negative -----

  lemma XorSmall(a: bv32, b: bv32)
    requires Small(a) && Small(b)
    ensures Small(Xor(a, b))
  {
  }

  lemma CellSmall(keys: Keys, r: int, c: int, p: int)
    requires KeysOk(keys) && On(r, c) && IsCell(p)
    ensures Small(CellKey(keys, r, c, p))
  {
    if p != NOPIECE {
      assert IsPiece(p) && Small(keys.pce[r][c][p]);
    } else {
      assert Small(0);
    }
  }

  lemma {:induction false} RowKeySmall(keys: Keys, sq: Grid, r: int, n: nat)
    requires KeysOk(keys) && Shape(sq) && 0 <= r < 8 && n <= 8
    ensures Small(RowKey(keys, sq, r, n))
  {
    hide Xor, CellKey;
    if n > 0 {
      RowKeySmall(keys, sq, r, n - 1);
      CellSmall(keys, r, n - 1, At(sq, r, n - 1));
      XorSmall(RowKey(keys, sq, r, n - 1), CellKey(keys, r, n - 1, At(sq, r, n - 1)));
    }
  }

  lemma {:induction false} RowsKeySmall(keys: Keys, sq: Grid, n: nat)
    requires KeysOk(keys) && Shape(sq) && n <= 8
    ensures Small(RowsKey(keys, sq, n))
  {
    hide Xor;
    if n > 0 {
      RowsKeySmall(keys, sq, n - 1);
      RowKeySmall(keys, sq, n - 1, 8);
      XorSmall(RowsKey(keys, sq, n - 1), RowKey(keys, sq, n - 1, 8));
    }
  }

  /** A position key is never negative, so table indices computed from it are in range. */
  lemma KeySmall(keys: Keys, pos: Pos)
    requires KeysOk(keys) && Hashable(pos)
    ensures Small(KeyOf(keys, pos))
  {
    RowsKeySmall(keys, pos.sq, 8);
    hide RowsKey;
    assert Small(EpKey(keys, pos.epR, pos.epC)) && Small(SideKey(keys, pos.side));
    assert Small(CastleKey(keys, pos.castle));
  }

  // ----- Material -----

  const WORTH_OF: Weight := (r: int, c: int, p: int) => if IsPiece(p) then Worth(p) else 0

  function Material(sq: Grid): int { Sum(WORTH_OF, sq) }

  lemma MaterialPut(sq: Grid, r: int, c: int, p: int)
    requires Shape(sq) && On(r, c) && IsPiece(p)
    ensures At(sq, r, c) == NOPIECE ==> Material(Put(sq, r, c, p)) == Material(sq) + Worth(p)
    ensures At(sq, r, c) == p ==> Material(Put(sq, r, c, NOPIECE)) == Material(sq) - Worth(p)
  {
    SumPut(WORTH_OF, sq, r, c, p);
    SumPut(WORTH_OF, sq, r, c, NOPIECE);
  }
}
