/** Piece codes, colours and the packed move key (include/chess/defs.h, src/chess/defs.cpp). */
module Pieces {

  const OFFBOARD: int := -1
  const WP: int := 0
  const WN: int := 1
  const WB: int := 2
  const WR: int := 3
  const WQ: int := 4
  const WK: int := 5
  const BP: int := 6
  const BN: int := 7
  const BB: int := 8
  const BR: int := 9
  const BQ: int := 10
  const BK: int := 11
  const NOPIECE: int := 12

  const WHITE: int := 0
  const BLACK: int := 1

  predicate IsPiece(p: int) { 0 <= p < 12 }

  predicate IsCell(p: int) { 0 <= p <= 12 }

  predicate IsSide(side: int) { side == WHITE || side == BLACK }

  predicate IsPawn(p: int) { p == WP || p == BP }

  predicate IsKing(p: int) { p == WK || p == BK }

  predicate DoDiag(p: int) { p == WB || p == BB || p == WQ || p == BQ }

  predicate DoVert(p: int) { p == WR || p == BR || p == WQ || p == BQ }

  predicate IsKnight(p: int) { p == WN || p == BN }

  /** The source exits the process on anything but the twelve piece codes. */
  function PceCol(p: int): (c: int)
    requires IsPiece(p)
    ensures IsSide(c)
  {
    if p <= WK then WHITE else BLACK
  }

  function Other(side: int): int { if side == WHITE then BLACK else WHITE }

  function KingOf(side: int): int { if side == WHITE then WK else BK }

  function PawnOf(side: int): int { if side == WHITE then WP else BP }

  function RookOf(side: int): int { if side == WHITE then WR else BR }

  function Worth(p: int): int
    requires IsPiece(p)
  {
    if p == WP then 100
    else if p == WN || p == WB then 325
    else if p == WR then 550
    else if p == WQ then 1000
    else if p == WK then 50000
    else if p == BP then -100
    else if p == BN || p == BB then -325
    else if p == BR then -550
    else if p == BQ then -1000
    else -50000
  }

  // ----- Moves -----

  /** What a move key says about a move. */
  datatype Move = Move(fr: int, fc: int, tr: int, tc: int, cap: int,
                       ep: bool, start: bool, prom: int, castle: bool)

  type Key = bv32

  const NOMOVE: Key := 0

  /** The fields fit the bits that the key reserves for them, and the promotion field is never 0. */
  predicate Packable(m: Move) {
    && 0 <= m.fr < 8 && 0 <= m.fc < 8 && 0 <= m.tr < 8 && 0 <= m.tc < 8
    && 0 <= m.cap < 16 && 0 < m.prom < 16
  }

  function Bit(b: bool): bv32 { if b then 1 else 0 }

  function Bits(x: int): bv32
    requires 0 <= x < 16
  {
    x as bv32
  }

  function Number(v: bv32): int { v as int }

  function Pack(fr: int, fc: int, tr: int, tc: int, cap: int, ep: bool, start: bool, prom: int, castle: bool): Key
    requires Packable(Move(fr, fc, tr, tc, cap, ep, start, prom, castle))
  {
    Bits(fr) | (Bits(fc) << 3) | (Bits(tr) << 6) | (Bits(tc) << 9)
    | (Bits(cap) << 12) | (Bit(ep) << 16) | (Bit(start) << 17)
    | (Bits(prom) << 18) | (Bit(castle) << 22)
  }

  function Encode(m: Move): Key
    requires Packable(m)
  {
    Pack(m.fr, m.fc, m.tr, m.tc, m.cap, m.ep, m.start, m.prom, m.castle)
  }

  function FromR(k: Key): int { Number(k & 0x7) }
  function FromC(k: Key): int { Number((k & 0x38) >> 3) }
  function ToR(k: Key): int { Number((k & 0x1C0) >> 6) }
  function ToC(k: Key): int { Number((k & 0xE00) >> 9) }
  function Captured(k: Key): int { Number((k & 0xF000) >> 12) }
  function Promoted(k: Key): int { Number((k & 0x3C0000) >> 18) }
  predicate IsEnpasMove(k: Key) { (k & 0x10000) >> 16 != 0 }
  predicate IsPawnstartMove(k: Key) { (k & 0x20000) >> 17 != 0 }
  predicate IsCastleMove(k: Key) { (k & 0x400000) >> 22 != 0 }

  function Decode(k: Key): Move {
    Move(FromR(k), FromC(k), ToR(k), ToC(k), Captured(k),
         IsEnpasMove(k), IsPawnstartMove(k), Promoted(k), IsCastleMove(k))
  }

  lemma SmallField(x: int)
    requires 0 <= x < 16
    ensures Bits(x) < 16
    ensures x < 8 ==> Bits(x) < 8
    ensures Number(Bits(x)) == x
    ensures x != 0 ==> Bits(x) != 0
  {
  }

  lemma DisjointFields(a: bv32, b: bv32, c: bv32, d: bv32, e: bv32, f: bv32, g: bv32, h: bv32, i: bv32)
    requires a < 8 && b < 8 && c < 8 && d < 8 && e < 16 && f < 2 && g < 2 && h < 16 && i < 2
    ensures var k := a | (b << 3) | (c << 6) | (d << 9) | (e << 12) | (f << 16) | (g << 17) | (h << 18) | (i << 22);
            && k & 0x7 == a && (k & 0x38) >> 3 == b && (k & 0x1C0) >> 6 == c && (k & 0xE00) >> 9 == d
            && (k & 0xF000) >> 12 == e && (k & 0x10000) >> 16 == f && (k & 0x20000) >> 17 == g
            && (k & 0x3C0000) >> 18 == h && (k & 0x400000) >> 22 == i
            && (h != 0 ==> k != 0)
  {
  }

  /** The decoders invert the packing, and no packed move is the sentinel NOMOVE. */
  lemma DecodeEncode(m: Move)
    requires Packable(m)
    ensures Decode(Encode(m)) == m
    ensures Encode(m) != NOMOVE
  {
    hide Bits, Number;
    SmallField(m.fr);
    SmallField(m.fc);
    SmallField(m.tr);
    SmallField(m.tc);
    SmallField(m.cap);
    SmallField(m.prom);
    DisjointFields(Bits(m.fr), Bits(m.fc), Bits(m.tr), Bits(m.tc), Bits(m.cap),
                   Bit(m.ep), Bit(m.start), Bits(m.prom), Bit(m.castle));
  }

  lemma DecodeFields(k: Key)
    ensures var m := Decode(k);
            m.fr == FromR(k) && m.fc == FromC(k) && m.tr == ToR(k) && m.tc == ToC(k) && m.cap == Captured(k)
            && m.ep == IsEnpasMove(k) && m.start == IsPawnstartMove(k) && m.prom == Promoted(k)
            && m.castle == IsCastleMove(k)
  {
  }
}
