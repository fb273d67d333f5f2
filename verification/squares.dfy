/** The 8x8 array of squares as a value, and folds over it. */
module Squares {
  import opened Pieces

  type Grid = seq<seq<int>>

  predicate On(r: int, c: int) { 0 <= r < 8 && 0 <= c < 8 }

  ghost predicate Shape(sq: Grid) {
    && |sq| == 8
    && (forall r :: 0 <= r < 8 ==> |sq[r]| == 8)
    && (forall r, c :: On(r, c) ==> IsCell(sq[r][c]))
  }

  function At(sq: Grid, r: int, c: int): (p: int)
    requires Shape(sq) && On(r, c)
    ensures IsCell(p)
  {
    sq[r][c]
  }

  function Put(sq: Grid, r: int, c: int, p: int): (sq': Grid)
    requires Shape(sq) && On(r, c) && IsCell(p)
    ensures Shape(sq')
    ensures forall x, y :: On(x, y) ==> At(sq', x, y) == if x == r && y == c then p else At(sq, x, y)
  {
    var sq' := sq[r := sq[r][c := p]];
    assert forall x, y :: On(x, y) ==> sq'[x][y] == if x == r && y == c then p else sq[x][y];
    sq'
  }

  const EMPTY_ROW: seq<int> := [NOPIECE, NOPIECE, NOPIECE, NOPIECE, NOPIECE, NOPIECE, NOPIECE, NOPIECE]

  const EMPTY_GRID: Grid := [EMPTY_ROW, EMPTY_ROW, EMPTY_ROW, EMPTY_ROW, EMPTY_ROW, EMPTY_ROW, EMPTY_ROW, EMPTY_ROW]

  /** Two boards with the same contents are the same board. */
  lemma SameGrid(a: Grid, b: Grid)
    requires Shape(a) && Shape(b)
    requires forall r, c :: On(r, c) ==> At(a, r, c) == At(b, r, c)
    ensures a == b
  {
    forall r | 0 <= r < 8
      ensures a[r] == b[r]
    {
      forall c | 0 <= c < 8
        ensures a[r][c] == b[r][c]
      {
        assert At(a, r, c) == At(b, r, c);
      }
    }
  }

  // ----- Integer folds: material, piece counts, distances, evaluation terms -----

  /** What the cell p on square (r, c) contributes. */
  type Weight = (int, int, int) -> int

  function RowSum(w: Weight, row: seq<int>, r: int, n: nat): int
    requires n <= |row|
  {
    if n == 0 then 0 else RowSum(w, row, r, n - 1) + w(r, n - 1, row[n - 1])
  }

  function RowsSum(w: Weight, sq: Grid, n: nat): int
    requires n <= |sq|
  {
    if n == 0 then 0 else RowsSum(w, sq, n - 1) + RowSum(w, sq[n - 1], n - 1, |sq[n - 1]|)
  }

  function Sum(w: Weight, sq: Grid): int { RowsSum(w, sq, |sq|) }

  lemma {:induction false} RowSumUpdate(w: Weight, row: seq<int>, r: int, n: nat, c: nat, p: int)
    requires n <= |row| && c < |row|
    ensures RowSum(w, row[c := p], r, n)
         == RowSum(w, row, r, n) + if c < n then w(r, c, p) - w(r, c, row[c]) else 0
  {
    if n > 0 {
      RowSumUpdate(w, row, r, n - 1, c, p);
    }
  }

  lemma {:induction false} RowsSumUpdate(w: Weight, sq: Grid, n: nat, r: nat, c: nat, p: int)
    requires n <= |sq| && r < |sq| && c < |sq[r]|
    ensures RowsSum(w, sq[r := sq[r][c := p]], n)
         == RowsSum(w, sq, n) + if r < n then w(r, c, p) - w(r, c, sq[r][c]) else 0
  {
    if n > 0 {
      RowsSumUpdate(w, sq, n - 1, r, c, p);
      if r == n - 1 {
        RowSumUpdate(w, sq[r], r, |sq[r]|, c, p);
      }
    }
  }

  /** Changing one square changes a fold by the difference of the two contributions. */
  lemma SumPut(w: Weight, sq: Grid, r: int, c: int, p: int)
    requires Shape(sq) && On(r, c) && IsCell(p)
    ensures Sum(w, Put(sq, r, c, p)) == Sum(w, sq) - w(r, c, At(sq, r, c)) + w(r, c, p)
  {
    RowsSumUpdate(w, sq, 8, r, c, p);
  }

  predicate Below(w: Weight, p: int, v: Weight, q: int, r: int, c: int) { w(r, c, p) <= v(r, c, q) }

  lemma {:induction false} RowSumBounds(w: Weight, a: seq<int>, v: Weight, b: seq<int>, r: int, n: nat)
    requires n <= |a| && n <= |b|
    requires forall c :: 0 <= c < n ==> Below(w, a[c], v, b[c], r, c)
    ensures RowSum(w, a, r, n) <= RowSum(v, b, r, n)
  {
    if n > 0 {
      RowSumBounds(w, a, v, b, r, n - 1);
      assert Below(w, a[n - 1], v, b[n - 1], r, n - 1);
    }
  }

  lemma {:induction false} RowsSumBounds(w: Weight, a: Grid, v: Weight, b: Grid, n: nat)
    requires Shape(a) && Shape(b) && n <= 8
    requires forall r, c :: On(r, c) ==> Below(w, At(a, r, c), v, At(b, r, c), r, c)
    ensures RowsSum(w, a, n) <= RowsSum(v, b, n)
  {
    if n > 0 {
      RowsSumBounds(w, a, v, b, n - 1);
      var r := n - 1;
      var rowA, rowB := a[r], b[r];
      forall c | 0 <= c < 8
        ensures Below(w, rowA[c], v, rowB[c], r, c)
      {
        assert Below(w, At(a, r, c), v, At(b, r, c), r, c);
      }
      RowSumBounds(w, rowA, v, rowB, r, 8);
    }
  }

  /** Folds are monotone, square by square. */
  lemma SumBounds(w: Weight, a: Grid, v: Weight, b: Grid)
    requires Shape(a) && Shape(b)
    requires forall r, c :: On(r, c) ==> Below(w, At(a, r, c), v, At(b, r, c), r, c)
    ensures Sum(w, a) <= Sum(v, b)
  {
    RowsSumBounds(w, a, v, b, 8);
  }

  lemma SumEqual(w: Weight, v: Weight, sq: Grid)
    requires Shape(sq)
    requires forall r, c :: On(r, c) ==> Same(w, v, r, c, At(sq, r, c))
    ensures Sum(w, sq) == Sum(v, sq)
  {
    forall r, c | On(r, c)
      ensures Below(w, At(sq, r, c), v, At(sq, r, c), r, c)
      ensures Below(v, At(sq, r, c), w, At(sq, r, c), r, c)
    {
      assert Same(w, v, r, c, At(sq, r, c));
    }
    SumBounds(w, sq, v, sq);
    SumBounds(v, sq, w, sq);
  }

  predicate Same(w: Weight, v: Weight, r: int, c: int, p: int) { w(r, c, p) == v(r, c, p) }

  function Plus(w: Weight, v: Weight): Weight { (r: int, c: int, p: int) => w(r, c, p) + v(r, c, p) }

  function Scale(k: int, w: Weight): Weight { (r: int, c: int, p: int) => k * w(r, c, p) }

  lemma {:induction false} RowSumLinear(w: Weight, v: Weight, k: int, row: seq<int>, r: int, n: nat)
    requires n <= |row|
    ensures RowSum(Plus(w, v), row, r, n) == RowSum(w, row, r, n) + RowSum(v, row, r, n)
    ensures RowSum(Scale(k, w), row, r, n) == k * RowSum(w, row, r, n)
  {
    if n > 0 {
      RowSumLinear(w, v, k, row, r, n - 1);
      Distribute(k, RowSum(w, row, r, n - 1), w(r, n - 1, row[n - 1]));
    }
  }

  lemma Distribute(k: int, x: int, y: int)
    ensures k * (x + y) == k * x + k * y
  {
  }

  lemma {:induction false} RowsSumLinear(w: Weight, v: Weight, k: int, sq: Grid, n: nat)
    requires n <= |sq|
    ensures RowsSum(Plus(w, v), sq, n) == RowsSum(w, sq, n) + RowsSum(v, sq, n)
    ensures RowsSum(Scale(k, w), sq, n) == k * RowsSum(w, sq, n)
  {
    if n > 0 {
      RowsSumLinear(w, v, k, sq, n - 1);
      RowSumLinear(w, v, k, sq[n - 1], n - 1, |sq[n - 1]|);
      Distribute(k, RowsSum(w, sq, n - 1), RowSum(w, sq[n - 1], n - 1, |sq[n - 1]|));
    }
  }

  /** Folds are linear in the weight. */
  lemma SumLinear(w: Weight, v: Weight, k: int, sq: Grid)
    ensures Sum(Plus(w, v), sq) == Sum(w, sq) + Sum(v, sq)
    ensures Sum(Scale(k, w), sq) == k * Sum(w, sq)
  {
    RowsSumLinear(w, v, k, sq, |sq|);
  }

  // ----- Folds over a piece list -----

  /** The weight of the pieces below code n only. */
  function UpTo(w: Weight, n: int): Weight { (r: int, c: int, p: int) => if p < n then w(r, c, p) else 0 }

  function Only(w: Weight, n: int): Weight { (r: int, c: int, p: int) => if p == n then w(r, c, p) else 0 }

  /** Only the first n squares of a list count. */
  function InList(w: Weight, p: int, list: seq<(int, int)>, n: nat): Weight
    requires n <= |list|
  {
    (r: int, c: int, q: int) => if q == p && (r, c) in list[..n] then w(r, c, q) else 0
  }

  function ListSum(w: Weight, p: int, list: seq<(int, int)>, n: nat): int
    requires n <= |list|
  {
    if n == 0 then 0 else ListSum(w, p, list, n - 1) + w(list[n - 1].0, list[n - 1].1, p)
  }

  lemma SumUpTo(w: Weight, n: int, sq: Grid)
    requires Shape(sq)
    ensures Sum(UpTo(w, n + 1), sq) == Sum(UpTo(w, n), sq) + Sum(Only(w, n), sq)
  {
    SumLinear(UpTo(w, n), Only(w, n), 0, sq);
    SumEqual(UpTo(w, n + 1), Plus(UpTo(w, n), Only(w, n)), sq);
  }

  /** One square contributes its own weight. */
  lemma SumSingle(w: Weight, r: int, c: int, sq: Grid)
    requires Shape(sq) && On(r, c)
    requires forall x, y :: On(x, y) && (x != r || y != c) ==> Same(w, NOTHING, x, y, At(sq, x, y))
    requires w(r, c, NOPIECE) == 0
    ensures Sum(w, sq) == w(r, c, At(sq, r, c))
  {
    var empty := Put(sq, r, c, NOPIECE);
    forall x, y | On(x, y)
      ensures Same(w, NOTHING, x, y, At(empty, x, y))
    {
      assert (x == r && y == c) || Same(w, NOTHING, x, y, At(sq, x, y));
    }
    SumEqual(w, NOTHING, empty);
    RowsZero(empty, 8);
    SumPut(w, sq, r, c, NOPIECE);
  }

  lemma InListStep(w: Weight, p: int, list: seq<(int, int)>, n: nat, r: int, c: int, q: int)
    requires n < |list| && list[n] !in list[..n]
    ensures InList(w, p, list, n + 1)(r, c, q) == InList(w, p, list, n)(r, c, q) + One(w, p, list[n])(r, c, q)
  {
    assert list[..n + 1] == list[..n] + [list[n]];
  }

  function One(w: Weight, p: int, at: (int, int)): Weight {
    (r: int, c: int, q: int) => if q == p && (r, c) == at then w(r, c, q) else 0
  }

  lemma {:induction false} ListSumIsListed(w: Weight, p: int, list: seq<(int, int)>, n: nat, sq: Grid)
    requires Shape(sq) && n <= |list| && IsPiece(p)
    requires forall i :: 0 <= i < |list| ==> On(list[i].0, list[i].1) && At(sq, list[i].0, list[i].1) == p
    requires forall i, j :: 0 <= i < j < |list| ==> list[i] != list[j]
    ensures ListSum(w, p, list, n) == Sum(InList(w, p, list, n), sq)
  {
    hide Sum;
    if n == 0 {
      NothingSums(sq);
      SumEqual(InList(w, p, list, 0), NOTHING, sq);
    } else {
      var a, b := InList(w, p, list, n - 1), One(w, p, list[n - 1]);
      ListSumIsListed(w, p, list, n - 1, sq);
      SumSingle(b, list[n - 1].0, list[n - 1].1, sq);
      SumLinear(a, b, 0, sq);
      forall r, c | On(r, c)
        ensures Same(InList(w, p, list, n), Plus(a, b), r, c, At(sq, r, c))
      {
        InListStep(w, p, list, n - 1, r, c, At(sq, r, c));
      }
      SumEqual(InList(w, p, list, n), Plus(a, b), sq);
    }
  }

  lemma NothingSums(sq: Grid)
    requires Shape(sq)
    ensures Sum(NOTHING, sq) == 0
  {
    RowsZero(sq, 8);
  }

  /** Summing over a complete list of the pieces p is summing over the board, whatever the order. */
  lemma ListSumIsSum(w: Weight, p: int, list: seq<(int, int)>, sq: Grid)
    requires Shape(sq) && IsPiece(p)
    requires forall i, j :: 0 <= i < j < |list| ==> list[i] != list[j]
    requires forall r, c :: (r, c) in list <==> On(r, c) && At(sq, r, c) == p
    ensures ListSum(w, p, list, |list|) == Sum(Only(w, p), sq)
  {
    forall i | 0 <= i < |list|
      ensures On(list[i].0, list[i].1) && At(sq, list[i].0, list[i].1) == p
    {
      assert (list[i].0, list[i].1) in list;
    }
    ListSumIsListed(w, p, list, |list|, sq);
    assert list[..|list|] == list;
    SumEqual(InList(w, p, list, |list|), Only(w, p), sq);
  }

  // ----- Counting pieces -----

  function IsA(p: int): Weight { (r: int, c: int, q: int) => if q == p then 1 else 0 }

  function Count(sq: Grid, p: int): int { Sum(IsA(p), sq) }

  lemma CountPut(sq: Grid, r: int, c: int, q: int, p: int)
    requires Shape(sq) && On(r, c) && IsCell(q)
    ensures Count(Put(sq, r, c, q), p)
         == Count(sq, p) - (if At(sq, r, c) == p then 1 else 0) + (if q == p then 1 else 0)
  {
    SumPut(IsA(p), sq, r, c, q);
  }

  const NOTHING: Weight := (r: int, c: int, q: int) => 0

  lemma {:induction false} RowZero(row: seq<int>, r: int, n: nat)
    requires n <= |row|
    ensures RowSum(NOTHING, row, r, n) == 0
  {
    if n > 0 { RowZero(row, r, n - 1); }
  }

  lemma {:induction false} RowsZero(sq: Grid, n: nat)
    requires n <= |sq|
    ensures RowsSum(NOTHING, sq, n) == 0
  {
    if n > 0 {
      RowsZero(sq, n - 1);
      RowZero(sq[n - 1], n - 1, |sq[n - 1]|);
    }
  }

  lemma CountNonNegative(sq: Grid, p: int)
    requires Shape(sq)
    ensures Count(sq, p) >= 0
  {
    RowsZero(sq, 8);
    SumBounds(NOTHING, sq, IsA(p), sq);
  }

  /** A piece that stands somewhere is counted at least once. */
  lemma CountPresent(sq: Grid, r: int, c: int, p: int)
    requires Shape(sq) && On(r, c) && IsPiece(p) && At(sq, r, c) == p
    ensures Count(sq, p) >= 1
  {
    CountPut(sq, r, c, NOPIECE, p);
    CountNonNegative(Put(sq, r, c, NOPIECE), p);
  }

  /** A piece counted once stands on one square only. */
  lemma CountUnique(sq: Grid, r: int, c: int, x: int, y: int, p: int)
    requires Shape(sq) && On(r, c) && On(x, y) && IsPiece(p)
    requires At(sq, r, c) == p == At(sq, x, y) && Count(sq, p) == 1
    ensures r == x && c == y
  {
    CountPut(sq, r, c, NOPIECE, p);
    if r != x || c != y {
      CountPresent(Put(sq, r, c, NOPIECE), x, y, p);
    }
  }
}
