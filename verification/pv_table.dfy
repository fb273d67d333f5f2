/** What the principal-variation table may hold after a search: entries of positions in the searched tree. */
module PvTables {
  import opened Pieces
  import opened Squares
  import opened Rules
  import opened Zobrist
  import opened Games
  import opened Trees

  const TTABLEENTRIES: int := 100000

  datatype PVNode = PVNode(posKey: bv32, move: Key, score: int)

  /** The table slot of a position key. Keys are non-negative, so C++ % agrees with this. */
  function Slot(key: bv32): (i: int)
    ensures 0 <= i < TTABLEENTRIES
  {
    (key as int) % TTABLEENTRIES
  }

  /** The key is that of a legal move with the given value. */
  ghost predicate Attains(keys: Keys, g: Game, depth: int, k: Key, value: int)
    requires Live(keys, g) && depth > 0
  {
    k != NOMOVE && Legal(g.pos, Decode(k)) && NegamaxChild(keys, g, Decode(k), depth) == value
  }

  /** h follows g by at most d legal moves. */
  ghost predicate InTree(keys: Keys, g: Game, h: Game, d: int)
    requires Live(keys, g)
    decreases if d < 0 then 0 else d
  {
    h == g || (d > 0 && exists m :: Legal(g.pos, m) && InTree(keys, Next(keys, g, m), h, d - 1))
  }

  /** The entry names a position of the tree below g, its exact value at some depth, and a legal move attaining it. */
  ghost predicate ExactAt(keys: Keys, h: Game, e: int, node: PVNode)
    requires KeysOk(keys)
  {
    && Live(keys, h) && Hashable(h.pos) && 0 < e < MAXDEPTH
    && KeyOf(keys, h.pos) == node.posKey
    && Attains(keys, h, e, node.move, node.score) && node.score == Negamax(keys, h, e)
  }

  /** A search of d plies reaches a position after d - e moves with e plies left. */
  ghost predicate FromTree(keys: Keys, g: Game, d: int, node: PVNode)
    requires Live(keys, g)
  {
    exists h, e :: e <= d && InTree(keys, g, h, d - e) && ExactAt(keys, h, e, node)
  }

  /** One slot: untouched, or an exact entry from the tree, and the root position's entry gives way only to itself. */
  ghost predicate SlotGrown(keys: Keys, g: Game, d: int, rootKey: bv32, i: int, before: PVNode, after: PVNode)
    requires Live(keys, g)
  {
    || after == before
    || (Slot(after.posKey) == i && FromTree(keys, g, d, after) && (before.posKey == rootKey ==> after.posKey == rootKey))
  }

  ghost predicate Grown(keys: Keys, g: Game, d: int, rootKey: bv32, before: seq<PVNode>, after: seq<PVNode>)
    requires Live(keys, g)
  {
    && |after| == |before|
    && forall i :: 0 <= i < |before| ==> SlotGrown(keys, g, d, rootKey, i, before[i], after[i])
  }

  lemma NothingGrown(keys: Keys, g: Game, d: int, rootKey: bv32, table: seq<PVNode>)
    requires Live(keys, g)
    ensures Grown(keys, g, d, rootKey, table, table)
  {
    hide FromTree;
  }

  lemma GrownTwice(keys: Keys, g: Game, d: int, rootKey: bv32, before: seq<PVNode>, mid: seq<PVNode>, after: seq<PVNode>)
    requires Live(keys, g) && Grown(keys, g, d, rootKey, before, mid) && Grown(keys, g, d, rootKey, mid, after)
    ensures Grown(keys, g, d, rootKey, before, after)
  {
    hide FromTree, Slot, Live;
    forall i | 0 <= i < |before|
      ensures SlotGrown(keys, g, d, rootKey, i, before[i], after[i])
    {
      assert SlotGrown(keys, g, d, rootKey, i, before[i], mid[i]) && SlotGrown(keys, g, d, rootKey, i, mid[i], after[i]);
    }
  }

  lemma NextIsLive(keys: Keys, g: Game, m: Move)
    requires Live(keys, g) && Legal(g.pos, m)
    ensures Live(keys, Next(keys, g, m))
  {
    hide WellFormed, KeysOk, Legal, Next;
  }

  lemma FirstMove(keys: Keys, g: Game, h: Game, d: int) returns (m: Move)
    requires Live(keys, g) && InTree(keys, g, h, d) && h != g
    ensures d > 0 && Legal(g.pos, m) && Live(keys, Next(keys, g, m)) && InTree(keys, Next(keys, g, m), h, d - 1)
  {
    hide WellFormed, KeysOk, Legal, Next;
    m :| Legal(g.pos, m) && InTree(keys, Next(keys, g, m), h, d - 1);
    NextIsLive(keys, g, m);
  }

  lemma UnderMove(keys: Keys, g: Game, m: Move, h: Game, d: int)
    requires Live(keys, g) && d > 0 && Legal(g.pos, m) && Live(keys, Next(keys, g, m))
    requires InTree(keys, Next(keys, g, m), h, d - 1)
    ensures InTree(keys, g, h, d)
  {
    hide WellFormed, KeysOk, Legal, Next;
  }

  lemma Here(keys: Keys, g: Game, d: int)
    requires Live(keys, g)
    ensures InTree(keys, g, g, d)
  {
    hide WellFormed, KeysOk, Legal, Next;
  }

  lemma {:induction false} InDeeperTree(keys: Keys, g: Game, h: Game, d: int, d': int)
    requires Live(keys, g) && InTree(keys, g, h, d) && d <= d'
    ensures InTree(keys, g, h, d')
    decreases if d < 0 then 0 else d
  {
    hide WellFormed, KeysOk, Legal, Next, InTree;
    if h == g {
      Here(keys, g, d');
    } else {
      var m := FirstMove(keys, g, h, d);
      InDeeperTree(keys, Next(keys, g, m), h, d - 1, d' - 1);
      UnderMove(keys, g, m, h, d');
    }
  }

  lemma TreeDeeper(keys: Keys, g: Game, d: int, d': int, node: PVNode)
    requires Live(keys, g) && FromTree(keys, g, d, node) && d <= d'
    ensures FromTree(keys, g, d', node)
  {
    hide WellFormed, KeysOk, ExactAt, InTree;
    var h, e :| e <= d && InTree(keys, g, h, d - e) && ExactAt(keys, h, e, node);
    InDeeperTree(keys, g, h, d - e, d' - e);
  }

  /** Whatever a shallower search stores, a deeper one may store as well. */
  lemma GrownDeeper(keys: Keys, g: Game, d: int, d': int, rootKey: bv32, before: seq<PVNode>, after: seq<PVNode>)
    requires Live(keys, g) && Grown(keys, g, d, rootKey, before, after) && d <= d'
    ensures Grown(keys, g, d', rootKey, before, after)
  {
    hide WellFormed, KeysOk, ExactAt, Slot, InTree;
    forall i | 0 <= i < |before|
      ensures SlotGrown(keys, g, d', rootKey, i, before[i], after[i])
    {
      assert SlotGrown(keys, g, d, rootKey, i, before[i], after[i]);
      if FromTree(keys, g, d, after[i]) {
        TreeDeeper(keys, g, d, d', after[i]);
      }
    }
  }

  /** What the search of a reply stores is in the tree of the position before. */
  lemma GrownFromReply(keys: Keys, g: Game, m: Move, d: int, rootKey: bv32, before: seq<PVNode>, after: seq<PVNode>)
    requires Live(keys, g) && Legal(g.pos, m) && d > 0 && Live(keys, Next(keys, g, m))
    requires Grown(keys, Next(keys, g, m), d - 1, rootKey, before, after)
    ensures Grown(keys, g, d, rootKey, before, after)
  {
    hide WellFormed, KeysOk, ExactAt, Slot, Legal, Next, InTree;
    forall i | 0 <= i < |before|
      ensures SlotGrown(keys, g, d, rootKey, i, before[i], after[i])
    {
      assert SlotGrown(keys, Next(keys, g, m), d - 1, rootKey, i, before[i], after[i]);
      if FromTree(keys, Next(keys, g, m), d - 1, after[i]) {
        var h, e :| e <= d - 1 && InTree(keys, Next(keys, g, m), h, d - 1 - e) && ExactAt(keys, h, e, after[i]);
        UnderMove(keys, g, m, h, d - e);
      }
    }
  }

  /** Writing the exact result of a position into its own slot. */
  lemma GrownByStore(keys: Keys, g: Game, d: int, rootKey: bv32, before: seq<PVNode>, after: seq<PVNode>, node: PVNode)
    requires Live(keys, g) && 0 < d < MAXDEPTH && ExactAt(keys, g, d, node)
    requires |before| == |after| == TTABLEENTRIES
    requires var i := Slot(node.posKey);
             after[i] == if before[i].posKey == rootKey && rootKey != node.posKey then before[i] else node
    requires forall i :: 0 <= i < |before| && i != Slot(node.posKey) ==> after[i] == before[i]
    ensures Grown(keys, g, d, rootKey, before, after)
  {
    hide WellFormed, KeysOk, ExactAt, Slot, InTree;
    Here(keys, g, d - d);
    assert FromTree(keys, g, d, node);
  }

  /** The entry of the searched position at the end: kept for the root, and exact once anything was stored. */
  lemma SlotAfterwards(keys: Keys, g: Game, d: int, rootKey: bv32, before: seq<PVNode>, after: seq<PVNode>, i: int)
    requires Live(keys, g) && Grown(keys, g, d, rootKey, before, after) && 0 <= i < |before|
    ensures |after| == |before|
    ensures before[i].posKey == rootKey ==> after[i].posKey == rootKey
    ensures FromTree(keys, g, d, before[i]) ==> FromTree(keys, g, d, after[i])
    ensures after[i] != before[i] ==> FromTree(keys, g, d, after[i])
  {
    hide FromTree, Slot, Live;
    assert SlotGrown(keys, g, d, rootKey, i, before[i], after[i]);
  }

  /** No other position within d moves has the key of this one. */
  ghost predicate NoTwin(keys: Keys, g: Game, d: int)
    requires Live(keys, g) && Hashable(g.pos)
  {
    forall h :: InTree(keys, g, h, d) && Hashable(h.pos) && KeyOf(keys, h.pos) == KeyOf(keys, g.pos) ==> h.pos == g.pos
  }

  /** No position within d moves has the key. */
  ghost predicate Unheard(keys: Keys, g: Game, d: int, key: bv32)
    requires Live(keys, g)
  {
    forall h :: InTree(keys, g, h, d) && Hashable(h.pos) ==> KeyOf(keys, h.pos) != key
  }

  /** The game an entry of the tree belongs to, at most d - 1 moves away. */
  lemma SourceOf(keys: Keys, g: Game, d: int, node: PVNode) returns (h: Game)
    requires Live(keys, g) && FromTree(keys, g, d, node)
    ensures InTree(keys, g, h, d - 1) && Hashable(h.pos) && KeyOf(keys, h.pos) == node.posKey && Live(keys, h)
    ensures node.move != NOMOVE && Legal(h.pos, Decode(node.move))
  {
    hide WellFormed, KeysOk, KeyOf, InTree, Hashable, Legal, NegamaxChild, Negamax;
    var e;
    h, e :| e <= d && InTree(keys, g, h, d - e) && ExactAt(keys, h, e, node);
    InDeeperTree(keys, g, h, d - e, d - 1);
  }

  /** An entry from the tree under the searched position's key holds a legal move of that position. */
  lemma FromTreeIsLegal(keys: Keys, g: Game, d: int, node: PVNode)
    requires Live(keys, g) && Hashable(g.pos) && NoTwin(keys, g, d - 1)
    requires FromTree(keys, g, d, node) && node.posKey == KeyOf(keys, g.pos)
    ensures node.move != NOMOVE && Legal(g.pos, Decode(node.move))
  {
    hide WellFormed, KeysOk, KeyOf, InTree, Hashable, Legal, FromTree;
    var h := SourceOf(keys, g, d, node);
  }

  /** Main result: unless another position within reach has the protected key, the slot is open after a search exactly if
      the searched position is the protected one or its slot did not hold the protected key before. */
  lemma SlotOpenIff(keys: Keys, g: Game, d: int, rootKey: bv32, before: seq<PVNode>, after: seq<PVNode>)
    requires Live(keys, g) && Hashable(g.pos) && |before| == TTABLEENTRIES && Grown(keys, g, d, rootKey, before, after)
    requires rootKey == KeyOf(keys, g.pos) || Unheard(keys, g, d - 1, rootKey)
    ensures OpenSlot(rootKey, after, KeyOf(keys, g.pos)) <==> OpenSlot(rootKey, before, KeyOf(keys, g.pos))
  {
    hide WellFormed, KeysOk, KeyOf, InTree, Hashable, Legal, FromTree, Slot, Grown;
    var i := Slot(KeyOf(keys, g.pos));
    SlotAfterwards(keys, g, d, rootKey, before, after, i);
    if FromTree(keys, g, d, after[i]) {
      var h := SourceOf(keys, g, d, after[i]);
    }
  }

  /** In a guarded slot nothing is ever found. */
  lemma GuardedFindsNothing(keys: Keys, g: Game, d: int, rootKey: bv32, before: seq<PVNode>, after: seq<PVNode>)
    requires Live(keys, g) && Hashable(g.pos) && |before| == TTABLEENTRIES && Grown(keys, g, d, rootKey, before, after)
    requires !OpenSlot(rootKey, before, KeyOf(keys, g.pos))
    ensures Lookup(after, KeyOf(keys, g.pos)) == NOMOVE
  {
    hide WellFormed, KeysOk, KeyOf, Hashable, FromTree, Slot, Grown;
    SlotAfterwards(keys, g, d, rootKey, before, after, Slot(KeyOf(keys, g.pos)));
  }

  /** Storing one entry, as storePvMove does. */
  function StoreIn(rootKey: bv32, table: seq<PVNode>, node: PVNode): (table': seq<PVNode>)
    requires |table| == TTABLEENTRIES
  {
    if rootKey != node.posKey && EntryOf(table, node.posKey).posKey == rootKey then table
    else table[Slot(node.posKey) := node]
  }

  /** An entry survives the store of another position in its slot exactly if it is the protected one. */
  lemma EvictedIff(rootKey: bv32, table: seq<PVNode>, key: bv32, node: PVNode)
    requires |table| == TTABLEENTRIES && EntryOf(table, key).posKey == key
    requires node.posKey != key && Slot(node.posKey) == Slot(key)
    ensures EntryOf(StoreIn(rootKey, table, node), key).posKey == key <==> rootKey == key
    ensures rootKey != key ==> Lookup(StoreIn(rootKey, table, node), key) == NOMOVE
  {
    hide Slot;
  }

  /** A search that goes to quiescence at once stores nothing. */
  lemma NothingStored(keys: Keys, g: Game, rootKey: bv32, before: seq<PVNode>, after: seq<PVNode>)
    requires Live(keys, g) && Grown(keys, g, 0, rootKey, before, after)
    ensures after == before
  {
    hide WellFormed, KeysOk, InTree, Slot;
    forall i | 0 <= i < |before|
      ensures after[i] == before[i]
    {
      assert SlotGrown(keys, g, 0, rootKey, i, before[i], after[i]);
    }
  }

  lemma ExactHere(keys: Keys, g: Game, e: int, d: int, node: PVNode)
    requires Live(keys, g) && ExactAt(keys, g, e, node) && e <= d
    ensures FromTree(keys, g, d, node) && Hashable(g.pos) && node.posKey == KeyOf(keys, g.pos)
  {
    hide WellFormed, KeysOk, InTree, Hashable, KeyOf, Attains, Negamax;
    InTreeHere(keys, g, e, d, node);
  }

  lemma InTreeHere(keys: Keys, g: Game, e: int, d: int, node: PVNode)
    requires Live(keys, g) && ExactAt(keys, g, e, node) && e <= d
    ensures FromTree(keys, g, d, node)
  {
    hide WellFormed, KeysOk, InTree, ExactAt;
    Here(keys, g, d - e);
    assert e <= d && InTree(keys, g, g, d - e) && ExactAt(keys, g, e, node);
  }

  // ----- What iterative deepening leaves -----

  function EntryOf(table: seq<PVNode>, key: bv32): PVNode
    requires |table| == TTABLEENTRIES
  {
    table[Slot(key)]
  }

  /** The move found under a key, as getPvMove looks it up. */
  function Lookup(table: seq<PVNode>, key: bv32): Key
    requires |table| == TTABLEENTRIES
  {
    if EntryOf(table, key).posKey == key then EntryOf(table, key).move else NOMOVE
  }

  /** The slot of the key does not hold another position under the protected key. */
  predicate OpenSlot(rootKey: bv32, table: seq<PVNode>, key: bv32)
    requires |table| == TTABLEENTRIES
  {
    rootKey == key || EntryOf(table, key).posKey != rootKey
  }

  /** How far a run of deepening has looked when it stands at a depth: the last depth it has started to search. */
  function Reach(searchDepth: int): int { if searchDepth < MAXDEPTH then searchDepth else MAXDEPTH - 1 }

  /** After completed iterations on g and searches of up to d plies: an open slot holds an exact entry from the tree, under
      g's own key if that is the protected one; and after the deepest iteration the move attains the value exactly when
      the slot is open. */
  ghost predicate Harvest(keys: Keys, g: Game, rootKey: bv32, table: seq<PVNode>, completed: int, d: int)
    requires Live(keys, g) && |table| == TTABLEENTRIES
  {
    Hashable(g.pos) &&
    var key := KeyOf(keys, g.pos);
    && (OpenSlot(rootKey, table, key) ==> FromTree(keys, g, d, EntryOf(table, key)))
    && (rootKey == key ==> EntryOf(table, key).posKey == key)
    && (completed >= MAXDEPTH - 1 ==>
          (OpenSlot(rootKey, table, key)
           <==> Attains(keys, g, MAXDEPTH - 1, Lookup(table, key), Negamax(keys, g, MAXDEPTH - 1))))
  }

  /** A completed iteration yields a harvest, whatever the table held before. */
  lemma HarvestOfIteration(keys: Keys, g: Game, depth: int, rootKey: bv32, table: seq<PVNode>)
    requires Live(keys, g) && Hashable(g.pos) && 0 < depth < MAXDEPTH && |table| == TTABLEENTRIES
    requires OpenSlot(rootKey, table, KeyOf(keys, g.pos)) ==> ExactAt(keys, g, depth, EntryOf(table, KeyOf(keys, g.pos)))
    ensures Harvest(keys, g, rootKey, table, depth, depth)
  {
    hide WellFormed, KeysOk, KeyOf, Slot, Legal, NegamaxChild, Negamax, FromTree, InTree;
    var key := KeyOf(keys, g.pos);
    if OpenSlot(rootKey, table, key) {
      ExactHere(keys, g, depth, depth, EntryOf(table, key));
    }
  }

  lemma HarvestLater(keys: Keys, g: Game, rootKey: bv32, table: seq<PVNode>, completed: int, later: int, d: int)
    requires Live(keys, g) && |table| == TTABLEENTRIES && MAXDEPTH - 1 <= completed && MAXDEPTH - 1 <= later
    ensures Harvest(keys, g, rootKey, table, completed, d) ==> Harvest(keys, g, rootKey, table, later, d)
  {
    hide WellFormed, KeysOk, KeyOf, Slot, Legal, NegamaxChild, Negamax, FromTree, Attains;
  }

  lemma HarvestDeeper(keys: Keys, g: Game, rootKey: bv32, table: seq<PVNode>, completed: int, d: int, d': int)
    requires Live(keys, g) && |table| == TTABLEENTRIES && d <= d'
    ensures Harvest(keys, g, rootKey, table, completed, d) ==> Harvest(keys, g, rootKey, table, completed, d')
  {
    hide WellFormed, KeysOk, KeyOf, Hashable, Slot, Legal, NegamaxChild, Negamax, FromTree, Attains;
    if Harvest(keys, g, rootKey, table, completed, d) && FromTree(keys, g, d, EntryOf(table, KeyOf(keys, g.pos))) {
      TreeDeeper(keys, g, d, d', EntryOf(table, KeyOf(keys, g.pos)));
    }
  }

  /** A further iteration keeps the harvest, also when it is interrupted. */
  lemma HarvestKept(keys: Keys, g: Game, depth: int, rootKey: bv32, before: seq<PVNode>, after: seq<PVNode>, completed: int, d: int)
    requires Live(keys, g) && |before| == TTABLEENTRIES && Harvest(keys, g, rootKey, before, completed, d)
    requires Grown(keys, g, depth, rootKey, before, after) && 0 <= depth <= d
    requires completed >= MAXDEPTH - 1 ==> depth == 0
    ensures Harvest(keys, g, rootKey, after, completed, d)
  {
    hide WellFormed, KeysOk, KeyOf, Slot, Legal, NegamaxChild, Negamax, FromTree, Grown, Attains;
    var i := Slot(KeyOf(keys, g.pos));
    GrownDeeper(keys, g, depth, d, rootKey, before, after);
    SlotAfterwards(keys, g, d, rootKey, before, after, i);
    if depth == 0 {
      NothingStored(keys, g, rootKey, before, after);
    }
  }

  /** A search that starts without an entry of the searched position finds no move or, if no other position within d - 1
      moves has the same key, a legal one; whether or not an iteration was completed. */
  lemma FoundIsLegal(keys: Keys, g: Game, d: int, rootKey: bv32, before: seq<PVNode>, after: seq<PVNode>)
    requires Live(keys, g) && Hashable(g.pos) && |before| == TTABLEENTRIES && Grown(keys, g, d, rootKey, before, after)
    requires EntryOf(before, KeyOf(keys, g.pos)).posKey != KeyOf(keys, g.pos) && NoTwin(keys, g, d - 1)
    ensures var move := Lookup(after, KeyOf(keys, g.pos)); move == NOMOVE || Legal(g.pos, Decode(move))
  {
    hide WellFormed, KeysOk, KeyOf, Hashable, Slot, Legal, FromTree, NoTwin, Grown;
    var key := KeyOf(keys, g.pos);
    SlotAfterwards(keys, g, d, rootKey, before, after, Slot(key));
    if EntryOf(after, key).posKey == key {
      FromTreeIsLegal(keys, g, d, EntryOf(after, key));
    }
  }

  /** After a completed iteration the same holds whatever the table held, and at the protected root a move is found. */
  lemma HarvestIsSafe(keys: Keys, g: Game, rootKey: bv32, table: seq<PVNode>, completed: int, d: int)
    requires Live(keys, g) && |table| == TTABLEENTRIES && Harvest(keys, g, rootKey, table, completed, d)
    requires NoTwin(keys, g, d - 1)
    ensures var move := Lookup(table, KeyOf(keys, g.pos));
            && (move == NOMOVE || Legal(g.pos, Decode(move)))
            && (rootKey == KeyOf(keys, g.pos) ==> move != NOMOVE)
  {
    hide WellFormed, KeysOk, KeyOf, Slot, Legal, NegamaxChild, Negamax, FromTree, Attains, NoTwin;
    var key := KeyOf(keys, g.pos);
    if EntryOf(table, key).posKey == key && OpenSlot(rootKey, table, key) {
      FromTreeIsLegal(keys, g, d, EntryOf(table, key));
    }
  }
}
