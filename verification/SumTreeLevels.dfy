/** The shape of the sum tree, level by level, and why each edit keeps it.

    A level is the map from node key to child list.  `Indexes(upper, sums)`
    says that the levels `upper`, lowest first, form a correct index over the map `sums`,
    which holds what every key one level further down is worth.  The stored
    leaves play the role of `sums` at the bottom. */
module SumTreeLevels {
  import opened ByteKeys
  import opened Folding

  datatype Child = Child(index: Bytes, acc: int)
  type Node = seq<Child>
  type Level = map<Bytes, Node>

  ghost function Accumulated(cs: Node): int {
    if cs == [] then 0 else Accumulated(cs[..|cs| - 1]) + cs[|cs| - 1].acc
  }

  ghost predicate Sorted(cs: Node) {
    forall i, j | 0 <= i < j < |cs| :: Rank(cs[i].index) < Rank(cs[j].index)
  }

  /** `x` is the greatest of `keys` that does not exceed `s`. */
  ghost predicate IsFloor(keys: set<Bytes>, x: Bytes, s: Bytes) {
    && x in keys && Rank(x) <= Rank(s)
    && forall y {:trigger y in keys} | y in keys && Rank(y) <= Rank(s) :: Rank(y) <= Rank(x)
  }

  ghost predicate Holds(cs: Node, s: Bytes) {
    exists i | 0 <= i < |cs| :: cs[i].index == s
  }

  ghost predicate NodeOK(keys: set<Bytes>, x: Bytes, cs: Node, sums: map<Bytes, int>) {
    && cs != [] && cs[0].index == x && Sorted(cs)
    && forall i | 0 <= i < |cs| ::
         && cs[i].index in sums && sums[cs[i].index] == cs[i].acc
         && IsFloor(keys, x, cs[i].index)
  }

  /** The node keys cut `sums` into consecutive runs, every run starts at its
      node's own key, and every entry carries the value it stands for. */
  ghost predicate LevelOK(nodes: Level, sums: map<Bytes, int>) {
    && [] in nodes
    && (forall x | x in nodes :: NodeOK(nodes.Keys, x, nodes[x], sums))
    && (forall s, x {:trigger IsFloor(nodes.Keys, x, s)} | s in sums && IsFloor(nodes.Keys, x, s) :: Holds(nodes[x], s))
  }

  ghost function Sums(nodes: Level): map<Bytes, int> {
    map x | x in nodes :: Accumulated(nodes[x])
  }

  ghost predicate IndexPair(x: (Level, map<Bytes, int>)) { LevelOK(x.0, x.1) }

  /** `LevelOK`, kept folded. */
  ghost predicate IsIndex(nodes: Level, sums: map<Bytes, int>) {
    Folded(IndexPair)((nodes, sums))
  }

  lemma UnfoldIndex(nodes: Level, sums: map<Bytes, int>)
    ensures IsIndex(nodes, sums) <==> LevelOK(nodes, sums)
  {
    Unfold(IndexPair, (nodes, sums));
  }

  ghost predicate Indexes(upper: seq<Level>, sums: map<Bytes, int>) {
    if upper == [] then sums.Keys == {[]}
    else IsIndex(upper[0], sums) && Indexes(upper[1..], Sums(upper[0]))
  }

  // ------------------------------------------------------------------ floors

  lemma {:induction false} FloorExists(keys: set<Bytes>, s: Bytes) returns (x: Bytes)
    requires [] in keys
    ensures IsFloor(keys, x, s)
    decreases keys
  {
    if y :| y in keys && y != [] {
      x := FloorExists(keys - {y}, s);
      assert forall z | z in keys && z != y :: z in keys - {y};
      if Rank(x) < Rank(y) <= Rank(s) {
        x := y;
      }
    } else {
      x := [];
    }
  }

  lemma FloorUnique(keys: set<Bytes>, x: Bytes, y: Bytes, s: Bytes)
    requires IsFloor(keys, x, s) && IsFloor(keys, y, s)
    ensures x == y
  {
    RankInjective(x, y);
  }

  lemma FloorFromLeft(keys: set<Bytes>, p: Bytes, k: Bytes)
    requires p in keys && k !in keys && Rank(p) <= Rank(k)
    requires forall x | x in keys && Rank(x) < Rank(k) :: Rank(x) <= Rank(p)
    ensures IsFloor(keys, p, k)
  {
    forall y | y in keys && Rank(y) <= Rank(k)
      ensures Rank(y) <= Rank(p)
    {
      if Rank(y) == Rank(k) {
        RankInjective(y, k);
      }
    }
  }

  // -------------------------------------------------------------- child lists

  function Inserted(cs: Node, idx: nat, c: Child): Node
    requires idx <= |cs|
  {
    cs[..idx] + [c] + cs[idx..]
  }

  /** `idx` is where `key` belongs in `cs`. */
  ghost predicate Position(cs: Node, key: Bytes, idx: nat) {
    && idx <= |cs|
    && (forall i | 0 <= i < idx :: Rank(cs[i].index) < Rank(key))
    && (forall i | idx <= i < |cs| :: Rank(key) < Rank(cs[i].index))
  }

  lemma InsertedOK(keys: set<Bytes>, x: Bytes, cs: Node, sums: map<Bytes, int>, idx: nat, c: Child)
    requires NodeOK(keys, x, cs, sums) && Position(cs, c.index, idx)
    requires c.index !in sums && IsFloor(keys, x, c.index)
    ensures NodeOK(keys, x, Inserted(cs, idx, c), sums[c.index := c.acc])
  {
    assert Rank(cs[0].index) <= Rank(c.index);
  }

  lemma InsertedHolds(cs: Node, idx: nat, c: Child, s: Bytes)
    requires idx <= |cs| && (s == c.index || Holds(cs, s))
    ensures Holds(Inserted(cs, idx, c), s)
  {
    var r := Inserted(cs, idx, c);
    assert r[idx] == c;
    if s != c.index {
      var i :| 0 <= i < |cs| && cs[i].index == s;
      assert i < idx ==> r[i] == cs[i];
      assert i >= idx ==> r[i + 1] == cs[i];
    }
  }

  // -------------------------------------------------------------- level edits

  lemma SumsUpdate(nodes: Level, x: Bytes, cs: Node)
    ensures Sums(nodes[x := cs]) == Sums(nodes)[x := Accumulated(cs)]
  {
  }

  /** Replacing one entry's value re-indexes the map in which that key's value changed. */
  lemma LevelSetAcc(nodes: Level, sums: map<Bytes, int>, x: Bytes, idx: nat, v: int)
    requires LevelOK(nodes, sums) && x in nodes && idx < |nodes[x]|
    ensures LevelOK(nodes[x := nodes[x][idx := Child(nodes[x][idx].index, v)]], sums[nodes[x][idx].index := v])
  {
    var c := nodes[x][idx].index;
    var cs := nodes[x][idx := Child(c, v)];
    var nodes', sums' := nodes[x := cs], sums[c := v];
    assert nodes'.Keys == nodes.Keys;
    SetAccNodeOK(nodes.Keys, x, nodes[x], sums, idx, v);
    forall y | y in nodes && y != x
      ensures NodeOK(nodes.Keys, y, nodes[y], sums')
    {
      OtherNodeOK(nodes.Keys, x, y, nodes[y], sums, c, v);
    }
    forall s, y | s in sums' && IsFloor(nodes.Keys, y, s)
      ensures Holds(nodes'[y], s)
    {
      SetAccHolds(nodes[x], idx, v, s);
    }
  }

  lemma SetAccHolds(cs: Node, idx: nat, v: int, s: Bytes)
    requires idx < |cs|
    ensures Holds(cs[idx := Child(cs[idx].index, v)], s) <==> Holds(cs, s)
  {
    var cs' := cs[idx := Child(cs[idx].index, v)];
    assert forall i | 0 <= i < |cs| :: cs'[i].index == cs[i].index;
    if i :| 0 <= i < |cs| && cs[i].index == s {
      assert cs'[i].index == s;
    }
  }

  lemma OtherNodeOK(keys: set<Bytes>, x: Bytes, y: Bytes, cs: Node, sums: map<Bytes, int>, c: Bytes, v: int)
    requires NodeOK(keys, y, cs, sums) && IsFloor(keys, x, c) && x != y
    ensures NodeOK(keys, y, cs, sums[c := v])
  {
    if i :| 0 <= i < |cs| && cs[i].index == c {
      FloorUnique(keys, x, y, c);
    }
  }

  lemma SetAccNodeOK(keys: set<Bytes>, x: Bytes, cs: Node, sums: map<Bytes, int>, idx: nat, v: int)
    requires NodeOK(keys, x, cs, sums) && idx < |cs|
    ensures NodeOK(keys, x, cs[idx := Child(cs[idx].index, v)], sums[cs[idx].index := v])
  {
  }

  lemma OthersOK(nodes: Level, sums: map<Bytes, int>, x: Bytes, y: Bytes, c: Child)
    requires LevelOK(nodes, sums) && c.index !in sums && y in nodes && y != x
    ensures NodeOK(nodes.Keys, y, nodes[y], sums[c.index := c.acc])
  {
  }

  /** Inserting a new entry in the node that owns its range. */
  lemma LevelInsert(nodes: Level, sums: map<Bytes, int>, x: Bytes, idx: nat, c: Child)
    requires LevelOK(nodes, sums) && IsFloor(nodes.Keys, x, c.index)
    requires c.index !in sums && Position(nodes[x], c.index, idx)
    ensures LevelOK(nodes[x := Inserted(nodes[x], idx, c)], sums[c.index := c.acc])
  {
    var cs := Inserted(nodes[x], idx, c);
    var nodes' := nodes[x := cs];
    var sums' := sums[c.index := c.acc];
    assert nodes'.Keys == nodes.Keys;
    InsertedOK(nodes.Keys, x, nodes[x], sums, idx, c);
    forall y | y in nodes && y != x
      ensures NodeOK(nodes'.Keys, y, nodes'[y], sums')
    {
      OthersOK(nodes, sums, x, y, c);
    }
    forall s, y | s in sums' && IsFloor(nodes'.Keys, y, s)
      ensures Holds(nodes'[y], s)
    {
      if s == c.index {
        FloorUnique(nodes.Keys, x, y, s);
      }
      if y == x {
        InsertedHolds(nodes[x], idx, c, s);
      }
    }
  }

  lemma FloorWithNewKey(keys: set<Bytes>, rk: Bytes, x: Bytes, s: Bytes)
    requires IsFloor(keys, x, s)
    ensures Rank(s) < Rank(rk) || Rank(rk) < Rank(x) ==> IsFloor(keys + {rk}, x, s)
    ensures Rank(x) < Rank(rk) <= Rank(s) ==> IsFloor(keys + {rk}, rk, s)
  {
  }

  lemma LeftHalfOK(keys: set<Bytes>, x: Bytes, cs: Node, sums: map<Bytes, int>, k: nat)
    requires NodeOK(keys, x, cs, sums) && 0 < k < |cs|
    ensures NodeOK(keys + {cs[k].index}, x, cs[..k], sums)
  {
    forall i | 0 <= i < k
      ensures IsFloor(keys + {cs[k].index}, x, cs[i].index)
    {
      FloorWithNewKey(keys, cs[k].index, x, cs[i].index);
    }
  }

  lemma RightHalfOK(keys: set<Bytes>, x: Bytes, cs: Node, sums: map<Bytes, int>, k: nat)
    requires NodeOK(keys, x, cs, sums) && 0 < k < |cs|
    ensures NodeOK(keys + {cs[k].index}, cs[k].index, cs[k..], sums)
  {
    assert Rank(x) < Rank(cs[k].index) by { assert cs[0].index == x; }
    forall i | k <= i < |cs|
      ensures IsFloor(keys + {cs[k].index}, cs[k].index, cs[i].index)
    {
      FloorWithNewKey(keys, cs[k].index, x, cs[i].index);
    }
  }

  /** Cutting one child list in two at `k` and giving the right part its own node. */
  lemma LevelSplit(nodes: Level, sums: map<Bytes, int>, x: Bytes, k: nat)
    requires LevelOK(nodes, sums) && x in nodes && 0 < k < |nodes[x]|
    ensures nodes[x][k].index !in nodes
    ensures LevelOK(nodes[x := nodes[x][..k]][nodes[x][k].index := nodes[x][k..]], sums)
  {
    var cs := nodes[x];
    var rk := cs[k].index;
    var nodes' := nodes[x := cs[..k]][rk := cs[k..]];
    assert Rank(x) < Rank(rk) by { assert cs[0].index == x; }
    assert IsFloor(nodes.Keys, x, rk);
    assert rk !in nodes;
    assert nodes'.Keys == nodes.Keys + {rk};
    LeftHalfOK(nodes.Keys, x, cs, sums, k);
    RightHalfOK(nodes.Keys, x, cs, sums, k);
    forall y | y in nodes && y != x
      ensures NodeOK(nodes'.Keys, y, nodes[y], sums)
    {
      SplitKeepsNode(nodes, sums, x, rk, y);
    }
    forall s, y | s in sums && IsFloor(nodes'.Keys, y, s)
      ensures Holds(nodes'[y], s)
    {
      SplitHolds(nodes, sums, x, k, y, s);
    }
  }

  lemma SplitKeepsNode(nodes: Level, sums: map<Bytes, int>, x: Bytes, rk: Bytes, y: Bytes)
    requires LevelOK(nodes, sums)
    requires x in nodes && y in nodes && y != x && IsFloor(nodes.Keys, x, rk) && rk !in nodes
    ensures NodeOK(nodes.Keys + {rk}, y, nodes[y], sums)
  {
    forall i | 0 <= i < |nodes[y]|
      ensures IsFloor(nodes.Keys + {rk}, y, nodes[y][i].index)
    {
      SplitKeepsFloor(nodes, x, rk, y, nodes[y][i].index);
    }
  }

  lemma SplitKeepsFloor(nodes: Level, x: Bytes, rk: Bytes, y: Bytes, s: Bytes)
    requires x in nodes && y in nodes && y != x && IsFloor(nodes.Keys, x, rk) && rk !in nodes
    requires IsFloor(nodes.Keys, y, s)
    ensures IsFloor(nodes.Keys + {rk}, y, s)
  {
    FloorWithNewKey(nodes.Keys, rk, y, s);
    if Rank(y) == Rank(rk) {
      RankInjective(y, rk);
    }
    if Rank(y) < Rank(rk) <= Rank(s) {
      assert Rank(y) <= Rank(x) <= Rank(y);
      RankInjective(x, y);
    }
  }

  lemma SplitHolds(nodes: Level, sums: map<Bytes, int>, x: Bytes, k: nat, y: Bytes, s: Bytes)
    requires LevelOK(nodes, sums) && x in nodes && 0 < k < |nodes[x]| && s in sums
    requires nodes[x][k].index !in nodes
    requires IsFloor(nodes.Keys + {nodes[x][k].index}, y, s)
    ensures Holds(nodes[x := nodes[x][..k]][nodes[x][k].index := nodes[x][k..]][y], s)
  {
    var cs := nodes[x];
    var rk := cs[k].index;
    var z := FloorExists(nodes.Keys, s);
    var i :| 0 <= i < |nodes[z]| && nodes[z][i].index == s;
    if z == x {
      FloorWithNewKey(nodes.Keys, rk, x, s);
      FloorUnique(nodes.Keys + {rk}, y, if i < k then x else rk, s);
      if i < k {
        assert cs[..k][i].index == s;
      } else {
        assert cs[k..][i - k].index == s;
      }
    } else {
      SplitKeepsFloor(nodes, x, rk, z, s);
      FloorUnique(nodes.Keys + {rk}, y, z, s);
    }
  }

  // ------------------------------------------------------------- the new root

  /** The node made above a root that has just split. */
  lemma NewRootOK(sums: map<Bytes, int>, rk: Bytes)
    requires sums.Keys == {[], rk} && rk != []
    ensures LevelOK(map[[] := [Child([], sums[[]]), Child(rk, sums[rk])]], sums)
  {
    var cs := [Child([], sums[[]]), Child(rk, sums[rk])];
    var nodes: Level := map[[] := cs];
    assert Rank([]) < Rank(rk);
    assert NodeOK(nodes.Keys, [], cs, sums);
    forall s, x | s in sums && IsFloor(nodes.Keys, x, s)
      ensures Holds(nodes[x], s)
    {
      assert cs[if s == [] then 0 else 1].index == s;
    }
  }

  lemma FirstNodeOK(v: int)
    ensures LevelOK(map[[] := [Child([], v)]], map[[] := v])
  {
    var cs := [Child([], v)];
    var nodes: Level := map[[] := cs];
    assert NodeOK(nodes.Keys, [], cs, map[[] := v]);
    assert forall s, x | s in map[[] := v] && IsFloor(nodes.Keys, x, s) :: cs[0].index == s;
  }
}
