/** What `push` and `updateAccumulation` do to the levels of the tree, and why
    the result is again a correct index.

    Both work on the levels from their own upwards, lowest first.  `None`
    stands for the panic raised when a node is told of a child it does not have. */
module SumTreeEdits {
  import opened ByteKeys
  import opened Folding
  import opened Options
  import opened SumTreeLevels

  datatype Slot = Slot(idx: nat, found: bool)

  /** Where a scan of `cs` from `i` finds `key`, or finds room for it. */
  function SlotFrom(cs: Node, key: Bytes, i: nat): (s: Slot)
    requires i <= |cs|
    ensures i <= s.idx <= |cs| && (s.found ==> s.idx < |cs| && cs[s.idx].index == key)
    decreases |cs| - i
  {
    if i == |cs| then Slot(i, false)
    else if cs[i].index == key then Slot(i, true)
    else if Compare(cs[i].index, key) > 0 then Slot(i, false)
    else SlotFrom(cs, key, i + 1)
  }

  lemma {:induction false} SlotFromOK(cs: Node, key: Bytes, i: nat)
    requires Sorted(cs) && i <= |cs| && forall j | 0 <= j < i :: Rank(cs[j].index) < Rank(key)
    ensures SlotFrom(cs, key, i).found <==> Holds(cs, key)
    ensures !SlotFrom(cs, key, i).found ==> Position(cs, key, SlotFrom(cs, key, i).idx)
    decreases |cs| - i
  {
    if i < |cs| && Compare(cs[i].index, key) < 0 {
      SlotFromOK(cs, key, i + 1);
    }
  }

  /** The key of the node one level up that covers `k`; the empty key if there is none. */
  ghost function ParentKey(above: seq<Level>, k: Bytes): Bytes {
    if above != [] && exists x :: IsFloor(above[0].Keys, x, k) then
      var x :| IsFloor(above[0].Keys, x, k); x
    else []
  }

  ghost function Updated(us: seq<Level>, p: Bytes, c: Child): (r: Option<seq<Level>>)
    ensures r.Some? ==> |r.value| == |us|
  {
    if us == [] || p !in us[0] then Some(us) else
      var s := SlotFrom(us[0][p], c.index, 0);
      if !s.found then None else
      var cs := us[0][p][s.idx := Child(c.index, c.acc)];
      var rest :- Updated(us[1..], ParentKey(us[1..], p), Child(p, Accumulated(cs)));
      Some([us[0][p := cs]] + rest)
  }

  ghost function Created(us: seq<Level>, p: Bytes, cs: Node): seq<Level> {
    if us == [] then [map[p := cs]] else [us[0][p := cs]] + us[1..]
  }

  /** `nodes` once the node at `p`, grown to `cs`, is split before position `k`. */
  ghost function Halves(nodes: Level, p: Bytes, cs: Node, k: nat): Level
    requires k < |cs|
  {
    nodes[cs[k].index := cs[k..]][p := cs[..k]]
  }

  ghost function Pushed(us: seq<Level>, p: Bytes, c: Child, m: nat): (r: Option<seq<Level>>)
    ensures r.Some? ==> r.value != [] && |us| <= |r.value| <= |us| + 1
    decreases us, 1
  {
    if us == [] || p !in us[0] then Some(Created(us, p, [c])) else
      var s := SlotFrom(us[0][p], c.index, 0);
      if s.found then Updated(us, p, c) else
      var cs := Inserted(us[0][p], s.idx, c);
      var q := ParentKey(us[1..], p);
      if |cs| <= m then
        var rest :- Updated(us[1..], q, Child(p, Accumulated(cs)));
        Some([us[0][p := cs]] + rest)
      else if m / 2 + 1 >= |cs| then None
      else
        var rest :- PushedSplit(us, p, q, cs, m);
        Some([Halves(us[0], p, cs, m / 2 + 1)] + rest)
  }

  /** The levels above a node that splits into `cs[..k]` and `cs[k..]`. */
  ghost function PushedSplit(us: seq<Level>, p: Bytes, q: Bytes, cs: Node, m: nat): (r: Option<seq<Level>>)
    requires us != [] && m / 2 + 1 < |cs|
    ensures r.Some? ==> |us| - 1 <= |r.value| <= |us|
    decreases us, 0
  {
    var k := m / 2 + 1;
    var left, right := Child(p, Accumulated(cs[..k])), Child(cs[k].index, Accumulated(cs[k..]));
    if us[1..] == [] || q !in us[1] then Some(Created(us[1..], q, [left, right])) else
      var pushed :- Pushed(us[1..], q, right, m);
      Updated(pushed, ParentKey(pushed, p), left)
  }

  // -------------------------------------------------------- the same, one level at a time

  ghost function UpdatedTuple(y: (seq<Level>, Bytes, Child)): Option<seq<Level>> { Updated(y.0, y.1, y.2) }
  ghost function PushedTuple(y: (seq<Level>, Bytes, Child, nat)): Option<seq<Level>> { Pushed(y.0, y.1, y.2, y.3) }
  ghost function SplitTuple(y: (seq<Level>, Bytes, Bytes, Node, nat)): Option<seq<Level>> {
    if y.0 != [] && y.4 / 2 + 1 < |y.3| then PushedSplit(y.0, y.1, y.2, y.3, y.4) else None
  }

  /** `Updated`, `Pushed` and `PushedSplit`, kept folded. */
  ghost function AfterUpdate(us: seq<Level>, p: Bytes, c: Child): Option<seq<Level>> { FoldedFn(UpdatedTuple)((us, p, c)) }
  ghost function AfterPush(us: seq<Level>, p: Bytes, c: Child, m: nat): Option<seq<Level>> { FoldedFn(PushedTuple)((us, p, c, m)) }
  ghost function AfterSplit(us: seq<Level>, p: Bytes, q: Bytes, cs: Node, m: nat): Option<seq<Level>> {
    FoldedFn(SplitTuple)((us, p, q, cs, m))
  }

  /** A new lowest level over what became of the levels above it. */
  ghost function Over(nodes: Level, rest: Option<seq<Level>>): Option<seq<Level>> {
    if rest.None? then None else Some([nodes] + rest.value)
  }

  lemma UnfoldUpdate(us: seq<Level>, p: Bytes, c: Child)
    ensures AfterUpdate(us, p, c) == Updated(us, p, c)
  {
    UnfoldFn(UpdatedTuple, (us, p, c));
  }

  lemma UnfoldPush(us: seq<Level>, p: Bytes, c: Child, m: nat)
    ensures AfterPush(us, p, c, m) == Pushed(us, p, c, m)
  {
    UnfoldFn(PushedTuple, (us, p, c, m));
  }

  lemma UnfoldSplit(us: seq<Level>, p: Bytes, q: Bytes, cs: Node, m: nat)
    requires us != [] && m / 2 + 1 < |cs|
    ensures AfterSplit(us, p, q, cs, m) == PushedSplit(us, p, q, cs, m)
  {
    UnfoldFn(SplitTuple, (us, p, q, cs, m));
  }

  lemma UpdateAbsent(us: seq<Level>, p: Bytes, c: Child)
    requires us == [] || p !in us[0]
    ensures AfterUpdate(us, p, c) == Some(us)
  {
    UnfoldUpdate(us, p, c);
  }

  lemma UpdateStep(us: seq<Level>, p: Bytes, c: Child)
    requires us != [] && p in us[0]
    ensures var s := SlotFrom(us[0][p], c.index, 0);
            if !s.found then AfterUpdate(us, p, c) == None else
              var cs := us[0][p][s.idx := Child(c.index, c.acc)];
              AfterUpdate(us, p, c) == Over(us[0][p := cs], AfterUpdate(us[1..], ParentKey(us[1..], p), Child(p, Accumulated(cs))))
  {
    UnfoldUpdate(us, p, c);
    var s := SlotFrom(us[0][p], c.index, 0);
    if s.found {
      var cs := us[0][p][s.idx := Child(c.index, c.acc)];
      UnfoldUpdate(us[1..], ParentKey(us[1..], p), Child(p, Accumulated(cs)));
    }
  }

  lemma PushAbsent(us: seq<Level>, p: Bytes, c: Child, m: nat)
    requires us == [] || p !in us[0]
    ensures AfterPush(us, p, c, m) == Some(Created(us, p, [c]))
  {
    UnfoldPush(us, p, c, m);
  }

  lemma PushStep(us: seq<Level>, p: Bytes, c: Child, m: nat)
    requires us != [] && p in us[0]
    ensures var s, q := SlotFrom(us[0][p], c.index, 0), ParentKey(us[1..], p);
            if s.found then AfterPush(us, p, c, m) == AfterUpdate(us, p, c) else
              var cs := Inserted(us[0][p], s.idx, c);
              AfterPush(us, p, c, m)
              == if |cs| <= m then Over(us[0][p := cs], AfterUpdate(us[1..], q, Child(p, Accumulated(cs))))
                 else if m / 2 + 1 >= |cs| then None
                 else Over(Halves(us[0], p, cs, m / 2 + 1), AfterSplit(us, p, q, cs, m))
  {
    UnfoldPush(us, p, c, m);
    UnfoldUpdate(us, p, c);
    var s, q := SlotFrom(us[0][p], c.index, 0), ParentKey(us[1..], p);
    if !s.found {
      var cs := Inserted(us[0][p], s.idx, c);
      UnfoldUpdate(us[1..], q, Child(p, Accumulated(cs)));
      if m / 2 + 1 < |cs| {
        UnfoldSplit(us, p, q, cs, m);
      }
    }
  }

  lemma SplitAbove(us: seq<Level>, p: Bytes, q: Bytes, cs: Node, m: nat)
    requires us != [] && m / 2 + 1 < |cs|
    ensures var k := m / 2 + 1;
            var left, right := Child(p, Accumulated(cs[..k])), Child(cs[k].index, Accumulated(cs[k..]));
            if us[1..] == [] || q !in us[1] then AfterSplit(us, p, q, cs, m) == Some(Created(us[1..], q, [left, right])) else
              var pushed := AfterPush(us[1..], q, right, m);
              AfterSplit(us, p, q, cs, m) == if pushed.None? then None else AfterUpdate(pushed.value, ParentKey(pushed.value, p), left)
  {
    UnfoldSplit(us, p, q, cs, m);
    var k := m / 2 + 1;
    var left, right := Child(p, Accumulated(cs[..k])), Child(cs[k].index, Accumulated(cs[k..]));
    UnfoldPush(us[1..], q, right, m);
    if us[1..] != [] && q in us[1] && Pushed(us[1..], q, right, m).Some? {
      var pushed := Pushed(us[1..], q, right, m).value;
      UnfoldUpdate(pushed, ParentKey(pushed, p), left);
    }
  }

  // ---------------------------------------------------------- the index is kept

  lemma ParentKeyOK(above: seq<Level>, sums: map<Bytes, int>, k: Bytes)
    requires Indexes(above, sums)
    ensures above == [] ==> ParentKey(above, k) == []
    ensures above != [] ==> IsFloor(above[0].Keys, ParentKey(above, k), k)
  {
    if above != [] {
      UnfoldIndex(above[0], sums);
      var x := FloorExists(above[0].Keys, k);
    }
  }

  lemma IndexesCons(nodes: Level, rest: seq<Level>, sums: map<Bytes, int>)
    requires IsIndex(nodes, sums) && Indexes(rest, Sums(nodes))
    ensures Indexes([nodes] + rest, sums)
  {
    assert ([nodes] + rest)[1..] == rest;
  }

  ghost function SetAcc(nodes: Level, p: Bytes, c: Child): Node
    requires p in nodes && SlotFrom(nodes[p], c.index, 0).found
  {
    nodes[p][SlotFrom(nodes[p], c.index, 0).idx := Child(c.index, c.acc)]
  }

  lemma SetAccOK(nodes: Level, sums: map<Bytes, int>, p: Bytes, c: Child)
    requires IsIndex(nodes, sums) && c.index in sums && IsFloor(nodes.Keys, p, c.index)
    ensures SlotFrom(nodes[p], c.index, 0).found
    ensures IsIndex(nodes[p := SetAcc(nodes, p, c)], sums[c.index := c.acc])
    ensures Sums(nodes[p := SetAcc(nodes, p, c)]) == Sums(nodes)[p := Accumulated(SetAcc(nodes, p, c))]
  {
    UnfoldIndex(nodes, sums);
    SlotFromOK(nodes[p], c.index, 0);
    LevelSetAcc(nodes, sums, p, SlotFrom(nodes[p], c.index, 0).idx, c.acc);
    UnfoldIndex(nodes[p := SetAcc(nodes, p, c)], sums[c.index := c.acc]);
    SumsUpdate(nodes, p, SetAcc(nodes, p, c));
  }

  /** A change of one entry reaches the root: the levels index the map with `c`'s new value. */
  lemma {:induction false} UpdatedIndexes(us: seq<Level>, sums: map<Bytes, int>, p: Bytes, c: Child)
    requires Indexes(us, sums) && c.index in sums
    requires us != [] ==> IsFloor(us[0].Keys, p, c.index)
    ensures Updated(us, p, c).Some?
    ensures |Updated(us, p, c).value| == |us|
    ensures Indexes(Updated(us, p, c).value, sums[c.index := c.acc])
  {
    if us == [] {
      assert sums[c.index := c.acc].Keys == sums.Keys;
    } else {
      SetAccOK(us[0], sums, p, c);
      var cs := SetAcc(us[0], p, c);
      var q, up := ParentKey(us[1..], p), Child(p, Accumulated(cs));
      ParentKeyOK(us[1..], Sums(us[0]), p);
      UpdatedIndexes(us[1..], Sums(us[0]), q, up);
      var rest := Updated(us[1..], q, up).value;
      IndexesCons(us[0][p := cs], rest, sums[c.index := c.acc]);
      assert Updated(us, p, c) == Some([us[0][p := cs]] + rest);
    }
  }

  /** The node above `p` also covers the right half of a split of `p`. */
  lemma ParentOfRightHalf(nodes: Level, above: seq<Level>, p: Bytes, rk: Bytes)
    requires above != [] && IsIndex(above[0], Sums(nodes)) && IsFloor(nodes.Keys, p, rk)
    requires IsFloor(above[0].Keys, ParentKey(above, p), p)
    ensures IsFloor(above[0].Keys, ParentKey(above, p), rk)
  {
    UnfoldIndex(above[0], Sums(nodes));
    forall y | y in above[0].Keys && Rank(y) <= Rank(rk)
      ensures Rank(y) <= Rank(ParentKey(above, p))
    {
      assert above[0][y][0].index == y;
      assert y in nodes;
    }
  }

  ghost function WithChild(nodes: Level, p: Bytes, c: Child): Node
    requires p in nodes
  {
    Inserted(nodes[p], SlotFrom(nodes[p], c.index, 0).idx, c)
  }

  lemma WithChildOK(nodes: Level, sums: map<Bytes, int>, p: Bytes, c: Child)
    requires IsIndex(nodes, sums) && IsFloor(nodes.Keys, p, c.index)
    ensures SlotFrom(nodes[p], c.index, 0).found <==> c.index in sums
    ensures c.index !in sums ==> IsIndex(nodes[p := WithChild(nodes, p, c)], sums[c.index := c.acc])
    ensures Sums(nodes[p := WithChild(nodes, p, c)]) == Sums(nodes)[p := Accumulated(WithChild(nodes, p, c))]
    ensures |nodes[p]| >= 1
  {
    UnfoldIndex(nodes, sums);
    SlotFromOK(nodes[p], c.index, 0);
    if c.index !in sums {
      LevelInsert(nodes, sums, p, SlotFrom(nodes[p], c.index, 0).idx, c);
      UnfoldIndex(nodes[p := WithChild(nodes, p, c)], sums[c.index := c.acc]);
    }
    SumsUpdate(nodes, p, WithChild(nodes, p, c));
  }

  lemma SplitOK(nodes: Level, sums: map<Bytes, int>, p: Bytes, cs: Node, k: nat)
    requires p in nodes && IsIndex(nodes[p := cs], sums) && 0 < k < |cs|
    ensures cs[k].index !in nodes && IsFloor(nodes.Keys, p, cs[k].index)
    ensures IsIndex(Halves(nodes, p, cs, k), sums)
    ensures Sums(Halves(nodes, p, cs, k)) == Sums(nodes)[cs[k].index := Accumulated(cs[k..])][p := Accumulated(cs[..k])]
  {
    SplitIndex(nodes[p := cs], sums, p, k);
    assert nodes[p := cs].Keys == nodes.Keys;
    assert nodes[p := cs][p := cs[..k]][cs[k].index := cs[k..]] == Halves(nodes, p, cs, k);
    SumsUpdate(nodes, cs[k].index, cs[k..]);
    SumsUpdate(nodes[cs[k].index := cs[k..]], p, cs[..k]);
  }

  lemma SplitIndex(nodes: Level, sums: map<Bytes, int>, p: Bytes, k: nat)
    requires p in nodes && IsIndex(nodes, sums) && 0 < k < |nodes[p]|
    ensures nodes[p][k].index !in nodes && IsFloor(nodes.Keys, p, nodes[p][k].index)
    ensures IsIndex(nodes[p := nodes[p][..k]][nodes[p][k].index := nodes[p][k..]], sums)
  {
    UnfoldIndex(nodes, sums);
    LevelSplit(nodes, sums, p, k);
    UnfoldIndex(nodes[p := nodes[p][..k]][nodes[p][k].index := nodes[p][k..]], sums);
  }

  lemma CreatedIndexes(sums: map<Bytes, int>, rk: Bytes)
    requires sums.Keys == {[], rk} && rk != []
    ensures Indexes([map[[] := [Child([], sums[[]]), Child(rk, sums[rk])]]], sums)
  {
    var root: Level := map[[] := [Child([], sums[[]]), Child(rk, sums[rk])]];
    NewRootOK(sums, rk);
    UnfoldIndex(root, sums);
    assert Sums(root).Keys == {[]};
    IndexesCons(root, [], sums);
  }

  lemma LoneLevel(us: seq<Level>, sums: map<Bytes, int>)
    requires us != [] && Indexes(us, sums) && |us| == 1
    ensures us[0].Keys == {[]}
  {
    assert us[1..] == [] && Sums(us[0]).Keys == us[0].Keys;
  }

  lemma AfterUpdateIndexes(us: seq<Level>, sums: map<Bytes, int>, p: Bytes, c: Child)
    requires Indexes(us, sums) && c.index in sums
    requires us != [] ==> IsFloor(us[0].Keys, p, c.index)
    ensures var r := AfterUpdate(us, p, c);
            r.Some? && |r.value| == |us| && Indexes(r.value, sums[c.index := c.acc])
  {
    UpdatedIndexes(us, sums, p, c);
    UnfoldUpdate(us, p, c);
  }

  /** A push that finds room. */
  lemma RoomIndexes(us: seq<Level>, sums: map<Bytes, int>, p: Bytes, cs: Node, sums': map<Bytes, int>)
    requires us != [] && Indexes(us, sums) && p in us[0] && IsIndex(us[0][p := cs], sums')
    requires Sums(us[0][p := cs]) == Sums(us[0])[p := Accumulated(cs)]
    ensures var r := Over(us[0][p := cs], AfterUpdate(us[1..], ParentKey(us[1..], p), Child(p, Accumulated(cs))));
            r.Some? && |r.value| == |us| && Indexes(r.value, sums')
  {
    ParentKeyOK(us[1..], Sums(us[0]), p);
    var q, up := ParentKey(us[1..], p), Child(p, Accumulated(cs));
    AfterUpdateIndexes(us[1..], Sums(us[0]), q, up);
    IndexesCons(us[0][p := cs], AfterUpdate(us[1..], q, up).value, sums');
  }

  /** A push of `c` from the level below, through any cascade of splits, leaves
      levels that index the map with `c` added or replaced. */
  lemma {:induction false} AfterPushIndexes(us: seq<Level>, sums: map<Bytes, int>, p: Bytes, c: Child, m: nat)
    requires us != [] && Indexes(us, sums) && IsFloor(us[0].Keys, p, c.index)
    ensures var r := AfterPush(us, p, c, m);
            r.Some? && |us| <= |r.value| <= |us| + 1 && Indexes(r.value, sums[c.index := c.acc])
    decreases us, 1
  {
    PushStep(us, p, c, m);
    WithChildOK(us[0], sums, p, c);
    if c.index in sums {
      AfterUpdateIndexes(us, sums, p, c);
    } else {
      var cs, q := WithChild(us[0], p, c), ParentKey(us[1..], p);
      if |cs| <= m {
        RoomIndexes(us, sums, p, cs, sums[c.index := c.acc]);
      } else {
        SplitOK(us[0], sums[c.index := c.acc], p, cs, m / 2 + 1);
        AfterSplitIndexes(us, sums, p, q, cs, m);
        IndexesCons(Halves(us[0], p, cs, m / 2 + 1), AfterSplit(us, p, q, cs, m).value, sums[c.index := c.acc]);
      }
    }
  }

  /** The splitting branch: the parent holds a stale sum while the right half is pushed. */
  lemma {:induction false} AfterSplitIndexes(us: seq<Level>, sums: map<Bytes, int>, p: Bytes, q: Bytes, cs: Node, m: nat)
    requires us != [] && Indexes(us, sums) && p in us[0] && q == ParentKey(us[1..], p)
    requires m / 2 + 1 < |cs|
    requires IsFloor(us[0].Keys, p, cs[m / 2 + 1].index) && cs[m / 2 + 1].index !in us[0]
    ensures var r, k := AfterSplit(us, p, q, cs, m), m / 2 + 1;
            && r.Some? && |us| - 1 <= |r.value| <= |us|
            && Indexes(r.value, Sums(us[0])[cs[k].index := Accumulated(cs[k..])][p := Accumulated(cs[..k])])
    decreases us, 0
  {
    var k, above := m / 2 + 1, Sums(us[0]);
    var left, right := Child(p, Accumulated(cs[..k])), Child(cs[k].index, Accumulated(cs[k..]));
    SplitAbove(us, p, q, cs, m);
    ParentKeyOK(us[1..], above, p);
    if us[1..] == [] {
      LoneLevel(us, sums);
      CreatedIndexes(above[right.index := right.acc][p := left.acc], right.index);
    } else {
      ParentOfRightHalf(us[0], us[1..], p, right.index);
      AfterPushIndexes(us[1..], above, q, right, m);
      var pushed := AfterPush(us[1..], q, right, m).value;
      ParentKeyOK(pushed, above[right.index := right.acc], p);
      AfterUpdateIndexes(pushed, above[right.index := right.acc], ParentKey(pushed, p), left);
    }
  }
}
