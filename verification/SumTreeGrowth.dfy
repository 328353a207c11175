/** Heights a run can reach: when a new key adds a level. */
module SumTreeGrowth {
  import opened ByteKeys
  import opened SumTreeLevels
  import opened SumTreeEdits

  /** Every level's leftmost node has exactly two children. */
  ghost predicate LeftFull(us: seq<Level>) {
    forall i | 0 <= i < |us| :: [] in us[i] && |us[i][[]]| == 2
  }

  lemma LeftFullCons(nodes: Level, rest: seq<Level>)
    requires [] in nodes && |nodes[[]]| == 2 && LeftFull(rest)
    ensures LeftFull([nodes] + rest)
  {
  }

  /** A change of a known key's value adds no level. */
  lemma KnownKeyKeepsHeight(us: seq<Level>, sums: map<Bytes, int>, p: Bytes, c: Child, m: nat)
    requires us != [] && Indexes(us, sums) && IsFloor(us[0].Keys, p, c.index) && c.index in sums
    ensures AfterPush(us, p, c, m).Some? && |AfterPush(us, p, c, m).value| == |us|
  {
    WithChildOK(us[0], sums, p, c);
    PushStep(us, p, c, m);
    UpdatedIndexes(us, sums, p, c);
    UnfoldUpdate(us, p, c);
  }

  /** With room for fewer than two children every new key adds a level, wherever it goes. */
  lemma {:induction false} NarrowGrows(us: seq<Level>, sums: map<Bytes, int>, p: Bytes, c: Child, m: nat)
    requires us != [] && Indexes(us, sums) && IsFloor(us[0].Keys, p, c.index) && c.index !in sums && m < 2
    ensures AfterPush(us, p, c, m).Some? && |AfterPush(us, p, c, m).value| == |us| + 1
  {
    var nodes := us[0];
    WithChildOK(nodes, sums, p, c);
    PushStep(us, p, c, m);
    var cs, q := WithChild(nodes, p, c), ParentKey(us[1..], p);
    SplitOK(nodes, sums[c.index := c.acc], p, cs, 1);
    SplitAbove(us, p, q, cs, m);
    ParentKeyOK(us[1..], Sums(nodes), p);
    if us[1..] != [] {
      var right := Child(cs[1].index, Accumulated(cs[1..]));
      ParentOfRightHalf(nodes, us[1..], p, right.index);
      NarrowGrows(us[1..], Sums(nodes), q, right, m);
      RepairedHeight(us[1..], Sums(nodes), q, right, m, Child(p, Accumulated(cs[..1])));
    }
  }

  /** The second look-up of a split finds its node and adds no level. */
  lemma RepairedHeight(us: seq<Level>, sums: map<Bytes, int>, q: Bytes, right: Child, m: nat, left: Child)
    requires us != [] && Indexes(us, sums) && IsFloor(us[0].Keys, q, right.index) && left.index in sums
    ensures var pushed := AfterPush(us, q, right, m);
            && pushed.Some?
            && var r := AfterUpdate(pushed.value, ParentKey(pushed.value, left.index), left);
               r.Some? && |r.value| == |pushed.value| && (LeftFull(pushed.value) ==> LeftFull(r.value))
  {
    AfterPushIndexes(us, sums, q, right, m);
    var pushed, sums' := AfterPush(us, q, right, m).value, sums[right.index := right.acc];
    ParentKeyOK(pushed, sums', left.index);
    AfterUpdateIndexes(pushed, sums', ParentKey(pushed, left.index), left);
    if LeftFull(pushed) {
      UpdateKeepsLeftFull(pushed, ParentKey(pushed, left.index), left);
    }
  }

  lemma {:induction false} UpdateKeepsLeftFull(us: seq<Level>, p: Bytes, c: Child)
    requires LeftFull(us) && AfterUpdate(us, p, c).Some?
    ensures LeftFull(AfterUpdate(us, p, c).value)
  {
    if us == [] || p !in us[0] {
      UpdateAbsent(us, p, c);
    } else {
      UpdateStep(us, p, c);
      var cs := SetAcc(us[0], p, c);
      UpdateKeepsLeftFull(us[1..], ParentKey(us[1..], p), Child(p, Accumulated(cs)));
      LeftFullCons(us[0][p := cs], AfterUpdate(us[1..], ParentKey(us[1..], p), Child(p, Accumulated(cs))).value);
    }
  }

  /** With room for two, a new key left of all branches adds a level to a left-full tree
      and leaves it left-full. */
  lemma {:induction false} LeftFullGrows(us: seq<Level>, sums: map<Bytes, int>, c: Child)
    requires us != [] && Indexes(us, sums) && IsFloor(us[0].Keys, [], c.index) && c.index !in sums && LeftFull(us)
    ensures AfterPush(us, [], c, 2).Some? && |AfterPush(us, [], c, 2).value| == |us| + 1
    ensures LeftFull(AfterPush(us, [], c, 2).value)
    decreases us, 1
  {
    WithChildOK(us[0], sums, [], c);
    PushStep(us, [], c, 2);
    var cs := WithChild(us[0], [], c);
    SplitOK(us[0], sums[c.index := c.acc], [], cs, 2);
    LeftFullAbove(us, sums, cs);
    LeftFullCons(Halves(us[0], [], cs, 2), AfterSplit(us, [], ParentKey(us[1..], []), cs, 2).value);
  }

  lemma {:induction false} LeftFullAbove(us: seq<Level>, sums: map<Bytes, int>, cs: Node)
    requires us != [] && Indexes(us, sums) && LeftFull(us) && 2 < |cs|
    requires IsFloor(us[0].Keys, [], cs[2].index) && cs[2].index !in us[0]
    ensures var r := AfterSplit(us, [], ParentKey(us[1..], []), cs, 2);
            r.Some? && |r.value| == |us| && LeftFull(r.value)
    decreases us, 0
  {
    SplitAbove(us, [], ParentKey(us[1..], []), cs, 2);
    ParentKeyOK(us[1..], Sums(us[0]), []);
    if us[1..] != [] {
      FloorUnique(us[1].Keys, [], ParentKey(us[1..], []), []);
      var right := Child(cs[2].index, Accumulated(cs[2..]));
      ParentOfRightHalf(us[0], us[1..], [], right.index);
      LeftFullGrows(us[1..], Sums(us[0]), right);
      RepairedHeight(us[1..], Sums(us[0]), [], right, 2, Child([], Accumulated(cs[..2])));
    }
  }
}
