/** Node sizes along every run, and the bound on the height they give. */
module SumTreeHeight {
  import opened ByteKeys
  import FixedPoint
  import opened SumTreeLevels
  import opened SumTreeEdits

  /** A node never grows beyond this. */
  function Capacity(m: nat): nat { if m < 2 then 2 else m }

  /** When a node of key `x` has two or more children.  `alone` says it is the only branch. */
  ghost predicate AtLeastTwo(m: nat, x: Bytes, bottom: bool, alone: bool) {
    || (m >= 3 && !(bottom && alone))
    || (m == 2 && !bottom && x == [])
  }

  ghost predicate SizeOK(cs: Node, m: nat, x: Bytes, bottom: bool, alone: bool) {
    && 1 <= |cs| <= Capacity(m)
    && (AtLeastTwo(m, x, bottom, alone) ==> |cs| >= 2)
  }

  ghost predicate LevelSized(nodes: Level, m: nat, bottom: bool, alone: bool) {
    forall x | x in nodes :: SizeOK(nodes[x], m, x, bottom, alone)
  }

  ghost predicate Sized(us: seq<Level>, m: nat, bottom: bool) {
    us == [] || (LevelSized(us[0], m, bottom, |us| == 1) && Sized(us[1..], m, false))
  }

  lemma SizedCons(nodes: Level, rest: seq<Level>, m: nat, bottom: bool)
    requires LevelSized(nodes, m, bottom, rest == []) && Sized(rest, m, false)
    ensures Sized([nodes] + rest, m, bottom)
  {
    assert ([nodes] + rest)[1..] == rest;
  }

  lemma {:induction false} UpdatedSized(us: seq<Level>, p: Bytes, c: Child, m: nat, bottom: bool)
    requires Sized(us, m, bottom) && AfterUpdate(us, p, c).Some?
    ensures Sized(AfterUpdate(us, p, c).value, m, bottom)
    ensures |AfterUpdate(us, p, c).value| == |us|
  {
    if us == [] || p !in us[0] {
      UpdateAbsent(us, p, c);
    } else {
      UpdateStep(us, p, c);
      var cs := SetAcc(us[0], p, c);
      var q, up := ParentKey(us[1..], p), Child(p, Accumulated(cs));
      UpdatedSized(us[1..], q, up, m, false);
      SizedCons(us[0][p := cs], AfterUpdate(us[1..], q, up).value, m, bottom);
    }
  }

  /** Sizes are kept by every push. */
  lemma {:induction false} PushedSized(us: seq<Level>, sums: map<Bytes, int>, p: Bytes, c: Child, m: nat, bottom: bool)
    requires us != [] && Indexes(us, sums) && IsFloor(us[0].Keys, p, c.index) && Sized(us, m, bottom)
    ensures AfterPush(us, p, c, m).Some? && Sized(AfterPush(us, p, c, m).value, m, bottom)
    decreases us, 1
  {
    AfterPushIndexes(us, sums, p, c, m);
    PushStep(us, p, c, m);
    WithChildOK(us[0], sums, p, c);
    if c.index in sums {
      UpdatedSized(us, p, c, m, bottom);
    } else {
      var cs, q := WithChild(us[0], p, c), ParentKey(us[1..], p);
      if |cs| <= m {
        var up := Child(p, Accumulated(cs));
        UpdatedSized(us[1..], q, up, m, false);
        SizedCons(us[0][p := cs], AfterUpdate(us[1..], q, up).value, m, bottom);
      } else {
        SplitOK(us[0], sums[c.index := c.acc], p, cs, m / 2 + 1);
        PushedSplitSized(us, sums, p, q, cs, m);
        if |us| == 1 {
          LoneLevel(us, sums);
        }
        HalvesSized(us, p, cs, m, bottom);
        SizedCons(Halves(us[0], p, cs, m / 2 + 1), AfterSplit(us, p, q, cs, m).value, m, bottom);
      }
    }
  }

  lemma HalvesSized(us: seq<Level>, p: Bytes, cs: Node, m: nat, bottom: bool)
    requires us != [] && p in us[0] && LevelSized(us[0], m, bottom, |us| == 1)
    requires |us[0][p]| + 1 == |cs| > m
    requires cs[m / 2 + 1].index !in us[0] && cs[m / 2 + 1].index != []
    requires |us| == 1 ==> us[0].Keys == {p}
    ensures LevelSized(Halves(us[0], p, cs, m / 2 + 1), m, bottom, false)
  {
    var k := m / 2 + 1;
    assert m >= 2 ==> |cs| == m + 1;
    assert |cs[..k]| == k && |cs[k..]| == |cs| - k;
  }

  lemma {:induction false} PushedSplitSized(us: seq<Level>, sums: map<Bytes, int>, p: Bytes, q: Bytes, cs: Node, m: nat)
    requires us != [] && Indexes(us, sums) && p in us[0] && q == ParentKey(us[1..], p) && Sized(us[1..], m, false)
    requires m / 2 + 1 < |cs|
    requires IsFloor(us[0].Keys, p, cs[m / 2 + 1].index) && cs[m / 2 + 1].index !in us[0]
    ensures var rest := AfterSplit(us, p, q, cs, m);
            rest.Some? && rest.value != [] && Sized(rest.value, m, false)
    decreases us, 0
  {
    var k, above := m / 2 + 1, Sums(us[0]);
    var left, right := Child(p, Accumulated(cs[..k])), Child(cs[k].index, Accumulated(cs[k..]));
    AfterSplitIndexes(us, sums, p, q, cs, m);
    SplitAbove(us, p, q, cs, m);
    ParentKeyOK(us[1..], above, p);
    if us[1..] == [] {
      SizedCons(map[q := [left, right]], [], m, false);
    } else {
      ParentOfRightHalf(us[0], us[1..], p, right.index);
      PushedSized(us[1..], above, q, right, m, false);
      AfterPushIndexes(us[1..], above, q, right, m);
      var pushed := AfterPush(us[1..], q, right, m).value;
      UpdatedSized(pushed, ParentKey(pushed, p), left, m, false);
    }
  }

  // ------------------------------------------------------------------- height

  ghost function Seconds(nodes: Level, xs: set<Bytes>): set<Bytes>
    requires forall x | x in xs :: x in nodes && |nodes[x]| >= 2
  {
    set x | x in xs :: nodes[x][1].index
  }

  lemma SecondIsNew(nodes: Level, sums: map<Bytes, int>, x: Bytes)
    requires IsIndex(nodes, sums) && x in nodes && |nodes[x]| >= 2
    ensures nodes[x][1].index !in nodes && nodes[x][1].index in sums
    ensures IsFloor(nodes.Keys, x, nodes[x][1].index)
  {
    UnfoldIndex(nodes, sums);
    assert Rank(nodes[x][0].index) < Rank(nodes[x][1].index);
  }

  /** Second children are new keys, one for each node that has one. */
  lemma {:induction false} SecondsCount(nodes: Level, sums: map<Bytes, int>, xs: set<Bytes>)
    requires IsIndex(nodes, sums) && forall x | x in xs :: x in nodes && |nodes[x]| >= 2
    ensures |Seconds(nodes, xs)| == |xs|
    ensures Seconds(nodes, xs) !! nodes.Keys && Seconds(nodes, xs) <= sums.Keys
    decreases xs
  {
    if xs != {} {
      var x :| x in xs;
      SecondsCount(nodes, sums, xs - {x});
      SecondIsNew(nodes, sums, x);
      var s := nodes[x][1].index;
      assert Seconds(nodes, xs) == Seconds(nodes, xs - {x}) + {s};
      if y :| y in xs - {x} && nodes[y][1].index == s {
        SecondIsNew(nodes, sums, y);
        FloorUnique(nodes.Keys, x, y, s);
      }
    }
  }

  lemma SubsetSize<T>(a: set<T>, b: set<T>)
    requires a <= b
    ensures |a| <= |b|
  {
    assert b == a + (b - a);
  }

  /** A level has at least one entry per node, and one more per node with two children. */
  lemma Wider(nodes: Level, sums: map<Bytes, int>, xs: set<Bytes>)
    requires IsIndex(nodes, sums) && forall x | x in xs :: x in nodes && |nodes[x]| >= 2
    ensures |sums| >= |nodes| + |xs|
  {
    SecondsCount(nodes, sums, xs);
    UnfoldIndex(nodes, sums);
    assert forall x | x in nodes :: nodes[x][0].index == x;
    SubsetSize(nodes.Keys + Seconds(nodes, xs), sums.Keys);
  }

  lemma OneSumPerNode(nodes: Level, sums: map<Bytes, int>)
    requires IsIndex(nodes, sums)
    ensures |Sums(nodes)| == |nodes| && [] in nodes
  {
    UnfoldIndex(nodes, sums);
    assert Sums(nodes).Keys == nodes.Keys;
    assert |Sums(nodes)| == |Sums(nodes).Keys| && |nodes| == |nodes.Keys|;
  }

  lemma {:induction false} WidthAbove(us: seq<Level>, sums: map<Bytes, int>, m: nat)
    requires Indexes(us, sums) && Sized(us, m, false) && m >= 2
    ensures |sums| >= if m >= 3 then FixedPoint.Pow2(|us|) else |us| + 1
  {
    if us == [] {
      assert |sums| == |sums.Keys| == 1;
    } else {
      var nodes := us[0];
      WidthAbove(us[1..], Sums(nodes), m);
      OneSumPerNode(nodes, sums);
      Wider(nodes, sums, if m >= 3 then nodes.Keys else {[]});
    }
  }

  /** The promised logarithmic height: with three or more children per node the
      number of entries doubles with every level.  With two, every level is
      still narrower than the one below it. */
  lemma HeightBound(us: seq<Level>, sums: map<Bytes, int>, m: nat)
    requires us != [] && Indexes(us, sums) && Sized(us, m, true)
    ensures m >= 3 ==> |us| == 1 || FixedPoint.Pow2(|us|) <= |sums|
    ensures m == 2 ==> |us| <= |sums|
  {
    var nodes := us[0];
    if m >= 2 {
      WidthAbove(us[1..], Sums(nodes), m);
    }
    OneSumPerNode(nodes, sums);
    Wider(nodes, sums, if m >= 3 && |us| > 1 then nodes.Keys else {});
  }
}
