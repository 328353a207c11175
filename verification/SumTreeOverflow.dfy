/** The sums of the tree in integers that may not reach `limit` in absolute value.

    While the right half of a split moves up, the parent still holds the sum from before the
    split, so that entries are counted twice, and once more in every level that splits on. */
module SumTreeOverflow {
  import opened ByteKeys
  import opened FixedPoint
  import opened MapSums
  import opened Options
  import opened SumTreeLevels
  import opened SumTreeEdits
  import opened SumTreeQueries
  import opened SumTreeCounter
  import opened SumTreeRuns
  import opened SumTreeStore

  function Abs(x: int): nat { if x < 0 then -x else x }

  /** Every partial sum of `accumulate` stays below the limit. */
  ghost predicate NodeFits(cs: Node, limit: int) {
    forall i | 0 <= i <= |cs| :: Abs(Accumulated(cs[..i])) < limit
  }

  /** No sum of an update reaches the limit. */
  ghost predicate UpdateFits(us: seq<Level>, p: Bytes, c: Child, limit: int) {
    if us == [] || p !in us[0] || !SlotFrom(us[0][p], c.index, 0).found then true else
      var cs := SetAcc(us[0], p, c);
      NodeFits(cs, limit) && UpdateFits(us[1..], ParentKey(us[1..], p), Child(p, Accumulated(cs)), limit)
  }

  /** No sum of a push reaches the limit. */
  ghost predicate PushFits(us: seq<Level>, p: Bytes, c: Child, m: nat, limit: int)
    decreases us, 1
  {
    if us == [] || p !in us[0] then true
    else if SlotFrom(us[0][p], c.index, 0).found then UpdateFits(us, p, c, limit) else
      var cs, q, k := WithChild(us[0], p, c), ParentKey(us[1..], p), m / 2 + 1;
      if |cs| <= m then NodeFits(cs, limit) && UpdateFits(us[1..], q, Child(p, Accumulated(cs)), limit)
      else k < |cs| ==> NodeFits(cs[..k], limit) && NodeFits(cs[k..], limit) && SplitFits(us, p, q, cs, m, limit)
  }

  ghost predicate SplitFits(us: seq<Level>, p: Bytes, q: Bytes, cs: Node, m: nat, limit: int)
    requires us != [] && m / 2 + 1 < |cs|
    decreases us, 0
  {
    var k := m / 2 + 1;
    var left, right := Child(p, Accumulated(cs[..k])), Child(cs[k].index, Accumulated(cs[k..]));
    if us[1..] == [] || q !in us[1] then true else
      var pushed := AfterPush(us[1..], q, right, m);
      && PushFits(us[1..], q, right, m, limit)
      && (pushed.Some? ==> UpdateFits(pushed.value, ParentKey(pushed.value, p), left, limit))
  }

  // ------------------------------------------------------------------- absolute values

  ghost function AbsOf(m: map<Bytes, int>): map<Bytes, int> { map k | k in m :: Abs(m[k]) }

  /** The sum of the absolute values. */
  ghost function Mass(m: map<Bytes, int>): int { Sum(AbsOf(m)) }

  ghost function AbsNode(cs: Node): Node { seq(|cs|, i requires 0 <= i < |cs| => Child(cs[i].index, Abs(cs[i].acc))) }

  ghost function AbsLevel(nodes: Level): Level { map x | x in nodes :: AbsNode(nodes[x]) }

  lemma {:induction false} SumMono(a: map<Bytes, int>, b: map<Bytes, int>)
    requires a.Keys == b.Keys && forall k | k in a :: a[k] <= b[k]
    ensures Sum(a) <= Sum(b)
    decreases a.Keys
  {
    if a == map[] {
      assert b == map[];
    } else {
      var k :| k in a;
      SumPick(a, k);
      SumPick(b, k);
      SumMono(a - {k}, b - {k});
    }
  }

  lemma {:induction false} SumAtLeast(m: map<Bytes, int>, k: Bytes)
    requires k in m && forall x | x in m :: m[x] >= 0
    ensures 0 <= m[k] <= Sum(m)
  {
    SumPick(m, k);
    SumAllNonNegative(m - {k});
  }

  lemma {:induction false} SumAllNonNegative(m: map<Bytes, int>)
    requires forall x | x in m :: m[x] >= 0
    ensures Sum(m) >= 0
    decreases m.Keys
  {
    if m != map[] {
      var k :| k in m;
      SumPick(m, k);
      SumAllNonNegative(m - {k});
    }
  }

  lemma MassUpdate(m: map<Bytes, int>, k: Bytes, v: int)
    requires k !in m
    ensures Mass(m[k := v]) == Mass(m) + Abs(v)
  {
    assert AbsOf(m[k := v]) == AbsOf(m)[k := Abs(v)];
    SumUpdate(AbsOf(m), k, Abs(v));
  }

  /** A run of entries weighs no more than their absolute values. */
  lemma {:induction false} SliceBound(cs: Node)
    ensures Abs(Accumulated(cs)) <= Accumulated(AbsNode(cs))
  {
    if cs != [] {
      var front := cs[..|cs| - 1];
      SliceBound(front);
      assert AbsNode(cs)[..|cs| - 1] == AbsNode(front);
    }
  }

  lemma {:induction false} AbsNonNegative(cs: Node)
    ensures Accumulated(AbsNode(cs)) >= 0
  {
    SliceBound(cs);
  }

  lemma PartBound(a: Node, b: Node, c: Node)
    ensures Abs(Accumulated(b)) <= Accumulated(AbsNode(a + b + c))
  {
    SliceBound(b);
    AbsNonNegative(a);
    AbsNonNegative(c);
    assert AbsNode(a + b + c) == AbsNode(a) + AbsNode(b) + AbsNode(c);
    AccumulatedSplit(AbsNode(a) + AbsNode(b), AbsNode(c));
    AccumulatedSplit(AbsNode(a), AbsNode(b));
  }

  lemma AbsNodeOK(keys: set<Bytes>, x: Bytes, cs: Node, sums: map<Bytes, int>)
    requires NodeOK(keys, x, cs, sums)
    ensures NodeOK(keys, x, AbsNode(cs), AbsOf(sums))
  {
  }

  /** The absolute values are indexed in the same way. */
  lemma AbsIndex(nodes: Level, sums: map<Bytes, int>)
    requires IsIndex(nodes, sums)
    ensures IsIndex(AbsLevel(nodes), AbsOf(sums))
  {
    UnfoldIndex(nodes, sums);
    UnfoldIndex(AbsLevel(nodes), AbsOf(sums));
    assert AbsLevel(nodes).Keys == nodes.Keys;
    forall x | x in nodes
      ensures NodeOK(nodes.Keys, x, AbsNode(nodes[x]), AbsOf(sums))
    {
      AbsNodeOK(nodes.Keys, x, nodes[x], sums);
    }
    forall s, x | s in sums && IsFloor(nodes.Keys, x, s)
      ensures Holds(AbsNode(nodes[x]), s)
    {
      var i :| 0 <= i < |nodes[x]| && nodes[x][i].index == s;
      assert AbsNode(nodes[x])[i].index == s;
    }
  }

  /** A level weighs no more than the one below it. */
  lemma LevelMass(nodes: Level, sums: map<Bytes, int>)
    requires IsIndex(nodes, sums)
    ensures Mass(Sums(nodes)) <= Mass(sums)
  {
    AbsIndex(nodes, sums);
    LevelTotal(AbsLevel(nodes), AbsOf(sums));
    forall x | x in nodes
      ensures AbsOf(Sums(nodes))[x] <= Sums(AbsLevel(nodes))[x]
    {
      SliceBound(nodes[x]);
    }
    SumMono(AbsOf(Sums(nodes)), Sums(AbsLevel(nodes)));
  }

  /** And no run of entries of one node more than the whole level below. */
  lemma NodeMass(nodes: Level, sums: map<Bytes, int>, x: Bytes)
    requires IsIndex(nodes, sums) && x in nodes
    ensures Accumulated(AbsNode(nodes[x])) <= Mass(sums)
  {
    AbsIndex(nodes, sums);
    LevelTotal(AbsLevel(nodes), AbsOf(sums));
    forall y | y in nodes
      ensures Sums(AbsLevel(nodes))[y] >= 0
    {
      AbsNonNegative(nodes[y]);
    }
    SumAtLeast(Sums(AbsLevel(nodes)), x);
  }

  lemma RunBound(nodes: Level, sums: map<Bytes, int>, x: Bytes, i: nat, j: nat)
    requires IsIndex(nodes, sums) && x in nodes && i <= j <= |nodes[x]|
    ensures Abs(Accumulated(nodes[x][i..j])) <= Mass(sums)
  {
    var cs := nodes[x];
    NodeMass(nodes, sums, x);
    assert cs == cs[..i] + cs[i..j] + cs[j..];
    PartBound(cs[..i], cs[i..j], cs[j..]);
  }

  /** All partial sums of a run of entries fit if the level below weighs less than the limit. */
  lemma RunFits(nodes: Level, sums: map<Bytes, int>, x: Bytes, a: nat, b: nat, limit: int)
    requires IsIndex(nodes, sums) && x in nodes && a <= b <= |nodes[x]| && Mass(sums) < limit
    ensures NodeFits(nodes[x][a..b], limit)
  {
    forall i | 0 <= i <= b - a
      ensures Abs(Accumulated(nodes[x][a..b][..i])) < limit
    {
      RunBound(nodes, sums, x, a, a + i);
      assert nodes[x][a..b][..i] == nodes[x][a..a + i];
    }
  }

  // ------------------------------------------------------------------------ what fits

  /** An update fits if the new values weigh less than the limit. */
  lemma {:induction false} LightUpdateFits(us: seq<Level>, sums: map<Bytes, int>, p: Bytes, c: Child, limit: int)
    requires Indexes(us, sums) && c.index in sums && Mass(sums[c.index := c.acc]) < limit
    requires us != [] ==> IsFloor(us[0].Keys, p, c.index)
    ensures UpdateFits(us, p, c, limit)
  {
    if us != [] {
      SetAccOK(us[0], sums, p, c);
      var cs := SetAcc(us[0], p, c);
      WholeFits(us[0][p := cs], sums[c.index := c.acc], p, cs, limit);
      LevelMass(us[0][p := cs], sums[c.index := c.acc]);
      ParentKeyOK(us[1..], Sums(us[0]), p);
      LightUpdateFits(us[1..], Sums(us[0]), ParentKey(us[1..], p), Child(p, Accumulated(cs)), limit);
    }
  }

  lemma WholeFits(nodes: Level, sums: map<Bytes, int>, x: Bytes, cs: Node, limit: int)
    requires IsIndex(nodes, sums) && x in nodes && nodes[x] == cs && Mass(sums) < limit
    ensures NodeFits(cs, limit)
  {
    RunFits(nodes, sums, x, 0, |cs|, limit);
    assert cs[0..|cs|] == cs;
  }

  lemma HalvesFit(nodes: Level, sums: map<Bytes, int>, x: Bytes, cs: Node, k: nat, limit: int)
    requires IsIndex(nodes, sums) && x in nodes && nodes[x] == cs && k <= |cs| && Mass(sums) < limit
    ensures NodeFits(cs[..k], limit) && NodeFits(cs[k..], limit) && Abs(Accumulated(cs[k..])) <= Mass(sums)
  {
    RunFits(nodes, sums, x, 0, k, limit);
    RunFits(nodes, sums, x, k, |cs|, limit);
    RunBound(nodes, sums, x, k, |cs|);
    assert cs[0..k] == cs[..k] && cs[k..|cs|] == cs[k..];
  }

  lemma LessOne(n: nat, before: int)
    requires n > 0 && before >= 0
    ensures n * before == (n - 1) * before + before && (n - 1) * before >= 0
  {
  }

  lemma MassNonNegative(m: map<Bytes, int>)
    ensures Mass(m) >= 0
  {
    SumAllNonNegative(AbsOf(m));
  }

  /** A push fits if the new values, and the old ones once for every level, weigh less than
      the limit. */
  lemma {:induction false} LightPushFits(us: seq<Level>, sums: map<Bytes, int>, p: Bytes, c: Child, m: nat, before: int, limit: int)
    requires us != [] && Indexes(us, sums) && IsFloor(us[0].Keys, p, c.index)
    requires Mass(sums) <= before && Mass(sums[c.index := c.acc]) + |us| * before < limit
    ensures PushFits(us, p, c, m, limit)
    decreases us, 1
  {
    MassNonNegative(sums);
    LessOne(|us|, before);
    WithChildOK(us[0], sums, p, c);
    if c.index in sums {
      LightUpdateFits(us, sums, p, c, limit);
    } else {
      var cs, q, k := WithChild(us[0], p, c), ParentKey(us[1..], p), m / 2 + 1;
      var sums' := sums[c.index := c.acc];
      if |cs| <= m {
        WholeFits(us[0][p := cs], sums', p, cs, limit);
        LevelMass(us[0][p := cs], sums');
        ParentKeyOK(us[1..], Sums(us[0]), p);
        LightUpdateFits(us[1..], Sums(us[0]), q, Child(p, Accumulated(cs)), limit);
      } else if k < |cs| {
        HalvesFit(us[0][p := cs], sums', p, cs, k, limit);
        SplitOK(us[0], sums', p, cs, k);
        LevelMass(Halves(us[0], p, cs, k), sums');
        LightSplitFits(us, sums, p, q, cs, m, before, Mass(sums'), limit);
      }
    }
  }

  lemma {:induction false} LightSplitFits(us: seq<Level>, sums: map<Bytes, int>, p: Bytes, q: Bytes, cs: Node, m: nat, before: int, after: int, limit: int)
    requires us != [] && Indexes(us, sums) && p in us[0] && q == ParentKey(us[1..], p) && m / 2 + 1 < |cs|
    requires IsFloor(us[0].Keys, p, cs[m / 2 + 1].index) && cs[m / 2 + 1].index !in us[0]
    requires Mass(sums) <= before && Abs(Accumulated(cs[m / 2 + 1..])) <= after && after + |us| * before < limit && 0 <= before
    requires var k := m / 2 + 1; Mass(Sums(us[0])[cs[k].index := Accumulated(cs[k..])][p := Accumulated(cs[..k])]) < limit
    ensures SplitFits(us, p, q, cs, m, limit)
    decreases us, 0
  {
    var k, above := m / 2 + 1, Sums(us[0]);
    var left, right := Child(p, Accumulated(cs[..k])), Child(cs[k].index, Accumulated(cs[k..]));
    if us[1..] != [] {
      LevelMass(us[0], sums);
      MassUpdate(above, right.index, right.acc);
      LessOne(|us|, before);
      ParentKeyOK(us[1..], above, p);
      ParentOfRightHalf(us[0], us[1..], p, right.index);
      LightPushFits(us[1..], above, q, right, m, before, limit);
      AfterPushIndexes(us[1..], above, q, right, m);
      var pushed := AfterPush(us[1..], q, right, m).value;
      ParentKeyOK(pushed, above[right.index := right.acc], p);
      LightUpdateFits(pushed, above[right.index := right.acc], ParentKey(pushed, p), left, limit);
    }
  }

  // -------------------------------------------------------------------------------- runs

  /** No sum of the last operation of a run reaches the limit, nor does its value. */
  ghost predicate LastFits(ops: seq<Op>, m: nat, limit: int)
    requires ops != []
  {
    var before, last := ops[..|ops| - 1], ops[|ops| - 1];
    var us, c := TreeAfter(before, m), Child(last.key, NewValue(MapAfter(before), last));
    us.Some? && Abs(c.acc) < limit && PushFits(us.value, ParentKey(us.value, c.index), c, m, limit)
  }

  /** The last operation fits if the values after it, and those before it once for every level,
      weigh less than the limit. */
  lemma LightOperationFits(ops: seq<Op>, m: nat, limit: int)
    requires ops != [] && TreeAfter(ops[..|ops| - 1], m).Some?
    requires Mass(MapAfter(ops)) + |TreeAfter(ops[..|ops| - 1], m).value| * Mass(MapAfter(ops[..|ops| - 1])) < limit
    ensures LastFits(ops, m, limit)
  {
    var us, c, us' := RunStep(ops, m);
    var leaves := MapAfter(ops[..|ops| - 1]);
    MassNonNegative(leaves);
    LessOne(|us|, Mass(leaves));
    SumAtLeast(AbsOf(MapAfter(ops)), c.index);
    LightPushFits(us, leaves, ParentKey(us, c.index), c, m, Mass(leaves), limit);
  }

  lemma HeightTimes(n: int, l: int, before: int, after: int, bound: int)
    requires 0 <= n && n + 1 <= l && 0 <= before <= bound && after <= bound
    ensures after + n * before <= l * bound
  {
    MulMono(n, before, bound);
    MulMono(bound, n + 1, l);
  }

  /** A run whose values never weigh as much as the limit's 65536th part meets no overflow. */
  lemma LightRunFits(ops: seq<Op>, m: nat, i: nat, bound: int, limit: int)
    requires i < |ops| && CodeAfter(ops, m).Levels? && LEVELS * bound < limit
    requires forall j | 0 <= j <= |ops| :: Mass(MapAfter(ops[..j])) <= bound
    ensures LastFits(ops[..i + 1], m, limit)
  {
    UnfoldEnded(ops, m);
    PrefixEnds(ops, m, i);
    UnfoldEnded(ops[..i], m);
    RunEnds(ops[..i], m);
    assert ops[..i + 1][..i] == ops[..i];
    MassNonNegative(MapAfter(ops[..i]));
    HeightTimes(|TreeAfter(ops[..i], m).value|, LEVELS, Mass(MapAfter(ops[..i])), Mass(MapAfter(ops[..i + 1])), bound);
    LightOperationFits(ops[..i + 1], m, limit);
  }

  // ----------------------------------------------------- a sum that does not fit

  /** A key between the two of a node goes between them. */
  lemma SecondSlot(x: int, y: Child, c: Child)
    requires c.index != [] && Rank(c.index) < Rank(y.index)
    ensures SlotFrom([Child([], x), y], c.index, 0) == Slot(1, false)
    ensures Inserted([Child([], x), y], 1, c) == [Child([], x), c, y]
  {
  }

  lemma AccumulatedPair(a: Child, b: Child)
    ensures Accumulated([a, b]) == a.acc + b.acc
  {
    AccumulatedOne(a);
    assert [a, b][..1] == [a];
  }

  lemma AccumulatedOne(a: Child)
    ensures Accumulated([a]) == a.acc
  {
    assert [a][..0] == [];
  }

  /** The tree of the empty key and one other. */
  ghost function OneKey(x: int, y: Child): seq<Level> { [map[[] := [Child([], x), y]]] }

  /** The same after a key between the two, with room for two. */
  ghost function TwoKeys(x: int, c: Child, y: Child): seq<Level> {
    [map[y.index := [y], [] := [Child([], x), c]], map[[] := [Child([], x + c.acc), y]]]
  }

  lemma LoneSplits(x: int, y: Child, c: Child)
    requires c.index != [] && Rank(c.index) < Rank(y.index)
    ensures AfterPush(OneKey(x, y), [], c, 2) == Some(TwoKeys(x, c, y))
  {
    var us, cs := OneKey(x, y), [Child([], x), c, y];
    SecondSlot(x, y, c);
    PushStep(us, [], c, 2);
    SplitAbove(us, [], ParentKey(us[1..], []), cs, 2);
    assert us[1..] == [] && cs[2..] == [y] && cs[..2] == [Child([], x), c];
    AccumulatedPair(Child([], x), c);
    AccumulatedOne(y);
    assert Halves(us[0], [], cs, 2) == TwoKeys(x, c, y)[0];
    assert Created([], [], [Child([], x + c.acc), y]) == [TwoKeys(x, c, y)[1]];
    assert [TwoKeys(x, c, y)[0]] + [TwoKeys(x, c, y)[1]] == TwoKeys(x, c, y);
  }

  /** Pushing a third, smaller key adds the new right half to a sum that still holds it. */
  lemma StaleSum(x: int, c: Child, y: Child, d: Child, limit: int)
    requires d.index != [] && Rank(d.index) < Rank(c.index) < Rank(y.index) && limit <= Abs(x + c.acc + c.acc)
    ensures !PushFits(TwoKeys(x, c, y), [], d, 2, limit)
  {
    var us, cs := TwoKeys(x, c, y), [Child([], x), d, c];
    SecondSlot(x, c, d);
    OwnParent(us[1..], []);
    AccumulatedOne(c);
    assert cs[2..] == [c];
    StaleSplit(x, c, y, limit);
    assert us[1..] == [us[1]];
  }

  lemma StaleSplit(x: int, c: Child, y: Child, limit: int)
    requires c.index != [] && Rank(c.index) < Rank(y.index) && limit <= Abs(x + c.acc + c.acc)
    ensures !PushFits(OneKey(x + c.acc, y), [], Child(c.index, c.acc), 2, limit)
  {
    var cs := [Child([], x + c.acc), c, y];
    SecondSlot(x + c.acc, y, c);
    AccumulatedPair(Child([], x + c.acc), c);
    assert cs[..2][..2] == [Child([], x + c.acc), c];
  }

  lemma LeftmostParent(ops: seq<Op>, us: seq<Level>, key: Bytes)
    requires TreeAfter(ops, 2) == Some(us) && forall k | k in MapAfter(ops) && k != [] :: Rank(key) < Rank(k)
    ensures us != [] && ParentKey(us, key) == []
  {
    RunIndexes(ops, 2);
    LeftOfAll(us, MapAfter(ops), key);
  }

  /** Even if every value and every sum of values fits, a sum in the tree may not: the third of
      three keys in descending order makes one that counts the second key's value twice. */
  lemma StaleSumsOverflow(a: Bytes, b: Bytes, c: Bytes, v: int, limit: int)
    requires c != [] && Rank(c) < Rank(b) < Rank(a) && 0 <= v < limit <= 2 * v
    ensures var ops := [SetTo(a, 0), SetTo(b, v), SetTo(c, 0)];
            Mass(MapAfter(ops)) < limit && !LastFits(ops, 2, limit)
  {
    var one, two, three := [SetTo(a, 0)], [SetTo(a, 0), SetTo(b, v)], [SetTo(a, 0), SetTo(b, v), SetTo(c, 0)];
    assert one[..0] == [] && two[..1] == one && three[..2] == two;
    assert MapAfter([]) == map[[] := 0];
    assert MapAfter(one) == map[[] := 0, a := 0];
    assert MapAfter(two) == map[[] := 0, a := 0, b := v];
    assert MapAfter(three) == map[[] := 0, a := 0, b := v, c := 0];
    LeftmostParent([], NewLevels(), a);
    FirstKeyShape(Child(a, 0));
    LeftmostParent(one, OneKey(0, Child(a, 0)), b);
    LoneSplits(0, Child(a, 0), Child(b, v));
    LeftmostParent(two, TwoKeys(0, Child(b, v), Child(a, 0)), c);
    StaleSum(0, Child(b, v), Child(a, 0), Child(c, 0), limit);
    ThreeMass(a, b, c, v);
  }

  lemma FirstKeyShape(y: Child)
    requires y.index != []
    ensures AfterPush(NewLevels(), [], y, 2) == Some(OneKey(0, y))
  {
    PushStep(NewLevels(), [], y, 2);
    assert SlotFrom([Child([], 0)], y.index, 0) == Slot(1, false);
    assert NewLevels()[1..] == [];
    UpdateAbsent([], ParentKey([], []), Child([], Accumulated([Child([], 0), y])));
    assert Inserted([Child([], 0)], 1, y) == [Child([], 0), y];
    assert NewLevels()[0][[] := [Child([], 0), y]] == OneKey(0, y)[0];
    assert [OneKey(0, y)[0]] + [] == OneKey(0, y);
  }

  lemma ThreeMass(a: Bytes, b: Bytes, c: Bytes, v: int)
    requires c != [] && Rank(c) < Rank(b) < Rank(a) && v >= 0
    ensures Mass(map[[] := 0, a := 0, b := v, c := 0]) == v
  {
    var none: map<Bytes, int> := map[];
    assert AbsOf(none) == map[];
    MassUpdate(none, [], 0);
    MassUpdate(none[[] := 0], a, 0);
    MassUpdate(none[[] := 0][a := 0], b, v);
    MassUpdate(none[[] := 0][a := 0][b := v], c, 0);
    assert map[[] := 0, a := 0, b := v, c := 0] == none[[] := 0][a := 0][b := v][c := 0];
  }
}
