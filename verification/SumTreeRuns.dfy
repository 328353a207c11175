/** Whole runs of the tree against the plain map, with the 16-bit level counter. */
module SumTreeRuns {
  import opened ByteKeys
  import FixedPoint
  import opened Folding
  import opened MapSums
  import opened Options
  import opened SumTreeLevels
  import opened SumTreeEdits
  import opened SumTreeHeight
  import opened SumTreeGrowth
  import opened SumTreeCounter
  import opened SumTreeQueries
  import opened SumTreeStore
  import opened SumTree

  datatype Op = SetTo(key: Bytes, value: int) | IncreaseBy(key: Bytes, amt: int) | DecreaseBy(key: Bytes, amt: int)

  /** The value the operation gives to its key. */
  function NewValue(leaves: map<Bytes, int>, op: Op): int {
    match op
    case SetTo(k, v) => v
    case IncreaseBy(k, a) => Get(leaves, k) + a
    case DecreaseBy(k, a) => Get(leaves, k) - a
  }

  /** The plain map after a run from `NewTree`. */
  function MapAfter(ops: seq<Op>): map<Bytes, int> {
    if ops == [] then map[[] := 0] else
      var before := MapAfter(ops[..|ops| - 1]);
      before[ops[|ops| - 1].key := NewValue(before, ops[|ops| - 1])]
  }

  ghost function NewLevels(): seq<Level> { [map[[] := [Child([], 0)]]] }

  /** The tree's levels after the same run if levels had no bound; `None` if some operation panicked. */
  ghost function TreeAfter(ops: seq<Op>, m: nat): Option<seq<Level>> {
    if ops == [] then Some(NewLevels()) else
      var before :- TreeAfter(ops[..|ops| - 1], m);
      var last := ops[|ops| - 1];
      WithEntry(before, last.key, NewValue(MapAfter(ops[..|ops| - 1]), last), m)
  }

  /** The same run with the counter the code has. */
  ghost function CodeAfter(ops: seq<Op>, m: nat): Outcome {
    if ops == [] then Levels(NewLevels()) else
      var before, last := CodeAfter(ops[..|ops| - 1], m), ops[|ops| - 1];
      if !before.Levels? then before else
        var c := Child(last.key, NewValue(MapAfter(ops[..|ops| - 1]), last));
        PushedAt(before.levels, 1, ParentKey(before.levels, c.index), c, m)
  }

  lemma {:induction false} RunIndexes(ops: seq<Op>, m: nat)
    ensures var us := TreeAfter(ops, m);
            us.Some? && us.value != [] && Indexes(us.value, MapAfter(ops)) && Sized(us.value, m, true)
  {
    if ops == [] {
      FirstTree(0);
      SizedCons(map[[] := [Child([], 0)]], [], m, true);
    } else {
      var before, last := ops[..|ops| - 1], ops[|ops| - 1];
      RunIndexes(before, m);
      WithEntryOK(TreeAfter(before, m).value, MapAfter(before), last.key, NewValue(MapAfter(before), last), m);
    }
  }

  lemma RunStep(ops: seq<Op>, m: nat) returns (us: seq<Level>, c: Child, us': seq<Level>)
    requires ops != []
    ensures TreeAfter(ops[..|ops| - 1], m) == Some(us) && us != [] && Indexes(us, MapAfter(ops[..|ops| - 1]))
    ensures c == Child(ops[|ops| - 1].key, NewValue(MapAfter(ops[..|ops| - 1]), ops[|ops| - 1]))
    ensures IsFloor(us[0].Keys, ParentKey(us, c.index), c.index)
    ensures AfterPush(us, ParentKey(us, c.index), c, m) == TreeAfter(ops, m) == Some(us')
    ensures |us| <= |us'| <= |us| + 1
  {
    RunIndexes(ops, m);
    RunIndexes(ops[..|ops| - 1], m);
    us, us' := TreeAfter(ops[..|ops| - 1], m).value, TreeAfter(ops, m).value;
    c := Child(ops[|ops| - 1].key, NewValue(MapAfter(ops[..|ops| - 1]), ops[|ops| - 1]));
    ParentKeyOK(us, MapAfter(ops[..|ops| - 1]), c.index);
    UnfoldPush(us, ParentKey(us, c.index), c, m);
  }

  /** The code's run is the unbounded one exactly as long as the tree leaves the counter
      one level above it; the operation that would grow it further never returns. */
  lemma {:induction false} RunEnds(ops: seq<Op>, m: nat)
    ensures EndsIff(CodeAfter(ops, m), TreeAfter(ops, m), TreeAfter(ops, m).Some? && |TreeAfter(ops, m).value| + 1 < LEVELS)
  {
    if ops != [] {
      RunEnds(ops[..|ops| - 1], m);
      var us, c, us' := RunStep(ops, m);
      if |us| + 1 < LEVELS {
        PushEnds(us, MapAfter(ops[..|ops| - 1]), 1, ParentKey(us, c.index), c, m);
        UnfoldPushAt(us, 1, ParentKey(us, c.index), c, m);
      }
    }
  }

  /** A tree is never higher than it has keys; with room for fewer than two children it is
      exactly as high. */
  lemma {:induction false} HeightAndKeys(ops: seq<Op>, m: nat)
    ensures TreeAfter(ops, m).Some? && |TreeAfter(ops, m).value| <= |MapAfter(ops)|
    ensures m < 2 ==> |TreeAfter(ops, m).value| == |MapAfter(ops)|
  {
    if ops != [] {
      HeightAndKeys(ops[..|ops| - 1], m);
      var us, c, us' := RunStep(ops, m);
      var leaves := MapAfter(ops[..|ops| - 1]);
      SizeUpdate(leaves, c.index, c.acc);
      if c.index in leaves {
        KnownKeyKeepsHeight(us, leaves, ParentKey(us, c.index), c, m);
      } else if m < 2 {
        NarrowGrows(us, leaves, ParentKey(us, c.index), c, m);
      }
    }
  }

  /** Every run, whatever `m` and shape: it ends if and only if the counter can leave the
      top level, no operation panics, and then the split at every key gives the plain map's
      sums.  Fewer than 65535 keys are always few enough, and for m < 2 no more are. */
  lemma RunRefinesMap(ops: seq<Op>, m: nat, key: Bytes)
    ensures TreeAfter(ops, m).Some? && CodeAfter(ops, m) != Panics
    ensures CodeAfter(ops, m).Levels? <==> |TreeAfter(ops, m).value| + 1 < LEVELS
    ensures CodeAfter(ops, m).Levels? ==>
              var us, leaves := CodeAfter(ops, m).levels, MapAfter(ops);
              && us != []
              && SplitAt(leaves, us, |us|, [], key) == Some(Split(Below(leaves, key), Get(leaves, key), Above(leaves, key)))
    ensures |MapAfter(ops)| + 1 < LEVELS ==> CodeAfter(ops, m).Levels?
    ensures m < 2 && CodeAfter(ops, m).Levels? ==> |MapAfter(ops)| + 1 < LEVELS
  {
    RunIndexes(ops, m);
    RunEnds(ops, m);
    HeightAndKeys(ops, m);
    SplitOfMap(MapAfter(ops), TreeAfter(ops, m).value, key);
  }

  /** The height is logarithmic for m >= 3, so that 2^65535 keys are needed to use up the counter. */
  lemma WideRunsEnd(ops: seq<Op>, m: nat, h: nat)
    requires m >= 3 && h == 65535
    ensures TreeAfter(ops, m).Some?
    ensures var us := TreeAfter(ops, m).value; |us| == 1 || FixedPoint.Pow2(|us|) <= |MapAfter(ops)|
    ensures |MapAfter(ops)| < FixedPoint.Pow2(h) ==> CodeAfter(ops, m).Levels?
  {
    RunIndexes(ops, m);
    RunEnds(ops, m);
    var us := TreeAfter(ops, m).value;
    HeightBound(us, MapAfter(ops), m);
    if h <= |us| {
      FixedPoint.Pow2Grows(h, |us|);
    }
  }

  lemma LastMeetsSet(ops: seq<Op>, m: nat)
    requires ops != [] && CodeAfter(ops, m).Levels?
    ensures var before, last := ops[..|ops| - 1], ops[|ops| - 1];
            && CodeAfter(before, m).Levels? && TreeAfter(before, m).Some?
            && RoomFor(TreeAfter(before, m).value, last.key, NewValue(MapAfter(before), last), m)
  {
    RunEnds(ops, m);
    var us, c, us' := RunStep(ops, m);
  }

  ghost predicate EndedPair(y: (seq<Op>, nat)) { CodeAfter(y.0, y.1).Levels? }

  /** The run ends; kept folded. */
  ghost predicate Ended(ops: seq<Op>, m: nat) { Folded(EndedPair)((ops, m)) }

  lemma UnfoldEnded(ops: seq<Op>, m: nat)
    ensures Ended(ops, m) <==> CodeAfter(ops, m).Levels?
  {
    Unfold(EndedPair, (ops, m));
  }

  lemma EndedBefore(ops: seq<Op>, m: nat)
    requires ops != [] && Ended(ops, m)
    ensures Ended(ops[..|ops| - 1], m)
  {
    UnfoldEnded(ops, m);
    UnfoldEnded(ops[..|ops| - 1], m);
  }

  lemma {:induction false} PrefixEnds(ops: seq<Op>, m: nat, j: nat)
    requires j <= |ops| && Ended(ops, m)
    ensures Ended(ops[..j], m)
    decreases |ops|
  {
    if j == |ops| {
      assert ops[..j] == ops;
    } else {
      EndedBefore(ops, m);
      PrefixEnds(ops[..|ops| - 1], m, j);
      assert ops[..|ops| - 1][..j] == ops[..j];
    }
  }

  lemma LastEnded(ops: seq<Op>, m: nat, before: seq<Op>, last: Op)
    requires ops != [] && Ended(ops, m) && before == ops[..|ops| - 1] && last == ops[|ops| - 1]
    ensures TreeAfter(before, m).Some?
    ensures RoomFor(TreeAfter(before, m).value, last.key, NewValue(MapAfter(before), last), m)
  {
    UnfoldEnded(ops, m);
    LastMeetsSet(ops, m);
  }

  /** In a run that ends, every operation finds the tree low enough for `Tree.Set`. */
  lemma RunMeetsSet(ops: seq<Op>, m: nat, i: nat)
    requires i < |ops| && CodeAfter(ops, m).Levels?
    ensures var before := ops[..i];
            && TreeAfter(before, m).Some?
            && RoomFor(TreeAfter(before, m).value, ops[i].key, NewValue(MapAfter(before), ops[i]), m)
  {
    UnfoldEnded(ops, m);
    PrefixEnds(ops, m, i + 1);
    assert ops[..i + 1][..i] == ops[..i];
    LastEnded(ops[..i + 1], m, ops[..i], ops[i]);
  }

  // ------------------------------------------------------------ runs that use up the counter

  /** New keys, each below all before it. */
  ghost predicate Descending(ops: seq<Op>) {
    && (forall i | 0 <= i < |ops| :: ops[i].key != [])
    && (forall i, j | 0 <= i < j < |ops| :: Rank(ops[j].key) < Rank(ops[i].key))
  }

  lemma {:induction false} KeyAfter(ops: seq<Op>, k: Bytes)
    requires k in MapAfter(ops) && k != []
    ensures exists i | 0 <= i < |ops| :: ops[i].key == k
  {
    var before, last := ops[..|ops| - 1], ops[|ops| - 1];
    if k != last.key {
      KeyAfter(before, k);
      var i :| 0 <= i < |before| && before[i].key == k;
      assert ops[i].key == k;
    }
  }

  /** The last of descending keys is below all that the map had. */
  lemma LastIsLeast(ops: seq<Op>, k: Bytes)
    requires Descending(ops) && ops != [] && k in MapAfter(ops[..|ops| - 1]) && k != []
    ensures Rank(ops[|ops| - 1].key) < Rank(k)
  {
    KeyAfter(ops[..|ops| - 1], k);
  }

  lemma {:induction false} DescendingKeys(ops: seq<Op>)
    requires Descending(ops)
    ensures |MapAfter(ops)| == |ops| + 1
  {
    if ops != [] {
      var before, last := ops[..|ops| - 1], ops[|ops| - 1];
      DescendingKeys(before);
      if last.key in MapAfter(before) {
        LastIsLeast(ops, last.key);
      }
      SizeUpdate(MapAfter(before), last.key, NewValue(MapAfter(before), last));
    }
  }

  lemma LeftOfAll(us: seq<Level>, leaves: map<Bytes, int>, key: Bytes)
    requires us != [] && Indexes(us, leaves) && forall k | k in leaves && k != [] :: Rank(key) < Rank(k)
    ensures IsFloor(us[0].Keys, [], key) && ParentKey(us, key) == []
  {
    UnfoldIndex(us[0], leaves);
    assert forall x | x in us[0] :: us[0][x][0].index == x && x in leaves;
    ParentKeyOK(us, leaves, key);
    FloorUnique(us[0].Keys, [], ParentKey(us, key), key);
  }

  lemma FirstKey(c: Child)
    requires c.index != []
    ensures AfterPush(NewLevels(), [], c, 2).Some?
    ensures var us := AfterPush(NewLevels(), [], c, 2).value; |us| == 1 && LeftFull(us)
  {
    PushStep(NewLevels(), [], c, 2);
    assert SlotFrom([Child([], 0)], c.index, 0) == Slot(1, false);
    assert NewLevels()[1..] == [];
    UpdateAbsent([], ParentKey([], []), Child([], Accumulated([Child([], 0), c])));
    assert Inserted([Child([], 0)], 1, c) == [Child([], 0), c];
  }

  /** With room for two, n new keys in descending order make a tree of height n. */
  lemma {:induction false} DescendingHeight(ops: seq<Op>)
    requires Descending(ops) && ops != []
    ensures TreeAfter(ops, 2).Some? && |TreeAfter(ops, 2).value| == |ops| && LeftFull(TreeAfter(ops, 2).value)
  {
    var before := ops[..|ops| - 1];
    var us, c, us' := RunStep(ops, 2);
    forall k | k in MapAfter(before) && k != []
      ensures Rank(c.index) < Rank(k)
    {
      LastIsLeast(ops, k);
    }
    LeftOfAll(us, MapAfter(before), c.index);
    if before == [] {
      FirstKey(c);
    } else {
      DescendingHeight(before);
      LeftFullGrows(us, MapAfter(before), c);
    }
  }

  function Zeros(n: nat): Bytes { if n == 0 then [] else [0] + Zeros(n - 1) }

  lemma {:induction false} ZerosOrder(a: nat, b: nat)
    requires a < b
    ensures Rank(Zeros(a)) < Rank(Zeros(b))
  {
    if a > 0 {
      ZerosOrder(a - 1, b - 1);
      RankCons(0, Zeros(a - 1), 0, Zeros(b - 1));
    }
  }

  /** n keys of zeros, the longest first. */
  function Countdown(n: nat): seq<Op> { seq(n, i requires 0 <= i < n => SetTo(Zeros(n - i), 1)) }

  lemma CountdownDescends(n: nat)
    ensures Descending(Countdown(n))
  {
    var ops := Countdown(n);
    forall i | 0 <= i < n
      ensures ops[i].key != []
    {
      ZerosOrder(0, n - i);
    }
    forall i, j | 0 <= i < j < n
      ensures Rank(ops[j].key) < Rank(ops[i].key)
    {
      ZerosOrder(n - j, n - i);
    }
  }

  /** With room for two or fewer, some runs use up the counter: these do so with 65535 keys,
      or 65534, and no sooner. */
  lemma CountdownLoops(n: nat, m: nat)
    requires m <= 2 && n > 0
    ensures CodeAfter(Countdown(n), m) == Loops <==> n + (if m == 2 then 1 else 2) >= 65536
  {
    var ops := Countdown(n);
    CountdownDescends(n);
    RunEnds(ops, m);
    if m == 2 {
      DescendingHeight(ops);
    } else {
      HeightAndKeys(ops, m);
      DescendingKeys(ops);
    }
  }

  lemma TreeHasSpine(leaves: map<Bytes, int>, upper: seq<Level>)
    requires Indexes(upper, leaves) && [] in leaves
    ensures Spine([LeafLevel(leaves)] + upper)
  {
    var ls: seq<Level> := [LeafLevel(leaves)] + upper;
    forall i | 0 <= i < |ls|
      ensures StartsEmpty(ls[i])
    {
      if i > 0 {
        IndexesFrom(upper, leaves, i - 1);
        UnfoldIndex(upper[i - 1], SumsAt(leaves, upper, i - 1));
        assert upper[i - 1..][0] == ls[i];
      }
    }
  }

  /** What a loop is: on a tree that takes up the whole counter, the update that follows the
      change of any key's value never returns, however many calls it makes. */
  lemma FullTreeNeverReturns(leaves: map<Bytes, int>, upper: seq<Level>, c: Child, n: nat)
    requires upper != [] && Indexes(upper, leaves) && [] in leaves && |upper| + 1 == LEVELS && c.index in leaves
    ensures !Ends([LeafLevel(leaves)] + upper, 1, ParentKey(upper, c.index), c, n)
  {
    var ls: seq<Level> := [LeafLevel(leaves)] + upper;
    TreeHasSpine(leaves, upper);
    TopIsEmptyKey(upper, leaves);
    ParentKeyOK(upper, leaves, c.index);
    UpdateEnds(upper, leaves, 1, ParentKey(upper, c.index), c);
    assert ls[1..] == upper && ls[LEVELS - 1] == upper[|upper| - 1];
    LoopsNeverEnds(ls, 1, ParentKey(upper, c.index), c, n);
  }

  // ------------------------------------------------------------------------------ the total

  /** After one `Set` of any key but the empty one, what `TotalAccumulatedValue` returns is zero
      and the total is the value set. */
  lemma TotalMissesKeys(key: Bytes, v: int)
    requires key != []
    ensures var leaves := MapAfter([SetTo(key, v)]); SubsetSum(leaves, None, None) == 0 && Sum(leaves) == v
  {
    var ops := [SetTo(key, v)];
    assert ops[..|ops| - 1] == [];
    var leaves := MapAfter(ops);
    var before: map<Bytes, int> := MapAfter([]);
    SumUpdate(before, key, v);
    SumPick(before, []);
    assert before - {[]} == map[];
    EmptyKeyIsLeast(leaves);
  }
}
