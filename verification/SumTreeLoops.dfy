/** The run that never returns: the half-done push it is in, and the walk it does not leave. */
module SumTreeLoops {
  import opened ByteKeys
  import opened Folding
  import opened Options
  import opened SumTreeLevels
  import opened SumTreeEdits
  import opened SumTreeCounter
  import opened SumTreeRuns
  import opened SumTreeStore

  /** The update walk a push is in: `below`, the levels it has passed, where right halves are
      stored and left halves are not yet; `us`, the levels the walk starts on, at `p` with `c`. */
  datatype Walk = Walk(below: seq<Level>, us: seq<Level>, p: Bytes, c: Child)

  /** The walk that a push enters last: the one it does not leave, if it loops. */
  ghost function LastWalk(us: seq<Level>, l: nat, p: Bytes, c: Child, m: nat): Walk
    decreases us, 1
  {
    if us == [] || p !in us[0] || SlotFrom(us[0][p], c.index, 0).found then Walk([], us, p, c) else
      var cs, q, k := WithChild(us[0], p, c), ParentKey(us[1..], p), m / 2 + 1;
      if |cs| <= m || k >= |cs| then Walk([us[0]], us[1..], q, Child(p, Accumulated(cs))) else
        Above(us[0][cs[k].index := cs[k..]], SplitWalk(us, l, p, q, cs, m))
  }

  /** The same for the levels above a node that splits. */
  ghost function SplitWalk(us: seq<Level>, l: nat, p: Bytes, q: Bytes, cs: Node, m: nat): Walk
    requires us != [] && m / 2 + 1 < |cs|
    decreases us, 0
  {
    var k := m / 2 + 1;
    var left, right := Child(p, Accumulated(cs[..k])), Child(cs[k].index, Accumulated(cs[k..]));
    var pushed := PushAt(us[1..], l + 1, q, right, m);
    if pushed.Levels? then Walk([], pushed.levels, ParentKey(pushed.levels, p), left)
    else LastWalk(us[1..], l + 1, q, right, m)
  }

  ghost function Above(nodes: Level, w: Walk): Walk { Walk([nodes] + w.below, w.us, w.p, w.c) }

  /** The walk takes up the counter and goes round it. */
  ghost predicate Stuck(w: Walk, l: nat) {
    && w.us != [] && l + |w.below| + |w.us| == LEVELS
    && Spine(w.below) && Spine(w.us) && w.us[|w.us| - 1].Keys == {[]}
    && UpdateAt(w.us, l + |w.below|, w.p, w.c) == Loops
  }

  lemma SpineCons(nodes: Level, us: seq<Level>)
    requires StartsEmpty(nodes) && Spine(us)
    ensures Spine([nodes] + us)
  {
  }

  lemma {:induction false} IndexesSpine(us: seq<Level>, sums: map<Bytes, int>)
    requires us != [] && Indexes(us, sums)
    ensures Spine(us) && us[|us| - 1].Keys == {[]}
  {
    UnfoldIndex(us[0], sums);
    assert StartsEmpty(us[0]);
    if us[1..] == [] {
      LoneLevel(us, sums);
    } else {
      IndexesSpine(us[1..], Sums(us[0]));
      SpineCons(us[0], us[1..]);
      assert us == [us[0]] + us[1..];
    }
  }

  lemma StuckAbove(nodes: Level, w: Walk, l: nat)
    requires StartsEmpty(nodes) && Stuck(w, l + 1)
    ensures Stuck(Above(nodes, w), l)
  {
    assert l + |[nodes] + w.below| == l + 1 + |w.below|;
  }

  /** The right half stands right of the empty key. */
  lemma RightStored(nodes: Level, sums: map<Bytes, int>, rk: Bytes, cs: Node)
    requires IsIndex(nodes, sums) && rk !in nodes
    ensures StartsEmpty(nodes[rk := cs])
  {
    UnfoldIndex(nodes, sums);
  }

  /** A looping push is a half-done one inside a walk that goes round the counter. */
  lemma {:induction false} PushGetsStuck(us: seq<Level>, sums: map<Bytes, int>, l: nat, p: Bytes, c: Child, m: nat)
    requires us != [] && Indexes(us, sums) && IsFloor(us[0].Keys, p, c.index) && l + |us| < LEVELS
    requires PushAt(us, l, p, c, m) == Loops
    ensures Stuck(LastWalk(us, l, p, c, m), l)
    decreases us, 1
  {
    WithChildOK(us[0], sums, p, c);
    PushAtStep(us, l, p, c, m);
    if c.index in sums {
      UpdateEnds(us, sums, l, p, c);
    } else {
      var cs, q, k := WithChild(us[0], p, c), ParentKey(us[1..], p), m / 2 + 1;
      ParentKeyOK(us[1..], Sums(us[0]), p);
      if |cs| <= m {
        UpdateEnds(us[1..], Sums(us[0]), l + 1, q, Child(p, Accumulated(cs)));
      } else {
        SplitOK(us[0], sums[c.index := c.acc], p, cs, k);
        RightStored(us[0], sums, cs[k].index, cs[k..]);
        SplitGetsStuck(us, sums, l, p, q, cs, m);
        StuckAbove(us[0][cs[k].index := cs[k..]], SplitWalk(us, l, p, q, cs, m), l);
      }
    }
  }

  lemma {:induction false} SplitGetsStuck(us: seq<Level>, sums: map<Bytes, int>, l: nat, p: Bytes, q: Bytes, cs: Node, m: nat)
    requires us != [] && Indexes(us, sums) && p in us[0] && q == ParentKey(us[1..], p) && l + |us| < LEVELS
    requires m / 2 + 1 < |cs|
    requires IsFloor(us[0].Keys, p, cs[m / 2 + 1].index) && cs[m / 2 + 1].index !in us[0]
    requires HalvesAt(us, l, p, q, cs, m) == Loops
    ensures Stuck(SplitWalk(us, l, p, q, cs, m), l + 1)
    decreases us, 0
  {
    var k, above := m / 2 + 1, Sums(us[0]);
    var left, right := Child(p, Accumulated(cs[..k])), Child(cs[k].index, Accumulated(cs[k..]));
    HalvesAtAbove(us, l, p, q, cs, m);
    ParentKeyOK(us[1..], above, p);
    if us[1..] != [] {
      ParentOfRightHalf(us[0], us[1..], p, right.index);
      AboveGetsStuck(us[1..], above, l + 1, p, q, left, right, m, PushAt(us[1..], l + 1, q, right, m));
    }
  }

  lemma {:induction false} AboveGetsStuck(us: seq<Level>, sums: map<Bytes, int>, l: nat, p: Bytes, q: Bytes, left: Child, right: Child, m: nat, o: Outcome)
    requires us != [] && Indexes(us, sums) && IsFloor(us[0].Keys, q, right.index) && p in sums && left.index == p
    requires l + |us| < LEVELS && o == PushAt(us, l, q, right, m)
    requires o == Loops || (o.Levels? && UpdateAt(o.levels, l, ParentKey(o.levels, p), left) == Loops)
    ensures Stuck(if o.Levels? then Walk([], o.levels, ParentKey(o.levels, p), left) else LastWalk(us, l, q, right, m), l)
    decreases us, 2
  {
    if o.Levels? {
      PushEnds(us, sums, l, q, right, m);
      RepairStuck(us, sums, l, p, q, left, right, m, o.levels, ParentKey(o.levels, p));
    } else {
      PushGetsStuck(us, sums, l, q, right, m);
    }
  }

  /** The right half went up; writing the left half's sum goes round. */
  lemma {:induction false} RepairStuck(us: seq<Level>, sums: map<Bytes, int>, l: nat, p: Bytes, q: Bytes, left: Child, right: Child, m: nat,
                    pushed: seq<Level>, q': Bytes)
    requires us != [] && Indexes(us, sums) && IsFloor(us[0].Keys, q, right.index) && p in sums && left.index == p
    requires l + |us| < LEVELS && AfterPush(us, q, right, m) == Some(pushed) && q' == ParentKey(pushed, p)
    requires UpdateAt(pushed, l, q', left) == Loops
    ensures Stuck(Walk([], pushed, q', left), l)
  {
    AfterPushIndexes(us, sums, q, right, m);
    FillsCounter(us, sums, l, p, q, left, right, m, pushed, q');
    IndexesSpine(pushed, sums[right.index := right.acc]);
  }

  lemma {:induction false} FillsCounter(us: seq<Level>, sums: map<Bytes, int>, l: nat, p: Bytes, q: Bytes, left: Child, right: Child, m: nat,
                     pushed: seq<Level>, q': Bytes)
    requires us != [] && Indexes(us, sums) && IsFloor(us[0].Keys, q, right.index) && p in sums && left.index == p
    requires AfterPush(us, q, right, m) == Some(pushed) && q' == ParentKey(pushed, p) && UpdateAt(pushed, l, q', left) == Loops
    ensures l + |pushed| >= LEVELS
  {
    RepairEnds(us, sums, l, p, q, left, right, m);
  }

  /** The levels in the store during a walk, the leaves first. */
  ghost function StoreDuring(w: Walk, leaves: map<Bytes, int>): seq<Level> { [LeafLevel(leaves)] + w.below + w.us }

  /** The store takes up the counter, and the walk does not end within `n` calls. */
  ghost predicate GoesOn(w: Walk, leaves: map<Bytes, int>, n: nat) {
    |StoreDuring(w, leaves)| == LEVELS && !Ends(StoreDuring(w, leaves), 1 + |w.below|, w.p, w.c, n)
  }

  /** No number of calls ends a walk that is stuck, over whatever leaves hold the empty key. */
  lemma {:induction false} StuckNeverEnds(w: Walk, leaves: map<Bytes, int>, n: nat)
    requires Stuck(w, 1) && [] in leaves
    ensures GoesOn(w, leaves, n)
  {
    var ls := StoreDuring(w, leaves);
    assert ls[1 + |w.below|..] == w.us;
    assert ls[LEVELS - 1] == w.us[|w.us| - 1];
    forall i | 0 <= i < |ls|
      ensures StartsEmpty(ls[i])
    {
      assert 0 < i <= |w.below| ==> ls[i] == w.below[i - 1];
      assert i > |w.below| ==> ls[i] == w.us[i - 1 - |w.below|];
    }
    LoopsNeverEnds(ls, 1 + |w.below|, w.p, w.c, n);
  }

  ghost function SetWalkOf(y: (seq<Level>, Child, nat)): Walk { LastWalk(y.0, 1, ParentKey(y.0, y.1.index), y.1, y.2) }

  /** The last walk of `Set` on the levels `us`; kept folded. */
  ghost function SetWalk(us: seq<Level>, c: Child, m: nat): Walk { FoldedFn(SetWalkOf)((us, c, m)) }

  lemma {:induction false} EmptyKeyStays(ops: seq<Op>)
    ensures [] in MapAfter(ops)
  {
    if ops != [] {
      EmptyKeyStays(ops[..|ops| - 1]);
    }
  }

  lemma {:induction false} RunGetsStuck(before: seq<Op>, last: Op, m: nat, us: seq<Level>, c: Child)
    requires CodeAfter(before, m) == Levels(us) && CodeAfter(before + [last], m) == Loops
    requires c == Child(last.key, NewValue(MapAfter(before), last))
    ensures Stuck(SetWalk(us, c, m), 1)
  {
    RunEnds(before, m);
    assert (before + [last])[..|before|] == before;
    var us', c', after := RunStep(before + [last], m);
    UnfoldPushAt(us, 1, ParentKey(us, c.index), c, m);
    PushGetsStuck(us, MapAfter(before), 1, ParentKey(us, c.index), c, m);
    UnfoldFn(SetWalkOf, (us, c, m));
  }

  /** The operation that uses up the counter: its leaf is written, its push is half done, and
      the store it has made so far is one on which its update walk makes any number of calls
      without returning. */
  lemma {:induction false} LoopingRunNeverReturns(before: seq<Op>, last: Op, m: nat, us: seq<Level>, c: Child, n: nat)
    requires CodeAfter(before, m) == Levels(us) && CodeAfter(before + [last], m) == Loops
    requires c == Child(last.key, NewValue(MapAfter(before), last))
    ensures GoesOn(SetWalk(us, c, m), MapAfter(before)[c.index := c.acc], n)
  {
    RunGetsStuck(before, last, m, us, c);
    EmptyKeyStays(before);
    StuckNeverEnds(SetWalk(us, c, m), MapAfter(before)[c.index := c.acc], n);
  }

  ghost function CodeTuple(y: (seq<Op>, nat)): Outcome { CodeAfter(y.0, y.1) }

  /** `CodeAfter`, kept folded. */
  ghost function Code(ops: seq<Op>, m: nat): Outcome { FoldedFn(CodeTuple)((ops, m)) }

  lemma UnfoldCode(ops: seq<Op>, m: nat)
    ensures Code(ops, m) == CodeAfter(ops, m)
  {
    UnfoldFn(CodeTuple, (ops, m));
  }

  lemma LoopsBefore(ops: seq<Op>, m: nat)
    requires Code(ops, m) == Loops
    ensures ops != [] && (Code(ops[..|ops| - 1], m).Levels? || Code(ops[..|ops| - 1], m) == Loops)
  {
    UnfoldCode(ops, m);
    if ops != [] {
      UnfoldCode(ops[..|ops| - 1], m);
    }
  }

  lemma {:induction false} FirstLoop(ops: seq<Op>, m: nat) returns (i: nat)
    requires Code(ops, m) == Loops
    ensures i < |ops| && Code(ops[..i], m).Levels? && Code(ops[..i + 1], m) == Loops
  {
    LoopsBefore(ops, m);
    if Code(ops[..|ops| - 1], m).Levels? {
      i := |ops| - 1;
      assert ops[..i + 1] == ops;
    } else {
      i := FirstLoop(ops[..|ops| - 1], m);
      assert ops[..|ops| - 1][..i] == ops[..i] && ops[..|ops| - 1][..i + 1] == ops[..i + 1];
    }
  }

  /** Every run that loops has such an operation. */
  lemma LoopBegins(ops: seq<Op>, m: nat) returns (i: nat)
    requires CodeAfter(ops, m) == Loops
    ensures i < |ops| && CodeAfter(ops[..i], m).Levels? && CodeAfter(ops[..i + 1], m) == Loops
  {
    UnfoldCode(ops, m);
    i := FirstLoop(ops, m);
    UnfoldCode(ops[..i], m);
    UnfoldCode(ops[..i + 1], m);
  }
}
