/** The edits of `SumTreeEdits` with the level kept in a 16-bit counter.

    Above level 65535 the counter is back at zero, where it finds the leaf of
    the empty key.  A leaf is encoded like a branch with one child, so the walk
    goes on through the whole tree, again and again: `Loops`. */
module SumTreeCounter {
  import opened ByteKeys
  import opened Folding
  import opened Options
  import opened SumTreeLevels
  import opened SumTreeEdits
  import opened SumTreeStore

  datatype Outcome = Levels(levels: seq<Level>) | Panics | Loops

  /** What became of the levels above, with `nodes` under them. */
  ghost function Under(nodes: Level, rest: Outcome): Outcome {
    if rest.Levels? then Levels([nodes] + rest.levels) else rest
  }

  /** `updateAccumulation` on the levels `us`, the lowest of which is level `l`. */
  ghost function UpdatedAt(us: seq<Level>, l: nat, p: Bytes, c: Child): Outcome {
    if us == [] then (if l < LEVELS then Levels(us) else Loops)
    else if p !in us[0] then Levels(us)
    else
      var s := SlotFrom(us[0][p], c.index, 0);
      if !s.found then Panics else
      var cs := us[0][p][s.idx := Child(c.index, c.acc)];
      Under(us[0][p := cs], UpdatedAt(us[1..], l + 1, ParentKey(us[1..], p), Child(p, Accumulated(cs))))
  }

  /** `push` on the levels `us`, the lowest of which is level `l`. */
  ghost function PushedAt(us: seq<Level>, l: nat, p: Bytes, c: Child, m: nat): Outcome
    decreases us, 1
  {
    if us == [] || p !in us[0] then Levels(Created(us, p, [c])) else
      var s := SlotFrom(us[0][p], c.index, 0);
      if s.found then UpdatedAt(us, l, p, c) else
      var cs := Inserted(us[0][p], s.idx, c);
      var q := ParentKey(us[1..], p);
      if |cs| <= m then Under(us[0][p := cs], UpdatedAt(us[1..], l + 1, q, Child(p, Accumulated(cs))))
      else if m / 2 + 1 >= |cs| then Panics
      else Under(Halves(us[0], p, cs, m / 2 + 1), PushedSplitAt(us, l, p, q, cs, m))
  }

  ghost function PushedSplitAt(us: seq<Level>, l: nat, p: Bytes, q: Bytes, cs: Node, m: nat): Outcome
    requires us != [] && m / 2 + 1 < |cs|
    decreases us, 0
  {
    var k := m / 2 + 1;
    var left, right := Child(p, Accumulated(cs[..k])), Child(cs[k].index, Accumulated(cs[k..]));
    if us[1..] == [] || q !in us[1] then
      if l + 1 < LEVELS then Levels(Created(us[1..], q, [left, right])) else Loops
    else
      var pushed := PushedAt(us[1..], l + 1, q, right, m);
      if pushed.Levels? then UpdatedAt(pushed.levels, l + 1, ParentKey(pushed.levels, p), left) else pushed
  }

  // -------------------------------------------------------- the same, one level at a time

  ghost function UpdatedAtTuple(y: (seq<Level>, nat, Bytes, Child)): Outcome { UpdatedAt(y.0, y.1, y.2, y.3) }
  ghost function PushedAtTuple(y: (seq<Level>, nat, Bytes, Child, nat)): Outcome { PushedAt(y.0, y.1, y.2, y.3, y.4) }
  ghost function HalvesAtTuple(y: (seq<Level>, nat, Bytes, Bytes, Node, nat)): Outcome {
    if y.0 != [] && y.5 / 2 + 1 < |y.4| then PushedSplitAt(y.0, y.1, y.2, y.3, y.4, y.5) else Panics
  }

  /** `UpdatedAt`, `PushedAt` and `PushedSplitAt`, kept folded. */
  ghost function UpdateAt(us: seq<Level>, l: nat, p: Bytes, c: Child): Outcome { FoldedFn(UpdatedAtTuple)((us, l, p, c)) }
  ghost function PushAt(us: seq<Level>, l: nat, p: Bytes, c: Child, m: nat): Outcome { FoldedFn(PushedAtTuple)((us, l, p, c, m)) }
  ghost function HalvesAt(us: seq<Level>, l: nat, p: Bytes, q: Bytes, cs: Node, m: nat): Outcome {
    FoldedFn(HalvesAtTuple)((us, l, p, q, cs, m))
  }

  lemma UnfoldUpdateAt(us: seq<Level>, l: nat, p: Bytes, c: Child)
    ensures UpdateAt(us, l, p, c) == UpdatedAt(us, l, p, c)
  {
    UnfoldFn(UpdatedAtTuple, (us, l, p, c));
  }

  lemma UnfoldPushAt(us: seq<Level>, l: nat, p: Bytes, c: Child, m: nat)
    ensures PushAt(us, l, p, c, m) == PushedAt(us, l, p, c, m)
  {
    UnfoldFn(PushedAtTuple, (us, l, p, c, m));
  }

  lemma UnfoldHalvesAt(us: seq<Level>, l: nat, p: Bytes, q: Bytes, cs: Node, m: nat)
    requires us != [] && m / 2 + 1 < |cs|
    ensures HalvesAt(us, l, p, q, cs, m) == PushedSplitAt(us, l, p, q, cs, m)
  {
    UnfoldFn(HalvesAtTuple, (us, l, p, q, cs, m));
  }

  lemma UpdateAtStep(us: seq<Level>, l: nat, p: Bytes, c: Child)
    requires us != [] && p in us[0] && SlotFrom(us[0][p], c.index, 0).found
    ensures var cs := SetAcc(us[0], p, c);
            UpdateAt(us, l, p, c) == Under(us[0][p := cs], UpdateAt(us[1..], l + 1, ParentKey(us[1..], p), Child(p, Accumulated(cs))))
  {
    UnfoldUpdateAt(us, l, p, c);
    UnfoldUpdateAt(us[1..], l + 1, ParentKey(us[1..], p), Child(p, Accumulated(SetAcc(us[0], p, c))));
  }

  lemma PushAtStep(us: seq<Level>, l: nat, p: Bytes, c: Child, m: nat)
    requires us != [] && p in us[0] && |us[0][p]| >= 1
    ensures var s, q := SlotFrom(us[0][p], c.index, 0), ParentKey(us[1..], p);
            if s.found then PushAt(us, l, p, c, m) == UpdateAt(us, l, p, c) else
              var cs := Inserted(us[0][p], s.idx, c);
              PushAt(us, l, p, c, m)
              == if |cs| <= m then Under(us[0][p := cs], UpdateAt(us[1..], l + 1, q, Child(p, Accumulated(cs))))
                 else if m / 2 + 1 >= |cs| then Panics
                 else Under(Halves(us[0], p, cs, m / 2 + 1), HalvesAt(us, l, p, q, cs, m))
  {
    UnfoldPushAt(us, l, p, c, m);
    UnfoldUpdateAt(us, l, p, c);
    var s, q := SlotFrom(us[0][p], c.index, 0), ParentKey(us[1..], p);
    if !s.found {
      var cs := Inserted(us[0][p], s.idx, c);
      UnfoldUpdateAt(us[1..], l + 1, q, Child(p, Accumulated(cs)));
      if m / 2 + 1 < |cs| {
        UnfoldHalvesAt(us, l, p, q, cs, m);
      }
    }
  }

  lemma HalvesAtAbove(us: seq<Level>, l: nat, p: Bytes, q: Bytes, cs: Node, m: nat)
    requires us != [] && m / 2 + 1 < |cs|
    ensures var k := m / 2 + 1;
            var left, right := Child(p, Accumulated(cs[..k])), Child(cs[k].index, Accumulated(cs[k..]));
            if us[1..] == [] || q !in us[1] then
              HalvesAt(us, l, p, q, cs, m) == if l + 1 < LEVELS then Levels(Created(us[1..], q, [left, right])) else Loops
            else
              var pushed := PushAt(us[1..], l + 1, q, right, m);
              HalvesAt(us, l, p, q, cs, m)
              == if pushed.Levels? then UpdateAt(pushed.levels, l + 1, ParentKey(pushed.levels, p), left) else pushed
  {
    UnfoldHalvesAt(us, l, p, q, cs, m);
    var k := m / 2 + 1;
    var left, right := Child(p, Accumulated(cs[..k])), Child(cs[k].index, Accumulated(cs[k..]));
    UnfoldPushAt(us[1..], l + 1, q, right, m);
    var pushed := PushedAt(us[1..], l + 1, q, right, m);
    if pushed.Levels? {
      UnfoldUpdateAt(pushed.levels, l + 1, ParentKey(pushed.levels, p), left);
    }
  }

  // ------------------------------------------------------------- what the counter allows

  /** The outcome is what the edit without a counter gives if it `fits`, and a loop otherwise. */
  ghost predicate EndsIff(o: Outcome, r: Option<seq<Level>>, fits: bool) {
    r.Some? && o == if fits then Levels(r.value) else Loops
  }

  /** The update of a correct index ends if and only if the counter can leave the top level. */
  lemma {:induction false} UpdateEnds(us: seq<Level>, sums: map<Bytes, int>, l: nat, p: Bytes, c: Child)
    requires Indexes(us, sums) && c.index in sums
    requires us != [] ==> IsFloor(us[0].Keys, p, c.index)
    ensures EndsIff(UpdateAt(us, l, p, c), AfterUpdate(us, p, c), l + |us| < LEVELS)
    ensures |AfterUpdate(us, p, c).value| == |us|
  {
    if us == [] {
      UnfoldUpdateAt(us, l, p, c);
      UpdateAbsent(us, p, c);
    } else {
      SetAccOK(us[0], sums, p, c);
      var up := Child(p, Accumulated(SetAcc(us[0], p, c)));
      ParentKeyOK(us[1..], Sums(us[0]), p);
      UpdateEnds(us[1..], Sums(us[0]), l + 1, ParentKey(us[1..], p), up);
      UpdateAtStep(us, l, p, c);
      UpdateStep(us, p, c);
    }
  }

  /** A push into a correct index ends if and only if the counter can leave the top level
      it makes, or the split of a lone level makes it. */
  lemma {:induction false} PushEnds(us: seq<Level>, sums: map<Bytes, int>, l: nat, p: Bytes, c: Child, m: nat)
    requires us != [] && Indexes(us, sums) && IsFloor(us[0].Keys, p, c.index) && l + |us| < LEVELS
    ensures AfterPush(us, p, c, m).Some?
    ensures EndsIff(PushAt(us, l, p, c, m), AfterPush(us, p, c, m), |us| == 1 || l + |AfterPush(us, p, c, m).value| < LEVELS)
    decreases us, 1
  {
    var nodes := us[0];
    WithChildOK(nodes, sums, p, c);
    PushAtStep(us, l, p, c, m);
    PushStep(us, p, c, m);
    if c.index in sums {
      UpdateEnds(us, sums, l, p, c);
    } else {
      var cs, q, k := WithChild(nodes, p, c), ParentKey(us[1..], p), m / 2 + 1;
      if |cs| <= m {
        ParentKeyOK(us[1..], Sums(nodes), p);
        UpdateEnds(us[1..], Sums(nodes), l + 1, q, Child(p, Accumulated(cs)));
      } else {
        SplitOK(nodes, sums[c.index := c.acc], p, cs, k);
        PushSplitEnds(us, sums, l, p, q, cs, m);
      }
    }
  }

  lemma {:induction false} PushSplitEnds(us: seq<Level>, sums: map<Bytes, int>, l: nat, p: Bytes, q: Bytes, cs: Node, m: nat)
    requires us != [] && Indexes(us, sums) && p in us[0] && q == ParentKey(us[1..], p) && l + |us| < LEVELS
    requires m / 2 + 1 < |cs|
    requires IsFloor(us[0].Keys, p, cs[m / 2 + 1].index) && cs[m / 2 + 1].index !in us[0]
    ensures AfterSplit(us, p, q, cs, m).Some?
    ensures EndsIff(HalvesAt(us, l, p, q, cs, m), AfterSplit(us, p, q, cs, m),
                    |us| == 1 || l + 1 + |AfterSplit(us, p, q, cs, m).value| < LEVELS)
    decreases us, 0
  {
    var k, above := m / 2 + 1, Sums(us[0]);
    var left, right := Child(p, Accumulated(cs[..k])), Child(cs[k].index, Accumulated(cs[k..]));
    HalvesAtAbove(us, l, p, q, cs, m);
    SplitAbove(us, p, q, cs, m);
    ParentKeyOK(us[1..], above, p);
    if us[1..] != [] {
      ParentOfRightHalf(us[0], us[1..], p, right.index);
      PushEnds(us[1..], above, l + 1, q, right, m);
      RepairEnds(us[1..], above, l + 1, p, q, left, right, m);
    }
  }

  /** The left half's sum is written over whatever the push of the right half left. */
  lemma RepairEnds(us: seq<Level>, sums: map<Bytes, int>, l: nat, p: Bytes, q: Bytes, left: Child, right: Child, m: nat)
    requires us != [] && Indexes(us, sums) && IsFloor(us[0].Keys, q, right.index) && p in sums && left.index == p
    ensures AfterPush(us, q, right, m).Some?
    ensures var pushed := AfterPush(us, q, right, m).value;
            var r := AfterUpdate(pushed, ParentKey(pushed, p), left);
            EndsIff(UpdateAt(pushed, l, ParentKey(pushed, p), left), r, l + |pushed| < LEVELS) && |r.value| == |pushed|
  {
    AfterPushIndexes(us, sums, q, right, m);
    var pushed, sums' := AfterPush(us, q, right, m).value, sums[right.index := right.acc];
    ParentKeyOK(pushed, sums', p);
    UpdateEnds(pushed, sums', l, ParentKey(pushed, p), left);
  }

  // ------------------------------------------------------------------ around the counter

  /** The leaves as level 0: one child each, the leaf itself. */
  ghost function LeafLevel(leaves: map<Bytes, int>): Level {
    map k | k in leaves :: [Child(k, leaves[k])]
  }

  /** The level the counter names after `l`. */
  function Next(l: nat): nat { (l + 1) % LEVELS }

  /** The walk of `updateAccumulation` over all levels, the leaves first, ends within `n` calls. */
  ghost predicate WalkEnds(ls: seq<Level>, l: nat, p: Bytes, c: Child, n: nat)
    decreases n
  {
    if n == 0 then false
    else if l >= |ls| || p !in ls[l] then true
    else
      var s := SlotFrom(ls[l][p], c.index, 0);
      if !s.found then true else
      var cs := ls[l][p][s.idx := Child(c.index, c.acc)];
      var ls' := ls[l := ls[l][p := cs]];
      WalkEnds(ls', Next(l), ParentKey(if Next(l) < |ls| then ls'[Next(l)..] else [], p), Child(p, Accumulated(cs)), n - 1)
  }

  ghost predicate WalkTuple(y: (seq<Level>, nat, Bytes, Child, nat)) { WalkEnds(y.0, y.1, y.2, y.3, y.4) }

  /** `WalkEnds`, kept folded. */
  ghost predicate Ends(ls: seq<Level>, l: nat, p: Bytes, c: Child, n: nat) { Folded(WalkTuple)((ls, l, p, c, n)) }

  lemma UnfoldEnds(ls: seq<Level>, l: nat, p: Bytes, c: Child, n: nat)
    ensures Ends(ls, l, p, c, n) <==> WalkEnds(ls, l, p, c, n)
  {
    Unfold(WalkTuple, (ls, l, p, c, n));
  }

  lemma EndsStep(ls: seq<Level>, l: nat, p: Bytes, c: Child, n: nat, cs: Node)
    requires n > 0 && l < LEVELS == |ls| && p in ls[l] && SlotFrom(ls[l][p], c.index, 0).found
    requires cs == ls[l][p][SlotFrom(ls[l][p], c.index, 0).idx := Child(c.index, c.acc)]
    ensures var ls' := ls[l := ls[l][p := cs]];
            Ends(ls, l, p, c, n) <==> Ends(ls', Next(l), ParentKey(ls'[Next(l)..], p), Child(p, Accumulated(cs)), n - 1)
  {
    var ls' := ls[l := ls[l][p := cs]];
    UnfoldEnds(ls, l, p, c, n);
    UnfoldEnds(ls', Next(l), ParentKey(ls'[Next(l)..], p), Child(p, Accumulated(cs)), n - 1);
  }

  lemma LoopsStep(us: seq<Level>, l: nat, p: Bytes, c: Child) returns (cs: Node)
    requires us != [] && UpdateAt(us, l, p, c) == Loops
    ensures p in us[0] && SlotFrom(us[0][p], c.index, 0).found
    ensures cs == us[0][p][SlotFrom(us[0][p], c.index, 0).idx := Child(c.index, c.acc)]
    ensures UpdateAt(us[1..], l + 1, ParentKey(us[1..], p), Child(p, Accumulated(cs))) == Loops
  {
    UnfoldUpdateAt(us, l, p, c);
    cs := us[0][p][SlotFrom(us[0][p], c.index, 0).idx := Child(c.index, c.acc)];
    UpdateAtStep(us, l, p, c);
  }

  ghost predicate StartsEmpty(nodes: Level) {
    [] in nodes && nodes[[]] != [] && nodes[[]][0].index == []
  }

  /** Every level, the leaves included, has the empty key, with itself as first child. */
  ghost predicate Spine(ls: seq<Level>) {
    forall i | 0 <= i < |ls| :: StartsEmpty(ls[i])
  }

  lemma OwnParent(above: seq<Level>, k: Bytes)
    requires above != [] && k in above[0]
    ensures ParentKey(above, k) == k
  {
    assert IsFloor(above[0].Keys, k, k);
    FloorUnique(above[0].Keys, k, ParentKey(above, k), k);
  }

  lemma SpineStep(ls: seq<Level>, l: nat, p: Bytes, idx: nat, c: Child)
    requires Spine(ls) && l < |ls| && p in ls[l] && idx < |ls[l][p]| && ls[l][p][idx].index == c.index
    ensures Spine(ls[l := ls[l][p := ls[l][p][idx := c]]])
  {
    assert StartsEmpty(ls[l]);
  }

  /** Once on the empty keys of a tree that takes up the whole counter, the walk never ends. */
  lemma {:induction false} SpineNeverEnds(ls: seq<Level>, l: nat, c: Child, n: nat)
    requires |ls| == LEVELS && Spine(ls) && l < LEVELS && c.index == []
    ensures !Ends(ls, l, [], c, n)
    decreases n
  {
    if n == 0 {
      UnfoldEnds(ls, l, [], c, n);
    } else {
      assert StartsEmpty(ls[l]);
      var node := ls[l][[]];
      assert SlotFrom(node, [], 0) == Slot(0, true);
      var cs := node[0 := Child([], c.acc)];
      EndsStep(ls, l, [], c, n, cs);
      SpineStep(ls, l, [], 0, Child([], c.acc));
      var ls' := ls[l := ls[l][[] := cs]];
      assert StartsEmpty(ls'[Next(l)]);
      OwnParent(ls'[Next(l)..], []);
      SpineNeverEnds(ls', Next(l), Child([], Accumulated(cs)), n - 1);
    }
  }

  lemma RestartNeverEnds(ls: seq<Level>, c: Child, n: nat)
    requires |ls| == LEVELS && Spine(ls) && c.index == []
    ensures !Ends(ls, 0, ParentKey(ls[0..], []), c, n)
  {
    assert StartsEmpty(ls[0]);
    OwnParent(ls[0..], []);
    SpineNeverEnds(ls, 0, c, n);
  }

  /** One call of a looping walk. */
  lemma LoopTurn(ls: seq<Level>, l: nat, p: Bytes, c: Child, n: nat) returns (ls': seq<Level>, up: Child)
    requires n > 0 && |ls| == LEVELS && Spine(ls) && l < LEVELS && UpdateAt(ls[l..], l, p, c) == Loops
    ensures |ls'| == LEVELS && Spine(ls') && up.index == p && p in ls[l]
    ensures ls'[LEVELS - 1].Keys == ls[LEVELS - 1].Keys
    ensures Ends(ls, l, p, c, n) <==> Ends(ls', Next(l), ParentKey(ls'[Next(l)..], p), up, n - 1)
    ensures l + 1 < LEVELS ==> UpdateAt(ls'[l + 1..], l + 1, ParentKey(ls'[l + 1..], p), up) == Loops
  {
    var us := ls[l..];
    var cs := LoopsStep(us, l, p, c);
    SpineStep(ls, l, p, SlotFrom(us[0][p], c.index, 0).idx, Child(c.index, c.acc));
    EndsStep(ls, l, p, c, n, cs);
    ls', up := ls[l := ls[l][p := cs]], Child(p, Accumulated(cs));
    assert us[1..] == ls'[l + 1..];
    assert ls[l][p := cs].Keys == ls[l].Keys;
  }

  /** What `UpdatedAt` calls looping is a walk that no number of calls ends. */
  lemma {:induction false} LoopsNeverEnds(ls: seq<Level>, l: nat, p: Bytes, c: Child, n: nat)
    requires |ls| == LEVELS && Spine(ls) && ls[LEVELS - 1].Keys == {[]}
    requires l < LEVELS && UpdateAt(ls[l..], l, p, c) == Loops
    ensures !Ends(ls, l, p, c, n)
    decreases n
  {
    if n == 0 {
      UnfoldEnds(ls, l, p, c, n);
    } else {
      var ls', up := LoopTurn(ls, l, p, c, n);
      if l + 1 < LEVELS {
        LoopsNeverEnds(ls', l + 1, ParentKey(ls'[l + 1..], p), up, n - 1);
      } else {
        RestartNeverEnds(ls', up, n - 1);
      }
    }
  }
}
