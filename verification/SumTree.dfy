/** The augmented B+ tree over the flat store: `Tree` and its pointer operations.

    The ghost fields `leaves` and `upper` are what the store holds, level by
    level.  The methods are proved to change them as `SumTreeEdits` says, and
    `Valid` says that the levels are a correct index over the leaves. */
module SumTree {
  import opened ByteKeys
  import opened MapSums
  import opened Options
  import opened SumTreeLevels
  import opened SumTreeEdits
  import opened SumTreeHeight
  import opened SumTreeQueries
  import opened SumTreeStore
  import SumTreeCounter

  /** `Node.find`: the position of `key`, or where it would go. */
  method Find(cs: Node, key: Bytes) returns (idx: nat, found: bool)
    ensures Slot(idx, found) == SlotFrom(cs, key, 0)
  {
    idx := 0;
    while idx < |cs|
      invariant idx <= |cs|
      invariant SlotFrom(cs, key, idx) == SlotFrom(cs, key, 0)
    {
      if cs[idx].index == key {
        return idx, true;
      }
      if Compare(cs[idx].index, key) > 0 {
        return idx, false;
      }
      idx := idx + 1;
    }
    found := false;
  }

  /** `Node.accumulate`. */
  method Accumulate(cs: Node) returns (res: int)
    ensures res == Accumulated(cs)
  {
    res := 0;
    for i := 0 to |cs|
      invariant res == Accumulated(cs[..i])
    {
      assert cs[..i + 1][..i] == cs[..i];
      res := res + cs[i].acc;
    }
    assert cs[..|cs|] == cs;
  }

  /** Store keys a reverse iterator over `[nodeKey(l, nil), nodeKey(l, k))` visits. */
  predicate LeftOf(l: nat, k: Bytes, b: Bytes) {
    Compare(NodeKey(l, []), b) <= 0 && Compare(b, NodeKey(l, k)) < 0
  }

  lemma LeftOfMeaning(l: nat, k: Bytes, r: nat, x: Bytes)
    requires l < LEVELS && r < LEVELS
    ensures LeftOf(l, k, NodeKey(r, x)) <==> r == l && Rank(x) < Rank(k)
  {
    NodeKeyOrder(r, x, l, k);
    NodeKeyOrder(r, x, l, []);
  }

  class Tree {
    const m: nat
    var store: map<Bytes, Entry>
    ghost var leaves: map<Bytes, int>
    ghost var upper: seq<Level>

    ghost predicate Stored()
      reads this
    {
      IsStoreOf(store, leaves, upper) && |upper| < LEVELS
    }

    ghost predicate Valid()
      reads this
    {
      Stored() && upper != [] && Indexes(upper, leaves)
    }

    /** Node sizes are as a run with this `m` from the empty store leaves them. */
    ghost predicate Balanced()
      reads this
    {
      Sized(upper, m, true)
    }

    // ------------------------------------------------ store access by (level, key)

    method Exists(l: nat, k: Bytes) returns (b: bool)
      requires Stored() && l < LEVELS
      ensures b <==> Present(leaves, upper, l, k)
    {
      UnfoldStore(store, leaves, upper);
      PresentIffStored(store, leaves, upper, l, k);
      b := NodeKey(l, k) in store;
    }

    method GetNode(l: nat, k: Bytes) returns (cs: Node)
      requires Stored() && 1 <= l <= |upper| && k in upper[l - 1]
      ensures cs == upper[l - 1][k]
    {
      UnfoldStore(store, leaves, upper);
      assert Present(leaves, upper, l, k);
      cs := store[NodeKey(l, k)].children;
    }

    method SetNode(l: nat, k: Bytes, cs: Node)
      requires Stored() && 1 <= l <= |upper| + 1 && l < LEVELS
      modifies this
      ensures Stored() && leaves == old(leaves)
      ensures upper == WithNode(old(upper), l, k, cs)
    {
      UnfoldStore(store, leaves, upper);
      WriteNode(store, leaves, upper, l, k, cs);
      store := store[NodeKey(l, k) := Branch(cs)];
      upper := WithNode(upper, l, k, cs);
      UnfoldStore(store, leaves, upper);
    }

    method SetLeaf(k: Bytes, v: int)
      requires Stored()
      modifies this
      ensures Stored() && upper == old(upper)
      ensures leaves == old(leaves)[k := v]
    {
      UnfoldStore(store, leaves, upper);
      WriteLeaf(store, leaves, upper, k, v);
      store := store[NodeKey(0, k) := Leaf(v)];
      leaves := leaves[k := v];
      UnfoldStore(store, leaves, upper);
    }

    /** The closest node to the left of `k` on level `l`.  A nil key, for which the source's
        iterator covers the whole level, does not occur: nodes are looked up from keys in the
        store, and the nil key of a `Set` is a node of every level above it. */
    method LeftSibling(l: nat, k: Bytes) returns (r: Option<Bytes>)
      requires Stored() && l < LEVELS
      ensures r.None? ==> forall x | x in KeysAt(leaves, upper, l) :: Rank(x) >= Rank(k)
      ensures r.Some? ==> r.value in KeysAt(leaves, upper, l) && Rank(r.value) < Rank(k)
      ensures r.Some? ==> forall x | x in KeysAt(leaves, upper, l) && Rank(x) < Rank(k) :: Rank(x) <= Rank(r.value)
    {
      UnfoldStore(store, leaves, upper);
      var range := set b | b in store && LeftOf(l, k, b);
      forall x | x in KeysAt(leaves, upper, l) && Rank(x) < Rank(k)
        ensures NodeKey(l, x) in range
      {
        assert Present(leaves, upper, l, x);
        LeftOfMeaning(l, k, l, x);
      }
      if range == {} {
        return None;
      }
      var b := Greatest(range);
      assert Addresses(leaves, upper, b);
      LeftOfMeaning(l, k, LevelOf(b), b[7..]);
      forall x | x in KeysAt(leaves, upper, l) && Rank(x) < Rank(k)
        ensures Rank(x) <= Rank(b[7..])
      {
        NodeKeyOrder(l, b[7..], l, x);
      }
      r := Some(b[7..]);
    }

    /** The levels one above level `l`, where the counter takes the leaves to be above the last. */
    ghost function LevelsAbove(l: nat): seq<Level>
      requires l <= |upper|
      reads this
    {
      if l + 1 < LEVELS then upper[l..] else [SumTreeCounter.LeafLevel(leaves)]
    }

    /** `ptr.parent`: the node one level up with the same key, else the closest one
        to its left, else the empty key.  It finds the node whose range holds `k`. */
    method Parent(l: nat, k: Bytes) returns (p: Bytes)
      requires Stored() && l <= |upper|
      ensures p == ParentKey(LevelsAbove(l), k)
    {
      var above := (l + 1) % LEVELS;
      ghost var us := LevelsAbove(l);
      assert KeysAt(leaves, upper, above) == if us == [] then {} else us[0].Keys;
      var same := Exists(above, k);
      if same {
        SameKeyIsParent(us, k);
        return k;
      }
      var left := LeftSibling(above, k);
      if left.Some? {
        p := left.value;
        FloorFromLeft(us[0].Keys, p, k);
        FloorIsParent(us, p, k);
      } else {
        p := [];
        NoFloor(us, k);
      }
    }

    // ------------------------------------------------------------------- updates

    /** `ptr.updateAccumulation`; `ok` is false where the source panics. */
    method UpdateAccumulation(l: nat, p: Bytes, c: Child) returns (ok: bool)
      requires Stored() && 1 <= l <= |upper| + 1 && |upper| + 1 < LEVELS
      modifies this
      ensures ok <==> AfterUpdate(old(upper)[l - 1..], p, c).Some?
      ensures ok ==> Stored() && leaves == old(leaves) && |upper| == |old(upper)|
      ensures ok ==> upper == old(upper)[..l - 1] + AfterUpdate(old(upper)[l - 1..], p, c).value
      decreases |upper| + 1 - l
    {
      ghost var us := upper[l - 1..];
      UnfoldUpdate(us, p, c);
      var exists_ := Exists(l, p);
      if !exists_ {
        UpdateAbsent(us, p, c);
        return true;
      }
      UpdateStep(us, p, c);
      var node := GetNode(l, p);
      var idx, found := Find(node, c.index);
      if !found {
        return false;
      }
      node := node[idx := Child(node[idx].index, c.acc)];
      SetNode(l, p, node);
      ghost var nodes := upper[l - 1];
      Slices(old(upper), l, nodes);
      var q := Parent(l, p);
      var total := Accumulate(node);
      ok := UpdateAccumulation(l + 1, q, Child(p, total));
      if ok {
        Regroup(old(upper)[..l - 1], nodes, AfterUpdate(us[1..], q, Child(p, total)).value);
      }
    }

    /** `ptr.push`; `ok` is false where the source panics. */
    method Push(l: nat, p: Bytes, c: Child) returns (ok: bool)
      requires Stored() && 1 <= l <= |upper| + 1 && |upper| + 1 < LEVELS
      requires |upper| + 2 < LEVELS || Fits(l - 1, AfterPush(upper[l - 1..], p, c, m))
      modifies this
      ensures ok <==> AfterPush(old(upper)[l - 1..], p, c, m).Some?
      ensures ok ==> Stored() && leaves == old(leaves) && |old(upper)| <= |upper| <= |old(upper)| + 1
      ensures ok ==> upper == old(upper)[..l - 1] + AfterPush(old(upper)[l - 1..], p, c, m).value
      decreases |upper| + 1 - l
    {
      ghost var us := upper[l - 1..];
      var exists_ := Exists(l, p);
      if !exists_ {
        PushAbsent(us, p, c, m);
        NewHere(upper, l, p, [c]);
        SetNode(l, p, [c]);
        return true;
      }
      PushStep(us, p, c, m);
      var cs := GetNode(l, p);
      var idx, found := Find(cs, c.index);
      if found {
        ok := UpdateAccumulation(l, p, c);
        return;
      }
      cs := Inserted(cs, idx, c);
      Slices(upper, l, upper[l - 1]);
      var q := Parent(l, p);
      if |cs| > m {
        if m / 2 + 1 >= |cs| {
          return false;
        }
        ok := PushSplit(l, p, q, cs);
        if ok {
          Regroup(old(upper)[..l - 1], Halves(us[0], p, cs, m / 2 + 1), AfterSplit(us, p, q, cs, m).value);
        }
      } else {
        ok := PushInto(l, p, q, cs);
      }
    }

    /** The end of `ptr.push`: the parent hears of the node's new sum, then the node is written. */
    method PushInto(l: nat, p: Bytes, q: Bytes, cs: Node) returns (ok: bool)
      requires Stored() && 1 <= l <= |upper| && p in upper[l - 1] && |upper| + 1 < LEVELS
      modifies this
      ensures ok <==> AfterUpdate(old(upper)[l..], q, Child(p, Accumulated(cs))).Some?
      ensures ok ==> Stored() && leaves == old(leaves) && |upper| == |old(upper)|
      ensures ok ==> upper == old(upper)[..l - 1]
                            + ([old(upper)[l - 1][p := cs]] + AfterUpdate(old(upper)[l..], q, Child(p, Accumulated(cs))).value)
      decreases |upper| + 1 - l, 0
    {
      var total := Accumulate(cs);
      ok := UpdateAccumulation(l + 1, q, Child(p, total));
      if ok {
        Replace(old(upper), l, AfterUpdate(old(upper)[l..], q, Child(p, total)).value, old(upper)[l - 1][p := cs]);
        SetNode(l, p, cs);
      }
    }

    /** The splitting branch of `ptr.push`. */
    method PushSplit(l: nat, p: Bytes, q: Bytes, cs: Node) returns (ok: bool)
      requires Stored() && 1 <= l <= |upper| && p in upper[l - 1] && |upper| + 1 < LEVELS
      requires |upper| + 2 < LEVELS || Fits(l, AfterSplit(upper[l - 1..], p, q, cs, m))
      requires q == ParentKey(upper[l..], p) && m / 2 + 1 < |cs|
      modifies this
      ensures ok <==> AfterSplit(old(upper)[l - 1..], p, q, cs, m).Some?
      ensures ok ==> Stored() && leaves == old(leaves) && |old(upper)| <= |upper| <= |old(upper)| + 1
      ensures ok ==> var k := m / 2 + 1;
                     upper == old(upper)[..l - 1]
                            + [Halves(old(upper)[l - 1], p, cs, k)]
                            + AfterSplit(old(upper)[l - 1..], p, q, cs, m).value
      decreases |upper| + 1 - l, 1
    {
      var k := m / 2 + 1;
      var rk := cs[k].index;
      SetNode(l, rk, cs[k..]);
      ghost var nodes, us := upper[l - 1], old(upper)[l - 1..];
      SplitAbove(us, p, q, cs, m);
      Slices(old(upper), l, nodes);
      var leftSum := Accumulate(cs[..k]);
      var rightSum := Accumulate(cs[k..]);
      var hasParent := Exists(l + 1, q);
      if !hasParent {
        PushRoot(l, p, q, cs[..k], [Child(p, leftSum), Child(rk, rightSum)]);
        return true;
      }
      if AfterSplit(us, p, q, cs, m).Some? {
        SplitLength(us, p, q, cs, m);
      }
      ok := PushRight(l, p, q, Child(rk, rightSum), cs[..k]);
      if ok {
        Regroup(old(upper)[..l - 1], nodes[p := cs[..k]], AfterSplit(us, p, q, cs, m).value);
      }
    }

    /** The right half goes to the parent, and the left half to whatever is then its parent. */
    method PushRight(l: nat, p: Bytes, q: Bytes, right: Child, left: Node) returns (ok: bool)
      requires Stored() && 1 <= l < |upper| && p in upper[l - 1] && |upper| + 1 < LEVELS
      requires |upper| + 2 < LEVELS || Fits(l, AfterPush(upper[l..], q, right, m))
      modifies this
      ensures ok <==> AfterRight(old(upper)[l..], p, q, right, left, m).Some?
      ensures ok ==> Stored() && leaves == old(leaves) && |old(upper)| <= |upper| <= |old(upper)| + 1
      ensures ok ==> upper == old(upper)[..l - 1]
                            + ([old(upper)[l - 1][p := left]] + AfterRight(old(upper)[l..], p, q, right, left, m).value)
      decreases |upper| + 1 - l, 0
    {
      ghost var below, nodes := upper[..l - 1], upper[l - 1];
      assert upper[..l] == below + [nodes];
      ok := Push(l + 1, q, right);
      if ok {
        Recut(below, nodes, AfterPush(old(upper)[l..], q, right, m).value);
        var q' := Parent(l, p);
        ok := PushInto(l, p, q', left);
      }
    }

    /** A parent for two halves that have none. */
    method PushRoot(l: nat, p: Bytes, q: Bytes, left: Node, root: Node)
      requires Stored() && 1 <= l <= |upper| && |upper| + 1 < LEVELS
      modifies this
      ensures Stored() && leaves == old(leaves) && |old(upper)| <= |upper| <= |old(upper)| + 1
      ensures upper == old(upper)[..l - 1] + [old(upper)[l - 1][p := left]] + Created(old(upper)[l..], q, root)
    {
      NewTop(upper, l, upper[l - 1], q, root, upper[l - 1][p := left]);
      SetNode(l + 1, q, root);
      SetNode(l, p, left);
    }

    // -------------------------------------------------------------- the tree's interface

    /** `NewTree` on an empty store. */
    constructor (m: nat)
      requires m < 256
      ensures Valid() && Balanced() && this.m == m
      ensures leaves == map[[] := 0] && |upper| == 1
    {
      this.m := m;
      store := map[];
      leaves := map[];
      upper := [];
      new;
      UnfoldStore(store, leaves, upper);
      SetLeaf([], 0);
      var p := Parent(0, []);
      UnfoldPush(upper, p, Child([], 0), m);
      var ok := Push(1, p, Child([], 0));
      FirstTree(0);
      SizedCons(map[[] := [Child([], 0)]], [], m, true);
    }

    /** `NewTree` on a store that already holds a tree, perhaps grown with another `m`. */
    constructor Reopen(initial: map<Bytes, Entry>, m: nat, ghost known: map<Bytes, int>, ghost levels: seq<Level>)
      requires m < 256
      requires Represents(initial, known, levels) && levels != [] && Indexes(levels, known)
      ensures Valid() && this.m == m && store == initial && leaves == known && upper == levels
    {
      this.m := m;
      store := initial;
      leaves := known;
      upper := levels;
      new;
      UnfoldStore(store, leaves, upper);
    }

    /** `Tree.Set`. */
    method Set(key: Bytes, acc: int)
      requires Valid() && RoomFor(upper, key, acc, m)
      modifies this
      ensures Valid() && (old(Balanced()) ==> Balanced())
      ensures leaves == old(leaves)[key := acc]
      ensures Some(upper) == WithEntry(old(upper), key, acc, m)
    {
      SetLeaf(key, acc);
      WithEntryOK(upper, old(leaves), key, acc, m);
      assert upper[0..] == upper && upper[..0] == [];
      var p := Parent(0, key);
      var ok := Push(1, p, Child(key, acc));
      assert old(upper)[..0] + WithEntry(old(upper), key, acc, m).value == WithEntry(old(upper), key, acc, m).value;
    }

    /** `Tree.Get`. */
    method Get(key: Bytes) returns (v: int)
      requires Stored()
      ensures v == MapSums.Get(leaves, key)
    {
      UnfoldStore(store, leaves, upper);
      PresentIffStored(store, leaves, upper, 0, key);
      if NodeKey(0, key) !in store {
        return 0;
      }
      assert Present(leaves, upper, 0, key);
      v := store[NodeKey(0, key)].acc;
    }

    /** `Tree.Increase`. */
    method Increase(key: Bytes, amt: int)
      requires Valid() && RoomFor(upper, key, MapSums.Get(leaves, key) + amt, m)
      modifies this
      ensures Valid() && (old(Balanced()) ==> Balanced())
      ensures leaves == old(leaves)[key := MapSums.Get(old(leaves), key) + amt]
      ensures Some(upper) == WithEntry(old(upper), key, MapSums.Get(old(leaves), key) + amt, m)
    {
      var value := Get(key);
      Set(key, value + amt);
    }

    /** `Tree.Decrease`. */
    method Decrease(key: Bytes, amt: int)
      requires Valid() && RoomFor(upper, key, MapSums.Get(leaves, key) - amt, m)
      modifies this
      ensures Valid() && (old(Balanced()) ==> Balanced())
      ensures leaves == old(leaves)[key := MapSums.Get(old(leaves), key) - amt]
      ensures Some(upper) == WithEntry(old(upper), key, MapSums.Get(old(leaves), key) - amt, m)
    {
      Increase(key, -amt);
    }

    /** `Tree.root`: the greatest key of the whole store is the one node of the top level. */
    method Root() returns (r: Ptr)
      requires Valid()
      ensures r == Ptr(|upper|, [])
    {
      TopIsEmptyKey(upper, leaves);
      UnfoldStore(store, leaves, upper);
      assert Present(leaves, upper, |upper|, []);
      var b := Greatest(store.Keys);
      GreatestIsTop(leaves, upper, b);
      r := Ptr(LevelOf(b), b[7..]);
    }

    /** `ptr.accumulationSplit`; `ok` is false where the source panics. */
    method AccumulationSplit(l: nat, x: Bytes, key: Bytes) returns (ok: bool, left: int, exact: int, right: int)
      requires Stored() && l <= |upper|
      ensures ok <==> Answer(Question(leaves, upper, l, x, key)).Some?
      ensures ok ==> Answer(Question(leaves, upper, l, x, key)).value == Split(left, exact, right)
    {
      left, exact, right := 0, 0, 0;
      ok := Exists(l, x);
      if !ok {
        UnfoldAnswer(Question(leaves, upper, l, x, key));
        return;
      }
      if l == 0 {
        UnfoldAnswer(Question(leaves, upper, l, x, key));
        var acc := Get(x);
        if Compare(x, key) < 0 {
          left := acc;
        } else if Compare(x, key) == 0 {
          exact := acc;
        } else {
          right := acc;
        }
        return;
      }
      var cs := GetNode(l, x);
      var idx, found := Find(cs, key);
      var i: int := idx;
      if !found {
        i := i - 1;
      }
      AnswerStep(Question(leaves, upper, l, x, key), i);
      if i < 0 || i >= |cs| {
        return false, 0, 0, 0;
      }
      ok, left, exact, right := AccumulationSplit(l - 1, cs[i].index, key);
      var before := Accumulate(cs[..i]);
      var after := Accumulate(cs[i + 1..]);
      left, right := left + before, right + after;
    }

    /** `Tree.SplitAcc`: the sums of the plain map below, at and above `key`. */
    method SplitAcc(key: Bytes) returns (left: int, exact: int, right: int)
      requires Valid()
      ensures left == Below(leaves, key) && exact == MapSums.Get(leaves, key) && right == Above(leaves, key)
    {
      var r := Root();
      SplitOfMap(leaves, upper, key);
      UnfoldAnswer(Question(leaves, upper, r.level, r.key, key));
      var ok;
      ok, left, exact, right := AccumulationSplit(r.level, r.key, key);
    }

    /** `Tree.SubsetAccumulation`; `None` is Go's nil, which as a key is the empty one. */
    method SubsetAccumulation(start: Option<Bytes>, end: Option<Bytes>) returns (sum: int)
      requires Valid()
      ensures sum == SubsetSum(leaves, start, end)
    {
      if start.None? {
        var left, exact, _ := SplitAcc(if end.None? then [] else end.value);
        return left + exact;
      }
      if end.None? {
        var _, exact, right := SplitAcc(start.value);
        return exact + right;
      }
      var _, leftExact, leftRest := SplitAcc(start.value);
      var _, _, rightRest := SplitAcc(end.value);
      sum := leftExact + leftRest - rightRest;
    }

    /** `Tree.PrefixSum`: the sum of all leaves up to and including `key`. */
    method PrefixSum(key: Bytes) returns (sum: int)
      requires Valid()
      ensures sum == Range(leaves, [], key)
    {
      sum := SubsetAccumulation(None, Some(key));
      SubsetSumIsRange(leaves, [], key);
      EmptyKeyIsLeast(leaves);
    }

    /** `Tree.TotalAccumulatedValue`: only the value of the empty key, not the total. */
    method TotalAccumulatedValue() returns (sum: int)
      requires Valid()
      ensures sum == MapSums.Get(leaves, [])
      ensures sum == Sum(leaves) <==> Above(leaves, []) == 0
    {
      sum := SubsetAccumulation(None, None);
      EmptyKeyIsLeast(leaves);
      WholeSum(leaves, []);
    }
  }

  /** A stored key that none exceeds is the top level's only one. */
  lemma GreatestIsTop(leaves: map<Bytes, int>, upper: seq<Level>, b: Bytes)
    requires upper != [] && |upper| < LEVELS && upper[|upper| - 1].Keys == {[]}
    requires Addresses(leaves, upper, b) && Rank(NodeKey(|upper|, [])) <= Rank(b)
    ensures LevelOf(b) == |upper| && b[7..] == []
  {
    NodeKeyOrder(LevelOf(b), b[7..], |upper|, []);
  }

  // -------------------------------------------------------------------- whole operations

  /** The levels after `Set`. */
  ghost function WithEntry(upper: seq<Level>, key: Bytes, acc: int, m: nat): Option<seq<Level>> {
    AfterPush(upper, ParentKey(upper, key), Child(key, acc), m)
  }

  /** The levels above a split, once the right half has been pushed and the left half's sum told. */
  ghost function AfterRight(us: seq<Level>, p: Bytes, q: Bytes, right: Child, left: Node, m: nat): Option<seq<Level>> {
    var pushed :- AfterPush(us, q, right, m);
    AfterUpdate(pushed, ParentKey(pushed, p), Child(p, Accumulated(left)))
  }

  /** The counter can leave the top of these levels, with `below` of them below. */
  ghost predicate Fits(below: nat, after: Option<seq<Level>>) {
    after.Some? && below + |after.value| + 1 < LEVELS
  }

  lemma SplitLength(us: seq<Level>, p: Bytes, q: Bytes, cs: Node, m: nat)
    requires |us| > 1 && q in us[1] && m / 2 + 1 < |cs| && AfterSplit(us, p, q, cs, m).Some?
    ensures var pushed := AfterPush(us[1..], q, Child(cs[m / 2 + 1].index, Accumulated(cs[m / 2 + 1..])), m);
            pushed.Some? && |pushed.value| == |AfterSplit(us, p, q, cs, m).value|
  {
    SplitAbove(us, p, q, cs, m);
    var pushed := AfterPush(us[1..], q, Child(cs[m / 2 + 1].index, Accumulated(cs[m / 2 + 1..])), m).value;
    UnfoldUpdate(pushed, ParentKey(pushed, p), Child(p, Accumulated(cs[..m / 2 + 1])));
  }

  /** The counter can leave the top level that `Set` makes, as `SumTreeRuns.RunEnds` says it must. */
  ghost predicate RoomFor(upper: seq<Level>, key: Bytes, acc: int, m: nat) {
    Fits(0, WithEntry(upper, key, acc, m))
  }

  lemma FirstTree(v: int)
    ensures Indexes([map[[] := [Child([], v)]]], map[[] := v])
  {
    var root: Level := map[[] := [Child([], v)]];
    FirstNodeOK(v);
    UnfoldIndex(root, map[[] := v]);
    assert Sums(root).Keys == {[]};
    IndexesCons(root, [], map[[] := v]);
  }

  /** `Set` never panics and re-indexes the map with the new value. */
  lemma WithEntryOK(upper: seq<Level>, leaves: map<Bytes, int>, key: Bytes, acc: int, m: nat)
    requires upper != [] && Indexes(upper, leaves)
    ensures var r := WithEntry(upper, key, acc, m);
            && r.Some? && |upper| <= |r.value| <= |upper| + 1 && Indexes(r.value, leaves[key := acc])
            && (Sized(upper, m, true) ==> Sized(r.value, m, true))
  {
    ParentKeyOK(upper, leaves, key);
    AfterPushIndexes(upper, leaves, ParentKey(upper, key), Child(key, acc), m);
    if Sized(upper, m, true) {
      PushedSized(upper, leaves, ParentKey(upper, key), Child(key, acc), m, true);
    }
  }

  /** What `SubsetAccumulation` returns, over the plain map. */
  ghost function SubsetSum(leaves: map<Bytes, int>, start: Option<Bytes>, end: Option<Bytes>): int {
    match (start, end)
    case (None, None) => Below(leaves, []) + Get(leaves, [])
    case (None, Some(b)) => Below(leaves, b) + Get(leaves, b)
    case (Some(a), None) => Get(leaves, a) + Above(leaves, a)
    case (Some(a), Some(b)) => Get(leaves, a) + Above(leaves, a) - Above(leaves, b)
  }

  lemma EmptyKeyIsLeast(leaves: map<Bytes, int>)
    ensures Below(leaves, []) == 0
  {
    assert Only(leaves, KeysBelow(leaves, [])) == map[];
  }

  /** For bounds in order, every form of the query is the inclusive range sum of the map. */
  lemma SubsetSumIsRange(leaves: map<Bytes, int>, a: Bytes, b: Bytes)
    requires Rank(a) <= Rank(b)
    ensures SubsetSum(leaves, Some(a), Some(b)) == Range(leaves, a, b)
    ensures SubsetSum(leaves, None, Some(b)) == Range(leaves, [], b)
    ensures SubsetSum(leaves, Some(a), None) == Range(leaves, a, b) + Above(leaves, b)
  {
    RangeAndBeyond(leaves, a, b);
    RangeAndBeyond(leaves, [], b);
    EmptyKeyIsLeast(leaves);
    WholeSum(leaves, []);
    WholeSum(leaves, b);
  }

  lemma RangeAndBeyond(leaves: map<Bytes, int>, a: Bytes, b: Bytes)
    requires Rank(a) <= Rank(b)
    ensures Range(leaves, a, b) + Above(leaves, b) == Get(leaves, a) + Above(leaves, a)
  {
    var r, hi, up := KeysBetween(leaves, a, b), KeysAbove(leaves, b), KeysAbove(leaves, a);
    OnlyDisjoint(leaves, r, hi);
    OnlyDisjoint(leaves, {a}, up);
    OnlyOne(leaves, a);
    FromUp(leaves, a, b);
  }

  lemma FromUp(leaves: map<Bytes, int>, a: Bytes, b: Bytes)
    requires Rank(a) <= Rank(b)
    ensures Only(leaves, KeysBetween(leaves, a, b) + KeysAbove(leaves, b)) == Only(leaves, {a} + KeysAbove(leaves, a))
  {
    forall s | s in leaves && Rank(s) == Rank(a)
      ensures s == a
    {
      RankInjective(s, a);
    }
  }

  lemma TopIsEmptyKey(upper: seq<Level>, leaves: map<Bytes, int>)
    requires upper != [] && Indexes(upper, leaves)
    ensures upper[|upper| - 1].Keys == {[]}
  {
    IndexesFrom(upper, leaves, |upper|);
    assert Sums(upper[|upper| - 1]).Keys == upper[|upper| - 1].Keys;
  }

  lemma FloorIsParent(above: seq<Level>, p: Bytes, k: Bytes)
    requires above != [] && IsFloor(above[0].Keys, p, k)
    ensures ParentKey(above, k) == p
  {
    FloorUnique(above[0].Keys, p, ParentKey(above, k), k);
  }

  lemma SameKeyIsParent(above: seq<Level>, k: Bytes)
    requires above != [] && k in above[0]
    ensures ParentKey(above, k) == k
  {
    FloorIsParent(above, k, k);
  }

  lemma NoFloor(above: seq<Level>, k: Bytes)
    requires above != [] ==> k !in above[0] && forall x | x in above[0] :: Rank(x) >= Rank(k)
    ensures ParentKey(above, k) == []
  {
    if above != [] {
      if x :| IsFloor(above[0].Keys, x, k) {
        RankInjective(x, k);
      }
    }
  }

  // ------------------------------------------------------------- cutting the levels

  lemma Slices<T>(s: seq<T>, l: nat, x: T)
    requires 1 <= l <= |s|
    ensures s[l - 1 := x][l..] == s[l - 1..][1..] == s[l..]
    ensures s[l - 1 := x][..l] == s[..l - 1] + [x]
  {
  }

  lemma Regroup<T>(a: seq<T>, x: T, b: seq<T>)
    ensures a + [x] + b == a + ([x] + b)
  {
  }

  lemma Recut<T>(a: seq<T>, x: T, b: seq<T>)
    ensures var s := a + [x] + b; s[|a|] == x && s[..|a|] == a && s[|a| + 1..] == b
  {
  }

  lemma Rejoin<T>(s: seq<T>, l: nat, x: T)
    requires 1 <= l <= |s|
    ensures s[l - 1 := x] == s[..l - 1] + ([x] + s[l - 1..][1..])
  {
  }

  lemma NewHere(upper: seq<Level>, l: nat, p: Bytes, node: Node)
    requires 1 <= l <= |upper| + 1
    ensures WithNode(upper, l, p, node) == upper[..l - 1] + Created(upper[l - 1..], p, node)
  {
    if l == |upper| + 1 {
      assert upper[l - 1..] == [] && upper[..l - 1] == upper;
    } else {
      Rejoin(upper, l, upper[l - 1][p := node]);
    }
  }

  /** A node above level `l`, in the level there or in a new one. */
  lemma NewTop(upper: seq<Level>, l: nat, nodes: Level, q: Bytes, root: Node, nodes': Level)
    requires 1 <= l <= |upper|
    ensures var grown := WithNode(upper[l - 1 := nodes], l + 1, q, root);
            && l <= |grown| && grown[l - 1] == nodes
            && grown[l - 1 := nodes'] == upper[..l - 1] + [nodes'] + Created(upper[l..], q, root)
  {
    if l == |upper| {
      assert upper[l..] == [];
      Appended(upper, l, nodes, map[q := root], nodes');
    } else {
      Overwritten(upper, l, nodes, upper[l][q := root], nodes');
    }
  }

  lemma Appended<T>(s: seq<T>, l: nat, x: T, t: T, y: T)
    requires 1 <= l == |s|
    ensures (s[l - 1 := x] + [t])[l - 1 := y] == s[..l - 1] + [y] + [t]
  {
  }

  lemma Overwritten<T>(s: seq<T>, l: nat, x: T, t: T, y: T)
    requires 1 <= l < |s|
    ensures s[l - 1 := x][l := t][l - 1 := y] == s[..l - 1] + [y] + ([t] + s[l..][1..])
  {
  }

  lemma Replace<T>(s: seq<T>, l: nat, rest: seq<T>, x: T)
    requires 1 <= l <= |s|
    ensures (s[..l] + rest)[l - 1 := x] == s[..l - 1] + ([x] + rest)
  {
  }
}
