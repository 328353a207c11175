/** `accumulationSplit` and why it agrees with the plain map of leaves. */
module SumTreeQueries {
  import opened ByteKeys
  import opened Folding
  import opened MapSums
  import opened Options
  import opened SumTreeLevels
  import opened SumTreeEdits

  // ------------------------------------------------------- sums over parts of a map

  ghost function Only<K>(m: map<K, int>, ks: set<K>): map<K, int> {
    map k | k in m && k in ks :: m[k]
  }

  lemma OnlyDisjoint<K>(m: map<K, int>, a: set<K>, b: set<K>)
    requires a !! b
    ensures Sum(Only(m, a + b)) == Sum(Only(m, a)) + Sum(Only(m, b))
  {
    assert Only(m, a + b) == Only(m, a) + Only(m, b);
    SumDisjoint(Only(m, a), Only(m, b));
  }

  lemma OnlyOne<K>(m: map<K, int>, k: K)
    ensures Sum(Only(m, {k})) == Get(m, k)
  {
    if k in m {
      SumPick(Only(m, {k}), k);
      assert Only(m, {k}) - {k} == map[];
    } else {
      assert Only(m, {k}) == map[];
    }
  }

  ghost function KeysBelow(m: map<Bytes, int>, k: Bytes): set<Bytes> { set s | s in m && Rank(s) < Rank(k) }

  ghost function KeysAbove(m: map<Bytes, int>, k: Bytes): set<Bytes> { set s | s in m && Rank(k) < Rank(s) }

  ghost function Below(m: map<Bytes, int>, k: Bytes): int { Sum(Only(m, KeysBelow(m, k))) }

  ghost function Above(m: map<Bytes, int>, k: Bytes): int { Sum(Only(m, KeysAbove(m, k))) }

  /** Sum of the values of all keys from `a` to `b`, both included. */
  ghost function Range(m: map<Bytes, int>, a: Bytes, b: Bytes): int {
    Sum(Only(m, KeysBetween(m, a, b)))
  }

  ghost function KeysBetween(m: map<Bytes, int>, a: Bytes, b: Bytes): set<Bytes> {
    set s | s in m && Rank(a) <= Rank(s) <= Rank(b)
  }

  // ---------------------------------------------------------------------- one level

  ghost function Indices(cs: Node): set<Bytes> {
    set i | 0 <= i < |cs| :: cs[i].index
  }

  lemma IndicesSnoc(cs: Node, c: Child)
    ensures Indices(cs + [c]) == Indices(cs) + {c.index}
    ensures Sorted(cs + [c]) ==> c.index !in Indices(cs)
  {
    var d := cs + [c];
    assert d[|cs|] == c;
    forall i | 0 <= i < |cs|
      ensures cs[i].index in Indices(d) && (Sorted(d) ==> cs[i].index != c.index)
    {
      assert d[i] == cs[i];
    }
    forall i | 0 <= i < |d|
      ensures d[i].index in Indices(cs) + {c.index}
    {
      assert i < |cs| ==> d[i] == cs[i];
    }
  }

  lemma OnlyAndOne(m: map<Bytes, int>, ks: set<Bytes>, k: Bytes)
    requires k in m && k !in ks
    ensures Sum(Only(m, ks + {k})) == Sum(Only(m, ks)) + m[k]
  {
    OnlyDisjoint(m, ks, {k});
    OnlyOne(m, k);
  }

  lemma {:induction false} ListSum(cs: Node, m: map<Bytes, int>)
    requires Sorted(cs)
    requires forall i | 0 <= i < |cs| :: cs[i].index in m && m[cs[i].index] == cs[i].acc
    ensures Sum(Only(m, Indices(cs))) == Accumulated(cs)
  {
    if cs == [] {
      assert Only(m, Indices(cs)) == map[];
    } else {
      var front, last := cs[..|cs| - 1], cs[|cs| - 1];
      ListSum(front, m);
      IndicesSnoc(front, last);
      assert cs == front + [last];
      OnlyAndOne(m, Indices(front), last.index);
    }
  }

  /** Entries of a level are ordered by node first, then by position. */
  lemma EntryOrder(nodes: Level, sums: map<Bytes, int>, x: Bytes, i: nat, z: Bytes, j: nat)
    requires IsIndex(nodes, sums) && x in nodes && z in nodes && i < |nodes[x]| && j < |nodes[z]|
    ensures Rank(nodes[x][i].index) < Rank(nodes[z][j].index) <==> Rank(x) < Rank(z) || (x == z && i < j)
    ensures nodes[x][i].index in sums && sums[nodes[x][i].index] == nodes[x][i].acc
  {
    UnfoldIndex(nodes, sums);
    assert IsFloor(nodes.Keys, x, nodes[x][i].index) && IsFloor(nodes.Keys, z, nodes[z][j].index);
    if Rank(x) == Rank(z) {
      RankInjective(x, z);
    }
  }

  lemma Locate(nodes: Level, sums: map<Bytes, int>, s: Bytes) returns (z: Bytes, i: nat)
    requires IsIndex(nodes, sums) && s in sums
    ensures z in nodes && i < |nodes[z]| && nodes[z][i].index == s
  {
    UnfoldIndex(nodes, sums);
    z := FloorExists(nodes.Keys, s);
    i :| i < |nodes[z]| && nodes[z][i].index == s;
  }

  lemma NodeSum(nodes: Level, sums: map<Bytes, int>, x: Bytes, i: nat, j: nat)
    requires IsIndex(nodes, sums) && x in nodes && i <= j <= |nodes[x]|
    ensures Sum(Only(sums, Indices(nodes[x][i..j]))) == Accumulated(nodes[x][i..j])
  {
    UnfoldIndex(nodes, sums);
    ListSum(nodes[x][i..j], sums);
  }

  ghost function Covered(nodes: Level, xs: set<Bytes>): set<Bytes>
    requires xs <= nodes.Keys
  {
    set x, i | x in xs && 0 <= i < |nodes[x]| :: nodes[x][i].index
  }

  lemma {:induction false} CoveredSum(nodes: Level, sums: map<Bytes, int>, xs: set<Bytes>)
    requires IsIndex(nodes, sums) && xs <= nodes.Keys
    ensures Sum(Only(sums, Covered(nodes, xs))) == Sum(Only(Sums(nodes), xs))
    decreases xs
  {
    if xs == {} {
      assert Only(sums, Covered(nodes, xs)) == map[] == Only(Sums(nodes), xs);
    } else {
      var x :| x in xs;
      var ys := xs - {x};
      CoveredSum(nodes, sums, ys);
      assert xs == ys + {x};
      OnlyDisjoint(Sums(nodes), ys, {x});
      OnlyOne(Sums(nodes), x);
      var cs := nodes[x];
      assert cs[0..|cs|] == cs;
      NodeSum(nodes, sums, x, 0, |cs|);
      assert Covered(nodes, xs) == Covered(nodes, ys) + Indices(cs);
      forall z, j, i | z in ys && 0 <= j < |nodes[z]| && 0 <= i < |cs|
        ensures nodes[z][j].index != cs[i].index
      {
        EntryOrder(nodes, sums, x, i, z, j);
        EntryOrder(nodes, sums, z, j, x, i);
        if Rank(x) == Rank(z) {
          RankInjective(x, z);
        }
      }
      OnlyDisjoint(sums, Covered(nodes, ys), Indices(cs));
    }
  }

  /** What lies left of entry `i` of node `x`: the nodes left of `x`, and `x`'s first `i` entries. */
  lemma LevelBelow(nodes: Level, sums: map<Bytes, int>, x: Bytes, i: nat)
    requires IsIndex(nodes, sums) && x in nodes && i < |nodes[x]|
    ensures Below(sums, nodes[x][i].index) == Below(Sums(nodes), x) + Accumulated(nodes[x][..i])
  {
    var cs, y := nodes[x], nodes[x][i].index;
    var ks, xs := KeysBelow(sums, y), KeysBelow(Sums(nodes), x);
    assert xs == set z | z in nodes && Rank(z) < Rank(x);
    CoveredSum(nodes, sums, xs);
    assert cs[0..i] == cs[..i];
    NodeSum(nodes, sums, x, 0, i);
    forall s
      ensures s in ks <==> s in Covered(nodes, xs) || s in Indices(cs[..i])
      ensures !(s in Covered(nodes, xs) && s in Indices(cs[..i]))
    {
      PlaceBelow(nodes, sums, x, i, s);
    }
    assert ks == Covered(nodes, xs) + Indices(cs[..i]);
    OnlyDisjoint(sums, Covered(nodes, xs), Indices(cs[..i]));
  }

  lemma PlaceBelow(nodes: Level, sums: map<Bytes, int>, x: Bytes, i: nat, s: Bytes)
    requires IsIndex(nodes, sums) && x in nodes && i < |nodes[x]|
    ensures var xs := set z | z in nodes && Rank(z) < Rank(x);
            && (s in sums && Rank(s) < Rank(nodes[x][i].index)
                <==> s in Covered(nodes, xs) || s in Indices(nodes[x][..i]))
            && !(s in Covered(nodes, xs) && s in Indices(nodes[x][..i]))
  {
    var xs := set z | z in nodes && Rank(z) < Rank(x);
    if s in sums {
      var z, j := Locate(nodes, sums, s);
      Elsewhere(nodes, sums, xs, z, j);
      EntryOrder(nodes, sums, z, j, x, i);
      forall k | 0 <= k < i
        ensures nodes[x][k].index == s <==> z == x && j == k
      {
        SameEntry(nodes, sums, z, j, x, k);
      }
      if z == x && j < i {
        assert nodes[x][..i][j].index == s;
      }
    } else {
      NotEntry(nodes, sums, s);
    }
  }

  lemma SameEntry(nodes: Level, sums: map<Bytes, int>, x: Bytes, i: nat, z: Bytes, j: nat)
    requires IsIndex(nodes, sums) && x in nodes && z in nodes && i < |nodes[x]| && j < |nodes[z]|
    ensures nodes[x][i].index == nodes[z][j].index <==> x == z && i == j
  {
    EntryOrder(nodes, sums, x, i, z, j);
    EntryOrder(nodes, sums, z, j, x, i);
    if Rank(x) == Rank(z) {
      RankInjective(x, z);
    }
  }

  lemma Elsewhere(nodes: Level, sums: map<Bytes, int>, xs: set<Bytes>, z: Bytes, j: nat)
    requires IsIndex(nodes, sums) && xs <= nodes.Keys && z in nodes && j < |nodes[z]|
    ensures nodes[z][j].index in Covered(nodes, xs) <==> z in xs
  {
    if nodes[z][j].index in Covered(nodes, xs) {
      var x, i :| x in xs && 0 <= i < |nodes[x]| && nodes[x][i].index == nodes[z][j].index;
      SameEntry(nodes, sums, x, i, z, j);
    }
  }

  lemma NotEntry(nodes: Level, sums: map<Bytes, int>, s: Bytes)
    requires IsIndex(nodes, sums) && s !in sums
    ensures forall x, i | x in nodes && 0 <= i < |nodes[x]| :: nodes[x][i].index != s
  {
    forall x, i | x in nodes && 0 <= i < |nodes[x]|
      ensures nodes[x][i].index != s
    {
      EntryOrder(nodes, sums, x, i, x, i);
    }
  }

  lemma {:induction false} AccumulatedSplit(a: Node, b: Node)
    ensures Accumulated(a + b) == Accumulated(a) + Accumulated(b)
  {
    if b == [] {
      assert a + b == a;
    } else {
      AccumulatedSplit(a, b[..|b| - 1]);
      assert (a + b)[..|a + b| - 1] == a + b[..|b| - 1];
    }
  }

  lemma WholeSum(m: map<Bytes, int>, k: Bytes)
    ensures Below(m, k) + Get(m, k) + Above(m, k) == Sum(m)
  {
    var b, a := KeysBelow(m, k), KeysAbove(m, k);
    OnlyDisjoint(m, b, {k});
    OnlyOne(m, k);
    OnlyDisjoint(m, b + {k}, a);
    EitherSide(m, k);
  }

  lemma EitherSide(m: map<Bytes, int>, k: Bytes)
    ensures Only(m, KeysBelow(m, k) + {k} + KeysAbove(m, k)) == m
  {
    forall s | s in m
      ensures s in KeysBelow(m, k) + {k} + KeysAbove(m, k)
    {
      if Rank(s) == Rank(k) {
        RankInjective(s, k);
      }
    }
  }

  /** A level carries the same total as what it indexes. */
  lemma LevelTotal(nodes: Level, sums: map<Bytes, int>)
    requires IsIndex(nodes, sums)
    ensures Sum(Sums(nodes)) == Sum(sums)
  {
    CoveredSum(nodes, sums, nodes.Keys);
    forall s | s in sums
      ensures s in Covered(nodes, nodes.Keys)
    {
      var z, j := Locate(nodes, sums, s);
    }
    assert Only(sums, Covered(nodes, nodes.Keys)) == sums;
    assert Only(Sums(nodes), nodes.Keys) == Sums(nodes);
  }

  lemma LevelAbove(nodes: Level, sums: map<Bytes, int>, x: Bytes, i: nat)
    requires IsIndex(nodes, sums) && x in nodes && i < |nodes[x]|
    ensures Above(sums, nodes[x][i].index) == Above(Sums(nodes), x) + Accumulated(nodes[x][i + 1..])
  {
    var cs := nodes[x];
    LevelBelow(nodes, sums, x, i);
    LevelTotal(nodes, sums);
    WholeSum(sums, cs[i].index);
    WholeSum(Sums(nodes), x);
    EntryOrder(nodes, sums, x, i, x, i);
    assert cs == cs[..i] + ([cs[i]] + cs[i + 1..]);
    AccumulatedSplit(cs[..i], [cs[i]] + cs[i + 1..]);
    AccumulatedSplit([cs[i]], cs[i + 1..]);
  }

  // ------------------------------------------------------------------ the whole tree

  datatype Split = Split(left: int, exact: int, right: int)

  /** The child to descend into; negative if every child lies right of `key`. */
  function Descend(cs: Node, key: Bytes): int {
    var s := SlotFrom(cs, key, 0);
    if s.found then s.idx else s.idx - 1
  }

  ghost function Widen(sub: Split, cs: Node, i: nat): Split
    requires i < |cs|
  {
    Split(sub.left + Accumulated(cs[..i]), sub.exact, sub.right + Accumulated(cs[i + 1..]))
  }

  /** `ptr.accumulationSplit` at level `l`, node `x`. */
  ghost function SplitAt(leaves: map<Bytes, int>, us: seq<Level>, l: nat, x: Bytes, key: Bytes): Option<Split>
    requires l <= |us|
  {
    if l == 0 then
      if x !in leaves then None
      else if Compare(x, key) < 0 then Some(Split(leaves[x], 0, 0))
      else if Compare(x, key) == 0 then Some(Split(0, leaves[x], 0))
      else Some(Split(0, 0, leaves[x]))
    else if x !in us[l - 1] then None
    else
      var cs := us[l - 1][x];
      var i := Descend(cs, key);
      if i < 0 || i >= |cs| then None else
      var sub :- SplitAt(leaves, us, l - 1, cs[i].index, key);
      Some(Widen(sub, cs, i))
  }

  datatype Question = Question(leaves: map<Bytes, int>, us: seq<Level>, l: nat, x: Bytes, key: Bytes)

  ghost function Answered(y: Question): Option<Split> {
    if y.l <= |y.us| then SplitAt(y.leaves, y.us, y.l, y.x, y.key) else None
  }

  /** `SplitAt`, kept folded. */
  ghost function Answer(y: Question): Option<Split> { FoldedFn(Answered)(y) }

  lemma UnfoldAnswer(y: Question)
    requires y.l <= |y.us|
    ensures Answer(y) == SplitAt(y.leaves, y.us, y.l, y.x, y.key)
  {
    UnfoldFn(Answered, y);
  }

  lemma AnswerStep(y: Question, i: int)
    requires 1 <= y.l <= |y.us| && y.x in y.us[y.l - 1] && i == Descend(y.us[y.l - 1][y.x], y.key)
    ensures var cs := y.us[y.l - 1][y.x];
            if i < 0 || i >= |cs| then Answer(y) == None else
              var sub := Answer(y.(l := y.l - 1, x := cs[i].index));
              Answer(y) == if sub.None? then None else Some(Widen(sub.value, cs, i))
  {
    UnfoldAnswer(y);
    var cs := y.us[y.l - 1][y.x];
    if 0 <= i < |cs| {
      UnfoldAnswer(y.(l := y.l - 1, x := cs[i].index));
    }
  }

  ghost function SumsAt(leaves: map<Bytes, int>, us: seq<Level>, l: nat): map<Bytes, int>
    requires l <= |us|
  {
    if l == 0 then leaves else Sums(us[l - 1])
  }

  lemma {:induction false} IndexesFrom(us: seq<Level>, sums: map<Bytes, int>, l: nat)
    requires Indexes(us, sums) && l <= |us|
    ensures Indexes(us[l..], SumsAt(sums, us, l))
  {
    if l == 0 {
      assert us[0..] == us;
    } else {
      IndexesFrom(us[1..], Sums(us[0]), l - 1);
      assert us[1..][l - 1..] == us[l..];
      assert l > 1 ==> us[1..][l - 2] == us[l - 1];
    }
  }

  /** On the path to `key`, `Descend` picks the entry that covers `key` one level down. */
  lemma DescendOK(nodes: Level, sums: map<Bytes, int>, x: Bytes, key: Bytes)
    requires IsIndex(nodes, sums) && IsFloor(nodes.Keys, x, key)
    ensures 0 <= Descend(nodes[x], key) < |nodes[x]|
    ensures IsFloor(sums.Keys, nodes[x][Descend(nodes[x], key)].index, key)
  {
    var cs, i := nodes[x], Descend(nodes[x], key);
    ScanOK(nodes, sums, x, key);
    forall s | s in sums.Keys && Rank(s) <= Rank(key)
      ensures Rank(s) <= Rank(cs[i].index)
    {
      var z, j := Locate(nodes, sums, s);
      EntryOrder(nodes, sums, x, i, z, j);
      EntryOrder(nodes, sums, z, 0, z, j);
      UnfoldIndex(nodes, sums);
    }
    EntryOrder(nodes, sums, x, i, x, i);
  }

  lemma ScanOK(nodes: Level, sums: map<Bytes, int>, x: Bytes, key: Bytes)
    requires IsIndex(nodes, sums) && IsFloor(nodes.Keys, x, key)
    ensures 0 <= Descend(nodes[x], key) < |nodes[x]|
    ensures Rank(nodes[x][Descend(nodes[x], key)].index) <= Rank(key)
    ensures forall j | Descend(nodes[x], key) < j < |nodes[x]| :: Rank(nodes[x][j].index) > Rank(key)
  {
    UnfoldIndex(nodes, sums);
    SlotFromOK(nodes[x], key, 0);
    assert Rank(nodes[x][0].index) <= Rank(key);
  }

  lemma LeafSplit(leaves: map<Bytes, int>, x: Bytes, key: Bytes)
    requires IsFloor(leaves.Keys, x, key)
    ensures Below(leaves, x) + (if x == key then 0 else leaves[x]) == Below(leaves, key)
    ensures x != key ==> key !in leaves
    ensures Above(leaves, x) == Above(leaves, key)
  {
    if x != key && Rank(x) == Rank(key) {
      RankInjective(x, key);
    }
    var a, b := KeysBelow(leaves, x), KeysBelow(leaves, key);
    if x != key {
      forall s | s in b
        ensures s in a + {x}
      {
        if Rank(s) == Rank(x) {
          RankInjective(s, x);
        }
      }
      assert b == a + {x};
      OnlyDisjoint(leaves, a, {x});
      OnlyOne(leaves, x);
    }
    WholeSum(leaves, x);
    WholeSum(leaves, key);
  }

  lemma {:induction false} SplitAtOK(leaves: map<Bytes, int>, us: seq<Level>, l: nat, x: Bytes, key: Bytes)
    requires Indexes(us, leaves) && l <= |us| && IsFloor(SumsAt(leaves, us, l).Keys, x, key)
    ensures SplitAt(leaves, us, l, x, key).Some?
    ensures var r := SplitAt(leaves, us, l, x, key).value;
            && r.left + Below(SumsAt(leaves, us, l), x) == Below(leaves, key)
            && r.exact == Get(leaves, key)
            && r.right + Above(SumsAt(leaves, us, l), x) == Above(leaves, key)
  {
    if l == 0 {
      LeafSplit(leaves, x, key);
    } else {
      var nodes, sums := us[l - 1], SumsAt(leaves, us, l - 1);
      IndexesFrom(us, leaves, l - 1);
      assert SumsAt(leaves, us, l).Keys == nodes.Keys;
      DescendOK(nodes, sums, x, key);
      var i := Descend(nodes[x], key);
      SplitAtOK(leaves, us, l - 1, nodes[x][i].index, key);
      LevelBelow(nodes, sums, x, i);
      LevelAbove(nodes, sums, x, i);
    }
  }

  /** From the root, the split is exactly the plain map's sums below, at and above `key`. */
  lemma SplitOfMap(leaves: map<Bytes, int>, us: seq<Level>, key: Bytes)
    requires us != [] && Indexes(us, leaves)
    ensures SplitAt(leaves, us, |us|, [], key) == Some(Split(Below(leaves, key), Get(leaves, key), Above(leaves, key)))
  {
    var top := SumsAt(leaves, us, |us|);
    assert top.Keys == {[]} by {
      IndexesFrom(us, leaves, |us|);
      assert us[|us|..] == [];
    }
    OneKey(top, key);
    SplitAtOK(leaves, us, |us|, [], key);
    var r := SplitAt(leaves, us, |us|, [], key).value;
    assert r.left == Below(leaves, key);
    assert r.right == Above(leaves, key);
    assert r == Split(Below(leaves, key), Get(leaves, key), Above(leaves, key));
  }

  lemma OneKey(top: map<Bytes, int>, key: Bytes)
    requires top.Keys == {[]}
    ensures Below(top, []) == 0 && Above(top, []) == 0 && IsFloor(top.Keys, [], key)
  {
    assert Only(top, KeysBelow(top, [])) == map[];
    assert Only(top, KeysAbove(top, [])) == map[];
  }
}
