/** The flat, ordered key-value store under the sum tree.

    Every node and leaf lives under `"node/" ++ level ++ key`, the level as two
    big-endian bytes, and there are no pointers: neighbours and the root are
    found by the byte order of the store keys alone. */
module SumTreeStore {
  import opened ByteKeys
  import opened Folding
  import opened SumTreeLevels

  datatype Entry = Leaf(acc: int) | Branch(children: Node)
  datatype Ptr = Ptr(level: nat, key: Bytes)

  /** Levels are unsigned 16-bit counters. */
  const LEVELS: nat := 0x1_0000
  const NODE_PREFIX: Bytes := [110, 111, 100, 101, 47]  // "node/"

  function High(level: nat): byte { (level / 256 % 256) as byte }

  function Low(level: nat): byte { (level % 256) as byte }

  function NodeKey(level: nat, key: Bytes): Bytes {
    NODE_PREFIX + [High(level), Low(level)] + key
  }

  function LevelOf(b: Bytes): nat
    requires |b| >= 7
  {
    b[5] as nat * 256 + b[6] as nat
  }

  /** A store key splits back into the level (modulo the counter's width) and the key. */
  lemma NodeKeyParts(level: nat, key: Bytes)
    ensures |NodeKey(level, key)| == 7 + |key| && NodeKey(level, key)[7..] == key
    ensures LevelOf(NodeKey(level, key)) == level % LEVELS
  {
    assert level % 65536 == (level / 256 % 256) * 256 + level % 256;
  }

  lemma PrefixedOrder(l1: byte, l0: byte, a: Bytes, r1: byte, r0: byte, b: Bytes)
    ensures Rank(NODE_PREFIX + [l1, l0] + a) < Rank(NODE_PREFIX + [r1, r0] + b)
            <==> l1 < r1 || (l1 == r1 && (l0 < r0 || (l0 == r0 && Rank(a) < Rank(b))))
  {
    RankCons(l0, a, r0, b);
    RankCons(l1, [l0] + a, r1, [r0] + b);
    var x, y := [l1] + ([l0] + a), [r1] + ([r0] + b);
    RankConcat(NODE_PREFIX, x, y);
    assert NODE_PREFIX + [l1, l0] + a == NODE_PREFIX + x && NODE_PREFIX + [r1, r0] + b == NODE_PREFIX + y;
  }

  lemma LevelBytesOrder(l: nat, r: nat)
    requires l < LEVELS && r < LEVELS
    ensures l < r <==> High(l) < High(r) || (High(l) == High(r) && Low(l) < Low(r))
    ensures l == r <==> High(l) == High(r) && Low(l) == Low(r)
  {
  }

  /** Byte order on store keys is order by level first, then by key. */
  lemma NodeKeyOrder(l: nat, a: Bytes, r: nat, b: Bytes)
    requires l < LEVELS && r < LEVELS
    ensures Rank(NodeKey(l, a)) < Rank(NodeKey(r, b)) <==> l < r || (l == r && Rank(a) < Rank(b))
  {
    PrefixedOrder(High(l), Low(l), a, High(r), Low(r), b);
    LevelBytesOrder(l, r);
  }

  lemma NodeKeyInjective(l: nat, a: Bytes, r: nat, b: Bytes)
    requires l < LEVELS && r < LEVELS && NodeKey(l, a) == NodeKey(r, b)
    ensures l == r && a == b
  {
    NodeKeyParts(l, a);
    NodeKeyParts(r, b);
  }

  // ------------------------------------------- what a store holds, level by level

  ghost predicate Present(leaves: map<Bytes, int>, upper: seq<Level>, l: nat, k: Bytes) {
    if l == 0 then k in leaves else l <= |upper| && k in upper[l - 1]
  }

  ghost function KeysAt(leaves: map<Bytes, int>, upper: seq<Level>, l: nat): set<Bytes> {
    if l == 0 then leaves.Keys else if l <= |upper| then upper[l - 1].Keys else {}
  }

  ghost function EntryAt(leaves: map<Bytes, int>, upper: seq<Level>, l: nat, k: Bytes): Entry
    requires Present(leaves, upper, l, k)
  {
    if l == 0 then Leaf(leaves[k]) else Branch(upper[l - 1][k])
  }

  /** `b` is the store key of a leaf or node that is present. */
  ghost predicate Addresses(leaves: map<Bytes, int>, upper: seq<Level>, b: Bytes) {
    |b| >= 7 && b == NodeKey(LevelOf(b), b[7..]) && Present(leaves, upper, LevelOf(b), b[7..])
  }

  /** `store` holds exactly these leaves and nodes. */
  ghost predicate Represents(store: map<Bytes, Entry>, leaves: map<Bytes, int>, upper: seq<Level>) {
    && |upper| < LEVELS
    && (forall l: nat, k {:trigger Present(leaves, upper, l, k)} | Present(leaves, upper, l, k) ::
          NodeKey(l, k) in store && store[NodeKey(l, k)] == EntryAt(leaves, upper, l, k))
    && (forall b | b in store :: Addresses(leaves, upper, b))
  }

  lemma PresentIffStored(store: map<Bytes, Entry>, leaves: map<Bytes, int>, upper: seq<Level>, l: nat, k: Bytes)
    requires Represents(store, leaves, upper) && l < LEVELS
    ensures NodeKey(l, k) in store <==> Present(leaves, upper, l, k)
  {
    NodeKeyParts(l, k);
  }

  /** The levels after writing `node` at `l`, opening a new top level if there is none there. */
  ghost function WithNode(upper: seq<Level>, l: nat, k: Bytes, node: Node): seq<Level>
    requires 1 <= l <= |upper| + 1
  {
    if l <= |upper| then upper[l - 1 := upper[l - 1][k := node]] else upper + [map[k := node]]
  }

  lemma WriteNode(store: map<Bytes, Entry>, leaves: map<Bytes, int>, upper: seq<Level>, l: nat, k: Bytes, node: Node)
    requires Represents(store, leaves, upper) && 1 <= l <= |upper| + 1 && l < LEVELS
    ensures Represents(store[NodeKey(l, k) := Branch(node)], leaves, WithNode(upper, l, k, node))
  {
    WriteEntry(store, leaves, upper, leaves, WithNode(upper, l, k, node), l, k);
  }

  lemma WriteLeaf(store: map<Bytes, Entry>, leaves: map<Bytes, int>, upper: seq<Level>, k: Bytes, v: int)
    requires Represents(store, leaves, upper)
    ensures Represents(store[NodeKey(0, k) := Leaf(v)], leaves[k := v], upper)
  {
    WriteEntry(store, leaves, upper, leaves[k := v], upper, 0, k);
  }

  /** Nothing but `(l, k)` differs between the two. */
  ghost predicate SameElsewhere(leaves: map<Bytes, int>, upper: seq<Level>, leaves': map<Bytes, int>, upper': seq<Level>, l: nat, k: Bytes) {
    forall r: nat, x {:trigger Present(leaves', upper', r, x)} | (r, x) != (l, k) ::
      && (Present(leaves, upper, r, x) <==> Present(leaves', upper', r, x))
      && (Present(leaves, upper, r, x) ==> EntryAt(leaves, upper, r, x) == EntryAt(leaves', upper', r, x))
  }

  lemma StoredElsewhere(store: map<Bytes, Entry>, leaves: map<Bytes, int>, upper: seq<Level>,
                        leaves': map<Bytes, int>, upper': seq<Level>, l: nat, k: Bytes, e: Entry, r: nat, x: Bytes)
    requires Represents(store, leaves, upper) && l < LEVELS && |upper'| < LEVELS
    requires SameElsewhere(leaves, upper, leaves', upper', l, k) && (r, x) != (l, k) && Present(leaves', upper', r, x)
    ensures var store' := store[NodeKey(l, k) := e];
            NodeKey(r, x) in store' && store'[NodeKey(r, x)] == EntryAt(leaves', upper', r, x)
  {
    assert Present(leaves, upper, r, x);
    if NodeKey(r, x) == NodeKey(l, k) {
      NodeKeyInjective(r, x, l, k);
    }
  }

  lemma AddressedElsewhere(leaves: map<Bytes, int>, upper: seq<Level>, leaves': map<Bytes, int>, upper': seq<Level>, l: nat, k: Bytes, b: Bytes)
    requires SameElsewhere(leaves, upper, leaves', upper', l, k) && Addresses(leaves, upper, b) && b != NodeKey(l, k)
    ensures Addresses(leaves', upper', b)
  {
    assert (LevelOf(b), b[7..]) != (l, k);
    assert Present(leaves', upper', LevelOf(b), b[7..]);
  }

  lemma WriteEntry(store: map<Bytes, Entry>, leaves: map<Bytes, int>, upper: seq<Level>,
                   leaves': map<Bytes, int>, upper': seq<Level>, l: nat, k: Bytes)
    requires Represents(store, leaves, upper) && l < LEVELS && |upper'| < LEVELS
    requires Present(leaves', upper', l, k) && SameElsewhere(leaves, upper, leaves', upper', l, k)
    ensures Represents(store[NodeKey(l, k) := EntryAt(leaves', upper', l, k)], leaves', upper')
  {
    var e := EntryAt(leaves', upper', l, k);
    var store' := store[NodeKey(l, k) := e];
    forall r: nat, x | Present(leaves', upper', r, x)
      ensures NodeKey(r, x) in store' && store'[NodeKey(r, x)] == EntryAt(leaves', upper', r, x)
    {
      if (r, x) != (l, k) {
        StoredElsewhere(store, leaves, upper, leaves', upper', l, k, e, r, x);
      }
    }
    forall b | b in store'
      ensures Addresses(leaves', upper', b)
    {
      if b == NodeKey(l, k) {
        NodeKeyParts(l, k);
      } else {
        assert Addresses(leaves, upper, b);
        AddressedElsewhere(leaves, upper, leaves', upper', l, k, b);
      }
    }
  }

  ghost predicate StoreTriple(x: (map<Bytes, Entry>, map<Bytes, int>, seq<Level>)) { Represents(x.0, x.1, x.2) }

  /** `Represents`, kept folded. */
  ghost predicate IsStoreOf(store: map<Bytes, Entry>, leaves: map<Bytes, int>, upper: seq<Level>) {
    Folded(StoreTriple)((store, leaves, upper))
  }

  lemma UnfoldStore(store: map<Bytes, Entry>, leaves: map<Bytes, int>, upper: seq<Level>)
    ensures IsStoreOf(store, leaves, upper) <==> Represents(store, leaves, upper)
  {
    Unfold(StoreTriple, (store, leaves, upper));
  }
}
