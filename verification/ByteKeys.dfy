/** Byte-string keys and their lexicographic order, as the ordered key-value
    store and `bytes.Compare` see them.

    `Rank` embeds the lexicographic order into the reals, so that order
    reasoning about keys becomes linear arithmetic.  Which embedding it is
    does not matter: `ValueEmbeds` shows there is one. */
module ByteKeys {
  newtype byte = x: int | 0 <= x < 256
  type Bytes = seq<byte>

  /** `bytes.Compare`: -1, 0 or 1. */
  function Compare(a: Bytes, b: Bytes): (c: int)
    ensures c in {-1, 0, 1}
    ensures c == 0 <==> a == b
  {
    if a == [] then (if b == [] then 0 else -1)
    else if b == [] then 1
    else if a[0] < b[0] then -1
    else if a[0] > b[0] then 1
    else
      assert a[1..] == b[1..] ==> a == [a[0]] + a[1..] && b == [b[0]] + b[1..];
      Compare(a[1..], b[1..])
  }

  ghost predicate OrderEmbedding(f: Bytes -> real) {
    && (forall a {:trigger f(a)} :: f(a) >= 0.0 && (f(a) == 0.0 <==> a == []))
    && (forall a, b {:trigger Compare(a, b)} ::
          (Compare(a, b) == -1 <==> f(a) < f(b)) && (Compare(a, b) == 1 <==> f(a) > f(b)))
  }

  /** A byte string read as a fraction in base 257. */
  ghost function Value(a: Bytes): (r: real)
    ensures 0.0 <= r < 1.0
    ensures r == 0.0 <==> a == []
  {
    if a == [] then 0.0 else (a[0] as int as real + 1.0 + Value(a[1..])) / 257.0
  }

  lemma {:induction false} ValueOrder(a: Bytes, b: Bytes)
    ensures Compare(a, b) == -1 <==> Value(a) < Value(b)
    ensures Compare(a, b) == 1 <==> Value(a) > Value(b)
  {
    if a != [] && b != [] {
      ValueOrder(a[1..], b[1..]);
    }
  }

  lemma ValueEmbeds()
    ensures OrderEmbedding(Value)
  {
    forall a, b
      ensures (Compare(a, b) == -1 <==> Value(a) < Value(b)) && (Compare(a, b) == 1 <==> Value(a) > Value(b))
    {
      ValueOrder(a, b);
    }
  }

  ghost function Embedding(): (f: Bytes -> real)
    ensures OrderEmbedding(f)
  {
    ValueEmbeds();
    var f :| OrderEmbedding(f);
    f
  }

  /** The place of a byte string in lexicographic order. */
  ghost function Rank(a: Bytes): real {
    Embedding()(a)
  }

  lemma RankInjective(a: Bytes, b: Bytes)
    requires Rank(a) == Rank(b)
    ensures a == b
  {
    assert Compare(a, b) == 0;
  }

  lemma RankCons(g: byte, a: Bytes, h: byte, b: Bytes)
    ensures Rank([g] + a) < Rank([h] + b) <==> g < h || (g == h && Rank(a) < Rank(b))
  {
    var x, y := [g] + a, [h] + b;
    assert x[1..] == a && y[1..] == b;
    assert Compare(x, y) == if g < h then -1 else if g > h then 1 else Compare(a, b);
  }

  lemma {:induction false} RankConcat(p: Bytes, a: Bytes, b: Bytes)
    ensures Rank(p + a) < Rank(p + b) <==> Rank(a) < Rank(b)
  {
    if p == [] {
      assert p + a == a && p + b == b;
    } else {
      RankConcat(p[1..], a, b);
      RankCons(p[0], p[1..] + a, p[0], p[1..] + b);
      assert p + a == [p[0]] + (p[1..] + a) && p + b == [p[0]] + (p[1..] + b);
    }
  }

  /** The greatest key of a non-empty set, which is what a reverse iterator yields first. */
  method Greatest(keys: set<Bytes>) returns (g: Bytes)
    requires keys != {}
    ensures g in keys
    ensures forall k | k in keys :: Rank(k) <= Rank(g)
  {
    var rest := keys;
    g :| g in rest;
    rest := rest - {g};
    while rest != {}
      invariant g in keys && rest <= keys
      invariant forall k | k in keys && k !in rest :: Rank(k) <= Rank(g)
      decreases rest
    {
      var k :| k in rest;
      if Compare(k, g) > 0 {
        g := k;
      }
      rest := rest - {k};
    }
  }
}
