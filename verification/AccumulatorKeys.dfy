/** Accumulators and their positions in one flat store, told apart by key strings
    alone: "accum||acc||{name}" and "accum||pos||{name}||{position}". */
module AccumulatorKeys {
  import opened Coins
  import opened Folding
  import opened AccumulatorState

  const ACCUM_PREFIX := "accum||acc||"
  const POSITION_PREFIX := "accum||pos||"
  const SEPARATOR := "||"

  datatype Entry = Content(value: DecCoins, total: int) | Position(record: Record)
  type Store = map<string, Entry>

  /** `formatAccumPrefixKey`. */
  function AccumKey(name: string): string { ACCUM_PREFIX + name }

  function PositionPrefix(name: string): string { POSITION_PREFIX + name + SEPARATOR }

  /** `FormatPositionPrefixKey`. */
  function PositionKey(name: string, position: string): string { PositionPrefix(name) + position }

  /** `strings.Contains(name, "||")`. */
  predicate HasSeparator(name: string) {
    exists i | 0 <= i < |name| - 1 :: name[i] == '|' && name[i + 1] == '|'
  }

  // ------------------------------------------------------------------ when keys collide

  lemma TwoBars(a: string, x: string, i: nat)
    requires |a| == i
    ensures (a + "||" + x)[i] == '|' && (a + "||" + x)[i + 1] == '|'
  {
  }

  lemma KeyTail(a: string, x: string)
    ensures PositionKey(a, x)[|POSITION_PREFIX|..] == a + "||" + x
  {
    assert PositionKey(a, x) == POSITION_PREFIX + (a + "||" + x);
  }

  /** The shorter of two colliding names is the longer one without a final bar. */
  lemma CollisionShape(a: string, x: string, b: string, y: string)
    requires a + "||" + x == b + "||" + y && |a| < |b| && !HasSeparator(b)
    ensures b == a + "|" && x == "|" + y
  {
    var k := a + "||" + x;
    TwoBars(a, x, |a|);
    TwoBars(b, y, |b|);
    assert forall i | 0 <= i < |b| :: k[i] == b[i];
    assert |b| < |a| + 2;
    assert a == k[..|a|] && b == k[..|a| + 1];
    assert b == a + [k[|a|]];
    assert x == k[|a| + 2..] && y == k[|a| + 3..];
    assert x == [k[|a| + 2]] + y;
  }

  /** Two accumulators share a position key exactly when one name is the other plus a
      single bar, which the check for "||" in names does not exclude. */
  lemma CollideIff(a: string, b: string)
    requires a != b && !HasSeparator(a) && !HasSeparator(b)
    ensures (exists x, y :: PositionKey(a, x) == PositionKey(b, y)) <==> b == a + "|" || a == b + "|"
  {
    if x, y :| PositionKey(a, x) == PositionKey(b, y) {
      KeyTail(a, x);
      KeyTail(b, y);
      assert a == (a + "||" + x)[..|a|] && b == (b + "||" + y)[..|b|];
      if |a| < |b| {
        CollisionShape(a, x, b, y);
      } else if |b| < |a| {
        CollisionShape(b, y, a, x);
      }
    }
    if b == a + "|" {
      assert PositionKey(a, "|") == PositionKey(b, "");
    }
    if a == b + "|" {
      assert PositionKey(a, "") == PositionKey(b, "|");
    }
  }

  /** Names an application may use side by side. */
  predicate Separate(a: string, b: string) {
    a != b && !HasSeparator(a) && !HasSeparator(b) && b != a + "|" && a != b + "|"
  }

  // ------------------------------------------------------- one accumulator's own records

  /** Every key under the position prefix holds a position. */
  ghost predicate Typed(m: Store) {
    forall k | k in m && POSITION_PREFIX <= k :: m[k].Position?
  }

  ghost predicate Exists(m: Store, name: string) {
    AccumKey(name) in m && m[AccumKey(name)].Content?
  }

  ghost function Names(m: Store, name: string): set<string> {
    set k | k in m && PositionPrefix(name) <= k :: k[|PositionPrefix(name)|..]
  }

  lemma InNames(m: Store, name: string, x: string)
    ensures x in Names(m, name) <==> PositionKey(name, x) in m
  {
    if PositionKey(name, x) in m {
      assert PositionPrefix(name) <= PositionKey(name, x);
      assert PositionKey(name, x)[|PositionPrefix(name)|..] == x;
    }
    if x in Names(m, name) {
      var k :| k in m && PositionPrefix(name) <= k && k[|PositionPrefix(name)|..] == x;
      assert k == PositionKey(name, x);
    }
  }

  lemma NamesStored(m: Store, name: string)
    requires Typed(m)
    ensures forall x {:trigger PositionKey(name, x)} :: x in Names(m, name) <==> PositionKey(name, x) in m
    ensures forall x | x in Names(m, name) :: PositionKey(name, x) in m && m[PositionKey(name, x)].Position?
  {
    forall x ensures x in Names(m, name) <==> PositionKey(name, x) in m {
      InNames(m, name, x);
    }
    forall x | x in Names(m, name)
      ensures m[PositionKey(name, x)].Position?
    {
      assert PositionKey(name, x)[..|POSITION_PREFIX|] == POSITION_PREFIX;
    }
  }

  /** The position records stored under `name`, whether there is an accumulator or not. */
  ghost function RecordsOf(m: Store, name: string): map<string, Record>
    requires Typed(m)
  {
    NamesStored(m, name);
    map x | x in Names(m, name) :: m[PositionKey(name, x)].record
  }

  /** The state of accumulator `name` as the store holds it. */
  ghost function View(m: Store, name: string): State
    requires Typed(m) && Exists(m, name)
  {
    State(m[AccumKey(name)].value, m[AccumKey(name)].total, RecordsOf(m, name))
  }

  lemma PrefixesDiffer(a: string, b: string)
    ensures AccumKey(a) != PositionPrefix(b) && !(POSITION_PREFIX <= AccumKey(a))
    ensures forall x :: AccumKey(a) != PositionKey(b, x)
  {
    assert AccumKey(a)[7] == 'a';
    assert forall x :: PositionKey(b, x)[7] == 'p';
  }

  lemma KeysInjective(a: string, x: string, y: string)
    requires PositionKey(a, x) == PositionKey(a, y)
    ensures x == y
  {
    assert PositionKey(a, x)[|PositionPrefix(a)|..] == x;
    assert PositionKey(a, y)[|PositionPrefix(a)|..] == y;
  }

  lemma SameView(m: Store, m': Store, b: string)
    requires Typed(m) && Typed(m') && Exists(m, b) && Exists(m', b) && m[AccumKey(b)] == m'[AccumKey(b)]
    requires forall x {:trigger PositionKey(b, x)} ::
               && (PositionKey(b, x) in m <==> PositionKey(b, x) in m')
               && (PositionKey(b, x) in m ==> m[PositionKey(b, x)] == m'[PositionKey(b, x)])
    ensures View(m, b) == View(m', b)
  {
    NamesStored(m, b);
    NamesStored(m', b);
    forall x ensures x in Names(m, b) <==> x in Names(m', b) {
      assert PositionKey(b, x) in m <==> PositionKey(b, x) in m';
    }
    assert Names(m, b) == Names(m', b);
  }

  lemma KeysDiffer(a: string, x: string, n: string)
    ensures PositionKey(a, x) == PositionKey(a, n) <==> x == n
  {
    if PositionKey(a, x) == PositionKey(a, n) {
      KeysInjective(a, x, n);
    }
  }

  /** The records are determined by the keys under the prefix. */
  lemma RecordAt(m: Store, a: string, x: string)
    requires Typed(m)
    ensures x in RecordsOf(m, a) <==> PositionKey(a, x) in m
    ensures x in RecordsOf(m, a) ==> m[PositionKey(a, x)] == Position(RecordsOf(m, a)[x])
  {
    NamesStored(m, a);
  }

  lemma WrittenAt(m: Store, m': Store, a: string, n: string, r: Record, x: string)
    requires Typed(m) && Typed(m') && m' == m[PositionKey(a, n) := Position(r)]
    ensures x in RecordsOf(m', a) <==> x in RecordsOf(m, a) || x == n
    ensures x in RecordsOf(m', a) ==> RecordsOf(m', a)[x] == if x == n then r else RecordsOf(m, a)[x]
  {
    KeysDiffer(a, x, n);
    RecordAt(m, a, x);
    RecordAt(m', a, x);
  }

  /** Writing a position record changes that record of that accumulator only. */
  lemma WritePosition(m: Store, a: string, n: string, r: Record)
    requires Typed(m) && Exists(m, a)
    ensures var m' := m[PositionKey(a, n) := Position(r)];
            Typed(m') && Exists(m', a) && View(m', a) == Put(View(m, a), n, r)
  {
    var m' := m[PositionKey(a, n) := Position(r)];
    PrefixesDiffer(a, a);
    forall x
      ensures x in RecordsOf(m', a) <==> x in RecordsOf(m, a) || x == n
      ensures x in RecordsOf(m', a) ==> RecordsOf(m', a)[x] == if x == n then r else RecordsOf(m, a)[x]
    {
      WrittenAt(m, m', a, n, r, x);
    }
    assert RecordsOf(m', a) == RecordsOf(m, a)[n := r];
  }

  lemma RemovePosition(m: Store, a: string, n: string)
    requires Typed(m) && Exists(m, a)
    ensures var m' := m - {PositionKey(a, n)};
            Typed(m') && Exists(m', a) && View(m', a) == View(m, a).(positions := View(m, a).positions - {n})
  {
    var m' := m - {PositionKey(a, n)};
    PrefixesDiffer(a, a);
    var before, after := RecordsOf(m, a), RecordsOf(m', a);
    forall x
      ensures x in after <==> x in before && x != n
      ensures x in after ==> after[x] == before[x]
    {
      KeysDiffer(a, x, n);
      RecordAt(m, a, x);
      RecordAt(m', a, x);
    }
    assert after == before - {n};
  }

  lemma WriteContent(m: Store, a: string, v: DecCoins, t: int)
    requires Typed(m)
    ensures var m' := m[AccumKey(a) := Content(v, t)];
            && Typed(m') && Exists(m', a)
            && View(m', a) == State(v, t, RecordsOf(m, a))
  {
    var m' := m[AccumKey(a) := Content(v, t)];
    PrefixesDiffer(a, a);
    NamesStored(m, a);
    NamesStored(m', a);
    forall x ensures x in Names(m, a) <==> x in Names(m', a) {
      assert PositionKey(a, x) != AccumKey(a);
    }
    assert RecordsOf(m', a) == RecordsOf(m, a);
  }

  /** `m'` differs from `m` at most in keys of accumulator `a`. */
  ghost predicate OnlyTouches(m: Store, m': Store, a: string) {
    forall k | (k in m) != (k in m') || (k in m && k in m' && m[k] != m'[k]) ::
      k == AccumKey(a) || PositionPrefix(a) <= k
  }

  /** Whatever happens to accumulator `a` leaves a separate accumulator as it was. */
  lemma OthersUntouched(m: Store, m': Store, a: string, b: string)
    requires Typed(m) && Typed(m') && OnlyTouches(m, m', a) && Separate(a, b) && Exists(m, b)
    ensures Exists(m', b) && View(m', b) == View(m, b)
  {
    PrefixesDiffer(b, a);
    assert AccumKey(b) != AccumKey(a) by {
      assert AccumKey(a)[|ACCUM_PREFIX|..] == a && AccumKey(b)[|ACCUM_PREFIX|..] == b;
    }
    assert !(PositionPrefix(a) <= AccumKey(b)) by {
      assert PositionPrefix(a)[7] == 'p' && AccumKey(b)[7] == 'a';
    }
    forall x
      ensures PositionKey(b, x) != AccumKey(a) && !(PositionPrefix(a) <= PositionKey(b, x))
    {
      PrefixesDiffer(a, b);
      if PositionPrefix(a) <= PositionKey(b, x) {
        var y := PositionKey(b, x)[|PositionPrefix(a)|..];
        assert PositionKey(b, x) == PositionKey(a, y);
        CollideIff(a, b);
      }
    }
    SameView(m, m', b);
  }

  /** `m` holds accumulator `name` in state `st`. */
  ghost predicate HoldsState(x: (Store, string, State)) {
    Typed(x.0) && Exists(x.0, x.1) && View(x.0, x.1) == x.2
  }

  /** `HoldsState`, kept folded. */
  ghost predicate StoredAs(m: Store, name: string, st: State) {
    Folded(HoldsState)((m, name, st))
  }

  lemma UnfoldStored(m: Store, name: string, st: State)
    ensures StoredAs(m, name, st) <==> Typed(m) && Exists(m, name) && View(m, name) == st
  {
    Unfold(HoldsState, (m, name, st));
  }

  ghost predicate TouchTriple(x: (Store, Store, string)) { OnlyTouches(x.0, x.1, x.2) }

  /** `OnlyTouches`, kept folded. */
  ghost predicate Touches(m: Store, m': Store, a: string) {
    Folded(TouchTriple)((m, m', a))
  }

  lemma UnfoldTouches(m: Store, m': Store, a: string)
    ensures Touches(m, m', a) <==> OnlyTouches(m, m', a)
  {
    Unfold(TouchTriple, (m, m', a));
  }

  lemma TouchesTwice(m: Store, m1: Store, m2: Store, a: string)
    requires Touches(m, m1, a) && Touches(m1, m2, a)
    ensures Touches(m, m2, a)
  {
    UnfoldTouches(m, m1, a);
    UnfoldTouches(m1, m2, a);
    UnfoldTouches(m, m2, a);
    forall k | (k in m) != (k in m2) || (k in m && k in m2 && m[k] != m2[k])
      ensures k == AccumKey(a) || PositionPrefix(a) <= k
    {
      assert (k in m) != (k in m1) || (k in m1) != (k in m2)
        || (k in m && k in m1 && m[k] != m1[k]) || (k in m1 && k in m2 && m1[k] != m2[k]);
    }
  }

  lemma TouchesNothing(m: Store, a: string)
    ensures Touches(m, m, a)
  {
    UnfoldTouches(m, m, a);
  }

  /** Operations on one accumulator never change a separate one. */
  lemma SeparateUnchanged(m: Store, m': Store, a: string, b: string, st: State)
    requires Typed(m') && Touches(m, m', a) && Separate(a, b) && StoredAs(m, b, st)
    ensures StoredAs(m', b, st)
  {
    UnfoldTouches(m, m', a);
    UnfoldStored(m, b, st);
    OthersUntouched(m, m', a, b);
    UnfoldStored(m', b, st);
  }
}
