/** Square roots of decimals that round up. */
module SquareRoot {
  import opened FixedPoint
  import opened Folding
  import opened Options
  import opened Decimals

  function Sq(x: int): int { x * x }

  lemma SqMono(a: int, b: int)
    requires 0 <= a <= b
    ensures Sq(a) <= Sq(b)
    ensures a < b ==> Sq(a) < Sq(b)
  {
  }

  lemma Quartered(n: nat, q: nat)
    requires Sq(q) <= n / 4 < Sq(q + 1)
    ensures Sq(2 * q) <= n < Sq(2 * q + 2)
  {
    assert Sq(2 * q) == 4 * Sq(q) && Sq(2 * q + 2) == 4 * Sq(q + 1);
  }

  ghost predicate FloorPair(y: (nat, nat)) { Sq(y.0) <= y.1 < Sq(y.0 + 1) }

  /** `r` is the floor of the square root of `n`; kept folded. */
  ghost predicate IsFloorRoot(r: nat, n: nat) { Folded(FloorPair)((r, n)) }

  lemma UnfoldFloorRoot(r: nat, n: nat)
    ensures IsFloorRoot(r, n) <==> Sq(r) <= n < Sq(r + 1)
  {
    Unfold(FloorPair, (r, n));
  }

  /** One more bit of the root. */
  lemma NextRoot(n: nat, q: nat)
    requires IsFloorRoot(q, n / 4)
    ensures Sq(2 * q + 1) <= n ==> IsFloorRoot(2 * q + 1, n)
    ensures Sq(2 * q + 1) > n ==> IsFloorRoot(2 * q, n)
  {
    UnfoldFloorRoot(q, n / 4);
    Quartered(n, q);
    UnfoldFloorRoot(2 * q + 1, n);
    UnfoldFloorRoot(2 * q, n);
  }

  /** The floor of the square root, as big.Int's Sqrt. */
  function FloorSqrt(n: nat): (r: nat)
    ensures IsFloorRoot(r, n)
  {
    if n == 0 then
      UnfoldFloorRoot(0, 0);
      0
    else
      var q := FloorSqrt(n / 4);
      NextRoot(n, q);
      if Sq(2 * q + 1) <= n then 2 * q + 1 else 2 * q
  }

  /** `r` is the least non-negative integer whose square is at least `x`. */
  ghost predicate LeastRoot(r: int, x: int) {
    r >= 0 && Sq(r) >= x && forall s :: 0 <= s < r ==> Sq(s) < x
  }

  lemma Least(r: int, x: int)
    requires r >= 0 && Sq(r) >= x && (r > 0 ==> Sq(r - 1) < x)
    ensures LeastRoot(r, x)
  {
    forall s | 0 <= s < r ensures Sq(s) < x {
      SqMono(s, r - 1);
    }
  }

  /** The root of `x`, one more where its square falls short. */
  function RoundedRoot(x: nat): int {
    var r := FloorSqrt(x);
    if Sq(r) < x then r + 1 else r
  }

  lemma RoundedUp(x: nat)
    ensures LeastRoot(RoundedRoot(x), x)
  {
    var r := FloorSqrt(x);
    UnfoldFloorRoot(r, x);
    if Sq(r) < x {
      Least(r + 1, x);
    } else {
      if r > 0 {
        SqMono(r - 1, r);
      }
      Least(r, x);
    }
  }

  /** The body both precisions share; `one` is 10^18 or 10^36. */
  method SqrtMut(d: Decimal, one: int) returns (err: bool)
    requires one > 0
    modifies d
    ensures err <==> old(d.raw) < 0
    ensures err ==> d.raw == old(d.raw)
    ensures !err ==> LeastRoot(d.raw, old(d.raw) * one)
  {
    if d.raw < 0 {
      return true;
    }
    MulMono(one, 0, d.raw);
    var x := d.raw * one;
    RoundedUp(x);
    d.raw := x;
    var r: int := FloorSqrt(x);
    var check := Sq(r);
    if check < d.raw {
      r := r + 1;
    }
    assert r == RoundedRoot(x);
    d.raw := r;
    return false;
  }

  /** `MonotonicSqrtMut`: the least decimal whose square is at least `d`. */
  method MonotonicSqrtMut(d: Decimal) returns (err: bool)
    modifies d
    ensures err <==> old(d.raw) < 0
    ensures err ==> d.raw == old(d.raw)
    ensures !err ==> LeastRoot(d.raw, old(d.raw) * ONE18)
  {
    err := SqrtMut(d, ONE18);
  }

  /** `MonotonicSqrtBigDecMut`. */
  method MonotonicSqrtBigDecMut(d: Decimal) returns (err: bool)
    modifies d
    ensures err <==> old(d.raw) < 0
    ensures err ==> d.raw == old(d.raw)
    ensures !err ==> LeastRoot(d.raw, old(d.raw) * ONE36)
  {
    err := SqrtMut(d, ONE36);
  }

  /** `MonotonicSqrt`, which leaves its argument alone. */
  method MonotonicSqrt(raw: int, one: int) returns (r: Result<int, ()>)
    requires one > 0
    ensures r.Err? <==> raw < 0
    ensures r.Ok? ==> LeastRoot(r.value, raw * one)
  {
    var d := new Decimal(raw);
    var err := SqrtMut(d, one);
    return if err then Err(()) else Ok(d.raw);
  }

  // ------------------------------------------------------------------------------- laws

  lemma RootUnique(r: int, s: int, x: int)
    requires LeastRoot(r, x) && LeastRoot(s, x)
    ensures r == s
  {
  }

  /** Roots are never reordered. */
  lemma RootMonotone(x: int, y: int, one: int, r: int, s: int)
    requires one > 0 && x <= y && LeastRoot(r, x * one) && LeastRoot(s, y * one)
    ensures r <= s
  {
    MulMono(one, x, y);
    assert Sq(s) >= x * one;
  }

  /** A representable square has its exact root: if the square of `k` is the decimal `d` with
      nothing rounded away, the root of `d` is `k`. */
  lemma RootExact(k: int, d: int, one: int, r: int)
    requires one > 0 && k >= 0 && Sq(k) == d * one && LeastRoot(r, d * one)
    ensures r == k
  {
    forall s | 0 <= s < k ensures Sq(s) < Sq(k) {
      SqMono(s, k);
    }
    RootUnique(k, r, d * one);
  }

  /** The square of the root reaches `d`, and that of the decimal before it does not. */
  lemma RootTight(d: int, one: int, r: int)
    requires one > 0 && d > 0 && LeastRoot(r, d * one)
    ensures r > 0 && Sq(r - 1) < d * one <= Sq(r)
  {
    MulMono(one, 1, d);
    assert Sq(0) == 0;
  }
}
