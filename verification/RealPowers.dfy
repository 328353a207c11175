/** Decimals as real numbers, and their powers. */
module RealPowers {
  import opened FixedPoint
  import opened Folding

  /** Half of the last decimal. */
  const UP: real := 0.5 / ONE36 as real

  ghost function ValueOf(m: int): real { m as real / ONE36 as real }

  /** The decimal as a real; kept folded. */
  ghost function Value(m: int): real { FoldedFn(ValueOf)(m) }

  lemma UnfoldValue(m: int)
    ensures Value(m) == m as real / ONE36 as real
  {
    UnfoldFn(ValueOf, m);
  }

  lemma ProductOrder(a: real, b: real, c: real, d: real)
    requires 0.0 <= a <= b && 0.0 <= c <= d
    ensures 0.0 <= a * c <= b * d
  {
    assert a * c <= b * c <= b * d;
  }

  // ------------------------------------------------------------------------------- powers

  ghost function TimesOf(pair: (real, real)): real { pair.0 * pair.1 }

  /** The product; kept folded. */
  ghost function Times(x: real, y: real): real { FoldedFn(TimesOf)((x, y)) }

  lemma UnfoldTimes(x: real, y: real)
    ensures Times(x, y) == x * y
  {
    UnfoldFn(TimesOf, (x, y));
  }

  /** x^n. */
  ghost function Raised(x: real, n: nat): real { if n == 0 then 1.0 else Times(x, Raised(x, n - 1)) }

  lemma RaisedStep(x: real, n: nat)
    requires n > 0
    ensures Raised(x, n) == x * Raised(x, n - 1)
  {
    UnfoldTimes(x, Raised(x, n - 1));
  }

  lemma Regroup(x: real, y: real, z: real)
    ensures (x * y) * z == x * (y * z)
  {
  }

  lemma Swap(x: real, y: real, a: real, b: real)
    ensures (x * y) * (a * b) == (x * a) * (y * b)
  {
  }

  lemma {:induction false} RaisedSum(x: real, a: nat, b: nat)
    ensures Raised(x, a + b) == Raised(x, a) * Raised(x, b)
  {
    if a > 0 {
      RaisedSum(x, a - 1, b);
      RaisedStep(x, a);
      RaisedStep(x, a + b);
      Regroup(x, Raised(x, a - 1), Raised(x, b));
    }
  }

  lemma OneMore(a: int, b: int)
    ensures a * b == a + a * (b - 1)
  {
  }

  lemma {:induction false} RaisedTwice(x: real, a: nat, b: nat, ab: nat)
    requires ab == a * b
    ensures Raised(x, ab) == Raised(Raised(x, a), b)
  {
    if b > 0 {
      OneMore(a, b);
      RaisedTwice(x, a, b - 1, ab - a);
      RaisedSum(x, a, ab - a);
      RaisedStep(Raised(x, a), b);
    }
  }

  /** Exponents may be taken in either order. */
  lemma RaisedEither(x: real, a: nat, b: nat)
    ensures Raised(Raised(x, a), b) == Raised(Raised(x, b), a)
  {
    RaisedTwice(x, a, b, a * b);
    RaisedTwice(x, b, a, a * b);
  }

  lemma {:induction false} RaisedOf(x: real, y: real, n: nat, xy: real)
    requires xy == x * y
    ensures Raised(xy, n) == Raised(x, n) * Raised(y, n)
  {
    if n > 0 {
      RaisedOf(x, y, n - 1, xy);
      RaisedStep(x, n);
      RaisedStep(y, n);
      RaisedStep(xy, n);
      Swap(x, y, Raised(x, n - 1), Raised(y, n - 1));
    }
  }

  lemma {:induction false} RaisedMono(x: real, y: real, n: nat)
    requires 0.0 <= x <= y
    ensures 0.0 <= Raised(x, n) <= Raised(y, n)
  {
    if n > 0 {
      RaisedMono(x, y, n - 1);
      RaisedStep(x, n);
      RaisedStep(y, n);
      ProductOrder(x, y, Raised(x, n - 1), Raised(y, n - 1));
    }
  }

  lemma StrictProduct(x: real, y: real, a: real, b: real)
    requires 0.0 <= x < y && 0.0 <= a <= b && b > 0.0
    ensures x * a < y * b
  {
    ProductOrder(x, x, a, b);
    assert (y - x) * b > 0.0;
  }

  lemma {:induction false} RaisedPositive(x: real, n: nat)
    requires x > 0.0
    ensures Raised(x, n) > 0.0
  {
    if n > 0 {
      RaisedPositive(x, n - 1);
      RaisedStep(x, n);
    }
  }

  lemma RaisedStrict(x: real, y: real, n: nat)
    requires 0.0 <= x < y && n > 0
    ensures Raised(x, n) < Raised(y, n)
  {
    RaisedMono(x, y, n - 1);
    RaisedPositive(y, n - 1);
    RaisedStep(x, n);
    RaisedStep(y, n);
    StrictProduct(x, y, Raised(x, n - 1), Raised(y, n - 1));
  }

  /** Roots keep the order. */
  lemma Root(x: real, y: real, n: nat)
    requires x >= 0.0 && y >= 0.0 && n > 0 && Raised(x, n) <= Raised(y, n)
    ensures x <= y
  {
    if y < x {
      RaisedStrict(y, x, n);
    }
  }

  lemma {:induction false} RaisedGrows(x: real, a: nat, b: nat)
    requires x >= 1.0 && a <= b
    ensures 1.0 <= Raised(x, a) <= Raised(x, b)
    decreases b
  {
    if a < b {
      RaisedGrows(x, a, b - 1);
      RaisedStep(x, b);
      ProductOrder(1.0, x, Raised(x, b - 1), Raised(x, b - 1));
    } else if a > 0 {
      RaisedGrows(x, a - 1, a - 1);
      RaisedStep(x, a);
      ProductOrder(1.0, x, 1.0, Raised(x, a - 1));
    }
  }

  lemma {:induction false} RaisedShrinks(x: real, a: nat)
    requires 0.0 <= x <= 1.0
    ensures 0.0 <= Raised(x, a) <= 1.0
  {
    if a > 0 {
      RaisedShrinks(x, a - 1);
      RaisedStep(x, a);
      ProductOrder(x, 1.0, Raised(x, a - 1), 1.0);
    }
  }
}
