/** The accuracy the binary logarithm promises, on every positive decimal.

    A logarithm L in units of the last decimal is right for the number v when 2^L is
    v^(10^36); an error of d last decimals is a factor of 2^d between the two. */
module LogarithmPromise {
  import opened FixedPoint
  import opened Logarithm
  import opened LogarithmAccuracy
  import opened RealPowers

  // ------------------------------------------------------------- what powers the digits are

  lemma {:induction false} PowerRaised(n: nat)
    ensures Power(n) == Raised(2.0, n)
  {
    if n > 0 {
      PowerRaised(n - 1);
      RaisedStep(2.0, n);
    }
  }

  lemma SquareRaised(x: real, n: nat)
    ensures Squaring(Raised(x, n)) == Raised(x, 2 * n)
  {
    UnfoldSquaring(Raised(x, n));
    RaisedSum(x, n, n);
  }

  lemma {:induction false} SquaredTimesIs(x: real, k: nat)
    ensures SquaredTimes(x, k) == Raised(x, Pow2(k))
  {
    if k == 0 {
      RaisedStep(x, 1);
    } else {
      SquaredTimesIs(x, k - 1);
      SquareRaised(x, Pow2(k - 1));
    }
  }

  lemma CompoundedStep(c: real, e: real, ce: real)
    requires e >= 0.0 && ce == c * e
    ensures Squaring(c) * e >= 0.0 && (Squaring(c) * e) * e == Squaring(ce)
  {
    UnfoldSquaring(c);
    UnfoldSquaring(ce);
    ProductOrder(0.0, Squaring(c), 0.0, e);
    Swap(c, e, c, e);
    Regroup(Squaring(c), e, e);
  }

  lemma {:induction false} CompoundedIs(e: real, k: nat)
    requires e >= 0.0
    ensures Compounded(e, k) >= 0.0 && Compounded(e, k) * e == Raised(e, Pow2(k))
  {
    if k == 0 {
      RaisedStep(e, 1);
    } else {
      CompoundedIs(e, k - 1);
      SquareRaised(e, Pow2(k - 1));
      CompoundedStep(Compounded(e, k - 1), e, Raised(e, Pow2(k - 1)));
    }
  }

  // ------------------------------------------------------------ the compounded errors

  lemma BernoulliStep(y: real, p: real, a: real, b: real)
    requires 0.0 <= y <= 1.0 && p >= 1.0 - a && a >= 0.0 && b == a + y
    ensures (1.0 - y) * p >= 1.0 - b
  {
    ProductOrder(0.0, 1.0 - y, 0.0, p - (1.0 - a));
    ProductOrder(0.0, y, 0.0, a);
    assert (1.0 - y) * p == (1.0 - y) * (p - (1.0 - a)) + (1.0 - y) * (1.0 - a);
    assert (1.0 - y) * (1.0 - a) == 1.0 - a - y + y * a;
  }

  /** Bernoulli's inequality. */
  lemma {:induction false} Bernoulli(y: real, n: nat, ny: real)
    requires 0.0 <= y <= 1.0 && ny == n as real * y
    ensures Raised(1.0 - y, n) >= 1.0 - ny
  {
    if n > 0 {
      assert (n - 1) as real * y == ny - y;
      ProductOrder(0.0, (n - 1) as real, 0.0, y);
      Bernoulli(y, n - 1, ny - y);
      RaisedStep(1.0 - y, n);
      BernoulliStep(y, Raised(1.0 - y, n - 1), ny - y, ny);
    }
  }

  /** Half a last decimal. */
  ghost predicate IsHalf(y: real, q: nat) { q == ONE36 && y == UP }

  lemma HalfTimes(y: real, q: nat)
    requires IsHalf(y, q)
    ensures 0.0 < y && 20.0 * y <= 1.0 && q as real * y == 0.5
  {
  }

  lemma OneLess(y: real, q: nat)
    requires IsHalf(y, q)
    ensures Raised(1.0 - y, q) >= 0.5
  {
    HalfTimes(y, q);
    Bernoulli(y, q, 0.5);
  }

  lemma Halves(a: real, b: real)
    requires a >= 0.0 && b >= 0.5 && a * b <= 1.0
    ensures a <= 2.0
  {
    ProductOrder(a, a, 0.5, b);
  }

  /** An error of half a last decimal in each of 10^36 factors at most doubles. */
  lemma OneMoreBound(y: real, q: nat)
    requires IsHalf(y, q)
    ensures 0.0 <= Raised(1.0 + y, q) <= 2.0
  {
    HalfTimes(y, q);
    OneLess(y, q);
    var both := (1.0 + y) * (1.0 - y);
    assert 0.0 <= both <= 1.0 by {
      ProductOrder(0.0, 1.0 + y, 0.0, 1.0 - y);
      ProductOrder(0.0, y, 0.0, y);
      assert both == 1.0 - y * y;
    }
    RaisedOf(1.0 + y, 1.0 - y, q, both);
    RaisedShrinks(both, q);
    RaisedMono(0.0, 1.0 + y, q);
    Halves(Raised(1.0 + y, q), Raised(1.0 - y, q));
  }

  lemma SmallSquare(y: real)
    requires 0.0 < y && 20.0 * y <= 1.0
    ensures 0.0 <= 20.0 * (y * y) <= y
  {
    ProductOrder(0.0, 1.0 - 20.0 * y, 0.0, y);
  }

  lemma SquareBelow(y: real, c: real, d: real)
    requires 0.0 < y && 20.0 * y <= 1.0 && c == 1.0 - y && d == 1.0 - 1.6 * y
    ensures 0.0 <= c * c <= d
    ensures 0.0 <= d * d <= 1.0 - 3.0 * y
  {
    SmallSquare(y);
    assert c * c == 1.0 - 2.0 * y + y * y;
    assert d * d == 1.0 - 3.2 * y + 2.56 * (y * y);
    ProductOrder(0.0, c, 0.0, c);
    ProductOrder(0.0, d, 0.0, d);
  }

  lemma FourthPower(y: real, b: real)
    requires 0.0 < y && 20.0 * y <= 1.0 && b == (1.0 - y) * (1.0 - y)
    ensures 0.0 <= b * b <= 1.0 - 3.0 * y
  {
    var d := 1.0 - 1.6 * y;
    SquareBelow(y, 1.0 - y, d);
    ProductOrder(b, d, b, d);
  }

  /** An error of three halves leaves at least a sixteenth. */
  lemma DownBound(y: real, q: nat)
    requires IsHalf(y, q)
    ensures Raised(1.0 - 3.0 * y, q) >= 0.0625
  {
    HalfTimes(y, q);
    OneLess(y, q);
    var a := 1.0 - y;
    var b := a * a;
    FourthPower(y, b);
    RaisedOf(a, a, q, b);
    RaisedOf(b, b, q, b * b);
    RaisedMono(b * b, 1.0 - 3.0 * y, q);
    ProductOrder(0.5, Raised(a, q), 0.5, Raised(a, q));
    ProductOrder(0.25, Raised(b, q), 0.25, Raised(b, q));
  }

  /** A whole last decimal at most quadruples. */
  lemma CutBound(y: real, q: nat)
    requires IsHalf(y, q)
    ensures 0.0 <= Raised(1.0 + 2.0 * y, q) <= 4.0
  {
    HalfTimes(y, q);
    OneMoreBound(y, q);
    var a := 1.0 + y;
    var b := a * a;
    assert 1.0 + 2.0 * y <= b by {
      ProductOrder(0.0, y, 0.0, y);
      assert b == 1.0 + 2.0 * y + y * y;
    }
    RaisedOf(a, a, q, b);
    RaisedMono(1.0 + 2.0 * y, b, q);
    ProductOrder(Raised(a, q), 2.0, Raised(a, q), 2.0);
  }

  // -------------------------------------------------------------------------- the fraction

  lemma {:induction false} PowersOrder(a: nat, b: nat, c: nat, d: nat, ab: nat, cd: nat)
    requires ab == a * b && cd == c * d && ab <= cd
    ensures 0.0 <= Raised(Raised(2.0, a), b) <= Raised(Raised(2.0, c), d)
  {
    RaisedTwice(2.0, a, b, ab);
    RaisedTwice(2.0, c, d, cd);
    RaisedGrows(2.0, ab, cd);
  }

  /** 2^n at most t^p makes 2^f at most t^q when f/q is at most n/p. */
  lemma {:induction false} RootBelow(t: real, p: nat, q: nat, n: nat, f: nat)
    requires t >= 0.0 && p > 0 && f * p <= n * q && Raised(2.0, n) <= Raised(t, p)
    ensures Raised(2.0, f) <= Raised(t, q)
  {
    PowersOrder(f, p, n, q, f * p, n * q);
    RaisedPositive(2.0, n);
    RaisedPositive(2.0, f);
    RaisedMono(Raised(2.0, n), Raised(t, p), q);
    RaisedEither(t, p, q);
    RaisedMono(0.0, t, q);
    Root(Raised(2.0, f), Raised(t, q), p);
  }

  lemma {:induction false} RootAbove(t: real, p: nat, q: nat, n: nat, g: nat)
    requires t >= 0.0 && p > 0 && n * q <= g * p && Raised(t, p) <= Raised(2.0, n)
    ensures Raised(t, q) <= Raised(2.0, g)
  {
    PowersOrder(n, q, g, p, n * q, g * p);
    RaisedPositive(2.0, g);
    RaisedMono(0.0, t, p);
    RaisedMono(0.0, t, q);
    RaisedMono(Raised(t, p), Raised(2.0, n), q);
    RaisedEither(t, p, q);
    Root(Raised(t, q), Raised(2.0, g), p);
  }

  lemma IterationsEnough(k: nat)
    requires k >= 128
    ensures Pow2(k) >= ONE36
  {
    Pow2Twice(2, 4, 16);
    Pow2Twice(4, 16, 256);
    Pow2Twice(8, 256, 65536);
    Pow2Twice(16, 65536, 0x1_0000_0000);
    Pow2Twice(32, 0x1_0000_0000, 0x1_0000_0000_0000_0000);
    Pow2Twice(64, 0x1_0000_0000_0000_0000, 0x1_0000_0000_0000_0000_0000_0000_0000_0000);
    Pow2Grows(128, k);
  }

  lemma ErrorAbove(s: real, c: real, up: real, n: real)
    requires s >= 0.0 && c >= 0.0 && up >= 1.0 && n <= s * c
    ensures n <= s * (c * up)
  {
    ProductOrder(c, c, 1.0, up);
    ProductOrder(s, s, c, c * up);
  }

  lemma ErrorBelow(s: real, c: real, dn: real, n: real)
    requires s >= 0.0 && c >= 0.0 && 0.0 <= dn <= 1.0 && s * c <= n
    ensures s * (c * dn) <= n
  {
    ProductOrder(c, c, dn, 1.0);
    ProductOrder(s, s, c * dn, c);
  }

  lemma {:induction false} RaisedError(r: real, k: nat, e: real, re: real)
    requires r >= 0.0 && e >= 0.0 && re == r * e
    ensures SquaredTimes(r, k) >= 0.0 && Compounded(e, k) >= 0.0
    ensures Raised(re, Pow2(k)) == SquaredTimes(r, k) * (Compounded(e, k) * e)
  {
    SquaredTimesIs(r, k);
    CompoundedIs(e, k);
    RaisedOf(r, e, Pow2(k), re);
    RaisedMono(0.0, r, Pow2(k));
  }

  lemma ValueRange(m: int)
    requires ONE36 <= m < TWO36
    ensures 1.0 <= Value(m) < 2.0
  {
    UnfoldValue(m);
  }

  /** What the digits found say about the mantissa, from below and from above. */
  lemma DigitsBelow(m: int, k: nat, dn: real, up: real, above: real)
    requires ONE36 <= m < TWO36 && Errors(dn, up) && above == Value(m) * up
    ensures Raised(2.0, Bits(m, k)) <= Raised(above, Pow2(k))
  {
    ErrorsInOrder(dn, up);
    ValueRange(m);
    DigitsAccurate(m, k);
    PowerRaised(Bits(m, k));
    RaisedError(Value(m), k, up, above);
    ErrorAbove(SquaredTimes(Value(m), k), Compounded(up, k), up, Power(Bits(m, k)));
  }

  lemma DigitsAbove(m: int, k: nat, dn: real, up: real, below: real)
    requires ONE36 <= m < TWO36 && Errors(dn, up) && below == Value(m) * dn
    ensures Raised(below, Pow2(k)) <= Raised(2.0, Bits(m, k) + 1)
  {
    ErrorsInOrder(dn, up);
    ValueRange(m);
    DigitsAccurate(m, k);
    PowerRaised(Bits(m, k) + 1);
    RaisedError(Value(m), k, dn, below);
    ErrorBelow(SquaredTimes(Value(m), k), Compounded(dn, k), dn, Power(Bits(m, k) + 1));
  }

  lemma CarriedBound(p: nat, q: nat, n: nat, f: nat, k: nat, g: nat)
    requires q * n <= p * (f + k) && q <= p && g == f + k + 1
    ensures (n + 1) * q <= g * p
  {
    assert (n + 1) * q == q * n + q && g * p == p * (f + k) + p;
  }

  lemma TimesBound(a: real, e: real, ae: real, t: real, c: real)
    requires a >= 0.0 && ae == a * e
    ensures 0.0 <= e <= c && t <= ae ==> t <= c * a
    ensures e >= c && ae <= t ==> c * a <= t
  {
    if 0.0 <= e <= c {
      ProductOrder(a, a, e, c);
    } else if e >= c {
      assert (e - c) * a >= 0.0;
    }
  }

  /** 2^f is at most twice the mantissa to the 10^36. */
  lemma {:induction false} FractionBelow(m: int, k: nat, q: nat, f: nat)
    requires ONE36 <= m < TWO36 && q == ONE36 && Pow2(k) * f <= q * Bits(m, k)
    ensures Raised(2.0, f) <= 2.0 * Raised(Value(m), q)
  {
    var dn, up := 1.0 - DOWN, 1.0 + UP;
    ValueRange(m);
    ErrorsInOrder(dn, up);
    var above := Value(m) * up;
    ProductOrder(0.0, Value(m), 0.0, up);
    DigitsBelow(m, k, dn, up, above);
    Pow2Grows(k, k);
    RootBelow(above, Pow2(k), q, Bits(m, k), f);
    RaisedOf(Value(m), up, q, above);
    OneMoreBound(UP, q);
    RaisedMono(0.0, Value(m), q);
    TimesBound(Raised(Value(m), q), Raised(up, q), Raised(above, q), Raised(2.0, f), 2.0);
  }

  /** The mantissa to the 10^36 is at most 16 times 2^(f+k+1). */
  lemma {:induction false} FractionAbove(m: int, k: nat, q: nat, f: nat, g: nat)
    requires ONE36 <= m < TWO36 && q == ONE36 <= Pow2(k) && q * Bits(m, k) <= Pow2(k) * (f + k) && g == f + k + 1
    ensures 0.0625 * Raised(Value(m), q) <= Raised(2.0, g)
  {
    var dn, up := 1.0 - DOWN, 1.0 + UP;
    ValueRange(m);
    ErrorsInOrder(dn, up);
    var below := Value(m) * dn;
    ProductOrder(0.0, Value(m), 0.0, dn);
    DigitsAbove(m, k, dn, up, below);
    CarriedBound(Pow2(k), q, Bits(m, k), f, k, g);
    RootAbove(below, Pow2(k), q, Bits(m, k) + 1, g);
    RaisedOf(Value(m), dn, q, below);
    DownBound(UP, q);
    RaisedMono(0.0, Value(m), q);
    TimesBound(Raised(Value(m), q), Raised(dn, q), Raised(below, q), Raised(2.0, g), 0.0625);
  }

  // ------------------------------------------------------------------------- the logarithm

  /** 2^n. */
  ghost function Two(n: int): real {
    if n >= 0 then Raised(2.0, n) else RaisedPositive(2.0, -n); 1.0 / Raised(2.0, -n)
  }

  lemma TwoStep(n: int)
    ensures Two(n) > 0.0 && Two(n + 1) == 2.0 * Two(n)
  {
    if n >= 0 {
      RaisedPositive(2.0, n);
      RaisedStep(2.0, n + 1);
    } else {
      RaisedPositive(2.0, -n);
      RaisedPositive(2.0, -n - 1);
      RaisedStep(2.0, -n);
    }
  }

  lemma {:induction false} TwoSum(a: int, b: nat)
    ensures Two(a + b) == Two(a) * Raised(2.0, b)
  {
    if b > 0 {
      TwoSum(a, b - 1);
      TwoStep(a + b - 1);
      RaisedStep(2.0, b);
    }
  }

  lemma {:induction false} TwoGrows(a: int, b: nat)
    ensures 0.0 < Two(a) <= Two(a + b)
  {
    TwoStep(a);
    if b > 0 {
      TwoGrows(a, b - 1);
      TwoStep(a + b - 1);
    }
  }

  lemma {:induction false} FractionTwo(m: int, k: nat, q: nat, f: nat)
    requires ONE36 <= m < TWO36 && q == ONE36 <= Pow2(k)
    requires Pow2(k) * f <= q * Bits(m, k) <= Pow2(k) * (f + k)
    ensures Two(f - 1) <= Raised(Value(m), q) <= Two(f + k + 5)
  {
    FractionBelow(m, k, q, f);
    FractionAbove(m, k, q, f, f + k + 1);
    TwoStep(f - 1);
    TwoFourth(f + k + 1);
  }

  /** The fraction against the mantissa. */
  lemma {:induction false} FractionSays(x: int, k: nat, q: nat, f: int)
    requires x > 0 && k == MAX_LOG2_ITERATIONS && q == ONE36 && f == Log2(x) - Exponent(x) * ONE36
    ensures Two(f - 1) <= Raised(Value(Normalised(x)), q) <= Two(f + k + 5)
  {
    Normalises(x);
    LogIs(x, k);
    FractionBound(Normalised(x), k);
    FractionBits(Normalised(x), k);
    IterationsEnough(k);
    FractionTwo(Normalised(x), k, q, f);
  }

  lemma TwoFourth(n: int)
    ensures Two(n + 4) == 16.0 * Two(n)
  {
    TwoStep(n);
    TwoStep(n + 1);
    TwoStep(n + 2);
    TwoStep(n + 3);
  }

  lemma {:induction false} Pow2Raised(n: nat)
    ensures Pow2(n) as real == Raised(2.0, n)
  {
    if n > 0 {
      Pow2Raised(n - 1);
      RaisedStep(2.0, n);
    }
  }

  lemma Cancel(a: real, b: real, t: real)
    requires t > 0.0 && b >= 0.0 && a * t <= b * t
    ensures a <= b
  {
    if a > b {
      StrictProduct(b, a, t, t);
    }
  }

  lemma ValueProduct(a: int, b: int, ab: int)
    requires ab == a * b
    ensures Value(ab) == Value(a) * b as real
  {
    UnfoldValue(a);
    UnfoldValue(ab);
    assert ab as real == a as real * b as real;
  }

  lemma ValueMono(a: int, b: int)
    requires 0 <= a <= b
    ensures 0.0 <= Value(a) <= Value(b)
  {
    UnfoldValue(a);
    UnfoldValue(b);
  }

  /** Adding e·q to the exponent. */
  lemma {:induction false} TwoShift(n: int, e: nat, q: nat, eq: nat)
    requires eq == e * q
    ensures Two(n) > 0.0 && Raised(Raised(2.0, e), q) > 0.0
    ensures Two(n + eq) == Two(n) * Raised(Raised(2.0, e), q)
  {
    TwoStep(n);
    TwoSum(n, eq);
    RaisedTwice(2.0, e, q, eq);
    RaisedPositive(2.0, eq);
  }

  lemma ShiftedValue(x: int, d: nat, p: int)
    requires p == x * Pow2(d)
    ensures Value(p) == Value(x) * Raised(2.0, d)
  {
    ValueProduct(x, Pow2(d), p);
    Pow2Raised(d);
  }

  lemma {:induction false} ShiftedUp(v: real, s: real, q: nat, vs: real, lo: real, hi: real)
    requires v >= 0.0 && hi >= 0.0 && vs == v * s && Raised(s, q) > 0.0
    requires lo * Raised(s, q) <= Raised(vs, q) <= hi * Raised(s, q)
    ensures lo <= Raised(v, q) <= hi
  {
    RaisedOf(v, s, q, vs);
    RaisedMono(0.0, v, q);
    Cancel(lo, Raised(v, q), Raised(s, q));
    Cancel(Raised(v, q), hi, Raised(s, q));
  }

  /** Below one: the mantissa is the argument shifted left, exactly. */
  lemma {:induction false} SmallArgument(x: int, m: int, d: nat, q: nat, dq: nat, low: int, high: int)
    requires 0 < x && dq == d * q && m == x * Pow2(d)
    requires Two(low + dq) <= Raised(Value(m), q) <= Two(high + dq)
    ensures Two(low) <= Raised(Value(x), q) <= Two(high)
  {
    ShiftedValue(x, d, m);
    TwoShift(low, d, q, dq);
    TwoShift(high, d, q, dq);
    ValueMono(0, x);
    ShiftedUp(Value(x), Raised(2.0, d), q, Value(m), Two(low), Two(high));
  }

  /** From one on: the mantissa is the argument shifted right, cut by less than one part in
      10^36. */
  lemma CutValue(x: int, m: int, e: nat, low: int, high: int, c: real, rc: real)
    requires m >= ONE36 && low == m * Pow2(e) && high == (m + 1) * Pow2(e) && low <= x < high
    requires c == 1.0 + 2.0 * UP && rc == Value(m) * c
    ensures 0.0 <= Value(m) * Raised(2.0, e) <= Value(x) <= rc * Raised(2.0, e)
  {
    ShiftedValue(m, e, low);
    ShiftedValue(m + 1, e, high);
    RaisedPositive(2.0, e);
    CutRelative(m, Value(m), c);
    ProductOrder(0.0, Value(m), 0.0, Raised(2.0, e));
    ProductOrder(Value(m + 1), rc, Raised(2.0, e), Raised(2.0, e));
    CutOrder(low, x, high);
  }

  lemma CutOrder(low: int, x: int, high: int)
    requires low <= x <= high
    ensures Value(low) <= Value(x) <= Value(high)
  {
    UnfoldValue(low);
    UnfoldValue(x);
    UnfoldValue(high);
  }

  lemma CutRelative(m: int, r: real, c: real)
    requires m >= ONE36 && r == Value(m) && c == 1.0 + 2.0 * UP
    ensures r >= 1.0 && 0.0 <= Value(m + 1) <= r * c
  {
    UnfoldValue(m);
    UnfoldValue(m + 1);
    var u := 1.0 / ONE36 as real;
    assert c == 1.0 + u && Value(m + 1) == r + u;
    ProductOrder(1.0, r, u, u);
    assert r * c == r + r * u;
  }

  lemma {:induction false} LargeBelow(v: real, r: real, s: real, q: nat, rs: real, lo: real)
    requires r >= 0.0 && s >= 0.0 && rs == r * s <= v && 0.0 <= lo <= Raised(r, q)
    ensures lo * Raised(s, q) <= Raised(v, q)
  {
    ProductOrder(0.0, r, 0.0, s);
    RaisedOf(r, s, q, rs);
    RaisedMono(rs, v, q);
    RaisedMono(0.0, s, q);
    ProductOrder(lo, Raised(r, q), Raised(s, q), Raised(s, q));
  }

  lemma {:induction false} LargeAbove(v: real, r: real, c: real, s: real, q: nat, rc: real, rcs: real, hi: real)
    requires r >= 0.0 && s >= 0.0 && rc == r * c && rcs == rc * s && 0.0 <= v <= rcs
    requires Raised(r, q) <= hi && 0.0 <= Raised(c, q) <= 4.0
    ensures Raised(v, q) <= (4.0 * hi) * Raised(s, q)
  {
    RaisedMono(v, rcs, q);
    RaisedOf(r, c, q, rc);
    RaisedOf(rc, s, q, rcs);
    RaisedMono(0.0, r, q);
    RaisedMono(0.0, s, q);
    ProductOrder(Raised(r, q), hi, Raised(c, q), 4.0);
    ProductOrder(Raised(rc, q), 4.0 * hi, Raised(s, q), Raised(s, q));
  }

  lemma {:induction false} LargeArgument(x: int, m: int, e: nat, m': int, m'': int, q: nat, eq: nat, low: int, high: int)
    requires m >= ONE36 && m' == m * Pow2(e) <= x < m'' == (m + 1) * Pow2(e) && q == ONE36 && eq == e * q
    requires Two(low) <= Raised(Value(m), q) <= Two(high)
    ensures Two(low + eq) <= Raised(Value(x), q) <= Two(high + 2 + eq)
  {
    var c := 1.0 + 2.0 * UP;
    var r, s := Value(m), Raised(2.0, e);
    CutValue(x, m, e, m', m'', c, r * c);
    ValueMono(0, m);
    RaisedPositive(2.0, e);
    ShiftedBelow(Value(x), r, e, s, q, eq, r * s, low);
    ShiftedAbove(Value(x), r, c, e, s, q, eq, r * c, (r * c) * s, high);
  }

  lemma {:induction false} ShiftedBelow(v: real, r: real, e: nat, s: real, q: nat, eq: nat, rs: real, low: int)
    requires eq == e * q && s == Raised(2.0, e) >= 0.0 && r >= 0.0 && rs == r * s <= v && Two(low) <= Raised(r, q)
    ensures Two(low + eq) <= Raised(v, q)
  {
    TwoShift(low, e, q, eq);
    LargeBelow(v, r, s, q, rs, Two(low));
  }

  lemma {:induction false} ShiftedAbove(v: real, r: real, c: real, e: nat, s: real, q: nat, eq: nat, rc: real, rcs: real, high: int)
    requires eq == e * q && q == ONE36 && c == 1.0 + 2.0 * UP && s == Raised(2.0, e) >= 0.0 && r >= 0.0
    requires rc == r * c && rcs == rc * s && 0.0 <= v <= rcs && Raised(r, q) <= Two(high)
    ensures Raised(v, q) <= Two(high + 2 + eq)
  {
    CutBound(UP, q);
    TwoShift(high + 2, e, q, eq);
    TwoStep(high);
    TwoStep(high + 1);
    LargeAbove(v, r, c, s, q, rc, rcs, Two(high));
  }

  /** Both cases. */
  lemma {:induction false} AnyArgument(x: int, e: int, m: int, q: nat, eq: int, low: int, high: int)
    requires 0 < x && m >= ONE36 && q == ONE36 && eq == e * q
    requires if e < 0 then m == x * Pow2(-e) else m * Pow2(e) <= x < (m + 1) * Pow2(e)
    requires Two(low) <= Raised(Value(m), q) <= Two(high)
    ensures Two(low + eq) <= Raised(Value(x), q) <= Two(high + 2 + eq)
  {
    if e < 0 {
      SmallArgument(x, m, -e, q, -eq, low + eq, high + eq);
      TwoGrows(high + eq, 2);
    } else {
      LargeArgument(x, m, e, m * Pow2(e), (m + 1) * Pow2(e), q, eq, low, high);
    }
  }

  /** The binary logarithm is accurate: for every positive decimal the result is at most one
      last decimal above the logarithm and at most 307 below it, less than 10^-33 in all. */
  lemma LogarithmAccurate(x: int, q: nat)
    requires x > 0 && q == ONE36
    ensures Two(Log2(x) - 1) <= Raised(Value(x), q) <= Two(Log2(x) + 307)
  {
    var k: nat, eq := MAX_LOG2_ITERATIONS, Exponent(x) * q;
    var f := Log2(x) - eq;
    FractionSays(x, k, q, f);
    Normalises(x);
    MantissaIs(x);
    AnyArgument(x, Exponent(x), Normalised(x), q, eq, f - 1, f + k + 5);
  }
}
