/** How far products and integer powers of decimals can be off. */
module PowerAccuracy {
  import opened FixedPoint
  import opened Options
  import opened Decimals
  import opened Folding
  import opened Power
  import opened RealPowers

  // ------------------------------------------------------------------------- one product

  /** A product is the nearest decimal to the exact one, for factors of either sign; it overflows
      exactly if the exact one is within half a unit of 2^1144 last decimals, or beyond. */
  lemma ProductNear(a: int, b: int)
    ensures Product(a, b).Ok? ==> -ONE36 <= 2 * (ONE36 * Product(a, b).value - a * b) <= ONE36
    ensures Product(a, b).Ok? <==> 2 * Abs(a * b) < ONE36 * (2 * DECIMAL_LIMIT - 1)
  {
    UnfoldProduct(a, b);
    RoundNear(a * b, ONE36);
    RoundFits(a * b);
  }

  lemma RoundSign(x: int)
    ensures Abs(RoundHalfEven(x, ONE36)) == RoundHalfEven(Abs(x), ONE36)
  {
    if x < 0 {
      RoundRange(-x, ONE36);
    } else {
      RoundRange(x, ONE36);
    }
  }

  lemma RoundFits(x: int)
    ensures Fits(RoundHalfEven(x, ONE36)) <==> 2 * Abs(x) < ONE36 * (2 * DECIMAL_LIMIT - 1)
  {
    RoundSign(x);
    RoundBelow(Abs(x), DECIMAL_LIMIT);
  }

  /** Rounding by quotient and remainder. */
  lemma RoundOf(q: int, r: int, x: int)
    requires 0 <= r < ONE36 && q >= 0 && x == ONE36 * q + r
    ensures x / ONE36 == q && x % ONE36 == r
    ensures RoundHalfEven(x, ONE36) == if 2 * r < ONE36 || (2 * r == ONE36 && q % 2 == 0) then q else q + 1
  {
    QuotientIs(q, r, x);
  }

  lemma QuotientIs(q: int, r: int, x: int)
    requires 0 <= r < ONE36 && x == ONE36 * q + r
    ensures x / ONE36 == q && x % ONE36 == r
  {
    DivBounds(x, ONE36, q);
    DivBounds(x, ONE36, q + 1);
    DivMod(x, ONE36);
  }

  lemma BelowLimit(q: int, r: int, limit: int)
    requires 0 <= r < ONE36 && limit % 2 == 0
    ensures (if 2 * r < ONE36 || (2 * r == ONE36 && q % 2 == 0) then q else q + 1) < limit
       <==> 2 * (ONE36 * q + r) < ONE36 * (2 * limit - 1)
  {
  }

  /** Rounding stays below an even integer exactly up to half a unit before it. */
  lemma RoundBelow(x: int, limit: int)
    requires x >= 0 && limit % 2 == 0
    ensures RoundHalfEven(x, ONE36) < limit <==> 2 * x < ONE36 * (2 * limit - 1)
  {
    DivMod(x, ONE36);
    DivBounds(x, ONE36, 0);
    RoundOf(x / ONE36, x % ONE36, x);
    BelowLimit(x / ONE36, x % ONE36, limit);
  }

  // ---------------------------------------------------------------------- as real numbers

  lemma BelowHalf(e: real, eq: real, q: real, up: real)
    requires q > 0.0 && up > 0.0 && up * q == 0.5 && eq == e * q && 2.0 * (eq * q) <= q
    ensures e <= up
  {
    if e > up {
      StrictProduct(up, e, q, q);
      StrictProduct(1.0, 2.0 * eq, q, q);
    }
  }

  lemma ErrorOf(vx: real, vy: real, vz: real, q: real)
    ensures q * (vz * q) - (vx * q) * (vy * q) == ((vz - vx * vy) * q) * q
    ensures (vx * q) * (vy * q) - q * (vz * q) == ((vx * vy - vz) * q) * q
  {
  }

  lemma FromBounds(vx: real, vy: real, vz: real, q: real, up: real)
    requires q > 0.0 && up > 0.0 && up * q == 0.5
    requires -q <= 2.0 * (q * (vz * q) - (vx * q) * (vy * q)) <= q
    ensures -up <= vz - vx * vy <= up
  {
    ErrorOf(vx, vy, vz, q);
    BelowHalf(vz - vx * vy, (vz - vx * vy) * q, q, up);
    BelowHalf(vx * vy - vz, (vx * vy - vz) * q, q, up);
  }

  lemma HalfUnit(q: real)
    requires q == ONE36 as real
    ensures q > 0.0 && UP > 0.0 && UP * q == 0.5
  {
  }

  lemma ValueBack(x: int, q: real)
    requires q == ONE36 as real
    ensures Value(x) * q == x as real
  {
    UnfoldValue(x);
  }

  lemma RealBounds(x: int, y: int, z: int, xy: int, q: real, rx: real, ry: real, rz: real)
    requires q == ONE36 as real && xy == x * y && -ONE36 <= 2 * (ONE36 * z - xy) <= ONE36
    requires rx == x as real && ry == y as real && rz == z as real
    ensures -q <= 2.0 * (q * rz - rx * ry) <= q
  {
    assert xy as real == rx * ry;
    assert (ONE36 * z) as real == q * rz;
  }

  lemma RealProduct(x: int, y: int, z: int, q: real, rx: real, ry: real, rz: real)
    requires Product(x, y) == Ok(z) && q == ONE36 as real && rx == x as real && ry == y as real && rz == z as real
    ensures -q <= 2.0 * (q * rz - rx * ry) <= q
  {
    ProductNear(x, y);
    RealBounds(x, y, z, x * y, q, rx, ry, rz);
  }

  /** A product in real numbers. */
  lemma ProductValue(x: int, y: int, z: int)
    requires Product(x, y) == Ok(z)
    ensures -UP <= Value(z) - Value(x) * Value(y) <= UP
  {
    var q := ONE36 as real;
    ValueBack(x, q);
    ValueBack(y, q);
    ValueBack(z, q);
    HalfUnit(q);
    RealProduct(x, y, z, q, Value(x) * q, Value(y) * q, Value(z) * q);
    FromBounds(Value(x), Value(y), Value(z), q, UP);
  }

  // ------------------------------------------------------------------------ powers from one on

  ghost predicate NearTuple(y: (int, real, nat, nat)) {
    var (x, v, a, k) := y;
    x >= ONE36 && Raised(v, a) * Raised(1.0 - UP, k) <= Value(x) <= Raised(v, a) * Raised(1.0 + UP, k)
  }

  /** `x` is at least one and v^a, but for `k` errors of half a last decimal; kept folded. */
  ghost predicate Near(x: int, v: real, a: nat, k: nat) { Folded(NearTuple)((x, v, a, k)) }

  lemma UnfoldNear(x: int, v: real, a: nat, k: nat)
    ensures Near(x, v, a, k) <==> NearTuple((x, v, a, k))
  {
    Unfold(NearTuple, (x, v, a, k));
  }

  lemma Grown(xy: real, c: real, up: real, z: real)
    requires 1.0 <= xy <= c && 0.0 <= up && z <= xy + up
    ensures z <= c * (1.0 + up)
  {
    ProductOrder(1.0, c, up, up);
    assert c * (1.0 + up) == c + c * up;
  }

  lemma Reduced(xy: real, c: real, up: real, z: real)
    requires 1.0 <= xy && 0.0 <= c <= xy && 0.0 <= up <= 1.0 && xy - up <= z
    ensures c * (1.0 - up) <= z
  {
    ProductOrder(c, xy, 1.0 - up, 1.0 - up);
    ProductOrder(1.0, xy, up, up);
    assert xy * (1.0 - up) == xy - xy * up;
  }

  lemma Regrouped(s: real, a: real, t: real, b: real, c: real, st: real, abc: real)
    requires st == s * t && abc == (a * b) * c
    ensures ((s * a) * (t * b)) * c == st * abc
  {
    Swap(s, a, t, b);
    RealPowers.Regroup(s * t, a * b, c);
  }

  lemma {:induction false} OneMoreError(e: real, k: nat, l: nat, kl: nat)
    requires kl == k + l + 1
    ensures Raised(e, kl) == (Raised(e, k) * Raised(e, l)) * e
  {
    RaisedSum(e, k, l);
    RaisedStep(e, kl);
  }

  lemma AtLeastOne(x: int)
    requires x >= ONE36
    ensures Value(x) >= 1.0
  {
    UnfoldValue(x);
  }

  /** Rounding keeps a product of decimals from one on in that range. */
  lemma StaysAboveOne(x: int, y: int, z: int)
    requires x >= ONE36 && y >= ONE36 && Product(x, y) == Ok(z)
    ensures z >= ONE36
  {
    MulMonotone(ONE36, ONE36, x, y);
    MulWhole(1, 1, 1);
  }

  lemma UpperNear(s: real, t: real, hi: real, hi': real, x: real, y: real, z: real, up: real, st: real, c: real)
    requires 1.0 <= x <= s * hi && 1.0 <= y <= t * hi' && up >= 0.0 && z - x * y <= up
    requires st == s * t && c == (hi * hi') * (1.0 + up)
    ensures z <= st * c
  {
    ProductOrder(1.0, x, 1.0, y);
    ProductOrder(x, s * hi, y, t * hi');
    Grown(x * y, (s * hi) * (t * hi'), up, z);
    Regrouped(s, hi, t, hi', 1.0 + up, st, c);
  }

  lemma LowerNear(s: real, t: real, lo: real, lo': real, x: real, y: real, z: real, up: real, st: real, c: real)
    requires 0.0 <= s * lo <= x && 0.0 <= t * lo' <= y && x >= 1.0 && y >= 1.0 && 0.0 <= up <= 1.0 && -up <= z - x * y
    requires st == s * t && c == (lo * lo') * (1.0 - up)
    ensures st * c <= z
  {
    ProductOrder(1.0, x, 1.0, y);
    ProductOrder(s * lo, x, t * lo', y);
    Reduced(x * y, (s * lo) * (t * lo'), up, z);
    Regrouped(s, lo, t, lo', 1.0 - up, st, c);
  }

  lemma {:induction false} NearPositive(v: real, a: nat, k: nat)
    requires v >= 1.0
    ensures 0.0 <= UP <= 1.0 && 0.0 <= Raised(v, a) * Raised(1.0 - UP, k)
  {
    RaisedMono(0.0, v, a);
    RaisedMono(0.0, 1.0 - UP, k);
    ProductOrder(0.0, Raised(v, a), 0.0, Raised(1.0 - UP, k));
  }

  lemma {:induction false} AboveProduct(x: real, y: real, z: real, v: real, a: nat, b: nat, k: nat, l: nat, ab: nat, kl: nat)
    requires 1.0 <= x <= Raised(v, a) * Raised(1.0 + UP, k) && 1.0 <= y <= Raised(v, b) * Raised(1.0 + UP, l)
    requires z - x * y <= UP && ab == a + b && kl == k + l + 1
    ensures z <= Raised(v, ab) * Raised(1.0 + UP, kl)
  {
    RaisedSum(v, a, b);
    OneMoreError(1.0 + UP, k, l, kl);
    UpperNear(Raised(v, a), Raised(v, b), Raised(1.0 + UP, k), Raised(1.0 + UP, l), x, y, z, UP, Raised(v, ab), Raised(1.0 + UP, kl));
  }

  lemma {:induction false} BelowProduct(x: real, y: real, z: real, v: real, a: nat, b: nat, k: nat, l: nat, ab: nat, kl: nat)
    requires v >= 1.0 && x >= 1.0 && y >= 1.0 && Raised(v, a) * Raised(1.0 - UP, k) <= x && Raised(v, b) * Raised(1.0 - UP, l) <= y
    requires -UP <= z - x * y && ab == a + b && kl == k + l + 1
    ensures Raised(v, ab) * Raised(1.0 - UP, kl) <= z
  {
    RaisedSum(v, a, b);
    OneMoreError(1.0 - UP, k, l, kl);
    NearPositive(v, a, k);
    NearPositive(v, b, l);
    LowerNear(Raised(v, a), Raised(v, b), Raised(1.0 - UP, k), Raised(1.0 - UP, l), x, y, z, UP, Raised(v, ab), Raised(1.0 - UP, kl));
  }

  /** Errors add up over a product, and one more comes with it. */
  lemma {:induction false} NearProduct(x: int, y: int, z: int, v: real, a: nat, b: nat, k: nat, l: nat, ab: nat, kl: nat)
    requires v >= 1.0 && Near(x, v, a, k) && Near(y, v, b, l) && Product(x, y) == Ok(z) && ab == a + b && kl == k + l + 1
    ensures Near(z, v, ab, kl)
  {
    UnfoldNear(x, v, a, k);
    UnfoldNear(y, v, b, l);
    UnfoldNear(z, v, ab, kl);
    StaysAboveOne(x, y, z);
    AtLeastOne(x);
    AtLeastOne(y);
    ProductValue(x, y, z);
    AboveProduct(Value(x), Value(y), Value(z), v, a, b, k, l, ab, kl);
    BelowProduct(Value(x), Value(y), Value(z), v, a, b, k, l, ab, kl);
  }

  lemma Exponents(a: nat, j: nat, i: nat, n: nat)
    requires i >= 2 && n == a + j * i
    ensures n == (if i % 2 != 0 then a + j else a) + (2 * j) * (i / 2)
  {
    assert i == 2 * (i / 2) + i % 2;
    assert j * (2 * (i / 2)) == (2 * j) * (i / 2);
    assert j * (2 * (i / 2) + i % 2) == j * (2 * (i / 2)) + j * (i % 2);
  }

  /** The loop: `tmp` stands for v^a, `d` for v^j. */
  lemma {:induction false} LoopNear(tmp: int, d: int, i: nat, v: real, a: nat, j: nat, n: nat)
    requires v >= 1.0 && i >= 1 && j >= 1 && n == a + j * i && Near(tmp, v, a, a) && Near(d, v, j, j - 1)
    requires SquareMultiply(tmp, d, i).Ok?
    ensures Near(SquareMultiply(tmp, d, i).value, v, n, n)
    decreases i
  {
    if i == 1 {
      NearProduct(d, tmp, Product(d, tmp).value, v, j, a, j - 1, a, n, n);
    } else {
      Exponents(a, j, i, n);
      var s := Product(d, d).value;
      NearProduct(d, d, s, v, j, j, j - 1, j - 1, 2 * j, 2 * j - 1);
      if i % 2 != 0 {
        var t := Product(tmp, d).value;
        NearProduct(tmp, d, t, v, a, j, a, j - 1, a + j, a + j);
        LoopNear(t, s, i / 2, v, a + j, 2 * j, n);
      } else {
        LoopNear(tmp, s, i / 2, v, a, 2 * j, n);
      }
    }
  }

  // -------------------------------------------------------------------------- powers up to one

  ghost predicate CloseTuple(y: (int, real, nat, nat)) {
    var (x, v, a, k) := y;
    0 <= x <= ONE36 && -(k as real * UP) <= Value(x) - Raised(v, a) <= k as real * UP
  }

  /** `x` is at most one and v^a, but for `k` errors of half a last decimal; kept folded. */
  ghost predicate Close(x: int, v: real, a: nat, k: nat) { Folded(CloseTuple)((x, v, a, k)) }

  lemma UnfoldClose(x: int, v: real, a: nat, k: nat)
    ensures Close(x, v, a, k) <==> CloseTuple((x, v, a, k))
  {
    Unfold(CloseTuple, (x, v, a, k));
  }

  lemma AtMostOne(x: int)
    requires 0 <= x <= ONE36
    ensures 0.0 <= Value(x) <= 1.0
  {
    UnfoldValue(x);
  }

  lemma ScaledError(c: real, e: real, bound: real)
    requires 0.0 <= c <= 1.0 && -bound <= e <= bound
    ensures -bound <= c * e <= bound
  {
    if e >= 0.0 {
      ProductOrder(c, 1.0, e, e);
    } else {
      ProductOrder(c, 1.0, -e, -e);
      assert c * -e == -(c * e);
    }
  }

  /** The error of a product of numbers up to one. */
  lemma CloseCore(x: real, y: real, z: real, s: real, t: real, ex: real, ey: real, up: real)
    requires 0.0 <= x <= 1.0 && 0.0 <= t <= 1.0 && -ex <= x - s <= ex && -ey <= y - t <= ey && -up <= z - x * y <= up
    ensures -(ex + ey + up) <= z - s * t <= ex + ey + up
  {
    ScaledError(x, y - t, ey);
    ScaledError(t, x - s, ex);
    assert x * y - s * t == x * (y - t) + t * (x - s);
  }

  /** A product of decimals up to one does not overflow and is one itself. */
  lemma StaysBelowOne(x: int, y: int)
    requires 0 <= x <= ONE36 && 0 <= y <= ONE36
    ensures Product(x, y).Ok? && 0 <= Product(x, y).value <= ONE36
  {
    MulWhole(1, 1, 1);
    MulMonotone(x, y, ONE36, ONE36);
  }

  lemma CountErrors(k: nat, l: nat, kl: nat)
    requires kl == k + l + 1
    ensures kl as real * UP == k as real * UP + l as real * UP + UP
  {
    assert kl as real == k as real + l as real + 1.0;
  }

  lemma {:induction false} CloseProduct(x: int, y: int, v: real, a: nat, b: nat, k: nat, l: nat, ab: nat, kl: nat)
    requires 0.0 <= v <= 1.0 && Close(x, v, a, k) && Close(y, v, b, l) && ab == a + b && kl == k + l + 1
    ensures Product(x, y).Ok? && Close(Product(x, y).value, v, ab, kl)
  {
    UnfoldClose(x, v, a, k);
    UnfoldClose(y, v, b, l);
    StaysBelowOne(x, y);
    var z := Product(x, y).value;
    UnfoldClose(z, v, ab, kl);
    ProductValue(x, y, z);
    AtMostOne(x);
    RaisedShrinks(v, b);
    RaisedSum(v, a, b);
    CountErrors(k, l, kl);
    CloseCore(Value(x), Value(y), Value(z), Raised(v, a), Raised(v, b), k as real * UP, l as real * UP, UP);
  }

  lemma {:induction false} LoopClose(tmp: int, d: int, i: nat, v: real, a: nat, j: nat, n: nat)
    requires 0.0 <= v <= 1.0 && i >= 1 && j >= 1 && n == a + j * i && Close(tmp, v, a, a) && Close(d, v, j, j - 1)
    ensures SquareMultiply(tmp, d, i).Ok? && Close(SquareMultiply(tmp, d, i).value, v, n, n)
    decreases i
  {
    if i == 1 {
      CloseProduct(d, tmp, v, j, a, j - 1, a, n, n);
    } else {
      Exponents(a, j, i, n);
      CloseProduct(d, d, v, j, j, j - 1, j - 1, 2 * j, 2 * j - 1);
      if i % 2 != 0 {
        CloseProduct(tmp, d, v, a, j, a, j - 1, a + j, a + j);
        LoopClose(Product(tmp, d).value, Product(d, d).value, i / 2, v, a + j, 2 * j, n);
      } else {
        LoopClose(tmp, Product(d, d).value, i / 2, v, a, 2 * j, n);
      }
    }
  }

  // ------------------------------------------------------------------------------ the power

  lemma OneValue()
    ensures Value(ONE36) == 1.0
  {
    UnfoldValue(ONE36);
  }

  lemma RaisedOnce(v: real)
    ensures Raised(v, 0) == 1.0 && Raised(v, 1) == v
  {
    RaisedStep(v, 1);
  }

  /** From one on, every multiplication is off by at most half a last decimal of the result: the
      power is the exact n-fold product but for `n` such factors. */
  lemma {:induction false} PowerNear(d: int, n: nat)
    requires d >= ONE36 && PowerOf(d, n).Ok?
    ensures var v, p := Value(d), Value(PowerOf(d, n).value);
            Raised(v, n) * Raised(1.0 - UP, n) <= p <= Raised(v, n) * Raised(1.0 + UP, n)
  {
    var v := Value(d);
    AtLeastOne(d);
    OneValue();
    RaisedOnce(v);
    RaisedOnce(1.0 - UP);
    RaisedOnce(1.0 + UP);
    UnfoldNear(ONE36, v, 0, 0);
    UnfoldNear(d, v, 1, 0);
    var p := PowerOf(d, n).value;
    if n == 1 {
      ProductOrder(0.0, v, 0.0, UP);
      assert v * (1.0 - UP) == v - v * UP && v * (1.0 + UP) == v + v * UP;
    } else if n >= 2 {
      if n == 2 {
        NearProduct(d, d, p, v, 1, 1, 0, 0, 2, 1);
        MoreErrors(p, v, 2, 1);
      } else {
        LoopNear(ONE36, d, n, v, 0, 1, n);
      }
      UnfoldNear(p, v, n, n);
    }
  }

  lemma {:induction false} MoreErrors(x: int, v: real, a: nat, k: nat)
    requires v >= 1.0 && Near(x, v, a, k)
    ensures Near(x, v, a, k + 1)
  {
    UnfoldNear(x, v, a, k);
    UnfoldNear(x, v, a, k + 1);
    RaisedMono(0.0, v, a);
    RaisedMono(0.0, 1.0 - UP, k);
    RaisedMono(0.0, 1.0 + UP, k);
    RaisedStep(1.0 - UP, k + 1);
    RaisedStep(1.0 + UP, k + 1);
    ProductOrder(1.0 - UP, 1.0, Raised(1.0 - UP, k), Raised(1.0 - UP, k));
    ProductOrder(1.0, 1.0 + UP, Raised(1.0 + UP, k), Raised(1.0 + UP, k));
    ProductOrder(Raised(v, a), Raised(v, a), Raised(1.0 - UP, k + 1), Raised(1.0 - UP, k));
    ProductOrder(Raised(v, a), Raised(v, a), Raised(1.0 + UP, k), Raised(1.0 + UP, k + 1));
  }

  /** Up to one no power overflows, and it is within n/2 last decimals of the exact n-fold product. */
  lemma {:induction false} PowerClose(d: int, n: nat)
    requires 0 <= d <= ONE36
    ensures PowerOf(d, n).Ok?
    ensures -(n as real * UP) <= Value(PowerOf(d, n).value) - Raised(Value(d), n) <= n as real * UP
  {
    var v := Value(d);
    AtMostOne(d);
    OneValue();
    RaisedOnce(v);
    UnfoldClose(ONE36, v, 0, 0);
    UnfoldClose(d, v, 1, 0);
    if n == 2 {
      CloseProduct(d, d, v, 1, 1, 0, 0, 2, 1);
      UnfoldClose(PowerOf(d, n).value, v, 2, 1);
    } else if n > 2 {
      LoopClose(ONE36, d, n, v, 0, 1, n);
      UnfoldClose(PowerOf(d, n).value, v, n, n);
    }
  }

  // ------------------------------------------------------------------------------- signs

  ghost function Negated(r: Result<int, Overflow>): Result<int, Overflow> { if r.Ok? then Ok(-r.value) else r }

  lemma ProductSigns(a: int, b: int)
    ensures Product(-a, b) == Product(a, -b) == Negated(Product(a, b))
  {
    UnfoldProduct(a, b);
    UnfoldProduct(-a, b);
    UnfoldProduct(a, -b);
    assert -a * b == -(a * b) && a * -b == -(a * b);
    if a * b == 0 {
      assert RoundHalfEven(0, ONE36) == 0;
    }
  }

  lemma SquareSign(d: int)
    ensures Product(-d, -d) == Product(d, d)
  {
    ProductSigns(d, d);
    ProductSigns(d, -d);
  }

  lemma {:induction false} LoopSigns(tmp: int, d: int, i: nat)
    requires i >= 1
    ensures SquareMultiply(-tmp, d, i) == Negated(SquareMultiply(tmp, d, i))
    ensures SquareMultiply(tmp, -d, i) == if i % 2 == 0 then SquareMultiply(tmp, d, i) else Negated(SquareMultiply(tmp, d, i))
    decreases i
  {
    ProductSigns(d, tmp);
    ProductSigns(tmp, d);
    SquareSign(d);
    if i > 1 && Product(d, d).Ok? {
      var s := Product(d, d).value;
      LoopSigns(tmp, s, i / 2);
      if i % 2 != 0 && Product(tmp, d).Ok? {
        LoopSigns(Product(tmp, d).value, s, i / 2);
      }
    }
  }

  /** The power of a negative decimal is that of its absolute value, with the sign of the exponent's parity. */
  lemma PowerSigns(d: int, n: nat)
    ensures PowerOf(-d, n) == if n % 2 == 0 then PowerOf(d, n) else Negated(PowerOf(d, n))
  {
    if n == 2 {
      SquareSign(d);
    } else if n > 2 {
      LoopSigns(ONE36, d, n);
    }
  }
}
