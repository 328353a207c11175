/** How far the digits of the binary logarithm can be off.

    Logarithms are compared as powers: `n` digits found from a mantissa `r` in `k` squarings say
    that 2^n is about r^(2^k).  Powers with exponent 2^k are k squarings. */
module LogarithmAccuracy {
  import opened FixedPoint
  import opened Folding
  import opened Logarithm
  import opened RealPowers

  /** Three halves of the last decimal: half for the rounding of a squaring, one for the truncation
      of a shift after it. */
  const DOWN: real := 1.5 / ONE36 as real

  /** The first `k` digits as a whole number. */
  ghost function Bits(x: int, k: nat): nat {
    if k == 0 then 0 else 2 * Bits(x, k - 1) + if Digit(MantissaAfter(x, k - 1)) then 1 else 0
  }

  /** 2^n. */
  ghost function Power(n: nat): real { if n == 0 then 1.0 else 2.0 * Power(n - 1) }

  ghost function SquareOf(x: real): real { x * x }

  /** The square; kept folded. */
  ghost function Squaring(x: real): real { FoldedFn(SquareOf)(x) }

  lemma UnfoldSquaring(x: real)
    ensures Squaring(x) == x * x >= 0.0
  {
    UnfoldFn(SquareOf, x);
  }

  /** x^(2^k). */
  ghost function SquaredTimes(x: real, k: nat): real {
    if k == 0 then x else Squaring(SquaredTimes(x, k - 1))
  }

  /** e^(2^k - 1), what an error of factor `e` in every one of `k` squarings comes to. */
  ghost function Compounded(e: real, k: nat): real {
    if k == 0 then 1.0 else Squaring(Compounded(e, k - 1)) * e
  }

  // -------------------------------------------------------------------------- one squaring

  lemma {:induction false} PowerTwice(n: nat)
    ensures Power(n) > 0.0 && Power(2 * n) == Squaring(Power(n))
  {
    UnfoldSquaring(Power(n));
    if n > 0 {
      PowerTwice(n - 1);
      var p := Power(n - 1);
      UnfoldSquaring(p);
      assert Power(2 * n) == 4.0 * Power(2 * (n - 1));
      assert (2.0 * p) * (2.0 * p) == 4.0 * (p * p);
    }
  }

  /** The mantissa of iteration `k`, doubled if a digit was found. */
  ghost function Undone(x: int, k: nat): int
    requires k > 0
  {
    if Digit(MantissaAfter(x, k - 1)) then 2 * MantissaAfter(x, k) else MantissaAfter(x, k)
  }

  lemma SquareNear(m: int)
    requires ONE36 <= m < TWO36
    ensures -3 * ONE36 <= 2 * (ONE36 * (if Digit(m) then 2 * NextMantissa(m) else NextMantissa(m)) - m * m) <= ONE36
  {
    UnfoldSquared(m);
    RoundNear(m * m, ONE36);
  }

  lemma {:induction false} MantissaRange(x: int, k: nat)
    requires ONE36 <= x < TWO36
    ensures ONE36 <= MantissaAfter(x, k) < TWO36
  {
    if k > 0 {
      MantissaRange(x, k - 1);
      MantissaStays(MantissaAfter(x, k - 1));
    }
  }

  /** The new mantissa, doubled if a digit was found, is the square within half a unit above and
      one and a half below. */
  lemma UndoneNear(x: int, k: nat)
    requires ONE36 <= x < TWO36 && k > 0
    ensures var m := MantissaAfter(x, k - 1); -3 * ONE36 <= 2 * (ONE36 * Undone(x, k) - m * m) <= ONE36
  {
    MantissaRange(x, k - 1);
    SquareNear(MantissaAfter(x, k - 1));
  }

  lemma Relative(next: int, square: int)
    requires -3 * ONE36 <= 2 * (ONE36 * next - square) <= ONE36 && square >= ONE36 * ONE36
    ensures var one := ONE36 as real; var v := square as real / (one * one);
            v * (1.0 - DOWN) <= Value(next) <= v * (1.0 + UP)
  {
    UnfoldValue(next);
    var one := ONE36 as real;
    var v := square as real / (one * one);
    assert v >= 1.0;
    assert one * Value(next) == next as real;
    assert one * one * v == square as real;
    assert 2.0 * (one * next as real - square as real) <= one;
    assert -3.0 * one <= 2.0 * (one * next as real - square as real);
  }

  /** One iteration: the square of the mantissa, but for the rounding. */
  lemma StepNear(x: int, k: nat)
    requires ONE36 <= x < TWO36 && k > 0
    ensures var v := Squaring(Value(MantissaAfter(x, k - 1)));
            v * (1.0 - DOWN) <= Value(Undone(x, k)) <= v * (1.0 + UP)
  {
    UndoneNear(x, k);
    MantissaRange(x, k - 1);
    NearValue(MantissaAfter(x, k - 1), Undone(x, k));
  }

  lemma NearValue(m: int, next: int)
    requires m >= ONE36 && -3 * ONE36 <= 2 * (ONE36 * next - m * m) <= ONE36
    ensures Squaring(Value(m)) * (1.0 - DOWN) <= Value(next) <= Squaring(Value(m)) * (1.0 + UP)
  {
    MulMono(m, ONE36, m);
    MulMono(ONE36, ONE36, m);
    SquareOfValue(m);
    Relative(next, m * m);
  }

  lemma SquareOfValue(m: int)
    ensures Squaring(Value(m)) == (m * m) as real / (ONE36 as real * ONE36 as real)
  {
    UnfoldValue(m);
    UnfoldSquaring(Value(m));
    var one := ONE36 as real;
    assert (m * m) as real == m as real * m as real;
    assert (m as real / one) * (m as real / one) == (m as real * m as real) / (one * one);
  }

  // ------------------------------------------------------------------------- all squarings

  ghost predicate BetweenTuple(y: (real, real, real, real)) {
    var (t, s, lo, hi) := y;
    0.0 <= s * lo <= t <= s * hi && 0.0 <= s && 0.0 <= lo <= hi
  }

  /** `t` is `s` times a factor between `lo` and `hi`; kept folded. */
  ghost predicate Between(t: real, s: real, lo: real, hi: real) { Folded(BetweenTuple)((t, s, lo, hi)) }

  lemma UnfoldBetween(t: real, s: real, lo: real, hi: real)
    ensures Between(t, s, lo, hi) <==> BetweenTuple((t, s, lo, hi))
  {
    Unfold(BetweenTuple, (t, s, lo, hi));
  }

  lemma SquareOfProduct(a: real, b: real)
    ensures Squaring(a * b) == Squaring(a) * Squaring(b)
  {
    UnfoldSquaring(a);
    UnfoldSquaring(b);
    UnfoldSquaring(a * b);
    assert (a * b) * (a * b) == (a * a) * (b * b);
  }

  lemma SquaringMono(a: real, b: real)
    requires 0.0 <= a <= b
    ensures 0.0 <= Squaring(a) <= Squaring(b)
  {
    UnfoldSquaring(a);
    UnfoldSquaring(b);
    ProductOrder(a, b, a, b);
  }

  lemma SquaredBetween(t: real, s: real, lo: real, hi: real)
    requires Between(t, s, lo, hi)
    ensures Between(Squaring(t), Squaring(s), Squaring(lo), Squaring(hi))
  {
    UnfoldBetween(t, s, lo, hi);
    UnfoldBetween(Squaring(t), Squaring(s), Squaring(lo), Squaring(hi));
    SquaringMono(s * lo, t);
    SquaringMono(t, s * hi);
    SquaringMono(lo, hi);
    SquaringMono(0.0, s);
    SquareOfProduct(s, lo);
    SquareOfProduct(s, hi);
  }

  lemma Scaled(a: real, b: real, q: real)
    requires a <= b && q >= 0.0
    ensures a * q <= b * q
  {
  }

  /** One more factor between `dn` and `up`. */
  lemma FactorBetween(t: real, s: real, lo: real, hi: real, dn: real, up: real, t': real, lo': real, hi': real)
    requires Between(t, s, lo, hi) && 0.0 <= dn <= up && t * dn <= t' <= t * up
    requires lo' == lo * dn && hi' == hi * up
    ensures Between(t', s, lo', hi')
  {
    UnfoldBetween(t, s, lo, hi);
    UnfoldBetween(t', s, lo', hi');
    Scaled(s * lo, t, dn);
    Scaled(t, s * hi, up);
    ProductOrder(lo, hi, dn, up);
    ProductOrder(0.0, s * lo, 0.0, dn);
    assert (s * lo) * dn == s * (lo * dn) && (s * hi) * up == s * (hi * up);
  }

  lemma SquaredProduct(v: real, p: real, next: real, dn: real, up: real)
    requires Squaring(v) * dn <= next <= Squaring(v) * up
    ensures Squaring(v * p) * dn <= next * Squaring(p) <= Squaring(v * p) * up
  {
    var q := Squaring(p);
    UnfoldSquaring(p);
    Scaled(Squaring(v) * dn, next, q);
    Scaled(next, Squaring(v) * up, q);
    Rearranged(v, p, dn);
    Rearranged(v, p, up);
  }

  lemma Rearranged(v: real, p: real, e: real)
    ensures Squaring(v * p) * e == Squaring(v) * e * Squaring(p)
  {
    SquareOfProduct(v, p);
  }

  /** The mantissa after `k` squarings times 2 to the digits found. */
  ghost function Reached(x: int, k: nat): real { Value(MantissaAfter(x, k)) * Power(Bits(x, k)) }

  lemma NextReached(x: int, k: nat)
    requires k > 0
    ensures Reached(x, k) == Value(Undone(x, k)) * Squaring(Power(Bits(x, k - 1)))
  {
    PowerTwice(Bits(x, k - 1));
    DoubledValue(MantissaAfter(x, k));
    Regrouped(Value(MantissaAfter(x, k)), Squaring(Power(Bits(x, k - 1))));
  }

  lemma DoubledValue(n: int)
    ensures Value(2 * n) == 2.0 * Value(n)
  {
    UnfoldValue(2 * n);
    UnfoldValue(n);
  }

  lemma Regrouped(v: real, q: real)
    ensures v * (2.0 * q) == 2.0 * v * q
  {
  }

  lemma NearProduct(a: real, b: real, v: real, p: real, w: real, dn: real, up: real)
    requires a == v * p && b == w * Squaring(p) && Squaring(v) * dn <= w <= Squaring(v) * up
    ensures Squaring(a) * dn <= b <= Squaring(a) * up
  {
    SquaredProduct(v, p, w, dn, up);
  }

  /** `dn` and `up` are the errors of one squaring. */
  ghost predicate Errors(dn: real, up: real) { dn == 1.0 - DOWN && up == 1.0 + UP }

  lemma ErrorsInOrder(dn: real, up: real)
    requires Errors(dn, up)
    ensures 0.0 < dn < 1.0 < up
  {
  }

  lemma NextNear(x: int, k: nat, dn: real, up: real)
    requires ONE36 <= x < TWO36 && k > 0 && Errors(dn, up)
    ensures Squaring(Reached(x, k - 1)) * dn <= Reached(x, k) <= Squaring(Reached(x, k - 1)) * up
  {
    StepNear(x, k);
    NextReached(x, k);
    NearProduct(Reached(x, k - 1), Reached(x, k), Value(MantissaAfter(x, k - 1)), Power(Bits(x, k - 1)), Value(Undone(x, k)), dn, up);
  }

  /** The mantissa after `k` squarings, times 2 to the digits found, is the first mantissa to the
      2^k, but for the compounded error. */
  lemma {:induction false} SquaringsNear(x: int, k: nat, dn: real, up: real)
    requires ONE36 <= x < TWO36 && Errors(dn, up)
    ensures Between(Reached(x, k), SquaredTimes(Value(x), k), Compounded(dn, k), Compounded(up, k))
  {
    if k == 0 {
      UnfoldValue(x);
      UnfoldBetween(Value(x), Value(x), 1.0, 1.0);
    } else {
      SquaringsNear(x, k - 1, dn, up);
      NextNear(x, k, dn, up);
      ErrorsInOrder(dn, up);
      NextBetween(Reached(x, k - 1), SquaredTimes(Value(x), k - 1), Compounded(dn, k - 1), Compounded(up, k - 1), dn, up, Reached(x, k),
                  Compounded(dn, k), Compounded(up, k));
    }
  }

  lemma NextBetween(t: real, s: real, lo: real, hi: real, dn: real, up: real, t': real, lo': real, hi': real)
    requires Between(t, s, lo, hi) && 0.0 <= dn <= up && Squaring(t) * dn <= t' <= Squaring(t) * up
    requires lo' == Squaring(lo) * dn && hi' == Squaring(hi) * up
    ensures Between(t', Squaring(s), lo', hi')
  {
    SquaredBetween(t, s, lo, hi);
    FactorBetween(Squaring(t), Squaring(s), Squaring(lo), Squaring(hi), dn, up, t', lo', hi');
  }

  // ----------------------------------------------------------------- the digits as a number

  lemma {:induction false} MantissaShift(x: int, k: nat)
    requires k > 0
    ensures MantissaAfter(x, k) == MantissaAfter(NextMantissa(x), k - 1)
  {
    if k > 1 {
      MantissaShift(x, k - 1);
    }
  }

  /** The digits from the front. */
  lemma {:induction false} BitsShift(x: int, next: int, k: nat)
    requires k > 0 && next == NextMantissa(x)
    ensures Bits(x, k) == (if Digit(x) then Pow2(k - 1) else 0) + Bits(next, k - 1)
  {
    if k > 1 {
      BitsShift(x, next, k - 1);
      MantissaShift(x, k - 1);
    }
  }

  lemma {:induction false} BitsBound(x: int, k: nat)
    ensures Bits(x, k) < Pow2(k)
  {
    if k > 0 {
      BitsBound(x, k - 1);
    }
  }

  /** The weighted digits against the digits as a whole number: every halved weight is cut by
      less than one. */
  lemma {:induction false} WeightsNear(x: int, b: int, k: nat)
    requires b >= 0
    ensures Pow2(k) * Digits(x, b, k) <= 2 * (b * Bits(x, k)) <= Pow2(k) * (Digits(x, b, k) + k)
    decreases k
  {
    if k > 0 {
      var next := NextMantissa(x);
      WeightsNear(next, b / 2, k - 1);
      BitsShift(x, next, k);
      BitsBound(next, k - 1);
      WeightStep(b, Pow2(k - 1), Digits(next, b / 2, k - 1), Bits(next, k - 1), k, Digit(x));
    }
  }

  lemma HalfProduct(b: int, h: int, n: int)
    ensures b == 2 * h ==> b * n == 2 * (h * n)
    ensures b == 2 * h + 1 ==> b * n == 2 * (h * n) + n
  {
  }

  lemma HalfWeight(b: int, n: int, p: int)
    requires b >= 0 && 0 <= n < p
    ensures 2 * (b / 2 * n) <= b * n <= 2 * (b / 2 * n) + p
  {
    HalfProduct(b, b / 2, n);
  }

  lemma WeightStep(b: int, p: int, d: int, n: int, k: nat, digit: bool)
    requires b >= 0 && k > 0 && 0 <= n < p && p * d <= 2 * (b / 2 * n) <= p * (d + (k - 1))
    ensures var d', n' := (if digit then b else 0) + d, (if digit then p else 0) + n;
            2 * p * d' <= 2 * (b * n') <= 2 * p * (d' + k)
  {
    HalfWeight(b, n, p);
    WeightProducts(b, p, d, n, k, if digit then b else 0, if digit then p else 0);
  }

  lemma WeightProducts(b: int, p: int, d: int, n: int, k: nat, b': int, p': int)
    requires p * b' == b * p'
    ensures b * (p' + n) == b * p' + b * n
    ensures 2 * p * (b' + d) == 2 * (b * p') + 2 * (p * d)
    ensures 2 * p * (b' + d + k) == 2 * (b * p') + 2 * (p * (d + (k - 1))) + 2 * p
  {
  }

  // ------------------------------------------------------------------------- the mantissa

  lemma HalfStep(x: int, h: int, p: int)
    requires h * p <= x / 2 < (h + 1) * p
    ensures h * (2 * p) <= x < (h + 1) * (2 * p)
  {
    assert h * (2 * p) == 2 * (h * p) && (h + 1) * (2 * p) == 2 * ((h + 1) * p);
  }

  lemma {:induction false} HalvedFloor(x: int, k: nat)
    requires x >= 0
    ensures Halved(x, k) * Pow2(k) <= x < (Halved(x, k) + 1) * Pow2(k)
    decreases k
  {
    if k > 0 {
      HalvedFloor(x / 2, k - 1);
      HalfStep(x, Halved(x / 2, k - 1), Pow2(k - 1));
    }
  }

  /** The mantissa is the argument over 2^n, exact below one and cut to the last decimal above. */
  lemma MantissaIs(x: int)
    requires x > 0
    ensures var m, n := Normalised(x), Exponent(x);
            if n < 0 then m == x * Pow2(-n) else m * Pow2(n) <= x < (m + 1) * Pow2(n)
  {
    if x < ONE36 {
      DoubledUntil(x);
    } else {
      HalvedFloor(x, Halvings(x));
    }
  }

  lemma ReachedRange(x: int, k: nat)
    requires ONE36 <= x < TWO36
    ensures Power(Bits(x, k)) <= Reached(x, k) < Power(Bits(x, k) + 1)
  {
    MantissaRange(x, k);
    PowerTwice(Bits(x, k));
    var v, p := Value(MantissaAfter(x, k)), Power(Bits(x, k));
    assert 1.0 <= v < 2.0 by { UnfoldValue(MantissaAfter(x, k)); }
    NextPower(Bits(x, k));
    ProductRange(v, p, Reached(x, k), Power(Bits(x, k) + 1));
  }

  lemma NextPower(n: nat)
    ensures Power(n + 1) == 2.0 * Power(n)
  {
  }

  lemma ProductRange(v: real, p: real, r: real, q: real)
    requires 1.0 <= v < 2.0 && p > 0.0 && r == v * p && q == 2.0 * p
    ensures p <= r < q
  {
    assert (v - 1.0) * p >= 0.0 && (2.0 - v) * p > 0.0;
  }

  /** With `n` the digits found in `k` iterations from the mantissa `r`, 2^n is at most r^(2^k)
      and 2^(n+1) more than it, but for a factor of one half of the last decimal more, and three
      halves less, in every squaring. */
  lemma DigitsAccurate(x: int, k: nat)
    requires ONE36 <= x < TWO36
    ensures Power(Bits(x, k)) <= SquaredTimes(Value(x), k) * Compounded(1.0 + UP, k)
    ensures SquaredTimes(Value(x), k) * Compounded(1.0 - DOWN, k) < Power(Bits(x, k) + 1)
  {
    var dn, up := 1.0 - DOWN, 1.0 + UP;
    SquaringsNear(x, k, dn, up);
    ReachedRange(x, k);
    UnfoldBetween(Reached(x, k), SquaredTimes(Value(x), k), Compounded(dn, k), Compounded(up, k));
  }

  /** The fraction of the result is those digits over 2^k, cut by at most one last decimal per
      iteration. */
  lemma FractionIsDigits(x: int, k: nat)
    requires x > 0 && k == MAX_LOG2_ITERATIONS
    ensures var n, fraction := Bits(Normalised(x), k), Log2(x) - Exponent(x) * ONE36;
            Pow2(k) * fraction <= ONE36 * n <= Pow2(k) * (fraction + k)
  {
    LogIs(x, k);
    FractionBits(Normalised(x), k);
  }

  lemma LogIs(x: int, k: nat)
    requires x > 0 && k == MAX_LOG2_ITERATIONS
    ensures Log2(x) - Exponent(x) * ONE36 == Digits(Normalised(x), HALF36, k)
  {
  }

  lemma FractionBits(m: int, k: nat)
    ensures Pow2(k) * Digits(m, HALF36, k) <= ONE36 * Bits(m, k) <= Pow2(k) * (Digits(m, HALF36, k) + k)
  {
    WeightsNear(m, HALF36, k);
    HalvesOfOne(Bits(m, k));
  }

  lemma HalvesOfOne(n: int)
    ensures 2 * (HALF36 * n) == ONE36 * n
  {
  }
}
