/** The binary logarithm of a decimal. */
module Logarithm {
  import opened FixedPoint
  import opened Folding
  import opened Options

  const TWO36: int := 2 * ONE36
  const HALF36: int := ONE36 / 2
  const MAX_LOG2_ITERATIONS: nat := 300

  // ----------------------------------------------------------------------- normalisation

  /** Left shifts until the value is at least one. */
  function Doublings(x: int): nat
    requires x > 0
    decreases ONE36 - x
  {
    if x >= ONE36 then 0 else 1 + Doublings(2 * x)
  }

  /** Right shifts until the value is below two. */
  function Halvings(x: int): nat
    requires x > 0
    decreases x
  {
    if x < TWO36 then 0 else 1 + Halvings(x / 2)
  }

  function Exponent(x: int): int
    requires x > 0
  {
    if x < ONE36 then 0 - Doublings(x) else Halvings(x)
  }

  function Doubled(x: int, k: nat): int
    decreases k
  {
    if k == 0 then x else Doubled(2 * x, k - 1)
  }

  function Halved(x: int, k: nat): int
    decreases k
  {
    if k == 0 then x else Halved(x / 2, k - 1)
  }

  /** The mantissa, between one and two. */
  function Normalised(x: int): int
    requires x > 0
  {
    if x < ONE36 then Doubled(x, Doublings(x)) else Halved(x, Halvings(x))
  }

  // ---------------------------------------------------------------------------- digits

  ghost function RoundedSquare(x: int): int { RoundHalfEven(x * x, ONE36) }

  /** The rounded square; kept folded. */
  ghost function Squared(x: int): int { FoldedFn(RoundedSquare)(x) }

  lemma UnfoldSquared(x: int)
    ensures Squared(x) == RoundHalfEven(x * x, ONE36)
  {
    UnfoldFn(RoundedSquare, x);
  }

  /** One squaring: whether a digit of the logarithm was found, and the new mantissa. */
  ghost predicate Digit(x: int) { Squared(x) >= TWO36 }
  ghost function NextMantissa(x: int): int { if Digit(x) then Squared(x) / 2 else Squared(x) }

  /** What `k` iterations add, from mantissa `x` and weight `b`. */
  ghost function Digits(x: int, b: int, k: nat): int
    decreases k
  {
    if k == 0 then 0 else (if Digit(x) then b else 0) + Digits(NextMantissa(x), b / 2, k - 1)
  }

  /** `LogBase2`. */
  ghost function Log2(x: int): int
    requires x > 0
  {
    Exponent(x) * ONE36 + Digits(Normalised(x), HALF36, MAX_LOG2_ITERATIONS)
  }

  /** The two loops that bring the mantissa between one and two. */
  method Normalise(x: int) returns (m: int, y: int)
    requires x > 0
    ensures m == Normalised(x) && y == Exponent(x) * ONE36
  {
    m, y := x, 0;
    while m < ONE36
      invariant m > 0 && (x >= ONE36 ==> m == x && y == 0)
      invariant x < ONE36 ==> m < TWO36 && 0 - Doublings(x) * ONE36 == y - Doublings(m) * ONE36 && Doubled(x, Doublings(x)) == Doubled(m, Doublings(m))
      decreases ONE36 - m
    {
      m := 2 * m;
      y := y - ONE36;
    }
    while m >= TWO36
      invariant m >= ONE36 && (x < ONE36 ==> m == Normalised(x) && y == Exponent(x) * ONE36 && m < TWO36)
      invariant x >= ONE36 ==> Halvings(x) * ONE36 == y + Halvings(m) * ONE36 && Halved(x, Halvings(x)) == Halved(m, Halvings(m))
    {
      m := m / 2;
      y := y + ONE36;
    }
  }

  /** `LogBase2`; panics unless `x` is positive. */
  method LogBase2(x: int) returns (r: Option<int>)
    ensures r == if x <= 0 then None else Some(Log2(x))
  {
    if x <= 0 {
      return None;
    }
    var m, y := Normalise(x);
    var b, i := HALF36, 0;
    MantissaInRange(x, 0);
    while i < MAX_LOG2_ITERATIONS
      invariant 0 <= i <= MAX_LOG2_ITERATIONS
      invariant m == MantissaAfter(Normalised(x), i) && ONE36 <= m < TWO36
      invariant y + Digits(m, b, MAX_LOG2_ITERATIONS - i) == Log2(x)
    {
      UnfoldSquared(m);
      m := RoundHalfEven(m * m, ONE36);
      if m >= TWO36 {
        m := m / 2;
        y := y + b;
      }
      b := b / 2;
      i := i + 1;
      MantissaInRange(x, i);
    }
    return Some(y);
  }

  // ------------------------------------------------------------------- the integer part

  lemma {:induction false} DoubledUntil(x: int)
    requires 0 < x < TWO36
    ensures ONE36 <= Doubled(x, Doublings(x)) < TWO36
    ensures Doubled(x, Doublings(x)) == x * Pow2(Doublings(x))
    decreases ONE36 - x
  {
    if x < ONE36 {
      DoubledUntil(2 * x);
    }
  }

  lemma {:induction false} HalvedUntil(x: int)
    requires x >= ONE36
    ensures ONE36 <= Halved(x, Halvings(x)) < TWO36
    ensures ONE36 * Pow2(Halvings(x)) <= x < TWO36 * Pow2(Halvings(x))
    decreases x
  {
    if x >= TWO36 {
      HalvedUntil(x / 2);
      HalfBounds(x, ONE36 * Pow2(Halvings(x / 2)), TWO36 * Pow2(Halvings(x / 2)));
    }
  }

  lemma HalfBounds(x: int, lo: int, hi: int)
    requires lo <= x / 2 < hi
    ensures 2 * lo <= x < 2 * hi
  {
  }

  /** `n` is the integer part of the binary logarithm of the decimal `x`. */
  ghost predicate IntegerPart(x: int, n: int) {
    if n >= 0 then ONE36 * Pow2(n) <= x < TWO36 * Pow2(n) else ONE36 <= x * Pow2(-n) < TWO36
  }

  /** Normalisation finds the integer part exactly and leaves a mantissa between one and two. */
  lemma Normalises(x: int)
    requires x > 0
    ensures IntegerPart(x, Exponent(x)) && ONE36 <= Normalised(x) < TWO36
  {
    if x < ONE36 {
      DoubledUntil(x);
    } else {
      HalvedUntil(x);
    }
  }

  // ------------------------------------------------------------------------ the digits

  /** The mantissa stays between one and two. */
  lemma MantissaStays(x: int)
    requires ONE36 <= x < TWO36
    ensures ONE36 <= NextMantissa(x) < TWO36
  {
    UnfoldSquared(x);
    MulMono(x, ONE36, x);
    MulMono(x, x, TWO36 - 1);
    MulMono(TWO36 - 1, x, TWO36 - 1);
    RoundMono(ONE36 * ONE36, x * x, ONE36);
    RoundMono(x * x, ONE36 * (4 * ONE36 - 2), ONE36);
    RoundExact(ONE36, ONE36);
    RoundExact(4 * ONE36 - 2, ONE36);
  }

  lemma MantissaMonotone(x: int, y: int)
    requires ONE36 <= x <= y < TWO36
    ensures Squared(x) <= Squared(y)
  {
    UnfoldSquared(x);
    UnfoldSquared(y);
    MulMono(x, x, y);
    MulMono(y, x, y);
    RoundMono(x * x, y * y, ONE36);
  }

  /** All digits from weight `b` on are worth less than twice `b`. */
  lemma {:induction false} DigitsBound(x: int, b: int, k: nat)
    requires b >= 0
    ensures 0 <= Digits(x, b, k) && (b == 0 ==> Digits(x, b, k) == 0) && (b > 0 ==> Digits(x, b, k) < 2 * b)
    decreases k
  {
    if k > 0 {
      DigitsBound(NextMantissa(x), b / 2, k - 1);
    }
  }

  /** The digits of a larger mantissa are no smaller a number, although every squaring rounds
      and every shift truncates. */
  lemma {:induction false} DigitsMonotone(x: int, y: int, b: int, k: nat)
    requires ONE36 <= x <= y < TWO36 && b >= 0
    ensures Digits(x, b, k) <= Digits(y, b, k)
    decreases k
  {
    if k > 0 {
      MantissaStays(x);
      MantissaStays(y);
      MantissaMonotone(x, y);
      if Digit(x) == Digit(y) {
        DigitsMonotone(NextMantissa(x), NextMantissa(y), b / 2, k - 1);
      } else {
        DigitsBound(NextMantissa(x), b / 2, k - 1);
        DigitsBound(NextMantissa(y), b / 2, k - 1);
      }
    }
  }

  /** The mantissa after `i` iterations. */
  ghost function MantissaAfter(x: int, i: nat): int
  {
    if i == 0 then x else NextMantissa(MantissaAfter(x, i - 1))
  }

  lemma {:induction false} MantissaInRange(x: int, i: nat)
    requires x > 0
    ensures ONE36 <= MantissaAfter(Normalised(x), i) < TWO36
  {
    if i == 0 {
      Normalises(x);
    } else {
      MantissaInRange(x, i - 1);
      MantissaStays(MantissaAfter(Normalised(x), i - 1));
    }
  }

  // --------------------------------------------------------------------- the logarithm

  /** The whole part of the result is the exact integer part of the logarithm. */
  lemma Log2Whole(x: int)
    requires x > 0
    ensures IntegerPart(x, Exponent(x))
    ensures Exponent(x) * ONE36 <= Log2(x) < (Exponent(x) + 1) * ONE36
  {
    Normalises(x);
    DigitsBound(Normalised(x), HALF36, MAX_LOG2_ITERATIONS);
  }

  lemma {:induction false} DoublingsOrder(x: int, y: int)
    requires 0 < x <= y < TWO36
    ensures Doublings(x) >= Doublings(y)
    ensures Doublings(x) == Doublings(y) ==> Doubled(x, Doublings(x)) <= Doubled(y, Doublings(y))
    decreases ONE36 - x
  {
    if y < ONE36 {
      DoublingsOrder(2 * x, 2 * y);
    }
  }

  lemma {:induction false} HalvingsOrder(x: int, y: int)
    requires ONE36 <= x <= y
    ensures Halvings(x) <= Halvings(y)
    ensures Halvings(x) == Halvings(y) ==> Halved(x, Halvings(x)) <= Halved(y, Halvings(y))
    decreases x
  {
    if x >= TWO36 {
      HalvingsOrder(x / 2, y / 2);
    }
  }

  /** Larger arguments have a larger exponent, or the same and no smaller a mantissa. */
  lemma NormalisedOrder(x: int, y: int)
    requires 0 < x <= y
    ensures Exponent(x) <= Exponent(y) && (Exponent(x) == Exponent(y) ==> Normalised(x) <= Normalised(y))
  {
    if y < ONE36 {
      DoublingsOrder(x, y);
    } else if x >= ONE36 {
      HalvingsOrder(x, y);
    }
  }

  lemma Lexicographic(e: int, f: int, e': int, f': int)
    requires e <= e' && 0 <= f < ONE36 && 0 <= f' && (e == e' ==> f <= f')
    ensures e * ONE36 + f <= e' * ONE36 + f'
  {
  }

  lemma FractionBound(x: int, k: nat)
    ensures 0 <= Digits(x, HALF36, k) < ONE36
  {
    DigitsBound(x, HALF36, k);
  }

  /** The logarithm never reorders positive decimals. */
  lemma Log2Monotone(x: int, y: int)
    requires 0 < x <= y
    ensures Log2(x) <= Log2(y)
  {
    NormalisedOrder(x, y);
    Normalises(x);
    Normalises(y);
    var k: nat := MAX_LOG2_ITERATIONS;
    FractionBound(Normalised(x), k);
    FractionBound(Normalised(y), k);
    if Exponent(x) == Exponent(y) {
      DigitsMonotone(Normalised(x), Normalised(y), HALF36, k);
    }
    Lexicographic(Exponent(x), Digits(Normalised(x), HALF36, k), Exponent(y), Digits(Normalised(y), HALF36, k));
  }

  /** Powers of two have exact logarithms. */
  lemma {:induction false} NoDigits(b: int, k: nat)
    ensures Digits(ONE36, b, k) == 0
    decreases k
  {
    if k > 0 {
      UnfoldSquared(ONE36);
      RoundExact(ONE36, ONE36);
      NoDigits(b / 2, k - 1);
    }
  }

  lemma {:induction false} HalvingsOfPower(n: nat)
    ensures ONE36 * Pow2(n) > 0 && Halvings(ONE36 * Pow2(n)) == n && Halved(ONE36 * Pow2(n), n) == ONE36
  {
    if n > 0 {
      HalvingsOfPower(n - 1);
      assert ONE36 * Pow2(n) == 2 * (ONE36 * Pow2(n - 1));
      assert Pow2(n - 1) >= 1;
    }
  }

  lemma Log2OfPower(n: nat)
    ensures ONE36 * Pow2(n) > 0 && Log2(ONE36 * Pow2(n)) == n * ONE36
  {
    HalvingsOfPower(n);
    assert ONE36 * Pow2(n) >= ONE36;
    NoDigits(HALF36, MAX_LOG2_ITERATIONS);
  }
}
