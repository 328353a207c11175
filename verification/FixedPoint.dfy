/** Fixed-point decimals as raw integers: a decimal of precision p is the
    integer 10^p times its value.  `LegacyDec` has 18 decimals, `BigDec` 36. */
module FixedPoint {
  const ONE18: int := 1_000_000_000_000_000_000
  const ONE36: int := ONE18 * ONE18

  function Pow2(n: nat): nat { if n == 0 then 1 else 2 * Pow2(n - 1) }

  /** Division with remainder. */
  lemma DivMod(x: int, p: int)
    requires p > 0
    ensures x == p * (x / p) + x % p && 0 <= x % p < p
  {
  }

  lemma MulMono(a: int, x: int, y: int)
    requires a >= 0 && x <= y
    ensures a * x <= a * y
  {
  }

  /** Whole multiples of `p` bound the quotient. */
  lemma DivBounds(x: int, p: int, q: int)
    requires p > 0
    ensures p * q <= x <==> q <= x / p
  {
    DivMod(x, p);
    if q <= x / p {
      MulMono(p, q, x / p);
    } else {
      MulMono(p, x / p + 1, q);
      assert p * (x / p + 1) == p * (x / p) + p;
    }
  }

  lemma DivMono(x: int, y: int, p: int)
    requires p > 0 && x <= y
    ensures x / p <= y / p
  {
    DivBounds(y, p, x / p);
    DivMod(x, p);
  }

  /** Division truncating toward zero, as big.Int's Quo. */
  function Quo(x: int, p: int): int
    requires p > 0
  {
    if x < 0 then -((-x) / p) else x / p
  }

  /** `chopPrecisionAndRound`: divides by `p`, to nearest, ties to even. */
  function RoundHalfEven(x: int, p: int): int
    requires p > 0
    decreases x < 0
  {
    if x < 0 then -RoundHalfEven(-x, p) else
      var q, r := x / p, x % p;
      if r == 0 || r < p / 2 then q
      else if r > p / 2 then q + 1
      else if q % 2 == 0 then q else q + 1
  }

  /** Rounding is off by at most half a unit. */
  lemma RoundNear(x: int, p: int)
    requires p > 0 && p % 2 == 0
    ensures -p <= 2 * (p * RoundHalfEven(x, p) - x) <= p
    decreases x < 0
  {
    if x < 0 {
      RoundNear(-x, p);
      assert p * -RoundHalfEven(-x, p) == -(p * RoundHalfEven(-x, p));
    } else {
      DivMod(x, p);
      var q := x / p;
      assert p * (q + 1) == p * q + p;
    }
  }

  lemma RoundRange(x: int, p: int)
    requires p > 0 && x >= 0
    ensures x / p <= RoundHalfEven(x, p) <= x / p + 1
    ensures RoundHalfEven(x, p) >= 0
  {
    DivBounds(x, p, 0);
  }

  lemma RoundMonoNonNeg(x: int, y: int, p: int)
    requires p > 0 && 0 <= x <= y
    ensures RoundHalfEven(x, p) <= RoundHalfEven(y, p)
  {
    DivMono(x, y, p);
    if x / p == y / p {
      DivMod(x, p);
      DivMod(y, p);
    } else {
      RoundRange(x, p);
      RoundRange(y, p);
    }
  }

  /** Rounding never reorders. */
  lemma RoundMono(x: int, y: int, p: int)
    requires p > 0 && x <= y
    ensures RoundHalfEven(x, p) <= RoundHalfEven(y, p)
  {
    if x >= 0 {
      RoundMonoNonNeg(x, y, p);
    } else if y < 0 {
      RoundMonoNonNeg(-y, -x, p);
    } else {
      RoundRange(-x, p);
      RoundRange(y, p);
    }
  }

  /** Multiples of the unit are kept exactly. */
  lemma RoundExact(k: int, p: int)
    requires p > 0
    ensures RoundHalfEven(p * k, p) == k
  {
    if p * k < 0 {
      assert p * -k == -(p * k);
      MulExact(-k, p);
    } else {
      MulExact(k, p);
    }
  }

  lemma MulExact(k: int, p: int)
    requires p > 0
    ensures (p * k) / p == k && (p * k) % p == 0
  {
    DivBounds(p * k, p, k);
    DivBounds(p * k, p, k + 1);
    DivMod(p * k, p);
    assert p * (k + 1) == p * k + p;
  }

  lemma DivDiv(a: int, p: int, q: int)
    requires a >= 0 && p > 0 && q > 0
    ensures p * q > 0 && a / p / q == a / (p * q)
  {
    var k := a / (p * q);
    DivBounds(a, p * q, k);
    DivBounds(a, p * q, k + 1);
    DivBounds(a, p, q * k);
    DivBounds(a, p, q * (k + 1));
    assert p * (q * k) == p * q * k && p * (q * (k + 1)) == p * q * (k + 1);
    DivBounds(a / p, q, k);
    DivBounds(a / p, q, k + 1);
  }

  // ---------------------------------------------------------------------- powers of two

  lemma TwiceProduct(x: int, y: int)
    ensures (2 * x) * y == 2 * (x * y)
  {
  }

  lemma {:induction false} Pow2Sum(a: nat, b: nat)
    ensures Pow2(a + b) == Pow2(a) * Pow2(b)
  {
    if a > 0 {
      Pow2Sum(a - 1, b);
      TwiceProduct(Pow2(a - 1), Pow2(b));
    }
  }

  lemma {:induction false} Pow2Grows(a: nat, b: nat)
    requires a <= b
    ensures 0 < Pow2(a) <= Pow2(b)
    decreases b
  {
    if a < b {
      Pow2Grows(a, b - 1);
    } else if a > 0 {
      Pow2Grows(a - 1, a - 1);
    }
  }

  lemma Pow2Twice(a: nat, p: int, pp: int)
    requires Pow2(a) == p && pp == p * p
    ensures Pow2(2 * a) == pp
  {
    Pow2Sum(a, a);
  }
}
