/** Integer powers of decimals by square and multiply. */
module Power {
  import opened FixedPoint
  import opened Options
  import opened Decimals

  /** The loop of `PowerIntegerMut` and the multiplication after it. */
  ghost function SquareMultiply(tmp: int, d: int, i: nat): Result<int, Overflow>
    decreases i
  {
    if i <= 1 then Product(d, tmp) else
      var t :- if i % 2 != 0 then Product(tmp, d) else Ok(tmp);
      var s :- Product(d, d);
      SquareMultiply(t, s, i / 2)
  }

  ghost function PowerOf(d: int, n: nat): Result<int, Overflow> {
    if n == 0 then Ok(ONE36) else if n == 1 then Ok(d) else if n == 2 then Product(d, d) else SquareMultiply(ONE36, d, n)
  }

  /** `PowerIntegerMut`: overwrites its receiver and returns it, except for the zeroth power. */
  method PowerIntegerMut(d: Decimal, power: nat) returns (r: Result<Decimal, Overflow>)
    modifies d
    ensures r.Ok? <==> PowerOf(old(d.raw), power).Ok?
    ensures r.Ok? ==> r.value.raw == PowerOf(old(d.raw), power).value
    ensures r.Ok? ==> if power == 0 then r.value != d && d.raw == old(d.raw) else r.value == d
  {
    if power == 0 {
      var one := new Decimal(ONE36);
      return Ok(one);
    } else if power == 1 {
      return Ok(d);
    } else if power == 2 {
      UnfoldProduct(d.raw, d.raw);
      d.raw :- Mul(d.raw, d.raw);
      return Ok(d);
    }
    var tmp, i := ONE36, power;
    while i > 1
      invariant i >= 1 && SquareMultiply(tmp, d.raw, i) == SquareMultiply(ONE36, old(d.raw), power)
    {
      if i % 2 != 0 {
        UnfoldProduct(tmp, d.raw);
        tmp :- Mul(tmp, d.raw);
      }
      i := i / 2;
      UnfoldProduct(d.raw, d.raw);
      d.raw :- Mul(d.raw, d.raw);
    }
    UnfoldProduct(d.raw, tmp);
    d.raw :- Mul(d.raw, tmp);
    return Ok(d);
  }

  /** `PowerInteger`, on a clone. */
  method PowerInteger(d: int, power: nat) returns (r: Result<int, Overflow>)
    ensures r.Ok? <==> PowerOf(d, power).Ok?
    ensures r.Ok? ==> r.value == PowerOf(d, power).value
  {
    var clone := new Decimal(d);
    var p :- PowerIntegerMut(clone, power);
    return Ok(p.raw);
  }

  // --------------------------------------------------------------------------- monotone

  lemma {:induction false} LoopMonotone(t: int, a: int, s: int, b: int, i: nat)
    requires 0 <= t <= s && 0 <= a <= b && i >= 1 && SquareMultiply(s, b, i).Ok?
    ensures SquareMultiply(t, a, i).Ok? && 0 <= SquareMultiply(t, a, i).value <= SquareMultiply(s, b, i).value
    decreases i
  {
    if i == 1 {
      MulMonotone(a, t, b, s);
    } else {
      MulMonotone(a, a, b, b);
      var t', s' := t, s;
      if i % 2 != 0 {
        MulMonotone(t, a, s, b);
        t', s' := Product(t, a).value, Product(s, b).value;
      }
      LoopMonotone(t', Product(a, a).value, s', Product(b, b).value, i / 2);
    }
  }

  /** Powers of non-negative decimals are never reordered, although every multiplication
      rounds; where the larger base does not overflow, neither does the smaller. */
  lemma PowerMonotone(a: int, b: int, n: nat)
    requires 0 <= a <= b && PowerOf(b, n).Ok?
    ensures PowerOf(a, n).Ok? && PowerOf(a, n).value <= PowerOf(b, n).value
  {
    if n == 2 {
      MulMonotone(a, a, b, b);
    } else if n > 2 {
      LoopMonotone(ONE36, a, ONE36, b, n);
    }
  }

  // -------------------------------------------------------------------- exact on integers

  /** The n-fold product. */
  function Exp(k: int, n: nat): int { if n == 0 then 1 else k * Exp(k, n - 1) }

  lemma {:induction false} ExpSquare(k: int, kk: int, n: nat)
    requires kk == k * k
    ensures Exp(kk, n) == Exp(k, 2 * n)
  {
    if n > 0 {
      ExpSquare(k, kk, n - 1);
      assert Exp(k, 2 * n) == k * (k * Exp(k, 2 * n - 2));
    }
  }

  lemma AbsProduct(a: int, b: int)
    ensures Abs(a * b) == Abs(a) * Abs(b)
  {
  }

  /** A product of non-zero integers is no smaller in magnitude than either. */
  lemma Larger(a: int, b: int, ab: int)
    requires a != 0 && b != 0 && ab == a * b
    ensures ab != 0 && Abs(a) <= Abs(ab) && Abs(b) <= Abs(ab)
  {
    AbsProduct(a, b);
    MulMono(Abs(a), 1, Abs(b));
    MulMono(Abs(b), 1, Abs(a));
  }

  lemma {:induction false} ExpNonZero(k: int, n: nat)
    requires k != 0
    ensures Exp(k, n) != 0
    ensures n >= 1 ==> Abs(k) <= Abs(Exp(k, n))
  {
    if n > 0 {
      ExpNonZero(k, n - 1);
      Larger(k, Exp(k, n - 1), Exp(k, n));
    }
  }

  ghost function Whole(x: int): Result<int, Overflow> { if Fits(x * ONE36) then Ok(x * ONE36) else Err(Overflow) }

  lemma SmallerFits(a: int, b: int)
    requires Abs(a) <= Abs(b)
    ensures Fits(b * ONE36) ==> Fits(a * ONE36)
  {
    AbsProduct(a, ONE36);
    AbsProduct(b, ONE36);
  }

  /** One iteration in whole numbers: `t` and `k` after it, and `r` the result. */
  lemma LoopStep(tmp: int, d: int, i: nat, t: int, k: int, r: int)
    requires i >= 2 && Product(d, d) == Whole(k) && if i % 2 != 0 then Product(tmp, d) == Whole(t) else tmp == t * ONE36
    requires SquareMultiply(t * ONE36, k * ONE36, i / 2) == Whole(r)
    requires Fits(r * ONE36) ==> Fits(t * ONE36) && Fits(k * ONE36)
    ensures SquareMultiply(tmp, d, i) == Whole(r)
  {
  }

  /** `r` is `t` times the `i`th power of `k`. */
  ghost predicate TimesPower(r: int, t: int, k: int, i: nat) { r == t * Exp(k, i) }

  lemma Regroup(r: int, t: int, k: int, i: nat, t': int, kk: int)
    requires i >= 2 && TimesPower(r, t, k, i) && kk == k * k && t' == if i % 2 != 0 then t * k else t
    ensures TimesPower(r, t', kk, i / 2)
  {
    ExpSquare(k, kk, i / 2);
    if i % 2 != 0 {
      assert Exp(k, i) == k * Exp(k, i - 1) && i - 1 == 2 * (i / 2);
      assert t * k * Exp(k, i - 1) == t * (k * Exp(k, i - 1));
    }
  }

  /** The loop on non-zero whole numbers: exact, and it overflows exactly when the result does. */
  lemma {:induction false} LoopWhole(t: int, k: int, i: nat, r: int)
    requires i >= 1 && t != 0 && k != 0 && TimesPower(r, t, k, i)
    ensures SquareMultiply(t * ONE36, k * ONE36, i) == Whole(r) && Abs(t) <= Abs(r) && Abs(k) <= Abs(r)
    decreases i
  {
    ExpNonZero(k, i);
    Larger(t, Exp(k, i), r);
    if i == 1 {
      assert Exp(k, 1) == k * Exp(k, 0);
      MulWhole(k, t, r);
    } else {
      var tk, kk := t * k, k * k;
      var t' := if i % 2 != 0 then tk else t;
      Larger(t, k, tk);
      Larger(k, k, kk);
      MulWhole(t, k, tk);
      MulWhole(k, k, kk);
      Regroup(r, t, k, i, t', kk);
      LoopWhole(t', kk, i / 2, r);
      SmallerFits(t', r);
      SmallerFits(kk, r);
      LoopStep(t * ONE36, k * ONE36, i, t', kk, r);
    }
  }

  lemma {:induction false} LoopZero(t: int, i: nat)
    requires i >= 1
    ensures SquareMultiply(t, 0, i) == Ok(0)
    decreases i
  {
    ZeroProduct(t);
    ZeroProduct(0);
    if i > 1 {
      LoopZero(t, i / 2);
      LoopZero(0, i / 2);
    }
  }

  lemma ZeroProduct(t: int)
    ensures Product(t, 0) == Product(0, t) == Ok(0)
  {
    UnfoldProduct(t, 0);
    UnfoldProduct(0, t);
    assert 0 * t == t * 0 == 0 && RoundHalfEven(0, ONE36) == 0;
  }

  lemma ExpZero(n: nat)
    requires n >= 1
    ensures Exp(0, n) == 0
  {
    assert 0 * Exp(0, n - 1) == 0;
  }

  /** On whole numbers, of either sign, the power is the exact n-fold product; from the second
      power on it overflows if and only if that product does not fit. */
  lemma PowerExact(k: int, n: nat)
    ensures PowerOf(k * ONE36, n) == if n < 2 then Ok(Exp(k, n) * ONE36) else Whole(Exp(k, n))
  {
    assert Exp(k, 1) == k * Exp(k, 0);
    if n == 2 {
      assert Exp(k, 2) == k * Exp(k, 1);
      MulWhole(k, k, Exp(k, 2));
    } else if n > 2 && k == 0 {
      LoopZero(ONE36, n);
      ExpZero(n);
    } else if n > 2 {
      LoopWhole(1, k, n, Exp(k, n));
    }
  }
}
