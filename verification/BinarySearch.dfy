/** Binary search for an input whose output is within a tolerance of a target. */
module BinarySearch {
  import opened FixedPoint
  import opened Options
  import opened Decimals

  datatype Rounding = Unconstrained | RoundUp | RoundDown | RoundBankers

  /** Tolerances are decimals; `None` stands for a nil one. */
  datatype Tolerance = Tolerance(additive: Option<int>, multiplicative: Option<int>, rounding: Rounding)

  function Min(a: int, b: int): int { if a < b then a else b }

  /** `LegacyDec.Quo` of two non-negative decimals. */
  function QuoDec(a: int, b: int): int
    requires b > 0
  {
    RoundHalfEven(a * ONE36 / b, ONE18)
  }

  /** `ErrTolerance.Compare`. */
  function Compare(t: Tolerance, expected: int, actual: int): int {
    var diff, sign := Abs(expected - actual) * ONE18, if expected > actual then 1 else -1;
    var least := Min(Abs(expected), Abs(actual));
    if t.rounding == RoundDown && expected < actual then -1
    else if t.rounding == RoundUp && expected > actual then 1
    else if t.additive == Some(0) && expected == actual then 0
    else if t.additive.Some? && diff > t.additive.value then sign
    else if t.multiplicative.None? || t.multiplicative.value == 0 then 0
    else if least == 0 then sign
    else if QuoDec(diff, least * ONE18) > t.multiplicative.value then sign
    else 0
  }

  datatype SearchError<E> = Failed(error: E) | NotConverged

  /** The loop of `BinarySearch` with `k` iterations left. */
  function Search<E>(f: int -> Result<int, E>, lo: int, hi: int, target: int, t: Tolerance, k: nat): Result<int, SearchError<E>>
    decreases k
  {
    if k == 0 then Err(NotConverged) else
      var mid := Quo(lo + hi, 2);
      if f(mid).Err? then Err(Failed(f(mid).error)) else
        var c := Compare(t, target, f(mid).value);
        if c < 0 then Search(f, lo, mid, target, t, k - 1)
        else if c > 0 then Search(f, mid, hi, target, t, k - 1)
        else Ok(mid)
  }

  /** `BinarySearch`. */
  method FindInput<E>(f: int -> Result<int, E>, lowerbound: int, upperbound: int, target: int, t: Tolerance, maxIterations: nat)
    returns (r: Result<int, SearchError<E>>)
    ensures r == Search(f, lowerbound, upperbound, target, t, maxIterations)
    ensures r.Ok? ==> f(r.value).Ok? && Compare(t, target, f(r.value).value) == 0
  {
    var lower, upper, i := lowerbound, upperbound, 0;
    while i < maxIterations
      invariant 0 <= i <= maxIterations
      invariant Search(f, lower, upper, target, t, maxIterations - i) == Search(f, lowerbound, upperbound, target, t, maxIterations)
    {
      var estimate := Quo(lower + upper, 2);
      var output := f(estimate);
      if output.Err? {
        return Err(Failed(output.error));
      }
      var c := Compare(t, target, output.value);
      if c < 0 {
        upper := estimate;
      } else if c > 0 {
        lower := estimate;
      } else {
        return Ok(estimate);
      }
      i := i + 1;
    }
    return Err(NotConverged);
  }

  // --------------------------------------------------------------------------- Compare

  ghost predicate NonNegativeTolerance(t: Tolerance) {
    (t.additive.Some? ==> t.additive.value >= 0) && (t.multiplicative.Some? ==> t.multiplicative.value >= 0)
  }

  /** With an additive tolerance alone, the comparison is zero exactly when the difference is
      within it and the rounding direction is right; otherwise it is the sign of the difference. */
  lemma CompareAdditive(t: Tolerance, expected: int, actual: int)
    requires t.additive.Some? && t.additive.value >= 0 && t.multiplicative.None?
    ensures var within := Abs(expected - actual) * ONE18 <= t.additive.value
                          && (t.rounding == RoundDown ==> expected >= actual) && (t.rounding == RoundUp ==> expected <= actual);
            Compare(t, expected, actual) == if within then 0 else if expected > actual then 1 else -1
  {
  }

  /** With any tolerances, the comparison is zero exactly when the rounding direction is right, the
      difference is within the additive one, and its quotient by the lesser amount is within the
      multiplicative one; otherwise it is the sign of the difference, and -1 for equal amounts. A
      multiplicative tolerance of zero counts as none, and equal amounts meet an additive one of
      zero in any case. */
  lemma CompareExactly(t: Tolerance, expected: int, actual: int)
    ensures var diff, least := Abs(expected - actual), Min(Abs(expected), Abs(actual));
            var direction := (t.rounding == RoundDown ==> expected >= actual) && (t.rounding == RoundUp ==> expected <= actual);
            var additive := t.additive.Some? ==> diff * ONE18 <= t.additive.value;
            var multiplicative := t.multiplicative.Some? && t.multiplicative.value != 0 && !(t.additive == Some(0) && diff == 0) ==>
                                    least > 0 && QuoDec(diff * ONE18, least * ONE18) <= t.multiplicative.value;
            Compare(t, expected, actual) == if direction && additive && multiplicative then 0 else if expected > actual then 1 else -1
  {
  }

  /** That quotient is the exact one, within half a unit of 10^-18 and the truncation before it. */
  lemma QuotientNear(diff: int, least: int)
    requires diff >= 0 && least > 0
    ensures var r := QuoDec(diff * ONE18, least * ONE18);
            -(ONE18 + 2) * least <= 2 * (ONE18 * (r * least) - diff * ONE36) <= ONE18 * least
  {
    var f := diff * ONE36 / least;
    assert diff * ONE18 * ONE36 == ONE18 * (diff * ONE36) && least * ONE18 == ONE18 * least;
    CancelFactor(diff * ONE36, least);
    DivMod(diff * ONE36, least);
    RoundNear(f, ONE18);
    QuotientNumbers(RoundHalfEven(f, ONE18), f, least, diff * ONE36);
  }

  lemma CancelFactor(a: int, b: int)
    requires a >= 0 && b > 0
    ensures ONE18 * a / (ONE18 * b) == a / b
  {
    DivDiv(ONE18 * a, ONE18, b);
    MulExact(a, ONE18);
  }

  lemma QuotientNumbers(r: int, f: int, least: int, exact: int)
    requires least > 0 && -ONE18 <= 2 * (ONE18 * r - f) <= ONE18 && least * f <= exact < least * f + least
    ensures -(ONE18 + 2) * least <= 2 * (ONE18 * (r * least) - exact) <= ONE18 * least
  {
    MulMono(least, -ONE18, 2 * (ONE18 * r - f));
    MulMono(least, 2 * (ONE18 * r - f), ONE18);
    assert least * (2 * (ONE18 * r - f)) == 2 * (ONE18 * (r * least)) - 2 * (least * f);
  }

  lemma QuoDecMono(a: int, b: int, c: int, d: int)
    requires 0 <= a <= c && b >= d > 0
    ensures QuoDec(a, b) <= QuoDec(c, d)
  {
    DivBounds(a * ONE36, b, 0);
    var q := a * ONE36 / b;
    DivMod(a * ONE36, b);
    MulMono(q, d, b);
    DivBounds(c * ONE36, d, q);
    RoundMono(q, c * ONE36 / d, ONE18);
  }

  /** A relative tolerance of 2 or more, which a difference across zero can meet. */
  predicate Wide(t: Tolerance) { t.multiplicative.Some? && t.multiplicative.value >= 2 * ONE18 }

  predicate SameSide(a: int, b: int) { (a >= 0 && b >= 0) || (a <= 0 && b <= 0) }

  /** The quotient is at least two where the difference is at least twice the lesser amount. */
  lemma QuoAtLeastTwo(diff: int, least: int)
    requires least > 0 && diff >= 2 * least
    ensures QuoDec(diff * ONE18, least * ONE18) >= 2 * ONE18
  {
    QuoDecMono(2 * least * ONE18, least * ONE18, diff * ONE18, least * ONE18);
    assert 2 * least * ONE18 * ONE36 == least * ONE18 * (2 * ONE36);
    MulExact(2 * ONE36, least * ONE18);
    assert 2 * ONE36 == ONE18 * (2 * ONE18);
    RoundExact(2 * ONE18, ONE18);
  }

  /** Farther away on the same side of zero, or across it, the relative difference does not
      get small. */
  lemma FartherQuotient(e: int, a: int, b: int)
    requires (e <= a <= b || b <= a <= e) && e != 0 && a != 0 && b != 0
    ensures var qa, qb := QuoDec(Abs(e - a) * ONE18, Min(Abs(e), Abs(a)) * ONE18), QuoDec(Abs(e - b) * ONE18, Min(Abs(e), Abs(b)) * ONE18);
            if SameSide(e, b) then qa <= qb else qb >= 2 * ONE18
  {
    if SameSide(e, b) {
      QuoDecMono(Abs(e - a) * ONE18, Min(Abs(e), Abs(a)) * ONE18, Abs(e - b) * ONE18, Min(Abs(e), Abs(b)) * ONE18);
    } else {
      QuoAtLeastTwo(Abs(e - b), Min(Abs(e), Abs(b)));
    }
  }

  /** Rejected as too large, so is everything larger. */
  lemma TooLarge(t: Tolerance, e: int, a: int, b: int)
    requires NonNegativeTolerance(t) && (Wide(t) ==> SameSide(e, b)) && a <= b && Compare(t, e, a) < 0
    ensures Compare(t, e, b) < 0
  {
    if e != 0 && a != 0 && b != 0 && e <= a {
      FartherQuotient(e, a, b);
    } else if e != 0 && b != 0 && e <= a {
      FartherQuotient(e, b, b);
    }
  }

  /** Rejected as too small, so is everything smaller. */
  lemma TooSmall(t: Tolerance, e: int, a: int, b: int)
    requires NonNegativeTolerance(t) && (Wide(t) ==> SameSide(e, a)) && a <= b && Compare(t, e, b) > 0
    ensures Compare(t, e, a) > 0
  {
    if e != 0 && a != 0 && b != 0 && b <= e {
      FartherQuotient(e, b, a);
    } else if e != 0 && a != 0 && b <= e {
      FartherQuotient(e, a, a);
    }
  }

  /** Every tolerance that is wide rejects something nearer and accepts something farther across
      zero. */
  lemma WideCrossing(t: Tolerance)
    requires Wide(t) && t.additive.None? && t.rounding == Unconstrained
    ensures var m := t.multiplicative.value; Compare(t, -m, 1) < 0 && Compare(t, -m, m) == 0
  {
    var m := t.multiplicative.value;
    assert (m + 1) * ONE18 * ONE36 == ONE18 * ((m + 1) * ONE36);
    MulExact((m + 1) * ONE36, ONE18);
    assert (m + 1) * ONE36 == ONE18 * ((m + 1) * ONE18);
    RoundExact((m + 1) * ONE18, ONE18);
    assert 2 * m * ONE18 * ONE36 == m * ONE18 * (2 * ONE36);
    MulExact(2 * ONE36, m * ONE18);
    RoundExact(2 * ONE18, ONE18);
  }

  // ---------------------------------------------------------------------- completeness

  ghost predicate Hit<E>(f: int -> Result<int, E>, target: int, t: Tolerance, x: int) {
    f(x).Ok? && Compare(t, target, f(x).value) == 0
  }

  /** The least and the greatest input a search of [lo, hi] can try: midpoints are cut toward
      zero, so a positive upper bound is never tried, and neither is a negative lower one. */
  function First(lo: int): int { if lo < 0 then lo + 1 else lo }

  function Last(hi: int): int { if hi > 0 then hi - 1 else hi }

  /** `f` has no errors in [first, last] and never decreases there. */
  ghost predicate NonDecreasing<E>(f: int -> Result<int, E>, first: int, last: int) {
    && (forall x {:trigger f(x)} | first <= x <= last :: f(x).Ok?)
    && forall x, y {:trigger f(x), f(y)} | first <= x <= y <= last :: f(x).value <= f(y).value
  }

  ghost predicate Comparable<E>(f: int -> Result<int, E>, first: int, last: int, target: int, t: Tolerance) {
    && NonNegativeTolerance(t)
    && (Wide(t) ==> forall x {:trigger f(x)} | first <= x <= last && f(x).Ok? :: SameSide(target, f(x).value))
  }

  lemma MidpointBetween(lo: int, hi: int)
    requires lo < hi
    ensures First(lo) <= Quo(lo + hi, 2) <= Last(hi)
  {
  }

  /** Whatever is returned lies between the first and the last input tried and is within tolerance. */
  lemma {:induction false} SearchSound<E>(f: int -> Result<int, E>, lo: int, hi: int, target: int, t: Tolerance, k: nat)
    requires lo < hi
    ensures var r := Search(f, lo, hi, target, t, k); r.Ok? ==> First(lo) <= r.value <= Last(hi) && Hit(f, target, t, r.value)
    decreases k
  {
    if k > 0 {
      var mid := Quo(lo + hi, 2);
      MidpointBetween(lo, hi);
      if f(mid).Ok? {
        if lo < mid {
          SearchSound(f, lo, mid, target, t, k - 1);
        } else {
          SearchEmpty(f, lo, target, t, k - 1);
        }
        if mid < hi {
          SearchSound(f, mid, hi, target, t, k - 1);
        } else {
          SearchEmpty(f, hi, target, t, k - 1);
        }
      }
    }
  }

  /** On an empty range the one input is tried again and again. */
  lemma {:induction false} SearchEmpty<E>(f: int -> Result<int, E>, lo: int, target: int, t: Tolerance, k: nat)
    ensures var r := Search(f, lo, lo, target, t, k); r.Ok? ==> r.value == lo && Hit(f, target, t, lo)
    decreases k
  {
    if k > 0 {
      assert Quo(lo + lo, 2) == lo;
      SearchEmpty(f, lo, target, t, k - 1);
    }
  }

  /** A hit lies on the side the comparison at `mid` points to. */
  lemma HitsOnSide<E>(f: int -> Result<int, E>, first: int, last: int, mid: int, target: int, t: Tolerance, x: int)
    requires first <= x <= last && first <= mid <= last && Hit(f, target, t, x)
    requires NonDecreasing(f, first, last) && Comparable(f, first, last, target, t)
    ensures f(mid).Ok?
    ensures Compare(t, target, f(mid).value) < 0 ==> x < mid
    ensures Compare(t, target, f(mid).value) > 0 ==> x > mid
  {
    assert f(mid).Ok? && f(x).Ok?;
    if mid <= x {
      assert f(mid).value <= f(x).value;
      if Compare(t, target, f(mid).value) < 0 {
        TooLarge(t, target, f(mid).value, f(x).value);
      }
    }
    if x <= mid {
      assert f(x).value <= f(mid).value;
      if Compare(t, target, f(mid).value) > 0 {
        TooSmall(t, target, f(x).value, f(mid).value);
      }
    }
  }

  /** Each half has room for half the iterations. */
  lemma HalvesNarrow(lo: int, hi: int, k: nat)
    requires lo < hi && k >= 1 && hi - lo <= Pow2(k - 1) && First(lo) < Last(hi)
    ensures k >= 2 && Quo(lo + hi, 2) - lo <= Pow2(k - 2) && hi - Quo(lo + hi, 2) <= Pow2(k - 2)
  {
  }

  lemma {:induction false} SearchFinds<E>(f: int -> Result<int, E>, lo: int, hi: int, target: int, t: Tolerance, k: nat, x: int)
    requires lo < hi && First(lo) <= x <= Last(hi) && Hit(f, target, t, x)
    requires NonDecreasing(f, First(lo), Last(hi)) && Comparable(f, First(lo), Last(hi), target, t)
    requires k >= 1 && hi - lo <= Pow2(k - 1)
    ensures Search(f, lo, hi, target, t, k).Ok?
    decreases k
  {
    var mid := Quo(lo + hi, 2);
    MidpointBetween(lo, hi);
    HitsOnSide(f, First(lo), Last(hi), mid, target, t, x);
    var c := Compare(t, target, f(mid).value);
    if c != 0 {
      HalvesNarrow(lo, hi, k);
      if c < 0 {
        SearchFinds(f, lo, mid, target, t, k - 1, x);
      } else {
        SearchFinds(f, mid, hi, target, t, k - 1, x);
      }
    }
  }

  /** Completeness: with enough iterations to narrow the range to one input, the search
      succeeds if and only if some input from the first to the last it can try is within
      tolerance. */
  lemma SearchComplete<E>(f: int -> Result<int, E>, lo: int, hi: int, target: int, t: Tolerance, k: nat)
    requires lo < hi && NonDecreasing(f, First(lo), Last(hi)) && Comparable(f, First(lo), Last(hi), target, t)
    requires k >= 1 && Pow2(k - 1) >= hi - lo
    ensures Search(f, lo, hi, target, t, k).Ok? <==> exists x | First(lo) <= x <= Last(hi) :: Hit(f, target, t, x)
  {
    SearchSound(f, lo, hi, target, t, k);
    if x :| First(lo) <= x <= Last(hi) && Hit(f, target, t, x) {
      SearchFinds(f, lo, hi, target, t, k, x);
    }
  }

  function Identity(x: int): Result<int, ()> { Ok(x) }

  /** A bound that is not tried is missed for ever: with a negative lower or a positive upper
      bound, the search of the identity for exactly that bound fails however many
      iterations it has. */
  lemma BoundsMissed(lo: int, hi: int, k: nat)
    requires lo < hi
    ensures var exact := Tolerance(Some(0), None, Unconstrained);
            && Hit(Identity, lo, exact, lo) && Hit(Identity, hi, exact, hi)
            && (lo < 0 ==> Search(Identity, lo, hi, lo, exact, k).Err?)
            && (hi > 0 ==> Search(Identity, lo, hi, hi, exact, k).Err?)
  {
    var exact := Tolerance(Some(0), None, Unconstrained);
    SearchSound(Identity, lo, hi, lo, exact, k);
    SearchSound(Identity, lo, hi, hi, exact, k);
  }
}
