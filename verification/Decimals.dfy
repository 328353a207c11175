/** Big decimals with 36 digits, as the integers that hold them. */
module Decimals {
  import opened FixedPoint
  import opened Folding
  import opened Options

  /** A decimal object: a big integer that the mutating operations overwrite. */
  class Decimal {
    var raw: int
    constructor (raw: int)
      ensures this.raw == raw
    {
      this.raw := raw;
    }
  }

  /** 2^1144: integers of more than 1144 bits make an operation panic. */
  const DECIMAL_LIMIT: int := 0x10000000000000000000000000000000000000000000000000000000000000000000000000000000000000000000000000000000000000000000000000000000000000000000000000000000000000000000000000000000000000000000000000000000000000000000000000000000000000000000000000000000000000000000000000000000000000000000000

  datatype Overflow = Overflow

  function Abs(x: int): int { if x < 0 then -x else x }

  predicate Fits(x: int) { Abs(x) < DECIMAL_LIMIT }

  /** `MulMut`: the product rounded half to even, or a panic. */
  function Mul(a: int, b: int): Result<int, Overflow> {
    var r := RoundHalfEven(a * b, ONE36);
    if Fits(r) then Ok(r) else Err(Overflow)
  }

  ghost function MulPair(y: (int, int)): Result<int, Overflow> { Mul(y.0, y.1) }

  /** `Mul`, kept folded. */
  ghost function Product(a: int, b: int): Result<int, Overflow> { FoldedFn(MulPair)((a, b)) }

  lemma UnfoldProduct(a: int, b: int)
    ensures Product(a, b) == Mul(a, b)
  {
    UnfoldFn(MulPair, (a, b));
  }

  /** Multiplication of non-negative decimals never reorders. */
  lemma MulMonotone(a: int, b: int, c: int, d: int)
    requires 0 <= a <= c && 0 <= b <= d && Product(c, d).Ok?
    ensures Product(a, b).Ok? && 0 <= Product(a, b).value <= Product(c, d).value
  {
    UnfoldProduct(a, b);
    UnfoldProduct(c, d);
    MulMono(a, b, d);
    MulMono(d, a, c);
    MulMono(a, 0, b);
    RoundMono(a * b, c * d, ONE36);
    RoundRange(a * b, ONE36);
  }

  /** On whole numbers multiplication is exact. */
  lemma MulWhole(j: int, k: int, jk: int)
    requires jk == j * k
    ensures Product(j * ONE36, k * ONE36) == if Fits(jk * ONE36) then Ok(jk * ONE36) else Err(Overflow)
  {
    UnfoldProduct(j * ONE36, k * ONE36);
    assert (j * ONE36) * (k * ONE36) == ONE36 * (jk * ONE36);
    RoundExact(jk * ONE36, ONE36);
  }
}
