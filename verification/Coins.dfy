/** Decimal coins: for every denomination a raw integer, in units of 10^-18.
    A denomination that is absent has amount zero. */
module Coins {
  import opened FixedPoint

  type DecCoins = map<string, int>

  function Amt(c: DecCoins, d: string): int {
    if d in c then c[d] else 0
  }

  /** `DecCoins.Add`. */
  function Plus(a: DecCoins, b: DecCoins): (r: DecCoins)
    ensures forall d {:trigger Amt(r, d)} :: Amt(r, d) == Amt(a, d) + Amt(b, d)
  {
    map d | d in a.Keys + b.Keys :: Amt(a, d) + Amt(b, d)
  }

  /** `DecCoins.SafeSub`, which allows negative results. */
  function Minus(a: DecCoins, b: DecCoins): (r: DecCoins)
    ensures forall d {:trigger Amt(r, d)} :: Amt(r, d) == Amt(a, d) - Amt(b, d)
  {
    map d | d in a.Keys + b.Keys :: Amt(a, d) - Amt(b, d)
  }

  predicate AnyNegative(c: DecCoins) {
    exists d | d in c :: c[d] < 0
  }

  lemma NonNegative(c: DecCoins)
    ensures !AnyNegative(c) <==> forall d :: Amt(c, d) >= 0
  {
    if !(forall d :: Amt(c, d) >= 0) {
      var d :| Amt(c, d) < 0;
      assert d in c && c[d] < 0;
    }
    if d :| d in c && c[d] < 0 {
      assert Amt(c, d) < 0;
    }
  }

  /** `DecCoins.MulDec`: every amount times a decimal, rounded half to even. */
  function Scale(c: DecCoins, x: int): (r: DecCoins)
    ensures forall d {:trigger Amt(r, d)} :: Amt(r, d) == RoundHalfEven(Amt(c, d) * x, ONE18)
  {
    assert 0 * x == 0 && RoundHalfEven(0, ONE18) == 0;
    map d | d in c :: RoundHalfEven(c[d] * x, ONE18)
  }

  /** The whole coins in an amount of decimal coins, as `TruncateDecimal` returns them. */
  function Whole(c: DecCoins): (r: DecCoins)
    ensures forall d {:trigger Amt(r, d)} :: Amt(r, d) == Quo(Amt(c, d), ONE18)
  {
    map d | d in c :: Quo(c[d], ONE18)
  }

  /** Whole coins as decimal coins. */
  function FromWhole(c: DecCoins): (r: DecCoins)
    ensures forall d {:trigger Amt(r, d)} :: Amt(r, d) == Amt(c, d) * ONE18
  {
    map d | d in c :: c[d] * ONE18
  }

  /** The change `TruncateDecimal` returns beside the whole coins. */
  function Change(c: DecCoins): (r: DecCoins)
    ensures forall d {:trigger Amt(r, d)} :: Amt(r, d) == Amt(c, d) - Amt(Whole(c), d) * ONE18
  {
    Minus(c, FromWhole(Whole(c)))
  }
}
