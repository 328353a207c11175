/** What all positions of one uptime accumulator are owed in one denomination, as
    plain numbers: the growth below each tick, and each position's stake. */
module Stakes {
  import opened FixedPoint
  import opened MapSums

  datatype Stake = Stake(lower: int, upper: int, shares: int, snapshot: int, unclaimed: int)
  type Below = map<int, int>

  function Growth(below: Below, s: Stake): int {
    Get(below, s.upper) - Get(below, s.lower)
  }

  /** Unclaimed rewards and pending growth, in units of 10^-36. */
  function Claimable(below: Below, s: Stake): int {
    ONE18 * s.unclaimed + (Growth(below, s) - s.snapshot) * s.shares
  }

  ghost function Claims(below: Below, stakes: map<string, Stake>): map<string, int> {
    map n | n in stakes :: Claimable(below, stakes[n])
  }

  ghost function Owed(below: Below, stakes: map<string, Stake>): int {
    Sum(Claims(below, stakes))
  }

  predicate InRange(s: Stake, tick: int) { s.lower <= tick < s.upper }

  ghost function ActiveShares(stakes: map<string, Stake>, tick: int): map<string, int> {
    map n | n in stakes :: if InRange(stakes[n], tick) then stakes[n].shares else 0
  }

  /** The shares in range at `tick`. */
  ghost function Active(stakes: map<string, Stake>, tick: int): int {
    Sum(ActiveShares(stakes, tick))
  }

  // ---------------------------------------------------------------------- linear sums

  lemma {:induction false} SumLinear(h: map<string, int>, w: map<string, int>, a: int, h': map<string, int>)
    requires h.Keys == w.Keys == h'.Keys
    requires forall n | n in h :: h'[n] == h[n] + a * w[n]
    ensures Sum(h') == Sum(h) + a * Sum(w)
    decreases h.Keys
  {
    if h != map[] {
      var n :| n in h;
      SumLinear(h - {n}, w - {n}, a, h' - {n});
      SumPick(h, n);
      SumPick(w, n);
      SumPick(h', n);
      assert a * (w[n] + Sum(w - {n})) == a * w[n] + a * Sum(w - {n});
    } else {
      assert w == map[] && h' == map[];
    }
  }

  lemma {:induction false} SumNonNegative(h: map<string, int>)
    requires forall n | n in h :: h[n] >= 0
    ensures Sum(h) >= 0
    decreases h.Keys
  {
    if h != map[] {
      var n :| n in h;
      SumPick(h, n);
      SumNonNegative(h - {n});
    }
  }

  // --------------------------------------------------------------- accrual and settlement

  /** The growth below every tick once `a` per share accrues at `tick`. */
  function Raised(below: Below, tick: int, a: int): Below {
    map t | t in below :: below[t] + (if tick < t then a else 0)
  }

  ghost predicate Placed(below: Below, stakes: map<string, Stake>) {
    forall n | n in stakes :: stakes[n].lower < stakes[n].upper && stakes[n].lower in below && stakes[n].upper in below
  }

  lemma RaisedClaim(below: Below, s: Stake, tick: int, a: int)
    requires s.lower < s.upper && s.lower in below && s.upper in below
    ensures Claimable(Raised(below, tick, a), s) == Claimable(below, s) + a * (if InRange(s, tick) then s.shares else 0)
  {
    var g, g' := Growth(below, s), Growth(Raised(below, tick, a), s);
    var x := if InRange(s, tick) then a else 0;
    assert g' == g + x;
    assert (g + x - s.snapshot) * s.shares == (g - s.snapshot) * s.shares + x * s.shares;
  }

  /** An accrual of `a` per share is owed exactly once for every share in range. */
  lemma RaisedOwed(below: Below, stakes: map<string, Stake>, tick: int, a: int)
    requires Placed(below, stakes)
    ensures Owed(Raised(below, tick, a), stakes) == Owed(below, stakes) + a * Active(stakes, tick)
  {
    forall n | n in stakes
      ensures Claims(Raised(below, tick, a), stakes)[n] == Claims(below, stakes)[n] + a * ActiveShares(stakes, tick)[n]
    {
      RaisedClaim(below, stakes[n], tick, a);
    }
    SumLinear(Claims(below, stakes), ActiveShares(stakes, tick), a, Claims(Raised(below, tick, a), stakes));
  }

  lemma PutOwed(below: Below, stakes: map<string, Stake>, n: string, s: Stake)
    ensures Owed(below, stakes[n := s])
         == Owed(below, stakes) + Claimable(below, s) - (if n in stakes then Claimable(below, stakes[n]) else 0)
  {
    assert Claims(below, stakes[n := s]) == Claims(below, stakes)[n := Claimable(below, s)];
    SumUpdate(Claims(below, stakes), n, Claimable(below, s));
  }

  lemma DropOwed(below: Below, stakes: map<string, Stake>, n: string)
    requires n in stakes
    ensures Owed(below, stakes - {n}) == Owed(below, stakes) - Claimable(below, stakes[n])
  {
    assert Claims(below, stakes - {n}) == Claims(below, stakes) - {n};
    SumPick(Claims(below, stakes), n);
  }

  /** Nothing is owed or lost by changes to ticks no stake uses. */
  lemma SameGrowthOwed(below: Below, below': Below, stakes: map<string, Stake>)
    requires forall n | n in stakes :: Growth(below, stakes[n]) == Growth(below', stakes[n])
    ensures Owed(below, stakes) == Owed(below', stakes)
  {
    assert Claims(below, stakes) == Claims(below', stakes);
  }

  /** No stake is owed a negative amount. */
  ghost predicate Solid(below: Below, s: Stake) {
    s.unclaimed >= 0 && s.shares >= 0 && s.snapshot <= Growth(below, s)
  }

  lemma SolidPending(below: Below, s: Stake)
    requires Solid(below, s)
    ensures s.unclaimed >= 0 && (Growth(below, s) - s.snapshot) * s.shares >= 0
  {
    MulMono(s.shares, 0, Growth(below, s) - s.snapshot);
  }

  lemma SolidClaim(below: Below, s: Stake)
    requires Solid(below, s)
    ensures Claimable(below, s) >= 0
  {
    SolidPending(below, s);
  }

  lemma OwedNonNegative(below: Below, stakes: map<string, Stake>)
    requires forall n | n in stakes :: Solid(below, stakes[n])
    ensures Owed(below, stakes) >= 0
  {
    forall n | n in stakes
      ensures Claims(below, stakes)[n] >= 0
    {
      SolidClaim(below, stakes[n]);
    }
    SumNonNegative(Claims(below, stakes));
  }

  lemma FreshClaim(below: Below, s: Stake)
    requires s.snapshot == Growth(below, s)
    ensures Claimable(below, s) == ONE18 * s.unclaimed
  {
  }

  /** Settling a stake: growth up to now becomes rewards, rounded half to even. */
  function Settled(below: Below, s: Stake): int {
    s.unclaimed + RoundHalfEven((Growth(below, s) - s.snapshot) * s.shares, ONE18)
  }

  lemma ZeroParts(unclaimed: int, pending: int)
    requires unclaimed >= 0 && pending >= 0 && ONE18 * unclaimed + pending == 0
    ensures unclaimed == 0 && pending == 0 && RoundHalfEven(pending, ONE18) == 0
  {
  }

  /** Nothing owed is nothing set aside and nothing to settle. */
  lemma SolidZero(below: Below, s: Stake)
    requires Solid(below, s) && Claimable(below, s) == 0
    ensures s.unclaimed == 0 && Settled(below, s) == 0
  {
    SolidPending(below, s);
    ZeroParts(s.unclaimed, (Growth(below, s) - s.snapshot) * s.shares);
  }

  /** A settlement is within half a unit of what was owed. */
  lemma SettledNear(below: Below, s: Stake)
    ensures -ONE18 <= 2 * (ONE18 * Settled(below, s) - Claimable(below, s)) <= ONE18
  {
    var x := (Growth(below, s) - s.snapshot) * s.shares;
    RoundNear(x, ONE18);
    AddUnclaimed(s.unclaimed, RoundHalfEven(x, ONE18), x);
  }

  lemma AddUnclaimed(u: int, q: int, x: int)
    ensures ONE18 * (u + q) - (ONE18 * u + x) == ONE18 * q - x
  {
  }

  lemma SettledNonNegative(below: Below, s: Stake)
    requires Solid(below, s)
    ensures Settled(below, s) >= 0
  {
    SolidPending(below, s);
    NonNegativeParts(s.unclaimed, (Growth(below, s) - s.snapshot) * s.shares);
  }

  lemma NonNegativeParts(unclaimed: int, pending: int)
    requires unclaimed >= 0 && pending >= 0
    ensures unclaimed + RoundHalfEven(pending, ONE18) >= 0
  {
    RoundRange(pending, ONE18);
  }
}
