/** What each operation keeps: the pool's invariant, and the value behind what it owes. */
module IncentiveSteps {
  import opened FixedPoint
  import opened Coins
  import opened Folding
  import opened Emission
  import opened UptimeAccumulator
  import opened UptimeActs
  import opened IncentivePool

  // ------------------------------------------------------------------------------- records

  lemma {:induction false} KeptRemaining(rs: seq<Incentive>, n: nat, d: string)
    requires AllOK(rs) && n <= |rs|
    ensures AllOK(KeptOf(rs, n)) && Remaining(KeptOf(rs, n), d) == RemainingOf(rs, n, d)
  {
    if n > 0 {
      KeptRemaining(rs, n - 1, d);
      if rs[n - 1].remaining > 0 {
        SnocRemaining(KeptOf(rs, n - 1), rs[n - 1], d);
      }
    }
  }

  lemma SnocRemaining(rs: seq<Incentive>, r: Incentive, d: string)
    ensures Remaining(rs + [r], d) == Remaining(rs, d) + (if r.denom == d then r.remaining else 0)
  {
    SamePrefixRemaining(rs, rs + [r], |rs|, d);
  }

  lemma {:induction false} SamePrefixRemaining(a: seq<Incentive>, b: seq<Incentive>, n: nat, d: string)
    requires n <= |a| <= |b| && forall i | 0 <= i < n :: a[i] == b[i]
    ensures RemainingOf(a, n, d) == RemainingOf(b, n, d)
  {
    if n > 0 {
      SamePrefixRemaining(a, b, n - 1, d);
    }
  }

  lemma {:induction false} AddedAmounts(xs: seq<int>, rs: seq<Incentive>, c: Context, d: string, k: nat)
    requires k <= |xs| && forall u {:trigger xs[u]} | 0 <= u < |xs| :: xs[u] == AddedTo(DebitedBefore(rs, c, u), c, u, d)
    ensures SumTo(xs, k) == AddedBefore(rs, c, k, d)
  {
    if k > 0 {
      AddedAmounts(xs, rs, c, d, k - 1);
    }
  }

  lemma AllAddedAmount(rs: seq<Incentive>, c: Context, n: nat, d: string)
    ensures TotalOf(AllAdded(rs, c, n), d) == AddedBefore(rs, c, n, d)
  {
    var xs := Amounts(AllAdded(rs, c, n), d);
    forall u | 0 <= u < n ensures xs[u] == AddedTo(DebitedBefore(rs, c, u), c, u, d) {
      assert xs[u] == Amt(AllAdded(rs, c, n)[u], d);
    }
    UnfoldTotal(AllAdded(rs, c, n), d);
    AddedAmounts(xs, rs, c, d, n);
  }

  lemma AllAddedNonNegative(rs: seq<Incentive>, c: Context, n: nat)
    requires ContextOK(c) && AllOK(rs)
    ensures NoneNegative(AllAdded(rs, c, n))
  {
    forall u | 0 <= u < n
      ensures !AnyNegative(AllAdded(rs, c, n)[u])
    {
      RecordsStayOK(rs, c, u);
      forall d ensures Amt(AllAdded(rs, c, n)[u], d) >= 0 {
        AddedCovered(DebitedBefore(rs, c, u), c, u, d);
        AddedToAmount(DebitedBefore(rs, c, u), c, u, d);
      }
      NonNegative(AllAdded(rs, c, n)[u]);
    }
  }

  // -------------------------------------------------------------------------------- accrual

  lemma {:induction false} SumScaled(xs: seq<int>, ys: seq<int>, l: int, k: nat)
    requires k <= |xs| == |ys| && forall u {:trigger ys[u]} | 0 <= u < |xs| :: ys[u] == xs[u] * l
    ensures SumTo(ys, k) == SumTo(xs, k) * l
  {
    if k > 0 {
      SumScaled(xs, ys, l, k - 1);
      assert (SumTo(xs, k - 1) + xs[k - 1]) * l == SumTo(xs, k - 1) * l + xs[k - 1] * l;
    }
  }

  ghost function Scaled(xs: seq<int>, l: int): (out: seq<int>)
    ensures |out| == |xs| && forall u {:trigger out[u]} | 0 <= u < |xs| :: out[u] == xs[u] * l
  {
    seq(|xs|, u requires 0 <= u < |xs| => xs[u] * l)
  }

  /** Raising every accumulator makes the pool owe what is added, times the liquidity in range. */
  lemma RaiseAll(xs: seq<Uptime>, s: Scene, cs: seq<DecCoins>, d: string)
    requires |xs| == |cs| && AllGood(xs, s) && NoneNegative(cs)
    ensures AllGood(After(xs, s.tick, Raises(cs)), s)
    ensures TotalOwed(After(xs, s.tick, Raises(cs)), s, d) - TotalOwed(xs, s, d) == TotalOf(cs, d) * ActiveLiquidity(s.positions, s.tick)
  {
    var l := ActiveLiquidity(s.positions, s.tick);
    var gains := Scaled(Amounts(cs, d), 2 * l);
    forall u | 0 <= u < |xs| ensures Keeps(xs[u], s, Raises(cs)[u], s, d, gains[u], gains[u]) {
      assert !AnyNegative(cs[u]);
      RaiseKeeps(xs[u], s, cs[u], d);
      assert Amounts(cs, d)[u] == Amt(cs[u], d);
      Doubled(Amt(cs[u], d), l);
    }
    EachKeeps(xs, s, Raises(cs), s, d, gains, gains);
    UnpaidTotal(xs, s.tick, Raises(cs), d);
    UnfoldTotal(cs, d);
    SumScaled(Amounts(cs, d), gains, 2 * l, |xs|);
    Doubled(TotalOf(cs, d), l);
  }

  lemma Doubled(x: int, l: int)
    ensures x * (2 * l) == 2 * (x * l)
  {
  }

  ghost predicate BalancedTuple(y: (int, int, int, int)) {
    var (given, taken, lost, settled) := y;
    && 2 * taken <= 2 * given + ONE18 * settled
    && 2 * given <= 2 * (taken + lost) + ONE18 * settled
  }

  /** `taken` is `given`, but for what is `lost` and for half a unit of 10^-18 per settlement;
      kept folded. */
  ghost predicate Balanced(given: int, taken: int, lost: int, settled: int) {
    Folded(BalancedTuple)((given, taken, lost, settled))
  }

  lemma UnfoldBalanced(given: int, taken: int, lost: int, settled: int)
    ensures Balanced(given, taken, lost, settled) <==> BalancedTuple((given, taken, lost, settled))
  {
    Unfold(BalancedTuple, (given, taken, lost, settled));
  }

  /** The value behind a step: what is owed after it and the coins paid are what was owed
      before, what the records lost and what was deposited, but for what was `lost` and for half
      a unit of 10^-18 scaled coins per settlement. */
  ghost predicate Bill(p: Pool, q: Pool, d: string, deposit: int, paid: int, settled: int, lost: int) {
    && q.factor == p.factor
    && var given := OwedAll(p, d) + ONE18 * ((Remaining(p.incentives, d) - Remaining(q.incentives, d) + ONE18 * deposit) * p.factor);
       var taken := OwedAll(q, d) + ONE18 * (ONE18 * (p.factor * paid));
       Balanced(given, taken, lost, settled)
  }

  /** `Bill`, in numbers. */
  lemma BillIf(p: Pool, q: Pool, d: string, deposit: int, paid: int, settled: int, lost: int, debit: int)
    requires q.factor == p.factor && debit == Remaining(p.incentives, d) - Remaining(q.incentives, d)
    requires Balanced(OwedAll(p, d) + ONE18 * (debit * p.factor) + ONE18 * (ONE18 * (deposit * p.factor)),
                      OwedAll(q, d) + ONE18 * (ONE18 * (p.factor * paid)), lost, settled)
    ensures Bill(p, q, d, deposit, paid, settled, lost)
  {
    assert (debit + ONE18 * deposit) * p.factor == debit * p.factor + ONE18 * (deposit * p.factor);
  }

  lemma QuietBill(p: Pool, q: Pool, d: string)
    requires q.factor == p.factor && OwedAll(q, d) == OwedAll(p, d)
    requires Remaining(p.incentives, d) == Remaining(q.incentives, d)
    ensures Bill(p, q, d, 0, 0, 0, 0)
  {
    assert p.factor * 0 == 0 * p.factor == 0;
    UnfoldBalanced(OwedAll(p, d), OwedAll(q, d), 0, 0);
    BillIf(p, q, d, 0, 0, 0, 0, 0);
  }

  /** What an update may fall short of what it debits: one liquidity per emitting record. */
  ghost function ShortfallPair(y: (Pool, int)): int {
    var (p, now) := y;
    if p.lastUpdate < now && p.liquidity >= ONE18
    then p.liquidity * EmittingBefore(p.incentives, SyncContext(p, now), |p.uptimes|) else 0
  }

  /** `ShortfallPair`, kept folded. */
  ghost function Shortfall(p: Pool, now: int): int { FoldedFn(ShortfallPair)((p, now)) }

  lemma UnfoldShortfall(p: Pool, now: int)
    ensures Shortfall(p, now) == ShortfallPair((p, now))
  {
    UnfoldFn(ShortfallPair, (p, now));
  }

  /** Syncing to now keeps the invariant; the records pay for what it adds, and lose no more
      than the shortfall beside it. */
  lemma SyncKeeps(p: Pool, now: int, d: string)
    requires PoolInv(p) && now >= p.lastUpdate
    ensures Synced(p, now).Ok?
    ensures PoolInv(Synced(p, now).value) && Bill(p, Synced(p, now).value, d, 0, 0, 0, Shortfall(p, now))
  {
    UnfoldSynced(p, now);
    UnfoldPool(p);
    UnfoldShortfall(p, now);
    if now == p.lastUpdate {
      QuietBill(p, p, d);
    } else if p.liquidity < ONE18 {
      KeptRemaining(p.incentives, |p.incentives|, d);
      QuietBill(p, Synced(p, now).value, d);
      UnfoldPool(Synced(p, now).value);
    } else {
      SyncAccruesInv(p, now);
      SyncAccruesBill(p, now, d);
    }
  }

  ghost function SyncContext(p: Pool, now: int): Context {
    Context(now, Seconds(now - p.lastUpdate), p.liquidity, p.factor)
  }

  lemma SyncAccruesInv(p: Pool, now: int)
    requires PoolInv(p) && now > p.lastUpdate && p.liquidity >= ONE18 && Synced(p, now).Ok?
    ensures PoolInv(Synced(p, now).value)
  {
    var c, n, q := SyncContext(p, now), |p.uptimes|, Synced(p, now).value;
    UnfoldPool(p);
    UnfoldPool(q);
    assert AllOK(q.incentives) by {
      UnfoldSynced(p, now);
      RecordsStayOK(p.incentives, c, n);
      KeptRemaining(DebitedBefore(p.incentives, c, n), |p.incentives|, "");
    }
    SyncAccruesGood(p, now);
  }

  lemma SyncAccruesGood(p: Pool, now: int)
    requires PoolInv(p) && now > p.lastUpdate && p.liquidity >= ONE18 && Synced(p, now).Ok?
    ensures AllGood(Synced(p, now).value.uptimes, SceneOf(p))
  {
    UnfoldSynced(p, now);
    AddedKeeps(p, SyncContext(p, now), |p.uptimes|, "");
  }

  lemma SyncAccruesOwed(p: Pool, now: int, d: string)
    requires PoolInv(p) && now > p.lastUpdate && p.liquidity >= ONE18 && Synced(p, now).Ok?
    ensures OwedAll(Synced(p, now).value, d) == OwedAll(p, d) + AddedBefore(p.incentives, SyncContext(p, now), |p.uptimes|, d) * p.liquidity
  {
    UnfoldSynced(p, now);
    AddedKeeps(p, SyncContext(p, now), |p.uptimes|, d);
  }

  lemma AddedKeeps(p: Pool, c: Context, n: nat, d: string)
    requires PoolInv(p) && ContextOK(c) && n == |p.uptimes|
    ensures var xs := After(p.uptimes, p.tick, Raises(AllAdded(p.incentives, c, n)));
            && AllGood(xs, SceneOf(p))
            && TotalOwed(xs, SceneOf(p), d) == OwedAll(p, d) + AddedBefore(p.incentives, c, n, d) * p.liquidity
  {
    UnfoldPool(p);
    AllAddedNonNegative(p.incentives, c, n);
    RaiseAll(p.uptimes, SceneOf(p), AllAdded(p.incentives, c, n), d);
    AllAddedAmount(p.incentives, c, n, d);
  }

  lemma SyncAccruesRemaining(p: Pool, now: int, d: string)
    requires PoolInv(p) && now > p.lastUpdate && p.liquidity >= ONE18 && Synced(p, now).Ok?
    ensures Remaining(Synced(p, now).value.incentives, d)
         == Remaining(DebitedBefore(p.incentives, SyncContext(p, now), |p.uptimes|), d)
  {
    UnfoldSynced(p, now);
    UnfoldPool(p);
    var c, n := SyncContext(p, now), |p.uptimes|;
    RecordsStayOK(p.incentives, c, n);
    KeptRemaining(DebitedBefore(p.incentives, c, n), |p.incentives|, d);
  }

  lemma SyncAccruesBill(p: Pool, now: int, d: string)
    requires PoolInv(p) && now > p.lastUpdate && p.liquidity >= ONE18 && Synced(p, now).Ok?
    ensures Bill(p, Synced(p, now).value, d, 0, 0, 0, p.liquidity * EmittingBefore(p.incentives, SyncContext(p, now), |p.uptimes|))
  {
    var c, n, q := SyncContext(p, now), |p.uptimes|, Synced(p, now).value;
    UnfoldPool(p);
    SyncAccruesOwed(p, now, d);
    SyncAccruesRemaining(p, now, d);
    AddedOwed(p.incentives, c, n, d);
    var debit, short := Remaining(p.incentives, d) - Remaining(q.incentives, d), c.liquidity * EmittingBefore(p.incentives, c, n);
    assert p.factor * 0 == 0 * p.factor == 0;
    UnfoldBalanced(OwedAll(p, d) + ONE18 * (debit * p.factor), OwedAll(q, d), short, 0);
    BillIf(p, q, d, 0, 0, 0, short, debit);
  }

  /** What one update adds, times the liquidity, is what the records lose, short by at most one
      liquidity per emitting record. */
  lemma AddedOwed(rs: seq<Incentive>, c: Context, n: nat, d: string)
    requires ContextOK(c) && AllOK(rs)
    ensures var added := AddedBefore(rs, c, n, d) * c.liquidity;
            added <= ONE18 * ((Remaining(rs, d) - Remaining(DebitedBefore(rs, c, n), d)) * c.factor)
                  <= added + c.liquidity * EmittingBefore(rs, c, n)
  {
    UpdateCovered(rs, c, n, d);
    CoversOwed(AddedBefore(rs, c, n, d), Remaining(rs, d) - Remaining(DebitedBefore(rs, c, n), d), c, EmittingBefore(rs, c, n));
  }

  lemma CoversOwed(added: int, debit: int, c: Context, slack: nat)
    requires Covers(added, debit, c, slack)
    ensures added * c.liquidity <= ONE18 * (debit * c.factor) <= added * c.liquidity + c.liquidity * slack
  {
    UnfoldCovers(added, debit, c, slack);
  }
}
