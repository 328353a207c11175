/** Every operation of the pool keeps its invariant and pays its bill. */
module IncentiveOps {
  import opened FixedPoint
  import opened Coins
  import opened MapSums
  import opened Options
  import opened Emission
  import opened UptimeAccumulator
  import opened UptimeActs
  import opened TickLiquidity
  import opened IncentivePool
  import opened IncentiveSteps

  // -------------------------------------------------------------------------------- payouts

  /** Scaling down truncates: it is the whole part of the amount over the factor. */
  lemma DescaledIs(amount: int, factor: int)
    requires amount >= 0 && factor > 0
    ensures DescaledAmount(amount, factor) == amount / factor
  {
    var q := amount / factor;
    DivMod(amount, factor);
    var x, p := amount * ONE18 * ONE18, factor * ONE18;
    assert p * (ONE18 * q) <= x < p * (ONE18 * (q + 1)) by {
      assert p * (ONE18 * q) == ONE18 * ONE18 * (factor * q);
      assert p * (ONE18 * (q + 1)) == ONE18 * ONE18 * (factor * (q + 1));
      assert factor * (q + 1) == factor * q + factor;
    }
    DivBounds(x, p, ONE18 * q);
    DivBounds(x, p, ONE18 * (q + 1));
    DivBounds(x / p, ONE18, q);
    DivBounds(x / p, ONE18, q + 1);
    DivBounds(x / p, ONE18, 0);
  }

  lemma DescaledBelow(amount: int, factor: int)
    requires amount >= 0 && factor > 0
    ensures 0 <= factor * DescaledAmount(amount, factor) <= amount <= factor * DescaledAmount(amount, factor) + factor - 1
  {
    DescaledIs(amount, factor);
    DivMod(amount, factor);
    DivBounds(amount, factor, 0);
  }

  ghost function DescaledAmounts(xs: seq<int>, factor: int): (out: seq<int>)
    requires factor > 0
    ensures |out| == |xs| && forall u {:trigger out[u]} | 0 <= u < |xs| :: out[u] == DescaledAmount(xs[u], factor)
  {
    seq(|xs|, u requires 0 <= u < |xs| => DescaledAmount(xs[u], factor))
  }

  lemma {:induction false} PayoutAmount(cs: seq<DecCoins>, factor: int, age: int, forfeit: bool, k: nat, d: string)
    requires |cs| == UPTIME_COUNT && factor > 0 && k <= |cs|
    ensures Amt(PayoutBefore(cs, factor, age, forfeit, k), d) == SumTo(DescaledAmounts(Amounts(Chosen(cs, age, forfeit), d), factor), k)
  {
    if k > 0 {
      PayoutAmount(cs, factor, age, forfeit, k - 1, d);
      assert DescaledAmounts(Amounts(Chosen(cs, age, forfeit), d), factor)[k - 1] == DescaledAmount(Amt(Chosen(cs, age, forfeit)[k - 1], d), factor);
      DescaledIs(0, factor);
      assert 0 / factor == 0;
    }
  }

  lemma {:induction false} SumDescaled(xs: seq<int>, ys: seq<int>, factor: int, k: nat)
    requires k <= |xs| == |ys|
    requires forall u {:trigger ys[u]} | 0 <= u < |xs| :: 0 <= factor * ys[u] <= xs[u] <= factor * ys[u] + factor - 1
    ensures 0 <= factor * SumTo(ys, k) <= SumTo(xs, k) <= factor * SumTo(ys, k) + k * (factor - 1)
  {
    if k == 0 {
      assert factor * 0 == 0;
    } else {
      SumDescaled(xs, ys, factor, k - 1);
      assert factor * (SumTo(ys, k - 1) + ys[k - 1]) == factor * SumTo(ys, k - 1) + factor * ys[k - 1];
      assert k * (factor - 1) == (k - 1) * (factor - 1) + factor - 1;
    }
  }

  /** What is paid, times the factor, is the scaled coins it stands for, but for less than a
      coin per accumulator. */
  lemma PayoutBelow(cs: seq<DecCoins>, factor: int, age: int, forfeit: bool, d: string)
    requires |cs| == UPTIME_COUNT && NoneNegative(cs) && factor > 0
    ensures var paid := factor * Amt(Payout(cs, factor, age, forfeit), d);
            && 0 <= paid <= TotalOf(Chosen(cs, age, forfeit), d) <= paid + UPTIME_COUNT * (factor - 1)
            && Amt(Payout(cs, factor, age, forfeit), d) >= 0
  {
    PayoutAmount(cs, factor, age, forfeit, |cs|, d);
    var xs := Amounts(Chosen(cs, age, forfeit), d);
    var ys := DescaledAmounts(xs, factor);
    forall u | 0 <= u < |xs| ensures 0 <= factor * ys[u] <= xs[u] <= factor * ys[u] + factor - 1 {
      assert !AnyNegative(cs[u]);
      NonNegative(cs[u]);
      DescaledBelow(xs[u], factor);
    }
    UnfoldTotal(Chosen(cs, age, forfeit), d);
    SumDescaled(xs, ys, factor, |xs|);
    if Amt(Payout(cs, factor, age, forfeit), d) < 0 {
      MulMono(factor, Amt(Payout(cs, factor, age, forfeit), d), -1);
    }
  }

  /** Every accumulator's coins are forfeited or paid, never both. */
  lemma ChosenTotals(cs: seq<DecCoins>, age: int, d: string)
    requires |cs| == UPTIME_COUNT
    ensures TotalOf(Chosen(cs, age, true), d) + TotalOf(Chosen(cs, age, false), d) == TotalOf(cs, d)
  {
    UnfoldTotal(Chosen(cs, age, true), d);
    UnfoldTotal(Chosen(cs, age, false), d);
    UnfoldTotal(cs, d);
    ChosenSplit(cs, age, |cs|, d);
  }

  lemma {:induction false} ChosenSplit(cs: seq<DecCoins>, age: int, k: nat, d: string)
    requires |cs| == UPTIME_COUNT && k <= |cs|
    ensures SumTo(Amounts(Chosen(cs, age, true), d), k) + SumTo(Amounts(Chosen(cs, age, false), d), k) == SumTo(Amounts(cs, d), k)
  {
    if k > 0 {
      ChosenSplit(cs, age, k - 1, d);
    }
  }

  // --------------------------------------------------------------------------------- claims

  ghost predicate AllIdle(xs: seq<Uptime>, s: Scene, n: string) {
    forall u {:trigger xs[u]} | 0 <= u < |xs| :: Idle(xs[u], s, n)
  }

  lemma TakeAll(p: Pool, n: string, d: string)
    requires PoolInv(p) && n in p.positions
    ensures var acts := Copies(Take(n, p.positions[n]));
            && AllDo(p.uptimes, p.tick, acts) && AllGood(After(p.uptimes, p.tick, acts), SceneOf(p))
            && NoneNegative(Yields(p.uptimes, p.tick, acts))
            && (-ONE18 - 2 * (ONE18 * (ONE18 - 1))) * UPTIME_COUNT
               <= 2 * (ONE18 * (ONE18 * TotalOf(Yields(p.uptimes, p.tick, acts), d)) + TotalOwed(After(p.uptimes, p.tick, acts), SceneOf(p), d) - OwedAll(p, d))
               <= ONE18 * UPTIME_COUNT
  {
    UnfoldPool(p);
    forall u | 0 <= u < |p.uptimes|
      ensures Keeps(p.uptimes[u], SceneOf(p), Take(n, p.positions[n]), SceneOf(p), d, -ONE18 - 2 * (ONE18 * (ONE18 - 1)), ONE18)
    {
      TakeKeeps(p.uptimes[u], SceneOf(p), n, d);
    }
    EachKeepsSame(p.uptimes, SceneOf(p), Take(n, p.positions[n]), SceneOf(p), d, -ONE18 - 2 * (ONE18 * (ONE18 - 1)), ONE18);
  }

  lemma TakeAllIdle(p: Pool, n: string)
    requires PoolInv(p) && n in p.positions
    ensures AllIdle(After(p.uptimes, p.tick, Copies(Take(n, p.positions[n]))), SceneOf(p), n)
  {
    UnfoldPool(p);
    var ys := After(p.uptimes, p.tick, Copies(Take(n, p.positions[n])));
    forall u | 0 <= u < |ys| ensures Idle(ys[u], SceneOf(p), n) {
      TakeLeavesIdle(p.uptimes[u], SceneOf(p), n);
    }
  }

  /** One coin per accumulator, in units of 10^-36 scaled coins. */
  function Dust(factor: int): int { UPTIME_COUNT * (ONE18 * (ONE18 * factor)) }

  /** What a claim takes out of the accumulators, in numbers: `paid` coins, and scaled coins
      that are forfeited and stand for their refund; less than a coin per accumulator is
      dropped, and an update before the claim may fall `short`. */
  ghost predicate ClaimBill(p: Pool, r: Receipt, d: string, short: int) {
    && r.pool.factor == p.factor && NoneNegative(r.forfeited) && Amt(r.paid, d) >= 0 && Amt(r.refund, d) >= 0
    && 0 <= p.factor * Amt(r.refund, d) <= TotalOf(r.forfeited, d) <= p.factor * Amt(r.refund, d) + UPTIME_COUNT * (p.factor - 1)
    && var given := OwedAll(p, d) + ONE18 * ((Remaining(p.incentives, d) - Remaining(r.pool.incentives, d)) * p.factor);
       var taken := OwedAll(r.pool, d) + ONE18 * (ONE18 * (p.factor * Amt(r.paid, d) + TotalOf(r.forfeited, d)));
       Balanced(given, taken, Dust(p.factor) + short, UPTIME_COUNT)
  }

  lemma ClaimNumbers(before: int, after: int, total: int, forfeited: int, kept: int, paid: int, f: int)
    requires (-ONE18 - 2 * (ONE18 * (ONE18 - 1))) * UPTIME_COUNT <= 2 * (ONE18 * (ONE18 * total) + after - before) <= ONE18 * UPTIME_COUNT
    requires forfeited + kept == total && paid <= kept <= paid + UPTIME_COUNT * (f - 1)
    ensures Balanced(before, after + ONE18 * (ONE18 * (paid + forfeited)), Dust(f), UPTIME_COUNT)
  {
    UnfoldBalanced(before, after + ONE18 * (ONE18 * (paid + forfeited)), Dust(f), UPTIME_COUNT);
  }

  lemma ChosenNonNegative(cs: seq<DecCoins>, age: int)
    requires |cs| == UPTIME_COUNT && NoneNegative(cs)
    ensures NoneNegative(Chosen(cs, age, true))
  {
    forall u | 0 <= u < UPTIME_COUNT ensures !AnyNegative(Chosen(cs, age, true)[u]) {
      assert !AnyNegative(cs[u]);
    }
  }

  lemma TakenKeeps(q: Pool, n: string, age: int, d: string)
    requires PoolInv(q) && n in q.positions
    ensures AllDo(q.uptimes, q.tick, Copies(Take(n, q.positions[n])))
    ensures PoolInv(Taken(q, n, age).pool) && ClaimBill(q, Taken(q, n, age), d, 0)
  {
    TakeAll(q, n, d);
    TakenBill(q, n, age, d);
    UnfoldPool(q);
    UnfoldPool(Taken(q, n, age).pool);
  }

  lemma TakenBill(q: Pool, n: string, age: int, d: string)
    requires PoolInv(q) && n in q.positions
    ensures ClaimBill(q, Taken(q, n, age), d, 0)
  {
    TakeAll(q, n, d);
    var cs, r := Yields(q.uptimes, q.tick, Copies(Take(n, q.positions[n]))), Taken(q, n, age);
    PayoutBelow(cs, q.factor, age, true, d);
    PayoutBelow(cs, q.factor, age, false, d);
    ChosenTotals(cs, age, d);
    ChosenNonNegative(cs, age);
    assert 0 * q.factor == 0;
    ClaimNumbers(OwedAll(q, d), OwedAll(r.pool, d), TotalOf(cs, d), TotalOf(Chosen(cs, age, true), d),
                 TotalOf(Chosen(cs, age, false), d), q.factor * Amt(r.paid, d), q.factor);
  }

  lemma SyncBill(p: Pool, q: Pool, d: string, short: int)
    requires Bill(p, q, d, 0, 0, 0, short)
    ensures q.factor == p.factor
    ensures var given := OwedAll(p, d) + ONE18 * ((Remaining(p.incentives, d) - Remaining(q.incentives, d)) * p.factor);
            OwedAll(q, d) <= given <= OwedAll(q, d) + short
  {
    assert p.factor * 0 == 0;
    UnfoldBalanced(OwedAll(p, d) + ONE18 * ((Remaining(p.incentives, d) - Remaining(q.incentives, d)) * p.factor), OwedAll(q, d), short, 0);
  }

  lemma SyncNumbers(given: int, owed: int, taken: int, short: int, lost: int)
    requires owed <= given <= owed + short && Balanced(owed, taken, lost, UPTIME_COUNT)
    ensures Balanced(given, taken, lost + short, UPTIME_COUNT)
  {
    UnfoldBalanced(owed, taken, lost, UPTIME_COUNT);
    UnfoldBalanced(given, taken, lost + short, UPTIME_COUNT);
  }

  lemma AfterSync(p: Pool, q: Pool, r: Receipt, d: string, short: int)
    requires Bill(p, q, d, 0, 0, 0, short) && ClaimBill(q, r, d, 0) && r.pool.incentives == q.incentives
    ensures ClaimBill(p, r, d, short)
  {
    SyncBill(p, q, d, short);
    assert 0 * p.factor == 0;
    SyncNumbers(OwedAll(p, d) + ONE18 * ((Remaining(p.incentives, d) - Remaining(q.incentives, d)) * p.factor), OwedAll(q, d),
                OwedAll(r.pool, d) + ONE18 * (ONE18 * (p.factor * Amt(r.paid, d) + TotalOf(r.forfeited, d))), short, Dust(p.factor));
  }

  lemma CollectedIs(p: Pool, n: string, now: int)
    requires PoolInv(p) && n in p.positions && p.lastUpdate <= now && p.positions[n].joinTime <= now
    ensures Synced(p, now).Ok? && PoolInv(Synced(p, now).value) && n in Synced(p, now).value.positions
    ensures Collected(p, n, now) == Ok(Taken(Synced(p, now).value, n, now - p.positions[n].joinTime))
  {
    SyncKeeps(p, now, "");
    TakenKeeps(Synced(p, now).value, n, now - p.positions[n].joinTime, "");
  }

  /** A claim by a live position never fails. */
  lemma CollectingKeeps(p: Pool, n: string, now: int, d: string)
    requires PoolInv(p) && n in p.positions && p.lastUpdate <= now && p.positions[n].joinTime <= now
    ensures Collected(p, n, now).Ok?
    ensures PoolInv(Collected(p, n, now).value.pool) && ClaimBill(p, Collected(p, n, now).value, d, Shortfall(p, now))
  {
    CollectedIs(p, n, now);
    var q, age := Synced(p, now).value, now - p.positions[n].joinTime;
    SyncKeeps(p, now, d);
    TakenKeeps(q, n, age, d);
    AfterSync(p, q, Taken(q, n, age), d, Shortfall(p, now));
  }

  /** It leaves the position with nothing to claim. */
  lemma CollectingIdle(p: Pool, n: string, now: int)
    requires PoolInv(p) && n in p.positions && p.lastUpdate <= now && p.positions[n].joinTime <= now
    ensures Collected(p, n, now).Ok?
    ensures var r := Collected(p, n, now).value; AllIdle(r.pool.uptimes, SceneOf(r.pool), n)
  {
    CollectedIs(p, n, now);
    TakeAllIdle(Synced(p, now).value, n);
  }

  // ---------------------------------------------------------------------- liquidity changes

  lemma PutActive(ps: Positions, n: string, pos: Position, tick: int)
    ensures ActiveLiquidity(ps[n := pos], tick) == ActiveLiquidity(ps, tick)
         + (if InRange(pos, tick) then pos.liquidity else 0)
         - (if n in ps && InRange(ps[n], tick) then ps[n].liquidity else 0)
  {
    var v := if InRange(pos, tick) then pos.liquidity else 0;
    assert LiquidityInRange(ps[n := pos], tick) == LiquidityInRange(ps, tick)[n := v];
    SumUpdate(LiquidityInRange(ps, tick), n, v);
  }

  /** What a liquidity change adds to the liquidity in range. */
  lemma LeftActive(ps: Positions, n: string, delta: int, tick: int)
    requires n in ps
    ensures ActiveLiquidity(Left(ps, n, delta), tick) == ActiveLiquidity(ps, tick) + (if InRange(ps[n], tick) then delta else 0)
  {
    UnfoldLeft(ps, n, delta);
    if ps[n].liquidity + delta == 0 {
      assert LiquidityInRange(ps - {n}, tick) == LiquidityInRange(ps, tick) - {n};
      SumPick(LiquidityInRange(ps, tick), n);
    } else {
      PutActive(ps, n, ps[n].(liquidity := ps[n].liquidity + delta), tick);
    }
  }

  lemma LeftAgree(ticks: Ticks, ps: Positions, n: string, delta: int)
    requires TicksOK(ticks, ps) && n in ps && ps[n].liquidity + delta >= 0
    ensures Agree(UpdateBounds(ticks, ps[n], delta), Left(ps, n, delta)) && Sized(Left(ps, n, delta))
  {
    UnfoldLeft(ps, n, delta);
    if ps[n].liquidity + delta == 0 {
      DropAgree(ticks, ps, n, delta);
    } else {
      PutAgree(ticks, ps, n, ps[n].(liquidity := ps[n].liquidity + delta), delta);
    }
  }

  lemma LeftUse(ps: Positions, n: string, delta: int, t: int)
    requires n in ps
    ensures InUse(Left(ps, n, delta), t) ==> InUse(ps, t)
    ensures InUse(ps, t) ==> InUse(Left(ps, n, delta), t) || Bounds(ps[n], t)
  {
    var left := Left(ps, n, delta);
    UnfoldLeft(ps, n, delta);
    if InUse(left, t) {
      var m :| m in left && Bounds(left[m], t);
      assert m in ps && Bounds(ps[m], t);
    }
    if InUse(ps, t) && !Bounds(ps[n], t) {
      var m :| m in ps && Bounds(ps[m], t);
      assert m in left && Bounds(left[m], t);
    }
  }

  /** After a withdrawal the ticks are again those in use, with the right sums. */
  lemma LeftTicks(ticks: Ticks, ps: Positions, n: string, delta: int)
    requires TicksGood(ticks, ps) && n in ps && ps[n].liquidity + delta >= 0
    ensures var gone, left := Gone(ticks, ps[n], delta), Left(ps, n, delta);
            && TicksGood(TicksAfter(ticks, ps[n], delta), left) && TicksAfter(ticks, ps[n], delta).Keys == ticks.Keys - gone
            && ClearOf(left, gone)
  {
    UnfoldTicks(ticks, ps);
    UnfoldGone(ticks, ps[n], delta);
    UnfoldTicksAfter(ticks, ps[n], delta);
    var ticks', left := UpdateBounds(ticks, ps[n], delta), Left(ps, n, delta);
    LeftAgree(ticks, ps, n, delta);
    forall t
      ensures t in ticks' <==> t in ticks
      ensures InUse(left, t) ==> t in ticks'
      ensures t in ticks' ==> InUse(left, t) || Bounds(ps[n], t)
    {
      LeftUse(ps, n, delta, t);
      assert Bounds(ps[n], ps[n].lower) && Bounds(ps[n], ps[n].upper);
      assert InUse(ps, ps[n].lower) && InUse(ps, ps[n].upper);
    }
    CleanOK(ticks', left, ps[n]);
    UnfoldTicks(ticks' - Gone(ticks, ps[n], delta), left);
  }

  lemma ChangeAll(xs: seq<Uptime>, s: Scene, n: string, delta: int, d: string)
    requires |xs| == UPTIME_COUNT && AllGood(xs, s) && AllIdle(xs, s, n)
    requires n in s.positions && delta != 0 && s.positions[n].liquidity + delta >= 0
    ensures var acts, s' := Copies(Change(n, s.positions[n], delta)), s.(positions := Left(s.positions, n, delta));
            && AllDo(xs, s.tick, acts) && AllGood(After(xs, s.tick, acts), s')
            && TotalOwed(After(xs, s.tick, acts), s', d) == TotalOwed(xs, s, d)
  {
    var s' := s.(positions := Left(s.positions, n, delta));
    forall u | 0 <= u < |xs| ensures Keeps(xs[u], s, Change(n, s.positions[n], delta), s', d, 0, 0) {
      ChangeKeeps(xs[u], s, n, delta, d);
    }
    EachKeepsOwed(xs, s, Change(n, s.positions[n], delta), s', d);
  }

  /** What a redeposit may fall short: one liquidity per accumulator. */
  function ReturnShort(active: int): int { if active < ONE18 then 0 else UPTIME_COUNT * active }

  /** Redeposited coins are owed again: no more than them, and little less. */
  lemma ReturnAll(xs: seq<Uptime>, s: Scene, cs: seq<DecCoins>, active: int, d: string)
    requires |xs| == |cs| == UPTIME_COUNT && AllGood(xs, s) && NoneNegative(cs) && active == ActiveLiquidity(s.positions, s.tick)
    ensures AllGood(Regiven(xs, s.tick, cs, active), s)
    ensures var gain, given := TotalOwed(Regiven(xs, s.tick, cs, active), s, d) - TotalOwed(xs, s, d),
                               if active < ONE18 then 0 else ONE18 * (ONE18 * TotalOf(cs, d));
            gain <= given <= gain + ReturnShort(active)
  {
    if active >= ONE18 {
      var his := Scaled(Amounts(cs, d), 2 * (ONE18 * ONE18));
      var los := Lowered(his, 2 * active);
      forall u | 0 <= u < |xs| ensures Keeps(xs[u], s, Returns(cs, active)[u], s, d, los[u], his[u]) {
        assert !AnyNegative(cs[u]);
        ReturnKeeps(xs[u], s, cs[u], d);
        assert Amounts(cs, d)[u] == Amt(cs[u], d);
      }
      EachKeeps(xs, s, Returns(cs, active), s, d, los, his);
      UnpaidTotal(xs, s.tick, Returns(cs, active), d);
      UnfoldTotal(cs, d);
      SumScaled(Amounts(cs, d), his, 2 * (ONE18 * ONE18), |xs|);
      SumLowered(his, 2 * active, |xs|);
    }
  }

  ghost function Lowered(xs: seq<int>, v: int): (out: seq<int>)
    ensures |out| == |xs| && forall u {:trigger out[u]} | 0 <= u < |xs| :: out[u] == xs[u] - v
  {
    seq(|xs|, u requires 0 <= u < |xs| => xs[u] - v)
  }

  lemma {:induction false} SumLowered(xs: seq<int>, v: int, k: nat)
    requires k <= |xs|
    ensures SumTo(Lowered(xs, v), k) == SumTo(xs, k) - v * k
  {
    if k > 0 {
      SumLowered(xs, v, k - 1);
      assert v * k == v * (k - 1) + v;
    }
  }

  lemma ForgetAll(xs: seq<Uptime>, s: Scene, gone: set<int>, d: string)
    requires |xs| == UPTIME_COUNT && AllGood(xs, s)
    requires ClearOf(s.positions, gone)
    ensures var s' := s.(ticks := s.ticks - gone);
            AllGood(After(xs, s.tick, Copies(Forget(gone))), s')
            && TotalOwed(After(xs, s.tick, Copies(Forget(gone))), s', d) == TotalOwed(xs, s, d)
  {
    var s' := s.(ticks := s.ticks - gone);
    forall u | 0 <= u < |xs| ensures Keeps(xs[u], s, Forget(gone), s', d, 0, 0) {
      ForgetKeeps(xs[u], s, gone, d);
    }
    EachKeepsOwed(xs, s, Forget(gone), s', d);
  }

  lemma RestIs(xs: seq<Uptime>, tick: int)
    requires |xs| == UPTIME_COUNT
    ensures After(xs, tick, Copies(Rest)) == xs
  {
    forall u | 0 <= u < |xs| ensures After(xs, tick, Copies(Rest))[u] == xs[u] {
      UnfoldDo(xs[u], tick, Rest);
    }
  }

  lemma RestAll(xs: seq<Uptime>, s: Scene, tick': int, d: string)
    requires |xs| == UPTIME_COUNT && AllGood(xs, s)
    requires |s.positions| == 0 || forall t | t in s.ticks :: (s.tick < t) == (tick' < t)
    ensures AllGood(xs, s.(tick := tick')) && TotalOwed(xs, s.(tick := tick'), d) == TotalOwed(xs, s, d)
  {
    var s' := s.(tick := tick');
    forall u | 0 <= u < |xs| ensures Keeps(xs[u], s, Rest, s', d, 0, 0) {
      if |s.positions| == 0 {
        assert s.positions == map[];
        RestEmptyKeeps(xs[u], s, tick', d);
      } else {
        RestKeeps(xs[u], s, tick', d);
      }
    }
    EachKeepsOwed(xs, s, Rest, s', d);
    RestIs(xs, s.tick);
  }
}
