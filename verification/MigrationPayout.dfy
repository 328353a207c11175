/** What the migration means for what positions are paid. */
module MigrationPayout {
  import opened FixedPoint
  import opened Coins
  import opened UptimeAccumulator
  import opened IncentivePool
  import opened IncentiveOps
  import opened Migration
  import opened UptimeActs
  import opened IncentiveKeeps
  import Solvency

  /** What a claim on an unmigrated pool pays, and what it pays right after the migration. */
  ghost function PaidBefore(x: Uptime, tick: int, ps: Positions, n: string, d: string): int
    requires n in ps && Collect(x, tick, n, ps[n]).Ok?
  {
    DescaledAmount(Amt(Collect(x, tick, n, ps[n]).value.coins, d), 1)
  }

  ghost function PaidAfter(x: Uptime, tick: int, ps: Positions, n: string, d: string): int
    requires n in ps && Collect(Migrated(x, ps.Keys), tick, n, ps[n]).Ok?
  {
    DescaledAmount(Amt(Collect(Migrated(x, ps.Keys), tick, n, ps[n]).value.coins, d), SCALE)
  }

  lemma RoundedWhole(p: int)
    requires p >= 0
    ensures 0 <= p / ONE36 <= RoundHalfEven(p, ONE18) / ONE18 <= p / ONE36 + 1
  {
    var q := p / ONE36;
    RoundRange(p, ONE18);
    DivDiv(p, ONE18, ONE18);
    DivBounds(p, ONE36, 0);
  }

  lemma BeforeIs(x: Uptime, tick: int, ps: Positions, n: string, d: string)
    requires UptimeAccumulator.Inv(x, tick, ps) && n in ps
    ensures Collect(x, tick, n, ps[n]).Ok?
    ensures PaidBefore(x, tick, ps, n, d)
         == DescaledAmount(Quo(Unclaimed(x, n, d) + RoundHalfEven(Pending(x, tick, ps, n, d), ONE18), ONE18), 1)
  {
    CollectShape(x, tick, ps, n);
    PendingSettles(x, tick, ps, n, d);
  }

  lemma AfterIs(x: Uptime, tick: int, ps: Positions, n: string, d: string)
    requires UptimeAccumulator.Inv(x, tick, ps) && n in ps
    ensures Collect(Migrated(x, ps.Keys), tick, n, ps[n]).Ok?
    ensures PaidAfter(x, tick, ps, n, d)
         == DescaledAmount(Quo(Unclaimed(x, n, d) + 1_000_000_000 * Pending(x, tick, ps, n, d), ONE18), SCALE)
  {
    MigratedInv(x, tick, ps);
    CollectShape(Migrated(x, ps.Keys), tick, ps, n);
    MigratedSettles(x, tick, ps, n, d);
  }

  /** The exact payouts.  Rewards stored as unclaimed are not multiplied, and would count for a
      10^27th of what they did. */
  lemma PayoutsAre(x: Uptime, tick: int, ps: Positions, n: string, d: string)
    requires UptimeAccumulator.Inv(x, tick, ps) && n in ps
    ensures Collect(x, tick, n, ps[n]).Ok? && Collect(Migrated(x, ps.Keys), tick, n, ps[n]).Ok?
    ensures var p, u := Pending(x, tick, ps, n, d), Unclaimed(x, n, d);
            && p >= 0 && u >= 0
            && PaidBefore(x, tick, ps, n, d) == (u + RoundHalfEven(p, ONE18)) / ONE18
            && PaidAfter(x, tick, ps, n, d) == (u + 1_000_000_000 * p) / (ONE18 * SCALE)
  {
    BeforeIs(x, tick, ps, n, d);
    AfterIs(x, tick, ps, n, d);
    PendingSettles(x, tick, ps, n, d);
    PayoutNumbers(Pending(x, tick, ps, n, d), Unclaimed(x, n, d));
  }

  lemma PayoutNumbers(p: int, u: int)
    requires p >= 0 && u >= 0
    ensures DescaledAmount(Quo(u + RoundHalfEven(p, ONE18), ONE18), 1) == (u + RoundHalfEven(p, ONE18)) / ONE18
    ensures DescaledAmount(Quo(u + 1_000_000_000 * p, ONE18), SCALE) == (u + 1_000_000_000 * p) / (ONE18 * SCALE)
  {
    RoundRange(p, ONE18);
    DivBounds(u + RoundHalfEven(p, ONE18), ONE18, 0);
    DivBounds(u + 1_000_000_000 * p, ONE18, 0);
    DescaledIs(Quo(u + RoundHalfEven(p, ONE18), ONE18), 1);
    DescaledIs(Quo(u + 1_000_000_000 * p, ONE18), SCALE);
    DivDiv(u + 1_000_000_000 * p, ONE18, SCALE);
  }

  /** The payout after the migration is the exact whole part of the pending reward, which is
      what is paid before it, or one coin less. */
  ghost predicate PaidExactly(x: Uptime, tick: int, ps: Positions, n: string, d: string) {
    && n in ps && Collect(x, tick, n, ps[n]).Ok? && Collect(Migrated(x, ps.Keys), tick, n, ps[n]).Ok?
    && PaidAfter(x, tick, ps, n, d) == Pending(x, tick, ps, n, d) / ONE36
    && PaidBefore(x, tick, ps, n, d) - 1 <= PaidAfter(x, tick, ps, n, d) <= PaidBefore(x, tick, ps, n, d)
  }

  lemma ClearPayout(x: Uptime, tick: int, ps: Positions, n: string, d: string)
    requires UptimeAccumulator.Inv(x, tick, ps) && n in ps && Unclaimed(x, n, d) == 0
    ensures PaidExactly(x, tick, ps, n, d)
  {
    PayoutsAre(x, tick, ps, n, d);
    ComparePayouts(Pending(x, tick, ps, n, d), PaidBefore(x, tick, ps, n, d), PaidAfter(x, tick, ps, n, d));
  }

  lemma MagnifiedIs(p: Pool, u: nat)
    requires PoolInv(p) && p.factor == 1 && u < UPTIME_COUNT
    ensures Magnified(p).Ok? && Magnified(p).value.uptimes[u] == Migrated(p.uptimes[u], p.positions.Keys)
  {
    MigratingKeeps(p, "");
    UnfoldDo(p.uptimes[u], p.tick, Magnify(p.positions.Keys));
    assert Do(p.uptimes[u], p.tick, Copies(Magnify(p.positions.Keys))[u]).Ok?;
  }

  lemma GoodPayout(x: Uptime, s: Scene, n: string, d: string)
    requires Good(x, s) && n in s.positions
    ensures PaidExactly(x, s.tick, s.positions, n, d)
  {
    UnfoldGood(x, s);
    UnfoldClear(x, s.positions);
    assert Unclaimed(x, n, d) == 0;
    ClearPayout(x, s.tick, s.positions, n, d);
  }

  /** After every run no live position has unclaimed rewards, so a migration then costs it at
      most one coin in each accumulator. */
  lemma MigrationPayout(start: int, ops: seq<Solvency.Op>, n: string, u: nat, d: string)
    requires Solvency.Run(1, start, ops).pool.factor == 1 && n in Solvency.Run(1, start, ops).pool.positions && u < UPTIME_COUNT
    ensures var p := Solvency.Run(1, start, ops).pool;
            && |p.uptimes| == UPTIME_COUNT && Magnified(p).Ok?
            && Magnified(p).value.uptimes[u] == Migrated(p.uptimes[u], p.positions.Keys)
            && PaidExactly(p.uptimes[u], p.tick, p.positions, n, d)
  {
    var p := Solvency.Run(1, start, ops).pool;
    Solvency.RunSound(1, start, ops, d);
    MagnifiedIs(p, u);
    UnfoldPool(p);
    GoodPayout(p.uptimes[u], SceneOf(p), n, d);
  }

  lemma ComparePayouts(p: int, before: int, after: int)
    requires p >= 0 && before == (0 + RoundHalfEven(p, ONE18)) / ONE18 && after == (0 + 1_000_000_000 * p) / (ONE18 * SCALE)
    ensures after == p / ONE36 && before - 1 <= after <= before
  {
    RoundedWhole(p);
    DivDiv(1_000_000_000 * p, 1_000_000_000, ONE36);
    MulExact(p, 1_000_000_000);
  }
}
