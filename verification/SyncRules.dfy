/** What an update to `now` does, in plain arithmetic over nanoseconds: what every record
    spends, and by how much every accumulator rises. */
module SyncRules {
  import opened FixedPoint
  import opened Coins
  import opened Options
  import opened Emission
  import opened UptimeActs
  import opened IncentivePool

  /** A rate is per second, times are in nanoseconds. */
  function Due(r: Incentive, nanos: int): int { r.rate * nanos / 1_000_000_000 }

  /** A record whose scaled dues would need more than 315 bits is skipped. */
  predicate TooLarge(r: Incentive, factor: int, nanos: int) { Due(r, nanos) * factor >= DEC_LIMIT }

  /** What a record spends in an update: its dues, as long as they last. */
  function Spends(r: Incentive, p: Pool, now: int): int {
    if r.start >= now || r.uptime >= UPTIME_COUNT || TooLarge(r, p.factor, now - p.lastUpdate) then 0
    else Min(r.remaining, Due(r, now - p.lastUpdate))
  }

  /** What it adds per unit of liquidity. */
  function Rise(r: Incentive, p: Pool, now: int): int
    requires p.liquidity > 0
  {
    Spends(r, p, now) * p.factor * ONE18 / p.liquidity
  }

  /** What the first `k` records add to accumulator `u` of denomination `d`. */
  ghost function Rises(p: Pool, now: int, u: nat, d: string, k: nat): int
    requires p.liquidity > 0 && k <= |p.incentives|
  {
    if k == 0 then 0 else
      var r := p.incentives[k - 1];
      Rises(p, now, u, d, k - 1) + if r.uptime == u && r.denom == d then Rise(r, p, now) else 0
  }

  /** The records after the update. */
  ghost function AfterSpending(p: Pool, now: int): (out: seq<Incentive>)
    ensures |out| == |p.incentives|
    ensures forall i {:trigger out[i]} | 0 <= i < |out| ::
              out[i] == p.incentives[i].(remaining := p.incentives[i].remaining - Spends(p.incentives[i], p, now))
  {
    seq(|p.incentives|, i requires 0 <= i < |p.incentives| =>
      p.incentives[i].(remaining := p.incentives[i].remaining - Spends(p.incentives[i], p, now)))
  }

  /** Those with something left, in order. */
  function WithRest(rs: seq<Incentive>): seq<Incentive> {
    if rs == [] then [] else (if rs[0].remaining > 0 then [rs[0]] else []) + WithRest(rs[1..])
  }

  // -------------------------------------------------------------------------- one record

  lemma CancelDiv(p: int, a: int, q: int)
    requires p > 0 && q > 0 && a >= 0
    ensures p * q > 0 && (p * a) / (p * q) == a / q
  {
    MulMono(p, 0, a);
    DivDiv(p * a, p, q);
    MulExact(a, p);
  }

  /** 10^9 units of a decimal second to the nanosecond. */
  lemma DueIs(r: Incentive, nanos: int)
    requires r.rate >= 0 && nanos > 0
    ensures Due(r, nanos) >= 0 && Quo(Seconds(nanos) * r.rate, ONE18) == Due(r, nanos)
  {
    var due, e := r.rate * nanos, 1_000_000_000;
    MulMono(nanos, 0, r.rate);
    DivBounds(due, e, 0);
    CancelDiv(e, due, e);
    assert Seconds(nanos) * r.rate == e * due;
  }

  lemma FactorGrows(x: int, factor: int)
    requires x >= 0 && factor >= 1
    ensures 0 <= x <= x * factor
  {
    MulMono(x, 1, factor);
  }

  lemma ScaledBelow(x: int, y: int, factor: int)
    requires x <= y && factor >= 1
    ensures x * factor <= y * factor
  {
    MulMono(factor, x, y);
  }

  lemma PerLiquidityIs(x: int, factor: int, liquidity: int)
    requires x >= 0 && factor >= 1 && liquidity > 0
    ensures PerLiquidity(x * factor, liquidity) == x * factor * ONE18 / liquidity >= 0
  {
    FactorGrows(x, factor);
    DivBounds(x * factor * ONE18, liquidity, 0);
  }

  ghost function ContextOf(p: Pool, now: int): Context { Context(now, Seconds(now - p.lastUpdate), p.liquidity, p.factor) }

  ghost predicate Running(p: Pool, now: int) { p.liquidity >= ONE18 && p.factor >= 1 && now > p.lastUpdate }

  /** A record that started, at the accumulator it names. */
  lemma EmitsAsDue(r: Incentive, p: Pool, now: int)
    requires Running(p, now) && RecordOK(r) && r.uptime < UPTIME_COUNT
    ensures Spends(r, p, now) >= 0
    ensures Emission.Emission(r, ContextOf(p, now), r.uptime) == Emitted(Rise(r, p, now), r.(remaining := r.remaining - Spends(r, p, now)))
  {
    var c, nanos := ContextOf(p, now), now - p.lastUpdate;
    UnfoldEmission(r, c, r.uptime);
    DueIs(r, nanos);
    var due := Due(r, nanos);
    FactorGrows(due, p.factor);
    FactorGrows(r.remaining, p.factor);
    ScaleUpExact(due, p.factor);
    ScaleUpExact(r.remaining, p.factor);
    PerLiquidityIs(due, p.factor, p.liquidity);
    PerLiquidityIs(r.remaining, p.factor, p.liquidity);
    PerLiquidityIs(0, p.factor, p.liquidity);
    if r.remaining <= due {
      ScaledBelow(r.remaining, due, p.factor);
    }
  }

  // --------------------------------------------------------------------------- all records

  lemma OthersIdle(r: Incentive, c: Context, u: nat)
    requires c.liquidity > 0 && r.uptime != u
    ensures Emission.Emission(r, c, u) == Emitted(0, r)
  {
    UnfoldEmission(r, c, u);
  }

  lemma {:induction false} AddedIs(p: Pool, now: int, u: nat, d: string, k: nat)
    requires Running(p, now) && AllOK(p.incentives) && u < UPTIME_COUNT && k <= |p.incentives|
    ensures AddedOf(DebitedBefore(p.incentives, ContextOf(p, now), u), k, ContextOf(p, now), u, d) == Rises(p, now, u, d, k)
  {
    if k > 0 {
      AddedIs(p, now, u, d, k - 1);
      var r, c := p.incentives[k - 1], ContextOf(p, now);
      DebitedOnce(p.incentives, c, u, k - 1);
      var mid := DebitedBefore(p.incentives, c, u)[k - 1];
      SkipsSame(r, c);
      if r.uptime == u {
        EmitsAsDue(r, p, now);
      } else {
        OthersIdle(mid, c, u);
      }
    }
  }

  lemma SkipsSame(r: Incentive, c: Context)
    requires c.liquidity > 0
    ensures var e := Emission.Emission(r, c, r.uptime).record; e.uptime == r.uptime && e.denom == r.denom
  {
    UnfoldEmission(r, c, r.uptime);
  }

  lemma DebitedIs(p: Pool, now: int)
    requires Running(p, now) && AllOK(p.incentives)
    ensures DebitedBefore(p.incentives, ContextOf(p, now), UPTIME_COUNT) == AfterSpending(p, now)
  {
    var c := ContextOf(p, now);
    forall i | 0 <= i < |p.incentives|
      ensures DebitedBefore(p.incentives, c, UPTIME_COUNT)[i] == AfterSpending(p, now)[i]
    {
      DebitedOnce(p.incentives, c, UPTIME_COUNT, i);
      if p.incentives[i].uptime < UPTIME_COUNT {
        EmitsAsDue(p.incentives[i], p, now);
      }
    }
  }

  lemma {:induction false} WithRestSnoc(rs: seq<Incentive>, r: Incentive)
    ensures WithRest(rs + [r]) == WithRest(rs) + if r.remaining > 0 then [r] else []
  {
    if rs == [] {
      assert rs + [r] == [r] && [r][1..] == [];
    } else {
      WithRestSnoc(rs[1..], r);
      assert (rs + [r])[1..] == rs[1..] + [r];
    }
  }

  lemma {:induction false} KeptIs(rs: seq<Incentive>, k: nat)
    requires k <= |rs|
    ensures KeptOf(rs, k) == WithRest(rs[..k])
  {
    if k > 0 {
      KeptIs(rs, k - 1);
      assert rs[..k] == rs[..k - 1] + [rs[k - 1]];
      WithRestSnoc(rs[..k - 1], rs[k - 1]);
    }
  }

  lemma KeptAll(rs: seq<Incentive>)
    ensures Kept(rs) == WithRest(rs)
  {
    KeptIs(rs, |rs|);
    assert rs[..|rs|] == rs;
  }

  // ----------------------------------------------------------------------------- the update

  /** `q` is `p` with other records, a later time, and each accumulator's value raised. */
  ghost predicate OnlyRaised(p: Pool, q: Pool, now: int) {
    && |p.uptimes| == |q.uptimes| == UPTIME_COUNT
    && q == p.(uptimes := q.uptimes, incentives := q.incentives, lastUpdate := now)
    && forall u {:trigger q.uptimes[u]} | 0 <= u < UPTIME_COUNT ::
         q.uptimes[u] == p.uptimes[u].(acc := p.uptimes[u].acc.(value := q.uptimes[u].acc.value))
  }

  lemma RaisedIs(p: Pool, now: int, cs: seq<DecCoins>, u: nat, d: string)
    requires |p.uptimes| == |cs| == UPTIME_COUNT && u < UPTIME_COUNT
    ensures var x := After(p.uptimes, p.tick, Raises(cs))[u];
            && x == p.uptimes[u].(acc := p.uptimes[u].acc.(value := x.acc.value))
            && Amt(x.acc.value, d) == Amt(p.uptimes[u].acc.value, d) + Amt(cs[u], d)
  {
    assert Raises(cs)[u] == Raise(cs[u]);
    UnfoldDo(p.uptimes[u], p.tick, Raise(cs[u]));
  }

  /** With at least one unit of liquidity in range, an update makes every record that has
      started spend its rate times the time since the last update, as long as it lasts, and
      raises the accumulator it names, and no other, by that times the factor over the
      liquidity. */
  lemma SyncSpends(p: Pool, now: int, u: nat, d: string)
    requires PoolInv(p) && now > p.lastUpdate && p.liquidity >= ONE18 && u < UPTIME_COUNT
    ensures Synced(p, now).Ok?
    ensures var q := Synced(p, now).value;
            && OnlyRaised(p, q, now)
            && q.incentives == WithRest(AfterSpending(p, now))
            && Amt(q.uptimes[u].acc.value, d) == Amt(p.uptimes[u].acc.value, d) + Rises(p, now, u, d, |p.incentives|)
  {
    UnfoldPool(p);
    UnfoldSynced(p, now);
    var c := ContextOf(p, now);
    var cs := AllAdded(p.incentives, c, UPTIME_COUNT);
    DebitedIs(p, now);
    KeptAll(AfterSpending(p, now));
    forall v | 0 <= v < UPTIME_COUNT
      ensures var x := After(p.uptimes, p.tick, Raises(cs))[v]; x == p.uptimes[v].(acc := p.uptimes[v].acc.(value := x.acc.value))
    {
      RaisedIs(p, now, cs, v, d);
    }
    RaisedIs(p, now, cs, u, d);
    AddedToAmount(DebitedBefore(p.incentives, c, u), c, u, d);
    AddedIs(p, now, u, d, |p.incentives|);
  }

  /** With less liquidity nothing is spent; at the time of the last update nothing changes;
      and an earlier time is an error. */
  lemma SyncRests(p: Pool, now: int)
    requires |p.uptimes| == UPTIME_COUNT
    ensures Synced(p, now).Ok? <==> now >= p.lastUpdate
    ensures now == p.lastUpdate ==> Synced(p, now) == Ok(p)
    ensures now > p.lastUpdate && p.liquidity < ONE18 ==>
              Synced(p, now) == Ok(p.(incentives := WithRest(p.incentives), lastUpdate := now))
  {
    UnfoldSynced(p, now);
    KeptAll(p.incentives);
  }
}
