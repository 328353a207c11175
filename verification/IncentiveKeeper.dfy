/** The keeper's incentive methods, which loop over the stored accumulators and records
    and change them in place. */
module IncentiveKeeper {
  import opened FixedPoint
  import opened Coins
  import opened Folding
  import opened Options
  import AccumulatorState
  import opened Emission
  import opened UptimeAccumulator
  import opened UptimeActs
  import opened TickLiquidity
  import opened IncentivePool
  import opened IncentiveSteps
  import opened IncentiveOps

  // ------------------------------------------------------------ part of the way through a loop

  datatype Progress = Progress(xs: seq<Uptime>, tick: int, acts: seq<Act>, u: nat)

  ghost function ReachedBy(y: Progress): seq<Uptime> {
    if |y.xs| == |y.acts| && y.u <= |y.xs| then After(y.xs, y.tick, y.acts)[..y.u] + y.xs[y.u..] else y.xs
  }

  /** The accumulators when the first `u` acts have been done; kept folded. */
  ghost function Upto(xs: seq<Uptime>, tick: int, acts: seq<Act>, u: nat): seq<Uptime> {
    FoldedFn(ReachedBy)(Progress(xs, tick, acts, u))
  }

  lemma UptoEnds(xs: seq<Uptime>, tick: int, acts: seq<Act>)
    requires |xs| == |acts|
    ensures Upto(xs, tick, acts, 0) == xs && Upto(xs, tick, acts, |xs|) == After(xs, tick, acts)
  {
    UnfoldFn(ReachedBy, Progress(xs, tick, acts, 0));
    UnfoldFn(ReachedBy, Progress(xs, tick, acts, |xs|));
  }

  lemma UptoStep(xs: seq<Uptime>, tick: int, acts: seq<Act>, u: nat)
    requires u < |xs| == |acts|
    ensures |Upto(xs, tick, acts, u)| == |xs| && Upto(xs, tick, acts, u)[u] == xs[u]
    ensures Upto(xs, tick, acts, u + 1) == Upto(xs, tick, acts, u)[u := AfterAct(xs[u], Do(xs[u], tick, acts[u]))]
  {
    UnfoldFn(ReachedBy, Progress(xs, tick, acts, u));
    UnfoldFn(ReachedBy, Progress(xs, tick, acts, u + 1));
  }

  lemma AllAddedAt(rs: seq<Incentive>, c: Context, n: nat, u: nat)
    requires u < n
    ensures AllAdded(rs, c, n)[u] == Added(DebitedBefore(rs, c, u), c, u)
  {
  }

  lemma EmitStep(x: Uptime, tick: int, rs: seq<Incentive>, c: Context, n: nat, u: nat)
    requires u < n
    ensures AfterAct(x, Do(x, tick, Raises(AllAdded(rs, c, n))[u])) == Accrue(x, Added(DebitedBefore(rs, c, u), c, u))
  {
    AllAddedAt(rs, c, n, u);
    UnfoldDo(x, tick, Raises(AllAdded(rs, c, n))[u]);
  }

  datatype Emitting = Emitting(xs: seq<Uptime>, tick: int, rs: seq<Incentive>, c: Context, u: nat)

  ghost function EmittedBy(y: Emitting): seq<Uptime> { Upto(y.xs, y.tick, Raises(AllAdded(y.rs, y.c, |y.xs|)), y.u) }

  /** The accumulators when the first `u` have received what the records emit; kept folded. */
  ghost function EmittedUpto(xs: seq<Uptime>, tick: int, rs: seq<Incentive>, c: Context, u: nat): seq<Uptime> {
    FoldedFn(EmittedBy)(Emitting(xs, tick, rs, c, u))
  }

  lemma EmittedStarts(xs: seq<Uptime>, tick: int, rs: seq<Incentive>, c: Context)
    ensures EmittedUpto(xs, tick, rs, c, 0) == xs
  {
    UnfoldFn(EmittedBy, Emitting(xs, tick, rs, c, 0));
    UptoEnds(xs, tick, Raises(AllAdded(rs, c, |xs|)));
  }

  lemma EmittedEnds(xs: seq<Uptime>, tick: int, rs: seq<Incentive>, c: Context)
    ensures EmittedUpto(xs, tick, rs, c, |xs|) == After(xs, tick, Raises(AllAdded(rs, c, |xs|)))
  {
    UnfoldFn(EmittedBy, Emitting(xs, tick, rs, c, |xs|));
    UptoEnds(xs, tick, Raises(AllAdded(rs, c, |xs|)));
  }

  lemma EmittedNext(xs: seq<Uptime>, tick: int, rs: seq<Incentive>, c: Context, u: nat)
    requires u < |xs|
    ensures var before, records := EmittedUpto(xs, tick, rs, c, u), DebitedBefore(rs, c, u);
            && |before| == |xs|
            && EmittedUpto(xs, tick, rs, c, u + 1) == before[u := Accrue(before[u], Added(records, c, u))]
            && DebitedBefore(rs, c, u + 1) == Debited(records, c, u)
  {
    UnfoldFn(EmittedBy, Emitting(xs, tick, rs, c, u));
    UnfoldFn(EmittedBy, Emitting(xs, tick, rs, c, u + 1));
    UptoStep(xs, tick, Raises(AllAdded(rs, c, |xs|)), u);
    EmitStep(xs[u], tick, rs, c, |xs|, u);
  }

  /** One turn of the claim loop: an accumulator without a record of the position is skipped,
      otherwise `updateAccumAndClaimRewards` after the growth outside the range. */
  method TakeFrom(x: Uptime, tick: int, n: string, pos: Position) returns (r: Result<Claimed, AccumulatorState.Error>)
    ensures r == Do(x, tick, Take(n, pos))
  {
    UnfoldDo(x, tick, Take(n, pos));
    if n !in x.acc.positions {
      return Ok(Claimed(x, map[]));
    }
    var outside := GrowthOutside(x, tick, pos.lower, pos.upper);
    if outside.Err? {
      return Err(outside.error);
    }
    r := ClaimRewards(x, n, outside.value);
  }

  ghost function PayoutTuple(y: (seq<DecCoins>, int, int, bool, nat)): DecCoins {
    if y.4 <= |y.0| == UPTIME_COUNT && y.1 > 0 then PayoutBefore(y.0, y.1, y.2, y.3, y.4) else map[]
  }

  /** `PayoutBefore`, kept folded. */
  ghost function PaidUpto(cs: seq<DecCoins>, factor: int, age: int, forfeit: bool, u: nat): DecCoins {
    FoldedFn(PayoutTuple)((cs, factor, age, forfeit, u))
  }

  lemma PaidEnds(cs: seq<DecCoins>, factor: int, age: int, forfeit: bool)
    requires |cs| == UPTIME_COUNT && factor > 0
    ensures PaidUpto(cs, factor, age, forfeit, 0) == map[]
    ensures PaidUpto(cs, factor, age, forfeit, UPTIME_COUNT) == Payout(cs, factor, age, forfeit)
  {
    UnfoldFn(PayoutTuple, (cs, factor, age, forfeit, 0));
    UnfoldFn(PayoutTuple, (cs, factor, age, forfeit, UPTIME_COUNT));
  }

  lemma PaidStep(cs: seq<DecCoins>, factor: int, age: int, forfeit: bool, u: nat)
    requires u < |cs| == UPTIME_COUNT && factor > 0
    ensures PaidUpto(cs, factor, age, forfeit, u + 1)
         == if (age < UPTIMES[u]) == forfeit then Plus(PaidUpto(cs, factor, age, forfeit, u), Descaled(cs[u], factor))
            else PaidUpto(cs, factor, age, forfeit, u)
  {
    UnfoldPaid(cs, factor, age, forfeit, u);
    UnfoldPaid(cs, factor, age, forfeit, u + 1);
    if (age < UPTIMES[u]) == forfeit {
      assert PayoutBefore(cs, factor, age, forfeit, u + 1) == Plus(PayoutBefore(cs, factor, age, forfeit, u), Descaled(cs[u], factor));
    }
  }

  lemma UnfoldPaid(cs: seq<DecCoins>, factor: int, age: int, forfeit: bool, u: nat)
    requires u <= |cs| == UPTIME_COUNT && factor > 0
    ensures PaidUpto(cs, factor, age, forfeit, u) == PayoutBefore(cs, factor, age, forfeit, u)
  {
    UnfoldFn(PayoutTuple, (cs, factor, age, forfeit, u));
  }

  lemma ChosenStep(cs: seq<DecCoins>, age: int, u: nat)
    requires u < |cs| == UPTIME_COUNT
    ensures Chosen(cs, age, true)[..u + 1] == Chosen(cs, age, true)[..u] + [if age < UPTIMES[u] then cs[u] else map[]]
  {
  }

  lemma ReturnStep(x: Uptime, tick: int, cs: seq<DecCoins>, liquidity: int, u: nat)
    requires u < |cs| && liquidity > 0
    ensures AfterAct(x, Do(x, tick, Returns(cs, liquidity)[u])) == Redeposited(x, cs[u], liquidity)
  {
    UnfoldDo(x, tick, Returns(cs, liquidity)[u]);
  }

  class Keeper {
    const factor: int
    var tick: int
    var liquidity: int
    var lastUpdate: int
    var ticks: Ticks
    var uptimes: seq<Uptime>
    var positions: Positions
    var incentives: seq<Incentive>

    ghost function Value(): Pool
      reads this
    {
      Pool(tick, liquidity, lastUpdate, factor, ticks, uptimes, positions, incentives)
    }

    constructor (factor: int, now: int)
      ensures Value() == NewPool(factor, now)
    {
      this.factor, this.lastUpdate := factor, now;
      tick, liquidity, ticks, positions, incentives := 0, 0, map[], map[], [];
      uptimes := seq(UPTIME_COUNT, _ => Uptime(AccumulatorState.Initial, map[]));
    }

    /** `setMultipleIncentiveRecords`: records with nothing left are deleted. */
    method SetIncentiveRecords(records: seq<Incentive>)
      modifies this`incentives
      ensures incentives == Kept(records)
    {
      incentives := [];
      for i := 0 to |records|
        invariant incentives == KeptOf(records, i)
      {
        if records[i].remaining > 0 {
          incentives := incentives + [records[i]];
        }
      }
    }

    /** `AddToAccumulator` on each accumulator, from what the records emit to it. */
    method EmitToAccumulators(c: Context) returns (records: seq<Incentive>)
      requires c.liquidity > 0 && c.elapsed > 0
      modifies this`uptimes
      ensures uptimes == After(old(uptimes), tick, Raises(AllAdded(incentives, c, |old(uptimes)|)))
      ensures records == DebitedBefore(incentives, c, |old(uptimes)|)
    {
      ghost var xs := uptimes;
      EmittedStarts(xs, tick, incentives, c);
      records := incentives;
      for u := 0 to |uptimes|
        invariant |uptimes| == |xs| && uptimes == EmittedUpto(xs, tick, incentives, c, u)
        invariant records == DebitedBefore(incentives, c, u)
      {
        EmittedNext(xs, tick, incentives, c, u);
        var ok, toAdd, updated := CalcAccruedIncentivesForAccum(u, c, records);
        uptimes := uptimes[u := Accrue(uptimes[u], toAdd)];
        records := updated;
      }
      EmittedEnds(xs, tick, incentives, c);
    }

    /** `updateGivenPoolUptimeAccumulatorsToNow`. */
    method UpdateToNow(now: int) returns (r: Result<(), Failure>)
      requires |uptimes| == UPTIME_COUNT
      modifies this`uptimes, this`incentives, this`lastUpdate
      ensures r.Ok? <==> Synced(old(Value()), now).Ok?
      ensures Value() == if r.Ok? then Synced(old(Value()), now).value else old(Value())
    {
      UnfoldSynced(Value(), now);
      if now == lastUpdate {
        return Ok(());
      } else if now < lastUpdate {
        return Err(TimeBackwards);
      }
      var records := incentives;
      if liquidity >= ONE18 {
        records := EmitToAccumulators(Context(now, Seconds(now - lastUpdate), liquidity, factor));
      }
      SetIncentiveRecords(records);
      lastUpdate := now;
      return Ok(());
    }

    /** The loop of `prepareClaimAllIncentivesForPosition` over the accumulators. */
    method TakeFromAccumulators(n: string, age: int) returns (ok: bool, paid: DecCoins, refund: DecCoins, forfeited: seq<DecCoins>)
      requires |uptimes| == UPTIME_COUNT && factor > 0 && n in positions
      modifies this`uptimes
      ensures ok <==> AllDo(old(uptimes), tick, Copies(Take(n, positions[n])))
      ensures ok ==> Receipt(Value(), paid, refund, forfeited) == Taken(old(Value()), n, age)
    {
      var pos := positions[n];
      ghost var xs, acts := uptimes, Copies(Take(n, pos));
      ghost var cs := Yields(xs, tick, acts);
      UptoEnds(xs, tick, acts);
      PaidEnds(cs, factor, age, false);
      PaidEnds(cs, factor, age, true);
      ok, paid, refund, forfeited := true, map[], map[], [];
      for u := 0 to UPTIME_COUNT
        invariant ok && |uptimes| == |xs| && uptimes == Upto(xs, tick, acts, u)
        invariant paid == PaidUpto(cs, factor, age, false, u) && refund == PaidUpto(cs, factor, age, true, u)
        invariant forfeited == Chosen(cs, age, true)[..u]
        invariant forall v {:trigger xs[v]} | 0 <= v < u :: Do(xs[v], tick, acts[v]).Ok?
      {
        UptoStep(xs, tick, acts, u);
        PaidStep(cs, factor, age, false, u);
        PaidStep(cs, factor, age, true, u);
        ChosenStep(cs, age, u);
        var r := TakeFrom(uptimes[u], tick, n, pos);
        assert r == Do(xs[u], tick, acts[u]);
        if r.Err? {
          return false, paid, refund, forfeited;
        }
        var c := r.value;
        assert cs[u] == c.coins;
        uptimes := uptimes[u := c.after];
        var coins := Descaled(c.coins, factor);
        if age < UPTIMES[u] {
          refund := Plus(refund, coins);
          forfeited := forfeited + [c.coins];
        } else {
          paid := Plus(paid, coins);
          forfeited := forfeited + [map[]];
        }
      }
    }

    /** `redepositForfeitedIncentives`; without liquidity in range the owner is refunded instead. */
    method RedepositForfeited(forfeited: seq<DecCoins>) returns (refunded: bool)
      requires |forfeited| == |uptimes|
      modifies this`uptimes
      ensures refunded <==> liquidity < ONE18
      ensures uptimes == Regiven(old(uptimes), tick, forfeited, liquidity)
    {
      refunded := liquidity < ONE18;
      if refunded {
        return;
      }
      ghost var xs, acts := uptimes, Returns(forfeited, liquidity);
      UptoEnds(xs, tick, acts);
      for u := 0 to |uptimes|
        invariant |uptimes| == |xs| && uptimes == Upto(xs, tick, acts, u)
      {
        UptoStep(xs, tick, acts, u);
        ReturnStep(xs[u], tick, forfeited, liquidity, u);
        if exists d | d in forfeited[u] :: forfeited[u][d] != 0 {
          uptimes := uptimes[u := Accrue(uptimes[u], Redeposit(forfeited[u], liquidity))];
        }
      }
    }

    /** `collectIncentives`: on a live pool it fails only for an unknown position or a time
        before the last update or the position's start; a failed call is rolled back. */
    method CollectIncentives(n: string, now: int) returns (r: Result<(DecCoins, DecCoins, seq<DecCoins>), Failure>)
      requires |uptimes| == UPTIME_COUNT && factor > 0
      modifies this
      ensures r.Ok? <==> Collected(old(Value()), n, now).Ok?
      ensures PoolInv(old(Value())) ==> (r.Ok? <==> n in old(positions) && old(lastUpdate) <= now && old(positions)[n].joinTime <= now)
      ensures r.Ok? ==> Receipt(Value(), r.value.0, r.value.1, r.value.2) == Collected(old(Value()), n, now).value
      ensures r.Err? ==> Value() == old(Value())
    {
      if n !in positions {
        return Err(UnknownPosition);
      }
      if PoolInv(Value()) {
        ClaimWhen(Value(), n, now);
      }
      var xs, rs, last := uptimes, incentives, lastUpdate;
      var synced := UpdateToNow(now);
      if synced.Err? {
        return Err(synced.error);
      }
      var age := now - positions[n].joinTime;
      if age < 0 {
        uptimes, incentives, lastUpdate := xs, rs, last;
        return Err(TimeBackwards);
      }
      var ok, paid, refund, forfeited := TakeFromAccumulators(n, age);
      if !ok {
        uptimes, incentives, lastUpdate := xs, rs, last;
        return Err(AccumulatorFailed);
      }
      return Ok((paid, refund, forfeited));
    }

    /** `CreateIncentive`. */
    method CreateIncentive(id: nat, denom: string, amount: int, rate: int, start: int, uptime: nat, now: int) returns (r: Result<Incentive, Failure>)
      requires |uptimes| == UPTIME_COUNT
      modifies this`uptimes, this`incentives, this`lastUpdate
      ensures r.Ok? <==> Created(old(Value()), id, denom, amount, rate, start, uptime, now).Ok?
      ensures Value() == if r.Ok? then Created(old(Value()), id, denom, amount, rate, start, uptime, now).value else old(Value())
    {
      if amount <= 0 || start < now || rate <= 0 || uptime >= UPTIME_COUNT {
        return Err(BadIncentive);
      }
      var synced := UpdateToNow(now);
      if synced.Err? {
        return Err(synced.error);
      }
      var record := Incentive(id, uptime, denom, amount * ONE18, rate, start);
      incentives := incentives + [record];
      return Ok(record);
    }
  }

  /** Exactly when a claim succeeds. */
  lemma ClaimWhen(p: Pool, n: string, now: int)
    requires PoolInv(p) && n in p.positions
    ensures Synced(p, now).Ok? <==> p.lastUpdate <= now
    ensures Collected(p, n, now).Ok? <==> p.lastUpdate <= now && p.positions[n].joinTime <= now
    ensures p.lastUpdate <= now ==> AllDo(Synced(p, now).value.uptimes, p.tick, Copies(Take(n, p.positions[n])))
  {
    UnfoldSynced(p, now);
    if p.lastUpdate <= now {
      SyncKeeps(p, now, "");
      TakenKeeps(Synced(p, now).value, n, now - p.positions[n].joinTime, "");
    }
  }
}
