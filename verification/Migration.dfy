/** The migration of a pool's uptime accumulators to the per-unit-liquidity scaling factor. */
module Migration {
  import opened FixedPoint
  import opened Coins
  import opened MapSums
  import opened Options
  import opened AccumulatorState
  import opened Stakes
  import opened UptimeAccumulator

  /** The scaling factor, 10^27. */
  const SCALE: int := 1_000_000_000_000_000_000_000_000_000

  /** `MulDecTruncate` of one amount by the scaling factor. */
  function Up(x: int): (r: int)
    ensures r == x * SCALE
  {
    UpExact(x);
    Quo(x * (SCALE * ONE18), ONE18)
  }

  /** The truncation never loses anything, whatever the sign. */
  lemma UpExact(x: int)
    ensures Quo(x * (SCALE * ONE18), ONE18) == x * SCALE
  {
    var y := if x < 0 then -x else x;
    assert y * (SCALE * ONE18) == ONE18 * (y * SCALE);
    MulExact(y * SCALE, ONE18);
  }

  /** `DecCoins.MulDecTruncate` by the scaling factor. */
  function UpCoins(c: DecCoins): (r: DecCoins)
    ensures forall d {:trigger Amt(r, d)} :: Amt(r, d) == Amt(c, d) * SCALE
  {
    map d | d in c :: Up(c[d])
  }

  function UpRecord(r: Record): Record { r.(snapshot := UpCoins(r.snapshot)) }

  function UpPositions(ps: map<string, Record>, names: set<string>): map<string, Record> {
    map n | n in ps :: if n in names then UpRecord(ps[n]) else ps[n]
  }

  function UpTrackers(ts: map<int, DecCoins>): map<int, DecCoins> { map t | t in ts :: UpCoins(ts[t]) }

  /** One accumulator with its value, the snapshots of the named positions and all trackers
      multiplied; unclaimed rewards are left as they are. */
  function Migrated(x: Uptime, names: set<string>): Uptime {
    Uptime(State(UpCoins(x.acc.value), x.acc.total, UpPositions(x.acc.positions, names)), UpTrackers(x.trackers))
  }

  // ---------------------------------------------------------------------------- growth

  lemma MigratedBelow(x: Uptime, names: set<string>, tick: int, d: string, t: int)
    ensures Get(BelowOf(Migrated(x, names), tick, d), t) == Get(BelowOf(x, tick, d), t) * SCALE
  {
  }

  /** Every range's growth inside is multiplied by exactly the factor. */
  lemma MigratedGrowth(x: Uptime, names: set<string>, tick: int, lower: int, upper: int, d: string)
    requires lower < upper && lower in x.trackers && upper in x.trackers && forall e :: TrackersIn(x, e)
    ensures GrowthInside(x, tick, lower, upper).Ok? && GrowthInside(Migrated(x, names), tick, lower, upper).Ok?
    ensures Amt(GrowthInside(Migrated(x, names), tick, lower, upper).value, d) == Amt(GrowthInside(x, tick, lower, upper).value, d) * SCALE
  {
    var y := Migrated(x, names);
    forall e ensures TrackersIn(y, e) {
      MigratedTrackers(x, names, e);
    }
    GrowthAmounts(x, tick, lower, upper);
    GrowthAmounts(y, tick, lower, upper);
    MigratedBelow(x, names, tick, d, lower);
    MigratedBelow(x, names, tick, d, upper);
  }

  lemma MigratedTrackers(x: Uptime, names: set<string>, d: string)
    requires TrackersIn(x, d)
    ensures TrackersIn(Migrated(x, names), d)
  {
  }

  /** The growth a position has accrued since its last update is multiplied too. */
  lemma MigratedStake(x: Uptime, tick: int, ps: Positions, n: string, d: string)
    requires n in ps && n in x.acc.positions
    ensures var s, s' := StakeAt(x, ps, n, d), StakeAt(Migrated(x, ps.Keys), ps, n, d);
            && s' == s.(snapshot := s.snapshot * SCALE)
            && Growth(BelowOf(Migrated(x, ps.Keys), tick, d), s') == Growth(BelowOf(x, tick, d), s) * SCALE
  {
    MigratedBelow(x, ps.Keys, tick, d, ps[n].lower);
    MigratedBelow(x, ps.Keys, tick, d, ps[n].upper);
  }

  lemma ScaledClaim(g: int, snapshot: int, shares: int, unclaimed: int)
    ensures (g * SCALE - snapshot * SCALE) * shares == SCALE * ((g - snapshot) * shares)
    ensures ONE18 * unclaimed + (g * SCALE - snapshot * SCALE) * shares
         == SCALE * (ONE18 * unclaimed + (g - snapshot) * shares) - (SCALE - 1) * (ONE18 * unclaimed)
  {
  }

  lemma MigratedDenom(x: Uptime, tick: int, ps: Positions, d: string)
    requires Sound(x, tick, ps)
    ensures DenomOK(Migrated(x, ps.Keys), tick, ps, d)
  {
    var y := Migrated(x, ps.Keys);
    assert DenomOK(x, tick, ps, d);
    MigratedTrackers(x, ps.Keys, d);
    forall n | n in ps ensures Solid(BelowOf(y, tick, d), StakeOf(ps[n], RecordOf(y.acc, n), d)) {
      assert PlacedIn(x, ps[n], n);
      MigratedStake(x, tick, ps, n, d);
    }
  }

  /** The migration keeps the invariant. */
  lemma MigratedInv(x: Uptime, tick: int, ps: Positions)
    requires UptimeAccumulator.Inv(x, tick, ps)
    ensures UptimeAccumulator.Inv(Migrated(x, ps.Keys), tick, ps)
  {
    UnfoldInv(x, tick, ps);
    UnfoldInv(Migrated(x, ps.Keys), tick, ps);
    forall n | n in ps ensures PlacedIn(Migrated(x, ps.Keys), ps[n], n) {
      assert PlacedIn(x, ps[n], n);
    }
    forall d ensures DenomOK(Migrated(x, ps.Keys), tick, ps, d) {
      MigratedDenom(x, tick, ps, d);
    }
  }

  lemma {:induction false} SumTimes(h: map<string, int>, h': map<string, int>)
    requires h.Keys == h'.Keys && forall n | n in h :: h'[n] == SCALE * h[n]
    ensures Sum(h') == SCALE * Sum(h)
    decreases h.Keys
  {
    if h != map[] {
      var n :| n in h;
      SumTimes(h - {n}, h' - {n});
      SumPick(h, n);
      SumPick(h', n);
    } else {
      assert h' == map[];
    }
  }

  /** A position's claim is multiplied by the factor, but for what it has unclaimed. */
  lemma MigratedClaim(x: Uptime, tick: int, ps: Positions, n: string, d: string)
    requires UptimeAccumulator.Inv(x, tick, ps) && n in ps
    ensures Claimable(BelowOf(Migrated(x, ps.Keys), tick, d), StakeAt(Migrated(x, ps.Keys), ps, n, d))
         == SCALE * Claimable(BelowOf(x, tick, d), StakeAt(x, ps, n, d)) - (SCALE - 1) * (ONE18 * Unclaimed(x, n, d))
  {
    PlacedTicks(x, tick, ps, n);
    MigratedStake(x, tick, ps, n, d);
    var s := StakeAt(x, ps, n, d);
    ScaledClaim(Growth(BelowOf(x, tick, d), s), s.snapshot, s.shares, s.unclaimed);
  }

  /** No position has unclaimed rewards. */
  ghost predicate NothingUnclaimed(x: Uptime, ps: Positions) {
    forall n, d {:trigger Unclaimed(x, n, d)} | n in ps :: Unclaimed(x, n, d) == 0
  }

  /** Without unclaimed rewards what is owed is multiplied by exactly the factor. */
  lemma MigratedOwed(x: Uptime, tick: int, ps: Positions, d: string)
    requires UptimeAccumulator.Inv(x, tick, ps) && NothingUnclaimed(x, ps)
    ensures OwedOf(Migrated(x, ps.Keys), tick, ps, d) == SCALE * OwedOf(x, tick, ps, d)
  {
    var y := Migrated(x, ps.Keys);
    UnfoldOwed(x, tick, ps, d);
    UnfoldOwed(y, tick, ps, d);
    var h, h' := Claims(BelowOf(x, tick, d), StakesOf(x, ps, d)), Claims(BelowOf(y, tick, d), StakesOf(y, ps, d));
    forall n | n in ps ensures h'[n] == SCALE * h[n] {
      MigratedClaim(x, tick, ps, n, d);
      assert Unclaimed(x, n, d) == 0;
    }
    SumTimes(h, h');
  }

  // --------------------------------------------------------------------------- payouts

  /** The pending growth of a position times its liquidity, in units of 10^-36. */
  ghost function Pending(x: Uptime, tick: int, ps: Positions, n: string, d: string): int
    requires n in ps
  {
    var s := StakeAt(x, ps, n, d);
    (Growth(BelowOf(x, tick, d), s) - s.snapshot) * s.shares
  }

  ghost function Unclaimed(x: Uptime, n: string, d: string): int { Amt(RecordOf(x.acc, n).unclaimed, d) }

  lemma PendingSettles(x: Uptime, tick: int, ps: Positions, n: string, d: string)
    requires UptimeAccumulator.Inv(x, tick, ps) && n in ps
    ensures Pending(x, tick, ps, n, d) >= 0 && Unclaimed(x, n, d) >= 0
    ensures SettledIn(x, tick, ps, n, d) == Unclaimed(x, n, d) + RoundHalfEven(Pending(x, tick, ps, n, d), ONE18)
  {
    StakeIsSolid(x, tick, ps, n, d);
    SolidPending(BelowOf(x, tick, d), StakeAt(x, ps, n, d));
  }

  lemma PendingScales(x: Uptime, tick: int, ps: Positions, n: string, d: string)
    requires UptimeAccumulator.Inv(x, tick, ps) && n in ps
    ensures Pending(Migrated(x, ps.Keys), tick, ps, n, d) == SCALE * Pending(x, tick, ps, n, d)
    ensures Unclaimed(Migrated(x, ps.Keys), n, d) == Unclaimed(x, n, d)
  {
    PlacedTicks(x, tick, ps, n);
    MigratedStake(x, tick, ps, n, d);
    var s := StakeAt(x, ps, n, d);
    ScaledClaim(Growth(BelowOf(x, tick, d), s), s.snapshot, s.shares, 0);
  }

  /** After the migration a settlement rounds nothing. */
  lemma MigratedSettles(x: Uptime, tick: int, ps: Positions, n: string, d: string)
    requires UptimeAccumulator.Inv(x, tick, ps) && n in ps
    ensures SettledIn(Migrated(x, ps.Keys), tick, ps, n, d) == Unclaimed(x, n, d) + 1_000_000_000 * Pending(x, tick, ps, n, d)
  {
    MigratedInv(x, tick, ps);
    PendingSettles(Migrated(x, ps.Keys), tick, ps, n, d);
    PendingScales(x, tick, ps, n, d);
    RoundScaled(Pending(x, tick, ps, n, d));
  }

  lemma RoundScaled(p: int)
    ensures RoundHalfEven(SCALE * p, ONE18) == 1_000_000_000 * p
  {
    RoundExact(1_000_000_000 * p, ONE18);
  }

  // -------------------------------------------------------------------------- the loops

  /** The loop over the pool's positions. */
  method MigratePositions(stored: map<string, Record>, names: seq<string>) returns (r: Result<map<string, Record>, Error>)
    requires forall i, j | 0 <= i < j < |names| :: names[i] != names[j]
    ensures r.Ok? <==> forall n | n in names :: n in stored
    ensures r.Ok? ==> r.value == UpPositions(stored, set n | n in names)
  {
    var positions := stored;
    for i := 0 to |names|
      invariant forall k | 0 <= k < i :: names[k] in stored
      invariant positions.Keys == stored.Keys
      invariant forall n | n in positions :: positions[n] == if n in names[..i] then UpRecord(stored[n]) else stored[n]
    {
      if names[i] !in positions {
        return Err(NoPosition);
      }
      positions := positions[names[i] := UpRecord(positions[names[i]])];
    }
    assert names[..|names|] == names;
    r := Ok(positions);
  }

  /** The loop over the pool's initialised ticks. */
  method MigrateTrackers(stored: map<int, DecCoins>, ticks: seq<int>) returns (trackers: map<int, DecCoins>)
    requires forall i, j | 0 <= i < j < |ticks| :: ticks[i] != ticks[j]
    requires forall t :: t in ticks <==> t in stored
    ensures trackers == UpTrackers(stored)
  {
    trackers := stored;
    for i := 0 to |ticks|
      invariant trackers.Keys == stored.Keys
      invariant forall t | t in trackers :: trackers[t] == if t in ticks[..i] then UpCoins(stored[t]) else stored[t]
    {
      assert ticks[i] in ticks;
      trackers := trackers[ticks[i] := UpCoins(trackers[ticks[i]])];
    }
    assert ticks[..|ticks|] == ticks;
    forall t | t in stored ensures trackers[t] == UpCoins(stored[t]) {
      assert t in ticks;
    }
  }

  /** `MigrateIncentivesAccumulatorToScalingFactor` for one accumulator, with the names of the
      pool's positions and its initialised ticks as they are stored. */
  method MigrateUptime(x: Uptime, names: seq<string>, ticks: seq<int>) returns (r: Result<Uptime, Error>)
    requires forall i, j | 0 <= i < j < |names| :: names[i] != names[j]
    requires forall i, j | 0 <= i < j < |ticks| :: ticks[i] != ticks[j]
    requires forall t :: t in ticks <==> t in x.trackers
    ensures r.Ok? <==> forall n | n in names :: n in x.acc.positions
    ensures r.Ok? ==> r.value == Migrated(x, set n | n in names)
  {
    var positions := MigratePositions(x.acc.positions, names);
    if positions.Err? {
      return Err(positions.error);
    }
    var trackers := MigrateTrackers(x.trackers, ticks);
    r := Ok(Uptime(State(UpCoins(x.acc.value), x.acc.total, positions.value), trackers));
  }
}
