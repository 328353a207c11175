/** One uptime accumulator of a pool: its positions, and the growth trackers of the
    pool's initialised ticks. */
module UptimeAccumulator {
  import opened FixedPoint
  import opened Coins
  import opened Folding
  import opened MapSums
  import opened Options
  import opened AccumulatorState
  import opened Stakes

  datatype Position = Position(lower: int, upper: int, liquidity: int, joinTime: int)
  type Positions = map<string, Position>

  datatype Uptime = Uptime(acc: State, trackers: map<int, DecCoins>)

  // -------------------------------------------------------------------- the source's steps

  /** The tracker `GetTickInfo` reports, which is the initial one for a tick that is not initialised. */
  function Tracker(x: Uptime, tick: int, t: int): DecCoins {
    if t in x.trackers then x.trackers[t] else if tick >= t then x.acc.value else map[]
  }

  /** `GetUptimeGrowthInsideRange`. */
  function GrowthInside(x: Uptime, tick: int, lower: int, upper: int): Result<DecCoins, Error> {
    var lt, ut := Tracker(x, tick, lower), Tracker(x, tick, upper);
    if tick < lower then Ok(Minus(lt, ut))
    else if tick < upper then
      var globalMinusUpper := Minus(x.acc.value, ut);
      if AnyNegative(globalMinusUpper) then Err(Panicked) else Ok(Minus(globalMinusUpper, lt))
    else Ok(Minus(ut, lt))
  }

  /** `GetUptimeGrowthOutsideRange`. */
  function GrowthOutside(x: Uptime, tick: int, lower: int, upper: int): Result<DecCoins, Error> {
    var inside :- GrowthInside(x, tick, lower, upper);
    var outside := Minus(x.acc.value, inside);
    if AnyNegative(outside) then Err(Panicked) else Ok(outside)
  }

  function Accrue(x: Uptime, amt: DecCoins): Uptime {
    x.(acc := AddedValue(x.acc, amt))
  }

  /** Initialises tick `t`. */
  function InitTick(x: Uptime, tick: int, t: int): Uptime {
    x.(trackers := x.trackers[t := Tracker(x, tick, t)])
  }

  /** `crossTick` for every initialised tick between the old and the new current tick. */
  function CrossTo(x: Uptime, tick: int, tick': int): Uptime {
    x.(trackers := map t | t in x.trackers ::
         if (tick < t) != (tick' < t) then Minus(x.acc.value, x.trackers[t]) else x.trackers[t])
  }

  /** `crossTick`, for this uptime. */
  function Flip(x: Uptime, t: int): Result<Uptime, Error>
    requires t in x.trackers
  {
    var v := Minus(x.acc.value, x.trackers[t]);
    if AnyNegative(v) then Err(Panicked) else Ok(x.(trackers := x.trackers[t := v]))
  }

  /** `updatePositionToInitValuePlusGrowthOutside`. */
  function AddOutside(x: Uptime, n: string, outside: DecCoins): Result<Uptime, Error> {
    if n !in x.acc.positions then Err(NoPosition) else
      var acc :- Resnapped(x.acc, n, Plus(x.acc.positions[n].snapshot, outside));
      Ok(x.(acc := acc))
  }

  /** A new position: its snapshot is the growth inside its range. */
  function Join(x: Uptime, tick: int, n: string, pos: Position): Result<Uptime, Error> {
    var inside :- GrowthInside(x, tick, pos.lower, pos.upper);
    Ok(x.(acc := Opened(x.acc, n, pos.liquidity, inside)))
  }

  /** The accumulator's part of a liquidity change of an existing position. */
  function Resize(x: Uptime, tick: int, n: string, pos: Position, delta: int): Result<Uptime, Error> {
    var inside :- GrowthInside(x, tick, pos.lower, pos.upper);
    var outside :- GrowthOutside(x, tick, pos.lower, pos.upper);
    var y :- AddOutside(x, n, outside);
    var acc :- Resized(y.acc, n, delta, inside);
    Ok(x.(acc := acc))
  }

  datatype Claimed = Claimed(after: Uptime, coins: DecCoins)

  /** `updateAccumAndClaimRewards`. */
  function ClaimRewards(x: Uptime, n: string, outside: DecCoins): Result<Claimed, Error> {
    var y :- AddOutside(x, n, outside);
    var c :- AccumulatorState.Claimed(y.acc, n);
    if n in c.state.positions then
      var acc :- Resnapped(c.state, n, Minus(x.acc.value, outside));
      Ok(Claimed(x.(acc := acc), c.coins))
    else Ok(Claimed(x.(acc := c.state), c.coins))
  }

  /** A claim by a position with its range. */
  function Collect(x: Uptime, tick: int, n: string, pos: Position): Result<Claimed, Error> {
    var outside :- GrowthOutside(x, tick, pos.lower, pos.upper);
    ClaimRewards(x, n, outside)
  }

  // ----------------------------------------------------------- one denomination, as numbers

  /** All growth that happened below tick `t`, from its tracker. */
  function BelowTick(global: int, tracker: int, tick: int, t: int): int {
    if tick < t then global - tracker else tracker
  }

  ghost function BelowOf(x: Uptime, tick: int, d: string): Below {
    map t | t in x.trackers :: BelowTick(Amt(x.acc.value, d), Amt(x.trackers[t], d), tick, t)
  }

  ghost function StakeOf(pos: Position, r: Record, d: string): Stake {
    Stake(pos.lower, pos.upper, r.shares, Amt(r.snapshot, d), Amt(r.unclaimed, d))
  }

  ghost function RecordOf(a: State, n: string): Record {
    if n in a.positions then a.positions[n] else Record(0, map[], map[])
  }

  ghost function StakesOf(x: Uptime, ps: Positions, d: string): map<string, Stake> {
    map n | n in ps :: StakeOf(ps[n], RecordOf(x.acc, n), d)
  }

  /** What all positions are owed here, in units of 10^-36. */
  ghost function OwedOf(x: Uptime, tick: int, ps: Positions, d: string): int {
    FoldedFn(OwedTuple)((x, tick, ps, d))
  }

  ghost function OwedTuple(y: (Uptime, int, Positions, string)): int {
    Owed(BelowOf(y.0, y.1, y.3), StakesOf(y.0, y.2, y.3))
  }

  lemma UnfoldOwed(x: Uptime, tick: int, ps: Positions, d: string)
    ensures OwedOf(x, tick, ps, d) == Owed(BelowOf(x, tick, d), StakesOf(x, ps, d))
  {
    UnfoldFn(OwedTuple, (x, tick, ps, d));
  }

  ghost function LiquidityInRange(ps: Positions, tick: int): map<string, int> {
    map n | n in ps :: if ps[n].lower <= tick < ps[n].upper then ps[n].liquidity else 0
  }

  /** The liquidity of all positions in range at `tick`. */
  ghost function ActiveLiquidity(ps: Positions, tick: int): int {
    Sum(LiquidityInRange(ps, tick))
  }

  // -------------------------------------------------------------------------- invariant

  ghost predicate PlacedIn(x: Uptime, pos: Position, n: string) {
    && pos.lower < pos.upper && pos.lower in x.trackers && pos.upper in x.trackers && pos.liquidity > 0
    && n in x.acc.positions && x.acc.positions[n].shares == pos.liquidity
  }

  ghost predicate TrackersIn(x: Uptime, d: string) {
    && Amt(x.acc.value, d) >= 0
    && forall t | t in x.trackers :: 0 <= Amt(x.trackers[t], d) <= Amt(x.acc.value, d)
  }

  /** Trackers lie between zero and the global value, no snapshot is ahead of the growth
      inside its range, and no unclaimed reward is negative. */
  ghost predicate DenomOK(x: Uptime, tick: int, ps: Positions, d: string) {
    && TrackersIn(x, d)
    && (forall n | n in ps :: Solid(BelowOf(x, tick, d), StakeOf(ps[n], RecordOf(x.acc, n), d)))
  }

  ghost predicate Sound(x: Uptime, tick: int, ps: Positions) {
    && (forall n | n in ps :: PlacedIn(x, ps[n], n))
    && (forall d :: DenomOK(x, tick, ps, d))
  }

  ghost predicate SoundTriple(y: (Uptime, int, Positions)) { Sound(y.0, y.1, y.2) }

  /** `Sound`, kept folded. */
  ghost predicate Inv(x: Uptime, tick: int, ps: Positions) {
    Folded(SoundTriple)((x, tick, ps))
  }

  lemma UnfoldInv(x: Uptime, tick: int, ps: Positions)
    ensures Inv(x, tick, ps) <==> Sound(x, tick, ps)
  {
    Unfold(SoundTriple, (x, tick, ps));
  }

  lemma FromInv(x: Uptime, tick: int, ps: Positions)
    requires Inv(x, tick, ps)
    ensures forall d :: TrackersIn(x, d)
    ensures forall n | n in ps :: PlacedIn(x, ps[n], n)
  {
    UnfoldInv(x, tick, ps);
    forall d ensures TrackersIn(x, d) {
      assert DenomOK(x, tick, ps, d);
    }
  }

  lemma StakesPlaced(x: Uptime, tick: int, ps: Positions, d: string)
    requires Inv(x, tick, ps)
    ensures Placed(BelowOf(x, tick, d), StakesOf(x, ps, d))
    ensures Active(StakesOf(x, ps, d), tick) == ActiveLiquidity(ps, tick)
  {
    UnfoldInv(x, tick, ps);
    assert forall n | n in ps :: PlacedIn(x, ps[n], n);
    assert ActiveShares(StakesOf(x, ps, d), tick) == LiquidityInRange(ps, tick);
  }

  // ------------------------------------------------------------------------------ accrual

  lemma AccrueDenom(x: Uptime, tick: int, ps: Positions, amt: DecCoins, d: string)
    requires Sound(x, tick, ps) && Amt(amt, d) >= 0
    ensures DenomOK(Accrue(x, amt), tick, ps, d)
    ensures BelowOf(Accrue(x, amt), tick, d) == Raised(BelowOf(x, tick, d), tick, Amt(amt, d))
  {
    assert DenomOK(x, tick, ps, d);
    var b, b' := BelowOf(x, tick, d), BelowOf(Accrue(x, amt), tick, d);
    assert b' == Raised(b, tick, Amt(amt, d));
    forall n | n in ps
      ensures Solid(b', StakeOf(ps[n], RecordOf(x.acc, n), d))
    {
      assert PlacedIn(x, ps[n], n);
      assert Solid(b, StakeOf(ps[n], RecordOf(x.acc, n), d));
    }
  }

  lemma AccrueInv(x: Uptime, tick: int, ps: Positions, amt: DecCoins)
    requires Inv(x, tick, ps) && !AnyNegative(amt)
    ensures Inv(Accrue(x, amt), tick, ps)
  {
    var x' := Accrue(x, amt);
    UnfoldInv(x, tick, ps);
    UnfoldInv(x', tick, ps);
    NonNegative(amt);
    forall e ensures DenomOK(x', tick, ps, e) {
      AccrueDenom(x, tick, ps, amt, e);
    }
    forall n | n in ps ensures PlacedIn(x', ps[n], n) {
      assert PlacedIn(x, ps[n], n);
    }
  }

  /** An accrual is owed once for every unit of liquidity in range. */
  lemma AccrueOwed(x: Uptime, tick: int, ps: Positions, amt: DecCoins, d: string)
    requires Inv(x, tick, ps) && !AnyNegative(amt)
    ensures OwedOf(Accrue(x, amt), tick, ps, d) == OwedOf(x, tick, ps, d) + Amt(amt, d) * ActiveLiquidity(ps, tick)
  {
    assert BelowOf(Accrue(x, amt), tick, d) == Raised(BelowOf(x, tick, d), tick, Amt(amt, d)) by {
      UnfoldInv(x, tick, ps);
      NonNegative(amt);
      AccrueDenom(x, tick, ps, amt, d);
    }
    UnfoldOwed(x, tick, ps, d);
    UnfoldOwed(Accrue(x, amt), tick, ps, d);
    StakesPlaced(x, tick, ps, d);
    assert StakesOf(Accrue(x, amt), ps, d) == StakesOf(x, ps, d);
    RaisedOwed(BelowOf(x, tick, d), StakesOf(x, ps, d), tick, Amt(amt, d));
  }

  // ---------------------------------------------------------------------- ticks and crossing

  /** Same accumulator, and the same growth below every tick that a position stands on. */
  ghost predicate SameBelow(x: Uptime, tick: int, x': Uptime, tick': int, ps: Positions, d: string) {
    forall n | n in ps ::
      && Get(BelowOf(x', tick', d), ps[n].lower) == Get(BelowOf(x, tick, d), ps[n].lower)
      && Get(BelowOf(x', tick', d), ps[n].upper) == Get(BelowOf(x, tick, d), ps[n].upper)
  }

  /** Trackers may change in any way that keeps the growth below the ticks in use. */
  lemma RetrackedKeeps(x: Uptime, tick: int, x': Uptime, tick': int, ps: Positions)
    requires Inv(x, tick, ps) && x'.acc == x.acc
    requires forall n | n in ps :: ps[n].lower in x'.trackers && ps[n].upper in x'.trackers
    requires forall d :: SameBelow(x, tick, x', tick', ps, d)
    requires forall d :: TrackersIn(x', d)
    ensures Inv(x', tick', ps)
    ensures forall d :: OwedOf(x', tick', ps, d) == OwedOf(x, tick, ps, d)
  {
    UnfoldInv(x, tick, ps);
    UnfoldInv(x', tick', ps);
    forall n | n in ps ensures PlacedIn(x', ps[n], n) {
      assert PlacedIn(x, ps[n], n);
    }
    forall d
      ensures DenomOK(x', tick', ps, d) && OwedOf(x', tick', ps, d) == OwedOf(x, tick, ps, d)
    {
      RetrackedDenom(x, tick, x', tick', ps, d);
    }
  }

  lemma RetrackedDenom(x: Uptime, tick: int, x': Uptime, tick': int, ps: Positions, d: string)
    requires DenomOK(x, tick, ps, d) && x'.acc == x.acc && SameBelow(x, tick, x', tick', ps, d)
    requires TrackersIn(x', d)
    ensures DenomOK(x', tick', ps, d)
    ensures OwedOf(x', tick', ps, d) == OwedOf(x, tick, ps, d)
  {
    var b, b', ss := BelowOf(x, tick, d), BelowOf(x', tick', d), StakesOf(x, ps, d);
    assert ss == StakesOf(x', ps, d);
    forall n | n in ps
      ensures Growth(b', ss[n]) == Growth(b, ss[n])
      ensures Solid(b', StakeOf(ps[n], RecordOf(x'.acc, n), d))
    {
      assert Solid(b, StakeOf(ps[n], RecordOf(x.acc, n), d));
    }
    SameGrowthOwed(b, b', ss);
    UnfoldOwed(x, tick, ps, d);
    UnfoldOwed(x', tick', ps, d);
  }

  /** Crossing ticks in either direction changes nothing anyone is owed. */
  lemma CrossKeeps(x: Uptime, tick: int, tick': int, ps: Positions)
    requires Inv(x, tick, ps)
    ensures Inv(CrossTo(x, tick, tick'), tick', ps)
    ensures forall d :: OwedOf(CrossTo(x, tick, tick'), tick', ps, d) == OwedOf(x, tick, ps, d)
  {
    var x' := CrossTo(x, tick, tick');
    UnfoldInv(x, tick, ps);
    forall n | n in ps ensures ps[n].lower in x'.trackers && ps[n].upper in x'.trackers {
      assert PlacedIn(x, ps[n], n);
    }
    forall d
      ensures SameBelow(x, tick, x', tick', ps, d)
      ensures TrackersIn(x', d)
    {
      assert DenomOK(x, tick, ps, d);
      CrossTrackers(x, tick, tick', d);
      CrossBelow(x, tick, tick', d);
    }
    RetrackedKeeps(x, tick, x', tick', ps);
  }

  /** Flipping the one tick between the old and the new current tick never panics. */
  lemma FlipIsCross(x: Uptime, tick: int, tick': int, t: int, ps: Positions)
    requires Inv(x, tick, ps) && t in x.trackers
    requires forall s | s in x.trackers :: (tick < s) != (tick' < s) <==> s == t
    ensures Flip(x, t) == Ok(CrossTo(x, tick, tick'))
  {
    FromInv(x, tick, ps);
    var v := Minus(x.acc.value, x.trackers[t]);
    forall d ensures Amt(v, d) >= 0 {
      assert TrackersIn(x, d);
    }
    NonNegative(v);
    assert x.trackers[t := v] == CrossTo(x, tick, tick').trackers;
  }

  /** A move of the current tick past no initialised tick changes nothing. */
  lemma StayKeeps(x: Uptime, tick: int, tick': int, ps: Positions)
    requires Inv(x, tick, ps) && forall s | s in x.trackers :: (tick < s) == (tick' < s)
    ensures Inv(x, tick', ps) && forall d :: OwedOf(x, tick', ps, d) == OwedOf(x, tick, ps, d)
  {
    CrossKeeps(x, tick, tick', ps);
    assert CrossTo(x, tick, tick').trackers == x.trackers;
  }

  /** Without positions the current tick does not matter. */
  lemma NoPositions(x: Uptime, tick: int, tick': int, d: string)
    requires Inv(x, tick, map[])
    ensures Inv(x, tick', map[]) && OwedOf(x, tick', map[], d) == 0
  {
    UnfoldInv(x, tick, map[]);
    UnfoldInv(x, tick', map[]);
    forall e ensures DenomOK(x, tick', map[], e) {
      assert DenomOK(x, tick, map[], e);
    }
    UnfoldOwed(x, tick', map[], d);
    assert StakesOf(x, map[], d) == map[];
    assert Claims(BelowOf(x, tick', d), map[]) == map[];
  }

  lemma OwedNonNeg(x: Uptime, tick: int, ps: Positions, d: string)
    requires Inv(x, tick, ps)
    ensures OwedOf(x, tick, ps, d) >= 0
  {
    UnfoldInv(x, tick, ps);
    UnfoldOwed(x, tick, ps, d);
    assert DenomOK(x, tick, ps, d);
    OwedNonNegative(BelowOf(x, tick, d), StakesOf(x, ps, d));
  }

  /** Initialising a tick changes nothing anyone is owed. */
  lemma InitTickKeeps(x: Uptime, tick: int, t: int, ps: Positions)
    requires Inv(x, tick, ps)
    ensures Inv(InitTick(x, tick, t), tick, ps)
    ensures forall d :: OwedOf(InitTick(x, tick, t), tick, ps, d) == OwedOf(x, tick, ps, d)
  {
    var x' := InitTick(x, tick, t);
    UnfoldInv(x, tick, ps);
    forall n | n in ps ensures ps[n].lower in x'.trackers && ps[n].upper in x'.trackers {
      assert PlacedIn(x, ps[n], n);
    }
    forall d
      ensures SameBelow(x, tick, x', tick, ps, d)
      ensures TrackersIn(x', d)
    {
      assert DenomOK(x, tick, ps, d);
      forall n | n in ps
        ensures Get(BelowOf(x', tick, d), ps[n].lower) == Get(BelowOf(x, tick, d), ps[n].lower)
        ensures Get(BelowOf(x', tick, d), ps[n].upper) == Get(BelowOf(x, tick, d), ps[n].upper)
      {
        assert PlacedIn(x, ps[n], n);
      }
    }
    RetrackedKeeps(x, tick, x', tick, ps);
  }

  /** Nor does removing ticks no position stands on. */
  lemma DropTicksKeeps(x: Uptime, tick: int, ts: set<int>, ps: Positions)
    requires Inv(x, tick, ps) && forall n | n in ps :: ps[n].lower !in ts && ps[n].upper !in ts
    ensures Inv(x.(trackers := x.trackers - ts), tick, ps)
    ensures forall d :: OwedOf(x.(trackers := x.trackers - ts), tick, ps, d) == OwedOf(x, tick, ps, d)
  {
    var x' := x.(trackers := x.trackers - ts);
    UnfoldInv(x, tick, ps);
    forall n | n in ps ensures ps[n].lower in x'.trackers && ps[n].upper in x'.trackers {
      assert PlacedIn(x, ps[n], n);
    }
    forall d
      ensures SameBelow(x, tick, x', tick, ps, d)
      ensures TrackersIn(x', d)
    {
      assert DenomOK(x, tick, ps, d);
    }
    RetrackedKeeps(x, tick, x', tick, ps);
  }

  // ------------------------------------------------------------------- growth of one range

  /** Growth inside `[lower, upper)`, as a number. */
  ghost function GrowthIn(x: Uptime, tick: int, lower: int, upper: int, d: string): int {
    Get(BelowOf(x, tick, d), upper) - Get(BelowOf(x, tick, d), lower)
  }

  /** On initialised ticks neither growth query panics; inside is the difference of the
      growths below the two ticks, and inside plus outside is the global value. */
  lemma GrowthAmounts(x: Uptime, tick: int, lower: int, upper: int)
    requires lower < upper && lower in x.trackers && upper in x.trackers && forall d :: TrackersIn(x, d)
    ensures GrowthInside(x, tick, lower, upper).Ok? && GrowthOutside(x, tick, lower, upper).Ok?
    ensures forall d :: Amt(GrowthInside(x, tick, lower, upper).value, d) == GrowthIn(x, tick, lower, upper, d)
    ensures forall d :: Amt(GrowthOutside(x, tick, lower, upper).value, d)
                        == Amt(x.acc.value, d) - GrowthIn(x, tick, lower, upper, d)
  {
    var lt, ut := x.trackers[lower], x.trackers[upper];
    forall d ensures Amt(Minus(x.acc.value, ut), d) >= 0 {
      assert TrackersIn(x, d);
    }
    NonNegative(Minus(x.acc.value, ut));
    assert GrowthInside(x, tick, lower, upper).Ok?;
    var inside := GrowthInside(x, tick, lower, upper).value;
    forall d
      ensures Amt(inside, d) == GrowthIn(x, tick, lower, upper, d)
      ensures Amt(Minus(x.acc.value, inside), d) >= 0
    {
      assert TrackersIn(x, d);
    }
    NonNegative(Minus(x.acc.value, inside));
  }

  lemma CrossGrowth(x: Uptime, tick: int, tick': int, lower: int, upper: int, d: string)
    ensures GrowthIn(CrossTo(x, tick, tick'), tick', lower, upper, d) == GrowthIn(x, tick, lower, upper, d)
  {
    CrossBelow(x, tick, tick', d);
  }

  /** Crossing ticks leaves the growth below every tick as it was. */
  lemma CrossBelow(x: Uptime, tick: int, tick': int, d: string)
    ensures BelowOf(CrossTo(x, tick, tick'), tick', d) == BelowOf(x, tick, d)
  {
  }

  lemma AccrueGrowth(x: Uptime, tick: int, lower: int, upper: int, amt: DecCoins, d: string)
    requires lower < upper && lower in x.trackers && upper in x.trackers
    ensures GrowthIn(Accrue(x, amt), tick, lower, upper, d)
         == GrowthIn(x, tick, lower, upper, d) + (if lower <= tick < upper then Amt(amt, d) else 0)
  {
  }

  lemma CrossTrackers(x: Uptime, tick: int, tick': int, d: string)
    requires TrackersIn(x, d)
    ensures TrackersIn(CrossTo(x, tick, tick'), d)
  {
  }

  // ------------------------------------------------------------------ rewriting one record

  /** `x` with record `r` for position `n`. */
  ghost function Rerecorded(x: Uptime, n: string, r: Record, total: int): Uptime {
    x.(acc := Put(x.acc, n, r).(total := total))
  }

  /** The record of a position that was settled just now. */
  ghost predicate FreshRecord(x: Uptime, tick: int, pos: Position, r: Record) {
    && r.shares == pos.liquidity
    && (forall d :: Amt(r.snapshot, d) == GrowthIn(x, tick, pos.lower, pos.upper, d))
    && (forall d :: Amt(r.unclaimed, d) >= 0)
  }

  lemma RerecordedBelow(x: Uptime, tick: int, n: string, r: Record, total: int, d: string)
    ensures BelowOf(Rerecorded(x, n, r, total), tick, d) == BelowOf(x, tick, d)
  {
  }

  lemma RerecordedInv(x: Uptime, tick: int, ps: Positions, n: string, pos: Position, r: Record, total: int)
    requires Inv(x, tick, ps) && FreshRecord(x, tick, pos, r)
    requires pos.lower < pos.upper && pos.lower in x.trackers && pos.upper in x.trackers && pos.liquidity > 0
    ensures Inv(Rerecorded(x, n, r, total), tick, ps[n := pos])
  {
    var x', ps' := Rerecorded(x, n, r, total), ps[n := pos];
    UnfoldInv(x, tick, ps);
    UnfoldInv(x', tick, ps');
    forall m | m in ps' ensures PlacedIn(x', ps'[m], m) {
      assert m != n ==> PlacedIn(x, ps[m], m);
    }
    forall d ensures DenomOK(x', tick, ps', d) {
      assert DenomOK(x, tick, ps, d);
      RerecordedBelow(x, tick, n, r, total, d);
      forall m | m in ps'
        ensures Solid(BelowOf(x', tick, d), StakeOf(ps'[m], RecordOf(x'.acc, m), d))
      {
        if m != n {
          assert Solid(BelowOf(x, tick, d), StakeOf(ps[m], RecordOf(x.acc, m), d));
        }
      }
    }
  }

  lemma RerecordedOwed(x: Uptime, tick: int, ps: Positions, n: string, pos: Position, r: Record, total: int, d: string)
    requires FreshRecord(x, tick, pos, r)
    ensures OwedOf(Rerecorded(x, n, r, total), tick, ps[n := pos], d) == OwedOf(x, tick, ps, d) + ONE18 * Amt(r.unclaimed, d)
              - (if n in ps then Claimable(BelowOf(x, tick, d), StakeOf(ps[n], RecordOf(x.acc, n), d)) else 0)
  {
    var x' := Rerecorded(x, n, r, total);
    RerecordedBelow(x, tick, n, r, total, d);
    assert StakesOf(x', ps[n := pos], d) == StakesOf(x, ps, d)[n := StakeOf(pos, r, d)];
    PutOwed(BelowOf(x, tick, d), StakesOf(x, ps, d), n, StakeOf(pos, r, d));
    FreshClaim(BelowOf(x, tick, d), StakeOf(pos, r, d));
    UnfoldOwed(x, tick, ps, d);
    UnfoldOwed(x', tick, ps[n := pos], d);
  }

  /** Once a position is gone, its record no longer matters. */
  lemma ForgottenKeeps(x: Uptime, tick: int, ps: Positions, n: string, r: Record, total: int, d: string)
    requires Inv(x, tick, ps) && n in ps
    ensures Inv(Rerecorded(x, n, r, total), tick, ps - {n})
    ensures OwedOf(Rerecorded(x, n, r, total), tick, ps - {n}, d)
         == OwedOf(x, tick, ps, d) - Claimable(BelowOf(x, tick, d), StakeOf(ps[n], RecordOf(x.acc, n), d))
  {
    var x', ps' := Rerecorded(x, n, r, total), ps - {n};
    UnfoldInv(x, tick, ps);
    UnfoldInv(x', tick, ps');
    forall m | m in ps' ensures PlacedIn(x', ps'[m], m) {
      assert PlacedIn(x, ps[m], m);
    }
    forall e ensures DenomOK(x', tick, ps', e) {
      assert DenomOK(x, tick, ps, e);
      RerecordedBelow(x, tick, n, r, total, e);
      forall m | m in ps'
        ensures Solid(BelowOf(x', tick, e), StakeOf(ps'[m], RecordOf(x'.acc, m), e))
      {
        assert Solid(BelowOf(x, tick, e), StakeOf(ps[m], RecordOf(x.acc, m), e));
      }
    }
    RerecordedBelow(x, tick, n, r, total, d);
    assert StakesOf(x', ps', d) == StakesOf(x, ps, d) - {n};
    DropOwed(BelowOf(x, tick, d), StakesOf(x, ps, d), n);
    UnfoldOwed(x, tick, ps, d);
    UnfoldOwed(x', tick, ps', d);
  }

  // -------------------------------------------------------------- joining, resizing, claiming

  /** The stake of position `n` in denomination `d`. */
  ghost function StakeAt(x: Uptime, ps: Positions, n: string, d: string): Stake
    requires n in ps
  {
    StakeOf(ps[n], RecordOf(x.acc, n), d)
  }

  /** Raising the snapshot by the growth outside makes the accumulator's own subtraction
      yield the growth inside since the last update, which is never negative: rewards are
      the stake settled at this moment. */
  lemma RewardsAreSettled(x: Uptime, tick: int, ps: Positions, n: string, outside: DecCoins)
    requires Inv(x, tick, ps) && n in ps
    requires GrowthOutside(x, tick, ps[n].lower, ps[n].upper) == Ok(outside)
    ensures AddOutside(x, n, outside).Ok?
    ensures var y := AddOutside(x, n, outside).value;
            && y == x.(acc := Put(x.acc, n, x.acc.positions[n].(snapshot := Plus(x.acc.positions[n].snapshot, outside))))
            && TotalRewards(y.acc, y.acc.positions[n]).Ok?
            && forall d :: Amt(TotalRewards(y.acc, y.acc.positions[n]).value, d)
                           == Settled(BelowOf(x, tick, d), StakeAt(x, ps, n, d))
  {
    UnfoldInv(x, tick, ps);
    assert PlacedIn(x, ps[n], n);
    forall d ensures TrackersIn(x, d) {
      assert DenomOK(x, tick, ps, d);
    }
    GrowthAmounts(x, tick, ps[n].lower, ps[n].upper);
    var r := x.acc.positions[n];
    var r' := r.(snapshot := Plus(r.snapshot, outside));
    var growth := Minus(x.acc.value, r'.snapshot);
    forall d
      ensures Amt(growth, d) == GrowthIn(x, tick, ps[n].lower, ps[n].upper, d) - Amt(r.snapshot, d)
      ensures Amt(growth, d) >= 0
    {
      assert DenomOK(x, tick, ps, d);
      assert Solid(BelowOf(x, tick, d), StakeOf(ps[n], RecordOf(x.acc, n), d));
    }
    NonNegative(growth);
  }

  /** `r` is the fresh record of position `pos`, with the given unclaimed rewards. */
  lemma FreshAtGrowth(x: Uptime, tick: int, pos: Position, r: Record, inside: DecCoins)
    requires r.shares == pos.liquidity && r.snapshot == inside
    requires forall d :: Amt(inside, d) == GrowthIn(x, tick, pos.lower, pos.upper, d)
    requires forall d :: Amt(r.unclaimed, d) >= 0
    ensures FreshRecord(x, tick, pos, r)
  {
  }

  /** A new position starts with nothing owed. */
  lemma JoinKeeps(x: Uptime, tick: int, ps: Positions, n: string, pos: Position, d: string)
    requires Inv(x, tick, ps) && n !in ps
    requires pos.lower < pos.upper && pos.lower in x.trackers && pos.upper in x.trackers && pos.liquidity > 0
    ensures Join(x, tick, n, pos).Ok?
    ensures var x' := Join(x, tick, n, pos).value;
            Inv(x', tick, ps[n := pos]) && OwedOf(x', tick, ps[n := pos], d) == OwedOf(x, tick, ps, d)
  {
    FromInv(x, tick, ps);
    GrowthAmounts(x, tick, pos.lower, pos.upper);
    var inside := GrowthInside(x, tick, pos.lower, pos.upper).value;
    var r := Record(pos.liquidity, inside, map[]);
    FreshAtGrowth(x, tick, pos, r, inside);
    RerecordedInv(x, tick, ps, n, pos, r, x.acc.total + pos.liquidity);
    RerecordedOwed(x, tick, ps, n, pos, r, x.acc.total + pos.liquidity, d);
  }

  /** What a claim takes from this accumulator: the settled rewards. */
  ghost function SettledIn(x: Uptime, tick: int, ps: Positions, n: string, d: string): int
    requires n in ps
  {
    Settled(BelowOf(x, tick, d), StakeAt(x, ps, n, d))
  }

  /** The steps of a claim, put together. */
  lemma ClaimSteps(x: Uptime, n: string, outside: DecCoins, y: Uptime, rewards: DecCoins)
    requires n in x.acc.positions && x.acc.positions[n].shares != 0 && AddOutside(x, n, outside) == Ok(y)
    requires y == x.(acc := Put(x.acc, n, x.acc.positions[n].(snapshot := Plus(x.acc.positions[n].snapshot, outside))))
    requires TotalRewards(y.acc, y.acc.positions[n]) == Ok(rewards)
    ensures var r := Record(x.acc.positions[n].shares, Minus(x.acc.value, outside), map[]);
            ClaimRewards(x, n, outside) == Ok(Claimed(Rerecorded(x, n, r, x.acc.total), Whole(rewards)))
  {
    var r := Record(x.acc.positions[n].shares, Minus(x.acc.value, outside), map[]);
    ClaimedShape(y.acc, n, rewards);
    var y0, mid := y.acc.positions[n], Record(r.shares, x.acc.value, map[]);
    UpdateTwice(x.acc.positions, n, y0, mid);
    UpdateTwice(x.acc.positions, n, mid, r);
  }

  /** The record a claim leaves behind. */
  ghost function ClaimedRecord(x: Uptime, tick: int, pos: Position): Record
    requires GrowthOutside(x, tick, pos.lower, pos.upper).Ok?
  {
    Record(pos.liquidity, Minus(x.acc.value, GrowthOutside(x, tick, pos.lower, pos.upper).value), map[])
  }

  /** A claim never fails on a live position; it pays the whole part of the settled rewards
      and leaves the snapshot at the growth inside the range. */
  lemma CollectShape(x: Uptime, tick: int, ps: Positions, n: string)
    requires Inv(x, tick, ps) && n in ps
    ensures Collect(x, tick, n, ps[n]).Ok? && GrowthOutside(x, tick, ps[n].lower, ps[n].upper).Ok?
    ensures FreshRecord(x, tick, ps[n], ClaimedRecord(x, tick, ps[n]))
    ensures var c := Collect(x, tick, n, ps[n]).value;
            && c.after == Rerecorded(x, n, ClaimedRecord(x, tick, ps[n]), x.acc.total)
            && forall d :: Amt(c.coins, d) == Quo(SettledIn(x, tick, ps, n, d), ONE18)
  {
    FromInv(x, tick, ps);
    var pos := ps[n];
    assert PlacedIn(x, pos, n);
    GrowthAmounts(x, tick, pos.lower, pos.upper);
    var outside := GrowthOutside(x, tick, pos.lower, pos.upper).value;
    RewardsAreSettled(x, tick, ps, n, outside);
    FreshAtGrowth(x, tick, pos, ClaimedRecord(x, tick, pos), Minus(x.acc.value, outside));
    var y := AddOutside(x, n, outside).value;
    ClaimSteps(x, n, outside, y, TotalRewards(y.acc, y.acc.positions[n]).value);
  }

  /** Within half a unit, a claim moves what the position was owed into settled rewards. */
  lemma CollectKeeps(x: Uptime, tick: int, ps: Positions, n: string, d: string)
    requires Inv(x, tick, ps) && n in ps
    ensures Collect(x, tick, n, ps[n]).Ok? && Inv(Collect(x, tick, n, ps[n]).value.after, tick, ps)
    ensures var c := Collect(x, tick, n, ps[n]).value;
            && SettledIn(x, tick, ps, n, d) >= 0
            && Amt(c.coins, d) == Quo(SettledIn(x, tick, ps, n, d), ONE18)
            && -ONE18 <= 2 * (ONE18 * SettledIn(x, tick, ps, n, d) + OwedOf(c.after, tick, ps, d) - OwedOf(x, tick, ps, d)) <= ONE18
  {
    CollectShape(x, tick, ps, n);
    var r := ClaimedRecord(x, tick, ps[n]);
    PlacedTicks(x, tick, ps, n);
    RerecordedInv(x, tick, ps, n, ps[n], r, x.acc.total);
    RerecordedOwed(x, tick, ps, n, ps[n], r, x.acc.total, d);
    UpdateSelf(ps, n);
    SettledIsNear(x, tick, ps, n, d);
  }

  lemma SettledIsNear(x: Uptime, tick: int, ps: Positions, n: string, d: string)
    requires Inv(x, tick, ps) && n in ps
    ensures SettledIn(x, tick, ps, n, d) >= 0
    ensures -ONE18 <= 2 * (ONE18 * SettledIn(x, tick, ps, n, d) - Claimable(BelowOf(x, tick, d), StakeAt(x, ps, n, d))) <= ONE18
  {
    SettledNear(BelowOf(x, tick, d), StakeAt(x, ps, n, d));
    StakeIsSolid(x, tick, ps, n, d);
    SettledNonNegative(BelowOf(x, tick, d), StakeAt(x, ps, n, d));
  }

  lemma PlacedTicks(x: Uptime, tick: int, ps: Positions, n: string)
    requires Inv(x, tick, ps) && n in ps
    ensures PlacedIn(x, ps[n], n)
  {
    UnfoldInv(x, tick, ps);
  }

  lemma StakeIsSolid(x: Uptime, tick: int, ps: Positions, n: string, d: string)
    requires Inv(x, tick, ps) && n in ps
    ensures Solid(BelowOf(x, tick, d), StakeAt(x, ps, n, d))
  {
    UnfoldInv(x, tick, ps);
    assert DenomOK(x, tick, ps, d);
  }

  /** The steps of a liquidity change, put together. */
  lemma ResizeSteps(x: Uptime, n: string, delta: int, inside: DecCoins, outside: DecCoins, y: Uptime, rewards: DecCoins)
    requires n in x.acc.positions && AddOutside(x, n, outside) == Ok(y)
    requires delta != 0 && x.acc.positions[n].shares + delta >= 0
    requires y == x.(acc := Put(x.acc, n, x.acc.positions[n].(snapshot := Plus(x.acc.positions[n].snapshot, outside))))
    requires TotalRewards(y.acc, y.acc.positions[n]) == Ok(rewards)
    ensures var r := Record(x.acc.positions[n].shares + delta, inside, rewards);
            Resized(y.acc, n, delta, inside) == Ok(Put(x.acc, n, r).(total := x.acc.total + delta))
  {
    var r := Record(x.acc.positions[n].shares + delta, inside, rewards);
    UpdateTwice(x.acc.positions, n, y.acc.positions[n], r);
  }

  /** The record a liquidity change leaves behind. */
  ghost function ResizedRecord(x: Uptime, tick: int, pos: Position, delta: int, rewards: DecCoins): Record
    requires GrowthInside(x, tick, pos.lower, pos.upper).Ok?
  {
    Record(pos.liquidity + delta, GrowthInside(x, tick, pos.lower, pos.upper).value, rewards)
  }

  /** A liquidity change never fails on a live position that has that much; it keeps the
      settled rewards as unclaimed and moves the snapshot to the growth inside the range. */
  lemma ResizeShape(x: Uptime, tick: int, ps: Positions, n: string, delta: int) returns (rewards: DecCoins)
    requires Inv(x, tick, ps) && n in ps && delta != 0 && ps[n].liquidity + delta >= 0
    ensures GrowthInside(x, tick, ps[n].lower, ps[n].upper).Ok?
    ensures Resize(x, tick, n, ps[n], delta)
         == Ok(Rerecorded(x, n, ResizedRecord(x, tick, ps[n], delta, rewards), x.acc.total + delta))
    ensures FreshRecord(x, tick, ps[n].(liquidity := ps[n].liquidity + delta), ResizedRecord(x, tick, ps[n], delta, rewards))
    ensures forall d :: Amt(rewards, d) == SettledIn(x, tick, ps, n, d)
  {
    FromInv(x, tick, ps);
    var pos := ps[n];
    assert PlacedIn(x, pos, n);
    GrowthAmounts(x, tick, pos.lower, pos.upper);
    var inside := GrowthInside(x, tick, pos.lower, pos.upper).value;
    var outside := GrowthOutside(x, tick, pos.lower, pos.upper).value;
    RewardsAreSettled(x, tick, ps, n, outside);
    var y := AddOutside(x, n, outside).value;
    rewards := TotalRewards(y.acc, y.acc.positions[n]).value;
    ResizeSteps(x, n, delta, inside, outside, y, rewards);
    forall d ensures Amt(rewards, d) >= 0 {
      SettledIsNear(x, tick, ps, n, d);
    }
    FreshAtGrowth(x, tick, pos.(liquidity := pos.liquidity + delta), ResizedRecord(x, tick, pos, delta, rewards), inside);
  }

  /** A record of the settled rewards keeps what is owed, within half a unit. */
  lemma ResettledKeeps(x: Uptime, tick: int, ps: Positions, n: string, pos: Position, r: Record, total: int, d: string)
    requires Inv(x, tick, ps) && n in ps && FreshRecord(x, tick, pos, r) && Amt(r.unclaimed, d) == SettledIn(x, tick, ps, n, d)
    requires pos.lower == ps[n].lower && pos.upper == ps[n].upper && pos.liquidity > 0
    ensures var x', ps' := Rerecorded(x, n, r, total), ps[n := pos];
            && Inv(x', tick, ps')
            && -ONE18 <= 2 * (OwedOf(x', tick, ps', d) - OwedOf(x, tick, ps, d)) <= ONE18
  {
    PlacedTicks(x, tick, ps, n);
    RerecordedInv(x, tick, ps, n, pos, r, total);
    ResettledOwed(x, tick, ps, n, pos, r, total, d);
  }

  lemma ResizeRecords(x: Uptime, tick: int, ps: Positions, n: string, delta: int, pos: Position, d: string)
    returns (r: Record)
    requires Inv(x, tick, ps) && n in ps && delta != 0 && pos == ps[n].(liquidity := ps[n].liquidity + delta)
    requires pos.liquidity >= 0
    ensures Resize(x, tick, n, ps[n], delta) == Ok(Rerecorded(x, n, r, x.acc.total + delta))
    ensures FreshRecord(x, tick, pos, r) && Amt(r.unclaimed, d) == SettledIn(x, tick, ps, n, d)
  {
    var rewards := ResizeShape(x, tick, ps, n, delta);
    r := ResizedRecord(x, tick, ps[n], delta, rewards);
  }

  /** A liquidity change keeps what is owed, within half a unit. */
  lemma ResizeKeeps(x: Uptime, tick: int, ps: Positions, n: string, delta: int, d: string)
    requires Inv(x, tick, ps) && n in ps && delta != 0 && ps[n].liquidity + delta > 0
    ensures Resize(x, tick, n, ps[n], delta).Ok?
    ensures var x', ps' := Resize(x, tick, n, ps[n], delta).value, ps[n := ps[n].(liquidity := ps[n].liquidity + delta)];
            && Inv(x', tick, ps')
            && -ONE18 <= 2 * (OwedOf(x', tick, ps', d) - OwedOf(x, tick, ps, d)) <= ONE18
  {
    var pos := ps[n].(liquidity := ps[n].liquidity + delta);
    var r := ResizeRecords(x, tick, ps, n, delta, pos, d);
    ResettledKeeps(x, tick, ps, n, pos, r, x.acc.total + delta, d);
  }

  lemma ResettledOwed(x: Uptime, tick: int, ps: Positions, n: string, pos: Position, r: Record, total: int, d: string)
    requires Inv(x, tick, ps) && n in ps && FreshRecord(x, tick, pos, r)
    requires Amt(r.unclaimed, d) == SettledIn(x, tick, ps, n, d)
    ensures -ONE18 <= 2 * (OwedOf(Rerecorded(x, n, r, total), tick, ps[n := pos], d) - OwedOf(x, tick, ps, d)) <= ONE18
  {
    var claim := Claimable(BelowOf(x, tick, d), StakeAt(x, ps, n, d));
    assert -ONE18 <= 2 * (ONE18 * Amt(r.unclaimed, d) - claim) <= ONE18 by {
      SettledIsNear(x, tick, ps, n, d);
    }
    RerecordedOwed(x, tick, ps, n, pos, r, total, d);
    OwedShift(OwedOf(x, tick, ps, d), Amt(r.unclaimed, d), claim);
  }

  lemma OwedShift(owed: int, settled: int, claim: int)
    requires -ONE18 <= 2 * (ONE18 * settled - claim) <= ONE18
    ensures -ONE18 <= 2 * (owed + ONE18 * settled - claim - owed) <= ONE18
  {
  }

  /** Withdrawing everything leaves the others untouched. */
  lemma LeaveKeeps(x: Uptime, tick: int, ps: Positions, n: string, delta: int, d: string)
    requires Inv(x, tick, ps) && n in ps && ps[n].liquidity + delta == 0
    ensures Resize(x, tick, n, ps[n], delta).Ok?
    ensures var x' := Resize(x, tick, n, ps[n], delta).value;
            && Inv(x', tick, ps - {n})
            && OwedOf(x', tick, ps - {n}, d)
               == OwedOf(x, tick, ps, d) - Claimable(BelowOf(x, tick, d), StakeAt(x, ps, n, d))
  {
    PlacedTicks(x, tick, ps, n);
    var r := ResizeRecords(x, tick, ps, n, delta, ps[n].(liquidity := 0), d);
    ForgottenKeeps(x, tick, ps, n, r, x.acc.total + delta, d);
  }

  /** Nothing to settle, nothing set aside. */
  lemma NothingClaimable(x: Uptime, tick: int, ps: Positions, n: string, d: string)
    requires Inv(x, tick, ps) && n in ps && Claimable(BelowOf(x, tick, d), StakeAt(x, ps, n, d)) == 0
    ensures SettledIn(x, tick, ps, n, d) == 0 && Amt(RecordOf(x.acc, n).unclaimed, d) == 0
  {
    StakeIsSolid(x, tick, ps, n, d);
    SolidZero(BelowOf(x, tick, d), StakeAt(x, ps, n, d));
  }

  /** A liquidity change of a position with nothing to claim changes nothing that is owed. */
  lemma IdleResize(x: Uptime, tick: int, ps: Positions, n: string, delta: int, d: string)
    requires Inv(x, tick, ps) && n in ps && delta != 0 && ps[n].liquidity + delta > 0
    requires Claimable(BelowOf(x, tick, d), StakeAt(x, ps, n, d)) == 0
    ensures Resize(x, tick, n, ps[n], delta).Ok?
    ensures var x', ps' := Resize(x, tick, n, ps[n], delta).value, ps[n := ps[n].(liquidity := ps[n].liquidity + delta)];
            OwedOf(x', tick, ps', d) == OwedOf(x, tick, ps, d) && Amt(RecordOf(x'.acc, n).unclaimed, d) == 0
  {
    var rewards := ResizeShape(x, tick, ps, n, delta);
    NothingClaimable(x, tick, ps, n, d);
    var pos, r := ps[n].(liquidity := ps[n].liquidity + delta), ResizedRecord(x, tick, ps[n], delta, rewards);
    RerecordedOwed(x, tick, ps, n, pos, r, x.acc.total + delta, d);
  }

  // ------------------------------------------------------------------------ repeated claims

  /** A position that has just claimed has nothing left to claim. */
  lemma ClaimedOwesNothing(x: Uptime, tick: int, ps: Positions, n: string, d: string)
    requires Inv(x, tick, ps) && n in ps
    ensures Collect(x, tick, n, ps[n]).Ok?
    ensures var x' := Collect(x, tick, n, ps[n]).value.after;
            Claimable(BelowOf(x', tick, d), StakeAt(x', ps, n, d)) == 0 && SettledIn(x', tick, ps, n, d) == 0
  {
    CollectShape(x, tick, ps, n);
    var r := ClaimedRecord(x, tick, ps[n]);
    RerecordedBelow(x, tick, n, r, x.acc.total, d);
    FreshClaim(BelowOf(x, tick, d), StakeOf(ps[n], r, d));
    assert RoundHalfEven(0, ONE18) == 0;
  }

  /** An immediate second claim pays nothing. */
  lemma SecondClaimPaysNothing(x: Uptime, tick: int, ps: Positions, n: string)
    requires Inv(x, tick, ps) && n in ps
    ensures Collect(x, tick, n, ps[n]).Ok?
    ensures var again := Collect(Collect(x, tick, n, ps[n]).value.after, tick, n, ps[n]);
            again.Ok? && forall d :: Amt(again.value.coins, d) == 0
  {
    CollectKeeps(x, tick, ps, n, "");
    var x' := Collect(x, tick, n, ps[n]).value.after;
    CollectShape(x', tick, ps, n);
    forall d ensures Amt(Collect(x', tick, n, ps[n]).value.coins, d) == 0 {
      ClaimedOwesNothing(x, tick, ps, n, d);
    }
  }
}
