/** The things the pool does to each of its uptime accumulators, one by one, and what
    each keeps. */
module UptimeActs {
  import opened FixedPoint
  import opened Coins
  import opened Folding
  import opened Options
  import opened AccumulatorState
  import opened Emission
  import opened Stakes
  import opened UptimeAccumulator
  import opened Migration

  datatype Act =
    | Rest
    | Raise(amt: DecCoins)
    | Return(coins: DecCoins, liquidity: int)
    | Init(pos: Position)
    | Enter(n: string, pos: Position)
    | Change(n: string, pos: Position, delta: int)
    | Take(n: string, pos: Position)
    | Turn(t: int)
    | Forget(gone: set<int>)
    | Magnify(names: set<string>)

  /** Forfeited coins per unit of liquidity. */
  function Redeposit(c: DecCoins, liquidity: int): (r: DecCoins)
    requires liquidity > 0
    ensures forall d {:trigger Amt(r, d)} :: Amt(r, d) == PerLiquidity(Amt(c, d) * ONE18, liquidity)
  {
    assert PerLiquidity(0 * ONE18, liquidity) == 0 by { assert 0 / liquidity == 0; }
    map d | d in c :: PerLiquidity(c[d] * ONE18, liquidity)
  }

  /** `redepositForfeitedIncentives` for one accumulator: nothing forfeited, nothing added. */
  function Redeposited(x: Uptime, c: DecCoins, liquidity: int): Uptime
    requires liquidity > 0
  {
    if forall d | d in c :: c[d] == 0 then x else Accrue(x, Redeposit(c, liquidity))
  }

  /** Initialises the bounds of a position where they are not. */
  function InitBounds(x: Uptime, tick: int, pos: Position): Uptime {
    InitTick(InitTick(x, tick, pos.lower), tick, pos.upper)
  }

  /** One act on one accumulator, with the whole scaled coins it yields. */
  function Acted(x: Uptime, tick: int, a: Act): Result<Claimed, Error> {
    match a
    case Rest => Ok(Claimed(x, map[]))
    case Raise(amt) => Ok(Claimed(Accrue(x, amt), map[]))
    case Return(c, liquidity) => if liquidity <= 0 then Err(Panicked) else Ok(Claimed(Redeposited(x, c, liquidity), map[]))
    case Init(pos) => Ok(Claimed(InitBounds(x, tick, pos), map[]))
    case Enter(n, pos) => var y :- Join(x, tick, n, pos); Ok(Claimed(y, map[]))
    case Change(n, pos, delta) => var y :- Resize(x, tick, n, pos, delta); Ok(Claimed(y, map[]))
    case Take(n, pos) => if n !in x.acc.positions then Ok(Claimed(x, map[])) else Collect(x, tick, n, pos)
    case Turn(t) => if t !in x.trackers then Err(Panicked) else var y :- Flip(x, t); Ok(Claimed(y, map[]))
    case Forget(gone) => Ok(Claimed(x.(trackers := x.trackers - gone), map[]))
    case Magnify(names) => if exists n | n in names :: n !in x.acc.positions then Err(NoPosition) else Ok(Claimed(Migrated(x, names), map[]))
  }

  ghost function ActedTuple(y: (Uptime, int, Act)): Result<Claimed, Error> { Acted(y.0, y.1, y.2) }

  /** `Acted`, kept folded. */
  ghost function Do(x: Uptime, tick: int, a: Act): Result<Claimed, Error> {
    FoldedFn(ActedTuple)((x, tick, a))
  }

  lemma UnfoldDo(x: Uptime, tick: int, a: Act)
    ensures Do(x, tick, a) == Acted(x, tick, a)
  {
    UnfoldFn(ActedTuple, (x, tick, a));
  }

  // --------------------------------------------------------------------------- invariant

  /** What one accumulator is judged against: the current tick, the positions and the initialised ticks. */
  datatype Scene = Scene(tick: int, positions: Positions, ticks: set<int>)

  ghost predicate ClearPair(y: (Uptime, Positions)) { NothingUnclaimed(y.0, y.1) }

  /** `NothingUnclaimed`, kept folded. */
  ghost predicate Clear(x: Uptime, ps: Positions) { Folded(ClearPair)((x, ps)) }

  lemma UnfoldClear(x: Uptime, ps: Positions)
    ensures Clear(x, ps) <==> NothingUnclaimed(x, ps)
  {
    Unfold(ClearPair, (x, ps));
  }

  ghost predicate GoodPair(y: (Uptime, Scene)) {
    UptimeAccumulator.Inv(y.0, y.1.tick, y.1.positions) && y.0.trackers.Keys == y.1.ticks && Clear(y.0, y.1.positions)
  }

  /** Sound, tracking exactly the initialised ticks, and without unclaimed rewards of any live
      position; kept folded. */
  ghost predicate Good(x: Uptime, s: Scene) { Folded(GoodPair)((x, s)) }

  lemma UnfoldGood(x: Uptime, s: Scene)
    ensures Good(x, s) <==> UptimeAccumulator.Inv(x, s.tick, s.positions) && x.trackers.Keys == s.ticks && Clear(x, s.positions)
  {
    Unfold(GoodPair, (x, s));
  }

  ghost function OwedIn(x: Uptime, s: Scene, d: string): int { OwedOf(x, s.tick, s.positions, d) }

  ghost predicate IdleTriple(y: (Uptime, Scene, string)) {
    y.2 in y.1.positions
    && forall d {:trigger StakeAt(y.0, y.1.positions, y.2, d)} ::
         Claimable(BelowOf(y.0, y.1.tick, d), StakeAt(y.0, y.1.positions, y.2, d)) == 0
  }

  /** The position is owed nothing here at this moment; kept folded. */
  ghost predicate Idle(x: Uptime, s: Scene, n: string) { Folded(IdleTriple)((x, s, n)) }

  lemma UnfoldIdle(x: Uptime, s: Scene, n: string)
    ensures Idle(x, s, n) <==> IdleTriple((x, s, n))
  {
    Unfold(IdleTriple, (x, s, n));
  }

  /** An act succeeds, keeps the accumulator good, and moves value as it should: twice what is
      owed after it, with the coins yielded, differs from twice what was owed by `lo` to `hi`. */
  ghost predicate KeepsTuple(y: (Uptime, Scene, Act, Scene, string, int, int)) {
    var (x, s, a, s', d, lo, hi) := y;
    && Do(x, s.tick, a).Ok?
    && var c := Do(x, s.tick, a).value;
       && Good(c.after, s') && !AnyNegative(c.coins)
       && lo <= 2 * (ONE18 * (ONE18 * Amt(c.coins, d)) + OwedIn(c.after, s', d) - OwedIn(x, s, d)) <= hi
  }

  ghost predicate Keeps(x: Uptime, s: Scene, a: Act, s': Scene, d: string, lo: int, hi: int) {
    Folded(KeepsTuple)((x, s, a, s', d, lo, hi))
  }

  lemma UnfoldKeeps(x: Uptime, s: Scene, a: Act, s': Scene, d: string, lo: int, hi: int)
    ensures Keeps(x, s, a, s', d, lo, hi) <==> KeepsTuple((x, s, a, s', d, lo, hi))
  {
    Unfold(KeepsTuple, (x, s, a, s', d, lo, hi));
  }

  lemma KeepsIf(x: Uptime, s: Scene, a: Act, y: Uptime, coins: DecCoins, s': Scene, d: string, lo: int, hi: int)
    requires Acted(x, s.tick, a) == Ok(Claimed(y, coins)) && !AnyNegative(coins)
    requires UptimeAccumulator.Inv(y, s'.tick, s'.positions) && y.trackers.Keys == s'.ticks && Clear(y, s'.positions)
    requires lo <= 2 * (ONE18 * (ONE18 * Amt(coins, d)) + OwedOf(y, s'.tick, s'.positions, d) - OwedOf(x, s.tick, s.positions, d)) <= hi
    ensures Keeps(x, s, a, s', d, lo, hi)
  {
    UnfoldDo(x, s.tick, a);
    UnfoldGood(y, s');
    UnfoldKeeps(x, s, a, s', d, lo, hi);
  }

  lemma KeepsIfUnpaid(x: Uptime, s: Scene, a: Act, y: Uptime, s': Scene, d: string, lo: int, hi: int)
    requires Acted(x, s.tick, a) == Ok(Claimed(y, map[]))
    requires UptimeAccumulator.Inv(y, s'.tick, s'.positions) && y.trackers.Keys == s'.ticks && Clear(y, s'.positions)
    requires lo <= 2 * (OwedOf(y, s'.tick, s'.positions, d) - OwedOf(x, s.tick, s.positions, d)) <= hi
    ensures Keeps(x, s, a, s', d, lo, hi)
  {
    KeepsIf(x, s, a, y, map[], s', d, lo, hi);
  }

  /** The records are the same, so nothing is unclaimed as before. */
  lemma SameRecordsClear(x: Uptime, y: Uptime, ps: Positions)
    requires Clear(x, ps) && y.acc.positions == x.acc.positions
    ensures Clear(y, ps)
  {
    UnfoldClear(x, ps);
    UnfoldClear(y, ps);
    forall n, d | n in ps ensures Unclaimed(y, n, d) == 0 {
      assert Unclaimed(x, n, d) == 0;
    }
  }

  /** One record is replaced by one without unclaimed rewards. */
  lemma RerecordedClear(x: Uptime, ps: Positions, n: string, r: Record, total: int, ps': Positions)
    requires Clear(x, ps) && (forall d :: Amt(r.unclaimed, d) == 0) && forall k | k in ps' :: k == n || k in ps
    ensures Clear(Rerecorded(x, n, r, total), ps')
  {
    UnfoldClear(x, ps);
    UnfoldClear(Rerecorded(x, n, r, total), ps');
    forall k, d | k in ps' ensures Unclaimed(Rerecorded(x, n, r, total), k, d) == 0 {
      assert k != n ==> Unclaimed(x, k, d) == 0;
    }
  }

  // ------------------------------------------------------------------------------- acts

  lemma RestKeeps(x: Uptime, s: Scene, tick': int, d: string)
    requires Good(x, s) && forall t | t in s.ticks :: (s.tick < t) == (tick' < t)
    ensures Keeps(x, s, Rest, s.(tick := tick'), d, 0, 0)
  {
    UnfoldGood(x, s);
    StayKeeps(x, s.tick, tick', s.positions);
    KeepsIfUnpaid(x, s, Rest, x, s.(tick := tick'), d, 0, 0);
  }

  lemma RestEmptyKeeps(x: Uptime, s: Scene, tick': int, d: string)
    requires Good(x, s) && s.positions == map[]
    ensures Keeps(x, s, Rest, s.(tick := tick'), d, 0, 0)
  {
    UnfoldGood(x, s);
    NoPositions(x, s.tick, tick', d);
    NoPositions(x, s.tick, s.tick, d);
    KeepsIfUnpaid(x, s, Rest, x, s.(tick := tick'), d, 0, 0);
  }

  lemma RaiseKeeps(x: Uptime, s: Scene, amt: DecCoins, d: string)
    requires Good(x, s) && !AnyNegative(amt)
    ensures var gain := 2 * (Amt(amt, d) * ActiveLiquidity(s.positions, s.tick));
            Keeps(x, s, Raise(amt), s, d, gain, gain)
  {
    UnfoldGood(x, s);
    AccrueInv(x, s.tick, s.positions, amt);
    AccrueOwed(x, s.tick, s.positions, amt, d);
    SameRecordsClear(x, Accrue(x, amt), s.positions);
    var gain := 2 * (Amt(amt, d) * ActiveLiquidity(s.positions, s.tick));
    KeepsIfUnpaid(x, s, Raise(amt), Accrue(x, amt), s, d, gain, gain);
  }

  lemma RedepositNonNegative(c: DecCoins, liquidity: int)
    requires liquidity > 0 && !AnyNegative(c)
    ensures !AnyNegative(Redeposit(c, liquidity))
  {
    NonNegative(c);
    forall e ensures Amt(Redeposit(c, liquidity), e) >= 0 {
      PerLiquidityBounds(Amt(c, e) * ONE18, liquidity);
    }
    NonNegative(Redeposit(c, liquidity));
  }

  /** Forfeited coins go back to the liquidity in range: no more than there were, and short by
      less than a unit per liquidity. */
  lemma ReturnKeeps(x: Uptime, s: Scene, c: DecCoins, d: string)
    requires Good(x, s) && !AnyNegative(c) && ActiveLiquidity(s.positions, s.tick) > 0
    ensures var l, gain := ActiveLiquidity(s.positions, s.tick), 2 * (ONE18 * (ONE18 * Amt(c, d)));
            Keeps(x, s, Return(c, l), s, d, gain - 2 * l, gain)
  {
    var l := ActiveLiquidity(s.positions, s.tick);
    var r, gain := Redeposit(c, l), 2 * (ONE18 * (ONE18 * Amt(c, d)));
    UnfoldGood(x, s);
    assert Amt(c, d) >= 0 by { NonNegative(c); }
    if forall e | e in c :: c[e] == 0 {
      KeepsIfUnpaid(x, s, Return(c, l), x, s, d, gain - 2 * l, gain);
    } else {
      RedepositNonNegative(c, l);
      AccrueInv(x, s.tick, s.positions, r);
      AccrueOwed(x, s.tick, s.positions, r, d);
      PerLiquidityBounds(Amt(c, d) * ONE18, l);
      SameRecordsClear(x, Accrue(x, r), s.positions);
      KeepsIfUnpaid(x, s, Return(c, l), Accrue(x, r), s, d, gain - 2 * l, gain);
    }
  }

  lemma InitKeeps(x: Uptime, s: Scene, pos: Position, d: string)
    requires Good(x, s)
    ensures Keeps(x, s, Init(pos), s.(ticks := s.ticks + {pos.lower, pos.upper}), d, 0, 0)
  {
    UnfoldGood(x, s);
    InitTickKeeps(x, s.tick, pos.lower, s.positions);
    InitTickKeeps(InitTick(x, s.tick, pos.lower), s.tick, pos.upper, s.positions);
    SameRecordsClear(x, InitBounds(x, s.tick, pos), s.positions);
    KeepsIfUnpaid(x, s, Init(pos), InitBounds(x, s.tick, pos), s.(ticks := s.ticks + {pos.lower, pos.upper}), d, 0, 0);
  }

  lemma EnterKeeps(x: Uptime, s: Scene, n: string, pos: Position, d: string)
    requires Good(x, s) && n !in s.positions
    requires pos.lower < pos.upper && pos.lower in s.ticks && pos.upper in s.ticks && pos.liquidity > 0
    ensures Keeps(x, s, Enter(n, pos), s.(positions := s.positions[n := pos]), d, 0, 0)
  {
    UnfoldGood(x, s);
    JoinKeeps(x, s.tick, s.positions, n, pos, d);
    var y, ps' := Join(x, s.tick, n, pos).value, s.positions[n := pos];
    RerecordedClear(x, s.positions, n, y.acc.positions[n], y.acc.total, ps');
    KeepsIfUnpaid(x, s, Enter(n, pos), y, s.(positions := ps'), d, 0, 0);
  }

  /** The positions once the liquidity of one has changed by `delta`. */
  function Resettled(ps: Positions, n: string, delta: int): Positions
    requires n in ps
  {
    if ps[n].liquidity + delta == 0 then ps - {n} else ps[n := ps[n].(liquidity := ps[n].liquidity + delta)]
  }

  ghost function ResettledTuple(y: (Positions, string, int)): Positions {
    if y.1 in y.0 then Resettled(y.0, y.1, y.2) else y.0
  }

  /** `Resettled`, kept folded. */
  ghost function Left(ps: Positions, n: string, delta: int): Positions { FoldedFn(ResettledTuple)((ps, n, delta)) }

  lemma UnfoldLeft(ps: Positions, n: string, delta: int)
    requires n in ps
    ensures Left(ps, n, delta) == Resettled(ps, n, delta)
  {
    UnfoldFn(ResettledTuple, (ps, n, delta));
  }

  lemma ResizeTrackers(x: Uptime, tick: int, n: string, pos: Position, delta: int)
    requires Resize(x, tick, n, pos, delta).Ok?
    ensures Resize(x, tick, n, pos, delta).value.trackers == x.trackers
  {
  }

  lemma ResizeActs(x: Uptime, s: Scene, n: string, delta: int, y: Uptime, ps': Positions, d: string)
    requires Good(x, s) && n in s.positions && Resize(x, s.tick, n, s.positions[n], delta) == Ok(y)
    requires UptimeAccumulator.Inv(y, s.tick, ps') && Clear(y, ps') && OwedOf(y, s.tick, ps', d) == OwedOf(x, s.tick, s.positions, d)
    ensures Keeps(x, s, Change(n, s.positions[n], delta), s.(positions := ps'), d, 0, 0)
  {
    UnfoldGood(x, s);
    ResizeTrackers(x, s.tick, n, s.positions[n], delta);
    KeepsIfUnpaid(x, s, Change(n, s.positions[n], delta), y, s.(positions := ps'), d, 0, 0);
  }

  /** A resized record of an idle position has nothing unclaimed. */
  lemma ResizeClear(x: Uptime, s: Scene, n: string, delta: int, ps': Positions)
    requires Good(x, s) && Idle(x, s, n) && n in s.positions && delta != 0 && s.positions[n].liquidity + delta >= 0
    requires forall k | k in ps' :: k in s.positions
    ensures Resize(x, s.tick, n, s.positions[n], delta).Ok? && Clear(Resize(x, s.tick, n, s.positions[n], delta).value, ps')
  {
    UnfoldGood(x, s);
    UnfoldIdle(x, s, n);
    var rewards := ResizeShape(x, s.tick, s.positions, n, delta);
    forall e ensures Amt(rewards, e) == 0 {
      assert Claimable(BelowOf(x, s.tick, e), StakeAt(x, s.positions, n, e)) == 0;
      NothingClaimable(x, s.tick, s.positions, n, e);
    }
    RerecordedClear(x, s.positions, n, ResizedRecord(x, s.tick, s.positions[n], delta, rewards), x.acc.total + delta, ps');
  }

  lemma ShrinkKeeps(x: Uptime, s: Scene, n: string, delta: int, d: string)
    requires Good(x, s) && Idle(x, s, n) && n in s.positions && delta != 0 && s.positions[n].liquidity + delta > 0
    ensures Keeps(x, s, Change(n, s.positions[n], delta),
                  s.(positions := s.positions[n := s.positions[n].(liquidity := s.positions[n].liquidity + delta)]), d, 0, 0)
  {
    var ps' := s.positions[n := s.positions[n].(liquidity := s.positions[n].liquidity + delta)];
    ResizeClear(x, s, n, delta, ps');
    UnfoldGood(x, s);
    assert Claimable(BelowOf(x, s.tick, d), StakeAt(x, s.positions, n, d)) == 0 by { UnfoldIdle(x, s, n); }
    ResizeKeeps(x, s.tick, s.positions, n, delta, d);
    IdleResize(x, s.tick, s.positions, n, delta, d);
    ResizeActs(x, s, n, delta, Resize(x, s.tick, n, s.positions[n], delta).value, ps', d);
  }

  lemma EmptyKeeps(x: Uptime, s: Scene, n: string, delta: int, d: string)
    requires Good(x, s) && Idle(x, s, n) && n in s.positions && delta != 0 && s.positions[n].liquidity + delta == 0
    ensures Keeps(x, s, Change(n, s.positions[n], delta), s.(positions := s.positions - {n}), d, 0, 0)
  {
    ResizeClear(x, s, n, delta, s.positions - {n});
    UnfoldGood(x, s);
    assert Claimable(BelowOf(x, s.tick, d), StakeAt(x, s.positions, n, d)) == 0 by { UnfoldIdle(x, s, n); }
    LeaveKeeps(x, s.tick, s.positions, n, delta, d);
    ResizeActs(x, s, n, delta, Resize(x, s.tick, n, s.positions[n], delta).value, s.positions - {n}, d);
  }

  /** A liquidity change of a position that has just claimed changes nothing that is owed. */
  lemma ChangeKeeps(x: Uptime, s: Scene, n: string, delta: int, d: string)
    requires Good(x, s) && Idle(x, s, n) && n in s.positions && delta != 0 && s.positions[n].liquidity + delta >= 0
    ensures Keeps(x, s, Change(n, s.positions[n], delta), s.(positions := Left(s.positions, n, delta)), d, 0, 0)
  {
    UnfoldLeft(s.positions, n, delta);
    if s.positions[n].liquidity + delta == 0 {
      EmptyKeeps(x, s, n, delta, d);
    } else {
      ShrinkKeeps(x, s, n, delta, d);
    }
  }

  lemma CollectTrackers(x: Uptime, tick: int, n: string, pos: Position)
    requires Collect(x, tick, n, pos).Ok?
    ensures Collect(x, tick, n, pos).value.after.trackers == x.trackers
  {
  }

  /** A claim pays for itself: it settles within half a unit, and drops less than one scaled
      coin of what it settled. */
  lemma TakeKeeps(x: Uptime, s: Scene, n: string, d: string)
    requires Good(x, s) && n in s.positions
    ensures Keeps(x, s, Take(n, s.positions[n]), s, d, -ONE18 - 2 * (ONE18 * (ONE18 - 1)), ONE18)
  {
    UnfoldGood(x, s);
    var pos := s.positions[n];
    CollectKeeps(x, s.tick, s.positions, n, d);
    CollectTrackers(x, s.tick, n, pos);
    PlacedTicks(x, s.tick, s.positions, n);
    var c := Collect(x, s.tick, n, pos).value;
    forall e ensures Amt(c.coins, e) >= 0 {
      CollectKeeps(x, s.tick, s.positions, n, e);
      DivBounds(SettledIn(x, s.tick, s.positions, n, e), ONE18, 0);
    }
    NonNegative(c.coins);
    DivMod(SettledIn(x, s.tick, s.positions, n, d), ONE18);
    CollectClear(x, s, n);
    KeepsIf(x, s, Take(n, pos), c.after, c.coins, s, d, -ONE18 - 2 * (ONE18 * (ONE18 - 1)), ONE18);
  }

  lemma CollectClear(x: Uptime, s: Scene, n: string)
    requires Good(x, s) && n in s.positions
    ensures Collect(x, s.tick, n, s.positions[n]).Ok? && Clear(Collect(x, s.tick, n, s.positions[n]).value.after, s.positions)
  {
    UnfoldGood(x, s);
    CollectShape(x, s.tick, s.positions, n);
    RerecordedClear(x, s.positions, n, ClaimedRecord(x, s.tick, s.positions[n]), x.acc.total, s.positions);
  }

  /** And leaves the position with nothing to claim. */
  lemma TakeLeavesIdle(x: Uptime, s: Scene, n: string)
    requires Good(x, s) && n in s.positions
    ensures Do(x, s.tick, Take(n, s.positions[n])).Ok?
    ensures Idle(Do(x, s.tick, Take(n, s.positions[n])).value.after, s, n)
  {
    UnfoldGood(x, s);
    UnfoldDo(x, s.tick, Take(n, s.positions[n]));
    PlacedTicks(x, s.tick, s.positions, n);
    CollectKeeps(x, s.tick, s.positions, n, "");
    var y := Collect(x, s.tick, n, s.positions[n]).value.after;
    UnfoldIdle(y, s, n);
    forall d ensures Claimable(BelowOf(y, s.tick, d), StakeAt(y, s.positions, n, d)) == 0 {
      ClaimedOwesNothing(x, s.tick, s.positions, n, d);
    }
  }

  lemma TurnKeeps(x: Uptime, s: Scene, t: int, tick': int, d: string)
    requires Good(x, s) && t in s.ticks && forall r | r in s.ticks :: (s.tick < r) != (tick' < r) <==> r == t
    ensures Keeps(x, s, Turn(t), s.(tick := tick'), d, 0, 0)
  {
    UnfoldGood(x, s);
    FlipIsCross(x, s.tick, tick', t, s.positions);
    CrossKeeps(x, s.tick, tick', s.positions);
    SameRecordsClear(x, CrossTo(x, s.tick, tick'), s.positions);
    KeepsIfUnpaid(x, s, Turn(t), CrossTo(x, s.tick, tick'), s.(tick := tick'), d, 0, 0);
  }

  lemma ForgetKeeps(x: Uptime, s: Scene, gone: set<int>, d: string)
    requires Good(x, s) && forall n | n in s.positions :: s.positions[n].lower !in gone && s.positions[n].upper !in gone
    ensures Keeps(x, s, Forget(gone), s.(ticks := s.ticks - gone), d, 0, 0)
  {
    UnfoldGood(x, s);
    DropTicksKeeps(x, s.tick, gone, s.positions);
    SameRecordsClear(x, x.(trackers := x.trackers - gone), s.positions);
    KeepsIfUnpaid(x, s, Forget(gone), x.(trackers := x.trackers - gone), s.(ticks := s.ticks - gone), d, 0, 0);
  }

  lemma MagnifyClear(x: Uptime, ps: Positions)
    requires Clear(x, ps)
    ensures Clear(Migrated(x, ps.Keys), ps)
  {
    UnfoldClear(x, ps);
    UnfoldClear(Migrated(x, ps.Keys), ps);
    forall n, d | n in ps ensures Unclaimed(Migrated(x, ps.Keys), n, d) == 0 {
      assert Unclaimed(x, n, d) == 0;
    }
  }

  /** The migration multiplies what is owed by exactly the factor. */
  lemma MagnifyKeeps(x: Uptime, s: Scene, d: string)
    requires Good(x, s)
    ensures var gain := 2 * ((SCALE - 1) * OwedIn(x, s, d)); Keeps(x, s, Magnify(s.positions.Keys), s, d, gain, gain)
  {
    UnfoldGood(x, s);
    MigratedInv(x, s.tick, s.positions);
    UnfoldClear(x, s.positions);
    MigratedOwed(x, s.tick, s.positions, d);
    MagnifyClear(x, s.positions);
    forall n | n in s.positions ensures n in x.acc.positions {
      PlacedTicks(x, s.tick, s.positions, n);
    }
    var gain := 2 * ((SCALE - 1) * OwedIn(x, s, d));
    KeepsIfUnpaid(x, s, Magnify(s.positions.Keys), Migrated(x, s.positions.Keys), s, d, gain, gain);
  }
}
