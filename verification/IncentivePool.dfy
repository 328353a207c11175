/** The incentive state of one concentrated-liquidity pool and the operations on it. */
module IncentivePool {
  import opened FixedPoint
  import opened Coins
  import opened Folding
  import opened Options
  import AccumulatorState
  import opened Emission
  import opened UptimeAccumulator
  import Migration
  import opened UptimeActs
  import opened TickLiquidity

  const UPTIME_COUNT: nat := 6

  /** `factor` is the pool's scaling factor: 10^27 for scaled pools, 1 otherwise. */
  datatype Pool = Pool(
    tick: int, liquidity: int, lastUpdate: int, factor: int, ticks: Ticks,
    uptimes: seq<Uptime>, positions: Positions, incentives: seq<Incentive>)

  datatype Failure = TimeBackwards | UnknownPosition | BadPosition | BadIncentive | BadTick | AccumulatorFailed

  // --------------------------------------------------- one act on each accumulator in turn

  ghost predicate AllDo(xs: seq<Uptime>, tick: int, acts: seq<Act>) {
    |xs| == |acts| && forall u {:trigger xs[u]} | 0 <= u < |xs| :: Do(xs[u], tick, acts[u]).Ok?
  }

  function AfterAct(x: Uptime, r: Result<Claimed, AccumulatorState.Error>): Uptime { if r.Ok? then r.value.after else x }
  function CoinsOf(r: Result<Claimed, AccumulatorState.Error>): DecCoins { if r.Ok? then r.value.coins else map[] }

  ghost function After(xs: seq<Uptime>, tick: int, acts: seq<Act>): (out: seq<Uptime>)
    requires |xs| == |acts|
    ensures |out| == |xs|
    ensures forall u {:trigger out[u]} | 0 <= u < |xs| :: out[u] == AfterAct(xs[u], Do(xs[u], tick, acts[u]))
  {
    seq(|xs|, u requires 0 <= u < |xs| => AfterAct(xs[u], Do(xs[u], tick, acts[u])))
  }

  /** The whole scaled coins each act yields. */
  ghost function Yields(xs: seq<Uptime>, tick: int, acts: seq<Act>): (out: seq<DecCoins>)
    requires |xs| == |acts|
    ensures |out| == |xs|
    ensures forall u {:trigger out[u]} | 0 <= u < |xs| :: out[u] == CoinsOf(Do(xs[u], tick, acts[u]))
  {
    seq(|xs|, u requires 0 <= u < |xs| => CoinsOf(Do(xs[u], tick, acts[u])))
  }

  function Copies(a: Act): (out: seq<Act>)
    ensures |out| == UPTIME_COUNT && forall u {:trigger out[u]} | 0 <= u < UPTIME_COUNT :: out[u] == a
  {
    seq(UPTIME_COUNT, _ => a)
  }

  function Raises(cs: seq<DecCoins>): (out: seq<Act>)
    ensures |out| == |cs| && forall u {:trigger out[u]} | 0 <= u < |cs| :: out[u] == Raise(cs[u])
  {
    seq(|cs|, u requires 0 <= u < |cs| => Raise(cs[u]))
  }

  function Returns(cs: seq<DecCoins>, liquidity: int): (out: seq<Act>)
    ensures |out| == |cs| && forall u {:trigger out[u]} | 0 <= u < |cs| :: out[u] == Return(cs[u], liquidity)
  {
    seq(|cs|, u requires 0 <= u < |cs| => Return(cs[u], liquidity))
  }

  // ------------------------------------------------------------------------ accrual to now

  /** What every accumulator is given by one update. */
  ghost function AllAdded(rs: seq<Incentive>, c: Context, n: nat): (out: seq<DecCoins>)
    ensures |out| == n
    ensures forall u, d {:trigger Amt(out[u], d)} | 0 <= u < n :: Amt(out[u], d) == AddedTo(DebitedBefore(rs, c, u), c, u, d)
  {
    var out := seq(n, u requires 0 <= u < n => Added(DebitedBefore(rs, c, u), c, u));
    assert forall u, d {:trigger Amt(out[u], d)} | 0 <= u < n :: Amt(out[u], d) == AddedTo(DebitedBefore(rs, c, u), c, u, d) by {
      forall u, d | 0 <= u < n ensures Amt(out[u], d) == AddedTo(DebitedBefore(rs, c, u), c, u, d) {
        AddedToAmount(DebitedBefore(rs, c, u), c, u, d);
      }
    }
    out
  }

  /** The records that are stored: those with something left. */
  function KeptOf(rs: seq<Incentive>, n: nat): seq<Incentive>
    requires n <= |rs|
  {
    if n == 0 then [] else if rs[n - 1].remaining > 0 then KeptOf(rs, n - 1) + [rs[n - 1]] else KeptOf(rs, n - 1)
  }

  function Kept(rs: seq<Incentive>): seq<Incentive> { KeptOf(rs, |rs|) }

  /** `updateGivenPoolUptimeAccumulatorsToNow`. */
  ghost function SyncedTo(p: Pool, now: int): (r: Result<Pool, Failure>)
    requires |p.uptimes| == UPTIME_COUNT
    ensures r.Ok? ==> SyncedFrom(r.value, p, now)
  {
    if now == p.lastUpdate then Ok(p)
    else if now < p.lastUpdate then Err(TimeBackwards)
    else if p.liquidity < ONE18 then Ok(p.(incentives := Kept(p.incentives), lastUpdate := now))
    else
      var c := Context(now, Seconds(now - p.lastUpdate), p.liquidity, p.factor);
      Ok(p.(uptimes := After(p.uptimes, p.tick, Raises(AllAdded(p.incentives, c, |p.uptimes|))),
            incentives := Kept(DebitedBefore(p.incentives, c, |p.uptimes|)), lastUpdate := now))
  }

  /** Syncing touches only accumulators, records and the time of the last update. */
  ghost predicate SyncedFrom(q: Pool, p: Pool, now: int) {
    |q.uptimes| == UPTIME_COUNT && q == p.(uptimes := q.uptimes, incentives := q.incentives, lastUpdate := now)
  }

  ghost function SyncedPair(y: (Pool, int)): Result<Pool, Failure> {
    if |y.0.uptimes| == UPTIME_COUNT then SyncedTo(y.0, y.1) else Err(AccumulatorFailed)
  }

  /** `SyncedTo`, kept folded. */
  ghost function Synced(p: Pool, now: int): (r: Result<Pool, Failure>)
    requires |p.uptimes| == UPTIME_COUNT
    ensures r.Ok? ==> SyncedFrom(r.value, p, now)
  {
    UnfoldFn(SyncedPair, (p, now));
    FoldedFn(SyncedPair)((p, now))
  }

  lemma UnfoldSynced(p: Pool, now: int)
    requires |p.uptimes| == UPTIME_COUNT
    ensures Synced(p, now) == SyncedTo(p, now)
  {
    UnfoldFn(SyncedPair, (p, now));
  }

  // -------------------------------------------------------------------------------- claims

  /** `scaleDownIncentiveAmount`. */
  function DescaledAmount(amount: int, factor: int): int
    requires factor > 0
  {
    Quo(Quo(amount * ONE18 * ONE18, factor * ONE18), ONE18)
  }

  function Descaled(c: DecCoins, factor: int): (r: DecCoins)
    requires factor > 0
    ensures forall d {:trigger Amt(r, d)} :: Amt(r, d) == DescaledAmount(Amt(c, d), factor)
  {
    assert DescaledAmount(0, factor) == 0;
    map d | d in c :: DescaledAmount(c[d], factor)
  }

  /** Coins of the accumulators before `u` whose uptime the position's age reaches, or,
      if `forfeit`, does not reach. */
  ghost function PayoutBefore(cs: seq<DecCoins>, factor: int, age: int, forfeit: bool, u: nat): DecCoins
    requires u <= |cs| == UPTIME_COUNT && factor > 0
  {
    if u == 0 then map[]
    else if (age < UPTIMES[u - 1]) == forfeit then
      Plus(PayoutBefore(cs, factor, age, forfeit, u - 1), Descaled(cs[u - 1], factor))
    else PayoutBefore(cs, factor, age, forfeit, u - 1)
  }

  ghost function Payout(cs: seq<DecCoins>, factor: int, age: int, forfeit: bool): DecCoins
    requires |cs| == UPTIME_COUNT && factor > 0
  {
    PayoutBefore(cs, factor, age, forfeit, |cs|)
  }

  /** The scaled coins of the accumulators whose uptime is reached or, if `forfeit`, is not. */
  ghost function Chosen(cs: seq<DecCoins>, age: int, forfeit: bool): (out: seq<DecCoins>)
    requires |cs| == UPTIME_COUNT
    ensures |out| == UPTIME_COUNT
    ensures forall u {:trigger out[u]} | 0 <= u < UPTIME_COUNT :: out[u] == if (age < UPTIMES[u]) == forfeit then cs[u] else map[]
  {
    seq(UPTIME_COUNT, u requires 0 <= u < UPTIME_COUNT => if (age < UPTIMES[u]) == forfeit then cs[u] else map[])
  }

  // --------------------------------------------------------------------------- operations

  /** A pool after an operation, the coins its incentives account paid for claims and gave
      back, and the scaled coins that were forfeited. */
  datatype Receipt = Receipt(pool: Pool, paid: DecCoins, refund: DecCoins, forfeited: seq<DecCoins>)

  /** `CreateIncentive` with `amount` whole coins. */
  ghost function Created(p: Pool, id: nat, denom: string, amount: int, rate: int, start: int, uptime: nat, now: int): Result<Pool, Failure>
    requires |p.uptimes| == UPTIME_COUNT
  {
    if amount <= 0 || start < now || rate <= 0 || uptime >= UPTIME_COUNT then Err(BadIncentive) else
      var q :- Synced(p, now);
      Ok(q.(incentives := q.incentives + [Incentive(id, uptime, denom, amount * ONE18, rate, start)]))
  }

  /** `prepareClaimAllIncentivesForPosition` on a synced pool, for a position of the given age. */
  ghost function Taken(q: Pool, n: string, age: int): (r: Receipt)
    requires |q.uptimes| == UPTIME_COUNT && q.factor > 0 && n in q.positions
    ensures |r.pool.uptimes| == |r.forfeited| == UPTIME_COUNT && r.pool == q.(uptimes := r.pool.uptimes)
  {
    var acts := Copies(Take(n, q.positions[n]));
    var cs := Yields(q.uptimes, q.tick, acts);
    Receipt(q.(uptimes := After(q.uptimes, q.tick, acts)),
            Payout(cs, q.factor, age, false), Payout(cs, q.factor, age, true), Chosen(cs, age, true))
  }

  /** `collectIncentives`. */
  ghost function Collected(p: Pool, n: string, now: int): (r: Result<Receipt, Failure>)
    requires |p.uptimes| == UPTIME_COUNT && p.factor > 0
    ensures r.Ok? ==> |r.value.pool.uptimes| == UPTIME_COUNT && |r.value.forfeited| == UPTIME_COUNT && n in r.value.pool.positions
  {
    if n !in p.positions then Err(UnknownPosition) else
      var q :- Synced(p, now);
      if now < p.positions[n].joinTime then Err(TimeBackwards)
      else if !AllDo(q.uptimes, q.tick, Copies(Take(n, p.positions[n]))) then Err(AccumulatorFailed)
      else Ok(Taken(q, n, now - p.positions[n].joinTime))
  }

  predicate InRange(pos: Position, tick: int) { pos.lower <= tick < pos.upper }

  /** `UpdateLiquidityIfActivePosition`. */
  function ActiveAfter(p: Pool, pos: Position, delta: int): int {
    p.liquidity + if InRange(pos, p.tick) then delta else 0
  }

  /** `createPosition`: the first position of a pool sets its current tick. */
  ghost function Joined(p: Pool, n: string, pos: Position, firstTick: int, now: int): Result<Pool, Failure>
    requires |p.uptimes| == UPTIME_COUNT
  {
    if pos.lower >= pos.upper || pos.liquidity <= 0 || pos.joinTime != now then Err(BadPosition)
    else if n in p.positions || exists u | 0 <= u < UPTIME_COUNT :: n in p.uptimes[u].acc.positions then Err(BadPosition)
    else
      var q :- Synced(if |p.positions| == 0 then p.(tick := firstTick) else p, now);
      var xs := After(q.uptimes, q.tick, Copies(Init(pos)));
      if !AllDo(xs, q.tick, Copies(Enter(n, pos))) then Err(AccumulatorFailed) else
        Ok(q.(ticks := UpdateBounds(q.ticks, pos, pos.liquidity), uptimes := After(xs, q.tick, Copies(Enter(n, pos))),
              positions := q.positions[n := pos], liquidity := ActiveAfter(q, pos, pos.liquidity)))
  }

  /** The accumulators once what was forfeited has been given to the liquidity in range, if any. */
  ghost function Regiven(xs: seq<Uptime>, tick: int, cs: seq<DecCoins>, active: int): (out: seq<Uptime>)
    requires |xs| == |cs|
    ensures |out| == |xs|
  {
    if active < ONE18 then xs else After(xs, tick, Returns(cs, active))
  }

  datatype Departure = Departure(xs: seq<Uptime>, s: Scene, n: string, delta: int, cs: seq<DecCoins>, active: int, gone: set<int>)

  /** The accumulators while liquidity leaves: resized, given what was forfeited, and rid of
      the bounds no position uses. */
  ghost function Departed(y: Departure): (out: seq<Uptime>)
    ensures |out| == |y.xs|
  {
    if !(|y.xs| == |y.cs| == UPTIME_COUNT && y.n in y.s.positions) then y.xs else
      var ys := Regiven(After(y.xs, y.s.tick, Copies(Change(y.n, y.s.positions[y.n], y.delta))), y.s.tick, y.cs, y.active);
      After(ys, y.s.tick, Copies(Forget(y.gone)))
  }

  /** `Departed`, kept folded. */
  ghost function Leaving(y: Departure): (out: seq<Uptime>)
    ensures |out| == |y.xs|
  {
    UnfoldFn(Departed, y);
    FoldedFn(Departed)(y)
  }

  lemma UnfoldLeaving(y: Departure)
    ensures Leaving(y) == Departed(y)
  {
    UnfoldFn(Departed, y);
  }

  /** No position is bounded by a tick of `gone`. */
  ghost predicate ClearOf(ps: Positions, gone: set<int>) {
    forall n | n in ps :: ps[n].lower !in gone && ps[n].upper !in gone
  }

  /** The bounds of `pos` that are empty once its liquidity has changed; kept folded. */
  ghost function Gone(ticks: Ticks, pos: Position, delta: int): set<int> { FoldedFn(GoneTuple)((ticks, pos, delta)) }

  ghost function GoneTuple(y: (Ticks, Position, int)): set<int> { EmptyBounds(UpdateBounds(y.0, y.1, y.2), y.1) }

  lemma UnfoldGone(ticks: Ticks, pos: Position, delta: int)
    ensures Gone(ticks, pos, delta) == EmptyBounds(UpdateBounds(ticks, pos, delta), pos)
  {
    UnfoldFn(GoneTuple, (ticks, pos, delta));
  }

  /** The ticks once a position's liquidity has changed and its empty bounds are removed; kept folded. */
  ghost function TicksAfter(ticks: Ticks, pos: Position, delta: int): Ticks { FoldedFn(TicksAfterTuple)((ticks, pos, delta)) }

  ghost function TicksAfterTuple(y: (Ticks, Position, int)): Ticks {
    UpdateBounds(y.0, y.1, y.2) - EmptyBounds(UpdateBounds(y.0, y.1, y.2), y.1)
  }

  lemma UnfoldTicksAfter(ticks: Ticks, pos: Position, delta: int)
    ensures TicksAfter(ticks, pos, delta) == UpdateBounds(ticks, pos, delta) - EmptyBounds(UpdateBounds(ticks, pos, delta), pos)
  {
    UnfoldFn(TicksAfterTuple, (ticks, pos, delta));
  }

  /** `UpdatePosition` and what `WithdrawPosition` does after it: resizes the position, gives
      away `forfeited`, and removes bounds no position uses any more. */
  ghost function Shrunk(q: Pool, n: string, amount: int, forfeited: seq<DecCoins>): Pool
    requires |q.uptimes| == |forfeited| == UPTIME_COUNT && n in q.positions
  {
    var pos := q.positions[n];
    var left, active, gone := Left(q.positions, n, -amount), ActiveAfter(q, pos, -amount), Gone(q.ticks, pos, -amount);
    Pool(if |left| == 0 then 0 else q.tick, active, q.lastUpdate, q.factor, TicksAfter(q.ticks, pos, -amount),
         Leaving(Departure(q.uptimes, SceneOf(q), n, -amount, forfeited, active, gone)), left, q.incentives)
  }

  /** `WithdrawPosition`: claims and resizes; what is forfeited goes to the liquidity that
      stays in range, or back to the owner if there is none. */
  ghost function Withdrawn(p: Pool, n: string, amount: int, now: int): Result<Receipt, Failure>
    requires |p.uptimes| == UPTIME_COUNT && p.factor > 0
  {
    if n !in p.positions then Err(UnknownPosition)
    else if amount < 0 || amount > p.positions[n].liquidity then Err(BadPosition)
    else
      var r :- Collected(p, n, now);
      if !AllDo(r.pool.uptimes, r.pool.tick, Copies(Change(n, p.positions[n], -amount))) then Err(AccumulatorFailed) else
        var q := Shrunk(r.pool, n, amount, r.forfeited);
        Ok(r.(pool := q, refund := if q.liquidity < ONE18 then r.refund else map[]))
  }

  /** `t` is the initialised tick a swap reaches next. */
  ghost predicate NextTick(p: Pool, t: int, up: bool) {
    && t in p.ticks
    && if up then p.tick < t && forall s | s in p.ticks :: s <= p.tick || t <= s
       else t <= p.tick && forall s | s in p.ticks :: s <= t || p.tick < s
  }

  /** `swapCrossTickLogic`. */
  ghost function Crossed(p: Pool, t: int, up: bool, now: int): Result<Pool, Failure>
    requires |p.uptimes| == UPTIME_COUNT
  {
    if !NextTick(p, t, up) then Err(BadTick) else
      var q :- Synced(p, now);
      if !AllDo(q.uptimes, q.tick, Copies(Turn(t))) then Err(AccumulatorFailed) else
        var net := InfoAt(q.ticks, t).net;
        Ok(q.(uptimes := After(q.uptimes, q.tick, Copies(Turn(t))), liquidity := q.liquidity + (if up then net else -net),
              tick := if up then t else t - 1))
  }

  /** A swap that stays between two initialised ticks. */
  ghost function Moved(p: Pool, tick: int): Result<Pool, Failure> {
    if exists s | s in p.ticks :: (p.tick < s) != (tick < s) then Err(BadTick) else Ok(p.(tick := tick))
  }

  /** `MigrateIncentivesAccumulatorToScalingFactor`, on a pool that is not scaled yet. */
  ghost function Magnified(p: Pool): Result<Pool, Failure>
    requires |p.uptimes| == UPTIME_COUNT
  {
    var acts := Copies(Magnify(p.positions.Keys));
    if p.factor != 1 then Err(BadPosition)
    else if !AllDo(p.uptimes, p.tick, acts) then Err(AccumulatorFailed)
    else Ok(p.(uptimes := After(p.uptimes, p.tick, acts), factor := Migration.SCALE))
  }

  /** A new pool. */
  function NewPool(factor: int, now: int): Pool {
    Pool(0, 0, now, factor, map[], seq(UPTIME_COUNT, _ => Uptime(AccumulatorState.Initial, map[])), map[], [])
  }

  // ------------------------------------------------------------------------------- totals

  ghost function SumTo(xs: seq<int>, k: nat): int
    requires k <= |xs|
  {
    if k == 0 then 0 else SumTo(xs, k - 1) + xs[k - 1]
  }

  ghost function Amounts(cs: seq<DecCoins>, d: string): (out: seq<int>)
    ensures |out| == |cs|
    ensures forall u {:trigger out[u]} | 0 <= u < |cs| :: out[u] == Amt(cs[u], d)
  {
    seq(|cs|, u requires 0 <= u < |cs| => Amt(cs[u], d))
  }

  ghost function Oweds(xs: seq<Uptime>, s: Scene, d: string): (out: seq<int>)
    ensures |out| == |xs|
    ensures forall u {:trigger out[u]} | 0 <= u < |xs| :: out[u] == OwedIn(xs[u], s, d)
  {
    seq(|xs|, u requires 0 <= u < |xs| => OwedIn(xs[u], s, d))
  }

  ghost function TotalOfPair(y: (seq<DecCoins>, string)): int { SumTo(Amounts(y.0, y.1), |y.0|) }
  ghost function TotalOwedTriple(y: (seq<Uptime>, Scene, string)): int { SumTo(Oweds(y.0, y.1, y.2), |y.0|) }

  /** Totals over all accumulators, kept folded. */
  ghost function TotalOf(cs: seq<DecCoins>, d: string): int { FoldedFn(TotalOfPair)((cs, d)) }
  ghost function TotalOwed(xs: seq<Uptime>, s: Scene, d: string): int { FoldedFn(TotalOwedTriple)((xs, s, d)) }

  lemma UnfoldTotal(cs: seq<DecCoins>, d: string)
    ensures TotalOf(cs, d) == SumTo(Amounts(cs, d), |cs|)
  {
    UnfoldFn(TotalOfPair, (cs, d));
  }

  lemma UnfoldTotalOwed(xs: seq<Uptime>, s: Scene, d: string)
    ensures TotalOwed(xs, s, d) == SumTo(Oweds(xs, s, d), |xs|)
  {
    UnfoldFn(TotalOwedTriple, (xs, s, d));
  }

  function SceneOf(p: Pool): Scene { Scene(p.tick, p.positions, p.ticks.Keys) }

  /** What all positions are owed in all accumulators, in units of 10^-36 scaled coins. */
  ghost function OwedAll(p: Pool, d: string): int { TotalOwed(p.uptimes, SceneOf(p), d) }

  // ---------------------------------------------------------------------------- invariant

  ghost predicate NoneNegative(cs: seq<DecCoins>) {
    forall u {:trigger cs[u]} | 0 <= u < |cs| :: !AnyNegative(cs[u])
  }

  ghost predicate TicksPair(y: (Ticks, Positions)) { TicksOK(y.0, y.1) }

  /** `TicksOK`, kept folded. */
  ghost predicate TicksGood(ticks: Ticks, ps: Positions) { Folded(TicksPair)((ticks, ps)) }

  lemma UnfoldTicks(ticks: Ticks, ps: Positions)
    ensures TicksGood(ticks, ps) <==> TicksOK(ticks, ps)
  {
    Unfold(TicksPair, (ticks, ps));
  }

  ghost predicate AllGood(xs: seq<Uptime>, s: Scene) {
    forall u {:trigger xs[u]} | 0 <= u < |xs| :: Good(xs[u], s)
  }

  /** Every accumulator is sound and tracks the initialised ticks, the ticks hold the sums of
      the positions they bound, and the pool's liquidity is what is in range. */
  ghost predicate PoolSound(p: Pool) {
    && AllOK(p.incentives)
    && p.liquidity == ActiveLiquidity(p.positions, p.tick)
    && TicksGood(p.ticks, p.positions)
    && AllGood(p.uptimes, SceneOf(p))
  }

  /** The pool's invariant: `PoolSound`, kept folded. */
  ghost predicate PoolInv(p: Pool) {
    |p.uptimes| == UPTIME_COUNT && p.factor >= 1 && Folded(PoolSound)(p)
  }

  lemma UnfoldPool(p: Pool)
    ensures PoolInv(p) <==> |p.uptimes| == UPTIME_COUNT && p.factor >= 1 && PoolSound(p)
  {
    Unfold(PoolSound, p);
  }

  // ------------------------------------------------------------------- sums over accumulators

  lemma {:induction false} SumBound(coins: seq<int>, after: seq<int>, before: seq<int>, los: seq<int>, his: seq<int>, k: nat)
    requires k <= |coins| == |after| == |before| == |los| == |his|
    requires forall u {:trigger after[u]} | 0 <= u < |coins| ::
               los[u] <= 2 * (ONE18 * (ONE18 * coins[u]) + after[u] - before[u]) <= his[u]
    ensures SumTo(los, k) <= 2 * (ONE18 * (ONE18 * SumTo(coins, k)) + SumTo(after, k) - SumTo(before, k)) <= SumTo(his, k)
  {
    if k > 0 {
      SumBound(coins, after, before, los, his, k - 1);
      assert los[k - 1] <= 2 * (ONE18 * (ONE18 * coins[k - 1]) + after[k - 1] - before[k - 1]) <= his[k - 1];
    }
  }

  /** If every act keeps its accumulator, all do, and the bounds add up. */
  lemma EachKeeps(xs: seq<Uptime>, s: Scene, acts: seq<Act>, s': Scene, d: string, los: seq<int>, his: seq<int>)
    requires |xs| == |acts| == |los| == |his|
    requires forall u {:trigger xs[u]} | 0 <= u < |xs| :: Keeps(xs[u], s, acts[u], s', d, los[u], his[u])
    ensures AllDo(xs, s.tick, acts) && AllGood(After(xs, s.tick, acts), s')
    ensures NoneNegative(Yields(xs, s.tick, acts))
    ensures SumTo(los, |xs|)
         <= 2 * (ONE18 * (ONE18 * TotalOf(Yields(xs, s.tick, acts), d)) + TotalOwed(After(xs, s.tick, acts), s', d) - TotalOwed(xs, s, d))
         <= SumTo(his, |xs|)
  {
    var ys, cs := After(xs, s.tick, acts), Yields(xs, s.tick, acts);
    var coins, after, before := Amounts(cs, d), Oweds(ys, s', d), Oweds(xs, s, d);
    forall u | 0 <= u < |xs|
      ensures Do(xs[u], s.tick, acts[u]).Ok? && Good(ys[u], s') && !AnyNegative(cs[u])
      ensures los[u] <= 2 * (ONE18 * (ONE18 * coins[u]) + after[u] - before[u]) <= his[u]
    {
      assert Keeps(xs[u], s, acts[u], s', d, los[u], his[u]);
      UnfoldKeeps(xs[u], s, acts[u], s', d, los[u], his[u]);
    }
    SumBound(coins, after, before, los, his, |xs|);
    UnfoldTotal(cs, d);
    UnfoldTotalOwed(ys, s', d);
    UnfoldTotalOwed(xs, s, d);
  }

  /** Acts that yield nothing. */
  lemma UnpaidTotal(xs: seq<Uptime>, tick: int, acts: seq<Act>, d: string)
    requires |xs| == |acts| && forall u {:trigger acts[u]} | 0 <= u < |acts| :: !acts[u].Take?
    ensures TotalOf(Yields(xs, tick, acts), d) == 0
  {
    var cs := Yields(xs, tick, acts);
    forall u | 0 <= u < |cs| ensures Amounts(cs, d)[u] == 0 {
      assert !acts[u].Take?;
      UnfoldDo(xs[u], tick, acts[u]);
    }
    UnfoldTotal(cs, d);
    SumZero(Amounts(cs, d), |cs|);
  }

  lemma {:induction false} SumNonNegativeTo(xs: seq<int>, k: nat)
    requires k <= |xs| && forall u | 0 <= u < |xs| :: xs[u] >= 0
    ensures SumTo(xs, k) >= 0
  {
    if k > 0 {
      SumNonNegativeTo(xs, k - 1);
    }
  }

  lemma TotalNonNegative(cs: seq<DecCoins>, d: string)
    requires NoneNegative(cs)
    ensures TotalOf(cs, d) >= 0
  {
    forall u | 0 <= u < |cs| ensures Amounts(cs, d)[u] >= 0 {
      NonNegative(cs[u]);
    }
    UnfoldTotal(cs, d);
    SumNonNegativeTo(Amounts(cs, d), |cs|);
  }

  lemma {:induction false} SumZero(xs: seq<int>, k: nat)
    requires k <= |xs| && forall u | 0 <= u < |xs| :: xs[u] == 0
    ensures SumTo(xs, k) == 0
  {
    if k > 0 {
      SumZero(xs, k - 1);
    }
  }

  lemma {:induction false} SumConstant(xs: seq<int>, v: int, k: nat)
    requires k <= |xs| && forall u | 0 <= u < |xs| :: xs[u] == v
    ensures SumTo(xs, k) == v * k
  {
    if k > 0 {
      SumConstant(xs, v, k - 1);
      assert v * k == v * (k - 1) + v;
    }
  }

  /** The same act on every accumulator. */
  lemma EachKeepsSame(xs: seq<Uptime>, s: Scene, a: Act, s': Scene, d: string, lo: int, hi: int)
    requires |xs| == UPTIME_COUNT
    requires forall u {:trigger xs[u]} | 0 <= u < |xs| :: Keeps(xs[u], s, a, s', d, lo, hi)
    ensures var acts := Copies(a);
            && AllDo(xs, s.tick, acts) && AllGood(After(xs, s.tick, acts), s')
            && NoneNegative(Yields(xs, s.tick, acts))
            && lo * UPTIME_COUNT
               <= 2 * (ONE18 * (ONE18 * TotalOf(Yields(xs, s.tick, acts), d)) + TotalOwed(After(xs, s.tick, acts), s', d) - TotalOwed(xs, s, d))
               <= hi * UPTIME_COUNT
  {
    var los, his := seq(UPTIME_COUNT, _ => lo), seq(UPTIME_COUNT, _ => hi);
    SumConstant(los, lo, |los|);
    SumConstant(his, hi, |his|);
    EachKeeps(xs, s, Copies(a), s', d, los, his);
  }

  /** An act that yields nothing and moves no value. */
  lemma EachKeepsOwed(xs: seq<Uptime>, s: Scene, a: Act, s': Scene, d: string)
    requires |xs| == UPTIME_COUNT && !a.Take?
    requires forall u {:trigger xs[u]} | 0 <= u < |xs| :: Keeps(xs[u], s, a, s', d, 0, 0)
    ensures AllDo(xs, s.tick, Copies(a)) && AllGood(After(xs, s.tick, Copies(a)), s')
    ensures TotalOwed(After(xs, s.tick, Copies(a)), s', d) == TotalOwed(xs, s, d)
  {
    EachKeepsSame(xs, s, a, s', d, 0, 0);
    UnpaidTotal(xs, s.tick, Copies(a), d);
  }
}
