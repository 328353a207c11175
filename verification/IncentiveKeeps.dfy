/** Whole operations: each succeeds on a live pool, keeps its invariant and pays its bill. */
module IncentiveKeeps {
  import opened FixedPoint
  import opened Coins
  import opened Emission
  import opened UptimeAccumulator
  import opened UptimeActs
  import opened Migration
  import opened TickLiquidity
  import opened IncentivePool
  import opened IncentiveSteps
  import opened IncentiveOps

  // ------------------------------------------------------------------------------ withdrawal

  /** What is owed grows by the coins given back, or a little less. */
  ghost predicate Regives(gain: int, forfeited: int, active: int) {
    gain <= (if active < ONE18 then 0 else ONE18 * (ONE18 * forfeited)) <= gain + ReturnShort(active)
  }

  lemma LeavingKeeps(y: Departure, tick': int, d: string)
    requires |y.xs| == |y.cs| == UPTIME_COUNT && AllGood(y.xs, y.s) && AllIdle(y.xs, y.s, y.n) && NoneNegative(y.cs)
    requires y.n in y.s.positions && y.delta != 0 && y.s.positions[y.n].liquidity + y.delta >= 0
    requires y.active == ActiveLiquidity(Left(y.s.positions, y.n, y.delta), y.s.tick)
    requires ClearOf(Left(y.s.positions, y.n, y.delta), y.gone)
    requires tick' == y.s.tick || |Left(y.s.positions, y.n, y.delta)| == 0
    ensures var s' := Scene(tick', Left(y.s.positions, y.n, y.delta), y.s.ticks - y.gone);
            && AllDo(y.xs, y.s.tick, Copies(Change(y.n, y.s.positions[y.n], y.delta))) && AllGood(Leaving(y), s')
            && Regives(TotalOwed(Leaving(y), s', d) - TotalOwed(y.xs, y.s, d), TotalOf(y.cs, d), y.active)
  {
    var s := y.s;
    var s1 := s.(positions := Left(s.positions, y.n, y.delta));
    ChangeAll(y.xs, s, y.n, y.delta, d);
    var ys := After(y.xs, s.tick, Copies(Change(y.n, s.positions[y.n], y.delta)));
    ReturnAll(ys, s1, y.cs, y.active, d);
    ForgetAll(Regiven(ys, s.tick, y.cs, y.active), s1, y.gone, d);
    UnfoldLeaving(y);
    RestAll(Leaving(y), s1.(ticks := s1.ticks - y.gone), tick', d);
  }

  lemma ShrunkLiquidity(q: Pool, n: string, amount: int, forfeited: seq<DecCoins>)
    requires PoolInv(q) && n in q.positions && |forfeited| == UPTIME_COUNT
    ensures Shrunk(q, n, amount, forfeited).liquidity == ActiveLiquidity(Left(q.positions, n, -amount), q.tick)
  {
    UnfoldPool(q);
    LeftActive(q.positions, n, -amount, q.tick);
  }

  lemma ShrunkTicks(q: Pool, n: string, amount: int, forfeited: seq<DecCoins>)
    requires PoolInv(q) && n in q.positions && 0 < amount <= q.positions[n].liquidity && |forfeited| == UPTIME_COUNT
    ensures var r, left, gone := Shrunk(q, n, amount, forfeited), Left(q.positions, n, -amount), Gone(q.ticks, q.positions[n], -amount);
            TicksGood(r.ticks, left) && ClearOf(left, gone) && r.ticks.Keys == q.ticks.Keys - gone
  {
    UnfoldPool(q);
    LeftTicks(q.ticks, q.positions, n, -amount);
  }

  lemma ShrunkScene(q: Pool, n: string, amount: int, forfeited: seq<DecCoins>)
    requires PoolInv(q) && n in q.positions && 0 < amount <= q.positions[n].liquidity && |forfeited| == UPTIME_COUNT
    ensures var r, left, gone := Shrunk(q, n, amount, forfeited), Left(q.positions, n, -amount), Gone(q.ticks, q.positions[n], -amount);
            && r.liquidity == ActiveLiquidity(left, q.tick)
            && TicksGood(r.ticks, left) && ClearOf(left, gone)
            && SceneOf(r) == Scene(r.tick, left, q.ticks.Keys - gone)
  {
    ShrunkLiquidity(q, n, amount, forfeited);
    ShrunkTicks(q, n, amount, forfeited);
  }

  lemma ShrunkUptimes(q: Pool, n: string, amount: int, forfeited: seq<DecCoins>, d: string)
    requires PoolInv(q) && n in q.positions && 0 < amount <= q.positions[n].liquidity
    requires |forfeited| == UPTIME_COUNT && NoneNegative(forfeited)
    requires AllIdle(q.uptimes, SceneOf(q), n)
    ensures var r := Shrunk(q, n, amount, forfeited);
            && AllDo(q.uptimes, q.tick, Copies(Change(n, q.positions[n], -amount)))
            && AllGood(r.uptimes, SceneOf(r))
            && Regives(OwedAll(r, d) - OwedAll(q, d), TotalOf(forfeited, d), r.liquidity)
  {
    var pos, r := q.positions[n], Shrunk(q, n, amount, forfeited);
    UnfoldPool(q);
    ShrunkScene(q, n, amount, forfeited);
    LeavingKeeps(Departure(q.uptimes, SceneOf(q), n, -amount, forfeited, r.liquidity, Gone(q.ticks, pos, -amount)), r.tick, d);
  }

  lemma NoLiquidity(tick: int, tick': int)
    ensures ActiveLiquidity(map[], tick) == ActiveLiquidity(map[], tick')
  {
    assert LiquidityInRange(map[], tick) == LiquidityInRange(map[], tick');
  }

  lemma ShrunkKeeps(q: Pool, n: string, amount: int, forfeited: seq<DecCoins>, d: string)
    requires PoolInv(q) && n in q.positions && 0 < amount <= q.positions[n].liquidity
    requires |forfeited| == UPTIME_COUNT && NoneNegative(forfeited)
    requires AllIdle(q.uptimes, SceneOf(q), n)
    ensures var r := Shrunk(q, n, amount, forfeited);
            && PoolInv(r) && r.incentives == q.incentives && r.factor == q.factor
            && AllDo(q.uptimes, q.tick, Copies(Change(n, q.positions[n], -amount)))
            && Regives(OwedAll(r, d) - OwedAll(q, d), TotalOf(forfeited, d), r.liquidity)
  {
    UnfoldPool(q);
    ShrunkScene(q, n, amount, forfeited);
    ShrunkUptimes(q, n, amount, forfeited, d);
    NoLiquidity(q.tick, 0);
    UnfoldPool(Shrunk(q, n, amount, forfeited));
  }

  /** All that an operation's caller is paid. */
  ghost function PaidBy(r: Receipt, d: string): int { Amt(r.paid, d) + Amt(r.refund, d) }

  /** What a withdrawal may lose: less than a coin per accumulator for the claim, and for the
      coins forfeited less than a coin each if refunded, or one liquidity each if given back. */
  function WithdrawLoss(factor: int, short: int, active: int): int {
    Dust(factor) + short + if active < ONE18 then Dust(factor) else ReturnShort(active)
  }

  lemma WithdrawNumbers(given: int, claimed: int, after: int, paid: int, refund: int, forfeited: int, f: int, short: int, active: int)
    requires Balanced(given, claimed + ONE18 * (ONE18 * (paid + forfeited)), Dust(f) + short, UPTIME_COUNT)
    requires Regives(after - claimed, forfeited, active)
    requires if active < ONE18 then refund <= forfeited <= refund + UPTIME_COUNT * (f - 1) else refund == 0
    ensures Balanced(given, after + ONE18 * (ONE18 * (paid + refund)), WithdrawLoss(f, short, active), UPTIME_COUNT)
  {
    UnfoldBalanced(given, claimed + ONE18 * (ONE18 * (paid + forfeited)), Dust(f) + short, UPTIME_COUNT);
    UnfoldBalanced(given, after + ONE18 * (ONE18 * (paid + refund)), WithdrawLoss(f, short, active), UPTIME_COUNT);
  }

  /** A withdrawal by a live position never fails. */
  lemma WithdrawingKeeps(p: Pool, n: string, amount: int, now: int, d: string)
    requires PoolInv(p) && n in p.positions && 0 < amount <= p.positions[n].liquidity
    requires p.lastUpdate <= now && p.positions[n].joinTime <= now
    ensures Withdrawn(p, n, amount, now).Ok?
    ensures var r := Withdrawn(p, n, amount, now).value;
            && PoolInv(r.pool)
            && PaidBy(r, d) >= 0
            && Bill(p, r.pool, d, 0, PaidBy(r, d), UPTIME_COUNT, WithdrawLoss(p.factor, Shortfall(p, now), r.pool.liquidity))
  {
    WithdrawnIs(p, n, amount, now);
    CollectingKeeps(p, n, now, d);
    CollectingIdle(p, n, now);
    ReceiptKeeps(p, Collected(p, n, now).value, Withdrawn(p, n, amount, now).value, n, amount, d, Shortfall(p, now));
  }

  /** The receipt of a claim once the position has shrunk. */
  ghost predicate ShrinksTo(c: Receipt, r: Receipt, n: string, amount: int) {
    && |c.pool.uptimes| == |c.forfeited| == UPTIME_COUNT && n in c.pool.positions && 0 < amount <= c.pool.positions[n].liquidity
    && r == c.(pool := Shrunk(c.pool, n, amount, c.forfeited), refund := if r.pool.liquidity < ONE18 then c.refund else map[])
  }

  lemma ReceiptKeeps(p: Pool, c: Receipt, r: Receipt, n: string, amount: int, d: string, short: int)
    requires PoolInv(c.pool) && ClaimBill(p, c, d, short) && AllIdle(c.pool.uptimes, SceneOf(c.pool), n) && ShrinksTo(c, r, n, amount)
    ensures PoolInv(r.pool) && PaidBy(r, d) >= 0 && Bill(p, r.pool, d, 0, PaidBy(r, d), UPTIME_COUNT, WithdrawLoss(p.factor, short, r.pool.liquidity))
  {
    ShrunkKeeps(c.pool, n, amount, c.forfeited, d);
    WithdrawBill(p, c, r.pool, Amt(r.paid, d), Amt(r.refund, d), d, short);
  }

  lemma WithdrawnIs(p: Pool, n: string, amount: int, now: int)
    requires PoolInv(p) && n in p.positions && 0 < amount <= p.positions[n].liquidity
    requires p.lastUpdate <= now && p.positions[n].joinTime <= now
    ensures Collected(p, n, now).Ok? && Withdrawn(p, n, amount, now).Ok?
    ensures ShrinksTo(Collected(p, n, now).value, Withdrawn(p, n, amount, now).value, n, amount)
  {
    CollectedIs(p, n, now);
    CollectingKeeps(p, n, now, "");
    CollectingIdle(p, n, now);
    var c := Collected(p, n, now).value;
    ShrunkKeeps(c.pool, n, amount, c.forfeited, "");
  }

  lemma PaidTogether(f: int, paid: int, refund: int)
    ensures f * (paid + refund) == f * paid + f * refund && 0 * f == 0
  {
  }

  lemma RefundNumbers(f: int, whole: int, refund: int, forfeited: int, active: int)
    requires f * whole <= forfeited <= f * whole + UPTIME_COUNT * (f - 1) && refund == if active < ONE18 then whole else 0
    ensures if active < ONE18 then f * refund <= forfeited <= f * refund + UPTIME_COUNT * (f - 1) else f * refund == 0
  {
  }

  lemma WithdrawBalance(p: Pool, c: Receipt, q: Pool, refund: int, d: string, short: int)
    requires ClaimBill(p, c, d, short) && q.incentives == c.pool.incentives
    requires Regives(OwedAll(q, d) - OwedAll(c.pool, d), TotalOf(c.forfeited, d), q.liquidity)
    requires refund == if q.liquidity < ONE18 then Amt(c.refund, d) else 0
    ensures var f, debit := p.factor, Remaining(p.incentives, d) - Remaining(q.incentives, d);
            Balanced(OwedAll(p, d) + ONE18 * (debit * f), OwedAll(q, d) + ONE18 * (ONE18 * (f * Amt(c.paid, d) + f * refund)),
                     WithdrawLoss(f, short, q.liquidity), UPTIME_COUNT)
  {
    var f, debit := p.factor, Remaining(p.incentives, d) - Remaining(q.incentives, d);
    RefundNumbers(f, Amt(c.refund, d), refund, TotalOf(c.forfeited, d), q.liquidity);
    WithdrawNumbers(OwedAll(p, d) + ONE18 * (debit * f), OwedAll(c.pool, d), OwedAll(q, d), f * Amt(c.paid, d), f * refund,
                    TotalOf(c.forfeited, d), f, short, q.liquidity);
  }

  lemma WithdrawBill(p: Pool, c: Receipt, q: Pool, paid: int, refund: int, d: string, short: int)
    requires ClaimBill(p, c, d, short) && q.incentives == c.pool.incentives && q.factor == c.pool.factor
    requires Regives(OwedAll(q, d) - OwedAll(c.pool, d), TotalOf(c.forfeited, d), q.liquidity)
    requires paid == Amt(c.paid, d) && refund == if q.liquidity < ONE18 then Amt(c.refund, d) else 0
    ensures Bill(p, q, d, 0, paid + refund, UPTIME_COUNT, WithdrawLoss(p.factor, short, q.liquidity))
  {
    WithdrawBalance(p, c, q, refund, d, short);
    PaidTogether(p.factor, paid, refund);
    BillIf(p, q, d, 0, paid + refund, UPTIME_COUNT, WithdrawLoss(p.factor, short, q.liquidity), Remaining(p.incentives, d) - Remaining(q.incentives, d));
  }

  /** What a claim alone may lose: less than a coin per accumulator, and all that it forfeits. */
  function ClaimLoss(factor: int, short: int, forfeited: int): int { Dust(factor) + short + ONE18 * (ONE18 * forfeited) }

  lemma ForfeitNumbers(given: int, owed: int, paid: int, forfeited: int, lost: int)
    requires forfeited >= 0 && Balanced(given, owed + ONE18 * (ONE18 * (paid + forfeited)), lost, UPTIME_COUNT)
    ensures Balanced(given, owed + ONE18 * (ONE18 * paid), lost + ONE18 * (ONE18 * forfeited), UPTIME_COUNT)
  {
    UnfoldBalanced(given, owed + ONE18 * (ONE18 * (paid + forfeited)), lost, UPTIME_COUNT);
    UnfoldBalanced(given, owed + ONE18 * (ONE18 * paid), lost + ONE18 * (ONE18 * forfeited), UPTIME_COUNT);
  }

  /** The same for a claim alone; what it forfeits is lost to everyone. */
  lemma CollectBill(p: Pool, c: Receipt, d: string, short: int)
    requires ClaimBill(p, c, d, short)
    ensures Bill(p, c.pool, d, 0, Amt(c.paid, d), UPTIME_COUNT, ClaimLoss(p.factor, short, TotalOf(c.forfeited, d)))
  {
    var f, debit := p.factor, Remaining(p.incentives, d) - Remaining(c.pool.incentives, d);
    TotalNonNegative(c.forfeited, d);
    assert 0 * f == 0;
    ForfeitNumbers(OwedAll(p, d) + ONE18 * (debit * f), OwedAll(c.pool, d), f * Amt(c.paid, d), TotalOf(c.forfeited, d), Dust(f) + short);
    BillIf(p, c.pool, d, 0, Amt(c.paid, d), UPTIME_COUNT, ClaimLoss(f, short, TotalOf(c.forfeited, d)), debit);
  }

  // ------------------------------------------------------------------------------- creation

  lemma CreatingKeeps(p: Pool, id: nat, denom: string, amount: int, rate: int, start: int, uptime: nat, now: int, d: string)
    requires PoolInv(p) && p.lastUpdate <= now && amount > 0 && rate > 0 && start >= now && uptime < UPTIME_COUNT
    ensures Created(p, id, denom, amount, rate, start, uptime, now).Ok?
    ensures var q := Created(p, id, denom, amount, rate, start, uptime, now).value;
            PoolInv(q) && Bill(p, q, d, if denom == d then amount else 0, 0, 0, Shortfall(p, now))
  {
    SyncKeeps(p, now, d);
    var q, r := Synced(p, now).value, Incentive(id, uptime, denom, amount * ONE18, rate, start);
    var q' := q.(incentives := q.incentives + [r]);
    SnocRemaining(q.incentives, r, d);
    CreateBill(p, q, q', d, if denom == d then amount else 0, Shortfall(p, now));
    UnfoldPool(q);
    UnfoldPool(q');
  }

  lemma CreateBill(p: Pool, q: Pool, q': Pool, d: string, deposit: int, short: int)
    requires Bill(p, q, d, 0, 0, 0, short) && q'.factor == q.factor && OwedAll(q', d) == OwedAll(q, d)
    requires Remaining(q'.incentives, d) == Remaining(q.incentives, d) + ONE18 * deposit
    ensures Bill(p, q', d, deposit, 0, 0, short)
  {
  }

  // -------------------------------------------------------------------------------- crossing

  lemma TurnAll(xs: seq<Uptime>, s: Scene, t: int, tick': int, d: string)
    requires |xs| == UPTIME_COUNT && AllGood(xs, s) && t in s.ticks
    requires forall r | r in s.ticks :: (s.tick < r) != (tick' < r) <==> r == t
    ensures var acts := Copies(Turn(t));
            && AllDo(xs, s.tick, acts) && AllGood(After(xs, s.tick, acts), s.(tick := tick'))
            && TotalOwed(After(xs, s.tick, acts), s.(tick := tick'), d) == TotalOwed(xs, s, d)
  {
    forall u | 0 <= u < |xs| ensures Keeps(xs[u], s, Turn(t), s.(tick := tick'), d, 0, 0) {
      TurnKeeps(xs[u], s, t, tick', d);
    }
    EachKeepsOwed(xs, s, Turn(t), s.(tick := tick'), d);
  }

  /** The net liquidity kept at the tick is exactly what enters or leaves the range. */
  lemma TurnedLiquidity(p: Pool, t: int, up: bool)
    requires PoolInv(p) && NextTick(p, t, up)
    ensures var net := InfoAt(p.ticks, t).net;
            p.liquidity + (if up then net else -net) == ActiveLiquidity(p.positions, if up then t else t - 1)
  {
    UnfoldPool(p);
    UnfoldTicks(p.ticks, p.positions);
    var a, b := if up then p.tick else t - 1, if up then t else p.tick;
    forall n | n in p.positions
      ensures a < p.positions[n].lower <= b ==> p.positions[n].lower == t
      ensures a < p.positions[n].upper <= b ==> p.positions[n].upper == t
    {
      assert Bounds(p.positions[n], p.positions[n].lower) && Bounds(p.positions[n], p.positions[n].upper);
      assert p.positions[n].lower in p.ticks && p.positions[n].upper in p.ticks;
    }
    CrossedLiquidity(p.positions, a, t, b);
  }

  /** Crossing the next tick never fails, and the pool's liquidity stays what is in range. */
  lemma CrossingKeeps(p: Pool, t: int, up: bool, now: int, d: string)
    requires PoolInv(p) && p.lastUpdate <= now && NextTick(p, t, up)
    ensures Crossed(p, t, up, now).Ok?
    ensures var q := Crossed(p, t, up, now).value;
            PoolInv(q) && Bill(p, q, d, 0, 0, 0, Shortfall(p, now))
  {
    SyncKeeps(p, now, d);
    var q := Synced(p, now).value;
    UnfoldPool(q);
    TurnAll(q.uptimes, SceneOf(q), t, if up then t else t - 1, d);
    TurnedLiquidity(q, t, up);
    var r := Crossed(p, t, up, now).value;
    LaterBill(p, q, r, d, Shortfall(p, now));
    UnfoldPool(r);
  }

  lemma LaterBill(p: Pool, q: Pool, r: Pool, d: string, short: int)
    requires Bill(p, q, d, 0, 0, 0, short) && r.factor == q.factor && OwedAll(r, d) == OwedAll(q, d) && r.incentives == q.incentives
    ensures Bill(p, r, d, 0, 0, 0, short)
  {
  }

  lemma MovingKeeps(p: Pool, tick: int, d: string)
    requires PoolInv(p) && Moved(p, tick).Ok?
    ensures PoolInv(Moved(p, tick).value) && Bill(p, Moved(p, tick).value, d, 0, 0, 0, 0)
  {
    UnfoldPool(p);
    UnfoldPool(p.(tick := tick));
    RestAll(p.uptimes, SceneOf(p), tick, d);
    UnfoldTicks(p.ticks, p.positions);
    forall n | n in p.positions
      ensures (p.tick < p.positions[n].lower) == (tick < p.positions[n].lower)
      ensures (p.tick < p.positions[n].upper) == (tick < p.positions[n].upper)
    {
      assert Bounds(p.positions[n], p.positions[n].lower) && Bounds(p.positions[n], p.positions[n].upper);
      assert p.positions[n].lower in p.ticks && p.positions[n].upper in p.ticks;
    }
    if p.tick <= tick {
      UncrossedLiquidity(p.positions, p.tick, tick);
    } else {
      UncrossedLiquidity(p.positions, tick, p.tick);
    }
    QuietBill(p, p.(tick := tick), d);
  }

  // ---------------------------------------------------------------------------- new positions

  lemma InitAll(xs: seq<Uptime>, s: Scene, pos: Position, d: string)
    requires |xs| == UPTIME_COUNT && AllGood(xs, s)
    ensures var s' := s.(ticks := s.ticks + {pos.lower, pos.upper});
            AllGood(After(xs, s.tick, Copies(Init(pos))), s')
            && TotalOwed(After(xs, s.tick, Copies(Init(pos))), s', d) == TotalOwed(xs, s, d)
  {
    var s' := s.(ticks := s.ticks + {pos.lower, pos.upper});
    forall u | 0 <= u < |xs| ensures Keeps(xs[u], s, Init(pos), s', d, 0, 0) {
      InitKeeps(xs[u], s, pos, d);
    }
    EachKeepsOwed(xs, s, Init(pos), s', d);
  }

  lemma EnterAll(xs: seq<Uptime>, s: Scene, n: string, pos: Position, d: string)
    requires |xs| == UPTIME_COUNT && AllGood(xs, s) && n !in s.positions
    requires pos.lower < pos.upper && pos.lower in s.ticks && pos.upper in s.ticks && pos.liquidity > 0
    ensures var s', acts := s.(positions := s.positions[n := pos]), Copies(Enter(n, pos));
            && AllDo(xs, s.tick, acts) && AllGood(After(xs, s.tick, acts), s')
            && TotalOwed(After(xs, s.tick, acts), s', d) == TotalOwed(xs, s, d)
  {
    var s' := s.(positions := s.positions[n := pos]);
    forall u | 0 <= u < |xs| ensures Keeps(xs[u], s, Enter(n, pos), s', d, 0, 0) {
      EnterKeeps(xs[u], s, n, pos, d);
    }
    EachKeepsOwed(xs, s, Enter(n, pos), s', d);
  }

  lemma EnteredTicks(ticks: Ticks, ps: Positions, n: string, pos: Position)
    requires TicksGood(ticks, ps) && n !in ps && pos.lower < pos.upper && pos.liquidity > 0
    ensures TicksGood(UpdateBounds(ticks, pos, pos.liquidity), ps[n := pos])
    ensures UpdateBounds(ticks, pos, pos.liquidity).Keys == ticks.Keys + {pos.lower, pos.upper}
  {
    UnfoldTicks(ticks, ps);
    var ticks', ps' := UpdateBounds(ticks, pos, pos.liquidity), ps[n := pos];
    UnfoldTicks(ticks', ps');
    PutAgree(ticks, ps, n, pos, pos.liquidity);
    forall t ensures t in ticks' <==> InUse(ps', t) {
      EnteredUse(ps, n, pos, t);
    }
  }

  lemma EnteredUse(ps: Positions, n: string, pos: Position, t: int)
    requires n !in ps
    ensures InUse(ps[n := pos], t) <==> InUse(ps, t) || Bounds(pos, t)
  {
    var ps' := ps[n := pos];
    if InUse(ps, t) {
      var m :| m in ps && Bounds(ps[m], t);
      assert m in ps' && Bounds(ps'[m], t);
    }
    if Bounds(pos, t) {
      assert n in ps' && Bounds(ps'[n], t);
    }
  }

  /** The accumulators of a synced pool with the new position, and its ticks and liquidity. */
  lemma EnteredKeeps(q: Pool, r: Pool, n: string, pos: Position, d: string)
    requires PoolInv(q) && n !in q.positions && pos.lower < pos.upper && pos.liquidity > 0
    requires r == q.(ticks := UpdateBounds(q.ticks, pos, pos.liquidity), uptimes := r.uptimes,
                     positions := q.positions[n := pos], liquidity := ActiveAfter(q, pos, pos.liquidity))
    requires |r.uptimes| == UPTIME_COUNT && AllGood(r.uptimes, Scene(q.tick, q.positions[n := pos], q.ticks.Keys + {pos.lower, pos.upper}))
    ensures PoolInv(r) && SceneOf(r) == Scene(q.tick, q.positions[n := pos], q.ticks.Keys + {pos.lower, pos.upper})
  {
    UnfoldPool(q);
    UnfoldPool(r);
    EnteredTicks(q.ticks, q.positions, n, pos);
    PutActive(q.positions, n, pos, q.tick);
  }

  lemma FirstTick(p: Pool, tick: int, d: string)
    requires PoolInv(p) && |p.positions| == 0
    ensures PoolInv(p.(tick := tick)) && OwedAll(p.(tick := tick), d) == OwedAll(p, d)
  {
    UnfoldPool(p);
    UnfoldPool(p.(tick := tick));
    RestAll(p.uptimes, SceneOf(p), tick, d);
    assert p.positions == map[];
    NoLiquidity(p.tick, tick);
  }

  /** A new position never fails and is owed nothing yet. */
  lemma JoiningKeeps(p: Pool, n: string, pos: Position, firstTick: int, now: int, d: string)
    requires PoolInv(p) && p.lastUpdate <= now && pos.joinTime == now && pos.lower < pos.upper && pos.liquidity > 0
    requires n !in p.positions && forall u | 0 <= u < UPTIME_COUNT :: n !in p.uptimes[u].acc.positions
    ensures Joined(p, n, pos, firstTick, now).Ok?
    ensures var r := Joined(p, n, pos, firstTick, now).value;
            PoolInv(r) && Bill(p, r, d, 0, 0, 0, Shortfall(p, now))
  {
    var p0 := if |p.positions| == 0 then p.(tick := firstTick) else p;
    if |p.positions| == 0 {
      FirstTick(p, firstTick, d);
    }
    SyncKeeps(p0, now, d);
    var q := Synced(p0, now).value;
    EnteredOwed(q, n, pos, d);
    var r := Joined(p, n, pos, firstTick, now).value;
    EnteredKeeps(q, r, n, pos, d);
    SameShortfall(p, p0.tick, now);
    EarlierBill(p, p0, q, d, Shortfall(p, now));
    LaterBill(p, q, r, d, Shortfall(p, now));
  }

  lemma SameShortfall(p: Pool, tick: int, now: int)
    ensures Shortfall(p.(tick := tick), now) == Shortfall(p, now)
  {
    UnfoldShortfall(p, now);
    UnfoldShortfall(p.(tick := tick), now);
  }

  lemma EarlierBill(p: Pool, p0: Pool, q: Pool, d: string, short: int)
    requires p0.factor == p.factor && p0.incentives == p.incentives && OwedAll(p0, d) == OwedAll(p, d)
    requires Bill(p0, q, d, 0, 0, 0, short)
    ensures Bill(p, q, d, 0, 0, 0, short)
  {
  }

  lemma EnteredOwed(q: Pool, n: string, pos: Position, d: string)
    requires PoolInv(q) && n !in q.positions && pos.lower < pos.upper && pos.liquidity > 0
    ensures var xs, s' := After(q.uptimes, q.tick, Copies(Init(pos))), Scene(q.tick, q.positions[n := pos], q.ticks.Keys + {pos.lower, pos.upper});
            && AllDo(xs, q.tick, Copies(Enter(n, pos)))
            && AllGood(After(xs, q.tick, Copies(Enter(n, pos))), s')
            && TotalOwed(After(xs, q.tick, Copies(Enter(n, pos))), s', d) == OwedAll(q, d)
  {
    UnfoldPool(q);
    var s := SceneOf(q);
    InitAll(q.uptimes, s, pos, d);
    EnterAll(After(q.uptimes, q.tick, Copies(Init(pos))), s.(ticks := s.ticks + {pos.lower, pos.upper}), n, pos, d);
  }

  // ------------------------------------------------------------------------------ migration

  /** The migration never fails on a live pool and multiplies what is owed by exactly the factor. */
  lemma MigratingKeeps(p: Pool, d: string)
    requires PoolInv(p) && p.factor == 1
    ensures Magnified(p).Ok?
    ensures var q := Magnified(p).value;
            PoolInv(q) && OwedAll(q, d) == SCALE * OwedAll(p, d)
  {
    UnfoldPool(p);
    var s := SceneOf(p);
    var gains, acts := Scaled(Oweds(p.uptimes, s, d), 2 * (SCALE - 1)), Copies(Magnify(p.positions.Keys));
    forall u | 0 <= u < |p.uptimes| ensures Keeps(p.uptimes[u], s, acts[u], s, d, gains[u], gains[u]) {
      MagnifyKeeps(p.uptimes[u], s, d);
      assert gains[u] == 2 * ((SCALE - 1) * OwedIn(p.uptimes[u], s, d));
    }
    EachKeeps(p.uptimes, s, acts, s, d, gains, gains);
    UnpaidTotal(p.uptimes, s.tick, acts, d);
    UnfoldTotalOwed(p.uptimes, s, d);
    SumScaled(Oweds(p.uptimes, s, d), gains, 2 * (SCALE - 1), |p.uptimes|);
    UnfoldPool(Magnified(p).value);
  }
}
