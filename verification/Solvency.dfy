/** Solvency of a pool's incentives over whole runs. */
module Solvency {
  import opened FixedPoint
  import opened Coins
  import opened Folding
  import opened MapSums
  import opened Options
  import AccumulatorState
  import opened Emission
  import opened Stakes
  import opened UptimeAccumulator
  import opened Migration
  import opened UptimeActs
  import opened TickLiquidity
  import opened IncentivePool
  import opened IncentiveSteps
  import opened IncentiveOps
  import opened IncentiveKeeps

  datatype Op =
    | Create(id: nat, denom: string, amount: int, rate: int, start: int, uptime: nat, now: int)
    | Sync(now: int)
    | Join(n: string, pos: Position, firstTick: int, now: int)
    | Collect(n: string, now: int)
    | Withdraw(n: string, amount: int, now: int)
    | Cross(t: int, up: bool, now: int)
    | Move(tick: int)
    | Migrate

  /** The pool with the coins its incentives account has received and paid, and what can make
      the two differ: how often a position's rewards were settled in an accumulator, how often
      a fraction of a coin was dropped, what updates and redeposits fell short of what they
      divided, in units of 10^-36 scaled coins, and the scaled coins that claims forfeited to
      no one.  A migration scales all but the second. */
  datatype Ledger = Ledger(pool: Pool, deposited: DecCoins, paid: DecCoins,
                           settled: int, fractions: int, short: int, forfeited: DecCoins)

  ghost predicate Shaped(p: Pool) { |p.uptimes| == UPTIME_COUNT && p.factor > 0 }

  /** The coins of all accumulators. */
  ghost function Together(cs: seq<DecCoins>, k: nat): DecCoins
    requires k <= |cs|
  {
    if k == 0 then map[] else Plus(Together(cs, k - 1), cs[k - 1])
  }

  /** The ledger after an operation that updates the pool to `now`. */
  ghost function Updated(l: Ledger, r: Result<Pool, Failure>, now: int): Ledger {
    if r.Err? then l else l.(pool := r.value, short := l.short + Shortfall(l.pool, now))
  }

  /** One operation; one that fails changes nothing. */
  ghost function Step(l: Ledger, op: Op): Ledger
    requires Shaped(l.pool)
  {
    match op
    case Create(id, denom, amount, rate, start, uptime, now) =>
      var r := Created(l.pool, id, denom, amount, rate, start, uptime, now);
      if r.Err? then l else Updated(l, r, now).(deposited := Plus(l.deposited, map[denom := amount]))
    case Sync(now) => Updated(l, Synced(l.pool, now), now)
    case Join(n, pos, firstTick, now) => Updated(l, Joined(l.pool, n, pos, firstTick, now), now)
    case Collect(n, now) =>
      var r := Collected(l.pool, n, now);
      if r.Err? then l else
        l.(pool := r.value.pool, paid := Plus(l.paid, r.value.paid),
           settled := l.settled + UPTIME_COUNT, fractions := l.fractions + UPTIME_COUNT, short := l.short + Shortfall(l.pool, now),
           forfeited := Plus(l.forfeited, Together(r.value.forfeited, UPTIME_COUNT)))
    case Withdraw(n, amount, now) =>
      var r := Withdrawn(l.pool, n, amount, now);
      if r.Err? then l else
        var active := r.value.pool.liquidity;
        l.(pool := r.value.pool, paid := Plus(l.paid, Plus(r.value.paid, r.value.refund)),
           settled := l.settled + UPTIME_COUNT, fractions := l.fractions + (if active < ONE18 then 2 else 1) * UPTIME_COUNT,
           short := l.short + Shortfall(l.pool, now) + ReturnShort(active))
    case Cross(t, up, now) => Updated(l, Crossed(l.pool, t, up, now), now)
    case Move(tick) => var r := Moved(l.pool, tick); if r.Err? then l else l.(pool := r.value)
    case Migrate =>
      var r := Magnified(l.pool);
      if r.Err? then l else
        l.(pool := r.value, settled := l.settled * SCALE, short := l.short * SCALE, forfeited := UpCoins(l.forfeited))
  }

  ghost function NextPair(y: (Ledger, Op)): Ledger { if Shaped(y.0.pool) then Step(y.0, y.1) else y.0 }

  /** `Step`, kept folded. */
  ghost function Next(l: Ledger, op: Op): Ledger { FoldedFn(NextPair)((l, op)) }

  ghost function NewLedger(factor: int, start: int): Ledger { Ledger(NewPool(factor, start), map[], map[], 0, 0, 0, map[]) }

  /** The ledger after a run of operations on a new pool. */
  ghost function Run(factor: int, start: int, ops: seq<Op>): Ledger {
    if ops == [] then NewLedger(factor, start) else
      Next(Run(factor, start, ops[..|ops| - 1]), ops[|ops| - 1])
  }

  /** All that can be lost, in units of 10^-36 scaled coins: less than a coin for each fraction
      dropped, what fell short, and what claims forfeited. */
  ghost function LostPair(y: (Ledger, string)): int {
    y.0.fractions * (ONE18 * (ONE18 * y.0.pool.factor)) + y.0.short + ONE18 * (ONE18 * Amt(y.0.forfeited, y.1))
  }

  /** `LostPair`, kept folded. */
  ghost function Lost(l: Ledger, d: string): int { FoldedFn(LostPair)((l, d)) }

  lemma UnfoldLost(l: Ledger, d: string)
    ensures Lost(l, d) == LostPair((l, d))
  {
    UnfoldFn(LostPair, (l, d));
  }

  lemma ShortLost(l: Ledger, l': Ledger, d: string, short: int)
    requires l'.pool.factor == l.pool.factor && l'.fractions == l.fractions && l'.short == l.short + short && l'.forfeited == l.forfeited
    ensures Lost(l', d) == Lost(l, d) + short
  {
    UnfoldLost(l, d);
    UnfoldLost(l', d);
  }

  /** What was deposited and is not left in the records. */
  ghost function Spent(l: Ledger, d: string): int { ONE18 * Amt(l.deposited, d) - Remaining(l.pool.incentives, d) }

  /** The books balance: what was spent is what was paid and what is still owed, but for what
      is lost and for half a unit of 10^-18 scaled coins per settlement. */
  ghost predicate Accounted(l: Ledger, d: string) {
    Balanced(ONE18 * (Spent(l, d) * l.pool.factor), OwedAll(l.pool, d) + ONE18 * (ONE18 * (l.pool.factor * Amt(l.paid, d))),
             Lost(l, d), l.settled)
  }

  // ---------------------------------------------------------------------------- one step

  /** What every step has to keep. */
  ghost predicate Sound(l: Ledger, d: string) { PoolInv(l.pool) && Accounted(l, d) && Amt(l.paid, d) >= 0 }

  ghost predicate Carries(l: Ledger, l': Ledger, d: string) {
    Sound(l', d) && (l.pool.factor == SCALE ==> l'.pool.factor == SCALE)
  }

  lemma PayBill(l: Ledger, l': Ledger, d: string, deposit: int, paid: int, settled: int, lost: int)
    requires Accounted(l, d) && Bill(l.pool, l'.pool, d, deposit, paid, settled, lost)
    requires Amt(l'.deposited, d) == Amt(l.deposited, d) + deposit
    requires Amt(l'.paid, d) == Amt(l.paid, d) + paid && l'.settled == l.settled + settled && Lost(l', d) == Lost(l, d) + lost
    ensures Accounted(l', d)
  {
    var f, debit := l.pool.factor, Remaining(l.pool.incentives, d) - Remaining(l'.pool.incentives, d) + ONE18 * deposit;
    PayNumbers(Spent(l, d) * f, OwedAll(l.pool, d), f * Amt(l.paid, d), Lost(l, d), l.settled,
               debit * f, OwedAll(l'.pool, d), f * paid, lost, settled);
    PayProducts(f, Spent(l, d), debit, Amt(l.paid, d), paid);
  }

  lemma PayProducts(f: int, spent: int, debit: int, out: int, paid: int)
    ensures (spent + debit) * f == spent * f + debit * f && f * (out + paid) == f * out + f * paid
  {
  }

  lemma PayNumbers(spent: int, owed: int, out: int, before: int, k: int, debit: int, owed': int, paid: int, lost: int, settled: int)
    requires Balanced(ONE18 * spent, owed + ONE18 * (ONE18 * out), before, k)
    requires Balanced(owed + ONE18 * debit, owed' + ONE18 * (ONE18 * paid), lost, settled)
    ensures Balanced(ONE18 * (spent + debit), owed' + ONE18 * (ONE18 * (out + paid)), before + lost, k + settled)
  {
    UnfoldBalanced(ONE18 * spent, owed + ONE18 * (ONE18 * out), before, k);
    UnfoldBalanced(owed + ONE18 * debit, owed' + ONE18 * (ONE18 * paid), lost, settled);
    UnfoldBalanced(ONE18 * (spent + debit), owed' + ONE18 * (ONE18 * (out + paid)), before + lost, k + settled);
  }

  lemma SyncedOnTime(p: Pool, now: int)
    requires |p.uptimes| == UPTIME_COUNT && Synced(p, now).Ok?
    ensures p.lastUpdate <= now
  {
    UnfoldSynced(p, now);
  }

  lemma CreateStep(l: Ledger, op: Op, d: string)
    requires Sound(l, d) && op.Create?
    ensures Carries(l, Step(l, op), d)
  {
    var p := l.pool;
    if Created(p, op.id, op.denom, op.amount, op.rate, op.start, op.uptime, op.now).Ok? {
      SyncedOnTime(p, op.now);
      CreatingKeeps(p, op.id, op.denom, op.amount, op.rate, op.start, op.uptime, op.now, d);
      ShortLost(l, Step(l, op), d, Shortfall(p, op.now));
      PayBill(l, Step(l, op), d, if op.denom == d then op.amount else 0, 0, 0, Shortfall(p, op.now));
    }
  }

  lemma SyncStep(l: Ledger, op: Op, d: string)
    requires Sound(l, d) && op.Sync?
    ensures Carries(l, Step(l, op), d)
  {
    if Synced(l.pool, op.now).Ok? {
      SyncedOnTime(l.pool, op.now);
      SyncKeeps(l.pool, op.now, d);
      ShortLost(l, Step(l, op), d, Shortfall(l.pool, op.now));
      PayBill(l, Step(l, op), d, 0, 0, 0, Shortfall(l.pool, op.now));
    }
  }

  lemma JoinStep(l: Ledger, op: Op, d: string)
    requires Sound(l, d) && op.Join?
    ensures Carries(l, Step(l, op), d)
  {
    var p := l.pool;
    if Joined(p, op.n, op.pos, op.firstTick, op.now).Ok? {
      SyncedOnTime(if |p.positions| == 0 then p.(tick := op.firstTick) else p, op.now);
      JoiningKeeps(p, op.n, op.pos, op.firstTick, op.now, d);
      ShortLost(l, Step(l, op), d, Shortfall(p, op.now));
      PayBill(l, Step(l, op), d, 0, 0, 0, Shortfall(p, op.now));
    }
  }

  lemma {:induction false} TogetherSum(cs: seq<DecCoins>, k: nat, d: string)
    requires k <= |cs|
    ensures Amt(Together(cs, k), d) == SumTo(Amounts(cs, d), k)
  {
    if k > 0 {
      TogetherSum(cs, k - 1, d);
    }
  }

  lemma TogetherAmount(cs: seq<DecCoins>, d: string)
    ensures Amt(Together(cs, |cs|), d) == TotalOf(cs, d)
  {
    TogetherSum(cs, |cs|, d);
    UnfoldTotal(cs, d);
  }

  lemma FractionsMore(fractions: int, k: int, coin: int)
    ensures (fractions + k) * coin == fractions * coin + k * coin
  {
  }

  lemma CollectLost(l: Ledger, l': Ledger, d: string, short: int, forfeited: int)
    requires l'.pool.factor == l.pool.factor && l'.fractions == l.fractions + UPTIME_COUNT
    requires l'.short == l.short + short && Amt(l'.forfeited, d) == Amt(l.forfeited, d) + forfeited
    ensures Lost(l', d) == Lost(l, d) + ClaimLoss(l.pool.factor, short, forfeited)
  {
    UnfoldLost(l, d);
    UnfoldLost(l', d);
    FractionsMore(l.fractions, UPTIME_COUNT, ONE18 * (ONE18 * l.pool.factor));
  }

  lemma WithdrawLost(l: Ledger, l': Ledger, d: string, short: int, active: int)
    requires l'.pool.factor == l.pool.factor && l'.fractions == l.fractions + (if active < ONE18 then 2 else 1) * UPTIME_COUNT
    requires l'.short == l.short + short + ReturnShort(active) && l'.forfeited == l.forfeited
    ensures Lost(l', d) == Lost(l, d) + WithdrawLoss(l.pool.factor, short, active)
  {
    UnfoldLost(l, d);
    UnfoldLost(l', d);
    FractionsMore(l.fractions, (if active < ONE18 then 2 else 1) * UPTIME_COUNT, ONE18 * (ONE18 * l.pool.factor));
  }

  lemma CollectStep(l: Ledger, op: Op, d: string)
    requires Sound(l, d) && op.Collect?
    ensures Carries(l, Step(l, op), d)
  {
    if Collected(l.pool, op.n, op.now).Ok? {
      SyncedOnTime(l.pool, op.now);
      CollectingKeeps(l.pool, op.n, op.now, d);
      var r := Collected(l.pool, op.n, op.now).value;
      var short := Shortfall(l.pool, op.now);
      CollectBill(l.pool, r, d, short);
      TogetherAmount(r.forfeited, d);
      CollectLost(l, Step(l, op), d, short, TotalOf(r.forfeited, d));
      PayBill(l, Step(l, op), d, 0, Amt(r.paid, d), UPTIME_COUNT, ClaimLoss(l.pool.factor, short, TotalOf(r.forfeited, d)));
    }
  }

  /** A withdrawal of nothing fails. */
  lemma NothingToWithdraw(xs: seq<Uptime>, tick: int, n: string, pos: Position)
    requires |xs| == UPTIME_COUNT
    ensures !AllDo(xs, tick, Copies(Change(n, pos, 0)))
  {
    UnfoldDo(xs[0], tick, Change(n, pos, 0));
    assert Copies(Change(n, pos, 0))[0] == Change(n, pos, 0);
    assert Do(xs[0], tick, Change(n, pos, 0)).Err?;
  }

  /** A withdrawal that succeeds had its arguments in order. */
  lemma WithdrawnWhen(p: Pool, n: string, amount: int, now: int)
    requires Shaped(p) && Withdrawn(p, n, amount, now).Ok?
    ensures n in p.positions && 0 < amount <= p.positions[n].liquidity && p.lastUpdate <= now && p.positions[n].joinTime <= now
  {
    SyncedOnTime(p, now);
    var c := Collected(p, n, now).value;
    NothingToWithdraw(c.pool.uptimes, c.pool.tick, n, p.positions[n]);
  }

  lemma WithdrawStep(l: Ledger, op: Op, d: string)
    requires Sound(l, d) && op.Withdraw?
    ensures Carries(l, Step(l, op), d)
  {
    if Withdrawn(l.pool, op.n, op.amount, op.now).Ok? {
      WithdrawnWhen(l.pool, op.n, op.amount, op.now);
      WithdrawingKeeps(l.pool, op.n, op.amount, op.now, d);
      var r, short := Withdrawn(l.pool, op.n, op.amount, op.now).value, Shortfall(l.pool, op.now);
      WithdrawLost(l, Step(l, op), d, short, r.pool.liquidity);
      PayBill(l, Step(l, op), d, 0, PaidBy(r, d), UPTIME_COUNT, WithdrawLoss(l.pool.factor, short, r.pool.liquidity));
    }
  }

  lemma CrossStep(l: Ledger, op: Op, d: string)
    requires Sound(l, d) && op.Cross?
    ensures Carries(l, Step(l, op), d)
  {
    if Crossed(l.pool, op.t, op.up, op.now).Ok? {
      SyncedOnTime(l.pool, op.now);
      CrossingKeeps(l.pool, op.t, op.up, op.now, d);
      ShortLost(l, Step(l, op), d, Shortfall(l.pool, op.now));
      PayBill(l, Step(l, op), d, 0, 0, 0, Shortfall(l.pool, op.now));
    }
  }

  lemma MoveStep(l: Ledger, op: Op, d: string)
    requires Sound(l, d) && op.Move?
    ensures Carries(l, Step(l, op), d)
  {
    if Moved(l.pool, op.tick).Ok? {
      MovingKeeps(l.pool, op.tick, d);
      ShortLost(l, Step(l, op), d, 0);
      PayBill(l, Step(l, op), d, 0, 0, 0, 0);
    }
  }

  lemma MigrateStep(l: Ledger, op: Op, d: string)
    requires Sound(l, d) && op.Migrate?
    ensures Carries(l, Step(l, op), d)
  {
    if Magnified(l.pool).Ok? {
      MigratingKeeps(l.pool, d);
      MigrateLost(l, Step(l, op), d);
      MigrateNumbers(OwedAll(l.pool, d), Amt(l.paid, d), Spent(l, d), Lost(l, d), l.settled);
    }
  }

  lemma MigrateNumbers(owed: int, paid: int, spent: int, lost: int, settled: int)
    requires Balanced(ONE18 * (spent * 1), owed + ONE18 * (ONE18 * (1 * paid)), lost, settled)
    ensures Balanced(ONE18 * (spent * SCALE), SCALE * owed + ONE18 * (ONE18 * (SCALE * paid)), SCALE * lost, settled * SCALE)
  {
    UnfoldBalanced(ONE18 * (spent * 1), owed + ONE18 * (ONE18 * (1 * paid)), lost, settled);
    UnfoldBalanced(ONE18 * (spent * SCALE), SCALE * owed + ONE18 * (ONE18 * (SCALE * paid)), SCALE * lost, settled * SCALE);
  }

  lemma MigrateLost(l: Ledger, l': Ledger, d: string)
    requires l.pool.factor == 1 && l'.pool.factor == SCALE && l'.fractions == l.fractions
    requires l'.short == l.short * SCALE && Amt(l'.forfeited, d) == Amt(l.forfeited, d) * SCALE
    ensures Lost(l', d) == SCALE * Lost(l, d)
  {
    UnfoldLost(l, d);
    UnfoldLost(l', d);
  }

  lemma StepSound(l: Ledger, op: Op, d: string)
    requires Sound(l, d)
    ensures Carries(l, Step(l, op), d)
  {
    match op
    case Create(_, _, _, _, _, _, _) => CreateStep(l, op, d);
    case Sync(_) => SyncStep(l, op, d);
    case Join(_, _, _, _) => JoinStep(l, op, d);
    case Collect(_, _) => CollectStep(l, op, d);
    case Withdraw(_, _, _) => WithdrawStep(l, op, d);
    case Cross(_, _, _) => CrossStep(l, op, d);
    case Move(_) => MoveStep(l, op, d);
    case Migrate => MigrateStep(l, op, d);
  }

  // ------------------------------------------------------------------------------- runs

  lemma NewUptimeGood(d: string)
    ensures Good(Uptime(AccumulatorState.Initial, map[]), Scene(0, map[], {}))
    ensures OwedIn(Uptime(AccumulatorState.Initial, map[]), Scene(0, map[], {}), d) == 0
  {
    var x := Uptime(AccumulatorState.Initial, map[]);
    UnfoldGood(x, Scene(0, map[], {}));
    UptimeAccumulator.UnfoldInv(x, 0, map[]);
    UnfoldClear(x, map[]);
    NoPositions(x, 0, 0, d);
  }

  lemma NewPoolSound(factor: int, now: int, d: string)
    requires factor >= 1
    ensures Sound(NewLedger(factor, now), d)
  {
    var p := NewPool(factor, now);
    var s := SceneOf(p);
    assert s == Scene(0, map[], {});
    NewUptimeGood(d);
    UnfoldPool(p);
    UnfoldTicks(p.ticks, p.positions);
    assert forall t :: !InUse(p.positions, t);
    assert forall t :: GrossParts(p.positions, t) == map[] && NetParts(p.positions, t) == map[];
    assert LiquidityInRange(p.positions, 0) == map[];
    UnfoldLost(NewLedger(factor, now), d);
    UnfoldBalanced(0, 0, 0, 0);
    assert 0 * (ONE18 * (ONE18 * factor)) == 0 && 0 * factor == 0 && factor * 0 == 0;
    UnfoldTotalOwed(p.uptimes, s, d);
    SumZero(Oweds(p.uptimes, s, d), |p.uptimes|);
  }

  lemma NextSound(l: Ledger, op: Op, d: string)
    requires Sound(l, d)
    ensures Carries(l, Next(l, op), d)
  {
    UnfoldFn(NextPair, (l, op));
    StepSound(l, op, d);
  }

  /** Every run keeps the pool's invariant and stays covered. */
  lemma {:induction false} RunSound(factor: int, start: int, ops: seq<Op>, d: string)
    requires factor >= 1
    ensures Sound(Run(factor, start, ops), d) && (factor == SCALE ==> Run(factor, start, ops).pool.factor == SCALE)
  {
    if ops == [] {
      NewPoolSound(factor, start, d);
    } else {
      RunSound(factor, start, ops[..|ops| - 1], d);
      NextSound(Run(factor, start, ops[..|ops| - 1]), ops[|ops| - 1], d);
    }
  }

  lemma OwedAllNonNegative(p: Pool, d: string)
    requires PoolInv(p)
    ensures OwedAll(p, d) >= 0
  {
    UnfoldPool(p);
    var s := SceneOf(p);
    forall u | 0 <= u < |p.uptimes| ensures Oweds(p.uptimes, s, d)[u] >= 0 {
      UnfoldGood(p.uptimes[u], s);
      OwedNonNeg(p.uptimes[u], s.tick, s.positions, d);
    }
    UnfoldTotalOwed(p.uptimes, s, d);
    SumNonNegativeTo(Oweds(p.uptimes, s, d), |p.uptimes|);
  }

  /** Conservation: over every run and in every denomination, what was deposited and is not left
      in the records was paid, is still owed, or is one of the named losses, within half a unit
      per settlement; and no live position has unclaimed rewards. */
  lemma RunAccounted(factor: int, start: int, ops: seq<Op>, d: string)
    requires factor >= 1
    ensures var l := Run(factor, start, ops);
            && Accounted(l, d) && OwedAll(l.pool, d) >= 0 && Remaining(l.pool.incentives, d) >= 0
            && |l.pool.uptimes| == UPTIME_COUNT
            && forall u | 0 <= u < UPTIME_COUNT :: NothingUnclaimed(l.pool.uptimes[u], l.pool.positions)
  {
    RunSound(factor, start, ops, d);
    var l := Run(factor, start, ops);
    OwedAllNonNegative(l.pool, d);
    UnfoldPool(l.pool);
    RemainingNonNegative(l.pool.incentives, |l.pool.incentives|, d);
    forall u | 0 <= u < UPTIME_COUNT ensures NothingUnclaimed(l.pool.uptimes[u], l.pool.positions) {
      assert Good(l.pool.uptimes[u], SceneOf(l.pool));
      UnfoldGood(l.pool.uptimes[u], SceneOf(l.pool));
      UnfoldClear(l.pool.uptimes[u], l.pool.positions);
    }
  }

  lemma SolventNumbers(f: int, owed: int, paid: int, spent: int, lost: int, k: int)
    requires f >= 1 && owed >= 0 && Balanced(ONE18 * (spent * f), owed + ONE18 * (ONE18 * (f * paid)), lost, k)
    ensures 2 * (f * (ONE18 * paid - spent)) <= k
    ensures k < 2 * f ==> ONE18 * paid <= spent
  {
    UnfoldBalanced(ONE18 * (spent * f), owed + ONE18 * (ONE18 * (f * paid)), lost, k);
    assert 2 * (ONE18 * (f * paid)) <= 2 * (spent * f) + k;
    assert f * (ONE18 * paid - spent) == ONE18 * (f * paid) - spent * f;
    if ONE18 * paid > spent {
      MulMono(f, 1, ONE18 * paid - spent);
    }
  }

  /** Solvency: whatever positions were opened, resized and closed, whatever claims, forfeits,
      redeposits, tick crossings and migrations happened, and at whatever times, the coins paid
      exceed the incentives deposited minus those that remain by at most half a unit per
      settlement; on scaled pools with fewer than 2 * 10^27 settlements, not at all. */
  lemma RunSolvent(factor: int, start: int, ops: seq<Op>, d: string)
    requires factor >= 1
    ensures var l := Run(factor, start, ops);
            && 2 * (l.pool.factor * (ONE18 * Amt(l.paid, d) - Spent(l, d))) <= l.settled
            && (factor == SCALE && l.settled < 2 * SCALE ==> ONE18 * Amt(l.paid, d) <= Spent(l, d))
  {
    RunSound(factor, start, ops, d);
    RunAccounted(factor, start, ops, d);
    var l := Run(factor, start, ops);
    UnfoldPool(l.pool);
    SolventNumbers(l.pool.factor, OwedAll(l.pool, d), Amt(l.paid, d), Spent(l, d), Lost(l, d), l.settled);
  }

  lemma {:induction false} RemainingNonNegative(rs: seq<Incentive>, n: nat, d: string)
    requires AllOK(rs) && n <= |rs|
    ensures RemainingOf(rs, n, d) >= 0
  {
    if n > 0 {
      RemainingNonNegative(rs, n - 1, d);
    }
  }

  // ---------------------------------------------------------------------------- overflow

  lemma {:induction false} SumHolds(xs: seq<int>, u: nat, k: nat)
    requires u < k <= |xs| && forall v | 0 <= v < |xs| :: xs[v] >= 0
    ensures xs[u] <= SumTo(xs, k)
  {
    if u < k - 1 {
      SumHolds(xs, u, k - 1);
    } else {
      SumNonNegativeTo(xs, k - 1);
    }
  }

  /** One position's claim is part of what all are owed. */
  lemma ClaimIsOwed(x: Uptime, s: Scene, n: string, d: string)
    requires Good(x, s) && n in s.positions
    ensures 0 <= Claimable(BelowOf(x, s.tick, d), StakeAt(x, s.positions, n, d)) <= OwedIn(x, s, d)
  {
    UnfoldGood(x, s);
    UnfoldOwed(x, s.tick, s.positions, d);
    var h := Claims(BelowOf(x, s.tick, d), StakesOf(x, s.positions, d));
    forall k | k in h ensures h[k] >= 0 {
      StakeIsSolid(x, s.tick, s.positions, k, d);
      SolidClaim(BelowOf(x, s.tick, d), StakeAt(x, s.positions, k, d));
    }
    SumPick(h, n);
    SumNonNegative(h - {n});
  }

  lemma ClaimIsOwedAll(p: Pool, n: string, u: nat, d: string)
    requires PoolInv(p) && n in p.positions && u < UPTIME_COUNT
    ensures Claimable(BelowOf(p.uptimes[u], p.tick, d), StakeAt(p.uptimes[u], p.positions, n, d)) <= OwedAll(p, d)
  {
    UnfoldPool(p);
    var s := SceneOf(p);
    var xs := Oweds(p.uptimes, s, d);
    forall v | 0 <= v < |xs| ensures xs[v] >= 0 {
      ClaimIsOwed(p.uptimes[v], s, n, d);
    }
    ClaimIsOwed(p.uptimes[u], s, n, d);
    UnfoldTotalOwed(p.uptimes, s, d);
    SumHolds(xs, u, |xs|);
  }

  lemma RewardNumbers(f: int, reward: int, claim: int, owed: int, paid: int, spent: int, deposited: int, lost: int, k: int)
    requires f >= 1 && paid >= 0 && claim <= owed && 2 * (ONE18 * reward - claim) <= ONE18 && spent <= deposited
    requires Balanced(ONE18 * (spent * f), owed + ONE18 * (ONE18 * (f * paid)), lost, k)
    ensures 2 * reward <= 2 * (deposited * f) + k + 1
  {
    UnfoldBalanced(ONE18 * (spent * f), owed + ONE18 * (ONE18 * (f * paid)), lost, k);
    MulMono(f, 0, paid);
    MulMono(f, spent, deposited);
  }

  /** Every reward a claim computes after a run, before and after rounding to whole coins, is
      bounded by the deposits times the factor and half a unit per settlement: where that is
      less than 2^315 in raw decimals, the multiplication cannot overflow. */
  lemma RunRewardsFit(factor: int, start: int, ops: seq<Op>, n: string, u: nat, d: string)
    requires factor >= 1 && n in Run(factor, start, ops).pool.positions && u < UPTIME_COUNT
    ensures |Run(factor, start, ops).pool.uptimes| == UPTIME_COUNT
    ensures var l := Run(factor, start, ops); var p := l.pool;
            var reward := SettledIn(p.uptimes[u], p.tick, p.positions, n, d);
            && 0 <= 2 * reward <= 2 * (ONE18 * Amt(l.deposited, d) * p.factor) + l.settled + 1
            && (2 * (ONE18 * Amt(l.deposited, d) * p.factor) + l.settled + 1 < 2 * DEC_LIMIT ==> !Overflows(reward))
  {
    RunSound(factor, start, ops, d);
    var l := Run(factor, start, ops);
    var p := l.pool;
    UnfoldPool(p);
    RemainingNonNegative(p.incentives, |p.incentives|, d);
    ClaimIsOwedAll(p, n, u, d);
    UnfoldGood(p.uptimes[u], SceneOf(p));
    SettledIsNear(p.uptimes[u], p.tick, p.positions, n, d);
    RewardNumbers(p.factor, SettledIn(p.uptimes[u], p.tick, p.positions, n, d),
                  Claimable(BelowOf(p.uptimes[u], p.tick, d), StakeAt(p.uptimes[u], p.positions, n, d)),
                  OwedAll(p, d), Amt(l.paid, d), Spent(l, d), ONE18 * Amt(l.deposited, d), Lost(l, d), l.settled);
  }
}
