/** Which accumulators a claim pays from and which it forfeits, by the position's age in
    nanoseconds, and what becomes of a pool's positions. */
module ClaimRules {
  import opened FixedPoint
  import opened Coins
  import opened Folding
  import opened Options
  import AccumulatorState
  import opened Emission
  import opened UptimeAccumulator
  import opened UptimeActs
  import opened IncentivePool
  import opened IncentiveOps
  import opened IncentiveKeeps
  import opened SyncRules

  /** The age from which an accumulator pays: a nanosecond, a minute, an hour, a day, a week and
      a fortnight. */
  function PaysFrom(u: nat): int {
    if u == 0 then 1
    else if u == 1 then 60_000_000_000
    else if u == 2 then 3_600_000_000_000
    else if u == 3 then 86_400_000_000_000
    else if u == 4 then 604_800_000_000_000
    else 1_209_600_000_000_000
  }

  /** The scaled whole coins the position has earned in accumulator `u`: the growth inside its
      range since the last time, times its liquidity. */
  ghost function Earned(q: Pool, n: string, u: nat, d: string): int
    requires u < |q.uptimes| && n in q.positions
  {
    SettledIn(q.uptimes[u], q.tick, q.positions, n, d) / ONE18
  }

  /** The coins paid by the first `k` accumulators. */
  ghost function PaidOut(q: Pool, n: string, age: int, d: string, k: nat): int
    requires k <= |q.uptimes| && n in q.positions && q.factor > 0
  {
    if k == 0 then 0 else
      PaidOut(q, n, age, d, k - 1) + if PaysFrom(k - 1) <= age then Earned(q, n, k - 1, d) / q.factor else 0
  }

  /** The coins kept back by them. */
  ghost function KeptBack(q: Pool, n: string, age: int, d: string, k: nat): int
    requires k <= |q.uptimes| && n in q.positions && q.factor > 0
  {
    if k == 0 then 0 else
      KeptBack(q, n, age, d, k - 1) + if PaysFrom(k - 1) <= age then 0 else Earned(q, n, k - 1, d) / q.factor
  }

  lemma UptimesAre(u: nat)
    requires u < UPTIME_COUNT
    ensures UPTIMES[u] == PaysFrom(u)
  {
  }

  // ------------------------------------------------------------------------------- a claim

  ghost function Takes(q: Pool, n: string): seq<DecCoins>
    requires |q.uptimes| == UPTIME_COUNT && n in q.positions
  {
    Yields(q.uptimes, q.tick, Copies(Take(n, q.positions[n])))
  }

  /** `y` is accumulator `u` with the position's record at the growth inside its range and nothing unclaimed. */
  ghost predicate Refreshed(q: Pool, n: string, u: nat, y: Uptime)
    requires u < |q.uptimes| && n in q.positions
  {
    var x := q.uptimes[u];
    && n in y.acc.positions && FreshRecord(x, q.tick, q.positions[n], y.acc.positions[n]) && y.acc.positions[n].unclaimed == map[]
    && y == x.(acc := x.acc.(positions := x.acc.positions[n := y.acc.positions[n]]))
  }

  lemma TakeIsCollect(x: Uptime, tick: int, ps: Positions, n: string)
    requires UptimeAccumulator.Inv(x, tick, ps) && n in ps
    ensures Do(x, tick, Take(n, ps[n])) == Collect(x, tick, n, ps[n]) && Do(x, tick, Take(n, ps[n])).Ok?
  {
    PlacedTicks(x, tick, ps, n);
    UnfoldDo(x, tick, Take(n, ps[n]));
    CollectKeeps(x, tick, ps, n, "");
  }

  lemma TakeCoins(x: Uptime, tick: int, ps: Positions, n: string, d: string)
    requires UptimeAccumulator.Inv(x, tick, ps) && n in ps
    ensures Do(x, tick, Take(n, ps[n])).Ok?
    ensures Amt(Do(x, tick, Take(n, ps[n])).value.coins, d) == SettledIn(x, tick, ps, n, d) / ONE18 >= 0
  {
    TakeIsCollect(x, tick, ps, n);
    CollectKeeps(x, tick, ps, n, d);
    DivBounds(SettledIn(x, tick, ps, n, d), ONE18, 0);
  }

  lemma TakeLeaves(x: Uptime, tick: int, ps: Positions, n: string)
    requires UptimeAccumulator.Inv(x, tick, ps) && n in ps
    ensures Do(x, tick, Take(n, ps[n])).Ok?
    ensures var y := Do(x, tick, Take(n, ps[n])).value.after;
            && n in y.acc.positions && FreshRecord(x, tick, ps[n], y.acc.positions[n]) && y.acc.positions[n].unclaimed == map[]
            && y == x.(acc := x.acc.(positions := x.acc.positions[n := y.acc.positions[n]]))
  {
    TakeIsCollect(x, tick, ps, n);
    CollectShape(x, tick, ps, n);
  }

  lemma PoolAccumulator(q: Pool, u: nat)
    requires PoolInv(q) && u < UPTIME_COUNT
    ensures UptimeAccumulator.Inv(q.uptimes[u], q.tick, q.positions)
  {
    UnfoldPool(q);
    assert Good(q.uptimes[u], SceneOf(q));
    UnfoldGood(q.uptimes[u], SceneOf(q));
  }

  /** What a claim takes from one accumulator. */
  lemma TakesEarned(q: Pool, n: string, u: nat, d: string)
    requires PoolInv(q) && n in q.positions && u < UPTIME_COUNT
    ensures Amt(Takes(q, n)[u], d) == Earned(q, n, u, d) >= 0
  {
    PoolAccumulator(q, u);
    assert Copies(Take(n, q.positions[n]))[u] == Take(n, q.positions[n]);
    TakeCoins(q.uptimes[u], q.tick, q.positions, n, d);
  }

  /** And what it leaves there. */
  lemma TakesRefresh(q: Pool, n: string, u: nat)
    requires PoolInv(q) && n in q.positions && u < UPTIME_COUNT
    ensures Refreshed(q, n, u, After(q.uptimes, q.tick, Copies(Take(n, q.positions[n])))[u])
  {
    PoolAccumulator(q, u);
    assert Copies(Take(n, q.positions[n]))[u] == Take(n, q.positions[n]);
    TakeLeaves(q.uptimes[u], q.tick, q.positions, n);
  }

  /** One more accumulator. */
  lemma PayoutNext(cs: seq<DecCoins>, factor: int, age: int, forfeit: bool, k: nat, d: string)
    requires 0 < k <= |cs| == UPTIME_COUNT && factor > 0 && Amt(cs[k - 1], d) >= 0
    ensures Amt(PayoutBefore(cs, factor, age, forfeit, k), d) == Amt(PayoutBefore(cs, factor, age, forfeit, k - 1), d)
              + if (PaysFrom(k - 1) <= age) != forfeit then Amt(cs[k - 1], d) / factor else 0
  {
    UptimesAre(k - 1);
    DescaledIs(Amt(cs[k - 1], d), factor);
  }

  lemma {:induction false} PayoutIs(q: Pool, n: string, age: int, d: string, k: nat)
    requires PoolInv(q) && n in q.positions && k <= UPTIME_COUNT
    ensures Amt(PayoutBefore(Takes(q, n), q.factor, age, false, k), d) == PaidOut(q, n, age, d, k)
    ensures Amt(PayoutBefore(Takes(q, n), q.factor, age, true, k), d) == KeptBack(q, n, age, d, k)
  {
    if k > 0 {
      PayoutIs(q, n, age, d, k - 1);
      TakesEarned(q, n, k - 1, d);
      PayoutNext(Takes(q, n), q.factor, age, false, k, d);
      PayoutNext(Takes(q, n), q.factor, age, true, k, d);
    }
  }

  datatype Case = Case(q: Pool, n: string, age: int, d: string)

  /** A live position of a pool. */
  ghost predicate Live(q: Pool, n: string) { |q.uptimes| == UPTIME_COUNT && n in q.positions && q.factor > 0 }

  ghost function KeptFor(y: Case): int { if Live(y.q, y.n) then KeptBack(y.q, y.n, y.age, y.d, UPTIME_COUNT) else 0 }

  /** `KeptBack` by all accumulators, kept folded. */
  ghost function KeptByAge(q: Pool, n: string, age: int, d: string): int { FoldedFn(KeptFor)(Case(q, n, age, d)) }

  lemma UnfoldKept(q: Pool, n: string, age: int, d: string)
    requires Live(q, n)
    ensures KeptByAge(q, n, age, d) == KeptBack(q, n, age, d, UPTIME_COUNT)
  {
    UnfoldFn(KeptFor, Case(q, n, age, d));
  }

  /** What a claim by `n` at this age makes of the synced pool `q`: it is paid by every accumulator
      whose time it has reached, and forfeits the scaled coins of every other. */
  ghost predicate PaidAndForfeited(y: (Case, Receipt)) {
    var (c, r) := y;
    && Live(c.q, c.n) && |r.forfeited| == UPTIME_COUNT
    && Amt(r.paid, c.d) == PaidOut(c.q, c.n, c.age, c.d, UPTIME_COUNT)
    && forall u {:trigger r.forfeited[u]} | 0 <= u < UPTIME_COUNT ::
         if PaysFrom(u) <= c.age then r.forfeited[u] == map[] else Amt(r.forfeited[u], c.d) == Earned(c.q, c.n, u, c.d)
  }

  /** `PaidAndForfeited`, kept folded. */
  ghost predicate PaysByAge(q: Pool, n: string, age: int, r: Receipt, d: string) { Folded(PaidAndForfeited)((Case(q, n, age, d), r)) }

  lemma UnfoldPays(q: Pool, n: string, age: int, r: Receipt, d: string)
    ensures PaysByAge(q, n, age, r, d) <==> PaidAndForfeited((Case(q, n, age, d), r))
  {
    Unfold(PaidAndForfeited, (Case(q, n, age, d), r));
  }

  lemma TakenPays(q: Pool, n: string, age: int, d: string)
    requires PoolInv(q) && n in q.positions
    ensures PaysByAge(q, n, age, Taken(q, n, age), d)
    ensures Amt(Taken(q, n, age).refund, d) == KeptByAge(q, n, age, d)
  {
    UnfoldKept(q, n, age, d);
    UnfoldPays(q, n, age, Taken(q, n, age), d);
    PayoutIs(q, n, age, d, UPTIME_COUNT);
    var r := Taken(q, n, age);
    forall u | 0 <= u < UPTIME_COUNT
      ensures if PaysFrom(u) <= age then r.forfeited[u] == map[] else Amt(r.forfeited[u], d) == Earned(q, n, u, d)
    {
      UptimesAre(u);
      TakesEarned(q, n, u, d);
    }
  }

  lemma ClaimIs(p: Pool, n: string, now: int)
    requires PoolInv(p) && Collected(p, n, now).Ok?
    ensures n in p.positions && p.positions[n].joinTime <= now && Synced(p, now).Ok?
    ensures var q := Synced(p, now).value;
            PoolInv(q) && q.positions == p.positions && Collected(p, n, now) == Ok(Taken(q, n, now - p.positions[n].joinTime))
  {
    SyncRests(p, now);
    CollectedIs(p, n, now);
  }

  /** A claim pays, from every accumulator whose time the position has reached, the whole coins
      of what it has earned there over the factor; from the others it forfeits what it has
      earned, in scaled coins. */
  lemma ClaimPays(p: Pool, n: string, now: int, d: string)
    requires PoolInv(p) && Collected(p, n, now).Ok?
    ensures n in p.positions && Synced(p, now).Ok? && n in Synced(p, now).value.positions
    ensures var q, r, age := Synced(p, now).value, Collected(p, n, now).value, now - p.positions[n].joinTime;
            age >= 0 && PaysByAge(q, n, age, r, d) && Amt(r.refund, d) == KeptByAge(q, n, age, d)
  {
    ClaimIs(p, n, now);
    TakenPays(Synced(p, now).value, n, now - p.positions[n].joinTime, d);
  }

  /** It leaves the position fresh in every accumulator, and touches nothing else of the synced pool. */
  lemma ClaimLeaves(p: Pool, n: string, now: int, u: nat)
    requires PoolInv(p) && Collected(p, n, now).Ok? && u < UPTIME_COUNT
    ensures Synced(p, now).Ok? && n in Synced(p, now).value.positions
    ensures var q, r := Synced(p, now).value, Collected(p, n, now).value.pool;
            r == q.(uptimes := r.uptimes) && Refreshed(q, n, u, r.uptimes[u])
  {
    ClaimIs(p, n, now);
    TakesRefresh(Synced(p, now).value, n, u);
  }

  lemma {:induction false} OldKeepsAll(q: Pool, n: string, age: int, d: string, k: nat)
    requires |q.uptimes| == UPTIME_COUNT && n in q.positions && q.factor > 0 && k <= UPTIME_COUNT && age >= 1_209_600_000_000_000
    ensures KeptBack(q, n, age, d, k) == 0
  {
    if k > 0 {
      OldKeepsAll(q, n, age, d, k - 1);
    }
  }

  lemma NoneForfeited(q: Pool, n: string, age: int, r: Receipt, d: string)
    requires PaysByAge(q, n, age, r, d) && age >= 1_209_600_000_000_000
    ensures |r.forfeited| == UPTIME_COUNT && forall u {:trigger r.forfeited[u]} | 0 <= u < UPTIME_COUNT :: r.forfeited[u] == map[]
  {
    UnfoldPays(q, n, age, r, d);
    forall u | 0 <= u < UPTIME_COUNT
      ensures r.forfeited[u] == map[]
    {
      assert PaysFrom(u) <= age;
    }
  }

  /** A position of fourteen days forfeits nothing; one that joins and claims at the same instant
      is paid nothing. */
  lemma OldForfeitNothing(p: Pool, n: string, now: int, d: string)
    requires PoolInv(p) && Collected(p, n, now).Ok?
    ensures n in p.positions
    ensures var r, age := Collected(p, n, now).value, now - p.positions[n].joinTime;
            && (age >= 14 * 24 * 60 * 60 * 1_000_000_000 ==>
                  Amt(r.refund, d) == 0 && forall u {:trigger r.forfeited[u]} | 0 <= u < UPTIME_COUNT :: r.forfeited[u] == map[])
            && (age == 0 ==> Amt(r.paid, d) == 0)
  {
    ClaimPays(p, n, now, d);
    var q, r, age := Synced(p, now).value, Collected(p, n, now).value, now - p.positions[n].joinTime;
    if age >= 1_209_600_000_000_000 {
      UnfoldKept(q, n, age, d);
      OldKeepsAll(q, n, age, d, UPTIME_COUNT);
      NoneForfeited(q, n, age, r, d);
    } else if age == 0 {
      UnfoldPays(q, n, age, r, d);
      YoungGetsNothing(q, n, d, UPTIME_COUNT);
    }
  }

  lemma {:induction false} YoungGetsNothing(q: Pool, n: string, d: string, k: nat)
    requires |q.uptimes| == UPTIME_COUNT && n in q.positions && q.factor > 0 && k <= UPTIME_COUNT
    ensures PaidOut(q, n, 0, d, k) == 0
  {
    if k > 0 {
      YoungGetsNothing(q, n, d, k - 1);
    }
  }

  // --------------------------------------------------------------------------- a withdrawal

  lemma ZeroPer(liquidity: int)
    requires liquidity > 0
    ensures 0 / liquidity == 0
  {
  }

  /** The value of an accumulator through the acts of a withdrawal. */
  lemma ChangeKeepsValue(x: Uptime, tick: int, n: string, pos: Position, delta: int)
    ensures AfterAct(x, Do(x, tick, Change(n, pos, delta))).acc.value == x.acc.value
  {
    UnfoldDo(x, tick, Change(n, pos, delta));
    ResizeKeepsValue(x, tick, n, pos, delta);
  }

  lemma ResizedKeepsValue(st: AccumulatorState.State, n: string, delta: int, interval: DecCoins)
    ensures AccumulatorState.Resized(st, n, delta, interval).Ok? ==> AccumulatorState.Resized(st, n, delta, interval).value.value == st.value
  {
  }

  lemma ResizeKeepsValue(x: Uptime, tick: int, n: string, pos: Position, delta: int)
    ensures Resize(x, tick, n, pos, delta).Ok? ==> Resize(x, tick, n, pos, delta).value.acc.value == x.acc.value
  {
    var inside, outside := GrowthInside(x, tick, pos.lower, pos.upper), GrowthOutside(x, tick, pos.lower, pos.upper);
    if inside.Ok? && outside.Ok? && AddOutside(x, n, outside.value).Ok? {
      ResizedKeepsValue(AddOutside(x, n, outside.value).value.acc, n, delta, inside.value);
    }
  }

  lemma ForgetKeepsValue(x: Uptime, tick: int, gone: set<int>)
    ensures AfterAct(x, Do(x, tick, Forget(gone))).acc == x.acc
  {
    UnfoldDo(x, tick, Forget(gone));
  }

  lemma ReturnRaises(x: Uptime, tick: int, c: DecCoins, liquidity: int, d: string)
    requires liquidity > 0 && Amt(c, d) >= 0
    ensures Amt(AfterAct(x, Do(x, tick, Return(c, liquidity))).acc.value, d) == Amt(x.acc.value, d) + Amt(c, d) * ONE36 / liquidity
  {
    UnfoldDo(x, tick, Return(c, liquidity));
    ZeroPer(liquidity);
    assert Amt(c, d) * ONE18 * ONE18 == Amt(c, d) * ONE36;
  }

  /** What accumulator `u` gets back: the forfeited coins over the liquidity still in range. */
  function Regained(coins: int, active: int): int { if active < ONE18 then 0 else coins * ONE36 / active }

  lemma DepartedValue(y: Departure, u: nat, d: string)
    requires |y.xs| == |y.cs| == UPTIME_COUNT && y.n in y.s.positions && u < UPTIME_COUNT && Amt(y.cs[u], d) >= 0
    ensures Amt(Leaving(y)[u].acc.value, d) == Amt(y.xs[u].acc.value, d) + Regained(Amt(y.cs[u], d), y.active)
  {
    UnfoldLeaving(y);
    var pos := y.s.positions[y.n];
    var xs := After(y.xs, y.s.tick, Copies(Change(y.n, pos, y.delta)));
    var ys := Regiven(xs, y.s.tick, y.cs, y.active);
    assert Copies(Change(y.n, pos, y.delta))[u] == Change(y.n, pos, y.delta);
    ChangeKeepsValue(y.xs[u], y.s.tick, y.n, pos, y.delta);
    if y.active >= ONE18 {
      assert Returns(y.cs, y.active)[u] == Return(y.cs[u], y.active);
      ReturnRaises(xs[u], y.s.tick, y.cs[u], y.active, d);
    }
    assert Copies(Forget(y.gone))[u] == Forget(y.gone);
    ForgetKeepsValue(ys[u], y.s.tick, y.gone);
  }

  /** Exactly when a withdrawal succeeds. */
  lemma WithdrawWhen(p: Pool, n: string, amount: int, now: int)
    requires PoolInv(p)
    ensures Withdrawn(p, n, amount, now).Ok?
       <==> n in p.positions && 0 < amount <= p.positions[n].liquidity && p.lastUpdate <= now && p.positions[n].joinTime <= now
  {
    if n in p.positions && 0 < amount <= p.positions[n].liquidity && p.lastUpdate <= now && p.positions[n].joinTime <= now {
      WithdrawnIs(p, n, amount, now);
    } else if Withdrawn(p, n, amount, now).Ok? {
      ClaimIs(p, n, now);
      SyncRests(p, now);
      NothingWithdrawn(Collected(p, n, now).value.pool, n, p.positions[n]);
    }
  }

  lemma NothingWithdrawn(q: Pool, n: string, pos: Position)
    requires |q.uptimes| == UPTIME_COUNT
    ensures !AllDo(q.uptimes, q.tick, Copies(Change(n, pos, 0)))
  {
    UnfoldDo(q.uptimes[0], q.tick, Change(n, pos, 0));
    assert Copies(Change(n, pos, 0))[0] == Change(n, pos, 0);
  }

  /** The positions once one has given up some of its liquidity. */
  function Without(ps: Positions, n: string, amount: int): Positions
    requires n in ps
  {
    if ps[n].liquidity == amount then ps - {n} else ps[n := ps[n].(liquidity := ps[n].liquidity - amount)]
  }

  lemma WithdrawClaims(p: Pool, n: string, amount: int, now: int)
    requires PoolInv(p) && Withdrawn(p, n, amount, now).Ok?
    ensures n in p.positions && p.positions[n].joinTime <= now && Synced(p, now).Ok? && Collected(p, n, now).Ok?
    ensures PoolInv(Synced(p, now).value) && Synced(p, now).value.positions == p.positions
    ensures ShrinksTo(Collected(p, n, now).value, Withdrawn(p, n, amount, now).value, n, amount)
  {
    WithdrawWhen(p, n, amount, now);
    WithdrawnIs(p, n, amount, now);
    ClaimIs(p, n, now);
  }

  lemma ShrunkFields(q: Pool, n: string, amount: int, cs: seq<DecCoins>)
    requires |q.uptimes| == |cs| == UPTIME_COUNT && n in q.positions
    ensures var r, pos := Shrunk(q, n, amount, cs), q.positions[n];
            && r.positions == Without(q.positions, n, amount)
            && r.liquidity == q.liquidity - (if pos.lower <= q.tick < pos.upper then amount else 0)
            && r.tick == (if |r.positions| == 0 then 0 else q.tick)
            && r.lastUpdate == q.lastUpdate && r.factor == q.factor && r.incentives == q.incentives
  {
    UnfoldLeft(q.positions, n, -amount);
  }

  /** A withdrawal takes the liquidity from the position, and from the pool if it is in range;
      the rest of the position and all others stay. */
  lemma WithdrawLeaves(p: Pool, n: string, amount: int, now: int)
    requires PoolInv(p) && Withdrawn(p, n, amount, now).Ok?
    ensures n in p.positions && Synced(p, now).Ok?
    ensures var q, r, pos := Synced(p, now).value, Withdrawn(p, n, amount, now).value.pool, p.positions[n];
            && r.positions == Without(p.positions, n, amount)
            && r.liquidity == p.liquidity - (if pos.lower <= p.tick < pos.upper then amount else 0)
            && r.tick == (if |r.positions| == 0 then 0 else p.tick)
            && r.lastUpdate == now && r.factor == p.factor && r.incentives == q.incentives
  {
    WithdrawClaims(p, n, amount, now);
    ClaimLeaves(p, n, now, 0);
    var c := Collected(p, n, now).value;
    ShrunkFields(c.pool, n, amount, c.forfeited);
  }

  /** It pays what a claim pays, and gives what is forfeited back to the owner if no liquidity is
      left in range. */
  lemma WithdrawPays(p: Pool, n: string, amount: int, now: int, d: string)
    requires PoolInv(p) && Withdrawn(p, n, amount, now).Ok?
    ensures n in p.positions && Synced(p, now).Ok?
    ensures var q, r, age := Synced(p, now).value, Withdrawn(p, n, amount, now).value, now - p.positions[n].joinTime;
            && PaysByAge(q, n, age, r, d)
            && Amt(r.refund, d) == (if r.pool.liquidity < ONE18 then KeptByAge(q, n, age, d) else 0)
  {
    WithdrawClaims(p, n, amount, now);
    ClaimPays(p, n, now, d);
    SamePayments(Synced(p, now).value, n, now - p.positions[n].joinTime, Collected(p, n, now).value, Withdrawn(p, n, amount, now).value, d);
  }

  /** If there is some, what is forfeited raises every accumulator by the forfeited coins over the
      liquidity in range. */
  lemma WithdrawReturns(p: Pool, n: string, amount: int, now: int, u: nat, d: string)
    requires PoolInv(p) && Withdrawn(p, n, amount, now).Ok? && u < UPTIME_COUNT
    ensures n in p.positions && Synced(p, now).Ok? && n in Synced(p, now).value.positions
    ensures var q, r, age := Synced(p, now).value, Withdrawn(p, n, amount, now).value.pool, now - p.positions[n].joinTime;
            && |r.uptimes| == UPTIME_COUNT
            && Amt(r.uptimes[u].acc.value, d) == Amt(q.uptimes[u].acc.value, d)
                 + (if PaysFrom(u) <= age then 0 else Regained(Earned(q, n, u, d), r.liquidity))
  {
    WithdrawClaims(p, n, amount, now);
    ClaimPays(p, n, now, d);
    ClaimLeaves(p, n, now, u);
    RegainedValue(Collected(p, n, now).value, n, amount, Withdrawn(p, n, amount, now).value, u, d, Synced(p, now).value,
                  now - p.positions[n].joinTime);
  }

  lemma SamePayments(q: Pool, n: string, age: int, c: Receipt, r: Receipt, d: string)
    requires PaysByAge(q, n, age, c, d) && r.paid == c.paid && r.forfeited == c.forfeited
    ensures PaysByAge(q, n, age, r, d)
  {
    UnfoldPays(q, n, age, c, d);
    UnfoldPays(q, n, age, r, d);
  }

  lemma RegainedValue(c: Receipt, n: string, amount: int, r: Receipt, u: nat, d: string, q: Pool, age: int)
    requires ShrinksTo(c, r, n, amount) && u < UPTIME_COUNT && PoolInv(q) && n in q.positions
    requires PaysByAge(q, n, age, c, d) && Refreshed(q, n, u, c.pool.uptimes[u])
    ensures |r.pool.uptimes| == UPTIME_COUNT
    ensures Amt(r.pool.uptimes[u].acc.value, d) == Amt(q.uptimes[u].acc.value, d)
              + (if PaysFrom(u) <= age then 0 else Regained(Earned(q, n, u, d), r.pool.liquidity))
  {
    TakesEarned(q, n, u, d);
    var pos := c.pool.positions[n];
    var active := ActiveAfter(c.pool, pos, -amount);
    var y := Departure(c.pool.uptimes, SceneOf(c.pool), n, -amount, c.forfeited, active, Gone(c.pool.ticks, pos, -amount));
    assert r.pool.uptimes == Leaving(y) && r.pool.liquidity == active;
    UnfoldPays(q, n, age, c, d);
    assert if PaysFrom(u) <= age then c.forfeited[u] == map[] else Amt(c.forfeited[u], d) == Earned(q, n, u, d);
    DepartedValue(y, u, d);
    if active >= ONE18 {
      ZeroPer(active);
    }
  }

  // ------------------------------------------------------------------------ a new position

  /** A position joins exactly if its range and liquidity are right, it names the time, its name
      is new to the pool and to every accumulator, and time has not gone backwards. */
  lemma JoinWhen(p: Pool, n: string, pos: Position, firstTick: int, now: int)
    requires PoolInv(p)
    ensures Joined(p, n, pos, firstTick, now).Ok?
       <==> && pos.lower < pos.upper && pos.liquidity > 0 && pos.joinTime == now && n !in p.positions && p.lastUpdate <= now
            && forall u | 0 <= u < UPTIME_COUNT :: n !in p.uptimes[u].acc.positions
  {
    if pos.lower < pos.upper && pos.liquidity > 0 && pos.joinTime == now && n !in p.positions && p.lastUpdate <= now
       && forall u | 0 <= u < UPTIME_COUNT :: n !in p.uptimes[u].acc.positions {
      JoiningKeeps(p, n, pos, firstTick, now, "");
    } else {
      SyncRests(if |p.positions| == 0 then p.(tick := firstTick) else p, now);
    }
  }

  /** It is stored as it is, in a pool that is otherwise synced; the first one sets the tick. */
  lemma JoinStores(p: Pool, n: string, pos: Position, firstTick: int, now: int)
    requires PoolInv(p) && Joined(p, n, pos, firstTick, now).Ok?
    ensures var r, tick := Joined(p, n, pos, firstTick, now).value, if |p.positions| == 0 then firstTick else p.tick;
            && r.positions == p.positions[n := pos] && pos.joinTime == now && n !in p.positions && r.tick == tick
            && r.liquidity == p.liquidity + (if pos.lower <= tick < pos.upper then pos.liquidity else 0)
            && r.lastUpdate == now && r.factor == p.factor
  {
    SyncRests(if |p.positions| == 0 then p.(tick := firstTick) else p, now);
  }
}
