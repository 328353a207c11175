/** Conservation over every run of the plain accumulator: what was added is what
    was paid out plus what is still owed, within half a unit per settlement. */
module AccumulatorConservation {
  import opened FixedPoint
  import opened Coins
  import opened Folding
  import opened MapSums
  import opened Options
  import opened AccumulatorState

  datatype Op =
    | AddValue(amt: DecCoins)
    | Open(name: string, shares: int)
    | Resize(name: string, n: int)
    | Collect(name: string)
    | Delete(name: string)
    | Deposit(name: string, coins: DecCoins)

  /** What an operation does beside changing the state: decimal coins paid out
      (change included), and how many rewards it settled with rounding. */
  datatype Effect = Effect(state: State, paid: DecCoins, settled: nat)

  function Apply(st: State, op: Op): Result<Effect, Error> {
    match op
    case AddValue(amt) => Ok(Effect(AddedValue(st, amt), map[], 0))
    case Open(name, shares) => Ok(Effect(Opened(st, name, shares, st.value), map[], 0))
    case Resize(name, n) => var s :- Resized(st, name, n, st.value); Ok(Effect(s, map[], 1))
    case Collect(name) =>
      var c :- Claimed(st, name);
      Ok(Effect(c.state, Plus(FromWhole(c.coins), c.dust), 1))
    case Delete(name) => var r :- Deleted(st, name); Ok(Effect(r.0, r.1, 1))
    case Deposit(name, coins) => var s :- Deposited(st, name, coins); Ok(Effect(s, map[], 0))
  }

  /** What the operation brings in, per denomination, in units of 10^-36. */
  function Income(st: State, op: Op, d: string): int {
    match op
    case AddValue(amt) => Amt(amt, d) * st.total
    case Deposit(name, coins) => if Apply(st, op).Ok? then ONE18 * Amt(coins, d) else 0
    case _ => 0
  }

  /** Runs add non-negative rewards and open positions under fresh names. */
  predicate Allowed(st: State, op: Op) {
    match op
    case AddValue(amt) => !AnyNegative(amt)
    case Open(name, shares) => name !in st.positions && shares >= 0
    case _ => true
  }

  // ---------------------------------------------------------------------- the invariant

  ghost function SharesOf(ps: map<string, Record>): map<string, int> {
    map n | n in ps :: ps[n].shares
  }

  /** Unclaimed rewards less what the snapshot has already accounted for. */
  ghost function NetOf(ps: map<string, Record>, d: string): map<string, int> {
    map n | n in ps :: Net(ps[n], d)
  }

  ghost function Net(r: Record, d: string): int {
    ONE18 * Amt(r.unclaimed, d) - Amt(r.snapshot, d) * r.shares
  }

  ghost predicate SnapshotsBelow(st: State) {
    forall n, d | n in st.positions :: Amt(st.positions[n].snapshot, d) <= Amt(st.value, d)
  }

  ghost predicate Sound(st: State) {
    && st.total == Sum(SharesOf(st.positions))
    && SnapshotsBelow(st)
    && forall n | n in st.positions :: st.positions[n].shares >= 0
  }

  /** `Sound`, kept folded. */
  ghost predicate Inv(st: State) {
    Folded(Sound)(st)
  }

  lemma UnfoldInv(st: State)
    ensures Inv(st) <==> Sound(st)
  {
    Unfold(Sound, st);
  }

  /** All that is owed: stored unclaimed rewards and pending growth of every position. */
  ghost function Owed(st: State, d: string): int {
    Sum(NetOf(st.positions, d)) + Amt(st.value, d) * st.total
  }

  // ------------------------------------------------------------------------- one record

  lemma PutSums(ps: map<string, Record>, n: string, r: Record, d: string)
    ensures Sum(SharesOf(ps[n := r])) == Sum(SharesOf(ps)) + r.shares - (if n in ps then ps[n].shares else 0)
    ensures Sum(NetOf(ps[n := r], d)) == Sum(NetOf(ps, d)) + Net(r, d) - (if n in ps then Net(ps[n], d) else 0)
  {
    assert SharesOf(ps[n := r]) == SharesOf(ps)[n := r.shares];
    SumUpdate(SharesOf(ps), n, r.shares);
    assert NetOf(ps[n := r], d) == NetOf(ps, d)[n := Net(r, d)];
    SumUpdate(NetOf(ps, d), n, Net(r, d));
  }

  lemma DropSums(ps: map<string, Record>, n: string, d: string)
    requires n in ps
    ensures Sum(SharesOf(ps - {n})) == Sum(SharesOf(ps)) - ps[n].shares
    ensures Sum(NetOf(ps - {n}, d)) == Sum(NetOf(ps, d)) - Net(ps[n], d)
  {
    assert SharesOf(ps - {n}) == SharesOf(ps) - {n};
    SumPick(SharesOf(ps), n);
    assert NetOf(ps - {n}, d) == NetOf(ps, d) - {n};
    SumPick(NetOf(ps, d), n);
  }

  /** The subtraction in `GetTotalRewards` never goes negative. */
  lemma RewardsOf(st: State, n: string, d: string)
    requires Inv(st) && n in st.positions
    ensures var r := st.positions[n];
            && TotalRewards(st, r).Ok?
            && Amt(TotalRewards(st, r).value, d)
               == Amt(r.unclaimed, d) + RoundHalfEven((Amt(st.value, d) - Amt(r.snapshot, d)) * r.shares, ONE18)
  {
    UnfoldInv(st);
    var growth := Minus(st.value, st.positions[n].snapshot);
    forall e ensures Amt(growth, e) >= 0 {
      assert Amt(st.positions[n].snapshot, e) <= Amt(st.value, e);
    }
    NonNegative(growth);
  }

  /** Within half a unit of 10^-18, that is of `ONE18` here. */
  predicate WithinHalf(gap: int, n: nat) {
    -ONE18 * n <= 2 * gap <= ONE18 * n
  }

  /** A settlement turns pending growth into rewards within half a unit. */
  lemma Settles(st: State, n: string, d: string)
    requires Inv(st) && n in st.positions
    ensures var r := st.positions[n];
            && r.shares >= 0 && TotalRewards(st, r).Ok?
            && WithinHalf(Net(r, d) + Amt(st.value, d) * r.shares - ONE18 * Amt(TotalRewards(st, r).value, d), 1)
  {
    var r := st.positions[n];
    assert r.shares >= 0 by { UnfoldInv(st); }
    RewardsOf(st, n, d);
    SettleArithmetic(Amt(r.unclaimed, d), Amt(st.value, d), Amt(r.snapshot, d), r.shares, Amt(TotalRewards(st, r).value, d));
  }

  lemma SettleArithmetic(u: int, v: int, s: int, k: int, rewards: int)
    requires rewards == u + RoundHalfEven((v - s) * k, ONE18)
    ensures WithinHalf(ONE18 * u - s * k + v * k - ONE18 * rewards, 1)
  {
    RoundNear((v - s) * k, ONE18);
    assert (v - s) * k == v * k - s * k;
  }

  /** What a settlement takes from what is owed, in numbers. */
  lemma SettleGap(owed: int, owed': int, claim: int, rewards: int, kept: int)
    requires owed' - owed == kept - claim && WithinHalf(claim - ONE18 * rewards, 1)
    ensures WithinHalf(owed - (ONE18 * rewards - kept) - owed', 1)
  {
  }

  lemma PutInv(st: State, name: string, r: Record, d: string)
    requires Inv(st) && r.shares >= 0 && r.snapshot == st.value
    ensures var before := if name in st.positions then st.positions[name].shares else 0;
            var net := if name in st.positions then Net(st.positions[name], d) else 0;
            var st' := Put(st, name, r).(total := st.total + r.shares - before);
            && Inv(st')
            && Owed(st', d) - Owed(st, d)
               == ONE18 * Amt(r.unclaimed, d) - net - Amt(st.value, d) * before
  {
    UnfoldInv(st);
    PutSums(st.positions, name, r, d);
    var v, before := Amt(st.value, d), if name in st.positions then st.positions[name].shares else 0;
    PutArithmetic(v, st.total, r.shares, before);
    UnfoldInv(Put(st, name, r).(total := st.total + r.shares - before));
  }

  lemma PutArithmetic(v: int, total: int, k: int, before: int)
    ensures v * (total + k - before) == v * total + v * k - v * before
  {
  }

  lemma DropInv(st: State, name: string, d: string)
    requires Inv(st) && name in st.positions
    ensures var r := st.positions[name];
            var st' := st.(positions := st.positions - {name}, total := st.total - r.shares);
            && Inv(st')
            && Owed(st', d) - Owed(st, d) == -Net(r, d) - Amt(st.value, d) * r.shares
  {
    UnfoldInv(st);
    DropSums(st.positions, name, d);
    PutArithmetic(Amt(st.value, d), st.total, 0, st.positions[name].shares);
    UnfoldInv(st.(positions := st.positions - {name}, total := st.total - st.positions[name].shares));
  }

  // ---------------------------------------------------------------------- one operation

  /** In minus out minus the change in what is owed. */
  ghost function Gap(st: State, op: Op, d: string): int
    requires Apply(st, op).Ok?
  {
    var e := Apply(st, op).value;
    Income(st, op, d) + Owed(st, d) - ONE18 * Amt(e.paid, d) - Owed(e.state, d)
  }

  ghost predicate Balanced(st: State, op: Op, d: string) {
    && Apply(st, op) != Err(Panicked)
    && (Apply(st, op).Ok? ==>
          var n := Apply(st, op).value.settled;
          Inv(Apply(st, op).value.state) && WithinHalf(Gap(st, op, d), n))
  }

  /** The operation succeeds with effect `e`, which balances. */
  lemma Concluded(st: State, op: Op, d: string, e: Effect)
    requires Apply(st, op) == Ok(e) && Inv(e.state)
    requires WithinHalf(Income(st, op, d) + Owed(st, d) - ONE18 * Amt(e.paid, d) - Owed(e.state, d), e.settled)
    ensures Balanced(st, op, d)
  {
  }

  lemma AddValueBalanced(st: State, amt: DecCoins, d: string)
    requires Inv(st) && !AnyNegative(amt)
    ensures Balanced(st, AddValue(amt), d)
  {
    var st' := AddedValue(st, amt);
    UnfoldInv(st);
    UnfoldInv(st');
    NonNegative(amt);
    forall e ensures Amt(st'.value, e) >= Amt(st.value, e) {
    }
    assert (Amt(st.value, d) + Amt(amt, d)) * st.total == Amt(st.value, d) * st.total + Amt(amt, d) * st.total;
  }

  lemma OpenBalanced(st: State, name: string, shares: int, d: string)
    requires Inv(st) && name !in st.positions && shares >= 0
    ensures Balanced(st, Open(name, shares), d)
  {
    PutInv(st, name, Record(shares, st.value, map[]), d);
  }

  lemma ResizeShape(st: State, name: string, n: int)
    requires name in st.positions && st.positions[name].shares + n >= 0 && n != 0
    requires TotalRewards(st, st.positions[name]).Ok?
    ensures var r := st.positions[name];
            var r' := Record(r.shares + n, st.value, TotalRewards(st, r).value);
            Resized(st, name, n, st.value) == Ok(Put(st, name, r').(total := st.total + r'.shares - r.shares))
  {
  }

  lemma ResizeBalanced(st: State, name: string, n: int, d: string)
    requires Inv(st)
    ensures Balanced(st, Resize(name, n), d)
  {
    if name in st.positions && st.positions[name].shares + n >= 0 && n != 0 {
      var r := st.positions[name];
      Settles(st, name, d);
      var r' := Record(r.shares + n, st.value, TotalRewards(st, r).value);
      PutInv(st, name, r', d);
      var st' := Put(st, name, r').(total := st.total + r'.shares - r.shares);
      var rewards := Amt(TotalRewards(st, r).value, d);
      SettleGap(Owed(st, d), Owed(st', d), Net(r, d) + Amt(st.value, d) * r.shares, rewards, ONE18 * rewards);
      ResizeShape(st, name, n);
      Concluded(st, Resize(name, n), d, Effect(st', map[], 1));
    } else if name in st.positions {
      Settles(st, name, d);
    }
  }

  lemma WholeAndChange(c: DecCoins, d: string)
    ensures Amt(Plus(FromWhole(Whole(c)), Change(c)), d) == Amt(c, d)
  {
  }

  lemma CollectBalanced(st: State, name: string, d: string)
    requires Inv(st)
    ensures Balanced(st, Collect(name), d)
  {
    if name in st.positions {
      var r := st.positions[name];
      Settles(st, name, d);
      WholeAndChange(TotalRewards(st, r).value, d);
      if r.shares == 0 {
        DropInv(st, name, d);
      } else {
        PutInv(st, name, Record(r.shares, st.value, map[]), d);
      }
    }
  }

  lemma DeleteShape(st: State, name: string)
    requires name in st.positions && TotalRewards(st, st.positions[name]).Ok?
    ensures var r := st.positions[name];
            var rewards := TotalRewards(st, r).value;
            Deleted(st, name) == Ok((st.(positions := st.positions - {name}, total := st.total - r.shares),
                                     Plus(FromWhole(Whole(rewards)), Change(rewards))))
  {
    var r := st.positions[name];
    assert st.positions[name := Record(r.shares, st.value, map[])] - {name} == st.positions - {name};
    assert st.positions - {name} - {name} == st.positions - {name};
  }

  /** What a deleted position was owed is paid out, within half a unit. */
  lemma DeletedGap(st: State, name: string, d: string, st': State, rewards: DecCoins)
    requires Inv(st) && name in st.positions && TotalRewards(st, st.positions[name]) == Ok(rewards)
    requires st' == st.(positions := st.positions - {name}, total := st.total - st.positions[name].shares)
    ensures Inv(st') && WithinHalf(Owed(st, d) - ONE18 * Amt(rewards, d) - Owed(st', d), 1)
  {
    Settles(st, name, d);
    DropInv(st, name, d);
    var r := st.positions[name];
    SettleGap(Owed(st, d), Owed(st', d), Net(r, d) + Amt(st.value, d) * r.shares, Amt(rewards, d), 0);
  }

  lemma DeleteBalanced(st: State, name: string, d: string)
    requires Inv(st)
    ensures Balanced(st, Delete(name), d)
  {
    if name in st.positions {
      RewardsOf(st, name, d);
      var r := st.positions[name];
      var rewards := TotalRewards(st, r).value;
      var st' := st.(positions := st.positions - {name}, total := st.total - r.shares);
      DeletedGap(st, name, d, st', rewards);
      WholeAndChange(rewards, d);
      DeleteShape(st, name);
      Concluded(st, Delete(name), d, Effect(st', Plus(FromWhole(Whole(rewards)), Change(rewards)), 1));
    }
  }

  lemma DepositBalanced(st: State, name: string, coins: DecCoins, d: string)
    requires Inv(st)
    ensures Balanced(st, Deposit(name, coins), d)
  {
    if name in st.positions && !AnyNegative(coins) {
      var r := st.positions[name];
      var r' := r.(unclaimed := Plus(r.unclaimed, coins));
      UnfoldInv(st);
      UnfoldInv(Put(st, name, r'));
      PutSums(st.positions, name, r', d);
      assert Net(r', d) - Net(r, d) == ONE18 * Amt(coins, d);
      assert Owed(Put(st, name, r'), d) - Owed(st, d) == ONE18 * Amt(coins, d);
      Concluded(st, Deposit(name, coins), d, Effect(Put(st, name, r'), map[], 0));
    }
  }

  lemma StepBalanced(st: State, op: Op, d: string)
    requires Inv(st) && Allowed(st, op)
    ensures Balanced(st, op, d)
  {
    match op
    case AddValue(amt) => AddValueBalanced(st, amt, d);
    case Open(name, shares) => OpenBalanced(st, name, shares, d);
    case Resize(name, n) => ResizeBalanced(st, name, n, d);
    case Collect(name) => CollectBalanced(st, name, d);
    case Delete(name) => DeleteBalanced(st, name, d);
    case Deposit(name, coins) => DepositBalanced(st, name, coins, d);
  }

  // ----------------------------------------------------------------- what is owed, spelt out

  /** What one position could claim: its unclaimed rewards and its pending growth. */
  ghost function Holding(r: Record, v: int, d: string): int {
    ONE18 * Amt(r.unclaimed, d) + (v - Amt(r.snapshot, d)) * r.shares
  }

  ghost function HoldingsOf(ps: map<string, Record>, v: int, d: string): map<string, int> {
    map n | n in ps :: Holding(ps[n], v, d)
  }

  lemma {:induction false} OwedIsHoldings(ps: map<string, Record>, v: int, d: string)
    ensures Sum(NetOf(ps, d)) + v * Sum(SharesOf(ps)) == Sum(HoldingsOf(ps, v, d))
    decreases ps.Keys
  {
    if ps == map[] {
      assert NetOf(ps, d) == map[] && SharesOf(ps) == map[] && HoldingsOf(ps, v, d) == map[];
    } else {
      var n :| n in ps;
      OwedIsHoldings(ps - {n}, v, d);
      DropSums(ps, n, d);
      DropHolding(ps, n, v, d);
      NetAndHolding(ps[n], v, d);
      AddHolding(Sum(NetOf(ps - {n}, d)), Sum(SharesOf(ps - {n})), Sum(HoldingsOf(ps - {n}, v, d)),
                 Net(ps[n], d), ps[n].shares, Holding(ps[n], v, d), v);
    }
  }

  lemma DropHolding(ps: map<string, Record>, n: string, v: int, d: string)
    requires n in ps
    ensures Sum(HoldingsOf(ps, v, d)) == Sum(HoldingsOf(ps - {n}, v, d)) + Holding(ps[n], v, d)
  {
    assert HoldingsOf(ps - {n}, v, d) == HoldingsOf(ps, v, d) - {n};
    SumPick(HoldingsOf(ps, v, d), n);
  }

  lemma NetAndHolding(r: Record, v: int, d: string)
    ensures Net(r, d) + v * r.shares == Holding(r, v, d)
  {
    assert (v - Amt(r.snapshot, d)) * r.shares == v * r.shares - Amt(r.snapshot, d) * r.shares;
  }

  lemma AddHolding(net: int, shares: int, holding: int, net1: int, shares1: int, holding1: int, v: int)
    requires net + v * shares == holding && net1 + v * shares1 == holding1
    ensures net + net1 + v * (shares + shares1) == holding + holding1
  {
    assert v * (shares + shares1) == v * shares + v * shares1;
  }

  // ------------------------------------------------------------------------ whole runs

  datatype Tally = Tally(state: State, income: int, paid: int, settled: nat)

  /** A run from a new accumulator, tallied for denomination `d`; operations that
      return an error change nothing. */
  function Run(ops: seq<Op>, d: string): Tally {
    if ops == [] then Tally(Initial, 0, 0, 0) else
      var t, op := Run(ops[..|ops| - 1], d), ops[|ops| - 1];
      match Apply(t.state, op)
      case Err(_) => t
      case Ok(e) => Tally(e.state, t.income + Income(t.state, op, d), t.paid + Amt(e.paid, d), t.settled + e.settled)
  }

  predicate Admissible(ops: seq<Op>) {
    ops == [] || (Admissible(ops[..|ops| - 1]) && Allowed(Run(ops[..|ops| - 1], "").state, ops[|ops| - 1]))
  }

  lemma {:induction false} StateIgnoresDenom(ops: seq<Op>, d: string)
    ensures Run(ops, d).state == Run(ops, "").state
    ensures Run(ops, d).settled == Run(ops, "").settled
  {
    if ops != [] {
      StateIgnoresDenom(ops[..|ops| - 1], d);
    }
  }

  /** Every run: stored total shares are the sum of all positions' shares, no
      snapshot exceeds the global value, and per denomination income equals
      payments plus everything still owed, within half of 10^-18 per settlement. */
  lemma RunConserves(ops: seq<Op>, d: string)
    requires Admissible(ops)
    ensures var t := Run(ops, d);
            && Sound(t.state)
            && Owed(t.state, d) == Sum(HoldingsOf(t.state.positions, Amt(t.state.value, d), d))
            && -ONE18 * t.settled <= 2 * (t.income - ONE18 * t.paid - Owed(t.state, d)) <= ONE18 * t.settled
  {
    RunBalances(ops, d);
    OwedIsHoldings(Run(ops, d).state.positions, Amt(Run(ops, d).state.value, d), d);
  }

  lemma {:induction false} RunBalances(ops: seq<Op>, d: string)
    requires Admissible(ops)
    ensures var t := Run(ops, d);
            && Sound(t.state)
            && -ONE18 * t.settled <= 2 * (t.income - ONE18 * t.paid - Owed(t.state, d)) <= ONE18 * t.settled
  {
    if ops == [] {
      UnfoldInv(Initial);
      assert SharesOf(Initial.positions) == map[] && NetOf(Initial.positions, d) == map[];
    } else {
      var front, op := ops[..|ops| - 1], ops[|ops| - 1];
      RunBalances(front, d);
      StateIgnoresDenom(front, d);
      UnfoldInv(Run(front, d).state);
      StepBalanced(Run(front, d).state, op, d);
      UnfoldInv(Run(ops, d).state);
    }
  }

  /** No admissible operation makes `GetTotalRewards` panic. */
  lemma NoPanic(ops: seq<Op>)
    requires ops != [] && Admissible(ops)
    ensures Apply(Run(ops[..|ops| - 1], "").state, ops[|ops| - 1]) != Err(Panicked)
  {
    RunConserves(ops[..|ops| - 1], "");
    UnfoldInv(Run(ops[..|ops| - 1], "").state);
    StepBalanced(Run(ops[..|ops| - 1], "").state, ops[|ops| - 1], "");
  }

  /** Without a fresh name the stored total stays right exactly when the record
      overwritten had no shares. */
  lemma OverwriteBreaksTotal(st: State, name: string, shares: int)
    requires st.total == Sum(SharesOf(st.positions)) && name in st.positions
    ensures var st' := Opened(st, name, shares, st.value);
            st'.total == Sum(SharesOf(st'.positions)) <==> st.positions[name].shares == 0
  {
    PutSums(st.positions, name, Record(shares, st.value, map[]), "");
  }
}
