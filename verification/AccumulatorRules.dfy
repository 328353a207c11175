/** When the operations of the accumulator succeed, and what they do to every position. */
module AccumulatorRules {
  import opened FixedPoint
  import opened Coins
  import opened Folding
  import opened Options
  import opened AccumulatorState
  import opened AccumulatorConservation

  /** The position an operation names, if any. */
  predicate Names(op: Op, m: string) { !op.AddValue? && op.name == m }

  ghost function Shares(st: State, m: string): int { if m in st.positions then st.positions[m].shares else 0 }

  ghost function Snapshot(st: State, m: string, d: string): int { if m in st.positions then Amt(st.positions[m].snapshot, d) else 0 }

  ghost function Unclaimed(st: State, m: string, d: string): int { if m in st.positions then Amt(st.positions[m].unclaimed, d) else 0 }

  /** What a position has earned: what it has set aside, and the growth since its snapshot times
      its shares, rounded. */
  ghost function EarnedOf(y: (State, string, string)): int {
    var (st, m, d) := y;
    Unclaimed(st, m, d) + RoundHalfEven((Amt(st.value, d) - Snapshot(st, m, d)) * Shares(st, m), ONE18)
  }

  /** `EarnedOf`, kept folded. */
  ghost function Earned(st: State, m: string, d: string): int { FoldedFn(EarnedOf)((st, m, d)) }

  lemma EarnedIs(st: State, m: string, d: string)
    requires Inv(st) && m in st.positions
    ensures TotalRewards(st, st.positions[m]).Ok? && Amt(TotalRewards(st, st.positions[m]).value, d) == Earned(st, m, d)
  {
    UnfoldFn(EarnedOf, (st, m, d));
    RewardsOf(st, m, d);
  }

  /** Exactly when an operation succeeds in a sound state. */
  lemma SucceedsWhen(st: State, op: Op)
    requires Inv(st)
    ensures Apply(st, op).Ok? <==> match op
                                   case AddValue(_) => true
                                   case Open(_, _) => true
                                   case Resize(m, n) => n != 0 && m in st.positions && st.positions[m].shares + n >= 0
                                   case Collect(m) => m in st.positions
                                   case Delete(m) => m in st.positions
                                   case Deposit(m, coins) => m in st.positions && forall d :: Amt(coins, d) >= 0
  {
    if !op.AddValue? && op.name in st.positions {
      Settles(st, op.name, "");
    }
    if op.Deposit? {
      NonNegative(op.coins);
    }
  }

  /** Whether a position is there after an operation, and with how many shares: a claim removes one
      without shares. */
  lemma SharesAfter(st: State, op: Op, m: string)
    requires Inv(st) && Apply(st, op).Ok?
    ensures var st' := Apply(st, op).value.state;
            && Shares(st', m) == (if !Names(op, m) then Shares(st, m)
                                  else if op.Open? then op.shares
                                  else if op.Resize? then Shares(st, m) + op.n
                                  else if op.Delete? then 0
                                  else Shares(st, m))
            && (m in st'.positions <==> if !Names(op, m) then m in st.positions
                                        else !op.Delete? && !(op.Collect? && Shares(st, m) == 0))
  {
    SucceedsWhen(st, op);
  }

  /** Only the record of `m` may differ. */
  ghost predicate Only(st: State, st': State, m: string) {
    st'.value == st.value && forall k | k != m :: (k in st'.positions <==> k in st.positions)
                                                  && (k in st.positions ==> st'.positions[k] == st.positions[k])
  }

  lemma ResizedOnly(st: State, m: string, n: int, interval: DecCoins)
    ensures Resized(st, m, n, interval).Ok? ==> Only(st, Resized(st, m, n, interval).value, m)
  {
  }

  lemma ClaimedOnly(st: State, m: string)
    ensures Claimed(st, m).Ok? ==> Only(st, Claimed(st, m).value.state, m)
  {
  }

  lemma DeletedOnly(st: State, m: string)
    ensures Deleted(st, m).Ok? ==> Only(st, Deleted(st, m).value.0, m)
  {
    ClaimedOnly(st, m);
  }

  lemma AppliesOnly(st: State, op: Op)
    requires Apply(st, op).Ok? && !op.AddValue?
    ensures Only(st, Apply(st, op).value.state, op.name)
  {
    match op
    case Resize(m, n) => ResizedOnly(st, m, n, st.value);
    case Collect(m) => ClaimedOnly(st, m);
    case Delete(m) => DeletedOnly(st, m);
    case _ =>
  }

  /** The record of the position an operation names. */
  ghost function NewRecord(st: State, op: Op, rewards: DecCoins): Record
    requires !op.AddValue? && (op.Open? || op.name in st.positions)
  {
    match op
    case Open(_, shares) => Record(shares, st.value, map[])
    case Resize(m, n) => Record(st.positions[m].shares + n, st.value, rewards)
    case Deposit(m, coins) => st.positions[m].(unclaimed := Plus(st.positions[m].unclaimed, coins))
    case _ => Record(st.positions[op.name].shares, st.value, map[])
  }

  lemma ResizedRecord(st: State, op: Op, rewards: DecCoins)
    requires op.Resize? && Apply(st, op).Ok? && op.name in st.positions && TotalRewards(st, st.positions[op.name]) == Ok(rewards)
    ensures var st' := Apply(st, op).value.state; op.name in st'.positions && st'.positions[op.name] == NewRecord(st, op, rewards)
  {
  }

  lemma CollectedRecord(st: State, op: Op, rewards: DecCoins)
    requires op.Collect? && Apply(st, op).Ok? && op.name in st.positions && TotalRewards(st, st.positions[op.name]) == Ok(rewards)
    requires op.name in Apply(st, op).value.state.positions
    ensures Apply(st, op).value.state.positions[op.name] == NewRecord(st, op, rewards)
  {
  }

  lemma NamedAfter(st: State, op: Op)
    requires Inv(st) && Apply(st, op).Ok? && !op.AddValue? && op.name in Apply(st, op).value.state.positions
    ensures op.Open? || op.name in st.positions
    ensures !op.Open? ==> TotalRewards(st, st.positions[op.name]).Ok?
    ensures Apply(st, op).value.state.positions[op.name] == NewRecord(st, op, if op.Open? then map[] else TotalRewards(st, st.positions[op.name]).value)
  {
    SucceedsWhen(st, op);
    if !op.Open? {
      EarnedIs(st, op.name, "");
      var rewards := TotalRewards(st, st.positions[op.name]).value;
      if op.Resize? {
        ResizedRecord(st, op, rewards);
      } else if op.Collect? {
        CollectedRecord(st, op, rewards);
      } else if op.Delete? {
        DeleteShape(st, op.name);
      }
    }
  }

  /** What it then has set aside and where it takes its growth from: only the position named is
      settled, and a settlement moves the snapshot to the present value. */
  lemma RewardsAfter(st: State, op: Op, m: string, d: string)
    requires Inv(st) && Apply(st, op).Ok? && m in Apply(st, op).value.state.positions
    ensures var st' := Apply(st, op).value.state;
            && Amt(st'.value, d) == Amt(st.value, d) + (if op.AddValue? then Amt(op.amt, d) else 0)
            && Snapshot(st', m, d) == (if Names(op, m) && !op.Deposit? then Amt(st.value, d) else Snapshot(st, m, d))
            && Unclaimed(st', m, d) == (if !Names(op, m) then Unclaimed(st, m, d)
                                        else if op.Resize? then Earned(st, m, d)
                                        else if op.Deposit? then Unclaimed(st, m, d) + Amt(op.coins, d)
                                        else 0)
  {
    if !op.AddValue? {
      AppliesOnly(st, op);
    }
    if Names(op, m) {
      NamedAfter(st, op);
      if op.Resize? {
        EarnedIs(st, m, d);
      }
    }
  }

  lemma CollectPays(st: State, m: string, rewards: DecCoins)
    requires m in st.positions && TotalRewards(st, st.positions[m]) == Ok(rewards)
    ensures Apply(st, Collect(m)).Ok? && Apply(st, Collect(m)).value.paid == Plus(FromWhole(Whole(rewards)), Change(rewards))
  {
  }

  lemma DeletePays(st: State, m: string, rewards: DecCoins)
    requires m in st.positions && TotalRewards(st, st.positions[m]) == Ok(rewards)
    ensures Apply(st, Delete(m)).Ok? && Apply(st, Delete(m)).value.paid == Plus(FromWhole(Whole(rewards)), Change(rewards))
  {
    DeleteShape(st, m);
  }

  /** What an operation pays: all that the position has earned, whole coins and change. */
  lemma PaysEarned(st: State, op: Op, d: string)
    requires Inv(st) && Apply(st, op).Ok?
    ensures Amt(Apply(st, op).value.paid, d) == if op.Collect? || op.Delete? then Earned(st, op.name, d) else 0
  {
    SucceedsWhen(st, op);
    if op.Collect? || op.Delete? {
      EarnedIs(st, op.name, d);
      var rewards := TotalRewards(st, st.positions[op.name]).value;
      WholeAndChange(rewards, d);
      if op.Collect? {
        CollectPays(st, op.name, rewards);
      } else {
        DeletePays(st, op.name, rewards);
      }
    }
  }
}
