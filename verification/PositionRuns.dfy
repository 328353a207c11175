/** The age of a position over whole runs: it counts from the operation that created it. */
module PositionRuns {
  import opened Folding
  import opened UptimeAccumulator
  import opened IncentivePool
  import opened Solvency
  import opened ClaimRules

  /** `pos` is what is left of a position that one of the operations created. */
  ghost predicate ComesFrom(ops: seq<Op>, n: string, pos: Position) {
    exists i | 0 <= i < |ops| :: Begins(ops[i], n, pos)
  }

  ghost predicate Begins(op: Op, n: string, pos: Position) {
    && op.Join? && op.n == n && pos.joinTime == op.now
    && pos.lower == op.pos.lower && pos.upper == op.pos.upper && pos.liquidity <= op.pos.liquidity
  }

  /** What is left of `was`: the same range and time, and no more liquidity. */
  ghost predicate Remains(pos: Position, was: Position) {
    pos.lower == was.lower && pos.upper == was.upper && pos.joinTime == was.joinTime && pos.liquidity <= was.liquidity
  }

  /** Every position of `q` was in `p`, or the operation created it. */
  ghost predicate Inherits(p: Pool, op: Op, q: Pool) {
    forall n | n in q.positions :: Begins(op, n, q.positions[n]) || (n in p.positions && Remains(q.positions[n], p.positions[n]))
  }

  lemma JoinInherits(p: Pool, op: Op)
    requires PoolInv(p) && op.Join? && Joined(p, op.n, op.pos, op.firstTick, op.now).Ok?
    ensures Inherits(p, op, Joined(p, op.n, op.pos, op.firstTick, op.now).value)
  {
    JoinStores(p, op.n, op.pos, op.firstTick, op.now);
  }

  lemma WithdrawInherits(p: Pool, op: Op)
    requires PoolInv(p) && op.Withdraw? && Withdrawn(p, op.n, op.amount, op.now).Ok?
    ensures Inherits(p, op, Withdrawn(p, op.n, op.amount, op.now).value.pool)
  {
    WithdrawWhen(p, op.n, op.amount, op.now);
    WithdrawLeaves(p, op.n, op.amount, op.now);
  }

  lemma CollectInherits(p: Pool, op: Op)
    requires PoolInv(p) && op.Collect? && Collected(p, op.n, op.now).Ok?
    ensures Inherits(p, op, Collected(p, op.n, op.now).value.pool)
  {
    ClaimLeaves(p, op.n, op.now, 0);
  }

  /** Every position of a pool after an operation was there before, or the operation created it. */
  lemma StepInherits(l: Ledger, op: Op)
    requires PoolInv(l.pool)
    ensures Inherits(l.pool, op, Step(l, op).pool)
  {
    match op
    case Join(n, pos, firstTick, now) =>
      if Joined(l.pool, n, pos, firstTick, now).Ok? {
        JoinInherits(l.pool, op);
      }
    case Withdraw(n, amount, now) =>
      if Withdrawn(l.pool, n, amount, now).Ok? {
        WithdrawInherits(l.pool, op);
      }
    case Collect(n, now) =>
      if Collected(l.pool, n, now).Ok? {
        CollectInherits(l.pool, op);
      }
    case _ => OthersInherit(l, op);
  }

  lemma OthersInherit(l: Ledger, op: Op)
    requires PoolInv(l.pool) && !op.Join? && !op.Withdraw? && !op.Collect?
    ensures Step(l, op).pool.positions == l.pool.positions
  {
  }

  /** In every run a live position has the range it was created with, no more liquidity, and the
      time of the operation that created it. */
  lemma {:induction false} PositionsComeFrom(factor: int, start: int, ops: seq<Op>, n: string)
    requires factor >= 1 && n in Run(factor, start, ops).pool.positions
    ensures ComesFrom(ops, n, Run(factor, start, ops).pool.positions[n])
  {
    var front, op := ops[..|ops| - 1], ops[|ops| - 1];
    var l := Run(factor, start, front);
    RunSound(factor, start, front, "");
    UnfoldFn(NextPair, (l, op));
    StepInherits(l, op);
    var pos := Run(factor, start, ops).pool.positions[n];
    if !Begins(op, n, pos) {
      PositionsComeFrom(factor, start, front, n);
      var i :| 0 <= i < |front| && Begins(front[i], n, l.pool.positions[n]);
      assert Begins(ops[i], n, pos);
    }
  }
}
