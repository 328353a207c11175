/** What a crossing, a move and a migration make of a pool. */
module PoolRules {
  import opened Coins
  import opened UptimeActs
  import opened IncentivePool
  import opened IncentiveKeeps
  import opened SyncRules

  /** A swap crosses exactly the next initialised tick, at a time not before the last update. It
      ends on the tick, or just below it, and the tick's net liquidity enters or leaves. */
  lemma CrossMoves(p: Pool, t: int, up: bool, now: int)
    requires PoolInv(p)
    ensures Crossed(p, t, up, now).Ok? <==> NextTick(p, t, up) && p.lastUpdate <= now
    ensures Crossed(p, t, up, now).Ok? ==>
              var q, r := Synced(p, now).value, Crossed(p, t, up, now).value;
              && t in p.ticks && r == q.(tick := r.tick, liquidity := r.liquidity, uptimes := r.uptimes)
              && r.tick == (if up then t else t - 1)
              && r.liquidity == p.liquidity + (if up then p.ticks[t].net else -p.ticks[t].net)
  {
    if NextTick(p, t, up) {
      SyncRests(p, now);
      if p.lastUpdate <= now {
        CrossingKeeps(p, t, up, now, "");
      }
    }
  }

  /** In every accumulator it turns the growth tracked at that tick to the other side, and nothing else. */
  lemma CrossTurns(p: Pool, t: int, up: bool, now: int, u: nat, d: string)
    requires PoolInv(p) && Crossed(p, t, up, now).Ok? && u < UPTIME_COUNT
    ensures Synced(p, now).Ok? && |Crossed(p, t, up, now).value.uptimes| == UPTIME_COUNT
    ensures var x, y := Synced(p, now).value.uptimes[u], Crossed(p, t, up, now).value.uptimes[u];
            && t in x.trackers && t in y.trackers && y == x.(trackers := x.trackers[t := y.trackers[t]])
            && Amt(y.trackers[t], d) == Amt(x.acc.value, d) - Amt(x.trackers[t], d)
  {
    CrossMoves(p, t, up, now);
    SyncRests(p, now);
    var q := Synced(p, now).value;
    assert Copies(Turn(t))[u] == Turn(t);
    assert Do(q.uptimes[u], q.tick, Copies(Turn(t))[u]).Ok?;
    UnfoldDo(q.uptimes[u], q.tick, Turn(t));
  }

  /** A pool migrates exactly if it is not scaled; its factor is then 10^27, and only its accumulators
      change beside it. */
  lemma MigratesOnce(p: Pool)
    requires PoolInv(p)
    ensures Magnified(p).Ok? <==> p.factor == 1
    ensures Magnified(p).Ok? ==>
              var q := Magnified(p).value;
              q == p.(uptimes := q.uptimes, factor := 1_000_000_000_000_000_000_000_000_000) && |q.uptimes| == UPTIME_COUNT
  {
    if p.factor == 1 {
      MigratingKeeps(p, "");
    }
  }

  /** Every accumulator's value, trackers and snapshots of live positions are multiplied by 10^27;
      shares and unclaimed rewards stay. */
  lemma MigratesAll(p: Pool, u: nat, d: string)
    requires PoolInv(p) && Magnified(p).Ok? && u < UPTIME_COUNT
    ensures |Magnified(p).value.uptimes| == UPTIME_COUNT
    ensures var x, y, f := p.uptimes[u], Magnified(p).value.uptimes[u], 1_000_000_000_000_000_000_000_000_000;
            && Amt(y.acc.value, d) == Amt(x.acc.value, d) * f && y.acc.total == x.acc.total
            && y.trackers.Keys == x.trackers.Keys && y.acc.positions.Keys == x.acc.positions.Keys
            && (forall t | t in x.trackers :: Amt(y.trackers[t], d) == Amt(x.trackers[t], d) * f)
            && forall n | n in x.acc.positions ::
                 && y.acc.positions[n].shares == x.acc.positions[n].shares && y.acc.positions[n].unclaimed == x.acc.positions[n].unclaimed
                 && Amt(y.acc.positions[n].snapshot, d) == Amt(x.acc.positions[n].snapshot, d) * (if n in p.positions then f else 1)
  {
    MigratesOnce(p);
    var acts := Copies(Magnify(p.positions.Keys));
    assert acts[u] == Magnify(p.positions.Keys);
    assert Do(p.uptimes[u], p.tick, acts[u]).Ok?;
    UnfoldDo(p.uptimes[u], p.tick, Magnify(p.positions.Keys));
  }

  /** Between initialised ticks a swap may move anywhere, and moves there; past one it does not. */
  lemma MovesWithin(p: Pool, tick: int)
    ensures Moved(p, tick).Ok? <==> forall s | s in p.ticks :: (s <= p.tick <==> s <= tick)
    ensures Moved(p, tick).Ok? ==> Moved(p, tick).value == p.(tick := tick)
  {
    if s :| s in p.ticks && (s <= p.tick) != (s <= tick) {
      assert (p.tick < s) != (tick < s);
    }
  }
}
