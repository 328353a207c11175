/** The laws of growth inside and outside tick ranges, for arbitrary trackers between zero
    and the global value, at every current tick. */
module GrowthLaws {
  import opened Coins
  import opened MapSums
  import opened UptimeAccumulator

  ghost predicate Tracking(x: Uptime, ts: set<int>) {
    ts <= x.trackers.Keys && forall d :: TrackersIn(x, d)
  }

  /** Adjacent ranges add up. */
  lemma AdjacentRanges(x: Uptime, tick: int, lo: int, mid: int, hi: int, d: string)
    requires lo < mid < hi && Tracking(x, {lo, mid, hi})
    ensures GrowthInside(x, tick, lo, mid).Ok? && GrowthInside(x, tick, mid, hi).Ok? && GrowthInside(x, tick, lo, hi).Ok?
    ensures Amt(GrowthInside(x, tick, lo, mid).value, d) + Amt(GrowthInside(x, tick, mid, hi).value, d)
         == Amt(GrowthInside(x, tick, lo, hi).value, d)
  {
    GrowthAmounts(x, tick, lo, mid);
    GrowthAmounts(x, tick, mid, hi);
    GrowthAmounts(x, tick, lo, hi);
  }

  /** Neither query panics, inside and outside make up the global value, and what is outside
      is never negative. */
  lemma InsideAndOutside(x: Uptime, tick: int, lo: int, hi: int, d: string)
    requires lo < hi && Tracking(x, {lo, hi})
    ensures GrowthInside(x, tick, lo, hi).Ok? && GrowthOutside(x, tick, lo, hi).Ok?
    ensures Amt(GrowthInside(x, tick, lo, hi).value, d) + Amt(GrowthOutside(x, tick, lo, hi).value, d) == Amt(x.acc.value, d)
    ensures Amt(GrowthOutside(x, tick, lo, hi).value, d) >= 0
  {
    GrowthAmounts(x, tick, lo, hi);
    assert TrackersIn(x, d);
  }

  /** A new tick has all past growth below it: a range that starts there has seen no more than
      its upper tick records, and one that ends there has seen all but what is below its lower tick. */
  lemma NewTick(x: Uptime, tick: int, t: int, d: string)
    requires t !in x.trackers && forall e :: TrackersIn(x, e)
    ensures forall e :: TrackersIn(InitTick(x, tick, t), e)
    ensures Get(BelowOf(InitTick(x, tick, t), tick, d), t) == Amt(x.acc.value, d)
    ensures forall s | s in x.trackers :: Get(BelowOf(InitTick(x, tick, t), tick, d), s) == Get(BelowOf(x, tick, d), s)
  {
    forall e ensures TrackersIn(InitTick(x, tick, t), e) {
      assert TrackersIn(x, e);
    }
  }

  /** An accrual raises the growth inside a range by all of it if the range contains the
      current tick, and by nothing otherwise. */
  lemma AccrualReaches(x: Uptime, tick: int, lo: int, hi: int, amt: DecCoins, d: string)
    requires lo < hi && Tracking(x, {lo, hi}) && !AnyNegative(amt)
    ensures GrowthInside(x, tick, lo, hi).Ok? && GrowthInside(Accrue(x, amt), tick, lo, hi).Ok?
    ensures Amt(GrowthInside(Accrue(x, amt), tick, lo, hi).value, d)
         == Amt(GrowthInside(x, tick, lo, hi).value, d) + (if lo <= tick < hi then Amt(amt, d) else 0)
  {
    NonNegative(amt);
    forall e ensures TrackersIn(Accrue(x, amt), e) {
      assert TrackersIn(x, e);
    }
    GrowthAmounts(x, tick, lo, hi);
    GrowthAmounts(Accrue(x, amt), tick, lo, hi);
  }

  /** Crossing ticks, in either direction and any number at once, leaves the growth inside
      every range as it was. */
  lemma CrossingKeepsInside(x: Uptime, tick: int, tick': int, lo: int, hi: int, d: string)
    requires lo < hi && Tracking(x, {lo, hi})
    ensures GrowthInside(x, tick, lo, hi).Ok? && GrowthInside(CrossTo(x, tick, tick'), tick', lo, hi).Ok?
    ensures Amt(GrowthInside(CrossTo(x, tick, tick'), tick', lo, hi).value, d) == Amt(GrowthInside(x, tick, lo, hi).value, d)
  {
    forall e ensures TrackersIn(CrossTo(x, tick, tick'), e) {
      CrossTrackers(x, tick, tick', e);
    }
    GrowthAmounts(x, tick, lo, hi);
    GrowthAmounts(CrossTo(x, tick, tick'), tick', lo, hi);
    CrossGrowth(x, tick, tick', lo, hi, d);
  }
}
